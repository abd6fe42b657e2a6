/** Optional values, as Python's `None`-or-value fields. */
module Wrappers {
  datatype Option<+T> = None | Some(value: T)
}

/**
 * What both uploaders share about the MySQL driver: the exceptions a driver
 * call can raise, how a call ends, the answers the server gives to one
 * `with Database(...)` scope, and a connection modelled as the record of the
 * transaction-ending calls made on it.
 */
module Sql {

  /** The exceptions that can leave a driver call. */
  datatype Error =
    | OperationalError   // pymysql.OperationalError: refused connect, timeout, lost connection
    | OtherDbError       // any other pymysql.Error (IntegrityError, ProgrammingError, ...)
    | OtherError         // an exception outside the pymysql.Error family

  /** True of the exceptions an `except pymysql.Error` clause catches. */
  predicate IsDbError(e: Error) {
    e != OtherError
  }

  /** How one call ends: normally, or by raising. */
  datatype Status = Ok | Raised(error: Error)

  /**
   * The server's answers for one `with Database(...)` scope: opening the
   * connection (connect, or acquisition from the pool), the statement the
   * body runs, and the commit or rollback that `__exit__` issues.
   */
  datatype ScopeEnv = ScopeEnv(open: Status, execute: Status, finish: Status)

  /**
   * What leaves a `with` scope in both uploaders. If opening fails, the body
   * and `__exit__` never run. Otherwise an exception raised inside `__exit__`
   * (by commit or rollback) replaces whatever the body raised, and when
   * `__exit__` completes the body's own status leaves the scope.
   */
  function ScopeStatus(env: ScopeEnv): (s: Status)
    ensures s.Ok? <==> env.open.Ok? && env.execute.Ok? && env.finish.Ok?
    ensures s.Raised? ==> s == env.open || s == env.execute || s == env.finish
    ensures env.open.Raised? ==> s == env.open
  {
    if env.open.Raised? then env.open
    else if env.finish.Raised? then env.finish
    else env.execute
  }

  /** How a write cycle reports: it returns a bool, or an exception escapes it. */
  datatype WriteResult = Returned(success: bool) | Propagated(error: Error)

  /** A transaction-ending call on a connection, with the server's answer. */
  datatype Call = CommitCall(answer: Status) | RollbackCall(answer: Status) | CloseCall

  /** The call `__exit__` makes first: commit after a normal body, rollback after an exception. */
  function EndCall(body: Status, answer: Status): (c: Call)
    ensures c.CommitCall? <==> body.Ok?
    ensures c.CommitCall? || c.RollbackCall?
    ensures c.answer == answer
  {
    if body.Ok? then CommitCall(answer) else RollbackCall(answer)
  }

  /** The rows of the transaction became durable: a commit was answered Ok. */
  predicate Committed(calls: seq<Call>) {
    CommitCall(Ok) in calls
  }

  /** A driver connection; the server's behaviour is supplied as answers. */
  class Connection {
    /** The transaction-ending calls made on this connection, in order. */
    var calls: seq<Call>

    constructor ()
      ensures calls == []
    {
      calls := [];
    }

    method Commit(answer: Status) returns (s: Status)
      modifies this
      ensures calls == old(calls) + [CommitCall(answer)]
      ensures s == answer
    {
      calls := calls + [CommitCall(answer)];
      s := answer;
    }

    method Rollback(answer: Status) returns (s: Status)
      modifies this
      ensures calls == old(calls) + [RollbackCall(answer)]
      ensures s == answer
    {
      calls := calls + [RollbackCall(answer)];
      s := answer;
    }

    method Close()
      modifies this
      ensures calls == old(calls) + [CloseCall]
    {
      calls := calls + [CloseCall];
    }
  }
}
