/**
 * The write path of the fault uploader (SQL_upload_dem1.py): a connection
 * pool, a scoped lease over one pooled connection that commits or rolls back
 * and always hands the connection back, and `insert_data`, which makes up to
 * three attempts at a write, sleeping with exponential backoff after each one
 * that fails with an OperationalError.
 */
module PcbUpload {
  import opened Sql

  /**
   * The connection pool, reduced to what the uploader relies on: how many of
   * its connections are currently lent out. Acquisition either succeeds or
   * raises, as the server's answer says.
   */
  class Pool {
    var outstanding: nat

    constructor ()
      ensures outstanding == 0
    {
      outstanding := 0;
    }

    /** `pool.connection()`: lend a fresh lease, or raise. */
    method Acquire(answer: Status) returns (c: Connection?)
      modifies this
      ensures answer.Ok? <==> c != null
      ensures c != null ==> fresh(c) && c.calls == [] && outstanding == old(outstanding) + 1
      ensures c == null ==> outstanding == old(outstanding)
    {
      c := null;
      if answer.Ok? {
        c := new Connection();
        outstanding := outstanding + 1;
      }
    }

    /** `close()` on a pooled connection: it is closed for its holder and returned to the pool. */
    method Return(c: Connection)
      requires outstanding > 0
      modifies this, c
      ensures outstanding == old(outstanding) - 1
      ensures c.calls == old(c.calls) + [CloseCall]
    {
      c.Close();
      outstanding := outstanding - 1;
    }
  }

  /** The source's `Database` over the pool: one lease per `with` statement. */
  class Database {
    const pool: Pool
    var connection: Connection?

    constructor (pool: Pool)
      ensures this.pool == pool && connection == null
    {
      this.pool := pool;
      connection := null;
    }

    /** `__enter__`: take a connection from the pool; a failed acquisition raises and sets nothing. */
    method Enter(answer: Status) returns (s: Status)
      modifies this, pool
      ensures s == answer
      ensures answer.Ok? ==>
        && connection != null && fresh(connection) && connection.calls == []
        && pool.outstanding == old(pool.outstanding) + 1
      ensures answer.Raised? ==> connection == old(connection) && pool.outstanding == old(pool.outstanding)
    {
      var c := pool.Acquire(answer);
      if c != null {
        connection := c;
      }
      s := answer;
    }

    /**
     * `__exit__` after a body that ended with `body`: commit after a normal
     * body, roll back after an exception, and in a `finally` hand the
     * connection back, so it is returned even when the commit or rollback
     * raises. Without a connection it does nothing. The result is what leaves
     * the `with` statement.
     */
    method Exit(body: Status, answer: Status) returns (s: Status)
      requires connection != null ==> pool.outstanding > 0
      modifies connection, pool
      ensures connection == null ==> s == body && pool.outstanding == old(pool.outstanding)
      ensures connection != null ==>
        && connection.calls == old(connection.calls) + [EndCall(body, answer), CloseCall]
        && pool.outstanding == old(pool.outstanding) - 1
        && s == if answer.Raised? then answer else body
    {
      s := body;
      if connection != null {
        var end: Status;
        if body.Ok? {
          end := connection.Commit(answer);
        } else {
          end := connection.Rollback(answer);
        }
        pool.Return(connection);
        if end.Raised? {
          s := end;
        }
      }
    }
  }

  /**
   * The calls one leased scope makes on its connection: none when the
   * acquisition failed, otherwise one commit or rollback and then the close
   * that hands the connection back, whatever that call answered.
   */
  function ScopeCalls(env: ScopeEnv): (calls: seq<Call>)
    ensures env.open.Raised? <==> calls == []
    ensures calls != [] ==> |calls| == 2 && calls[0] == EndCall(env.execute, env.finish) && calls[1] == CloseCall
  {
    if env.open.Raised? then [] else [EndCall(env.execute, env.finish), CloseCall]
  }

  /** The calls of the first `n` attempts' scopes, one list per attempt. */
  function AttemptCalls(attempts: seq<ScopeEnv>, n: nat): seq<seq<Call>>
    requires n <= |attempts|
  {
    seq(n, j requires 0 <= j < n => ScopeCalls(attempts[j]))
  }

  /**
   * `with Database(pool) as cursor: cursor.execute(...)`: one statement in
   * its own transaction on a leased connection. Returns what leaves the
   * `with` statement and the calls made on the lease.
   */
  method RunScope(pool: Pool, env: ScopeEnv) returns (s: Status, calls: seq<Call>)
    modifies pool
    ensures s == ScopeStatus(env)
    ensures calls == ScopeCalls(env)
    ensures pool.outstanding == old(pool.outstanding)
  {
    var db := new Database(pool);
    s := db.Enter(env.open);
    calls := [];
    if s.Ok? {
      var connection := db.connection;
      s := db.Exit(env.execute, env.finish);
      calls := connection.calls;
    }
  }

  const MAX_RETRIES := 3

  /** The failures `insert_data` retries: only pymysql.OperationalError. */
  predicate Transient(s: Status) {
    s == Raised(OperationalError)
  }

  /** The attempt that settles the write: the first one not ending in a transient failure, or the count. */
  function FirstSettled(statuses: seq<Status>): (k: nat)
    ensures k <= |statuses|
  {
    if statuses == [] then 0
    else if Transient(statuses[0]) then 1 + FirstSettled(statuses[1..])
    else 0
  }

  /** `2 ** n`. */
  function Pow2(n: nat): (p: nat)
    ensures p >= 1
  {
    if n == 0 then 1 else 2 * Pow2(n - 1)
  }

  /** The waits after `n` failed attempts: 1, 2, 4, ... seconds. */
  function Backoff(n: nat): (waits: seq<nat>)
    ensures |waits| == n
  {
    seq(n, i requires 0 <= i => Pow2(i))
  }

  /** A run of `insert_data`: its result, the attempts it made and the seconds it slept. */
  datatype RetryRun = RetryRun(result: WriteResult, attempts: nat, sleeps: seq<nat>)

  /**
   * What `insert_data` does when its attempts end with `statuses`: every
   * transient failure is followed by a wait of `2 ** attempt`; the first
   * success returns True; the first other exception escapes; three transient
   * failures return False.
   */
  function Retry(statuses: seq<Status>): (run: RetryRun)
    requires |statuses| == MAX_RETRIES
    ensures 1 <= run.attempts <= MAX_RETRIES
    ensures run.sleeps == Backoff(if run.result == Returned(false) then run.attempts else run.attempts - 1)
    ensures run.result == Returned(false) ==> run.attempts == MAX_RETRIES
    ensures run.result.Propagated? ==> run.result.error != OperationalError
  {
    var k := FirstSettled(statuses);
    FirstSettledIs(statuses, k);
    if k == MAX_RETRIES then RetryRun(Returned(false), MAX_RETRIES, Backoff(MAX_RETRIES))
    else if statuses[k].Ok? then RetryRun(Returned(true), k + 1, Backoff(k))
    else RetryRun(Propagated(statuses[k].error), k + 1, Backoff(k))
  }

  /** The statuses in which the attempts' scopes end. */
  function Statuses(attempts: seq<ScopeEnv>): (statuses: seq<Status>)
    ensures |statuses| == |attempts|
  {
    seq(|attempts|, i requires 0 <= i < |attempts| => ScopeStatus(attempts[i]))
  }

  /** `FirstSettled` is the first index whose status is not transient. */
  lemma {:induction false} FirstSettledIs(statuses: seq<Status>, k: nat)
    requires k <= |statuses|
    ensures FirstSettled(statuses) == k <==>
      (forall j :: 0 <= j < k ==> Transient(statuses[j])) && (k == |statuses| || !Transient(statuses[k]))
  {
    if statuses != [] {
      if k > 0 {
        FirstSettledIs(statuses[1..], k - 1);
        if FirstSettled(statuses) == k {
          assert forall j :: 0 < j < k ==> statuses[j] == statuses[1..][j - 1];
        }
        if (forall j :: 0 <= j < k ==> Transient(statuses[j])) && (k == |statuses| || !Transient(statuses[k])) {
          assert forall j :: 0 <= j < k - 1 ==> statuses[1..][j] == statuses[j + 1];
        }
      }
    }
  }

  /**
   * `insert_data`: up to three attempts, each in its own leased scope. A
   * transient failure sleeps `2 ** attempt` seconds, the last one too; a
   * success returns True at once; any other exception escapes. Every lease
   * goes back to the pool.
   */
  method InsertData(pool: Pool, attempts: seq<ScopeEnv>)
    returns (result: WriteResult, tries: nat, sleeps: seq<nat>, scopes: seq<seq<Call>>)
    requires |attempts| == MAX_RETRIES
    modifies pool
    ensures RetryRun(result, tries, sleeps) == Retry(Statuses(attempts))
    ensures tries <= |attempts| && scopes == AttemptCalls(attempts, tries)
    ensures pool.outstanding == old(pool.outstanding)
  {
    ghost var statuses := Statuses(attempts);
    sleeps, scopes := [], [];
    var attempt := 0;
    while attempt < MAX_RETRIES
      invariant 0 <= attempt <= MAX_RETRIES
      invariant sleeps == Backoff(attempt)
      invariant scopes == AttemptCalls(attempts, attempt)
      invariant forall j :: 0 <= j < attempt ==> Transient(statuses[j])
      invariant pool.outstanding == old(pool.outstanding)
    {
      var s, calls := RunScope(pool, attempts[attempt]);
      scopes := scopes + [calls];
      assert scopes == AttemptCalls(attempts, attempt + 1);
      if !Transient(s) {
        FirstSettledIs(statuses, attempt);
        if s.Ok? {
          return Returned(true), attempt + 1, sleeps, scopes;
        }
        return Propagated(s.error), attempt + 1, sleeps, scopes;
      }
      sleeps := sleeps + [Pow2(attempt)];
      attempt := attempt + 1;
    }
    FirstSettledIs(statuses, MAX_RETRIES);
    result, tries := Returned(false), MAX_RETRIES;
  }

  /** Every run makes between one and three attempts and sleeps `2 ** i` after the `i`-th failed one. */
  lemma RetryBounds(statuses: seq<Status>)
    requires |statuses| == MAX_RETRIES
    ensures 1 <= Retry(statuses).attempts <= MAX_RETRIES
    ensures |Retry(statuses).sleeps| ==
      if Retry(statuses).result == Returned(false) then Retry(statuses).attempts else Retry(statuses).attempts - 1
    ensures forall i :: 0 <= i < |Retry(statuses).sleeps| ==> Retry(statuses).sleeps[i] == Pow2(i)
  {
  }

  /** `k` transient failures and then a success: True after `k + 1` attempts, having slept 1, 2, ..., `2 ** (k - 1)`. */
  lemma RetrySucceedsAfter(statuses: seq<Status>, k: nat)
    requires |statuses| == MAX_RETRIES && k < MAX_RETRIES
    requires forall j :: 0 <= j < k ==> statuses[j] == Raised(OperationalError)
    requires statuses[k] == Ok
    ensures Retry(statuses) == RetryRun(Returned(true), k + 1, Backoff(k))
  {
    FirstSettledIs(statuses, k);
  }

  /** Three transient failures: False after exactly three attempts, having slept 1, 2 and 4 seconds. */
  lemma RetryExhausted(statuses: seq<Status>)
    requires statuses == [Raised(OperationalError), Raised(OperationalError), Raised(OperationalError)]
    ensures Retry(statuses) == RetryRun(Returned(false), 3, [1, 2, 4])
  {
    FirstSettledIs(statuses, 3);
    assert Backoff(3) == [1, 2, 4];
  }

  /** Any other exception is not retried: it escapes from the attempt that raised it. */
  lemma RetryPropagates(statuses: seq<Status>, k: nat)
    requires |statuses| == MAX_RETRIES && k < MAX_RETRIES
    requires forall j :: 0 <= j < k ==> statuses[j] == Raised(OperationalError)
    requires statuses[k].Raised? && statuses[k].error != OperationalError
    ensures Retry(statuses) == RetryRun(Propagated(statuses[k].error), k + 1, Backoff(k))
  {
    FirstSettledIs(statuses, k);
  }

  /** False is returned only when every attempt failed transiently, True only after a successful attempt. */
  lemma RetryResultMeaning(statuses: seq<Status>)
    requires |statuses| == MAX_RETRIES
    ensures Retry(statuses).result == Returned(false) <==> forall j :: 0 <= j < MAX_RETRIES ==> Transient(statuses[j])
    ensures Retry(statuses).result == Returned(true) <==>
      exists k :: 0 <= k < MAX_RETRIES && statuses[k] == Ok && forall j :: 0 <= j < k ==> Transient(statuses[j])
  {
    var k := FirstSettled(statuses);
    FirstSettledIs(statuses, k);
    FirstSettledIs(statuses, MAX_RETRIES);
    if exists k' :: 0 <= k' < MAX_RETRIES && statuses[k'] == Ok && forall j :: 0 <= j < k' ==> Transient(statuses[j]) {
      var k' :| 0 <= k' < MAX_RETRIES && statuses[k'] == Ok && forall j :: 0 <= j < k' ==> Transient(statuses[j]);
      FirstSettledIs(statuses, k');
    }
  }
}
