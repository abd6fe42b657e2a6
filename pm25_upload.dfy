/**
 * The environmental uploader (SQL_upload_dem0.py): every cycle it regenerates
 * the station topology, opens a direct connection, builds one PM2.5 row per
 * station, inserts them in one transaction and reports success as a bool;
 * the monitor loop then sleeps 60 seconds after a success and 30 after a
 * failure.
 */
module Pm25Upload {
  import opened Wrappers
  import opened Sql
  import opened Readings
  import opened Stations

  /** `current_time`, the cycle's timestamp, in seconds. */
  type Timestamp = int

  /** What one `generate_pm25()` call reads: the hour of the clock and the noise drawn. */
  datatype Draw = Draw(hour: Hour, noise: Noise)

  /** One row of the batch: (current_time, district, station, pm25), pm25 in tenths. */
  datatype Row = Row(time: Timestamp, district: string, station: string, pm25: int)

  /** `sum(len(s) for s in stations.values())`. */
  function TotalRecords(entries: seq<Entry>): (total: nat)
    ensures forall k :: 0 <= k < |entries| ==> |entries[k].stations| <= total
  {
    if entries == [] then 0
    else
      var init := entries[..|entries| - 1];
      assert forall k :: 0 <= k < |init| ==> init[k] == entries[k];
      TotalRecords(init) + |entries[|entries| - 1].stations|
  }

  /** With 3 to 5 stations per district, the batch has between 3 and 5 rows per district. */
  lemma {:induction false} TotalRecordsBounds(entries: seq<Entry>, districts: seq<string>)
    requires WellShaped(entries, districts)
    ensures MIN_STATIONS * |districts| <= TotalRecords(entries) <= MAX_STATIONS * |districts|
    decreases |entries|
  {
    if entries != [] {
      var n := |entries| - 1;
      assert WellShaped(entries[..n], districts[..n]);
      TotalRecordsBounds(entries[..n], districts[..n]);
    }
  }

  /** Every cycle writes between 48 and 80 rows: 16 districts of 3 to 5 stations. */
  lemma StationTotalRange()
    ensures 48 <= StationTotal() <= 80
  {
    TopologyWellShaped(Seeded(SEED), DISTRICTS);
    TotalRecordsBounds(StationTopology(), DISTRICTS);
  }

  /** The (district, station) pairs of one entry, in station order. */
  function EntryPairs(e: Entry): (pairs: seq<(string, string)>)
    ensures |pairs| == |e.stations|
  {
    seq(|e.stations|, j requires 0 <= j < |e.stations| => (e.district, e.stations[j]))
  }

  /** Every (district, station) pair of a topology, in district order and then station order. */
  function Pairs(entries: seq<Entry>): (pairs: seq<(string, string)>)
    ensures |pairs| == TotalRecords(entries)
  {
    if entries == [] then []
    else Pairs(entries[..|entries| - 1]) + EntryPairs(entries[|entries| - 1])
  }

  /**
   * The batch for a cycle: one row per pair, all stamped with the cycle's
   * time; row `k` carries the reading of the `k`-th `generate_pm25()` call.
   */
  function Rows(time: Timestamp, pairs: seq<(string, string)>, draw: nat -> Draw): (rows: seq<Row>)
    ensures |rows| == |pairs|
  {
    seq(|pairs|, k requires 0 <= k < |pairs| =>
      Row(time, pairs[k].0, pairs[k].1, GeneratePm25(draw(k).hour, draw(k).noise)))
  }

  lemma {:induction false} PairsPrefix(entries: seq<Entry>, i: nat)
    requires i < |entries|
    ensures Pairs(entries[..i + 1]) == Pairs(entries[..i]) + EntryPairs(entries[i])
    ensures TotalRecords(entries[..i + 1]) == TotalRecords(entries[..i]) + |entries[i].stations|
  {
    assert entries[..i + 1][..i] == entries[..i];
  }

  /** The pairs of the first `m` entries are a prefix of all the pairs. */
  lemma {:induction false} PairsPrefixOf(entries: seq<Entry>, m: nat)
    requires m <= |entries|
    ensures TotalRecords(entries[..m]) <= TotalRecords(entries)
    ensures Pairs(entries)[..TotalRecords(entries[..m])] == Pairs(entries[..m])
    decreases |entries| - m
  {
    if m == |entries| {
      assert entries[..m] == entries;
    } else {
      PairsPrefixOf(entries, m + 1);
      PairsPrefix(entries, m);
      var longer := Pairs(entries[..m + 1]);
      assert Pairs(entries)[..TotalRecords(entries[..m])] == longer[..TotalRecords(entries[..m])];
      assert longer[..TotalRecords(entries[..m])] == Pairs(entries[..m]);
    }
  }

  /**
   * The order of the batch: station `j` of district `i` sits right after the
   * stations of all earlier districts.
   */
  lemma PairsOrder(entries: seq<Entry>, i: nat, j: nat)
    requires i < |entries| && j < |entries[i].stations|
    ensures TotalRecords(entries[..i]) + j < |Pairs(entries)|
    ensures Pairs(entries)[TotalRecords(entries[..i]) + j] == (entries[i].district, entries[i].stations[j])
  {
    PairsPrefixOf(entries, i + 1);
    PairsPrefix(entries, i);
    var k := TotalRecords(entries[..i]) + j;
    assert Pairs(entries)[k] == Pairs(entries)[..TotalRecords(entries[..i + 1])][k];
  }

  /**
   * The nested loop of `insert_data` that fills `batch_data`: for each
   * district, for each of its stations, one `generate_pm25()` reading.
   */
  method BuildBatch(time: Timestamp, stations: seq<Entry>, draw: nat -> Draw) returns (batch: seq<Row>)
    ensures |batch| == TotalRecords(stations)
    ensures batch == Rows(time, Pairs(stations), draw)
    ensures forall k :: 0 <= k < |batch| ==> batch[k].time == time
  {
    batch := [];
    var i := 0;
    while i < |stations|
      invariant 0 <= i <= |stations|
      invariant |batch| == TotalRecords(stations[..i]) == |Pairs(stations[..i])|
      invariant forall k :: 0 <= k < |batch| ==>
        batch[k] == Row(time, Pairs(stations[..i])[k].0, Pairs(stations[..i])[k].1,
                        GeneratePm25(draw(k).hour, draw(k).noise))
    {
      var entry := stations[i];
      PairsPrefix(stations, i);
      ghost var done := Pairs(stations[..i]);
      ghost var start := |batch|;
      var j := 0;
      while j < |entry.stations|
        invariant 0 <= j <= |entry.stations|
        invariant |batch| == start + j
        invariant forall k :: 0 <= k < |batch| ==>
          batch[k] == Row(time, (done + EntryPairs(entry))[k].0, (done + EntryPairs(entry))[k].1,
                          GeneratePm25(draw(k).hour, draw(k).noise))
      {
        var d := draw(|batch|);
        batch := batch + [Row(time, entry.district, entry.stations[j], GeneratePm25(d.hour, d.noise))];
        j := j + 1;
      }
      i := i + 1;
    }
    assert stations[..i] == stations;
  }

  /** The source's `Database` for a direct connection: `connection` stays null until `__enter__` connects. */
  class Database {
    var connection: Connection?

    constructor ()
      ensures connection == null
    {
      connection := null;
    }

    /** `__enter__`: connect; a failed connect raises and leaves `connection` as it was. */
    method Enter(answer: Status) returns (s: Status)
      modifies this
      ensures s == answer
      ensures answer.Ok? ==> connection != null && fresh(connection) && connection.calls == []
      ensures answer.Raised? ==> connection == old(connection)
    {
      if answer.Ok? {
        connection := new Connection();
      }
      s := answer;
    }

    /**
     * `__exit__` after a body that ended with `body`: commit after a normal
     * body, roll back after an exception, then close. Closing is reached only
     * when the commit or rollback returned: an exception from either skips it.
     * The result is what leaves the `with` statement.
     */
    method Exit(body: Status, answer: Status) returns (s: Status)
      modifies connection
      ensures connection == null ==> s == body
      ensures connection != null ==>
        connection.calls == old(connection.calls) + [EndCall(body, answer)] + (if answer.Ok? then [CloseCall] else [])
      ensures connection != null ==> s == if answer.Raised? then answer else body
    {
      s := body;
      if connection != null {
        var end: Status;
        if body.Ok? {
          end := connection.Commit(answer);
        } else {
          end := connection.Rollback(answer);
        }
        if end.Raised? {
          return end;
        }
        connection.Close();
      }
    }
  }

  /** The number of rows each cycle writes: one per station of the fixed topology. */
  function StationTotal(): nat {
    TotalRecords(StationTopology())
  }

  /**
   * What one cycle of the uploader is given: its timestamp, what the `k`-th
   * `generate_pm25()` call of the cycle reads, and the server's answers.
   */
  datatype Cycle = Cycle(time: Timestamp, draw: nat -> Draw, scope: ScopeEnv)

  /**
   * How `insert_data` reports a cycle: True when the `with` scope completed,
   * False when a pymysql.Error left it, and any other exception escapes.
   */
  function InsertOutcome(scope: ScopeEnv): (r: WriteResult)
    ensures r == Returned(true) <==> scope.open.Ok? && scope.execute.Ok? && scope.finish.Ok?
    ensures r == Returned(false) <==> ScopeStatus(scope).Raised? && IsDbError(ScopeStatus(scope).error)
    ensures r.Propagated? <==> ScopeStatus(scope) == Raised(OtherError)
  {
    match ScopeStatus(scope)
    case Ok => Returned(true)
    case Raised(e) => if IsDbError(e) then Returned(false) else Propagated(e)
  }

  /**
   * The `try`/`with` block of `insert_data` for a given topology: open the
   * connection, build the batch inside the scope and insert it in one
   * transaction. Returns the outcome, the batch that was built and the calls
   * made on the connection.
   */
  method WriteBatch(time: Timestamp, stations: seq<Entry>, draw: nat -> Draw, scope: ScopeEnv)
    returns (result: WriteResult, batch: seq<Row>, calls: seq<Call>)
    ensures result == InsertOutcome(scope)
    ensures result == Returned(true) <==> Committed(calls)
    ensures scope.open.Raised? ==> batch == [] && calls == []
    ensures scope.open.Ok? ==>
      && batch == Rows(time, Pairs(stations), draw)
      && calls == [EndCall(scope.execute, scope.finish)] + (if scope.finish.Ok? then [CloseCall] else [])
  {
    var db := new Database();
    var s := db.Enter(scope.open);
    batch, calls := [], [];
    if s.Ok? {
      batch := BuildBatch(time, stations, draw);
      var connection := db.connection;
      s := db.Exit(scope.execute, scope.finish);
      calls := connection.calls;
    }
    if s.Ok? {
      result := Returned(true);
    } else if IsDbError(s.error) {
      result := Returned(false);
    } else {
      result := Propagated(s.error);
    }
  }

  /**
   * `insert_data`: regenerate the topology, then write one row per station
   * in a single transaction.
   */
  method InsertData(cycle: Cycle) returns (result: WriteResult, batch: seq<Row>, calls: seq<Call>)
    ensures result == InsertOutcome(cycle.scope)
    ensures result == Returned(true) <==> Committed(calls)
    ensures cycle.scope.open.Raised? ==> batch == [] && calls == []
    ensures cycle.scope.open.Ok? ==>
      && batch == Rows(cycle.time, Pairs(StationTopology()), cycle.draw)
      && |batch| == StationTotal()
      && calls == [EndCall(cycle.scope.execute, cycle.scope.finish)] + (if cycle.scope.finish.Ok? then [CloseCall] else [])
  {
    var stations := GenerateStations();
    result, batch, calls := WriteBatch(cycle.time, stations, cycle.draw, cycle.scope);
  }

  const SUCCESS_SLEEP := 60
  const FAILURE_SLEEP := 30

  /** The sleep that follows a cycle that returned: 60 seconds after a success, 30 after a failure. */
  function SleepAfter(success: bool): (seconds: nat)
    ensures seconds == SUCCESS_SLEEP <==> success
    ensures seconds == FAILURE_SLEEP <==> !success
  {
    if success then SUCCESS_SLEEP else FAILURE_SLEEP
  }

  /** One pass of the loop of `main`: `insert_data`, then the sleep its result calls for. */
  method RunCycle(cycle: Cycle) returns (result: WriteResult, sleep: nat)
    ensures result == InsertOutcome(cycle.scope)
    ensures result.Returned? ==> sleep == SleepAfter(result.success)
  {
    var r, _, _ := InsertData(cycle);
    result := r;
    sleep := if result.Returned? then SleepAfter(result.success) else 0;
  }

  /**
   * `main`: the first `|cycles|` iterations of the endless loop. After each
   * cycle it sleeps 60 seconds on success and 30 on failure; an exception
   * escaping `insert_data` ends the loop (logged as critical).
   */
  method Monitor(cycles: seq<Cycle>) returns (sleeps: seq<nat>, crash: Option<Error>)
    ensures |sleeps| <= |cycles|
    ensures forall i :: 0 <= i < |sleeps| ==>
      && InsertOutcome(cycles[i].scope).Returned?
      && sleeps[i] == SleepAfter(InsertOutcome(cycles[i].scope).success)
    ensures crash.Some? <==> |sleeps| < |cycles|
    ensures crash.Some? ==> InsertOutcome(cycles[|sleeps|].scope) == Propagated(crash.value)
  {
    sleeps := [];
    var i := 0;
    while i < |cycles|
      invariant 0 <= i <= |cycles|
      invariant |sleeps| == i
      invariant forall k :: 0 <= k < i ==>
        && InsertOutcome(cycles[k].scope).Returned?
        && sleeps[k] == SleepAfter(InsertOutcome(cycles[k].scope).success)
    {
      var result, sleep := RunCycle(cycles[i]);
      if result.Propagated? {
        return sleeps, Some(result.error);
      }
      sleeps := sleeps + [sleep];
      i := i + 1;
    }
    crash := None;
  }
}
