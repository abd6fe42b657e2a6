/**
 * The main loop of the fault uploader (`main` in SQL_upload_dem1.py): on
 * every pass it reads the clock, sends a heartbeat when more than ten minutes
 * have passed since the last good one, and inspects and stores one board when
 * more than ten seconds have passed since the last stored inspection. Each
 * timestamp moves only on success; a failed store adds a 30 second cooldown;
 * every pass ends with a one second sleep.
 *
 * The clock is `datetime.now()` in integer microseconds, the resolution of
 * Python's datetime, so the strict comparisons with the intervals are exact.
 * Sleeps are in seconds.
 */
module Scheduler {
  import opened Wrappers
  import opened Sql
  import opened Faults
  import opened PcbUpload

  const SECOND := 1000000
  const DETECTION_INTERVAL := 10 * SECOND
  const HEARTBEAT_INTERVAL := 600 * SECOND

  /** The sleep after a detection whose store failed. */
  const COOLDOWN: nat := 30
  /** The sleep that ends every pass. */
  const TICK: nat := 1

  /** `last_detection_time` and `last_heartbeat`. */
  datatype Clocks = Clocks(lastDetection: int, lastHeartbeat: int)

  /**
   * What one pass of the loop is given: `current_time`, the answers to the
   * heartbeat's scope, the clock `generate_fault_data` reads, its two draws,
   * and the answers to the (up to three) insert attempts.
   */
  datatype Tick = Tick(now: int, heartbeat: ScopeEnv, eventTime: int, faultDraw: real, kindDraw: real,
                       attempts: seq<ScopeEnv>)

  predicate ValidTick(t: Tick) {
    IsUnitDraw(t.faultDraw) && IsUnitDraw(t.kindDraw) && |t.attempts| == MAX_RETRIES
  }

  /** What one pass does: the clocks after it, its sleeps, the events it stored, the exception that ended the loop. */
  datatype Pass = Pass(clocks: Clocks, sleeps: seq<nat>, stored: seq<FaultEvent>, crash: Option<Error>)

  predicate HeartbeatDue(c: Clocks, now: int) {
    now - c.lastHeartbeat > HEARTBEAT_INTERVAL
  }

  predicate DetectionDue(c: Clocks, now: int) {
    now - c.lastDetection > DETECTION_INTERVAL
  }

  /** The heartbeat block: `SELECT 1` in a leased scope; any exception is caught and logged. */
  function Heartbeat(c: Clocks, t: Tick): (c': Clocks)
    ensures c'.lastDetection == c.lastDetection
    ensures c'.lastHeartbeat == c.lastHeartbeat || (HeartbeatDue(c, t.now) && c'.lastHeartbeat == t.now)
    ensures !HeartbeatDue(c, t.now) ==> c' == c
  {
    if HeartbeatDue(c, t.now) && ScopeStatus(t.heartbeat).Ok? then c.(lastHeartbeat := t.now) else c
  }

  /**
   * The detection block and the closing sleep, on the clocks the heartbeat
   * left: inspect and store when more than ten seconds have passed, advancing
   * `last_detection_time` on success and cooling down 30 seconds on failure.
   */
  function Detect(c: Clocks, t: Tick): (p: Pass)
    requires ValidTick(t)
    ensures p.clocks.lastHeartbeat == c.lastHeartbeat
    ensures |p.stored| <= 1
    ensures p.stored != [] ==> p.clocks.lastDetection == t.now && p.crash.None? && DetectionDue(c, t.now)
    ensures p.stored == [] ==> p.clocks.lastDetection == c.lastDetection
    ensures p.crash.Some? ==> DetectionDue(c, t.now)
    ensures p.crash.None? ==> |p.sleeps| >= 1 && p.sleeps[|p.sleeps| - 1] == TICK
  {
    if DetectionDue(c, t.now) then
      var event := GenerateFaultData(t.eventTime, t.faultDraw, t.kindDraw);
      var run := Retry(Statuses(t.attempts));
      match run.result
      case Propagated(e) => Pass(c, run.sleeps, [], Some(e))
      case Returned(success) =>
        if success then Pass(c.(lastDetection := t.now), run.sleeps + [TICK], [event], None)
        else Pass(c, run.sleeps + [COOLDOWN, TICK], [], None)
    else Pass(c, [TICK], [], None)
  }

  /** One pass of the `while True` loop: the heartbeat block, then the detection block. */
  function Step(c: Clocks, t: Tick): (p: Pass)
    requires ValidTick(t)
    ensures |p.stored| <= 1
    ensures p.stored != [] ==> p.clocks.lastDetection == t.now && p.crash.None? && DetectionDue(c, t.now)
    ensures p.stored == [] ==> p.clocks.lastDetection == c.lastDetection
    ensures p.clocks.lastHeartbeat == Heartbeat(c, t).lastHeartbeat
    ensures p.crash.Some? ==> DetectionDue(c, t.now)
    ensures p.crash.None? ==> |p.sleeps| >= 1 && p.sleeps[|p.sleeps| - 1] == TICK
  {
    Detect(Heartbeat(c, t), t)
  }

  /** The loop over a finite prefix of passes: the state after it, and how many passes it began. */
  datatype Trace = Trace(clocks: Clocks, sleeps: seq<nat>, stored: seq<FaultEvent>, crash: Option<Error>, passes: nat)

  predicate AllValid(ticks: seq<Tick>) {
    forall k :: 0 <= k < |ticks| ==> ValidTick(ticks[k])
  }

  /** The loop from `start` over `ticks`; an escaping exception ends it, and later passes never happen. */
  function Run(start: Clocks, ticks: seq<Tick>): (r: Trace)
    requires AllValid(ticks)
    ensures r.passes <= |ticks|
    ensures r.crash.None? ==> r.passes == |ticks|
    decreases |ticks|
  {
    if ticks == [] then Trace(start, [], [], None, 0)
    else
      var prev := Run(start, ticks[..|ticks| - 1]);
      if prev.crash.Some? then prev
      else
        var p := Step(prev.clocks, ticks[|ticks| - 1]);
        Trace(p.clocks, prev.sleeps + p.sleeps, prev.stored + p.stored, p.crash, prev.passes + 1)
  }

  /** Once the loop has ended, further passes change nothing. */
  lemma {:induction false} RunStopsAtCrash(start: Clocks, ticks: seq<Tick>, i: nat)
    requires AllValid(ticks) && i <= |ticks|
    requires Run(start, ticks[..i]).crash.Some?
    ensures Run(start, ticks) == Run(start, ticks[..i])
    decreases |ticks|
  {
    if i == |ticks| {
      assert ticks[..i] == ticks;
    } else {
      assert ticks[..|ticks| - 1][..i] == ticks[..i];
      RunStopsAtCrash(start, ticks[..|ticks| - 1], i);
    }
  }

  /** The detection block on the pool, then the closing sleep. */
  method RunDetection(pool: Pool, c: Clocks, t: Tick) returns (p: Pass)
    requires ValidTick(t)
    modifies pool
    ensures p == Detect(c, t)
    ensures pool.outstanding == old(pool.outstanding)
  {
    var clocks := c;
    var sleeps: seq<nat> := [];
    var stored: seq<FaultEvent> := [];
    if DetectionDue(clocks, t.now) {
      var event := GenerateFaultData(t.eventTime, t.faultDraw, t.kindDraw);
      var result, _, backoff, _ := InsertData(pool, t.attempts);
      sleeps := sleeps + backoff;
      if result.Propagated? {
        return Pass(clocks, sleeps, stored, Some(result.error));
      }
      if result.success {
        clocks := clocks.(lastDetection := t.now);
        stored := stored + [event];
      } else {
        sleeps := sleeps + [COOLDOWN];
      }
    }
    sleeps := sleeps + [TICK];
    p := Pass(clocks, sleeps, stored, None);
  }

  /**
   * One pass of the loop on the pool: the heartbeat when it is due, then the
   * inspection and its store when detection is due, then the one second sleep.
   */
  method RunPass(pool: Pool, c: Clocks, t: Tick) returns (p: Pass)
    requires ValidTick(t)
    modifies pool
    ensures p == Step(c, t)
    ensures pool.outstanding == old(pool.outstanding)
  {
    var clocks := c;
    if HeartbeatDue(clocks, t.now) {
      var s, _ := RunScope(pool, t.heartbeat);
      if s.Ok? {
        clocks := clocks.(lastHeartbeat := t.now);
      }
    }
    p := RunDetection(pool, clocks, t);
  }

  /**
   * `main` after `create_table_if_needed`, over the first `|ticks|` passes:
   * heartbeat and detection in the same pool, with the sleeps recorded instead
   * of taken.
   */
  method Schedule(pool: Pool, start: Clocks, ticks: seq<Tick>) returns (trace: Trace)
    requires AllValid(ticks)
    modifies pool
    ensures trace == Run(start, ticks)
    ensures pool.outstanding == old(pool.outstanding)
  {
    trace := Trace(start, [], [], None, 0);
    var i := 0;
    while i < |ticks|
      invariant 0 <= i <= |ticks|
      invariant trace == Run(start, ticks[..i]) && trace.crash.None? && trace.passes == i
      invariant pool.outstanding == old(pool.outstanding)
    {
      assert ticks[..i + 1][..i] == ticks[..i];
      var p := RunPass(pool, trace.clocks, ticks[i]);
      trace := Trace(p.clocks, trace.sleeps + p.sleeps, trace.stored + p.stored, p.crash, i + 1);
      if p.crash.Some? {
        RunStopsAtCrash(start, ticks, i + 1);
        return;
      }
      i := i + 1;
    }
    assert ticks[..i] == ticks;
  }

  /**
   * Detection fires only when more than ten seconds have passed, and
   * `last_detection_time` moves to `current_time` exactly when the store
   * succeeded; the stored event is the inspection of that pass.
   */
  lemma DetectionAdvancesOnSuccess(c: Clocks, t: Tick)
    requires ValidTick(t)
    ensures Step(c, t).clocks.lastDetection ==
      if DetectionDue(c, t.now) && Retry(Statuses(t.attempts)).result == Returned(true) then t.now else c.lastDetection
    ensures Step(c, t).stored ==
      if DetectionDue(c, t.now) && Retry(Statuses(t.attempts)).result == Returned(true)
      then [GenerateFaultData(t.eventTime, t.faultDraw, t.kindDraw)] else []
  {
  }

  /** A pass that is not due for detection only sleeps one second. */
  lemma NotDueIsQuiet(c: Clocks, t: Tick)
    requires ValidTick(t) && !DetectionDue(c, t.now)
    ensures Step(c, t).sleeps == [TICK]
    ensures Step(c, t).stored == [] && Step(c, t).crash.None?
    ensures Step(c, t).clocks.lastDetection == c.lastDetection
  {
  }

  /**
   * A failed store: `last_detection_time` stays, the pass sleeps 1, 2 and 4
   * seconds of backoff, then 30 of cooldown, then 1, and the loop goes on;
   * detection is still due at every later time.
   */
  lemma FailedDetectionCooldown(c: Clocks, t: Tick, later: int)
    requires ValidTick(t) && DetectionDue(c, t.now)
    requires forall j :: 0 <= j < MAX_RETRIES ==> ScopeStatus(t.attempts[j]) == Raised(OperationalError)
    requires later >= t.now
    ensures Step(c, t).clocks.lastDetection == c.lastDetection
    ensures Step(c, t).sleeps == [1, 2, 4, COOLDOWN, TICK]
    ensures Step(c, t).stored == [] && Step(c, t).crash.None?
    ensures DetectionDue(Step(c, t).clocks, later)
  {
    var statuses := Statuses(t.attempts);
    assert statuses == [Raised(OperationalError), Raised(OperationalError), Raised(OperationalError)];
    RetryExhausted(statuses);
  }

  /** `last_heartbeat` moves to `current_time` exactly when a due heartbeat succeeded. */
  lemma HeartbeatCadence(c: Clocks, t: Tick)
    requires ValidTick(t)
    ensures Step(c, t).clocks.lastHeartbeat ==
      if HeartbeatDue(c, t.now) && ScopeStatus(t.heartbeat).Ok? then t.now else c.lastHeartbeat
  {
  }

  /**
   * The two cadences are independent: whatever the heartbeat does changes
   * neither `last_detection_time`, nor the sleeps, nor what is stored, nor
   * whether the loop goes on.
   */
  lemma HeartbeatIndependent(c: Clocks, t: Tick, heartbeat: ScopeEnv)
    requires ValidTick(t)
    ensures Step(c, t.(heartbeat := heartbeat)).clocks.lastDetection == Step(c, t).clocks.lastDetection
    ensures Step(c, t.(heartbeat := heartbeat)).sleeps == Step(c, t).sleeps
    ensures Step(c, t.(heartbeat := heartbeat)).stored == Step(c, t).stored
    ensures Step(c, t.(heartbeat := heartbeat)).crash == Step(c, t).crash
  {
  }

  /** Every pass the loop completes ends with the one second sleep; a pass that raises has slept only its backoff. */
  lemma PassEndsWithTick(c: Clocks, t: Tick)
    requires ValidTick(t)
    ensures Step(c, t).crash.None? ==> |Step(c, t).sleeps| >= 1 && Step(c, t).sleeps[|Step(c, t).sleeps| - 1] == TICK
    ensures Step(c, t).crash.Some? ==> forall i :: 0 <= i < |Step(c, t).sleeps| ==> Step(c, t).sleeps[i] == Pow2(i)
  {
    RetryBounds(Statuses(t.attempts));
  }

  /** Only an exception other than OperationalError from the writer ends the loop. */
  lemma CrashOnlyFromWriter(c: Clocks, t: Tick)
    requires ValidTick(t)
    ensures Step(c, t).crash.Some? <==>
      DetectionDue(c, t.now) && Retry(Statuses(t.attempts)).result.Propagated?
    ensures Step(c, t).crash.Some? ==> Step(c, t).crash.value != OperationalError
  {
    var statuses := Statuses(t.attempts);
    var k := FirstSettled(statuses);
    FirstSettledIs(statuses, k);
  }

  /** Each stored event was stored by a pass whose clock reading is now `last_detection_time`, or none was stored. */
  lemma {:induction false} RunLastDetection(start: Clocks, ticks: seq<Tick>)
    requires AllValid(ticks)
    ensures |Run(start, ticks).stored| <= Run(start, ticks).passes
    ensures Run(start, ticks).stored == [] ==> Run(start, ticks).clocks.lastDetection == start.lastDetection
    ensures Run(start, ticks).stored != [] ==>
      exists k :: 0 <= k < |ticks| && Run(start, ticks).clocks.lastDetection == ticks[k].now
    decreases |ticks|
  {
    if ticks != [] {
      var init := ticks[..|ticks| - 1];
      RunLastDetection(start, init);
      var prev := Run(start, init);
      if prev.crash.None? {
        var t := ticks[|ticks| - 1];
        DetectionAdvancesOnSuccess(prev.clocks, t);
        CrashOnlyFromWriter(prev.clocks, t);
        if prev.stored != [] && Step(prev.clocks, t).stored == [] {
          var k :| 0 <= k < |init| && prev.clocks.lastDetection == init[k].now;
          assert init[k] == ticks[k];
        }
      } else if prev.stored != [] {
        var k :| 0 <= k < |init| && prev.clocks.lastDetection == init[k].now;
        assert init[k] == ticks[k];
      }
    }
  }
}
