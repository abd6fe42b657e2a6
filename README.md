# Simulated-instrument uploaders, modelled in Dafny

Two scripts feed a MySQL server with synthetic instrument data.

- `SQL_upload_dem0.py` is the environmental uploader. Every cycle it builds the fixed topology of
  Beijing monitoring stations, which is 3 to 5 stations per district drawn from a generator seeded
  with 42. It produces one PM2.5 reading per station. The reading is an hour-of-day base level plus
  bounded noise. It inserts the whole batch in one transaction over a direct connection. Then it
  sleeps 60 seconds after a success and 30 after a failure.
- `SQL_upload_dem1.py` is the PCB fault uploader. About every ten seconds it inspects one board.
  The board is faulty with probability 0.0742, and a fault kind is picked by weight. It stores the
  result through a connection pool. It makes up to three attempts, and after each attempt that
  fails with an OperationalError it sleeps 1, 2 or 4 seconds, the last failure included. Every ten
  minutes it also sends a heartbeat query. Each cadence moves its timestamp only on success.

The model keeps the logic around the database calls. All nondeterminism is passed in as
parameters:

- random draws are arguments (noise in tenths, uniform draws as reals in [0, 1));
- the clock is an integer;
- `time.sleep` becomes a recorded list of delays;
- every server interaction is an answer, `Ok` or `Raised(error)`, with three kinds of exception:
  OperationalError, any other `pymysql.Error`, and anything else.

A connection is a `class` whose state is the list of commit, rollback and close calls made on it.
Each `Database` is a `class` whose `connection` field `__enter__` sets. The loops of
`generate_stations`, of dem0's batch building, of dem1's `insert_data` and of dem1's `main` are
methods with invariants. Each is proved equal to a specification function (`Topology`, `Rows`,
`Retry`, `Run`), and the properties are stated on those functions as lemmas. dem0's `main` loop
(`Monitor`) is specified directly: its `ensures` gives the sleep after every cycle and the cycle
that ends it. One pass of dem1's loop is a method without a loop (`RunPass`), proved equal to the
function `Step`.

Modules:

- `Sql` (`sql.dfy`): the exceptions, the server's answers for one `with` scope, and what leaves the
  scope (`ScopeStatus`). It also has the connection's call record and the `Option` wrapper.
- `Readings` (`readings.dfy`): `generate_pm25`.
- `Stations` (`stations.dfy`): `generate_stations` and the station names.
- `Pm25Upload` (`pm25_upload.dfy`): dem0's `Database`, `insert_data` with its batch, and `main`.
- `Faults` (`faults.dfy`): `generate_fault_data`, with `random.choices` modelled as CPython
  computes it: accumulate the weights, scale the draw by their total, then `bisect_right`.
- `PcbUpload` (`pcb_upload.dfy`): the pool, dem1's pooled `Database`, and the retrying
  `insert_data`.
- `Scheduler` (`scheduler.dfy`): dem1's `main`, the detection and heartbeat cadences.

Error handling, as the code does it:

- dem1's `insert_data` catches only `pymysql.OperationalError`. Any other exception escapes it and
  ends `main` (`PcbUpload.RetryPropagates`, `Scheduler.CrashOnlyFromWriter`).
- Only OperationalError is retried. Other `pymysql.Error` exceptions are not.
- dem1's `__exit__` calls `close()` in a `finally`, so the connection goes back to the pool on every
  path. dem0 calls `close()` after `commit()`/`rollback()` with no `finally`, so a commit or
  rollback that raises skips the close (`Pm25Upload.Database.Exit`, `Pm25Upload.WriteBatch`).

## Model

| member | source | states |
|---|---|---|
| Sql.ScopeStatus | SQL_upload_dem0.py:62-77 | a `with` scope ends normally iff opening, the statement and the commit all succeed; a failed open is what leaves the scope, and otherwise any exception that leaves comes from one of the three answers |
| Sql.EndCall | SQL_upload_dem0.py:73-76 | `__exit__` commits exactly when the body ended normally and rolls back otherwise, and the server's answer is recorded on that call |
| Readings.PeriodOf | SQL_upload_dem0.py:85-96 | the if/elif chain selects a period whose hour window (5-8, 9-11, 12-13, 14-17, 18-20, otherwise night) contains the hour |
| Readings.WindowsPartitionDay | SQL_upload_dem0.py:85-96 | the six windows are disjoint and cover 0-23: an hour lies in a window iff that window is the one selected |
| Readings.BaseLevel | SQL_upload_dem0.py:85-96 | every base level lies between 55.0 and 90.0 (in tenths) |
| Readings.BaseLevelsDistinct | SQL_upload_dem0.py:85-96 | the six periods have six different base levels |
| Readings.GeneratePm25 | SQL_upload_dem0.py:81-99 | a reading lies within 15.0 of its hour's base level, so always within [40.0, 105.0] |
| Stations.RandInt | SQL_upload_dem0.py:107 | `randint(lo, hi)` returns a value in [lo, hi] |
| Stations.NatToString | SQL_upload_dem0.py:108 | `str(n)` is a non-empty string of decimal digits |
| Stations.NatToStringRoundTrip | SQL_upload_dem0.py:108 | reading back the decimal digits of `n` gives `n` |
| Stations.NatToStringInjective | SQL_upload_dem0.py:108 | two numbers have the same decimal string iff they are equal |
| Stations.StationNames | SQL_upload_dem0.py:108 | the comprehension names exactly `station_count` stations |
| Stations.StationNamesDistinct | SQL_upload_dem0.py:108 | every station name starts with its district, and two names of one district are equal iff their indices are |
| Stations.Topology | SQL_upload_dem0.py:104-108 | the topology of a generator state has one entry per district, in `DISTRICTS` order |
| Stations.TopologyWellShaped | SQL_upload_dem0.py:104-108 | from any generator state: one entry per district in `DISTRICTS` order, each with 3 to 5 stations named district + "监测站" + 1..count |
| Stations.DistrictsDistinct | SQL_upload_dem0.py:50-54 | the 16 districts are pairwise distinct, so the dict has one key per district |
| Stations.DrawStations | SQL_upload_dem0.py:105-108 | the loop over the districts builds exactly the topology of its generator, which is well shaped |
| Stations.GenerateStations | SQL_upload_dem0.py:102-109 | every call returns the same topology, the one of seed 42, and it is well shaped |
| Pm25Upload.TotalRecords | SQL_upload_dem0.py:115 | `total_records` is at least the station count of every district |
| Pm25Upload.TotalRecordsBounds | SQL_upload_dem0.py:115 | with 3 to 5 stations per district, `total_records` lies between 3 and 5 times the number of districts |
| Pm25Upload.StationTotalRange | SQL_upload_dem0.py:114-115 | every cycle writes between 48 and 80 rows |
| Pm25Upload.EntryPairs | SQL_upload_dem0.py:122 | one (district, station) pair per station of the district |
| Pm25Upload.Pairs | SQL_upload_dem0.py:121-122 | the number of pairs is `total_records`, the sum of the station counts |
| Pm25Upload.Rows | SQL_upload_dem0.py:120-124 | one row per pair |
| Pm25Upload.PairsPrefix | SQL_upload_dem0.py:121-122 | the pairs of one more district are the earlier pairs followed by that district's stations |
| Pm25Upload.PairsPrefixOf | SQL_upload_dem0.py:121-122 | the pairs of the first m districts are a prefix of all pairs |
| Pm25Upload.PairsOrder | SQL_upload_dem0.py:121-124 | station j of district i is pair number (stations of districts before i) + j: district order, then station order |
| Pm25Upload.BuildBatch | SQL_upload_dem0.py:120-124 | the nested loop builds one row per pair in that order, `total_records` rows, each with the cycle's `current_time` and the k-th reading |
| Pm25Upload.Database.constructor | SQL_upload_dem0.py:58-60 | a new `Database` has no connection |
| Pm25Upload.Database.Enter | SQL_upload_dem0.py:62-69 | a successful connect stores a fresh connection; a failed one raises and changes nothing |
| Pm25Upload.Database.Exit | SQL_upload_dem0.py:71-77 | commit after a normal body and rollback after an exception, then close only if that call returned; an exception from commit or rollback replaces the body's |
| Pm25Upload.InsertOutcome | SQL_upload_dem0.py:117-138 | `insert_data` returns True iff the scope completed, False iff a `pymysql.Error` left it, and lets any other exception escape |
| Pm25Upload.WriteBatch | SQL_upload_dem0.py:117-138 | the outcome is `InsertOutcome`; True iff a commit was answered Ok; a failed connect builds nothing and makes no call; otherwise the batch is built and the calls are exactly one commit or rollback followed by a close only if that call succeeded |
| Pm25Upload.InsertData | SQL_upload_dem0.py:112-138 | the same for the seed-42 topology: the batch holds `total_records` rows, one per station, and the calls are exactly one commit or rollback and at most one close, so no retry is made |
| Pm25Upload.SleepAfter | SQL_upload_dem0.py:146-151 | the sleep is 60 seconds exactly after a success and 30 exactly after a failure |
| Pm25Upload.RunCycle | SQL_upload_dem0.py:146-151 | one pass of the loop returns `insert_data`'s outcome, and when it returned, the sleep that outcome calls for |
| Pm25Upload.Monitor | SQL_upload_dem0.py:141-156 | the loop sleeps 60 after each success and 30 after each failure, and ends exactly when an exception escapes `insert_data`, which is then reported |
| Faults.Accumulate | SQL_upload_dem1.py:91 | `accumulate(weights)`: the first entry is the first weight, and each later entry is the previous one plus its weight |
| Faults.Bisect | SQL_upload_dem1.py:91 | `bisect_right(cum, x, lo, hi)` returns i in [lo, hi] such that every entry in [lo, i) is at most x and entry i, if below hi, exceeds x |
| Faults.Choose | SQL_upload_dem1.py:91 | the weighted choice returns a valid index into the table |
| Faults.GenerateFaultData | SQL_upload_dem1.py:81-96 | the event carries the given time; `has_fault` iff the draw is below 0.0742; no fault kind iff no fault; a fault kind is always one of `FAULT_TYPES` |
| Faults.FaultTableWellFormed | SQL_upload_dem1.py:42-53 | seven fault kinds, seven weights, every weight positive, kinds pairwise distinct |
| Faults.FaultWeightTotal | SQL_upload_dem1.py:53 | the weights add up to 99.6 |
| Faults.SumPrefixGrows | SQL_upload_dem1.py:91 | with positive weights, a longer prefix of the weights has a larger sum |
| Faults.AccumulateAscending | SQL_upload_dem1.py:91 | the accumulated weights are strictly ascending |
| Faults.AccumulateLast | SQL_upload_dem1.py:91 | the last accumulated weight is the total |
| Faults.BisectBucket | SQL_upload_dem1.py:91 | on an ascending list, `bisect_right` returns i iff x lies between entry i-1 (inclusive) and entry i (exclusive) |
| Faults.AccumulatedBucket | SQL_upload_dem1.py:91 | bisecting the accumulated weights at x picks weight i iff x lies in i's running-total interval |
| Faults.FaultKindBucket | SQL_upload_dem1.py:86-91 | on a fault, kind i is chosen iff the kind draw times 99.6 lies between the weights before i and the weights up to i |
| PcbUpload.Pool.constructor | SQL_upload_dem1.py:32-39 | a new pool has no connection lent out |
| PcbUpload.Pool.Acquire | SQL_upload_dem1.py:64 | a successful acquisition lends one fresh connection; a failed one raises and lends none |
| PcbUpload.Pool.Return | SQL_upload_dem1.py:79 | `close()` on a pooled connection closes it for its holder and returns it to the pool |
| PcbUpload.Database.constructor | SQL_upload_dem1.py:59-60 | a new `Database` holds the pool and no connection |
| PcbUpload.Database.Enter | SQL_upload_dem1.py:62-68 | a successful acquisition stores a fresh lease; a failed one raises and changes nothing |
| PcbUpload.Database.Exit | SQL_upload_dem1.py:70-79 | commit after a normal body and rollback after an exception; the connection goes back to the pool on both paths, even when that call raises; without a connection nothing happens |
| PcbUpload.ScopeCalls | SQL_upload_dem1.py:62-79 | a leased scope makes no call iff acquisition failed; otherwise exactly one commit or rollback followed by the close, whatever that call answered |
| PcbUpload.RunScope | SQL_upload_dem1.py:122-127 | a leased scope ends as `ScopeStatus` says, makes exactly the calls `ScopeCalls` gives, and the pool gets its lease back |
| PcbUpload.Retry | SQL_upload_dem1.py:119-135 | one to three attempts; False only after all three; the sleeps are 1, 2, 4, ... one per failed attempt; an escaping exception is never an OperationalError |
| PcbUpload.FirstSettledIs | SQL_upload_dem1.py:120-130 | the settling attempt is k iff attempts before k failed with OperationalError and attempt k did not (or k is the count) |
| PcbUpload.InsertData | SQL_upload_dem1.py:117-135 | the retry loop returns the result, the attempt count and the sleeps of `Retry`; it opens one leased scope per attempt, whose calls are those of `ScopeCalls`; every lease goes back to the pool |
| PcbUpload.RetryBounds | SQL_upload_dem1.py:119-135 | between one and three attempts; the i-th sleep is 2^i; one sleep per failed attempt, so one fewer than the attempts unless all three failed |
| PcbUpload.RetrySucceedsAfter | SQL_upload_dem1.py:119-133 | k OperationalErrors then a success: True after k+1 attempts, having slept 1, 2, ..., 2^(k-1) |
| PcbUpload.RetryExhausted | SQL_upload_dem1.py:119-135 | three OperationalErrors: False after exactly three attempts with sleeps 1, 2, 4, including the sleep after the last failure |
| PcbUpload.RetryPropagates | SQL_upload_dem1.py:130 | any other exception is not retried and escapes from the attempt that raised it |
| PcbUpload.RetryResultMeaning | SQL_upload_dem1.py:119-135 | False iff every attempt failed with OperationalError; True iff some attempt succeeded after only OperationalErrors |
| Scheduler.Heartbeat | SQL_upload_dem1.py:152-159 | the heartbeat block never changes `last_detection_time`, and moves `last_heartbeat` only to `current_time` and only when more than 10 min have passed |
| Scheduler.Detect | SQL_upload_dem1.py:162-175 | the detection block stores at most one event, and only when detection was due and `last_detection_time` moves to `current_time`; otherwise that clock stays; it leaves `last_heartbeat` alone; only a due detection can end the loop; a completed pass ends with a 1 s sleep |
| Scheduler.Step | SQL_upload_dem1.py:149-175 | one pass: the same facts for the whole pass, with `last_heartbeat` as the heartbeat block leaves it |
| Scheduler.RunDetection | SQL_upload_dem1.py:162-175 | the detection block on the pool does what `Detect` specifies, and the pool gets every lease back |
| Scheduler.Run | SQL_upload_dem1.py:147-180 | a run never begins more passes than given, and it begins them all unless an exception ended it |
| Scheduler.RunStopsAtCrash | SQL_upload_dem1.py:177-180 | once an exception has ended the loop, later passes change nothing |
| Scheduler.RunPass | SQL_upload_dem1.py:149-175 | one pass on the pool does what `Step` specifies, and the pool gets every lease back |
| Scheduler.Schedule | SQL_upload_dem1.py:144-180 | the loop from the initial timestamps produces exactly the run `Run` specifies, and the pool gets every lease back |
| Scheduler.DetectionAdvancesOnSuccess | SQL_upload_dem1.py:162-169 | `last_detection_time` moves to `current_time` iff more than 10 s had passed and the store returned True; only then is that pass's inspection stored |
| Scheduler.NotDueIsQuiet | SQL_upload_dem1.py:162-175 | a pass with at most 10 s elapsed stores nothing, keeps `last_detection_time` and sleeps only 1 s |
| Scheduler.FailedDetectionCooldown | SQL_upload_dem1.py:162-175 | a store that failed three times keeps `last_detection_time`, sleeps 1, 2, 4, then 30, then 1, continues, and detection stays due at every later time |
| Scheduler.HeartbeatCadence | SQL_upload_dem1.py:152-159 | `last_heartbeat` moves to `current_time` iff more than 10 min had passed and the heartbeat scope succeeded |
| Scheduler.HeartbeatIndependent | SQL_upload_dem1.py:152-172 | the heartbeat's outcome changes neither `last_detection_time`, nor the sleeps, nor what is stored, nor whether the loop continues |
| Scheduler.PassEndsWithTick | SQL_upload_dem1.py:175 | every completed pass ends with a 1 s sleep; a pass that raises has slept only its backoff |
| Scheduler.CrashOnlyFromWriter | SQL_upload_dem1.py:162-180 | the loop ends iff detection was due and an exception escaped `insert_data`, and that exception is never an OperationalError |
| Scheduler.RunLastDetection | SQL_upload_dem1.py:144-169 | at most one event is stored per pass; with nothing stored `last_detection_time` is its initial value, otherwise it is the clock reading of one of the passes |

## Left out

- The MySQL driver and the pool's internals are not modelled. This covers connecting, cursors, SQL
  text, pool sizing and blocking when the pool is exhausted. Each call is an answer passed in, and
  the pool is a count of lent connections. Blocking is a concurrency matter.
- `create_table_if_needed` is not modelled. It is a DDL statement and a table-existence check on the
  server.
- Logging is not modelled. It only has side effects.
- The clock is a parameter. dem0's `current_time` is integer seconds, with no `strftime` formatting.
  dem1's clocks are integer microseconds, the resolution of `datetime`. The clock that
  `generate_fault_data` reads is its own parameter, separate from the loop's `current_time`.
- Readings.GeneratePm25: readings are integer tenths, and the noise is supplied already rounded to
  one decimal. Binary floating point and the exact behaviour of `round` are not modelled.
- Stations.RandInt: the Mersenne Twister behind `random.Random(42)` is replaced by a linear
  congruential step. The model keeps that the topology is deterministic and that every count lies
  in [3, 5]. It does not reproduce the counts CPython draws for seed 42.
- Faults.GenerateFaultData: the uniform draws are exact reals in [0, 1), not binary floats, so the
  thresholds 0.0742 and the weight boundaries are exact. Bisection is modelled as a linear scan,
  which returns the same index on an ascending list.
- Statistical properties are not modelled, such as fault rates converging to 7.42% or to the
  weights. They are distributional.
- `KeyboardInterrupt` is not modelled. It is process control. An exception escaping `insert_data`
  is modelled as the end of the run.
- The endless `while True` loops are modelled as runs over a finite sequence of passes.
- dem0's `generate_pm25` reads the hour once per call. The model passes in the reading of the k-th
  call of a cycle as a function of k.
- `close()` raising is not modelled: close is taken to succeed.
- Whether a retried write already landed on the server is not modelled, so double inserts after a
  lost acknowledgement are out of scope.
- The commented-out connection test at the top of dem0 is not modelled.
