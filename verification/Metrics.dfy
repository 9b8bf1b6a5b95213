/** Execution metrics: what a result adds to which counter, the seven counters as the code keeps them, and
    the sums that the rest of the pipeline is measured against. */
module Metrics {
  import opened Redis
  import opened MetricFields

  /** A worker's type name. */
  type WorkerName = s: Str | |s| <= LENGTH_LIMIT

  const U64_MAX: nat := 0xFFFF_FFFF_FFFF_FFFF
  const I64_MAX: nat := 0x7FFF_FFFF_FFFF_FFFF

  datatype Kind = Success | Failure | Panic

  datatype WorkerResult = WorkerResult(kind: Kind, worker: WorkerName, executionMs: nat, jobCount: nat)

  /** A result and the minute it was recorded in. */
  datatype Recorded = Recorded(minute: int, result: WorkerResult)

  /** The fields of `JobMetricsTotals`, `JobMetricsPoint` and `PendingJobMetrics` that are counted. */
  datatype Counts = Counts(processed: nat, failed: nat, panicked: nat, successfulExecutions: nat,
                           failedExecutions: nat, panickedExecutions: nat, executionMs: nat)

  const NO_COUNTS := Counts(0, 0, 0, 0, 0, 0, 0)

  function Get(c: Counts, m: Metric): nat {
    match m
    case Processed => c.processed
    case FailedJobs => c.failed
    case PanickedJobs => c.panicked
    case SuccessfulExecutions => c.successfulExecutions
    case FailedExecutions => c.failedExecutions
    case PanickedExecutions => c.panickedExecutions
    case ExecutionMs => c.executionMs
  }

  function SaturatingAdd(a: nat, b: nat): nat {
    if a + b <= U64_MAX then a + b else U64_MAX
  }

  function AddMetric(c: Counts, m: Metric, v: nat): (r: Counts)
    ensures forall k :: Get(r, k) == if k == m then SaturatingAdd(Get(c, k), v) else Get(c, k)
  {
    match m
    case Processed => c.(processed := SaturatingAdd(c.processed, v))
    case FailedJobs => c.(failed := SaturatingAdd(c.failed, v))
    case PanickedJobs => c.(panicked := SaturatingAdd(c.panicked, v))
    case SuccessfulExecutions => c.(successfulExecutions := SaturatingAdd(c.successfulExecutions, v))
    case FailedExecutions => c.(failedExecutions := SaturatingAdd(c.failedExecutions, v))
    case PanickedExecutions => c.(panickedExecutions := SaturatingAdd(c.panickedExecutions, v))
    case ExecutionMs => c.(executionMs := SaturatingAdd(c.executionMs, v))
  }

  function Capped(v: nat): nat {
    if v <= U64_MAX then v else U64_MAX
  }

  lemma CappedAdd(a: nat, b: nat)
    ensures SaturatingAdd(Capped(a), b) == Capped(a + b)
  {
  }

  // ---- the direct count ----

  /** What one result counts for: jobs for the job metrics, one execution for the execution metrics. */
  function Contribution(r: WorkerResult, m: Metric): nat {
    match m
    case Processed => r.jobCount
    case FailedJobs => if r.kind == Success then 0 else r.jobCount
    case PanickedJobs => if r.kind == Panic then r.jobCount else 0
    case SuccessfulExecutions => if r.kind == Success then 1 else 0
    case FailedExecutions => if r.kind == Success then 0 else 1
    case PanickedExecutions => if r.kind == Panic then 1 else 0
    case ExecutionMs => if r.kind == Success then r.executionMs else 0
  }

  /** The sum over the recorded results that the filter selects. */
  ghost function Count(rs: seq<Recorded>, selects: Recorded -> bool, m: Metric): nat {
    if rs == [] then 0
    else
      var last := rs[|rs| - 1];
      Count(rs[..|rs| - 1], selects, m) + (if selects(last) then Contribution(last.result, m) else 0)
  }

  // ---- the same sums, kind by kind ----

  /** Jobs in the selected results of a kind. */
  ghost function JobsOf(rs: seq<Recorded>, selects: Recorded -> bool, kind: Kind): nat {
    if rs == [] then 0
    else
      var last := rs[|rs| - 1];
      JobsOf(rs[..|rs| - 1], selects, kind) +
      (if selects(last) && last.result.kind == kind then last.result.jobCount else 0)
  }

  /** How many selected results are of a kind: one execution each. */
  ghost function RunsOf(rs: seq<Recorded>, selects: Recorded -> bool, kind: Kind): nat {
    if rs == [] then 0
    else
      var last := rs[|rs| - 1];
      RunsOf(rs[..|rs| - 1], selects, kind) + (if selects(last) && last.result.kind == kind then 1 else 0)
  }

  /** Milliseconds of the selected results of a kind. */
  ghost function MillisOf(rs: seq<Recorded>, selects: Recorded -> bool, kind: Kind): nat {
    if rs == [] then 0
    else
      var last := rs[|rs| - 1];
      MillisOf(rs[..|rs| - 1], selects, kind) +
      (if selects(last) && last.result.kind == kind then last.result.executionMs else 0)
  }

  /** What the seven counters mean: all jobs are processed, those of failures and panics have failed, those of
      panics have panicked; an execution is one result, a panic is also a failed one; time is that of successes. */
  lemma {:induction false} CountersMean(rs: seq<Recorded>, selects: Recorded -> bool)
    ensures Count(rs, selects, Processed)
         == JobsOf(rs, selects, Success) + JobsOf(rs, selects, Failure) + JobsOf(rs, selects, Panic)
    ensures Count(rs, selects, FailedJobs) == JobsOf(rs, selects, Failure) + JobsOf(rs, selects, Panic)
    ensures Count(rs, selects, PanickedJobs) == JobsOf(rs, selects, Panic)
    ensures Count(rs, selects, SuccessfulExecutions) == RunsOf(rs, selects, Success)
    ensures Count(rs, selects, FailedExecutions) == RunsOf(rs, selects, Failure) + RunsOf(rs, selects, Panic)
    ensures Count(rs, selects, PanickedExecutions) == RunsOf(rs, selects, Panic)
    ensures Count(rs, selects, ExecutionMs) == MillisOf(rs, selects, Success)
  {
    if rs != [] {
      CountersMean(rs[..|rs| - 1], selects);
    }
  }

  lemma CountSnoc(rs: seq<Recorded>, r: Recorded, selects: Recorded -> bool, m: Metric)
    ensures Count(rs + [r], selects, m) == Count(rs, selects, m) + (if selects(r) then Contribution(r.result, m) else 0)
  {
    assert (rs + [r])[..|rs|] == rs;
  }

  lemma {:induction false} CountAppend(rs: seq<Recorded>, more: seq<Recorded>, selects: Recorded -> bool, m: Metric)
    ensures Count(rs + more, selects, m) == Count(rs, selects, m) + Count(more, selects, m)
  {
    if more == [] {
      assert rs + more == rs;
    } else {
      var n := |more| - 1;
      assert (rs + more)[..|rs| + n] == rs + more[..n];
      CountAppend(rs, more[..n], selects, m);
    }
  }

  lemma {:induction false} CountSame(rs: seq<Recorded>, one: Recorded -> bool, other: Recorded -> bool, m: Metric)
    requires forall r :: r in rs ==> one(r) == other(r)
    ensures Count(rs, one, m) == Count(rs, other, m)
  {
    if rs != [] {
      CountSame(rs[..|rs| - 1], one, other, m);
    }
  }

  /** Disjoint selections add up. */
  lemma {:induction false} CountSplits(rs: seq<Recorded>, a: Recorded -> bool, b: Recorded -> bool,
                                       both: Recorded -> bool, m: Metric)
    requires forall r :: r in rs ==> !(a(r) && b(r)) && both(r) == (a(r) || b(r))
    ensures Count(rs, both, m) == Count(rs, a, m) + Count(rs, b, m)
  {
    if rs != [] {
      CountSplits(rs[..|rs| - 1], a, b, both, m);
    }
  }

  lemma {:induction false} CountGrows(rs: seq<Recorded>, a: Recorded -> bool, b: Recorded -> bool, m: Metric)
    requires forall r :: r in rs && a(r) ==> b(r)
    ensures Count(rs, a, m) <= Count(rs, b, m)
  {
    if rs != [] {
      CountGrows(rs[..|rs| - 1], a, b, m);
    }
  }

  function InCell(minute: int, worker: WorkerName): Recorded -> bool {
    (r: Recorded) => r.minute == minute && r.result.worker == worker
  }

  function Always(): Recorded -> bool {
    (r: Recorded) => true
  }

  // ---- the histogram ----

  const BUCKETS: seq<nat> :=
    [25, 50, 100, 250, 500, 1000, 2500, 5000, 10000, 30000, 60000, 120000, 300000, U64_MAX]

  /** The first bucket whose bound lies above the duration; the last one also takes the largest duration. */
  method HistogramBucketIndex(durationMs: nat) returns (idx: nat)
    requires durationMs <= U64_MAX
    ensures idx < |BUCKETS|
    ensures forall k :: 0 <= k < idx ==> BUCKETS[k] <= durationMs
    ensures forall k :: idx <= k < |BUCKETS| - 1 ==> durationMs < BUCKETS[k]
  {
    idx := 0;
    while idx < |BUCKETS|
      invariant idx <= |BUCKETS|
      invariant forall k :: 0 <= k < idx ==> BUCKETS[k] <= durationMs
    {
      if durationMs < BUCKETS[idx] {
        return;
      }
      idx := idx + 1;
    }
    idx := |BUCKETS| - 1;
  }

  /** The thresholds in milliseconds, from 25 to five minutes: which bucket a duration falls into. */
  lemma BucketTable(d: nat, idx: nat)
    requires idx < |BUCKETS| && (forall k :: 0 <= k < idx ==> BUCKETS[k] <= d)
    requires forall k :: idx <= k < |BUCKETS| - 1 ==> d < BUCKETS[k]
    ensures idx == (if d < 25 then 0 else if d < 50 then 1 else if d < 100 then 2 else if d < 250 then 3
                    else if d < 500 then 4 else if d < 1000 then 5 else if d < 2500 then 6 else if d < 5000 then 7
                    else if d < 10_000 then 8 else if d < 30_000 then 9 else if d < 60_000 then 10
                    else if d < 120_000 then 11 else if d < 300_000 then 12 else 13)
  {
    assert (0 < idx <==> BUCKETS[0] <= d) && (1 < idx <==> BUCKETS[1] <= d) && (2 < idx <==> BUCKETS[2] <= d);
    assert (3 < idx <==> BUCKETS[3] <= d) && (4 < idx <==> BUCKETS[4] <= d) && (5 < idx <==> BUCKETS[5] <= d);
    assert (6 < idx <==> BUCKETS[6] <= d) && (7 < idx <==> BUCKETS[7] <= d) && (8 < idx <==> BUCKETS[8] <= d);
    assert (9 < idx <==> BUCKETS[9] <= d) && (10 < idx <==> BUCKETS[10] <= d) && (11 < idx <==> BUCKETS[11] <= d);
    assert 12 < idx <==> BUCKETS[12] <= d;
  }
}
