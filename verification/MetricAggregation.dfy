/** From counters back to totals, series and per-worker summaries, for hashes of any content read in any
    order; and the proof that the whole pipeline reports the direct count of the results. */
module MetricAggregation {
  import opened Redis
  import opened MetricFields
  import opened Metrics
  import opened MetricRecording

  type Filter = Option<Str>

  predicate Passes(filter: Filter, w: Str) {
    filter == None || filter == Some(w)
  }

  // ---- the sums ----

  /** `u64::try_from(raw).unwrap_or_default()`. */
  function NonNegative(v: int): nat {
    if v < 0 then 0 else v
  }

  function Amount(h: Hash, f: Str, filter: Filter, m: Metric): nat {
    if f !in h then 0
    else
      match SplitMetricField(f)
      case Some((w, k)) => if k == m && Passes(filter, w) then NonNegative(h[f]) else 0
      case None => 0
  }

  /** The field is read as a counter of this worker. */
  predicate Names(f: Str, w: Str) {
    match SplitMetricField(f) case Some((x, _)) => x == w case None => false
  }

  ghost function FieldSum(h: Hash, keys: set<Str>, filter: Filter, m: Metric): nat
    decreases |keys|
  {
    if keys == {} then 0
    else
      var f :| f in keys;
      Amount(h, f, filter, m) + FieldSum(h, keys - {f}, filter, m)
  }

  /** The sum does not depend on which field comes first. */
  lemma {:induction false} FieldSumStep(h: Hash, keys: set<Str>, f: Str, filter: Filter, m: Metric)
    requires f in keys
    ensures FieldSum(h, keys, filter, m) == Amount(h, f, filter, m) + FieldSum(h, keys - {f}, filter, m)
    decreases |keys|
  {
    var g :| g in keys && FieldSum(h, keys, filter, m) == Amount(h, g, filter, m) + FieldSum(h, keys - {g}, filter, m);
    if g != f {
      assert keys - {f} - {g} == keys - {g} - {f};
      assert |keys - {f}| < |keys| && |keys - {g}| < |keys|;
      FieldSumStep(h, keys - {g}, f, filter, m);
      FieldSumStep(h, keys - {f}, g, filter, m);
    }
  }

  ghost function HashesSum(hashes: seq<Hash>, filter: Filter, m: Metric): nat {
    if hashes == [] then 0
    else
      var last := hashes[|hashes| - 1];
      HashesSum(hashes[..|hashes| - 1], filter, m) + FieldSum(last, last.Keys, filter, m)
  }

  ghost function CountsFrom(sum: Metric -> nat): (c: Counts)
    ensures forall m :: Get(c, m) == Capped(sum(m))
  {
    Counts(Capped(sum(Processed)), Capped(sum(FailedJobs)), Capped(sum(PanickedJobs)),
           Capped(sum(SuccessfulExecutions)),
           Capped(sum(FailedExecutions)), Capped(sum(PanickedExecutions)), Capped(sum(ExecutionMs)))
  }

  ghost function RawTotals(hashes: seq<Hash>, filter: Filter): Counts {
    CountsFrom((m: Metric) => HashesSum(hashes, filter, m))
  }

  ghost function RawPoint(h: Hash, filter: Filter): Counts {
    CountsFrom((m: Metric) => FieldSum(h, h.Keys, filter, m))
  }

  lemma SameCounts(a: Counts, b: Counts)
    requires forall m :: Get(a, m) == Get(b, m)
    ensures a == b
  {
    assert Get(a, Processed) == Get(b, Processed) && Get(a, FailedJobs) == Get(b, FailedJobs);
    assert Get(a, PanickedJobs) == Get(b, PanickedJobs) && Get(a, ExecutionMs) == Get(b, ExecutionMs);
    assert Get(a, SuccessfulExecutions) == Get(b, SuccessfulExecutions);
    assert Get(a, FailedExecutions) == Get(b, FailedExecutions)
      && Get(a, PanickedExecutions) == Get(b, PanickedExecutions);
  }

  // ---- finalize ----

  datatype Summary = Summary(counts: Counts, succeeded: nat)

  function Executions(c: Counts): nat {
    c.successfulExecutions + c.failedExecutions + c.panickedExecutions
  }

  function SucceededOf(c: Counts): nat {
    if c.failed <= c.processed then c.processed - c.failed else 0
  }

  /** The jobs stand in for executions that were not counted. */
  function FillIn(c: Counts): Counts {
    c.(successfulExecutions := SucceededOf(c), failedExecutions := c.failed, panickedExecutions := c.panicked)
  }

  /** Hashes written before executions were counted have jobs but no executions; then the jobs stand in.
      The three are added as plain 64-bit numbers: the sum wraps around, or panics where overflow is checked. */
  function Finalize(c: Counts): Summary {
    Summary(if Executions(c) % (U64_MAX + 1) == 0 then FillIn(c) else c, SucceededOf(c))
  }

  /** With executions counted, nothing changes; with none, the successful, failed and panicked jobs stand in,
      which are what the three would be if each job were one execution. `succeeded` is the processed jobs that
      did not fail, never below zero. */
  lemma FinalizeMeans(c: Counts)
    requires c.successfulExecutions + c.failedExecutions + c.panickedExecutions <= U64_MAX
    ensures var f := Finalize(c).counts;
            && f.processed == c.processed && f.failed == c.failed && f.panicked == c.panicked
            && f.executionMs == c.executionMs
            && (if c.successfulExecutions == c.failedExecutions == c.panickedExecutions == 0
                then f.successfulExecutions == Finalize(c).succeeded && f.failedExecutions == c.failed
                     && f.panickedExecutions == c.panicked
                else f == c)
    ensures Finalize(c).succeeded == (if c.failed <= c.processed then c.processed - c.failed else 0)
  {
    FallbackIsRightIffNoWrap(c);
  }

  /** The jobs stand in only for executions that are really missing, unless the sum wraps around to zero and
      the stand-ins are other numbers than those counted. */
  lemma FallbackIsRightIffNoWrap(c: Counts)
    ensures Finalize(c).counts == (if Executions(c) == 0 then FillIn(c) else c)
       <==> Executions(c) == 0 || Executions(c) % (U64_MAX + 1) != 0 || FillIn(c) == c
    ensures Executions(c) <= U64_MAX ==> Executions(c) == 0 || Executions(c) % (U64_MAX + 1) != 0
  {
    if 0 < Executions(c) <= U64_MAX {
      assert Executions(c) % (U64_MAX + 1) == Executions(c);
    }
  }

  /** Counters that no hash is too small to hold, whose executions are thrown away: 2^63 - 1, 2^63 - 1 and 2. */
  lemma ExecutionsCanWrap()
    ensures Finalize(Counts(1, 0, 0, 9_223_372_036_854_775_807, 9_223_372_036_854_775_807, 2, 0)).counts
         == Counts(1, 0, 0, 1, 0, 0, 0)
  {
  }

  /** A hash with one field: a positive value is the worker's counter, capped at 2^64 - 1, and any other adds
      nothing, like a negative value, which is read as zero. */
  lemma OneField(w: WorkerName, m: Metric, v: int, k: Metric)
    ensures Get(RawPoint(map[MetricField(w, m) := v], Some(w)), k)
         == if k != m || v <= 0 then 0 else if v <= 18_446_744_073_709_551_615 then v else 18_446_744_073_709_551_615
  {
    var f := MetricField(w, m);
    var h: Hash := map[f := v];
    FieldRoundTrip(w, m);
    FieldSumStep(h, h.Keys, f, Some(w), k);
    assert h.Keys - {f} == {};
  }

  datatype WorkerSummary = WorkerSummary(totals: Summary, series: seq<Summary>)

  ghost function SeriesOf(hashes: seq<Hash>, n: nat, filter: Filter): (r: seq<Summary>)
    ensures |r| == n
  {
    seq(n, i requires 0 <= i < n => if i < |hashes| then Finalize(RawPoint(hashes[i], filter)) else Finalize(NO_COUNTS))
  }

  ghost function SummaryOf(hashes: seq<Hash>, n: nat, filter: Filter): WorkerSummary {
    WorkerSummary(Finalize(RawTotals(hashes, filter)), SeriesOf(hashes, n, filter))
  }

  ghost predicate Mentions(hashes: seq<Hash>, w: Str) {
    exists i, f :: 0 <= i < |hashes| && f in hashes[i] && Names(f, w)
  }

  // ---- the loop ----

  datatype Builder = Builder(totals: Counts, series: seq<Counts>)

  function EmptyBuilder(n: nat): Builder {
    Builder(NO_COUNTS, seq(n, _ => NO_COUNTS))
  }

  function BuilderAt(workers: map<Str, Builder>, w: Str, n: nat): Builder {
    if w in workers then workers[w] else EmptyBuilder(n)
  }

  function AddTo(b: Builder, idx: nat, m: Metric, v: nat): Builder
    requires idx < |b.series|
  {
    Builder(AddMetric(b.totals, m, v), b.series[idx := AddMetric(b.series[idx], m, v)])
  }

  /** After the first `idx` hashes and the `done` fields of the next one. */
  ghost predicate Covers(b: Builder, n: nat, hashes: seq<Hash>, idx: nat, done: set<Str>, filter: Filter) {
    && idx <= |hashes| && |b.series| == n
    && (forall m :: Get(b.totals, m)
         == Capped(HashesSum(hashes[..idx], filter, m) + PartSum(hashes, idx, done, idx, filter, m)))
    && (forall j, m :: 0 <= j < n ==> Get(b.series[j], m) == Capped(PartSum(hashes, idx, done, j, filter, m)))
  }

  ghost function PartSum(hashes: seq<Hash>, idx: nat, done: set<Str>, j: nat, filter: Filter, m: Metric): nat
    requires idx <= |hashes|
  {
    if j < idx then FieldSum(hashes[j], hashes[j].Keys, filter, m)
    else if j == idx < |hashes| then FieldSum(hashes[j], done, filter, m)
    else 0
  }

  lemma OneMoreField(h: Hash, done: set<Str>, f: Str, filter: Filter, m: Metric)
    requires f !in done && f in h
    ensures FieldSum(h, done + {f}, filter, m)
         == FieldSum(h, done, filter, m)
            + Amount(h, f, filter, m)
  {
    assert done + {f} - {f} == done;
    FieldSumStep(h, done + {f}, f, filter, m);
  }

  function Turn(b: Builder, idx: nat, h: Hash, f: Str, filter: Filter): Builder
    requires idx < |b.series| && f in h
  {
    match SplitMetricField(f)
    case Some((w, m)) => if Passes(filter, w) then AddTo(b, idx, m, NonNegative(h[f])) else b
    case None => b
  }

  lemma TurnAdds(b: Builder, idx: nat, h: Hash, f: Str, filter: Filter, m: Metric)
    requires idx < |b.series| && f in h && Get(b.totals, m) <= U64_MAX && Get(b.series[idx], m) <= U64_MAX
    ensures var b' := Turn(b, idx, h, f, filter);
            && |b'.series| == |b.series|
            && (forall j :: 0 <= j < |b.series| && j != idx ==> b'.series[j] == b.series[j])
            && Get(b'.totals, m) == SaturatingAdd(Get(b.totals, m), Amount(h, f, filter, m))
            && Get(b'.series[idx], m) == SaturatingAdd(Get(b.series[idx], m), Amount(h, f, filter, m))
  {
  }

  lemma TotalStep(b: Builder, h: Hash, idx: nat, done: set<Str>, f: Str, filter: Filter, m: Metric, before: nat)
    requires idx < |b.series| && f !in done && f in h && Get(b.series[idx], m) <= U64_MAX
    requires Get(b.totals, m) == Capped(before + FieldSum(h, done, filter, m))
    ensures Get(Turn(b, idx, h, f, filter).totals, m) == Capped(before + FieldSum(h, done + {f}, filter, m))
  {
    OneMoreField(h, done, f, filter, m);
    TurnAdds(b, idx, h, f, filter, m);
  }

  lemma PointStep(b: Builder, h: Hash, idx: nat, done: set<Str>, f: Str, filter: Filter, m: Metric)
    requires idx < |b.series| && f !in done && f in h && Get(b.totals, m) <= U64_MAX
    requires Get(b.series[idx], m) == Capped(FieldSum(h, done, filter, m))
    ensures Get(Turn(b, idx, h, f, filter).series[idx], m) == Capped(FieldSum(h, done + {f}, filter, m))
  {
    OneMoreField(h, done, f, filter, m);
    TurnAdds(b, idx, h, f, filter, m);
  }

  lemma CoversStep(b: Builder, n: nat, hashes: seq<Hash>, idx: nat, done: set<Str>, f: Str, filter: Filter)
    requires Covers(b, n, hashes, idx, done, filter) && idx < |hashes| && idx < n && f !in done && f in hashes[idx]
    ensures Covers(Turn(b, idx, hashes[idx], f, filter), n, hashes, idx, done + {f}, filter)
  {
    var b' := Turn(b, idx, hashes[idx], f, filter);
    forall m ensures Get(b.totals, m) <= U64_MAX && Get(b.series[idx], m) <= U64_MAX {
      assert Get(b.totals, m) == Capped(HashesSum(hashes[..idx], filter, m)
        + PartSum(hashes, idx, done, idx, filter, m));
      assert Get(b.series[idx], m) == Capped(PartSum(hashes, idx, done, idx, filter, m));
    }
    forall m
      ensures Get(b'.totals, m)
              == Capped(HashesSum(hashes[..idx], filter, m) + PartSum(hashes, idx, done + {f}, idx, filter, m))
    {
      TotalStep(b, hashes[idx], idx, done, f, filter, m, HashesSum(hashes[..idx], filter, m));
    }
    forall j, m | 0 <= j < n ensures Get(b'.series[j], m) == Capped(PartSum(hashes, idx, done + {f}, j, filter, m)) {
      assert Get(b.series[j], m) == Capped(PartSum(hashes, idx, done, j, filter, m));
      if j == idx {
        PointStep(b, hashes[idx], idx, done, f, filter, m);
      } else {
        TurnAdds(b, idx, hashes[idx], f, filter, m);
      }
    }
  }

  lemma CoversNext(b: Builder, n: nat, hashes: seq<Hash>, idx: nat, filter: Filter)
    requires idx < |hashes| && Covers(b, n, hashes, idx, hashes[idx].Keys, filter)
    ensures Covers(b, n, hashes, idx + 1, {}, filter)
  {
    assert hashes[..idx + 1][..idx] == hashes[..idx];
  }

  lemma CoversAtStart(n: nat, hashes: seq<Hash>, filter: Filter)
    ensures Covers(EmptyBuilder(n), n, hashes, 0, {}, filter)
  {
  }

  ghost predicate SomeName(fields: set<Str>, w: Str) {
    exists f :: f in fields && Names(f, w)
  }

  ghost predicate SeenSoFar(workers: map<Str, Builder>, hashes: seq<Hash>, idx: nat, done: set<Str>, filter: Filter)
    requires idx <= |hashes|
  {
    forall w :: w in workers <==> Passes(filter, w) && (Mentions(hashes[..idx], w) || SomeName(done, w))
  }

  ghost predicate Aggregated(all: Builder, workers: map<Str, Builder>, n: nat, hashes: seq<Hash>, idx: nat,
                             done: set<Str>, filter: Filter) {
    && Covers(all, n, hashes, idx, done, filter)
    && (forall w :: Passes(filter, w) ==> Covers(BuilderAt(workers, w, n), n, hashes, idx, done, Some(w)))
    && SeenSoFar(workers, hashes, idx, done, filter)
    && (forall w :: w in workers ==> |workers[w].series| == n)
  }

  lemma AggregatedAtStart(n: nat, hashes: seq<Hash>, filter: Filter)
    ensures Aggregated(EmptyBuilder(n), map[], n, hashes, 0, {}, filter)
  {
    forall f: Filter ensures Covers(EmptyBuilder(n), n, hashes, 0, {}, f) {
      CoversAtStart(n, hashes, f);
    }
  }

  lemma AggregatedStep(all: Builder, workers: map<Str, Builder>, n: nat, hashes: seq<Hash>, idx: nat,
                       done: set<Str>, f: Str, filter: Filter, all': Builder, workers': map<Str, Builder>)
    requires Aggregated(all, workers, n, hashes, idx, done, filter)
    requires idx < |hashes| && idx < n && f !in done && f in hashes[idx]
    requires all' == Turn(all, idx, hashes[idx], f, filter)
    requires workers' == WorkersTurn(workers, n, idx, hashes[idx], f, filter)
    ensures Aggregated(all', workers', n, hashes, idx, done + {f}, filter)
  {
    CoversStep(all, n, hashes, idx, done, f, filter);
    forall w | Passes(filter, w) ensures Covers(BuilderAt(workers', w, n), n, hashes, idx, done + {f}, Some(w)) {
      CoversStep(BuilderAt(workers, w, n), n, hashes, idx, done, f, Some(w));
    }
    assert SeenSoFar(workers', hashes, idx, done + {f}, filter) by {
      forall w ensures w in workers' <==> Passes(filter, w) && (Mentions(hashes[..idx], w) || SomeName(done + {f}, w)) {
        NextName(done, f, w);
      }
    }
  }

  function WorkersTurn(workers: map<Str, Builder>, n: nat, idx: nat, h: Hash, f: Str, filter: Filter): map<Str, Builder>
    requires idx < n && f in h && forall w :: w in workers ==> |workers[w].series| == n
  {
    match SplitMetricField(f)
    case Some((w, m)) =>
      if Passes(filter, w) then workers[w := AddTo(BuilderAt(workers, w, n), idx, m, NonNegative(h[f]))] else workers
    case None => workers
  }

  lemma NextName(done: set<Str>, f: Str, w: Str)
    ensures SomeName(done + {f}, w) <==> SomeName(done, w) || Names(f, w)
  {
    if SomeName(done, w) {
      var g :| g in done && Names(g, w);
      assert g in done + {f};
    }
    if Names(f, w) {
      assert f in done + {f};
    }
  }

  lemma AggregatedNext(all: Builder, workers: map<Str, Builder>, n: nat, hashes: seq<Hash>, idx: nat, filter: Filter)
    requires idx < |hashes| && Aggregated(all, workers, n, hashes, idx, hashes[idx].Keys, filter)
    ensures Aggregated(all, workers, n, hashes, idx + 1, {}, filter)
  {
    CoversNext(all, n, hashes, idx, filter);
    forall w | Passes(filter, w) ensures Covers(BuilderAt(workers, w, n), n, hashes, idx + 1, {}, Some(w)) {
      CoversNext(BuilderAt(workers, w, n), n, hashes, idx, Some(w));
    }
    forall w ensures Mentions(hashes[..idx + 1], w) <==> Mentions(hashes[..idx], w) || SomeName(hashes[idx].Keys, w) {
      NextMentions(hashes, idx, w);
    }
  }

  ghost predicate MentionsIn(h: Hash, w: Str) {
    SomeName(h.Keys, w)
  }

  lemma MentionsSomewhere(hashes: seq<Hash>, w: Str)
    ensures Mentions(hashes, w) <==> exists i :: 0 <= i < |hashes| && MentionsIn(hashes[i], w)
  {
    if Mentions(hashes, w) {
      var i, f :| 0 <= i < |hashes| && f in hashes[i] && Names(f, w);
      assert f in hashes[i].Keys;
      assert MentionsIn(hashes[i], w);
    }
    if i :| 0 <= i < |hashes| && MentionsIn(hashes[i], w) {
      var f :| f in hashes[i].Keys && Names(f, w);
      assert f in hashes[i];
    }
  }

  lemma NextMentions(hashes: seq<Hash>, idx: nat, w: Str)
    requires idx < |hashes|
    ensures Mentions(hashes[..idx + 1], w) <==> Mentions(hashes[..idx], w) || SomeName(hashes[idx].Keys, w)
  {
    MentionsSomewhere(hashes[..idx], w);
    MentionsSomewhere(hashes[..idx + 1], w);
    assert forall i :: 0 <= i < idx ==> hashes[..idx + 1][i] == hashes[..idx][i];
    assert hashes[..idx + 1][idx] == hashes[idx];
    if i :| 0 <= i < idx && MentionsIn(hashes[..idx][i], w) {
      assert MentionsIn(hashes[..idx + 1][i], w);
    }
    assert SomeName(hashes[idx].Keys, w) <==> MentionsIn(hashes[..idx + 1][idx], w);
  }

  lemma CoversAll(b: Builder, n: nat, hashes: seq<Hash>, filter: Filter)
    requires Covers(b, n, hashes, |hashes|, {}, filter)
    ensures SummaryOf(hashes, n, filter) == WorkerSummary(Finalize(b.totals), FinalizeAll(b.series))
  {
    assert hashes[..|hashes|] == hashes;
    SameCounts(b.totals, RawTotals(hashes, filter));
    forall j | 0 <= j < n ensures Finalize(b.series[j]) == SeriesOf(hashes, n, filter)[j] {
      SameCounts(b.series[j], if j < |hashes| then RawPoint(hashes[j], filter) else NO_COUNTS);
    }
  }

  function FinalizeAll(series: seq<Counts>): (r: seq<Summary>)
    ensures |r| == |series| && forall i :: 0 <= i < |r| ==> r[i] == Finalize(series[i])
  {
    seq(|series|, i requires 0 <= i < |series| => Finalize(series[i]))
  }

  function FinalizeWorkers(builders: map<Str, Builder>): map<Str, WorkerSummary> {
    map w | w in builders :: WorkerSummary(Finalize(builders[w].totals), FinalizeAll(builders[w].series))
  }

  lemma AggregatedAll(all: Builder, workers: map<Str, Builder>, n: nat, hashes: seq<Hash>, filter: Filter)
    requires Aggregated(all, workers, n, hashes, |hashes|, {}, filter)
    ensures WorkerSummary(Finalize(all.totals), FinalizeAll(all.series)) == SummaryOf(hashes, n, filter)
    ensures forall w :: w in workers <==> Passes(filter, w) && Mentions(hashes, w)
    ensures forall w :: w in workers ==> FinalizeWorkers(workers)[w] == SummaryOf(hashes, n, Some(w))
  {
    assert hashes[..|hashes|] == hashes;
    CoversAll(all, n, hashes, filter);
    forall w | w in workers ensures FinalizeWorkers(workers)[w] == SummaryOf(hashes, n, Some(w)) {
      assert Covers(BuilderAt(workers, w, n), n, hashes, |hashes|, {}, Some(w));
      CoversAll(workers[w], n, hashes, Some(w));
    }
  }

  /** One turn of the inner loop. */
  method AddField(all: Builder, workers: map<Str, Builder>, n: nat, hashes: seq<Hash>, idx: nat, ghost done: set<Str>,
                  f: Str, filter: Filter) returns (all': Builder, workers': map<Str, Builder>)
    requires Aggregated(all, workers, n, hashes, idx, done, filter)
    requires idx < |hashes| && idx < n && f !in done && f in hashes[idx]
    ensures Aggregated(all', workers', n, hashes, idx, done + {f}, filter)
  {
    all', workers' := all, workers;
    var split := SplitMetricField(f);
    if split.Some? && Passes(filter, split.value.0) {
      var (w, m) := split.value;
      var v := NonNegative(hashes[idx][f]);
      all' := AddTo(all, idx, m, v);
      workers' := workers[w := AddTo(BuilderAt(workers, w, n), idx, m, v)];
    }
    AggregatedStep(all, workers, n, hashes, idx, done, f, filter, all', workers');
  }

  /** The inner loop: the fields of one hash. */
  method AddHash(all: Builder, workers: map<Str, Builder>, n: nat, hashes: seq<Hash>, idx: nat, filter: Filter)
    returns (all': Builder, workers': map<Str, Builder>)
    requires Aggregated(all, workers, n, hashes, idx, {}, filter) && idx < |hashes| && idx < n
    ensures Aggregated(all', workers', n, hashes, idx + 1, {}, filter)
  {
    all', workers' := all, workers;
    var todo := hashes[idx].Keys;
    assert hashes[idx].Keys - todo == {};
    while todo != {}
      invariant todo <= hashes[idx].Keys
      invariant Aggregated(all', workers', n, hashes, idx, hashes[idx].Keys - todo, filter)
      decreases |todo|
    {
      var f :| f in todo;
      ghost var done := hashes[idx].Keys - todo;
      all', workers' := AddField(all', workers', n, hashes, idx, done, f, filter);
      todo := todo - {f};
      assert hashes[idx].Keys - todo == done + {f};
    }
    assert hashes[idx].Keys - todo == hashes[idx].Keys;
    AggregatedNext(all', workers', n, hashes, idx, filter);
  }

  /** `hashes` has one hash for each of the first minutes; hashes beyond the minutes are ignored. The
      fields of a hash come in whatever order its hash map yields them. */
  method AggregateCounterHashes(n: nat, hashes: seq<Hash>, filter: Filter)
    returns (all: WorkerSummary, workers: map<Str, WorkerSummary>)
    ensures var used := Take(hashes, n);
            && all == SummaryOf(used, n, filter)
            && (forall w :: w in workers <==> Passes(filter, w) && Mentions(used, w))
            && (forall w :: w in workers ==> workers[w] == SummaryOf(used, n, Some(w)))
  {
    var used := Take(hashes, n);
    var total := EmptyBuilder(n);
    var builders: map<Str, Builder> := map[];
    AggregatedAtStart(n, used, filter);
    var idx := 0;
    while idx < |used|
      invariant idx <= |used|
      invariant Aggregated(total, builders, n, used, idx, {}, filter)
    {
      total, builders := AddHash(total, builders, n, used, idx, filter);
      idx := idx + 1;
    }
    all := WorkerSummary(Finalize(total.totals), FinalizeAll(total.series));
    workers := FinalizeWorkers(builders);
    AggregatedAll(total, builders, n, used, filter);
  }
}
