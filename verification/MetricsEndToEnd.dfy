/** The pipeline as a whole: totals, series and worker summaries against the direct count, the fallback for
    old data, and the fetch of one worker's counters. */
module MetricsEndToEnd {
  import opened Redis
  import opened MetricFields
  import opened Metrics
  import opened MetricRecording
  import opened MetricAggregation

  // ---- the counters of a minute add up to its results ----

  function InCells(minute: int, keys: set<Str>, filter: Filter, m: Metric): Recorded -> bool {
    (r: Recorded) => r.minute == minute && Passes(filter, r.result.worker) && MetricField(r.result.worker, m) in keys
  }

  /** In a recorded hash a field is the printed name of the counter it is read as. */
  lemma RecordedField(counters: map<int, Hash>, rs: seq<Recorded>, minute: int, f: Str)
    returns (w: WorkerName, m: Metric)
    requires Reflects(counters, rs) && f in HashAt(counters, minute)
    ensures f == MetricField(w, m) && SplitMetricField(f) == Some((w, m))
  {
    assert FieldReflects(HashAt(counters, minute), rs, minute, f);
    w, m := Canonical(f).value.0, Canonical(f).value.1;
  }

  /** Taking a counter's field out of the selected ones takes out the results of its cell. */
  lemma OneFieldLess(rs: seq<Recorded>, minute: int, keys: set<Str>, filter: Filter, w: WorkerName, k: Metric,
                     m: Metric)
    requires MetricField(w, k) in keys
    ensures Count(rs, InCells(minute, keys, filter, m), m)
         == Count(rs, InCells(minute, keys - {MetricField(w, k)}, filter, m), m)
            + (if k == m && Passes(filter, w) then Count(rs, InCell(minute, w), m) else 0)
  {
    var f := MetricField(w, k);
    forall r | r in rs ensures MetricField(r.result.worker, m) == f <==> r.result.worker == w && m == k {
      FieldsAreDistinct(r.result.worker, m, w, k);
    }
    if k == m && Passes(filter, w) {
      CountSplits(rs, InCells(minute, keys - {f}, filter, m), InCell(minute, w), InCells(minute, keys, filter, m), m);
    } else {
      CountSame(rs, InCells(minute, keys - {f}, filter, m), InCells(minute, keys, filter, m), m);
    }
  }

  lemma {:induction false} FieldsCountTheirResults(counters: map<int, Hash>, rs: seq<Recorded>, minute: int,
                                                   keys: set<Str>, filter: Filter, m: Metric)
    requires Reflects(counters, rs) && keys <= HashAt(counters, minute).Keys
    ensures FieldSum(HashAt(counters, minute), keys, filter, m) == Count(rs, InCells(minute, keys, filter, m), m)
    decreases |keys|
  {
    if keys == {} {
      NothingSelected(rs, InCells(minute, keys, filter, m), m);
    } else {
      var f :| f in keys;
      var w, k := RecordedField(counters, rs, minute, f);
      FieldSumStep(HashAt(counters, minute), keys, f, filter, m);
      FieldsCountTheirResults(counters, rs, minute, keys - {f}, filter, m);
      OneFieldLess(rs, minute, keys, filter, w, k, m);
      ReflectsAt(counters, rs, minute, w, k);
    }
  }

  lemma {:induction false} NothingSelected(rs: seq<Recorded>, selects: Recorded -> bool, m: Metric)
    requires forall r :: r in rs ==> !selects(r)
    ensures Count(rs, selects, m) == 0
  {
    if rs != [] {
      NothingSelected(rs[..|rs| - 1], selects, m);
    }
  }

  /** A result whose counter is not in the hash contributes nothing to it. */
  lemma {:induction false} AbsentAddsNothing(counters: map<int, Hash>, rs: seq<Recorded>, minute: int,
                                             part: seq<Recorded>, filter: Filter, m: Metric)
    requires Reflects(counters, rs) && forall r :: r in part ==> r in rs
    ensures Count(part, InCells(minute, HashAt(counters, minute).Keys, filter, m), m)
         == Count(part, Selected(minute, filter), m)
  {
    if part != [] {
      var last := part[|part| - 1];
      AbsentAddsNothing(counters, rs, minute, part[..|part| - 1], filter, m);
      if last.minute == minute && MetricField(last.result.worker, m) !in HashAt(counters, minute) {
        ReflectsAt(counters, rs, minute, last.result.worker, m);
        OneOfMany(rs, last, InCell(minute, last.result.worker), m);
      }
    }
  }

  lemma {:induction false} OneOfMany(rs: seq<Recorded>, r: Recorded, selects: Recorded -> bool, m: Metric)
    requires r in rs && selects(r)
    ensures Contribution(r.result, m) <= Count(rs, selects, m)
  {
    if r != rs[|rs| - 1] {
      OneOfMany(rs[..|rs| - 1], r, selects, m);
    }
  }

  function Selected(minute: int, filter: Filter): Recorded -> bool {
    (r: Recorded) => r.minute == minute && Passes(filter, r.result.worker)
  }

  lemma MinuteCounts(counters: map<int, Hash>, rs: seq<Recorded>, minute: int, filter: Filter, m: Metric)
    requires Reflects(counters, rs)
    ensures var h := HashAt(counters, minute);
            FieldSum(h, h.Keys, filter, m) == Count(rs, Selected(minute, filter), m)
  {
    FieldsCountTheirResults(counters, rs, minute, HashAt(counters, minute).Keys, filter, m);
    AbsentAddsNothing(counters, rs, minute, rs, filter, m);
  }

  // ---- the window ----

  function HashesOf(counters: map<int, Hash>, minutes: seq<int>): (r: seq<Hash>)
    ensures |r| == |minutes| && forall i :: 0 <= i < |r| ==> r[i] == HashAt(counters, minutes[i])
  {
    seq(|minutes|, i requires 0 <= i < |minutes| => HashAt(counters, minutes[i]))
  }

  function InWindow(minutes: seq<int>, filter: Filter): Recorded -> bool {
    (r: Recorded) => r.minute in minutes && Passes(filter, r.result.worker)
  }

  lemma {:induction false} WindowCounts(counters: map<int, Hash>, rs: seq<Recorded>, minutes: seq<int>,
                                        filter: Filter, m: Metric)
    requires Reflects(counters, rs) && NoDup(minutes)
    ensures HashesSum(HashesOf(counters, minutes), filter, m) == Count(rs, InWindow(minutes, filter), m)
  {
    if minutes == [] {
      NothingSelected(rs, InWindow(minutes, filter), m);
    } else {
      var n := |minutes| - 1;
      assert minutes == minutes[..n] + [minutes[n]];
      assert HashesOf(counters, minutes)[..n] == HashesOf(counters, minutes[..n]);
      WindowCounts(counters, rs, minutes[..n], filter, m);
      MinuteCounts(counters, rs, minutes[n], filter, m);
      CountSplits(rs, InWindow(minutes[..n], filter), Selected(minutes[n], filter), InWindow(minutes, filter), m);
    }
  }

  // ---- finalize on recorded data ----

  /** The seven counters of the selected results, kind by kind. */
  ghost function DirectCounts(rs: seq<Recorded>, selects: Recorded -> bool): Counts {
    Counts(JobsOf(rs, selects, Success) + JobsOf(rs, selects, Failure) + JobsOf(rs, selects, Panic),
           JobsOf(rs, selects, Failure) + JobsOf(rs, selects, Panic),
           JobsOf(rs, selects, Panic),
           RunsOf(rs, selects, Success),
           RunsOf(rs, selects, Failure) + RunsOf(rs, selects, Panic),
           RunsOf(rs, selects, Panic),
           MillisOf(rs, selects, Success))
  }

  lemma {:induction false} NoRunsNoJobs(rs: seq<Recorded>, selects: Recorded -> bool, kind: Kind)
    ensures RunsOf(rs, selects, kind) == 0 ==> JobsOf(rs, selects, kind) == 0
  {
    if rs != [] {
      NoRunsNoJobs(rs[..|rs| - 1], selects, kind);
    }
  }

  lemma {:induction false} ExecutionsAreFew(rs: seq<Recorded>, selects: Recorded -> bool)
    ensures RunsOf(rs, selects, Success) + RunsOf(rs, selects, Failure) + RunsOf(rs, selects, Panic) <= |rs|
  {
    if rs != [] {
      ExecutionsAreFew(rs[..|rs| - 1], selects);
    }
  }

  /** On recorded results the fallback changes nothing, and `succeeded` is the count of successful jobs. */
  lemma FinalizeIsExact(rs: seq<Recorded>, selects: Recorded -> bool)
    requires |rs| <= I64_MAX
    ensures Finalize(DirectCounts(rs, selects)) == Summary(DirectCounts(rs, selects), JobsOf(rs, selects, Success))
  {
    NoRunsNoJobs(rs, selects, Success);
    NoRunsNoJobs(rs, selects, Failure);
    NoRunsNoJobs(rs, selects, Panic);
    ExecutionsAreFew(rs, selects);
    FallbackIsRightIffNoWrap(DirectCounts(rs, selects));
  }

  // ---- the theorem ----

  lemma RawIsDirect(c: Counts, rs: seq<Recorded>, selects: Recorded -> bool)
    requires Bounded(rs) && forall m :: Get(c, m) == Capped(Count(rs, selects, m))
    ensures c == DirectCounts(rs, selects)
  {
    CountersMean(rs, selects);
    forall m ensures Get(c, m) == Get(DirectCounts(rs, selects), m) {
      CountGrows(rs, selects, Always(), m);
    }
    SameCounts(c, DirectCounts(rs, selects));
  }

  ghost function Direct(rs: seq<Recorded>, selects: Recorded -> bool): Summary {
    Summary(DirectCounts(rs, selects), JobsOf(rs, selects, Success))
  }

  /** Whatever was recorded, flushed and then aggregated over distinct minutes: totals and every point of
      the series are the direct counts, for all workers together and for each worker. */
  lemma ReportsAreDirectCounts(counters: map<int, Hash>, rs: seq<Recorded>, minutes: seq<int>, filter: Filter)
    requires Reflects(counters, rs) && Bounded(rs) && NoDup(minutes)
    ensures var report := SummaryOf(HashesOf(counters, minutes), |minutes|, filter);
            && report.totals == Direct(rs, InWindow(minutes, filter))
            && forall i :: 0 <= i < |minutes| ==> report.series[i] == Direct(rs, Selected(minutes[i], filter))
  {
    var hashes := HashesOf(counters, minutes);
    forall m ensures Get(RawTotals(hashes, filter), m) == Capped(Count(rs, InWindow(minutes, filter), m)) {
      WindowCounts(counters, rs, minutes, filter, m);
    }
    RawIsDirect(RawTotals(hashes, filter), rs, InWindow(minutes, filter));
    FinalizeIsExact(rs, InWindow(minutes, filter));
    forall i | 0 <= i < |minutes|
      ensures SummaryOf(hashes, |minutes|, filter).series[i] == Direct(rs, Selected(minutes[i], filter))
    {
      forall m ensures Get(RawPoint(hashes[i], filter), m) == Capped(Count(rs, Selected(minutes[i], filter), m)) {
        MinuteCounts(counters, rs, minutes[i], filter, m);
      }
      RawIsDirect(RawPoint(hashes[i], filter), rs, Selected(minutes[i], filter));
      FinalizeIsExact(rs, Selected(minutes[i], filter));
    }
  }

  /** A worker has a summary exactly when one of its results falls into the window. */
  lemma ListedWorkers(counters: map<int, Hash>, rs: seq<Recorded>, minutes: seq<int>, w: Str)
    requires Reflects(counters, rs)
    ensures Mentions(HashesOf(counters, minutes), w)
            <==> exists r :: r in rs && r.minute in minutes && r.result.worker == w
  {
    var hashes := HashesOf(counters, minutes);
    if Mentions(hashes, w) {
      var i, f :| 0 <= i < |hashes| && f in hashes[i] && Names(f, w);
      var x, m := RecordedField(counters, rs, minutes[i], f);
      ReflectsAt(counters, rs, minutes[i], x, m);
      SomeResult(rs, InCell(minutes[i], x), m);
    }
    if exists r :: r in rs && r.minute in minutes && r.result.worker == w {
      var r :| r in rs && r.minute in minutes && r.result.worker == w;
      var i :| 0 <= i < |minutes| && minutes[i] == r.minute;
      var m := if r.result.kind == Success then SuccessfulExecutions else FailedExecutions;
      OneOfMany(rs, r, InCell(r.minute, r.result.worker), m);
      ReflectsAt(counters, rs, r.minute, r.result.worker, m);
      FieldRoundTrip(r.result.worker, m);
      assert MetricField(r.result.worker, m) in hashes[i] && Names(MetricField(r.result.worker, m), w);
    }
  }

  lemma {:induction false} SomeResult(rs: seq<Recorded>, selects: Recorded -> bool, m: Metric)
    requires Count(rs, selects, m) > 0
    ensures exists r :: r in rs && selects(r)
  {
    var last := rs[|rs| - 1];
    if !selects(last) {
      SomeResult(rs[..|rs| - 1], selects, m);
    }
  }

  // ---- one worker's counters ----

  /** The seven fields that are fetched for a worker, as far as the hash has them. */
  ghost function Only(h: Hash, w: WorkerName): Hash {
    map f | f in h && IsPrinted(f, w) :: h[f]
  }

  ghost predicate IsPrinted(f: Str, w: WorkerName) {
    exists j :: 0 <= j < |ALL_METRICS| && f == MetricField(w, ALL_METRICS[j])
  }

  function Lookup(h: Hash, f: Str): Option<int> {
    if f in h then Some(h[f]) else None
  }

  function FieldsFor(w: WorkerName): (r: seq<Str>)
    ensures |r| == |ALL_METRICS| && forall j :: 0 <= j < |r| ==> r[j] == MetricField(w, ALL_METRICS[j])
  {
    seq(|ALL_METRICS|, j requires 0 <= j < |ALL_METRICS| => MetricField(w, ALL_METRICS[j]))
  }

  /** The replies to one HGET after another, minute by minute and field by field. */
  method CollectReplies(counters: map<int, Hash>, minutes: seq<int>, fields: seq<Str>)
    returns (replies: seq<Option<int>>)
    ensures |replies| == |fields| * |minutes|
    ensures forall i :: 0 <= i < |minutes| ==> RepliesAt(replies, fields, HashAt(counters, minutes[i]), |fields| * i)
  {
    replies := [];
    var k := 0;
    while k < |minutes|
      invariant 0 <= k <= |minutes| && |replies| == |fields| * k
      invariant forall i :: 0 <= i < k ==> RepliesAt(replies, fields, HashAt(counters, minutes[i]), |fields| * i)
    {
      var h := HashAt(counters, minutes[k]);
      ghost var before := replies;
      replies := replies + seq(|fields|, j requires 0 <= j < |fields| => Lookup(h, fields[j]));
      forall i | 0 <= i < k ensures RepliesAt(replies, fields, HashAt(counters, minutes[i]), |fields| * i) {
        assert RepliesAt(before, fields, HashAt(counters, minutes[i]), |fields| * i);
      }
      k := k + 1;
    }
  }

  ghost predicate RepliesAt(replies: seq<Option<int>>, fields: seq<Str>, h: Hash, start: nat) {
    start + |fields| <= |replies| && forall j :: 0 <= j < |fields| ==> replies[start + j] == Lookup(h, fields[j])
  }

  /** The fields zipped with one chunk of replies. */
  method HashOfChunk(fields: seq<Str>, chunk: seq<Option<int>>, ghost h: Hash) returns (hash: Hash)
    requires RepliesAt(chunk, fields, h, 0)
    ensures forall f :: f in hash <==> f in fields && f in h
    ensures forall f :: f in hash ==> hash[f] == h[f]
  {
    hash := map[];
    for j := 0 to |fields|
      invariant forall f :: f in hash <==> f in fields[..j] && f in h
      invariant forall f :: f in hash ==> hash[f] == h[f]
    {
      assert chunk[0 + j] == Lookup(h, fields[j]);
      assert fields[..j + 1] == fields[..j] + [fields[j]];
      if chunk[j].Some? {
        hash := hash[fields[j] := chunk[j].value];
      }
    }
    assert fields[..|fields|] == fields;
  }

  lemma ChunkReplies(replies: seq<Option<int>>, fields: seq<Str>, h: Hash, start: nat)
    requires RepliesAt(replies, fields, h, start)
    ensures RepliesAt(replies[start..start + |fields|], fields, h, 0)
  {
    var chunk := replies[start..start + |fields|];
    forall j | 0 <= j < |fields| ensures chunk[0 + j] == Lookup(h, fields[j]) {
      assert chunk[j] == replies[start + j];
    }
  }

  lemma ChunkIsOnly(h: Hash, w: WorkerName, fields: seq<Str>, hash: Hash)
    requires fields == FieldsFor(w)
    requires forall f :: f in hash <==> f in fields && f in h
    requires forall f :: f in hash ==> hash[f] == h[f]
    ensures hash == Only(h, w)
  {
    forall f ensures f in fields <==> IsPrinted(f, w) {
    }
  }

  method HashAtStart(replies: seq<Option<int>>, fields: seq<Str>, start: nat, ghost h: Hash, ghost w: WorkerName)
    returns (hash: Hash)
    requires RepliesAt(replies, fields, h, start) && fields == FieldsFor(w)
    ensures hash == Only(h, w)
  {
    var chunk := replies[start..start + |fields|];
    ChunkReplies(replies, fields, h, start);
    hash := HashOfChunk(fields, chunk, h);
    ChunkIsOnly(h, w, fields, hash);
  }

  /** HGET for each minute and each of the seven fields; the replies are cut into chunks of seven again. */
  method HashesFor(counters: map<int, Hash>, minutes: seq<int>, w: WorkerName) returns (hashes: seq<Hash>)
    ensures |hashes| == |minutes|
    ensures forall i :: 0 <= i < |minutes| ==> hashes[i] == Only(HashAt(counters, minutes[i]), w)
  {
    var fields := FieldsFor(w);
    var replies := CollectReplies(counters, minutes, fields);
    hashes := [];
    var idx := 0;
    while idx < |minutes|
      invariant 0 <= idx <= |minutes| && |hashes| == idx
      invariant forall i :: 0 <= i < idx ==> hashes[i] == Only(HashAt(counters, minutes[i]), w)
    {
      ghost var h := HashAt(counters, minutes[idx]);
      assert RepliesAt(replies, fields, h, |fields| * idx);
      var hash := HashAtStart(replies, fields, |fields| * idx, h, w);
      hashes := hashes + [hash];
      idx := idx + 1;
    }
  }

  /** A field that is read as a counter of the worker without being its printed name, such as one with
      bytes after the name or zeros before the length, and that would add to the counter. */
  ghost predicate IsStray(h: Hash, f: Str, w: WorkerName) {
    f in h && Names(f, w) && !IsPrinted(f, w) && h[f] > 0
  }

  ghost predicate NoStrays(h: Hash, w: WorkerName) {
    forall f :: f in h ==> !IsStray(h, f, w)
  }

  /** The fields that are not fetched for the worker. */
  ghost function Others(h: Hash, w: WorkerName): set<Str> {
    set f | f in h && !IsPrinted(f, w)
  }

  lemma {:induction false} SumSplits(h: Hash, a: set<Str>, b: set<Str>, filter: Filter, m: Metric)
    requires a !! b
    ensures FieldSum(h, a + b, filter, m) == FieldSum(h, a, filter, m) + FieldSum(h, b, filter, m)
    decreases |a|
  {
    if a == {} {
      assert a + b == b;
    } else {
      var f :| f in a;
      SumSplits(h, a - {f}, b, filter, m);
      FieldSumStep(h, a, f, filter, m);
      FieldSumStep(h, a + b, f, filter, m);
      assert a + b - {f} == (a - {f}) + b;
    }
  }

  lemma {:induction false} SameSum(h: Hash, few: Hash, keys: set<Str>, filter: Filter, m: Metric)
    requires forall f :: f in keys ==> f in h && f in few && few[f] == h[f]
    ensures FieldSum(few, keys, filter, m) == FieldSum(h, keys, filter, m)
    decreases |keys|
  {
    if keys != {} {
      var f :| f in keys;
      SameSum(h, few, keys - {f}, filter, m);
      FieldSumStep(h, keys, f, filter, m);
      FieldSumStep(few, keys, f, filter, m);
    }
  }

  lemma {:induction false} SumOfNothing(h: Hash, keys: set<Str>, filter: Filter, m: Metric)
    ensures FieldSum(h, keys, filter, m) == 0 <==> forall f :: f in keys ==> Amount(h, f, filter, m) == 0
    decreases |keys|
  {
    if keys != {} {
      var f :| f in keys;
      FieldSumStep(h, keys, f, filter, m);
      SumOfNothing(h, keys - {f}, filter, m);
    }
  }

  lemma StraySums(h: Hash, w: WorkerName)
    ensures NoStrays(h, w) ==> forall m :: FieldSum(h, Others(h, w), Some(w), m) == 0
    ensures !NoStrays(h, w) ==> exists m :: FieldSum(h, Others(h, w), Some(w), m) != 0
  {
    if NoStrays(h, w) {
      forall m ensures FieldSum(h, Others(h, w), Some(w), m) == 0 {
        forall f | f in Others(h, w) ensures Amount(h, f, Some(w), m) == 0 {
          assert !IsStray(h, f, w);
        }
        SumOfNothing(h, Others(h, w), Some(w), m);
      }
    } else {
      var f :| f in h && IsStray(h, f, w);
      var m := SplitMetricField(f).value.1;
      assert f in Others(h, w) && Amount(h, f, Some(w), m) > 0;
      SumOfNothing(h, Others(h, w), Some(w), m);
    }
  }

  lemma OnlyAndStrays(h: Hash, w: WorkerName, m: Metric)
    ensures FieldSum(h, h.Keys, Some(w), m)
         == FieldSum(Only(h, w), Only(h, w).Keys, Some(w), m) + FieldSum(h, Others(h, w), Some(w), m)
  {
    var few := Only(h, w);
    assert h.Keys == few.Keys + Others(h, w);
    SumSplits(h, few.Keys, Others(h, w), Some(w), m);
    SameSum(h, few, few.Keys, Some(w), m);
  }

  lemma {:induction false} OnlySums(hashes: seq<Hash>, few: seq<Hash>, w: WorkerName, m: Metric)
    requires |few| == |hashes| && forall i :: 0 <= i < |hashes| ==>
               few[i] == Only(hashes[i], w) && NoStrays(hashes[i], w)
    ensures HashesSum(few, Some(w), m) == HashesSum(hashes, Some(w), m)
  {
    if hashes != [] {
      var n := |hashes| - 1;
      OnlySums(hashes[..n], few[..n], w, m);
      OnlyAndStrays(hashes[n], w, m);
      StraySums(hashes[n], w);
    }
  }

  /** What a Redis hash can hold. */
  ghost predicate In64Bits(h: Hash) {
    forall f :: f in h ==> h[f] <= I64_MAX
  }

  lemma PrintedAmount(h: Hash, f: Str, w: WorkerName, m: Metric)
    requires In64Bits(h) && IsPrinted(f, w)
    ensures Amount(h, f, Some(w), m) <= I64_MAX
    ensures f != MetricField(w, m) ==> Amount(h, f, Some(w), m) == 0
  {
    var j :| 0 <= j < |ALL_METRICS| && f == MetricField(w, ALL_METRICS[j]);
    FieldRoundTrip(w, ALL_METRICS[j]);
  }

  lemma {:induction false} OnePrinted(h: Hash, keys: set<Str>, w: WorkerName, m: Metric)
    requires In64Bits(h) && forall f :: f in keys ==> IsPrinted(f, w)
    ensures FieldSum(h, keys, Some(w), m) ==
              if MetricField(w, m) in keys then Amount(h, MetricField(w, m), Some(w), m) else 0
    ensures FieldSum(h, keys, Some(w), m) <= I64_MAX
    decreases |keys|
  {
    if keys != {} {
      var f :| f in keys;
      PrintedAmount(h, f, w, m);
      FieldSumStep(h, keys, f, Some(w), m);
      OnePrinted(h, keys - {f}, w, m);
    }
  }

  /** The fetched fields give the worker's counters of a minute, before `finalize`, exactly when the minute
      has no stray. */
  lemma PointsAgreeIffNoStrays(h: Hash, w: WorkerName)
    ensures NoStrays(h, w) ==> RawPoint(Only(h, w), Some(w)) == RawPoint(h, Some(w))
    ensures In64Bits(h) && RawPoint(Only(h, w), Some(w)) == RawPoint(h, Some(w)) ==> NoStrays(h, w)
  {
    var few := Only(h, w);
    StraySums(h, w);
    forall m
      ensures FieldSum(h, h.Keys, Some(w), m)
           == FieldSum(few, few.Keys, Some(w), m) + FieldSum(h, Others(h, w), Some(w), m)
    {
      OnlyAndStrays(h, w, m);
    }
    if NoStrays(h, w) {
      forall m ensures Get(RawPoint(few, Some(w)), m) == Get(RawPoint(h, Some(w)), m) {
        assert FieldSum(h, Others(h, w), Some(w), m) == 0;
      }
      SameCounts(RawPoint(few, Some(w)), RawPoint(h, Some(w)));
    } else if In64Bits(h) {
      var m :| FieldSum(h, Others(h, w), Some(w), m) != 0;
      OnePrinted(few, few.Keys, w, m);
      assert Get(RawPoint(few, Some(w)), m) != Get(RawPoint(h, Some(w)), m);
    }
  }

  /** A point whose executions were never counted, and the same point with the stand-ins counted, are
      finalized to the same summary; otherwise finalizing keeps points apart. */
  lemma FinalizedEqualIff(a: Counts, b: Counts)
    requires Executions(a) <= Executions(b) <= U64_MAX
    ensures Finalize(a) == Finalize(b) <==> a == b || (Executions(a) == 0 && b == FillIn(a))
  {
    FallbackIsRightIffNoWrap(a);
    FallbackIsRightIffNoWrap(b);
  }

  /** After `finalize` the fetch can also agree by accident: no executions are counted under printed names and
      the strays are what the fallback fills in. */
  lemma FinalizedPointsAgreeIff(h: Hash, w: WorkerName)
    requires In64Bits(h) && Executions(RawPoint(h, Some(w))) <= U64_MAX
    ensures var few, full := RawPoint(Only(h, w), Some(w)), RawPoint(h, Some(w));
            Finalize(few) == Finalize(full) <==> NoStrays(h, w) || (Executions(few) == 0 && full == FillIn(few))
  {
    var few, full := RawPoint(Only(h, w), Some(w)), RawPoint(h, Some(w));
    PointsAgreeIffNoStrays(h, w);
    forall m ensures Get(few, m) <= Get(full, m) {
      OnlyAndStrays(h, w, m);
    }
    assert few.successfulExecutions == Get(few, SuccessfulExecutions) <= Get(full, SuccessfulExecutions);
    assert few.failedExecutions == Get(few, FailedExecutions) <= Get(full, FailedExecutions);
    assert few.panickedExecutions == Get(few, PanickedExecutions) <= Get(full, PanickedExecutions);
    FinalizedEqualIff(few, full);
  }

  /** Recorded hashes have no strays, so there the fetch is the worker's entry. */
  lemma RecordedHashesHaveNoStrays(counters: map<int, Hash>, rs: seq<Recorded>, minute: int, w: WorkerName)
    requires Reflects(counters, rs)
    ensures NoStrays(HashAt(counters, minute), w)
  {
    forall f | f in HashAt(counters, minute) ensures !IsStray(HashAt(counters, minute), f, w) {
      var x, m := RecordedField(counters, rs, minute, f);
      var j := MetricIndex(m);
      assert x == w ==> f == MetricField(w, ALL_METRICS[j]);
    }
  }

  function MetricIndex(m: Metric): (j: nat)
    ensures j < |ALL_METRICS| && ALL_METRICS[j] == m
  {
    match m
    case Processed => 0
    case FailedJobs => 1
    case PanickedJobs => 2
    case SuccessfulExecutions => 3
    case FailedExecutions => 4
    case PanickedExecutions => 5
    case ExecutionMs => 6
  }

  /** Strays exist: any byte that starts a character may stand after the name. */
  lemma StrayFieldExists(w: WorkerName, extra: Byte, m: Metric)
    requires !(128 <= extra < 192)
    ensures var f := FieldKey(w) + [extra] + [BAR] + Label(m);
            Names(f, w) && !IsPrinted(f, w) && IsStray(map[f := 1], f, w)
  {
    var f := FieldKey(w) + [extra] + [BAR] + Label(m);
    SplitsAtTheLast(FieldKey(w) + [extra], BAR, Label(m));
    TrailingBytes(w, [extra]);
    assert SplitMetricField(f) == Some((w, m));
    assert f != MetricField(w, m);
    forall j | 0 <= j < |ALL_METRICS| ensures f != MetricField(w, ALL_METRICS[j]) {
      FieldRoundTrip(w, ALL_METRICS[j]);
    }
  }

  /** For hashes without strays, whatever else they hold, aggregating the few fetched fields gives the
      worker's entry of the full aggregate. */
  lemma FastFetchAgrees(hashes: seq<Hash>, few: seq<Hash>, w: WorkerName)
    requires |few| == |hashes| && forall i :: 0 <= i < |hashes| ==>
               few[i] == Only(hashes[i], w) && NoStrays(hashes[i], w)
    ensures SummaryOf(few, |hashes|, Some(w)) == SummaryOf(hashes, |hashes|, Some(w))
  {
    forall m ensures Get(RawTotals(few, Some(w)), m) == Get(RawTotals(hashes, Some(w)), m) {
      OnlySums(hashes, few, w, m);
    }
    SameCounts(RawTotals(few, Some(w)), RawTotals(hashes, Some(w)));
    forall i | 0 <= i < |hashes| ensures SeriesOf(few, |hashes|, Some(w))[i] == SeriesOf(hashes, |hashes|, Some(w))[i] {
      PointsAgreeIffNoStrays(hashes[i], w);
    }
    assert SeriesOf(few, |hashes|, Some(w)) == SeriesOf(hashes, |hashes|, Some(w));
  }

  /** So on recorded hashes the fetch reports the worker's direct counts. */
  lemma FetchedReportIsDirect(counters: map<int, Hash>, rs: seq<Recorded>, minutes: seq<int>, few: seq<Hash>,
                              w: WorkerName)
    requires Reflects(counters, rs) && Bounded(rs) && NoDup(minutes)
    requires |few| == |minutes| && forall i :: 0 <= i < |minutes| ==> few[i] == Only(HashAt(counters, minutes[i]), w)
    ensures var report := SummaryOf(few, |minutes|, Some(w));
            && report.totals == Direct(rs, InWindow(minutes, Some(w)))
            && forall i :: 0 <= i < |minutes| ==> report.series[i] == Direct(rs, Selected(minutes[i], Some(w)))
  {
    forall i | 0 <= i < |minutes| ensures NoStrays(HashesOf(counters, minutes)[i], w) {
      RecordedHashesHaveNoStrays(counters, rs, minutes[i], w);
    }
    FastFetchAgrees(HashesOf(counters, minutes), few, w);
    ReportsAreDirectCounts(counters, rs, minutes, Some(w));
  }
}
