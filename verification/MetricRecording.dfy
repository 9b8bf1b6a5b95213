/** From results to counters: the in-memory buffer and its flush into one Redis hash per minute. */
module MetricRecording {
  import opened Redis
  import opened MetricFields
  import opened Metrics

  /** A minute's hash: HINCRBY makes its fields under their printed names. */
  type Hash = map<Str, int>

  /** The counter whose printed name this is, if it is one. */
  function Canonical(f: Str): Option<(WorkerName, Metric)> {
    match SplitMetricField(f)
    case None => None
    case Some((w, m)) => if |w| <= LENGTH_LIMIT && f == MetricField(w, m) then Some((w, m)) else None
  }

  lemma CanonicalIsPrinted(f: Str, w: WorkerName, m: Metric)
    ensures Canonical(f) == Some((w, m)) <==> f == MetricField(w, m)
  {
    FieldRoundTrip(w, m);
  }

  type Cell = (int, WorkerName)

  function CountsAt(entries: map<Cell, Counts>, cell: Cell): Counts {
    if cell in entries then entries[cell] else NO_COUNTS
  }

  /** Each cell holds the direct count of its results, up to saturation. */
  ghost predicate EntriesCount(entries: map<Cell, Counts>, history: seq<Recorded>) {
    && (forall minute, w, m :: Get(CountsAt(entries, (minute, w)), m) == Capped(Count(history, InCell(minute, w), m)))
    && (forall minute, w :: (minute, w) in entries <==> exists i :: 0 <= i < |history| && InCell(minute, w)(history[i]))
  }

  class JobMetricsBuffer {
    var entries: map<Cell, Counts>
    /** The results since the last `Clear`. */
    ghost var history: seq<Recorded>

    ghost predicate Valid()
      reads this
    {
      EntriesCount(entries, history)
    }

    constructor ()
      ensures Valid() && history == []
    {
      entries := map[];
      history := [];
    }

    method Record(r: WorkerResult, minute: int)
      requires Valid()
      modifies this
      ensures Valid() && history == old(history) + [Recorded(minute, r)]
    {
      var c := CountsAt(entries, (minute, r.worker));
      ghost var was := c;
      c := AddMetric(c, Processed, r.jobCount);
      match r.kind {
        case Success =>
          c := AddMetric(c, SuccessfulExecutions, 1);
          c := AddMetric(c, ExecutionMs, r.executionMs);
        case Panic =>
          c := AddMetric(c, FailedJobs, r.jobCount);
          c := AddMetric(c, PanickedJobs, r.jobCount);
          c := AddMetric(c, FailedExecutions, 1);
          c := AddMetric(c, PanickedExecutions, 1);
        case Failure =>
          c := AddMetric(c, FailedJobs, r.jobCount);
          c := AddMetric(c, FailedExecutions, 1);
      }
      assert forall m :: Get(c, m) == SaturatingAdd(Get(was, m), Contribution(r, m)) by {
        GetIsCapped(entries, history, minute, r.worker);
      }
      RecordKeepsCounts(entries, history, Recorded(minute, r), c);
      entries := entries[(minute, r.worker) := c];
      history := history + [Recorded(minute, r)];
    }

    method Clear()
      modifies this
      ensures Valid() && history == []
    {
      entries := map[];
      history := [];
    }
  }

  lemma GetIsCapped(entries: map<Cell, Counts>, history: seq<Recorded>, minute: int, w: WorkerName)
    requires EntriesCount(entries, history)
    ensures forall m :: Get(CountsAt(entries, (minute, w)), m) <= U64_MAX
  {
    forall m ensures Get(CountsAt(entries, (minute, w)), m) <= U64_MAX {
      assert Get(CountsAt(entries, (minute, w)), m) == Capped(Count(history, InCell(minute, w), m));
    }
  }

  lemma RecordKeepsCounts(entries: map<Cell, Counts>, history: seq<Recorded>, r: Recorded, c: Counts)
    requires EntriesCount(entries, history)
    requires var was := CountsAt(entries, (r.minute, r.result.worker));
             forall m :: Get(c, m) == SaturatingAdd(Get(was, m), Contribution(r.result, m))
    ensures EntriesCount(entries[(r.minute, r.result.worker) := c], history + [r])
  {
    var entries', history' := entries[(r.minute, r.result.worker) := c], history + [r];
    forall minute, w, m
      ensures Get(CountsAt(entries', (minute, w)), m) == Capped(Count(history', InCell(minute, w), m))
    {
      CountSnoc(history, r, InCell(minute, w), m);
      CappedAdd(Count(history, InCell(minute, w), m), Contribution(r.result, m));
    }
    forall minute, w
      ensures (minute, w) in entries' <==> exists i :: 0 <= i < |history'| && InCell(minute, w)(history'[i])
    {
      if (minute, w) in entries {
        var i :| 0 <= i < |history| && InCell(minute, w)(history[i]);
        assert InCell(minute, w)(history'[i]);
      }
      assert InCell(r.minute, r.result.worker)(history'[|history|]);
    }
  }

  // ---- flushing ----

  function HashAt(counters: map<int, Hash>, minute: int): Hash {
    if minute in counters then counters[minute] else map[]
  }

  function ValueAt(hash: Hash, f: Str): int {
    if f in hash then hash[f] else 0
  }

  /** HINCRBY. */
  function HIncr(counters: map<int, Hash>, minute: int, f: Str, amount: int): map<int, Hash> {
    var hash := HashAt(counters, minute);
    counters[minute := hash[f := ValueAt(hash, f) + amount]]
  }

  /** `redis_metric_increment`. */
  function Increment(v: nat): int {
    if v <= I64_MAX then v else I64_MAX
  }

  // What a field is owed by one increment, by one cell, and by the cells flushed so far.

  function OwedByOne(k: int, f: Str, minute: int, w: WorkerName, m: Metric, v: nat): int {
    if k == minute && Canonical(f) == Some((w, m)) then Increment(v) else 0
  }

  function OwedByCell(k: int, f: Str, minute: int, w: WorkerName, c: Counts): int {
    match Canonical(f)
    case Some((x, m)) => if k == minute && x == w then Increment(Get(c, m)) else 0
    case None => 0
  }

  function OwedBy(entries: map<Cell, Counts>, done: set<Cell>, minute: int, f: Str): int {
    match Canonical(f)
    case Some((w, m)) => if (minute, w) in done then Increment(Get(CountsAt(entries, (minute, w)), m)) else 0
    case None => 0
  }

  ghost predicate FlushedSoFar(start: map<int, Hash>, now: map<int, Hash>,
                               entries: map<Cell, Counts>, done: set<Cell>) {
    forall minute: int, f: Str ::
      Differ(start, now, minute, f, OwedBy(entries, done, minute, f))
  }

  /** One counter has grown, everything else is as it was. */
  ghost predicate Paid(start: map<int, Hash>, now: map<int, Hash>,
                       minute: int, w: WorkerName, m: Metric, v: nat) {
    forall k: int, f: Str :: Differ(start, now, k, f, OwedByOne(k, f, minute, w, m, v))
  }

  ghost predicate Differ(start: map<int, Hash>, now: map<int, Hash>, k: int, f: Str, owed: int) {
    && ValueAt(HashAt(now, k), f) == ValueAt(HashAt(start, k), f) + owed
    && (f in HashAt(now, k) <==> f in HashAt(start, k) || owed > 0)
  }

  ghost predicate CellFlushed(start: map<int, Hash>, now: map<int, Hash>,
                              minute: int, w: WorkerName, c: Counts) {
    forall k: int, f: Str ::
      Differ(start, now, k, f, OwedByCell(k, f, minute, w, c))
  }

  const ALL_METRICS: seq<Metric> :=
    [Processed, FailedJobs, PanickedJobs, SuccessfulExecutions, FailedExecutions, PanickedExecutions, ExecutionMs]

  lemma SevenPayments(c: seq<map<int, Hash>>, minute: int, w: WorkerName, counts: Counts)
    requires |c| == 8
    requires forall i :: 0 <= i < 7 ==> Paid(c[i], c[i + 1], minute, w, ALL_METRICS[i], Get(counts, ALL_METRICS[i]))
    ensures CellFlushed(c[0], c[7], minute, w, counts)
  {
    forall k: int, f: Str ensures Differ(c[0], c[7], k, f, OwedByCell(k, f, minute, w, counts)) {
      var owned := OwnedMetric(k, f, minute, w);
      forall i | 0 <= i < 7 ensures Differ(c[i], c[i + 1], k, f, Due(owned, ALL_METRICS[i], counts)) {
        assert Paid(c[i], c[i + 1], minute, w, ALL_METRICS[i], Get(counts, ALL_METRICS[i]));
        assert Differ(c[i], c[i + 1], k, f, OwedByOne(k, f, minute, w, ALL_METRICS[i], Get(counts, ALL_METRICS[i])));
      }
      SevenSteps(seq(8, i requires 0 <= i < 8 => ValueAt(HashAt(c[i], k), f)),
                 seq(8, i requires 0 <= i < 8 => f in HashAt(c[i], k)), owned, counts);
    }
  }

  /** The metric that a field of this minute counts for this worker. */
  function OwnedMetric(k: int, f: Str, minute: int, w: WorkerName): Option<Metric> {
    match Canonical(f)
    case Some((x, m)) => if k == minute && x == w then Some(m) else None
    case None => None
  }

  function Due(owned: Option<Metric>, m: Metric, counts: Counts): int {
    if owned == Some(m) then Increment(Get(counts, m)) else 0
  }

  lemma SevenSteps(values: seq<int>, present: seq<bool>, owned: Option<Metric>, counts: Counts)
    requires |values| == |present| == 8
    requires forall i :: 0 <= i < 7 ==>
               && values[i + 1] == values[i] + Due(owned, ALL_METRICS[i], counts)
               && present[i + 1] == (present[i] || Due(owned, ALL_METRICS[i], counts) > 0)
    ensures var total := if owned.Some? then Increment(Get(counts, owned.value)) else 0;
            values[7] == values[0] + total && present[7] == (present[0] || total > 0)
  {
    assert values[1] == values[0] + Due(owned, Processed, counts);
    assert values[2] == values[1] + Due(owned, FailedJobs, counts);
    assert values[3] == values[2] + Due(owned, PanickedJobs, counts);
    assert values[4] == values[3] + Due(owned, SuccessfulExecutions, counts);
    assert values[5] == values[4] + Due(owned, FailedExecutions, counts);
    assert values[6] == values[5] + Due(owned, PanickedExecutions, counts);
    assert values[7] == values[6] + Due(owned, ExecutionMs, counts);
  }

  lemma FlushOneMore(start: map<int, Hash>, before: map<int, Hash>, after: map<int, Hash>,
                     entries: map<Cell, Counts>, done: set<Cell>, cell: Cell)
    requires cell in entries && cell !in done
    requires FlushedSoFar(start, before, entries, done) && CellFlushed(before, after, cell.0, cell.1, entries[cell])
    ensures FlushedSoFar(start, after, entries, done + {cell})
  {
    forall minute: int, f: Str
      ensures Differ(start, after, minute, f, OwedBy(entries, done + {cell}, minute, f))
    {
      assert Differ(start, before, minute, f, OwedBy(entries, done, minute, f));
      assert Differ(before, after, minute, f,
                    OwedByCell(minute, f, cell.0, cell.1, entries[cell]));
    }
  }

  lemma PaidIsPrinted(start: map<int, Hash>, now: map<int, Hash>, minute: int, w: WorkerName, m: Metric, v: nat)
    requires now == if v > 0 then HIncr(start, minute, MetricField(w, m), Increment(v)) else start
    ensures Paid(start, now, minute, w, m, v)
  {
    var printed := MetricField(w, m);
    forall k: int, f: Str ensures Differ(start, now, k, f, OwedByOne(k, f, minute, w, m, v)) {
      CanonicalIsPrinted(f, w, m);
      assert f == printed <==> Canonical(f) == Some((w, m));
    }
  }

  /** A flushed cell adds its seven values under their printed names, each cut to the largest signed 64-bit number. */
  lemma FlushedCellMeans(start: map<int, Hash>, now: map<int, Hash>, minute: int, w: WorkerName, c: Counts, m: Metric)
    requires CellFlushed(start, now, minute, w, c)
    ensures ValueAt(HashAt(now, minute), MetricField(w, m)) == ValueAt(HashAt(start, minute), MetricField(w, m))
              + (if Get(c, m) <= 9_223_372_036_854_775_807 then Get(c, m) else 9_223_372_036_854_775_807)
    ensures forall k, f :: k != minute || Canonical(f) == None || Canonical(f).value.0 != w ==>
              ValueAt(HashAt(now, k), f) == ValueAt(HashAt(start, k), f)
  {
    CanonicalIsPrinted(MetricField(w, m), w, m);
    assert Differ(start, now, minute, MetricField(w, m), OwedByCell(minute, MetricField(w, m), minute, w, c));
    forall k, f | k != minute || Canonical(f) == None || Canonical(f).value.0 != w
      ensures ValueAt(HashAt(now, k), f) == ValueAt(HashAt(start, k), f)
    {
      assert Differ(start, now, k, f, OwedByCell(k, f, minute, w, c));
    }
  }

  class MetricsStore {
    var counters: map<int, Hash>

    constructor ()
      ensures counters == map[]
    {
      counters := map[];
    }

    method IncrementIfAny(minute: int, w: WorkerName, m: Metric, v: nat)
      modifies this
      ensures Paid(old(counters), counters, minute, w, m, v)
    {
      if v > 0 {
        counters := HIncr(counters, minute, MetricField(w, m), Increment(v));
      }
      PaidIsPrinted(old(counters), counters, minute, w, m, v);
    }

    /** The seven counters of one cell. */
    method FlushCell(minute: int, w: WorkerName, c: Counts)
      modifies this
      ensures CellFlushed(old(counters), counters, minute, w, c)
    {
      ghost var c0 := counters;
      IncrementIfAny(minute, w, Processed, c.processed);
      ghost var c1 := counters;
      IncrementIfAny(minute, w, FailedJobs, c.failed);
      ghost var c2 := counters;
      IncrementIfAny(minute, w, PanickedJobs, c.panicked);
      ghost var c3 := counters;
      IncrementIfAny(minute, w, SuccessfulExecutions, c.successfulExecutions);
      ghost var c4 := counters;
      IncrementIfAny(minute, w, FailedExecutions, c.failedExecutions);
      ghost var c5 := counters;
      IncrementIfAny(minute, w, PanickedExecutions, c.panickedExecutions);
      ghost var c6 := counters;
      IncrementIfAny(minute, w, ExecutionMs, c.executionMs);
      SevenPayments([c0, c1, c2, c3, c4, c5, c6, counters], minute, w, c);
    }

    /** The buffer's cells come in whatever order its hash map yields them. */
    method FlushJobMetrics(entries: map<Cell, Counts>)
      modifies this
      ensures FlushedSoFar(old(counters), counters, entries, entries.Keys)
    {
      var todo := entries.Keys;
      while todo != {}
        invariant todo <= entries.Keys
        invariant FlushedSoFar(old(counters), counters, entries, entries.Keys - todo)
        decreases |todo|
      {
        var cell :| cell in todo;
        ghost var before := counters;
        FlushCell(cell.0, cell.1, entries[cell]);
        FlushOneMore(old(counters), before, counters, entries, entries.Keys - todo, cell);
        assert entries.Keys - todo + {cell} == entries.Keys - (todo - {cell});
        todo := todo - {cell};
      }
      assert entries.Keys - todo == entries.Keys;
    }
  }

  // ---- buffer and store together ----

  /** The hashes hold the direct count of everything flushed, under printed names and under no others. */
  ghost predicate Reflects(counters: map<int, Hash>, history: seq<Recorded>) {
    forall minute: int, f: Str :: FieldReflects(HashAt(counters, minute), history, minute, f)
  }

  ghost predicate FieldReflects(h: Hash, history: seq<Recorded>, minute: int, f: Str) {
    match Canonical(f)
    case Some((w, m)) =>
      var n := Count(history, InCell(minute, w), m);
      ValueAt(h, f) == n && (f in h <==> n > 0)
    case None => f !in h
  }

  lemma ReflectsAt(counters: map<int, Hash>, history: seq<Recorded>, minute: int, w: WorkerName, m: Metric)
    requires Reflects(counters, history)
    ensures var h, n := HashAt(counters, minute), Count(history, InCell(minute, w), m);
            ValueAt(h, MetricField(w, m)) == n && (MetricField(w, m) in h <==> n > 0)
  {
    CanonicalIsPrinted(MetricField(w, m), w, m);
    assert FieldReflects(HashAt(counters, minute), history, minute, MetricField(w, m));
  }

  lemma NothingFlushedYet()
    ensures Reflects(map[], [])
  {
    forall minute: int, f: Str ensures FieldReflects(HashAt(map[], minute), [], minute, f) {
    }
  }

  /** No counter and no number of results passes the limit of a signed 64-bit integer. */
  ghost predicate Bounded(history: seq<Recorded>) {
    |history| <= I64_MAX && forall m :: Count(history, Always(), m) <= I64_MAX
  }

  lemma LaterIsBounded(earlier: seq<Recorded>, later: seq<Recorded>)
    requires Bounded(earlier + later)
    ensures Bounded(later)
  {
    forall m ensures Count(later, Always(), m) <= I64_MAX {
      CountAppend(earlier, later, Always(), m);
      assert Count(earlier + later, Always(), m) <= I64_MAX;
    }
  }

  lemma CellIsBounded(history: seq<Recorded>, minute: int, w: WorkerName, m: Metric)
    requires Bounded(history)
    ensures Count(history, InCell(minute, w), m) <= I64_MAX
  {
    CountGrows(history, InCell(minute, w), Always(), m);
  }

  /** Any number of flushes, each of any results: the hashes then hold the direct count of all of them, and
      none of the sums passes the limit at which an HINCRBY would be refused. */
  lemma FlushReflects(counters: map<int, Hash>, counters': map<int, Hash>,
                      flushed: seq<Recorded>, entries: map<Cell, Counts>, history: seq<Recorded>)
    requires Reflects(counters, flushed) && EntriesCount(entries, history) && Bounded(flushed + history)
    requires FlushedSoFar(counters, counters', entries, entries.Keys)
    ensures Reflects(counters', flushed + history)
    ensures forall minute: int, f: Str :: ValueAt(HashAt(counters', minute), f) <= I64_MAX
  {
    LaterIsBounded(flushed, history);
    forall minute: int, f: Str ensures FieldReflects(HashAt(counters', minute), flushed + history, minute, f) {
      assert FieldReflects(HashAt(counters, minute), flushed, minute, f);
      assert Differ(counters, counters', minute, f, OwedBy(entries, entries.Keys, minute, f));
      match Canonical(f)
      case Some((w, m)) => CellFlushReflects(flushed, entries, history, minute, w, m);
      case None =>
    }
    forall minute: int, f: Str ensures ValueAt(HashAt(counters', minute), f) <= I64_MAX {
      NothingIsRefused(counters', flushed + history, minute, f);
    }
  }

  lemma NothingIsRefused(counters: map<int, Hash>, rs: seq<Recorded>, minute: int, f: Str)
    requires Reflects(counters, rs) && Bounded(rs)
    ensures ValueAt(HashAt(counters, minute), f) <= I64_MAX
  {
    assert FieldReflects(HashAt(counters, minute), rs, minute, f);
    match Canonical(f)
    case Some((w, m)) => CellIsBounded(rs, minute, w, m);
    case None =>
  }

  lemma CellFlushReflects(flushed: seq<Recorded>, entries: map<Cell, Counts>, history: seq<Recorded>,
                          minute: int, w: WorkerName, m: Metric)
    requires EntriesCount(entries, history) && Bounded(history)
    ensures Count(flushed + history, InCell(minute, w), m)
         == Count(flushed, InCell(minute, w), m) + Increment(Get(CountsAt(entries, (minute, w)), m))
  {
    CountAppend(flushed, history, InCell(minute, w), m);
    CellIsBounded(history, minute, w, m);
    assert Get(CountsAt(entries, (minute, w)), m) == Count(history, InCell(minute, w), m);
  }

  /** `flush_metrics`: the buffer is cleared only after the flush. */
  method FlushMetrics(buffer: JobMetricsBuffer, store: MetricsStore, ghost flushed: seq<Recorded>)
    requires buffer.Valid() && Reflects(store.counters, flushed) && Bounded(flushed + buffer.history)
    modifies buffer, store
    ensures Reflects(store.counters, flushed + old(buffer.history))
    ensures buffer.Valid() && buffer.history == []
  {
    ghost var before := store.counters;
    store.FlushJobMetrics(buffer.entries);
    FlushReflects(before, store.counters, flushed, buffer.entries, buffer.history);
    buffer.Clear();
  }
}
