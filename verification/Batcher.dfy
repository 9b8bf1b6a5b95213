/** The batch former: one task per (worker, queue) gathers jobs from its channel into batches, cutting a
    batch when it is full, when a timeout ends, when the channel closes or when it is cancelled.
    What a task sees is a history of observations, one for each `select!` or `recv` that completes. */
module Batcher {
  import opened Envelope

  type Permit(==,!new)

  /** An envelope together with the queue permit that was taken for it. */
  datatype PendingJob = PendingJob(envelope: JobEnvelope, permit: Permit)

  type Job = PendingJob

  datatype Observation =
    | Got(job: Job)
      /** `recv` returned None: the channel is closed and empty. */
    | Drained
    | Cancelled
    | TimedOut

  datatype Where =
      /** At the outer `select!`. */
    | Outer
      /** At the inner `select!`, with the timeout running. */
    | Inner
      /** In `flush_batcher`, with the receiver closed. */
    | Flushing
    | Done

  datatype Task = Task(at: Where, pending: seq<Job>, batches: seq<seq<Job>>)

  const START := Task(Outer, [], [])

  function Spawn(t: Task): Task {
    if t.pending == [] then t else t.(pending := [], batches := t.batches + [t.pending])
  }

  /** The branches that are enabled; both branches of the outer `select!` ask for an empty `pending`. */
  predicate Listens(t: Task, o: Observation) {
    match t.at
    case Outer => t.pending == [] && !o.TimedOut?
    case Inner => true
    case Flushing => o.Got? || o.Drained?
    case Done => false
  }

  function Observe(t: Task, o: Observation, size: nat, zeroTimeout: bool): Task
    requires Listens(t, o)
  {
    match o
    case Got(job) =>
      var t' := t.(pending := t.pending + [job]);
      if |t'.pending| >= size || (t.at == Outer && zeroTimeout)
      then Spawn(t').(at := if t.at == Flushing then Flushing else Outer)
      else t'.(at := if t.at == Flushing then Flushing else Inner)
    case Drained => Spawn(t).(at := Done)
    case Cancelled => t.(at := Flushing)
    case TimedOut => Spawn(t).(at := Outer)
  }

  ghost predicate Legal(t: Task, history: seq<Observation>, size: nat, zeroTimeout: bool)
    decreases |history|
  {
    history == [] ||
    (Listens(t, history[0]) && Legal(Observe(t, history[0], size, zeroTimeout), history[1..], size, zeroTimeout))
  }

  ghost function Replay(t: Task, history: seq<Observation>, size: nat, zeroTimeout: bool): Task
    requires Legal(t, history, size, zeroTimeout)
    decreases |history|
  {
    if history == [] then t
    else Replay(Observe(t, history[0], size, zeroTimeout), history[1..], size, zeroTimeout)
  }

  /** The code itself. A method returns where the batch former still waits when the history ends. */
  class BatchFormer {
    const size: nat
    const zeroTimeout: bool
    var pending: seq<Job>
    var batches: seq<seq<Job>>

    constructor (size: nat, zeroTimeout: bool)
      requires size > 0
      ensures this.size == size && this.zeroTimeout == zeroTimeout && pending == [] && batches == []
    {
      this.size := size;
      this.zeroTimeout := zeroTimeout;
      pending := [];
      batches := [];
    }

    method SpawnBatch()
      modifies this
      ensures pending == []
      ensures batches == if old(pending) == [] then old(batches) else old(batches) + [old(pending)]
    {
      if pending == [] {
        return;
      }
      var batch := pending;
      pending := [];
      batches := batches + [batch];
    }

    method FlushBatcher(history: seq<Observation>) returns (at: Where)
      requires Legal(Task(Flushing, pending, batches), history, size, zeroTimeout)
      modifies this
      ensures at == Flushing || at == Done
      ensures Task(at, pending, batches)
           == Replay(Task(Flushing, old(pending), old(batches)), history, size, zeroTimeout)
    {
      var i := 0;
      while i < |history| && history[i].Got?
        invariant i <= |history|
        invariant Legal(Task(Flushing, pending, batches), history[i..], size, zeroTimeout)
        invariant Replay(Task(Flushing, pending, batches), history[i..], size, zeroTimeout)
               == Replay(Task(Flushing, old(pending), old(batches)), history, size, zeroTimeout)
      {
        assert history[i..][1..] == history[i + 1..];
        pending := pending + [history[i].job];
        if |pending| >= size {
          SpawnBatch();
        }
        i := i + 1;
      }
      if i == |history| {
        return Flushing;
      }
      SpawnBatch();
      at := Done;
    }

    method RunBatcher(history: seq<Observation>) returns (at: Where)
      requires size > 0 && pending == [] && batches == []
      requires Legal(START, history, size, zeroTimeout)
      modifies this
      ensures Task(at, pending, batches) == Replay(START, history, size, zeroTimeout)
    {
      var i := 0;
      while i < |history|
        invariant i <= |history| && pending == []
        invariant Legal(Task(Outer, pending, batches), history[i..], size, zeroTimeout)
        invariant Replay(Task(Outer, pending, batches), history[i..], size, zeroTimeout)
               == Replay(START, history, size, zeroTimeout)
      {
        assert history[i..][1..] == history[i + 1..];
        match history[i]
        case Got(job) =>
          pending := pending + [job];
          i := i + 1;
          if |pending| >= size || zeroTimeout {
            SpawnBatch();
          } else {
            at, i := FillBatch(history, i);
            if at != Outer {
              return;
            }
          }
        case Drained =>
          return Done;
        case Cancelled =>
          at := FlushBatcher(history[i + 1..]);
          return;
      }
      at := Outer;
    }

    /** The inner loop: ends at Outer when a full batch or the timeout cut it. */
    method FillBatch(history: seq<Observation>, start: nat) returns (at: Where, i: nat)
      requires start <= |history| && 0 < |pending| < size
      requires Legal(Task(Inner, pending, batches), history[start..], size, zeroTimeout)
      modifies this
      ensures start <= i <= |history|
      ensures at == Outer ==> pending == []
      ensures at == Outer ==> Legal(Task(at, pending, batches), history[i..], size, zeroTimeout)
      ensures (if at == Outer then Replay(Task(at, pending, batches), history[i..], size, zeroTimeout)
               else Task(at, pending, batches))
           == Replay(Task(Inner, old(pending), old(batches)), history[start..], size, zeroTimeout)
    {
      i := start;
      while i < |history|
        invariant start <= i <= |history| && 0 < |pending| < size
        invariant Legal(Task(Inner, pending, batches), history[i..], size, zeroTimeout)
        invariant Replay(Task(Inner, pending, batches), history[i..], size, zeroTimeout)
               == Replay(Task(Inner, old(pending), old(batches)), history[start..], size, zeroTimeout)
      {
        assert history[i..][1..] == history[i + 1..];
        var o := history[i];
        i := i + 1;
        match o
        case Got(job) =>
          pending := pending + [job];
          if |pending| >= size {
            SpawnBatch();
            return Outer, i;
          }
        case Drained =>
          SpawnBatch();
          return Done, i;
        case TimedOut =>
          SpawnBatch();
          return Outer, i;
        case Cancelled =>
          at := FlushBatcher(history[i..]);
          return;
      }
      at := Inner;
    }
  }

  // ---- the batch former, its channel and the senders, in every interleaving ----

  datatype System = System(task: Task, channel: seq<Job>, hungUp: bool, cancelled: bool, accepted: seq<Job>)

  datatype Event =
    | Send(job: Job)
      /** The last sender is dropped. */
    | HangUp
    | Cancel
    | Step(seen: Observation)

  /** Closed by `rx.close()` or dropped by its return. */
  predicate Closed(s: System) {
    s.task.at == Flushing || s.task.at == Done
  }

  predicate Possible(s: System, e: Event, size: nat) {
    match e
    case Send(_) => !s.hungUp && (Closed(s) || |s.channel| < 2 * size)
    case HangUp => true
    case Cancel => true
    case Step(o) =>
      && Listens(s.task, o)
      && (match o
          case Got(job) => s.channel != [] && job == s.channel[0]
          case Drained => s.channel == [] && (s.hungUp || Closed(s))
          case Cancelled => s.cancelled
          case TimedOut => true)
  }

  function Happen(s: System, e: Event, size: nat, zeroTimeout: bool): System
    requires Possible(s, e, size)
  {
    match e
    case Send(job) =>
      if Closed(s) then s else s.(channel := s.channel + [job], accepted := s.accepted + [job])
    case HangUp => s.(hungUp := true)
    case Cancel => s.(cancelled := true)
    case Step(o) =>
      s.(task := Observe(s.task, o, size, zeroTimeout), channel := if o.Got? then s.channel[1..] else s.channel)
  }

  function Flatten(batches: seq<seq<Job>>): seq<Job> {
    if batches == [] then [] else Flatten(batches[..|batches| - 1]) + batches[|batches| - 1]
  }

  /** Everything the batch former has taken from its channel, in the order it was taken. */
  function Taken(t: Task): seq<Job> {
    Flatten(t.batches) + t.pending
  }

  ghost predicate WellCut(t: Task, size: nat) {
    && (forall i :: 0 <= i < |t.batches| ==> 1 <= |t.batches[i]| <= size)
    && |t.pending| < size
    && (t.at == Outer || t.at == Done ==> t.pending == [])
    && (t.at == Inner ==> t.pending != [])
  }

  ghost predicate Sound(s: System, size: nat) {
    && Taken(s.task) + s.channel == s.accepted
    && WellCut(s.task, size)
    && (s.task.at == Done ==> s.channel == [])
  }

  lemma SpawnFlattens(t: Task)
    ensures Spawn(t).pending == [] && Flatten(Spawn(t).batches) == Taken(t)
  {
    if t.pending != [] {
      var bs := t.batches + [t.pending];
      assert bs[..|bs| - 1] == t.batches;
    }
  }

  /** An observation adds the job it brings and nothing else, wherever the batches are cut. */
  lemma ObserveTakes(t: Task, o: Observation, size: nat, zeroTimeout: bool)
    requires Listens(t, o)
    ensures Taken(Observe(t, o, size, zeroTimeout)) == Taken(t) + (if o.Got? then [o.job] else [])
  {
    SpawnFlattens(t);
    if o.Got? {
      SpawnFlattens(t.(pending := t.pending + [o.job]));
      assert Flatten(t.batches) + (t.pending + [o.job]) == Taken(t) + [o.job];
    }
  }

  lemma ObserveKeepsWellCut(t: Task, o: Observation, size: nat, zeroTimeout: bool)
    requires size > 0 && WellCut(t, size) && Listens(t, o)
    ensures WellCut(Observe(t, o, size, zeroTimeout), size)
  {
  }

  lemma StepKeepsSound(s: System, o: Observation, size: nat, zeroTimeout: bool)
    requires size > 0 && Sound(s, size) && Possible(s, Step(o), size)
    ensures Sound(Happen(s, Step(o), size, zeroTimeout), size)
  {
    ObserveKeepsWellCut(s.task, o, size, zeroTimeout);
    var taken := Taken(Observe(s.task, o, size, zeroTimeout));
    assert taken == Taken(s.task) + (if o.Got? then [o.job] else []) by {
      ObserveTakes(s.task, o, size, zeroTimeout);
    }
    if o.Got? {
      assert Taken(s.task) + s.channel == Taken(s.task) + [o.job] + s.channel[1..];
    } else {
      assert taken == Taken(s.task);
    }
  }

  lemma EventKeepsSound(s: System, e: Event, size: nat, zeroTimeout: bool)
    requires size > 0 && Sound(s, size) && Possible(s, e, size)
    ensures Sound(Happen(s, e, size, zeroTimeout), size)
  {
    if e.Step? {
      StepKeepsSound(s, e.seen, size, zeroTimeout);
    }
  }

  ghost predicate AllPossible(s: System, es: seq<Event>, size: nat, zeroTimeout: bool)
    decreases |es|
  {
    es == [] || (Possible(s, es[0], size)
      && AllPossible(Happen(s, es[0], size, zeroTimeout), es[1..], size, zeroTimeout))
  }

  ghost function Play(s: System, es: seq<Event>, size: nat, zeroTimeout: bool): System
    requires AllPossible(s, es, size, zeroTimeout)
    decreases |es|
  {
    if es == [] then s else Play(Happen(s, es[0], size, zeroTimeout), es[1..], size, zeroTimeout)
  }

  function NewSystem(cancelled: bool): System {
    System(START, [], false, cancelled, [])
  }

  /** In every history nothing is lost, doubled or reordered between the channel and the batches, every
      batch has 1 to `size` jobs, and `pending` is empty at the outer `select!`. */
  lemma {:induction false} EveryHistoryIsSound(s: System, es: seq<Event>, size: nat, zeroTimeout: bool)
    requires size > 0 && Sound(s, size) && AllPossible(s, es, size, zeroTimeout)
    ensures Sound(Play(s, es, size, zeroTimeout), size)
    decreases |es|
  {
    if es != [] {
      EventKeepsSound(s, es[0], size, zeroTimeout);
      EveryHistoryIsSound(Happen(s, es[0], size, zeroTimeout), es[1..], size, zeroTimeout);
    }
  }

  /** Senders wait while two batches are in the channel, so it never holds more. */
  lemma {:induction false} ChannelHoldsTwoBatches(s: System, es: seq<Event>, size: nat, zeroTimeout: bool)
    requires AllPossible(s, es, size, zeroTimeout) && |s.channel| <= 2 * size
    ensures |Play(s, es, size, zeroTimeout).channel| <= 2 * size
    decreases |es|
  {
    if es != [] {
      ChannelHoldsTwoBatches(Happen(s, es[0], size, zeroTimeout), es[1..], size, zeroTimeout);
    }
  }

  /** Once the batch former has returned, the batches are exactly the accepted jobs, cut into pieces. */
  lemma ReturnLeavesNothing(cancelled: bool, es: seq<Event>, size: nat, zeroTimeout: bool)
    requires size > 0 && AllPossible(NewSystem(cancelled), es, size, zeroTimeout)
    ensures var end := Play(NewSystem(cancelled), es, size, zeroTimeout);
            end.task.at == Done ==> Flatten(end.task.batches) == end.accepted
  {
    EveryHistoryIsSound(NewSystem(cancelled), es, size, zeroTimeout);
  }

  /** No `select!` is ever without an enabled branch, a job in the channel can always be taken, and a
      gathered job always waits on a running timeout or on the drain. */
  lemma NeverStuck(s: System, size: nat)
    requires Sound(s, size) && s.task.at != Done
    ensures Listens(s.task, Drained) && forall job :: Listens(s.task, Got(job))
    ensures s.channel != [] ==> Possible(s, Step(Got(s.channel[0])), size)
    ensures s.task.pending != [] ==> Possible(s, Step(TimedOut), size) || s.task.at == Flushing
  {
  }

  /** What a task would put into a batch if it were cut now: the gathered jobs and the one that arrives. */
  function Gathered(t: Task, o: Observation): seq<Job> {
    match o case Got(job) => t.pending + [job] case _ => t.pending
  }

  /** A batch is cut if and only if there is something to cut and it is full, or the timeout ends, or the
      channel has ended, or the timeout is zero where a first job arrives; then it takes all that is
      gathered, and otherwise all of it stays. */
  lemma BatchIsCutIff(t: Task, o: Observation, size: nat, zeroTimeout: bool)
    requires WellCut(t, size) && Listens(t, o)
    ensures var gathered, next := Gathered(t, o), Observe(t, o, size, zeroTimeout);
            if gathered != [] && (|gathered| >= size || o.TimedOut? || o.Drained? || (zeroTimeout && t.at == Outer))
            then next.batches == t.batches + [gathered] && next.pending == []
            else next.batches == t.batches && next.pending == gathered
  {
  }

  /** Where a task waits next: cancelled, it only drains; drained, it returns; draining, it goes on; otherwise
      at the outer `select!` when nothing is gathered, and with the timeout running when something is. */
  lemma WhereItWaits(t: Task, o: Observation, size: nat, zeroTimeout: bool)
    requires size > 0 && WellCut(t, size) && Listens(t, o)
    ensures var next := Observe(t, o, size, zeroTimeout);
            next.at == (if o.Cancelled? then Flushing
                        else if o.Drained? then Done
                        else if t.at == Flushing && o.Got? then Flushing
                        else if next.pending == [] then Outer
                        else Inner)
  {
  }

  /** So a batch with room left is cut only by the timeout (a zero timeout included) or by the end of the
      channel. */
  lemma ShortBatchHasAReason(t: Task, o: Observation, size: nat, zeroTimeout: bool)
    requires Listens(t, o)
    requires Observe(t, o, size, zeroTimeout).batches != t.batches
    ensures var batches := Observe(t, o, size, zeroTimeout).batches;
            && batches[..|batches| - 1] == t.batches
            && (|batches[|batches| - 1]| >= size || o.TimedOut? || o.Drained? || (zeroTimeout && t.at == Outer))
  {
  }

  function Steps(es: seq<Event>): nat {
    if es == [] then 0 else (if es[0].Step? then 1 else 0) + Steps(es[1..])
  }

  /** A cancelled task returns: its closed channel takes no more jobs, so it makes at most one step for
      each job still there and one to return. */
  lemma {:induction false} FlushEnds(s: System, es: seq<Event>, size: nat, zeroTimeout: bool)
    requires Closed(s) && AllPossible(s, es, size, zeroTimeout)
    ensures s.task.at == Flushing ==> Steps(es) <= |s.channel| + 1
    ensures s.task.at == Done ==> Steps(es) == 0 && Play(s, es, size, zeroTimeout).task == s.task
    ensures Steps(es) == |s.channel| + 1 ==> Play(s, es, size, zeroTimeout).task.at == Done
    decreases |es|
  {
    if es != [] {
      FlushEnds(Happen(s, es[0], size, zeroTimeout), es[1..], size, zeroTimeout);
    }
  }
}
