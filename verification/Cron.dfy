/** Cron occurrences: every process with the same schedule enqueues the same occurrence under the same id. */
module Cron {
  import opened Redis
  import opened Envelope
  import opened S = Store
  import opened Whereabouts

  datatype Occurrence = Occurrence(queue: QueueName, id: JobId, name: JobName, at: int, resurrect: bool)

  function EnvelopeAt(o: Occurrence, now: int): JobEnvelope {
    NewCron(o.queue, o.id, o.name, o.at, o.resurrect, now)
  }

  /** Enqueued by one process after another, each at its own time. */
  function EnqueueOccurrence(s: Store, o: Occurrence, times: seq<int>): Store
    decreases |times|
  {
    if times == [] then s
    else EnqueueOccurrence(EnqueueAt(s, EnvelopeAt(o, times[0]), times[0]), o, times[1..])
  }

  lemma {:induction false} StoredOccurrenceIsSkipped(s: Store, o: Occurrence, times: seq<int>)
    requires o.id in s.jobs
    ensures EnqueueOccurrence(s, o, times) == s
    decreases |times|
  {
    if times != [] {
      assert EnqueueAt(s, EnvelopeAt(o, times[0]), times[0]) == s;
      StoredOccurrenceIsSkipped(s, o, times[1..]);
    }
  }

  /** The job of an occurrence as it is first stored: unique and never replaced, without arguments, retries, state
      or error, due at the occurrence or at once if that has passed. */
  function FreshOccurrence(o: Occurrence, now: int): JobEnvelope {
    JobEnvelope(o.id, JobData(o.name, "{}"), o.queue, JobMeta(
      id := o.id,
      retries := 0,
      unique := true,
      onConflict := Some(Skip),
      createdAt := now,
      scheduledAt := if o.at <= now then now else o.at,
      startedAt := None,
      state := None,
      resurrect := o.resurrect,
      error := None,
      throttleCost := None))
  }

  /** However many processes enqueue an occurrence one after another, the first one counts while its job is
      stored: the job is in exactly one place, due no earlier than the occurrence and than its enqueue. */
  lemma OneJobForAnOccurrence(s: Store, o: Occurrence, times: seq<int>)
    requires OnePlace(s) && o.id !in s.jobs && times != []
    ensures var end := EnqueueOccurrence(s, o, times);
            && end == EnqueueAt(s, EnvelopeAt(o, times[0]), times[0])
            && OnePlace(end) && InOneSlot(end, o.id)
            && end.jobs[o.id] == FreshOccurrence(o, times[0])
            && (if o.at <= times[0] then o.id in ListAt(end.queues, o.queue)
                else o.id in end.schedule && end.schedule[o.id] == o.at)
  {
    var first := EnqueueAt(s, EnvelopeAt(o, times[0]), times[0]);
    EnqueueKeepsOnePlace(s, EnvelopeAt(o, times[0]), if o.at <= times[0] then ToQueue else ToSchedule);
    StoredOccurrenceIsSkipped(first, o, times[1..]);
  }

  // ---- processes that race ----

  /** One process's enqueue, command by command: HEXISTS, then the pipeline's HSET and its push. */
  datatype Stage = Fresh | Skipped | Missed | Stored | Placed

  /** `inHand` counts the pollers that took the id out of the schedule and have not pushed it yet,
      `delivered` their pushes. */
  datatype Race = Race(store: Store, stages: seq<Stage>, inHand: nat, delivered: nat)

  /** The commands of the enqueuing processes, and those of the pollers that run beside them: ZREM of an id
      that is due, then LPUSH to the queue that its envelope names. Workers do not take part: they only
      move the id on. */
  datatype Command = Look(p: nat) | SetEnvelope(p: nat) | Place(p: nat) | Claim(now: int) | Deliver

  /** Process `p` reads its clock at `times[p]`. */
  function DestOf(o: Occurrence, time: int): Destination {
    if EnvelopeAt(o, time).meta.scheduledAt <= time then ToQueue else ToSchedule
  }

  predicate Possible(r: Race, o: Occurrence, c: Command) {
    match c
    case Look(p) => p < |r.stages| && r.stages[p] == Fresh
    case SetEnvelope(p) => p < |r.stages| && r.stages[p] == Missed
    case Place(p) => p < |r.stages| && r.stages[p] == Stored
    case Claim(now) => o.id in r.store.schedule && r.store.schedule[o.id] <= now
    case Deliver => r.inHand > 0
  }

  function Happen(r: Race, o: Occurrence, times: seq<int>, c: Command): Race
    requires |times| == |r.stages| && Possible(r, o, c)
  {
    match c
    case Look(p) =>
      var found := ActionFor(r.store.jobs, EnvelopeAt(o, times[p])) == SkipJob;
      r.(stages := r.stages[p := if found then Skipped else Missed])
    case SetEnvelope(p) =>
      r.(store := StoreEnvelope(r.store, EnvelopeAt(o, times[p])), stages := r.stages[p := Stored])
    case Place(p) =>
      r.(store := Push(r.store, EnvelopeAt(o, times[p]), DestOf(o, times[p])), stages := r.stages[p := Placed])
    case Claim(_) =>
      r.(store := r.store.(schedule := r.store.schedule - {o.id}), inHand := r.inHand + 1)
    case Deliver =>
      r.(store := r.store.(queues := PushEach(r.store.queues, GetMany(r.store.jobs, [o.id]))),
         inHand := r.inHand - 1, delivered := r.delivered + 1)
  }

  ghost predicate AllPossible(r: Race, o: Occurrence, times: seq<int>, cs: seq<Command>)
    requires |times| == |r.stages|
    decreases |cs|
  {
    cs == [] || (Possible(r, o, cs[0]) && AllPossible(Happen(r, o, times, cs[0]), o, times, cs[1..]))
  }

  ghost function Play(r: Race, o: Occurrence, times: seq<int>, cs: seq<Command>): (end: Race)
    requires |times| == |r.stages| && AllPossible(r, o, times, cs)
    ensures |end.stages| == |r.stages|
    decreases |cs|
  {
    if cs == [] then r else Play(Happen(r, o, times, cs[0]), o, times, cs[1..])
  }

  /** No poll takes the id out of the schedule. */
  ghost predicate Unpolled(cs: seq<Command>) {
    forall c: Command :: c in cs ==> !c.Claim?
  }

  predicate Over(r: Race) {
    r.inHand == 0 && forall p :: 0 <= p < |r.stages| ==> r.stages[p] == Skipped || r.stages[p] == Placed
  }

  /** How many processes have pushed the id to this kind of place. */
  function PlacedAt(o: Occurrence, times: seq<int>, stages: seq<Stage>, dest: Destination): nat
    requires |times| == |stages|
    decreases |stages|
  {
    if stages == [] then 0
    else (if stages[0] == Placed && DestOf(o, times[0]) == dest then 1 else 0)
         + PlacedAt(o, times[1..], stages[1..], dest)
  }

  lemma {:induction false} StageChanges(o: Occurrence, times: seq<int>, stages: seq<Stage>, p: nat, to: Stage,
                                        dest: Destination)
    requires |times| == |stages| && p < |stages| && stages[p] != Placed
    ensures PlacedAt(o, times, stages[p := to], dest)
         == PlacedAt(o, times, stages, dest) + (if to == Placed && DestOf(o, times[p]) == dest then 1 else 0)
    decreases |stages|
  {
    if p == 0 {
      assert stages[p := to][1..] == stages[1..];
    } else {
      assert stages[p := to][1..] == stages[1..][p - 1 := to];
      StageChanges(o, times[1..], stages[1..], p - 1, to, dest);
    }
  }

  /** The slots of the id are the first `pushed` of its queue and the schedule, if it is there. */
  ghost predicate Shape(s: Store, o: Occurrence, pushed: nat) {
    forall slot :: Holds(s, slot, o.id) <==>
      (slot.QueueSlot? && slot.queue == o.queue && 0 <= slot.i < pushed) || (slot.ScheduleSlot? && o.id in s.schedule)
  }

  /** Pushes to the queue so far, by enqueuers and by pollers. */
  function Pushed(r: Race, o: Occurrence, times: seq<int>): nat
    requires |times| == |r.stages|
  {
    PlacedAt(o, times, r.stages, ToQueue) + r.delivered
  }

  /** What was put into the schedule is there, in a poller's hands, or delivered; entries can fall together. */
  ghost predicate Flow(r: Race, o: Occurrence, scheduled: nat) {
    var seen := (if o.id in r.store.schedule then 1 else 0) + r.inHand + r.delivered;
    seen <= scheduled && (scheduled > 0 ==> seen > 0)
  }

  ghost predicate Written(r: Race, o: Occurrence) {
    && (o.id in r.store.jobs <==> exists p :: 0 <= p < |r.stages| && (r.stages[p] == Stored || r.stages[p] == Placed))
    && (o.id in r.store.jobs ==> r.store.jobs[o.id].id == o.id && r.store.jobs[o.id].queue == o.queue)
    && (o.id in r.store.schedule || r.inHand > 0 ==> o.id in r.store.jobs)
  }

  /** Found no envelope: has written the job or is about to. */
  predicate Writes(stage: Stage) {
    stage == Missed || stage == Stored || stage == Placed
  }

  /** Nobody skips before somebody writes. */
  ghost predicate SomeoneWrites(r: Race) {
    (exists p :: 0 <= p < |r.stages| && r.stages[p] != Fresh) ==>
      exists p :: 0 <= p < |r.stages| && Writes(r.stages[p])
  }

  ghost predicate Sound(r: Race, o: Occurrence, times: seq<int>) {
    && |times| == |r.stages|
    && Shape(r.store, o, Pushed(r, o, times))
    && Flow(r, o, PlacedAt(o, times, r.stages, ToSchedule))
    && Written(r, o)
    && SomeoneWrites(r)
  }

  lemma PushKeepsShape(s: Store, o: Occurrence, pushed: nat)
    requires Shape(s, o, pushed)
    ensures Shape(s.(queues := LPush(s.queues, o.queue, o.id)), o, pushed + 1)
  {
    var s' := s.(queues := LPush(s.queues, o.queue, o.id));
    assert ListAt(s'.queues, o.queue) == [o.id] + ListAt(s.queues, o.queue);
    forall slot
      ensures Holds(s', slot, o.id) <==>
                (slot.QueueSlot? && slot.queue == o.queue && 0 <= slot.i < pushed + 1)
                || (slot.ScheduleSlot? && o.id in s.schedule)
    {
      if slot.QueueSlot? && slot.queue == o.queue {
        assert Holds(s, QueueSlot(o.queue, slot.i - 1), o.id) <==> 0 <= slot.i - 1 < pushed;
      } else {
        assert Holds(s', slot, o.id) <==> Holds(s, slot, o.id);
      }
    }
  }

  /** Shape speaks of the queues and the processing lists, of the retry set, and of nothing else. */
  lemma SameShape(s: Store, s': Store, o: Occurrence, pushed: nat)
    requires Shape(s, o, pushed) && s'.queues == s.queues && s'.processing == s.processing && s'.retry == s.retry
    ensures Shape(s', o, pushed)
  {
    forall slot: Slot | !slot.ScheduleSlot? ensures Holds(s', slot, o.id) <==> Holds(s, slot, o.id) {
    }
  }

  lemma CommandKeepsShape(r: Race, o: Occurrence, times: seq<int>, c: Command)
    requires Sound(r, o, times) && Possible(r, o, c)
    ensures Shape(Happen(r, o, times, c).store, o, Pushed(Happen(r, o, times, c), o, times))
  {
    var r' := Happen(r, o, times, c);
    match c
    case Place(p) =>
      StageChanges(o, times, r.stages, p, Placed, ToQueue);
      if DestOf(o, times[p]) == ToQueue {
        PushKeepsShape(r.store, o, Pushed(r, o, times));
      } else {
        SameShape(r.store, r'.store, o, Pushed(r, o, times));
      }
    case Look(p) => StageChanges(o, times, r.stages, p, r'.stages[p], ToQueue);
    case SetEnvelope(p) =>
      StageChanges(o, times, r.stages, p, Stored, ToQueue);
      SameShape(r.store, r'.store, o, Pushed(r, o, times));
    case Claim(_) => SameShape(r.store, r'.store, o, Pushed(r, o, times));
    case Deliver =>
      DeliverPushes(r, o);
      PushKeepsShape(r.store, o, Pushed(r, o, times));
  }

  lemma DeliverPushes(r: Race, o: Occurrence)
    requires Written(r, o) && r.inHand > 0
    ensures PushEach(r.store.queues, GetMany(r.store.jobs, [o.id])) == LPush(r.store.queues, o.queue, o.id)
  {
    var e := r.store.jobs[o.id];
    assert [o.id][1..] == [] && GetMany(r.store.jobs, [o.id]) == [e] + GetMany(r.store.jobs, []);
    assert GetMany(r.store.jobs, [o.id]) == [e] && [e][1..] == [];
  }

  lemma CommandKeepsFlow(r: Race, o: Occurrence, times: seq<int>, c: Command)
    requires Sound(r, o, times) && Possible(r, o, c)
    ensures Flow(Happen(r, o, times, c), o, PlacedAt(o, times, Happen(r, o, times, c).stages, ToSchedule))
  {
    if c.Look? || c.SetEnvelope? || c.Place? {
      StageChanges(o, times, r.stages, c.p, Happen(r, o, times, c).stages[c.p], ToSchedule);
    }
  }

  lemma CommandKeepsWritten(r: Race, o: Occurrence, times: seq<int>, c: Command)
    requires Sound(r, o, times) && Possible(r, o, c)
    ensures Written(Happen(r, o, times, c), o)
  {
    var r' := Happen(r, o, times, c);
    if o.id in r.store.jobs {
      var p :| 0 <= p < |r.stages| && (r.stages[p] == Stored || r.stages[p] == Placed);
      assert r'.stages[p] == Stored || r'.stages[p] == Placed;
    } else if c.SetEnvelope? {
      assert r'.stages[c.p] == Stored;
    } else {
      assert forall p :: 0 <= p < |r'.stages| ==> r'.stages[p] != Stored && r'.stages[p] != Placed;
    }
  }

  lemma CommandKeepsWriter(r: Race, o: Occurrence, times: seq<int>, c: Command)
    requires Sound(r, o, times) && Possible(r, o, c)
    ensures SomeoneWrites(Happen(r, o, times, c))
  {
    var r' := Happen(r, o, times, c);
    if c.Look? && r'.stages[c.p] == Skipped {
      var p :| 0 <= p < |r.stages| && (r.stages[p] == Stored || r.stages[p] == Placed);
      assert Writes(r'.stages[p]);
    } else if c.Look? || c.SetEnvelope? || c.Place? {
      assert Writes(r'.stages[c.p]);
    }
  }

  lemma {:induction false} EveryRaceIsSound(r: Race, o: Occurrence, times: seq<int>, cs: seq<Command>)
    requires Sound(r, o, times) && AllPossible(r, o, times, cs)
    ensures Sound(Play(r, o, times, cs), o, times)
    decreases |cs|
  {
    if cs != [] {
      CommandKeepsShape(r, o, times, cs[0]);
      CommandKeepsFlow(r, o, times, cs[0]);
      CommandKeepsWritten(r, o, times, cs[0]);
      CommandKeepsWriter(r, o, times, cs[0]);
      EveryRaceIsSound(Happen(r, o, times, cs[0]), o, times, cs[1..]);
    }
  }

  function StartOf(s: Store, n: nat): (r: Race)
    ensures |r.stages| == n && r.store == s && r.inHand == r.delivered == 0
    ensures forall p :: 0 <= p < n ==> r.stages[p] == Fresh
  {
    Race(s, seq(n, _ => Fresh), 0, 0)
  }

  lemma {:induction false} NonePlaced(o: Occurrence, times: seq<int>, stages: seq<Stage>, dest: Destination)
    requires |times| == |stages|
    requires forall p :: 0 <= p < |stages| ==> stages[p] != Placed || DestOf(o, times[p]) != dest
    ensures PlacedAt(o, times, stages, dest) == 0
    decreases |stages|
  {
    if stages != [] {
      NonePlaced(o, times[1..], stages[1..], dest);
    }
  }

  lemma {:induction false} SomePlaced(o: Occurrence, times: seq<int>, stages: seq<Stage>, p: nat)
    requires |times| == |stages| && p < |stages| && stages[p] == Placed
    ensures PlacedAt(o, times, stages, DestOf(o, times[p])) > 0
    decreases |stages|
  {
    if p > 0 {
      SomePlaced(o, times[1..], stages[1..], p - 1);
    }
  }

  lemma StartIsSound(s: Store, o: Occurrence, times: seq<int>)
    requires OnePlace(s) && o.id !in s.jobs
    ensures Sound(StartOf(s, |times|), o, times)
  {
    var r := StartOf(s, |times|);
    NonePlaced(o, times, r.stages, ToQueue);
    NonePlaced(o, times, r.stages, ToSchedule);
    assert !Holds(s, ScheduleSlot, o.id);
  }

  ghost predicate AtMostOneSlot(s: Store, id: JobId) {
    forall a, b :: Holds(s, a, id) && Holds(s, b, id) ==> a == b
  }

  lemma CountedSlots(s: Store, o: Occurrence, pushed: nat)
    requires Shape(s, o, pushed)
    ensures AtMostOneSlot(s, o.id) <==> pushed == 0 || (pushed == 1 && o.id !in s.schedule)
    ensures InOneSlot(s, o.id) <==> AtMostOneSlot(s, o.id) && (pushed > 0 || o.id in s.schedule)
  {
    assert Holds(s, QueueSlot(o.queue, 0), o.id) <==> pushed > 0;
    assert Holds(s, QueueSlot(o.queue, 1), o.id) <==> pushed > 1;
    assert Holds(s, ScheduleSlot, o.id) <==> o.id in s.schedule;
    if AtMostOneSlot(s, o.id) && (pushed > 0 || o.id in s.schedule) {
      var slot := if pushed > 0 then QueueSlot(o.queue, 0) else ScheduleSlot;
      assert Holds(s, slot, o.id);
    }
  }

  /** Once all enqueuers and pollers are done, and before a worker takes the job: it is in one place exactly
      when nothing was pushed to the queue, by an enqueuer or by a poll, or a single push was and the job is
      not in the schedule any more. */
  lemma OneSlotAfterTheRace(s: Store, o: Occurrence, times: seq<int>, cs: seq<Command>)
    requires OnePlace(s) && o.id !in s.jobs && times != []
    requires AllPossible(StartOf(s, |times|), o, times, cs) && Over(Play(StartOf(s, |times|), o, times, cs))
    ensures var end := Play(StartOf(s, |times|), o, times, cs);
            var pushed := Pushed(end, o, times);
            InOneSlot(end.store, o.id) <==> pushed == 0 || (pushed == 1 && o.id !in end.store.schedule)
  {
    StartIsSound(s, o, times);
    EveryRaceIsSound(StartOf(s, |times|), o, times, cs);
    var end := Play(StartOf(s, |times|), o, times, cs);
    assert end.stages[0] != Fresh;
    var p :| 0 <= p < |end.stages| && Writes(end.stages[p]);
    SomePlaced(o, times, end.stages, p);
    CountedSlots(end.store, o, Pushed(end, o, times));
  }

  lemma {:induction false} AtMostAll(o: Occurrence, times: seq<int>, stages: seq<Stage>)
    requires |times| == |stages|
    ensures PlacedAt(o, times, stages, ToQueue) + PlacedAt(o, times, stages, ToSchedule) <= |stages|
    decreases |stages|
  {
    if stages != [] {
      AtMostAll(o, times[1..], stages[1..]);
    }
  }

  lemma {:induction false} NothingPolled(r: Race, o: Occurrence, times: seq<int>, cs: seq<Command>)
    requires |times| == |r.stages| && AllPossible(r, o, times, cs) && Unpolled(cs) && r.inHand == r.delivered == 0
    ensures Play(r, o, times, cs).inHand == Play(r, o, times, cs).delivered == 0
    decreases |cs|
  {
    if cs != [] {
      assert cs[0] in cs;
      NothingPolled(Happen(r, o, times, cs[0]), o, times, cs[1..]);
    }
  }

  ghost predicate AllAhead(o: Occurrence, times: seq<int>) {
    forall p :: 0 <= p < |times| ==> times[p] < o.at
  }

  lemma SafeCounts(end: Race, o: Occurrence, times: seq<int>)
    requires |times| == |end.stages| && Flow(end, o, PlacedAt(o, times, end.stages, ToSchedule))
    requires |times| <= 1 || (AllAhead(o, times) && end.inHand == end.delivered == 0)
    ensures Pushed(end, o, times) == 0 || (Pushed(end, o, times) == 1 && o.id !in end.store.schedule)
  {
    if |times| <= 1 {
      AtMostAll(o, times, end.stages);
    } else {
      forall p | 0 <= p < |times| ensures DestOf(o, times[p]) == ToSchedule {
        assert times[p] < o.at;
      }
      NonePlaced(o, times, end.stages, ToQueue);
    }
  }

  lemma AheadOrAlone(s: Store, o: Occurrence, times: seq<int>, cs: seq<Command>)
    requires OnePlace(s) && o.id !in s.jobs && AllPossible(StartOf(s, |times|), o, times, cs)
    requires |times| <= 1 || (AllAhead(o, times) && Unpolled(cs))
    ensures AtMostOneSlot(Play(StartOf(s, |times|), o, times, cs).store, o.id)
  {
    StartIsSound(s, o, times);
    EveryRaceIsSound(StartOf(s, |times|), o, times, cs);
    if |times| > 1 {
      NothingPolled(StartOf(s, |times|), o, times, cs);
    }
    var end := Play(StartOf(s, |times|), o, times, cs);
    SafeCounts(end, o, times);
    CountedSlots(end.store, o, Pushed(end, o, times));
  }

  /** A poll takes the job no earlier than its occurrence: whatever pollers hold or have pushed was claimed by a
      clock at or past it. */
  lemma {:induction false} PolledOnlyWhenDue(r: Race, o: Occurrence, times: seq<int>, cs: seq<Command>)
    requires |times| == |r.stages| && AllPossible(r, o, times, cs)
    requires o.id in r.store.schedule ==> r.store.schedule[o.id] >= o.at
    ensures var end := Play(r, o, times, cs);
            end.inHand + end.delivered > r.inHand + r.delivered ==> exists c :: c in cs && c.Claim? && c.now >= o.at
    decreases |cs|
  {
    if cs != [] {
      var r' := Happen(r, o, times, cs[0]);
      PolledOnlyWhenDue(r', o, times, cs[1..]);
      assert cs[0] in cs && forall c :: c in cs[1..] ==> c in cs;
    }
  }

  // ---- the run that fails ----

  lemma {:induction false} PlaySnoc(r: Race, o: Occurrence, times: seq<int>, cs: seq<Command>, c: Command)
    requires |times| == |r.stages| && AllPossible(r, o, times, cs) && Possible(Play(r, o, times, cs), o, c)
    ensures AllPossible(r, o, times, cs + [c])
            && Play(r, o, times, cs + [c]) == Happen(Play(r, o, times, cs), o, times, c)
    decreases |cs|
  {
    if cs == [] {
      assert [] + [c] == [c] && [c][1..] == [];
    } else {
      assert (cs + [c])[0] == cs[0] && (cs + [c])[1..] == cs[1..] + [c];
      PlaySnoc(Happen(r, o, times, cs[0]), o, times, cs[1..], c);
    }
  }

  /** One more command after a run. */
  lemma Then(r: Race, o: Occurrence, times: seq<int>, cs: seq<Command>, c: Command) returns (cs': seq<Command>)
    requires |times| == |r.stages| && AllPossible(r, o, times, cs) && Possible(Play(r, o, times, cs), o, c)
    ensures AllPossible(r, o, times, cs') && Play(r, o, times, cs') == Happen(Play(r, o, times, cs), o, times, c)
    ensures Unpolled(cs) && !c.Claim? ==> Unpolled(cs')
  {
    cs' := cs + [c];
    PlaySnoc(r, o, times, cs, c);
  }

  /** Both find nothing; then one of them writes the job. */
  lemma FirstWrites(s: Store, o: Occurrence, times: seq<int>, p: nat, q: nat) returns (cs: seq<Command>)
    requires o.id !in s.jobs && p < |times| && q < |times| && p != q
    ensures AllPossible(StartOf(s, |times|), o, times, cs) && Unpolled(cs)
    ensures var mid := Play(StartOf(s, |times|), o, times, cs);
            && mid.stages == StartOf(s, |times|).stages[p := Placed][q := Missed]
            && (DestOf(o, times[p]) == ToSchedule ==>
                  o.id in mid.store.schedule && mid.store.schedule[o.id] == Max(o.at, times[p]))
  {
    var r := StartOf(s, |times|);
    cs := [];
    cs := Then(r, o, times, cs, Look(p));
    cs := Then(r, o, times, cs, Look(q));
    cs := Then(r, o, times, cs, SetEnvelope(p));
    cs := Then(r, o, times, cs, Place(p));
    assert Play(r, o, times, cs).stages == r.stages[p := Placed][q := Missed];
  }

  /** A poll takes the job from the schedule to its queue. */
  lemma PollOnce(r: Race, o: Occurrence, times: seq<int>, cs: seq<Command>, now: int) returns (cs': seq<Command>)
    requires |times| == |r.stages| && AllPossible(r, o, times, cs) && Possible(Play(r, o, times, cs), o, Claim(now))
    ensures AllPossible(r, o, times, cs')
    ensures Play(r, o, times, cs').stages == Play(r, o, times, cs).stages
    ensures Play(r, o, times, cs').delivered == Play(r, o, times, cs).delivered + 1
  {
    cs' := Then(r, o, times, cs, Claim(now));
    cs' := Then(r, o, times, cs', Deliver);
  }

  /** The other process writes as well. */
  lemma SecondWrites(r: Race, o: Occurrence, times: seq<int>, cs: seq<Command>, q: nat) returns (cs': seq<Command>)
    requires |times| == |r.stages| && AllPossible(r, o, times, cs) && q < |times|
    requires Play(r, o, times, cs).stages[q] == Missed
    ensures AllPossible(r, o, times, cs') && (Unpolled(cs) ==> Unpolled(cs'))
    ensures var end := Play(r, o, times, cs');
            && end.stages == Play(r, o, times, cs).stages[q := Placed]
            && end.delivered == Play(r, o, times, cs).delivered
            && (DestOf(o, times[q]) == ToSchedule ==> o.id in end.store.schedule)
  {
    cs' := Then(r, o, times, cs, SetEnvelope(q));
    cs' := Then(r, o, times, cs', Place(q));
  }

  /** Two processes that looked before either wrote leave the job twice, if the first one found it due or
      a poll comes between them. */
  lemma TwoPlaced(s: Store, o: Occurrence, times: seq<int>, p: nat, q: nat) returns (cs: seq<Command>)
    requires OnePlace(s) && o.id !in s.jobs && p < |times| && q < |times| && p != q
    ensures AllPossible(StartOf(s, |times|), o, times, cs)
    ensures !AtMostOneSlot(Play(StartOf(s, |times|), o, times, cs).store, o.id)
    ensures o.at <= times[p] ==> Unpolled(cs)
  {
    var r := StartOf(s, |times|);
    cs := FirstWrites(s, o, times, p, q);
    if times[p] < o.at {
      cs := PollOnce(r, o, times, cs, o.at);
    }
    cs := SecondWrites(r, o, times, cs, q);
    var end := Play(r, o, times, cs);
    StartIsSound(s, o, times);
    EveryRaceIsSound(r, o, times, cs);
    StagesOfTwo(o, times, r.stages, p, q);
    assert end.stages == r.stages[p := Placed][q := Placed];
    CountedSlots(end.store, o, Pushed(end, o, times));
  }

  lemma StagesOfTwo(o: Occurrence, times: seq<int>, stages: seq<Stage>, p: nat, q: nat)
    requires |times| == |stages| && p < |stages| && q < |stages| && p != q
    requires forall k :: 0 <= k < |stages| ==> stages[k] == Fresh
    ensures PlacedAt(o, times, stages[p := Placed][q := Placed], ToQueue)
         == (if DestOf(o, times[p]) == ToQueue then 1 else 0) + (if DestOf(o, times[q]) == ToQueue then 1 else 0)
    ensures stages[p := Placed][q := Missed][q := Placed] == stages[p := Placed][q := Placed]
  {
    NonePlaced(o, times, stages, ToQueue);
    StageChanges(o, times, stages, p, Placed, ToQueue);
    StageChanges(o, times, stages[p := Placed], q, Placed, ToQueue);
  }

  /** As long as no poll takes the id, the processes that race for a new occurrence can never put it into two
      places exactly when there is only one of them or none finds the occurrence due, as it is when they
      enqueue ahead of time. */
  lemma NeverTwiceIffAheadOrAlone(s: Store, o: Occurrence, times: seq<int>)
    requires OnePlace(s) && o.id !in s.jobs
    ensures (forall cs :: AllPossible(StartOf(s, |times|), o, times, cs) && Unpolled(cs) ==>
               AtMostOneSlot(Play(StartOf(s, |times|), o, times, cs).store, o.id))
       <==> |times| <= 1 || AllAhead(o, times)
  {
    if |times| <= 1 || AllAhead(o, times) {
      forall cs | AllPossible(StartOf(s, |times|), o, times, cs) && Unpolled(cs)
        ensures AtMostOneSlot(Play(StartOf(s, |times|), o, times, cs).store, o.id)
      {
        AheadOrAlone(s, o, times, cs);
      }
    } else {
      var p :| 0 <= p < |times| && o.at <= times[p];
      var cs := TwoPlaced(s, o, times, p, if p == 0 then 1 else 0);
    }
  }

  /** With polls beside them, being ahead of time does not help: a poll between two writes is enough. */
  lemma NeverTwiceIffAlone(s: Store, o: Occurrence, times: seq<int>)
    requires OnePlace(s) && o.id !in s.jobs
    ensures (forall cs :: AllPossible(StartOf(s, |times|), o, times, cs) ==>
               AtMostOneSlot(Play(StartOf(s, |times|), o, times, cs).store, o.id))
       <==> |times| <= 1
  {
    if |times| <= 1 {
      forall cs | AllPossible(StartOf(s, |times|), o, times, cs)
        ensures AtMostOneSlot(Play(StartOf(s, |times|), o, times, cs).store, o.id)
      {
        AheadOrAlone(s, o, times, cs);
      }
    } else {
      var cs := TwoPlaced(s, o, times, 0, 1);
    }
  }
}
