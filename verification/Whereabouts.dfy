/** Where a job is. The store keeps a job's id in exactly one slot: a queue list, a processing list,
    the schedule or the retry set; `jobs` holds exactly the ids that have a slot. */
module Whereabouts {
  import opened Redis
  import opened Envelope
  import opened S = Store

  // ---- the statement ----

  datatype Slot = QueueSlot(queue: QueueName, i: int) | RunSlot(pid: ProcessId, i: int) | ScheduleSlot | RetrySlot

  ghost predicate Holds(s: Store, slot: Slot, id: JobId) {
    match slot
    case QueueSlot(q, i) => 0 <= i < |ListAt(s.queues, q)| && ListAt(s.queues, q)[i] == id
    case RunSlot(p, i) => 0 <= i < |ListAt(s.processing, p)| && ListAt(s.processing, p)[i] == id
    case ScheduleSlot => id in s.schedule
    case RetrySlot => id in s.retry
  }

  ghost predicate InOneSlot(s: Store, id: JobId) {
    exists slot :: Holds(s, slot, id) && forall other :: Holds(s, other, id) ==> other == slot
  }

  /** An id is in `jobs` exactly when it occurs exactly once; otherwise it occurs nowhere. A queue
      list only holds ids whose stored envelope names that queue. */
  ghost predicate OnePlace(s: Store) {
    && (forall id :: id in s.jobs ==> s.jobs[id].id == id && InOneSlot(s, id))
    && (forall id, slot :: Holds(s, slot, id) ==> id in s.jobs && (slot.QueueSlot? ==> s.jobs[id].queue == slot.queue))
  }

  // ---- the working form: a map from each stored id to its place ----

  datatype Place = Waiting(queue: QueueName) | Running(pid: ProcessId) | Scheduled | Retrying

  ghost predicate QueuesMatch(queues: map<QueueName, seq<JobId>>, w: map<JobId, Place>) {
    && (forall q :: NoDup(ListAt(queues, q)))
    && (forall q, id :: id in ListAt(queues, q) ==> id in w && w[id] == Waiting(q))
    && (forall id :: id in w && w[id].Waiting? ==> id in ListAt(queues, w[id].queue))
  }

  ghost predicate ProcessingMatches(processing: map<ProcessId, seq<JobId>>, w: map<JobId, Place>) {
    && (forall p :: NoDup(ListAt(processing, p)))
    && (forall p, id :: id in ListAt(processing, p) ==> id in w && w[id] == Running(p))
    && (forall id :: id in w && w[id].Running? ==> id in ListAt(processing, w[id].pid))
  }

  ghost predicate SetMatches(z: map<JobId, int>, w: map<JobId, Place>, place: Place) {
    forall id :: id in z <==> id in w && w[id] == place
  }

  ghost predicate JobsMatch(jobs: map<JobId, JobEnvelope>, w: map<JobId, Place>) {
    && w.Keys == jobs.Keys
    && (forall id :: id in jobs ==> jobs[id].id == id)
    && (forall id :: id in w && w[id].Waiting? ==> jobs[id].queue == w[id].queue)
  }

  ghost predicate Located(s: Store, w: map<JobId, Place>) {
    && JobsMatch(s.jobs, w)
    && QueuesMatch(s.queues, w)
    && ProcessingMatches(s.processing, w)
    && SetMatches(s.schedule, w, Scheduled)
    && SetMatches(s.retry, w, Retrying)
  }

  function PlaceOf(slot: Slot): Place {
    match slot
    case QueueSlot(q, _) => Waiting(q)
    case RunSlot(p, _) => Running(p)
    case ScheduleSlot => Scheduled
    case RetrySlot => Retrying
  }

  lemma SlotInPlace(s: Store, w: map<JobId, Place>, id: JobId, slot: Slot)
    requires Located(s, w) && Holds(s, slot, id)
    ensures id in w && w[id] == PlaceOf(slot)
  {
    match slot
    case QueueSlot(q, i) => assert id in ListAt(s.queues, q);
    case RunSlot(p, i) => assert id in ListAt(s.processing, p);
    case ScheduleSlot =>
    case RetrySlot =>
  }

  lemma SlotExists(s: Store, w: map<JobId, Place>, id: JobId) returns (slot: Slot)
    requires Located(s, w) && id in w
    ensures Holds(s, slot, id) && PlaceOf(slot) == w[id]
  {
    match w[id]
    case Waiting(q) =>
      assert id in ListAt(s.queues, q);
      var i :| 0 <= i < |ListAt(s.queues, q)| && ListAt(s.queues, q)[i] == id;
      slot := QueueSlot(q, i);
    case Running(p) =>
      assert id in ListAt(s.processing, p);
      var i :| 0 <= i < |ListAt(s.processing, p)| && ListAt(s.processing, p)[i] == id;
      slot := RunSlot(p, i);
    case Scheduled => slot := ScheduleSlot;
    case Retrying => slot := RetrySlot;
  }

  lemma LocatedIsOnePlace(s: Store, w: map<JobId, Place>)
    requires Located(s, w)
    ensures OnePlace(s)
  {
    forall id, slot | Holds(s, slot, id)
      ensures id in s.jobs && (slot.QueueSlot? ==> s.jobs[id].queue == slot.queue)
    {
      SlotInPlace(s, w, id, slot);
    }
    forall id | id in s.jobs ensures InOneSlot(s, id) {
      var slot := SlotExists(s, w, id);
      forall other | Holds(s, other, id) ensures other == slot {
        SlotInPlace(s, w, id, other);
        assert slot.QueueSlot? ==> NoDup(ListAt(s.queues, slot.queue));
        assert slot.RunSlot? ==> NoDup(ListAt(s.processing, slot.pid));
      }
    }
  }

  ghost function TheSlot(s: Store, id: JobId): (slot: Slot)
    requires InOneSlot(s, id)
    ensures Holds(s, slot, id)
    ensures forall other :: Holds(s, other, id) ==> other == slot
  {
    var slot :| Holds(s, slot, id) && forall other :: Holds(s, other, id) ==> other == slot;
    slot
  }

  ghost function Places(s: Store): map<JobId, Place>
    requires OnePlace(s)
  {
    map id | id in s.jobs :: PlaceOf(TheSlot(s, id))
  }

  lemma PlacesMatchQueues(s: Store)
    requires OnePlace(s)
    ensures QueuesMatch(s.queues, Places(s))
  {
    var w := Places(s);
    forall q ensures NoDup(ListAt(s.queues, q)) {
      var l := ListAt(s.queues, q);
      forall i, j | 0 <= i < j < |l| ensures l[i] != l[j] {
        assert Holds(s, QueueSlot(q, i), l[i]) && Holds(s, QueueSlot(q, j), l[j]);
      }
    }
    forall q, id ensures id in ListAt(s.queues, q) <==> id in w && w[id] == Waiting(q) {
      if id in ListAt(s.queues, q) {
        var i :| 0 <= i < |ListAt(s.queues, q)| && ListAt(s.queues, q)[i] == id;
        assert Holds(s, QueueSlot(q, i), id);
      }
    }
  }

  lemma PlacesMatchProcessing(s: Store)
    requires OnePlace(s)
    ensures ProcessingMatches(s.processing, Places(s))
  {
    var w := Places(s);
    forall p ensures NoDup(ListAt(s.processing, p)) {
      var l := ListAt(s.processing, p);
      forall i, j | 0 <= i < j < |l| ensures l[i] != l[j] {
        assert Holds(s, RunSlot(p, i), l[i]) && Holds(s, RunSlot(p, j), l[j]);
      }
    }
    forall p, id ensures id in ListAt(s.processing, p) <==> id in w && w[id] == Running(p) {
      if id in ListAt(s.processing, p) {
        var i :| 0 <= i < |ListAt(s.processing, p)| && ListAt(s.processing, p)[i] == id;
        assert Holds(s, RunSlot(p, i), id);
      }
    }
  }

  lemma OnePlaceIsLocated(s: Store)
    requires OnePlace(s)
    ensures Located(s, Places(s))
  {
    PlacesMatchQueues(s);
    PlacesMatchProcessing(s);
    forall id | id in s.schedule ensures id in s.jobs && Places(s)[id] == Scheduled {
      assert Holds(s, ScheduleSlot, id);
    }
    forall id | id in s.retry ensures id in s.jobs && Places(s)[id] == Retrying {
      assert Holds(s, RetrySlot, id);
    }
  }

  lemma SomePlaces(s: Store) returns (w: map<JobId, Place>)
    requires OnePlace(s)
    ensures Located(s, w)
  {
    OnePlaceIsLocated(s);
    w := Places(s);
  }

  /** The invariant read off for the ids of a processing list and of a queue list. */
  lemma RunningOnly(s: Store)
    requires OnePlace(s)
    ensures forall p, id :: id in ListAt(s.processing, p) ==>
              id in s.jobs && s.jobs[id].id == id && id !in s.schedule && id !in s.retry
  {
    var w := SomePlaces(s);
  }

  lemma QueuedOnly(s: Store, q: QueueName, id: JobId)
    requires OnePlace(s) && id in ListAt(s.queues, q)
    ensures id in s.jobs && s.jobs[id].id == id && s.jobs[id].queue == q && id !in s.schedule && id !in s.retry
    ensures !IsRunning(s, id)
  {
    var i :| 0 <= i < |ListAt(s.queues, q)| && ListAt(s.queues, q)[i] == id;
    assert Holds(s, QueueSlot(q, i), id);
    var slot := TheSlot(s, id);
    assert !Holds(s, ScheduleSlot, id) && !Holds(s, RetrySlot, id);
    forall p ensures id !in ListAt(s.processing, p) {
      if id in ListAt(s.processing, p) {
        var j :| 0 <= j < |ListAt(s.processing, p)| && ListAt(s.processing, p)[j] == id;
        assert Holds(s, RunSlot(p, j), id);
      }
    }
  }

  lemma RunningIsPlaced(s: Store, w: map<JobId, Place>, id: JobId)
    requires Located(s, w) && IsRunning(s, id)
    ensures id in w && w[id].Running?
  {
  }

  // ---- how single list operations move an id ----

  lemma PushMatches(queues: map<QueueName, seq<JobId>>, w: map<JobId, Place>, q: QueueName, id: JobId)
    requires QueuesMatch(queues, w)
    requires id in w ==> !w[id].Waiting?
    ensures QueuesMatch(LPush(queues, q, id), w[id := Waiting(q)])
  {
    var l := ListAt(queues, q);
    assert id !in l && NoDup(l);
    assert NoDup([id] + l);
  }

  lemma DropContents(queues: map<QueueName, seq<JobId>>, q: QueueName, id: JobId)
    requires forall k :: NoDup(ListAt(queues, k))
    ensures var queues' := SetList(queues, q, RemoveAll(ListAt(queues, q), id));
            && (forall k :: NoDup(ListAt(queues', k)))
            && (forall k, x :: x in ListAt(queues', k) <==> x in ListAt(queues, k) && !(k == q && x == id))
  {
    RemoveAllNoDup(ListAt(queues, q), id);
  }

  lemma DropMatches(queues: map<QueueName, seq<JobId>>, w: map<JobId, Place>, q: QueueName, id: JobId, place: Place)
    requires QueuesMatch(queues, w)
    requires id in w && w[id].Waiting? ==> w[id].queue == q
    requires !place.Waiting?
    ensures QueuesMatch(SetList(queues, q, RemoveAll(ListAt(queues, q), id)), w[id := place])
  {
    DropContents(queues, q, id);
  }

  lemma MoveKeepsQueues(queues: map<QueueName, seq<JobId>>, w: map<JobId, Place>, id: JobId, place: Place)
    requires QueuesMatch(queues, w)
    requires !place.Waiting? && (id in w ==> !w[id].Waiting?)
    ensures QueuesMatch(queues, w[id := place])
  {
  }

  lemma MoveKeepsProcessing(processing: map<ProcessId, seq<JobId>>, w: map<JobId, Place>, id: JobId, place: Place)
    requires ProcessingMatches(processing, w)
    requires !place.Running? && (id in w ==> !w[id].Running?)
    ensures ProcessingMatches(processing, w[id := place])
  {
  }

  lemma SetGains(z: map<JobId, int>, w: map<JobId, Place>, id: JobId, score: int, place: Place)
    requires SetMatches(z, w, place)
    ensures SetMatches(z[id := score], w[id := place], place)
  {
  }

  lemma SetLoses(z: map<JobId, int>, w: map<JobId, Place>, id: JobId, place: Place, to: Place)
    requires SetMatches(z, w, place) && to != place
    ensures SetMatches(z - {id}, w[id := to], place)
    ensures (id in w ==> w[id] != place) ==> SetMatches(z, w[id := to], place)
  {
    assert (id in w ==> w[id] != place) ==> z - {id} == z;
  }

  // ---- enqueue ----

  ghost predicate IsRunning(s: Store, id: JobId) {
    exists p :: id in ListAt(s.processing, p)
  }

  /** What a caller can check before an enqueue: a job that is not unique brings a new id (or only
      moves its own schedule entry), and Replace does not hit a job that is being run. */
  ghost predicate EnqueueSafe(s: Store, e: JobEnvelope, dest: Destination) {
    match ActionFor(s.jobs, e)
    case SkipJob => true
    case Default => e.id in s.jobs ==> e.id in s.schedule && dest == ToSchedule
    case ReplaceJob(_) => !IsRunning(s, e.id)
  }

  function PlaceFor(e: JobEnvelope, dest: Destination): Place {
    if dest == ToQueue then Waiting(e.queue) else Scheduled
  }

  lemma AddLocated(s: Store, w: map<JobId, Place>, e: JobEnvelope, dest: Destination)
    requires Located(s, w)
    requires e.id in s.jobs ==> w[e.id] == Scheduled && dest == ToSchedule
    ensures Located(Push(StoreEnvelope(s, e), e, dest), w[e.id := PlaceFor(e, dest)])
  {
    var place := PlaceFor(e, dest);
    MoveKeepsProcessing(s.processing, w, e.id, place);
    SetLoses(s.retry, w, e.id, Retrying, place);
    match dest
    case ToQueue =>
      PushMatches(s.queues, w, e.queue, e.id);
      SetLoses(s.schedule, w, e.id, Scheduled, place);
    case ToSchedule =>
      MoveKeepsQueues(s.queues, w, e.id, place);
      SetGains(s.schedule, w, e.id, e.meta.scheduledAt, place);
  }

  /** In the middle of a replace the id is stored but nowhere; `Retrying` stands in for that. */
  lemma UnplacedQueues(queues: map<QueueName, seq<JobId>>, w: map<JobId, Place>, was: QueueName, q: QueueName,
                       id: JobId)
    requires QueuesMatch(queues, w)
    requires id in w && w[id].Waiting? ==> w[id].queue == was
    ensures var one := SetList(queues, was, RemoveAll(ListAt(queues, was), id));
            && QueuesMatch(one, w[id := Retrying])
            && QueuesMatch(SetList(one, q, RemoveAll(ListAt(one, q), id)), w[id := Retrying])
  {
    DropMatches(queues, w, was, id, Retrying);
    var one := SetList(queues, was, RemoveAll(ListAt(queues, was), id));
    DropMatches(one, w[id := Retrying], q, id, Retrying);
    assert w[id := Retrying][id := Retrying] == w[id := Retrying];
  }

  lemma ReplaceQueues(s: Store, w: map<JobId, Place>, e: JobEnvelope, was: QueueName, dest: Destination)
    requires QueuesMatch(s.queues, w)
    requires e.id in w && w[e.id].Waiting? ==> w[e.id].queue == was
    ensures QueuesMatch(Push(Unplace(s, was, e), e, dest).queues, w[e.id := PlaceFor(e, dest)])
  {
    var mid := w[e.id := Retrying];
    var u := Unplace(s, was, e);
    UnplacedQueues(s.queues, w, was, e.queue, e.id);
    assert QueuesMatch(u.queues, mid);
    assert mid[e.id := PlaceFor(e, dest)] == w[e.id := PlaceFor(e, dest)];
    if dest == ToQueue {
      PushMatches(u.queues, mid, e.queue, e.id);
    } else {
      MoveKeepsQueues(u.queues, mid, e.id, Scheduled);
    }
  }

  lemma ReplaceSets(s: Store, w: map<JobId, Place>, e: JobEnvelope, was: QueueName, dest: Destination)
    requires SetMatches(s.schedule, w, Scheduled) && SetMatches(s.retry, w, Retrying)
    ensures SetMatches(Push(Unplace(s, was, e), e, dest).schedule, w[e.id := PlaceFor(e, dest)], Scheduled)
    ensures SetMatches(Push(Unplace(s, was, e), e, dest).retry, w[e.id := PlaceFor(e, dest)], Retrying)
  {
    SetLoses(s.retry, w, e.id, Retrying, PlaceFor(e, dest));
    if dest == ToQueue {
      SetLoses(s.schedule, w, e.id, Scheduled, Waiting(e.queue));
    } else {
      SetGains(s.schedule, w, e.id, e.meta.scheduledAt, Scheduled);
      assert (s.schedule - {e.id})[e.id := e.meta.scheduledAt] == s.schedule[e.id := e.meta.scheduledAt];
    }
  }

  lemma StoreMatches(jobs: map<JobId, JobEnvelope>, w: map<JobId, Place>, e: JobEnvelope, place: Place)
    requires JobsMatch(jobs, w)
    requires place.Waiting? ==> place.queue == e.queue
    ensures JobsMatch(jobs[e.id := e], w[e.id := place])
  {
  }

  lemma ReplaceLeaves(s: Store, e: JobEnvelope, was: QueueName, dest: Destination)
    ensures Push(Unplace(s, was, e), e, dest).jobs == s.jobs
    ensures Push(Unplace(s, was, e), e, dest).processing == s.processing
  {
  }

  lemma ReplaceLocated(s: Store, w: map<JobId, Place>, e: JobEnvelope, dest: Destination)
    requires Located(s, w) && e.id in s.jobs && !w[e.id].Running?
    ensures Located(Push(Unplace(StoreEnvelope(s, e), s.jobs[e.id].queue, e), e, dest), w[e.id := PlaceFor(e, dest)])
  {
    var was := s.jobs[e.id].queue;
    var s1 := StoreEnvelope(s, e);
    var w' := w[e.id := PlaceFor(e, dest)];
    var s2 := Push(Unplace(s1, was, e), e, dest);
    ReplaceLeaves(s1, e, was, dest);
    assert JobsMatch(s2.jobs, w') by { StoreMatches(s.jobs, w, e, PlaceFor(e, dest)); }
    assert QueuesMatch(s2.queues, w') by { ReplaceQueues(s1, w, e, was, dest); }
    assert SetMatches(s2.schedule, w', Scheduled) && SetMatches(s2.retry, w', Retrying) by {
      ReplaceSets(s1, w, e, was, dest);
    }
    assert ProcessingMatches(s2.processing, w') by { MoveKeepsProcessing(s.processing, w, e.id, PlaceFor(e, dest)); }
  }

  function PlacesAfter(s: Store, w: map<JobId, Place>, e: JobEnvelope, dest: Destination): map<JobId, Place> {
    if ActionFor(s.jobs, e) == SkipJob then w else w[e.id := PlaceFor(e, dest)]
  }

  lemma EnqueueLocated(s: Store, w: map<JobId, Place>, e: JobEnvelope, dest: Destination)
    requires Located(s, w) && EnqueueSafe(s, e, dest)
    ensures Located(Enqueue(s, e, dest), PlacesAfter(s, w, e, dest))
  {
    match ActionFor(s.jobs, e)
    case SkipJob =>
    case Default => AddLocated(s, w, e, dest);
    case ReplaceJob(q) =>
      assert forall p :: w[e.id] == Running(p) ==> e.id in ListAt(s.processing, p);
      ReplaceLocated(s, w, e, dest);
  }

  /** Enqueueing keeps the invariant exactly when it is safe. */
  lemma EnqueueKeepsOnePlace(s: Store, e: JobEnvelope, dest: Destination)
    requires OnePlace(s)
    ensures OnePlace(Enqueue(s, e, dest)) <==> EnqueueSafe(s, e, dest)
  {
    var w := SomePlaces(s);
    if EnqueueSafe(s, e, dest) {
      EnqueueLocated(s, w, e, dest);
      LocatedIsOnePlace(Enqueue(s, e, dest), PlacesAfter(s, w, e, dest));
    } else {
      var slot := UnsafeSlot(s, e, dest);
      TwoSlots(s, e, dest, slot);
    }
  }

  lemma UnsafeSlot(s: Store, e: JobEnvelope, dest: Destination) returns (slot: Slot)
    requires OnePlace(s) && !EnqueueSafe(s, e, dest)
    ensures Holds(s, slot, e.id)
    ensures if ActionFor(s.jobs, e) == Default then !(slot.ScheduleSlot? && dest == ToSchedule)
            else ActionFor(s.jobs, e).ReplaceJob? && slot.RunSlot?
  {
    if ActionFor(s.jobs, e) == Default {
      slot := TheSlot(s, e.id);
    } else {
      var p :| e.id in ListAt(s.processing, p);
      var i :| 0 <= i < |ListAt(s.processing, p)| && ListAt(s.processing, p)[i] == e.id;
      slot := RunSlot(p, i);
    }
  }

  /** An unsafe enqueue leaves the job in its old slot and in a new one. */
  lemma TwoSlots(s: Store, e: JobEnvelope, dest: Destination, slot: Slot)
    requires Holds(s, slot, e.id)
    requires if ActionFor(s.jobs, e) == Default then !(slot.ScheduleSlot? && dest == ToSchedule)
             else ActionFor(s.jobs, e).ReplaceJob? && slot.RunSlot?
    ensures !InOneSlot(Enqueue(s, e, dest), e.id)
    ensures e.id in Enqueue(s, e, dest).jobs
  {
    var s' := Enqueue(s, e, dest);
    var fresh' := if dest == ToQueue then QueueSlot(e.queue, 0) else ScheduleSlot;
    var shifted :=
      if slot.QueueSlot? && dest == ToQueue && slot.queue == e.queue then QueueSlot(e.queue, slot.i + 1) else slot;
    assert Holds(s', fresh', e.id);
    assert Holds(s', shifted, e.id);
  }
}
