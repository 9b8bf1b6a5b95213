/** The invariant of module `Whereabouts` through every other storage operation. Each operation takes a
    set of ids out of its places and puts some of them somewhere else. */
module Moves {
  import opened Redis
  import opened Envelope
  import opened S = Store
  import opened Whereabouts

  // ---- taking ids out ----

  lemma TakeFromQueuesNone(queues: map<QueueName, seq<JobId>>, w: map<JobId, Place>, gone: set<JobId>)
    requires QueuesMatch(queues, w)
    requires forall id :: id in gone && id in w ==> !w[id].Waiting?
    ensures QueuesMatch(queues, w - gone)
  {
  }

  lemma TakeFromProcessingNone(processing: map<ProcessId, seq<JobId>>, w: map<JobId, Place>, gone: set<JobId>)
    requires ProcessingMatches(processing, w)
    requires forall id :: id in gone && id in w ==> !w[id].Running?
    ensures ProcessingMatches(processing, w - gone)
  {
  }

  lemma TakeFromSet(z: map<JobId, int>, w: map<JobId, Place>, gone: set<JobId>, place: Place)
    requires SetMatches(z, w, place)
    ensures SetMatches(z - gone, w - gone, place)
    ensures (forall id :: id in gone && id in w ==> w[id] != place) ==> SetMatches(z, w - gone, place)
  {
  }

  lemma TakeOneFromProcessing(processing: map<ProcessId, seq<JobId>>, w: map<JobId, Place>, p: ProcessId, id: JobId)
    requires ProcessingMatches(processing, w)
    requires id in ListAt(processing, p)
    ensures ProcessingMatches(SetList(processing, p, RemoveFirst(ListAt(processing, p), id)), w - {id})
  {
    var l := ListAt(processing, p);
    RemoveFirstIsRemoveAll(l, id);
    RemoveAllNoDup(l, id);
    ShorterProcessing(processing, w, p, RemoveAll(l, id), id);
  }

  lemma ShorterProcessing(processing: map<ProcessId, seq<JobId>>, w: map<JobId, Place>, p: ProcessId, l: seq<JobId>,
                          id: JobId)
    requires ProcessingMatches(processing, w) && id in ListAt(processing, p)
    requires NoDup(l) && forall y :: y in l <==> y in ListAt(processing, p) && y != id
    ensures ProcessingMatches(SetList(processing, p, l), w - {id})
  {
    forall k, x | x in ListAt(SetList(processing, p, l), k) ensures x in ListAt(processing, k) && x != id {
      assert if k == p then x in l else x in ListAt(processing, k) && w[x] == Running(k);
      assert w[id] == Running(p);
    }
  }

  lemma ShorterQueue(queues: map<QueueName, seq<JobId>>, w: map<JobId, Place>, q: QueueName, l: seq<JobId>, id: JobId)
    requires QueuesMatch(queues, w) && id in ListAt(queues, q)
    requires NoDup(l) && forall y :: y in l <==> y in ListAt(queues, q) && y != id
    ensures QueuesMatch(SetList(queues, q, l), w - {id})
  {
    forall k, x | x in ListAt(SetList(queues, q, l), k) ensures x in ListAt(queues, k) && x != id {
      assert if k == q then x in l else x in ListAt(queues, k) && w[x] == Waiting(k);
      assert w[id] == Waiting(q);
    }
  }

  lemma LastOfNoDup<T>(l: seq<T>)
    requires NoDup(l) && l != []
    ensures NoDup(l[..|l| - 1]) && l[|l| - 1] !in l[..|l| - 1]
  {
  }

  lemma TakeLastFromQueue(queues: map<QueueName, seq<JobId>>, w: map<JobId, Place>, q: QueueName)
    requires QueuesMatch(queues, w)
    requires ListAt(queues, q) != []
    ensures var l := ListAt(queues, q); QueuesMatch(SetList(queues, q, l[..|l| - 1]), w - {l[|l| - 1]})
  {
    var l := ListAt(queues, q);
    LastOfNoDup(l);
    assert l == l[..|l| - 1] + [l[|l| - 1]];
    ShorterQueue(queues, w, q, l[..|l| - 1], l[|l| - 1]);
  }

  lemma PushRunning(processing: map<ProcessId, seq<JobId>>, w: map<JobId, Place>, p: ProcessId, id: JobId)
    requires ProcessingMatches(processing, w)
    requires id in w ==> !w[id].Running?
    ensures ProcessingMatches(LPush(processing, p, id), w[id := Running(p)])
  {
    var l := ListAt(processing, p);
    assert id !in l && NoDup(l);
    assert NoDup([id] + l);
  }

  lemma TakeWholeQueue(queues: map<QueueName, seq<JobId>>, w: map<JobId, Place>, q: QueueName)
    requires QueuesMatch(queues, w)
    ensures QueuesMatch(queues - {q}, w - ToSet(ListAt(queues, q)))
  {
    var gone := ToSet(ListAt(queues, q));
    assert forall k :: ListAt(queues - {q}, k) == if k == q then [] else ListAt(queues, k);
    forall k, x | x in ListAt(queues - {q}, k) ensures x in w - gone && (w - gone)[x] == Waiting(k) {
      assert k != q && x in ListAt(queues, k) && w[x] == Waiting(k);
    }
  }

  lemma TakeWholeProcess(processing: map<ProcessId, seq<JobId>>, w: map<JobId, Place>, p: ProcessId)
    requires ProcessingMatches(processing, w)
    ensures ProcessingMatches(processing - {p}, w - ToSet(ListAt(processing, p)))
  {
    var gone := ToSet(ListAt(processing, p));
    assert forall k :: ListAt(processing - {p}, k) == if k == p then [] else ListAt(processing, k);
    forall k, x | x in ListAt(processing - {p}, k) ensures x in w - gone && (w - gone)[x] == Running(k) {
      assert k != p && x in ListAt(processing, k) && w[x] == Running(k);
    }
  }

  // ---- putting ids in ----

  function PlaceEach(w: map<JobId, Place>, es: seq<JobEnvelope>): map<JobId, Place>
    decreases |es|
  {
    if es == [] then w else PlaceEach(w[es[0].id := Waiting(es[0].queue)], es[1..])
  }

  ghost predicate DistinctIds(es: seq<JobEnvelope>) {
    forall i, j :: 0 <= i < j < |es| ==> es[i].id != es[j].id
  }

  lemma {:induction false} PlaceEachMeans(w: map<JobId, Place>, es: seq<JobEnvelope>)
    requires DistinctIds(es)
    ensures var r := PlaceEach(w, es);
            && r.Keys == w.Keys + IdSet(es)
            && (forall id :: id in w && id !in IdSet(es) ==> r[id] == w[id])
            && (forall e :: e in es ==> r[e.id] == Waiting(e.queue))
    decreases |es|
  {
    if es != [] {
      PlaceEachMeans(w[es[0].id := Waiting(es[0].queue)], es[1..]);
      assert IdSet(es) == {es[0].id} + IdSet(es[1..]);
      assert es[0].id !in IdSet(es[1..]);
    }
  }

  lemma {:induction false} PushEachMatches(queues: map<QueueName, seq<JobId>>, w: map<JobId, Place>,
                                           es: seq<JobEnvelope>)
    requires QueuesMatch(queues, w) && DistinctIds(es)
    requires forall e :: e in es ==> e.id !in w
    ensures QueuesMatch(PushEach(queues, es), PlaceEach(w, es))
    decreases |es|
  {
    if es != [] {
      PushMatches(queues, w, es[0].queue, es[0].id);
      PushEachMatches(LPush(queues, es[0].queue, es[0].id), w[es[0].id := Waiting(es[0].queue)], es[1..]);
    }
  }

  lemma {:induction false} PlaceEachKeepsTheRest(s: Store, w: map<JobId, Place>, es: seq<JobEnvelope>)
    requires ProcessingMatches(s.processing, w)
    requires SetMatches(s.schedule, w, Scheduled) && SetMatches(s.retry, w, Retrying)
    requires forall e :: e in es ==> e.id !in w
    requires DistinctIds(es)
    ensures ProcessingMatches(s.processing, PlaceEach(w, es))
    ensures SetMatches(s.schedule, PlaceEach(w, es), Scheduled) && SetMatches(s.retry, PlaceEach(w, es), Retrying)
    decreases |es|
  {
    if es != [] {
      var id, place := es[0].id, Waiting(es[0].queue);
      MoveKeepsProcessing(s.processing, w, id, place);
      SetLoses(s.schedule, w, id, Scheduled, place);
      SetLoses(s.retry, w, id, Retrying, place);
      PlaceEachKeepsTheRest(s, w[id := place], es[1..]);
    }
  }

  /** The jobs `es` are stored but have no place for a moment; everything else matches `w`. */
  ghost predicate InTransit(s: Store, w: map<JobId, Place>, es: seq<JobEnvelope>) {
    && QueuesMatch(s.queues, w) && ProcessingMatches(s.processing, w)
    && SetMatches(s.schedule, w, Scheduled) && SetMatches(s.retry, w, Retrying)
    && DistinctIds(es) && TransitJobs(s.jobs, w, es)
  }

  ghost predicate TransitJobs(jobs: map<JobId, JobEnvelope>, w: map<JobId, Place>, es: seq<JobEnvelope>) {
    && (forall e :: e in es ==> e.id !in w && e.id in jobs && jobs[e.id] == e)
    && (forall id :: id in jobs ==> jobs[id].id == id)
    && jobs.Keys == w.Keys + IdSet(es)
    && (forall id :: id in w && w[id].Waiting? ==> jobs[id].queue == w[id].queue)
  }

  lemma TransitEnds(jobs: map<JobId, JobEnvelope>, w: map<JobId, Place>, es: seq<JobEnvelope>)
    requires DistinctIds(es) && TransitJobs(jobs, w, es)
    ensures JobsMatch(jobs, PlaceEach(w, es))
  {
    PlaceEachMeans(w, es);
  }

  /** Pushing them onto their queues ends the transit. */
  lemma PushEachLocated(s: Store, w: map<JobId, Place>, es: seq<JobEnvelope>)
    requires InTransit(s, w, es)
    ensures Located(s.(queues := PushEach(s.queues, es)), PlaceEach(w, es))
  {
    var w' := PlaceEach(w, es);
    assert JobsMatch(s.jobs, w') by { TransitEnds(s.jobs, w, es); }
    assert QueuesMatch(PushEach(s.queues, es), w') by { PushEachMatches(s.queues, w, es); }
    assert ProcessingMatches(s.processing, w') && SetMatches(s.schedule, w', Scheduled)
           && SetMatches(s.retry, w', Retrying) by {
      PlaceEachKeepsTheRest(s, w, es);
    }
  }

  // ---- the operations ----

  function Last<T>(l: seq<T>): T
    requires l != []
  {
    l[|l| - 1]
  }

  lemma MoveQueuedToRunning(queues: map<QueueName, seq<JobId>>, w: map<JobId, Place>, q: QueueName, pid: ProcessId)
    requires QueuesMatch(queues, w) && ListAt(queues, q) != []
    ensures var l := ListAt(queues, q); var id := Last(l);
            && id in w && w[id] == Waiting(q)
            && QueuesMatch(SetList(queues, q, l[..|l| - 1]), w[id := Running(pid)])
  {
    var l := ListAt(queues, q);
    var id := Last(l);
    assert id in l;
    TakeLastFromQueue(queues, w, q);
    MoveKeepsQueues(SetList(queues, q, l[..|l| - 1]), w - {id}, id, Running(pid));
    assert (w - {id})[id := Running(pid)] == w[id := Running(pid)];
  }

  lemma DequeueLocated(s: Store, w: map<JobId, Place>, pid: ProcessId, q: QueueName)
    requires Located(s, w) && ListAt(s.queues, q) != []
    ensures Located(Dequeue(s, pid, q), w[Last(ListAt(s.queues, q)) := Running(pid)])
  {
    var l := ListAt(s.queues, q);
    var id := Last(l);
    var s', w' := Dequeue(s, pid, q), w[id := Running(pid)];
    assert s'.queues == SetList(s.queues, q, l[..|l| - 1]) && s'.processing == LPush(s.processing, pid, id);
    assert QueuesMatch(s'.queues, w') && id in w && w[id] == Waiting(q) by { MoveQueuedToRunning(s.queues, w, q, pid); }
    assert ProcessingMatches(s'.processing, w') by { PushRunning(s.processing, w, pid, id); }
    assert SetMatches(s'.schedule, w', Scheduled) by { SetLoses(s.schedule, w, id, Scheduled, Running(pid)); }
    assert SetMatches(s'.retry, w', Retrying) by { SetLoses(s.retry, w, id, Retrying, Running(pid)); }
    assert s'.jobs == s.jobs;
    assert JobsMatch(s'.jobs, w');
  }

  lemma UpdateLocated(s: Store, w: map<JobId, Place>, e: JobEnvelope)
    requires Located(s, w) && e.id in s.jobs
    requires w[e.id].Waiting? ==> e.queue == s.jobs[e.id].queue
    ensures Located(StoreEnvelope(s, e), w)
  {
  }

  /** A running job leaves the store: success or kill. */
  lemma RetireLocated(s: Store, w: map<JobId, Place>, pid: ProcessId, id: JobId)
    requires Located(s, w) && id in ListAt(s.processing, pid)
    ensures Located(Unprocess(s.(jobs := s.jobs - {id}), pid, id), w - {id})
  {
    assert w[id] == Running(pid);
    assert QueuesMatch(s.queues, w - {id}) by { TakeFromQueuesNone(s.queues, w, {id}); }
    TakeOneFromProcessing(s.processing, w, pid, id);
    TakeFromSet(s.schedule, w, {id}, Scheduled);
    TakeFromSet(s.retry, w, {id}, Retrying);
  }

  lemma RunningToRetry(processing: map<ProcessId, seq<JobId>>, w: map<JobId, Place>, pid: ProcessId, id: JobId)
    requires ProcessingMatches(processing, w) && id in ListAt(processing, pid)
    ensures ProcessingMatches(SetList(processing, pid, RemoveFirst(ListAt(processing, pid), id)), w[id := Retrying])
  {
    TakeOneFromProcessing(processing, w, pid, id);
    MoveKeepsProcessing(SetList(processing, pid, RemoveFirst(ListAt(processing, pid), id)), w - {id}, id, Retrying);
    assert (w - {id})[id := Retrying] == w[id := Retrying];
  }

  lemma RetryLocated(s: Store, w: map<JobId, Place>, pid: ProcessId, id: JobId, delay: nat, error: string, now: int)
    requires Located(s, w) && id in ListAt(s.processing, pid)
    ensures Located(RetryIn(Unprocess(s, pid, id), id, delay, error, now), w[id := Retrying])
  {
    var s1 := Unprocess(s, pid, id);
    var s' := RetryIn(s1, id, delay, error, now);
    var w' := w[id := Retrying];
    assert w[id] == Running(pid);
    assert s'.jobs == s.jobs[id := s'.jobs[id]] && s'.jobs[id].id == id;
    assert JobsMatch(s'.jobs, w');
    assert QueuesMatch(s'.queues, w') by { MoveKeepsQueues(s.queues, w, id, Retrying); }
    assert ProcessingMatches(s'.processing, w') by { RunningToRetry(s.processing, w, pid, id); }
    assert SetMatches(s'.schedule, w', Scheduled) by { SetLoses(s.schedule, w, id, Scheduled, Retrying); }
    assert SetMatches(s'.retry, w', Retrying) by {
      SetGains(s.retry, w, id, now + delay * MICROS_PER_SECOND, Retrying);
    }
  }

  lemma WipeLocated(s: Store, w: map<JobId, Place>, q: QueueName)
    requires Located(s, w)
    ensures Located(WipeQueue(s, q), w - ToSet(ListAt(s.queues, q)))
  {
    var gone := ToSet(ListAt(s.queues, q));
    assert forall id :: id in gone ==> w[id] == Waiting(q);
    assert QueuesMatch(WipeQueue(s, q).queues, w - gone) by { TakeWholeQueue(s.queues, w, q); }
    assert ProcessingMatches(s.processing, w - gone) by { TakeFromProcessingNone(s.processing, w, gone); }
    TakeFromSet(s.schedule, w, gone, Scheduled);
    TakeFromSet(s.retry, w, gone, Retrying);
  }

  function Lookup(jobs: map<JobId, JobEnvelope>, ids: seq<JobId>): (es: seq<JobEnvelope>)
    requires forall id :: id in ids ==> id in jobs
    ensures |es| == |ids| && forall i :: 0 <= i < |ids| ==> es[i] == jobs[ids[i]]
  {
    seq(|ids|, i requires 0 <= i < |ids| => jobs[ids[i]])
  }

  lemma {:induction false} GetManyOfStored(jobs: map<JobId, JobEnvelope>, ids: seq<JobId>)
    requires forall id :: id in ids ==> id in jobs
    ensures GetMany(jobs, ids) == Lookup(jobs, ids)
  {
    if ids != [] {
      GetManyOfStored(jobs, ids[1..]);
      assert forall id :: id in ids[1..] ==> id in ids;
    }
  }

  lemma {:induction false} ClaimableOfMembers(ids: seq<JobId>, z: map<JobId, int>)
    requires NoDup(ids) && forall id :: id in ids ==> id in z
    ensures Claimable(ids, z) == ids
  {
    if ids != [] {
      ClaimableOfMembers(ids[1..], z - {ids[0]});
    }
  }

  lemma LookupDistinct(jobs: map<JobId, JobEnvelope>, ids: seq<JobId>)
    requires NoDup(ids) && forall id :: id in ids ==> id in jobs && jobs[id].id == id
    ensures DistinctIds(Lookup(jobs, ids))
    ensures IdSet(Lookup(jobs, ids)) == ToSet(ids)
  {
    var es := Lookup(jobs, ids);
    forall id | id in ids ensures id in IdSet(es) {
      var i :| 0 <= i < |ids| && ids[i] == id;
      assert es[i] in es;
    }
  }

  lemma LookedUpTransit(jobs: map<JobId, JobEnvelope>, w: map<JobId, Place>, ids: seq<JobId>)
    requires JobsMatch(jobs, w)
    requires NoDup(ids) && forall id :: id in ids ==> id in jobs
    ensures DistinctIds(Lookup(jobs, ids)) && TransitJobs(jobs, w - ToSet(ids), Lookup(jobs, ids))
  {
    LookupDistinct(jobs, ids);
  }

  lemma ClaimMeans(s: Store, z: DelaySet, ids: seq<JobId>)
    requires NoDup(ids) && forall id :: id in ids ==> id in Members(s, z) && id in s.jobs
    ensures ClaimAndEnqueue(s, z, ids) ==
            WithMembers(s, z, Members(s, z) - ToSet(ids)).(queues := PushEach(s.queues, Lookup(s.jobs, ids)))
  {
    ClaimableOfMembers(ids, Members(s, z));
    GetManyOfStored(s.jobs, ids);
  }

  lemma ClaimedTransit(s: Store, w: map<JobId, Place>, z: DelaySet, ids: seq<JobId>)
    requires Located(s, w)
    requires NoDup(ids) && forall id :: id in ids ==> id in Members(s, z) && id in s.jobs
    ensures InTransit(WithMembers(s, z, Members(s, z) - ToSet(ids)), w - ToSet(ids), Lookup(s.jobs, ids))
  {
    var moved := ToSet(ids);
    var s1 := WithMembers(s, z, Members(s, z) - moved);
    assert forall id :: id in moved ==> id in w && w[id] == if z == ScheduleSet then Scheduled else Retrying;
    assert TransitJobs(s.jobs, w - moved, Lookup(s.jobs, ids)) && DistinctIds(Lookup(s.jobs, ids)) by {
      LookedUpTransit(s.jobs, w, ids);
    }
    assert QueuesMatch(s.queues, w - moved) by { TakeFromQueuesNone(s.queues, w, moved); }
    assert ProcessingMatches(s.processing, w - moved) by { TakeFromProcessingNone(s.processing, w, moved); }
    assert SetMatches(s1.schedule, w - moved, Scheduled) by { TakeFromSet(s.schedule, w, moved, Scheduled); }
    assert SetMatches(s1.retry, w - moved, Retrying) by { TakeFromSet(s.retry, w, moved, Retrying); }
  }

  /** A poll moves exactly the due ids, each to the queue its stored envelope names. */
  lemma ClaimLocated(s: Store, w: map<JobId, Place>, z: DelaySet, ids: seq<JobId>)
    requires Located(s, w)
    requires NoDup(ids) && forall id :: id in ids ==> id in Members(s, z)
    ensures forall id :: id in ids ==> id in s.jobs
    ensures ClaimAndEnqueue(s, z, ids).jobs == s.jobs
    ensures Located(ClaimAndEnqueue(s, z, ids), PlaceEach(w - ToSet(ids), Lookup(s.jobs, ids)))
  {
    assert forall id :: id in Members(s, z) ==> id in w;
    ClaimMeans(s, z, ids);
    ClaimedTransit(s, w, z, ids);
    PushEachLocated(WithMembers(s, z, Members(s, z) - ToSet(ids)), w - ToSet(ids), Lookup(s.jobs, ids));
  }

  // ---- resurrection ----

  /** The envelopes that resurrection requeues, in list order. */
  function Kept(jobs: map<JobId, JobEnvelope>, ids: seq<JobId>): (es: seq<JobEnvelope>)
    ensures forall e :: e in es ==> exists id :: id in ids && id in jobs && jobs[id] == e && e.meta.resurrect
  {
    if ids == [] then []
    else if ids[0] in jobs && jobs[ids[0]].meta.resurrect then [jobs[ids[0]]] + Kept(jobs, ids[1..])
    else Kept(jobs, ids[1..])
  }

  /** The jobs it drops because they were declared `resurrect = false`. */
  function Dropped(jobs: map<JobId, JobEnvelope>, ids: seq<JobId>): set<JobId> {
    set id | id in ids && id in jobs && !jobs[id].meta.resurrect
  }

  lemma {:induction false} KeptIgnores(jobs: map<JobId, JobEnvelope>, ids: seq<JobId>, gone: JobId)
    requires gone !in ids
    ensures Kept(jobs - {gone}, ids) == Kept(jobs, ids)
  {
    if ids != [] {
      KeptIgnores(jobs, ids[1..], gone);
    }
  }

  lemma DroppedStep(jobs: map<JobId, JobEnvelope>, ids: seq<JobId>)
    requires ids != [] && ids[0] !in ids[1..]
    ensures var id := ids[0];
            var jobs' := if id in jobs && !jobs[id].meta.resurrect then jobs - {id} else jobs;
            jobs - Dropped(jobs, ids) == jobs' - Dropped(jobs', ids[1..])
  {
    var id, rest := ids[0], ids[1..];
    assert ids == [id] + rest;
    if id in jobs && !jobs[id].meta.resurrect {
      assert Dropped(jobs, ids) == {id} + Dropped(jobs - {id}, rest);
    } else {
      assert Dropped(jobs, ids) == Dropped(jobs, rest);
    }
  }

  lemma {:induction false} ResurrectEachMeans(s: Store, ids: seq<JobId>)
    requires NoDup(ids) && forall id :: id in ids && id in s.jobs ==> s.jobs[id].id == id
    ensures ResurrectEach(s, ids) ==
            s.(queues := PushEach(s.queues, Kept(s.jobs, ids)), jobs := s.jobs - Dropped(s.jobs, ids))
    decreases |ids|
  {
    if ids == [] {
      assert s.jobs - Dropped(s.jobs, ids) == s.jobs;
    } else {
      assert ids[0] !in ids[1..];
      ResurrectEachMeans(ResurrectOne(s, ids[0]), ids[1..]);
      KeptIgnores(s.jobs, ids[1..], ids[0]);
      DroppedStep(s.jobs, ids);
    }
  }

  lemma {:induction false} KeptDistinct(jobs: map<JobId, JobEnvelope>, ids: seq<JobId>)
    requires NoDup(ids) && forall id :: id in ids ==> id in jobs && jobs[id].id == id
    ensures DistinctIds(Kept(jobs, ids))
    ensures forall id :: id in IdSet(Kept(jobs, ids)) <==> id in ids && jobs[id].meta.resurrect
  {
    if ids != [] {
      var id, rest := ids[0], ids[1..];
      assert forall x :: x in rest ==> x in ids;
      assert id !in rest;
      KeptDistinct(jobs, rest);
      var es, tail := Kept(jobs, ids), Kept(jobs, rest);
      if jobs[id].meta.resurrect {
        assert IdSet(es) == {id} + IdSet(tail);
        assert forall e :: e in tail ==> e.id in IdSet(tail);
      }
    }
  }

  lemma KeptTransit(jobs: map<JobId, JobEnvelope>, w: map<JobId, Place>, ids: seq<JobId>)
    requires JobsMatch(jobs, w)
    requires NoDup(ids) && forall id :: id in ids ==> id in jobs
    ensures DistinctIds(Kept(jobs, ids))
    ensures TransitJobs(jobs - Dropped(jobs, ids), w - ToSet(ids), Kept(jobs, ids))
  {
    KeptDistinct(jobs, ids);
    var es := Kept(jobs, ids);
    assert forall e :: e in es ==> e.id in IdSet(es);
  }

  lemma ResurrectLocated(s: Store, w: map<JobId, Place>, pid: ProcessId)
    requires Located(s, w)
    ensures var ids := ListAt(s.processing, pid);
            Located(Resurrect(s, pid), PlaceEach(w - ToSet(ids), Kept(s.jobs, ids)))
  {
    var ids := ListAt(s.processing, pid);
    var all := ToSet(ids);
    var s1 := s.(processing := s.processing - {pid}, jobs := s.jobs - Dropped(s.jobs, ids));
    assert forall id :: id in ids ==> id in w && w[id] == Running(pid);
    ResurrectEachMeans(s.(processing := s.processing - {pid}), ids);
    assert TransitJobs(s1.jobs, w - all, Kept(s.jobs, ids)) && DistinctIds(Kept(s.jobs, ids)) by {
      KeptTransit(s.jobs, w, ids);
    }
    assert QueuesMatch(s1.queues, w - all) by { TakeFromQueuesNone(s.queues, w, all); }
    assert ProcessingMatches(s1.processing, w - all) by { TakeWholeProcess(s.processing, w, pid); }
    assert SetMatches(s.schedule, w - all, Scheduled) by { TakeFromSet(s.schedule, w, all, Scheduled); }
    assert SetMatches(s.retry, w - all, Retrying) by { TakeFromSet(s.retry, w, all, Retrying); }
    PushEachLocated(s1, w - all, Kept(s.jobs, ids));
  }

  // ---- batches ----

  function SucceedEach(s: Store, pid: ProcessId, es: seq<JobEnvelope>): Store
    decreases |es|
  {
    if es == [] then s else SucceedEach(FinishSuccess(s, pid, es[0]), pid, es[1..])
  }

  /** One pipeline for a whole batch has the effect of finishing its jobs one by one. */
  lemma {:induction false} BatchFinishIsOneByOne(s: Store, pid: ProcessId, es: seq<JobEnvelope>)
    ensures FinishSuccessBatch(s, pid, es) == SucceedEach(s, pid, es)
    decreases |es|
  {
    if es == [] {
      assert s.jobs - IdSet(es) == s.jobs;
    } else {
      BatchFinishIsOneByOne(FinishSuccess(s, pid, es[0]), pid, es[1..]);
      FirstOfBatch(s, pid, es);
    }
  }

  lemma IdSetHead(es: seq<JobEnvelope>)
    requires es != []
    ensures IdSet(es) == {es[0].id} + IdSet(es[1..])
  {
    assert es == [es[0]] + es[1..];
  }

  lemma FirstOfBatch(s: Store, pid: ProcessId, es: seq<JobEnvelope>)
    requires es != []
    ensures FinishSuccessBatch(s, pid, es) == FinishSuccessBatch(FinishSuccess(s, pid, es[0]), pid, es[1..])
  {
    var left := s.jobs - IdSet(es);
    IdSetHead(es);
    assert (s.jobs - {es[0].id}) - IdSet(es[1..]) == left;
    var s1 := FinishSuccess(s, pid, es[0]);
    assert s1.jobs == s.jobs - {es[0].id};
    assert Unprocess(s.(jobs := left), pid, es[0].id) == s1.(jobs := left);
    assert UnprocessEach(s.(jobs := left), pid, es) == UnprocessEach(s1.(jobs := left), pid, es[1..]);
  }
}
