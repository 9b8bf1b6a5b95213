/** Queues are first in, first out, over every run of the lifecycle: LPUSH at the head, LMOVE from the right
    end, and now and then an id taken out of the middle. */
module Fifo {
  import opened Redis
  import opened Envelope
  import opened S = Store
  import opened Claims
  import opened Lifecycle
  import opened Moves
  import opened Whereabouts

  /** The queue in the order in which it will be taken. */
  function Line(s: Store, q: QueueName): seq<JobId> {
    TakenOrder(ListAt(s.queues, q))
  }

  // ---- what a step takes from the front and puts at the back ----

  function EnqueueArrival(s: Store, e: JobEnvelope, dest: Destination, q: QueueName): seq<JobId> {
    if ActionFor(s.jobs, e) != SkipJob && dest == ToQueue && e.queue == q then [e.id] else []
  }

  function EachArrival(s: Store, es: seq<JobEnvelope>, dest: Destination, q: QueueName): seq<JobId>
    decreases |es|
  {
    if es == [] then [] else EnqueueArrival(s, es[0], dest, q) + EachArrival(Enqueue(s, es[0], dest), es[1..], dest, q)
  }

  function ClaimArrival(s: Store, z: DelaySet, ids: seq<JobId>, q: QueueName): seq<JobId> {
    IdsOf(ForQueue(GetMany(s.jobs, Claimable(ids, Members(s, z))), q))
  }

  function Arrival(m: Machine, step: Step, q: QueueName): seq<JobId> {
    match step
    case EnqueueStep(e, dest) => EnqueueArrival(m.store, e, dest, q)
    case EnqueueManyStep(es, dest) => EachArrival(m.store, es, dest, q)
    case ReviveStep => EachArrival(m.store.(dead := []), ParsedOf(m.store.dead), ToQueue, q)
    case PollStep(z, due) => ClaimArrival(m.store, z, due, q)
    case RetryAllStep(all) => ClaimArrival(m.store, RetrySet, all, q)
    case ResurrectStep(pid) => IdsOf(ForQueue(Kept(m.store.jobs, ListAt(m.store.processing, pid)), q))
    case _ => []
  }

  function Departure(m: Machine, step: Step, q: QueueName): seq<JobId> {
    var l := ListAt(m.store.queues, q);
    if step.TakeStep? && step.queue == q && l != [] then [l[|l| - 1]] else []
  }

  ghost predicate ReplacesOnly(s: Store, e: JobEnvelope, gone: set<JobId>) {
    ActionFor(s.jobs, e).ReplaceJob? ==> e.id in gone
  }

  ghost predicate EachReplacesOnly(s: Store, es: seq<JobEnvelope>, dest: Destination, gone: set<JobId>)
    decreases |es|
  {
    es == [] || (ReplacesOnly(s, es[0], gone) && EachReplacesOnly(Enqueue(s, es[0], dest), es[1..], dest, gone))
  }

  /** Only ids of this set are replaced or wiped. */
  ghost predicate TakesOutOnly(m: Machine, step: Step, q: QueueName, gone: set<JobId>) {
    match step
    case EnqueueStep(e, _) => ReplacesOnly(m.store, e, gone)
    case EnqueueManyStep(es, dest) => EachReplacesOnly(m.store, es, dest, gone)
    case ReviveStep => EachReplacesOnly(m.store.(dead := []), ParsedOf(m.store.dead), ToQueue, gone)
    case WipeStep(w) => w == q ==> forall id :: id in ListAt(m.store.queues, q) ==> id in gone
    case _ => true
  }

  // ---- one step ----

  lemma PushedBehind(l: seq<JobId>, id: JobId)
    ensures TakenOrder([id] + l) == TakenOrder(l) + [id]
  {
    TakenAfterPush(l, [id]);
    assert [id][1..] == [];
    assert PushMany(l, [id]) == [id] + l;
  }

  lemma DropInOrder(s: Store, from: QueueName, id: JobId, q: QueueName, gone: set<JobId>)
    requires id in gone
    ensures Without(Line(DropFromQueue(s, from, id), q), gone) == Without(Line(s, q), gone)
  {
    if from == q {
      TakenWithout(ListAt(s.queues, q), id, gone);
    }
  }

  lemma PushInOrder(s: Store, e: JobEnvelope, dest: Destination, q: QueueName)
    ensures Line(Push(s, e, dest), q) == Line(s, q) + (if dest == ToQueue && e.queue == q then [e.id] else [])
  {
    NothingAround(Line(s, q));
    PushedBehind(ListAt(s.queues, q), e.id);
  }

  lemma UnplaceInOrder(s: Store, was: QueueName, e: JobEnvelope, q: QueueName, gone: set<JobId>)
    requires e.id in gone
    ensures Without(Line(Unplace(s, was, e), q), gone) == Without(Line(s, q), gone)
  {
    var s0 := s.(schedule := s.schedule - {e.id}, retry := s.retry - {e.id});
    DropInOrder(s0, was, e.id, q, gone);
    DropInOrder(DropFromQueue(s0, was, e.id), e.queue, e.id, q, gone);
  }

  lemma EnqueueInOrder(s: Store, e: JobEnvelope, dest: Destination, q: QueueName, gone: set<JobId>)
    requires ReplacesOnly(s, e, gone)
    ensures Without(Line(Enqueue(s, e, dest), q), gone) == Without(Line(s, q) + EnqueueArrival(s, e, dest, q), gone)
  {
    var stored := StoreEnvelope(s, e);
    match ActionFor(s.jobs, e)
    case SkipJob => NothingAround(Line(s, q));
    case Default => PushInOrder(stored, e, dest, q);
    case ReplaceJob(was) =>
      UnplaceInOrder(stored, was, e, q, gone);
      PushInOrder(Unplace(stored, was, e), e, dest, q);
      WithoutAppend(Line(Unplace(stored, was, e), q), EnqueueArrival(s, e, dest, q), gone);
      WithoutAppend(Line(s, q), EnqueueArrival(s, e, dest, q), gone);
  }

  lemma {:induction false} EachInOrder(s: Store, es: seq<JobEnvelope>, dest: Destination, q: QueueName,
                                       gone: set<JobId>)
    requires EachReplacesOnly(s, es, dest, gone)
    ensures Without(Line(EnqueueEach(s, es, dest), q), gone) == Without(Line(s, q) + EachArrival(s, es, dest, q), gone)
    decreases |es|
  {
    if es == [] {
      NothingAround(Line(s, q));
    } else {
      var s', came := Enqueue(s, es[0], dest), EnqueueArrival(s, es[0], dest, q);
      var later := EachArrival(s', es[1..], dest, q);
      EnqueueInOrder(s, es[0], dest, q, gone);
      EachInOrder(s', es[1..], dest, q, gone);
      BehindOneAnother(Line(s, q), came, Line(s', q), later, Line(EnqueueEach(s', es[1..], dest), q), gone);
    }
  }

  lemma BehindOneAnother(line: seq<JobId>, came: seq<JobId>, line': seq<JobId>, later: seq<JobId>, end: seq<JobId>,
                         gone: set<JobId>)
    requires Without(line', gone) == Without(line + came, gone) && Without(end, gone) == Without(line' + later, gone)
    ensures Without(end, gone) == Without(line + (came + later), gone)
  {
    WithoutAppend(line, came, gone);
    WithoutAppend(line', later, gone);
    WithoutAppend(line, came + later, gone);
    WithoutAppend(came, later, gone);
    Associative(Without(line, gone), Without(came, gone), Without(later, gone));
  }

  lemma Associative<T>(a: seq<T>, b: seq<T>, c: seq<T>)
    ensures (a + b) + c == a + (b + c)
  {
  }

  lemma ManyInOrder(queues: map<QueueName, seq<JobId>>, es: seq<JobEnvelope>, q: QueueName)
    ensures TakenOrder(ListAt(PushEach(queues, es), q)) == TakenOrder(ListAt(queues, q)) + IdsOf(ForQueue(es, q))
  {
    PushEachAt(queues, es, q);
    TakenAfterPush(ListAt(queues, q), IdsOf(ForQueue(es, q)));
  }

  lemma {:induction false} AllGone(l: seq<JobId>, gone: set<JobId>)
    requires forall id :: id in l ==> id in gone
    ensures Without(TakenOrder(l), gone) == []
    decreases |l|
  {
    if l != [] {
      AllGone(l[..|l| - 1], gone);
      WithoutAppend([l[|l| - 1]], TakenOrder(l[..|l| - 1]), gone);
      assert Without([l[|l| - 1]], gone) == [];
    }
  }

  /** The steps that leave every queue alone. */
  predicate Aside(step: Step) {
    step.BeginStep? || step.SetStateStep? || step.SucceedStep? || step.FailStep? || step.KillInvalidStep?
    || step.WipeDeadStep? || step.TickStep?
  }

  lemma AsideKeepsQueues(m: Machine, step: Step)
    requires Allowed(m, step) && Aside(step)
    ensures Apply(m, step).store.queues == m.store.queues
  {
  }

  lemma ResurrectInOrder(s: Store, pid: ProcessId, q: QueueName)
    requires NoDup(ListAt(s.processing, pid)) && forall id :: id in s.jobs ==> s.jobs[id].id == id
    ensures Line(Resurrect(s, pid), q) == Line(s, q) + IdsOf(ForQueue(Kept(s.jobs, ListAt(s.processing, pid)), q))
  {
    ResurrectEachMeans(s.(processing := s.processing - {pid}), ListAt(s.processing, pid));
    ManyInOrder(s.queues, Kept(s.jobs, ListAt(s.processing, pid)), q);
  }

  lemma StepInOrder(m: Machine, step: Step, q: QueueName, gone: set<JobId>)
    requires Inv(m) && Allowed(m, step) && TakesOutOnly(m, step, q, gone)
    ensures Without(Departure(m, step, q) + Line(Apply(m, step).store, q), gone)
         == Without(Line(m.store, q) + Arrival(m, step, q), gone)
  {
    NothingAround(Line(m.store, q));
    NothingAround(Line(Apply(m, step).store, q));
    if Aside(step) {
      AsideKeepsQueues(m, step);
    } else if step.TakeStep? {
      TakeInOrder(m.store, step.pid, step.queue, q);
    } else if step.WipeStep? {
      WipeInOrder(m, step, q, gone);
    } else {
      ArrivalsInOrder(m, step, q, gone);
    }
  }

  lemma TakeInOrder(s: Store, pid: ProcessId, from: QueueName, q: QueueName)
    ensures var l := ListAt(s.queues, q);
            (if from == q && l != [] then [l[|l| - 1]] else []) + Line(Dequeue(s, pid, from), q) == Line(s, q)
  {
  }

  lemma WipeInOrder(m: Machine, step: Step, q: QueueName, gone: set<JobId>)
    requires Allowed(m, step) && step.WipeStep? && TakesOutOnly(m, step, q, gone)
    ensures Without(Line(Apply(m, step).store, q), gone) == Without(Line(m.store, q), gone)
  {
    if step.queue == q {
      AllGone(ListAt(m.store.queues, q), gone);
    }
  }

  lemma ArrivalsInOrder(m: Machine, step: Step, q: QueueName, gone: set<JobId>)
    requires Inv(m) && Allowed(m, step) && TakesOutOnly(m, step, q, gone)
    requires step.EnqueueStep? || step.EnqueueManyStep? || step.ReviveStep? || step.PollStep? || step.RetryAllStep?
             || step.ResurrectStep?
    ensures Without(Line(Apply(m, step).store, q), gone) == Without(Line(m.store, q) + Arrival(m, step, q), gone)
  {
    var s := m.store;
    if step.EnqueueStep? {
      EnqueueInOrder(s, step.env, step.dest, q, gone);
    } else if step.EnqueueManyStep? {
      EachInOrder(s, step.envs, step.dest, q, gone);
    } else if step.ReviveStep? {
      ReviveInOrder(s, q, gone);
    } else if step.PollStep? {
      ClaimInOrder(s, step.set_, step.due, q);
    } else if step.RetryAllStep? {
      ClaimInOrder(s, RetrySet, step.all, q);
    } else {
      StoredIds(s);
      NoDupProcessing(s, step.pid);
      ResurrectInOrder(s, step.pid, q);
    }
  }

  lemma ReviveInOrder(s: Store, q: QueueName, gone: set<JobId>)
    requires EachReplacesOnly(s.(dead := []), ParsedOf(s.dead), ToQueue, gone)
    ensures Without(Line(ReviveEach(s.(dead := []), s.dead), q), gone)
         == Without(Line(s, q) + EachArrival(s.(dead := []), ParsedOf(s.dead), ToQueue, q), gone)
  {
    ReviveIsEnqueue(s.(dead := []), s.dead);
    EachInOrder(s.(dead := []), ParsedOf(s.dead), ToQueue, q, gone);
  }

  lemma ClaimInOrder(s: Store, z: DelaySet, ids: seq<JobId>, q: QueueName)
    ensures Line(ClaimAndEnqueue(s, z, ids), q) == Line(s, q) + ClaimArrival(s, z, ids, q)
  {
    ManyInOrder(s.queues, GetMany(s.jobs, Claimable(ids, Members(s, z))), q);
  }

  lemma StoredIds(s: Store)
    requires OnePlace(s)
    ensures forall id :: id in s.jobs ==> s.jobs[id].id == id
  {
  }

  /** What a poll or a retry-all brings to a queue: of the members it claims, exactly those whose envelope names
      this queue, the ones with lower scores first. */
  lemma PolledByScore(m: Machine, step: Step, q: QueueName)
    requires Inv(m) && Allowed(m, step) && (step.PollStep? || step.RetryAllStep?)
    ensures var z := if step.PollStep? then step.set_ else RetrySet;
            var ids := if step.PollStep? then step.due else step.all;
            && InScoreOrder(Arrival(m, step, q), Members(m.store, z))
            && forall id :: id in Arrival(m, step, q) <==>
                 id in ids && id in m.store.jobs && m.store.jobs[id].queue == q
  {
    var z := if step.PollStep? then step.set_ else RetrySet;
    var ids := if step.PollStep? then step.due else step.all;
    var found := GetMany(m.store.jobs, ids);
    ClaimableOfMembers(ids, Members(m.store, z));
    FetchKeepsOrder(m.store.jobs, ids, Members(m.store, z));
    GroupKeepsOrder(found, q, Members(m.store, z));
    forall id ensures id in Arrival(m, step, q) <==> id in ids && id in m.store.jobs && m.store.jobs[id].queue == q {
      FoundInQueue(m.store.jobs, ids, q, id);
    }
  }

  lemma {:induction false} FoundInQueue(jobs: map<JobId, JobEnvelope>, ids: seq<JobId>, q: QueueName, id: JobId)
    requires forall x :: x in jobs ==> jobs[x].id == x
    ensures id in IdsOf(ForQueue(GetMany(jobs, ids), q)) <==> id in ids && id in jobs && jobs[id].queue == q
  {
    if ids != [] {
      FoundInQueue(jobs, ids[1..], q, id);
      var rest := GetMany(jobs, ids[1..]);
      if ids[0] in jobs {
        var e := jobs[ids[0]];
        assert ([e] + rest)[1..] == rest;
        assert IdsOf([e] + ForQueue(rest, q)) == [ids[0]] + IdsOf(ForQueue(rest, q));
        assert ForQueue([e] + rest, q) == (if e.queue == q then [e] else []) + ForQueue(rest, q);
      }
    }
  }

  // ---- every run ----

  ghost function Departures(m: Machine, steps: seq<Step>, q: QueueName): seq<JobId>
    requires Inv(m) && RunAllowed(m, steps)
    decreases |steps|
  {
    if steps == [] then []
    else
      StepKeepsInv(m, steps[0]);
      Departure(m, steps[0], q) + Departures(Apply(m, steps[0]), steps[1..], q)
  }

  ghost function Arrivals(m: Machine, steps: seq<Step>, q: QueueName): seq<JobId>
    requires Inv(m) && RunAllowed(m, steps)
    decreases |steps|
  {
    if steps == [] then []
    else
      StepKeepsInv(m, steps[0]);
      Arrival(m, steps[0], q) + Arrivals(Apply(m, steps[0]), steps[1..], q)
  }

  ghost predicate RunTakesOutOnly(m: Machine, steps: seq<Step>, q: QueueName, gone: set<JobId>)
    requires Inv(m) && RunAllowed(m, steps)
    decreases |steps|
  {
    steps == [] ||
    (StepKeepsInv(m, steps[0]);
     TakesOutOnly(m, steps[0], q, gone) && RunTakesOutOnly(Apply(m, steps[0]), steps[1..], q, gone))
  }

  /** In every run of the lifecycle, the jobs taken from a queue followed by those still in it are those of
      the start followed by all that arrived, by enqueue, bulk enqueue, poll, retry-all, recovery or revival,
      in order of arrival; only ids that were replaced or wiped are left out of the comparison. */
  lemma {:induction false} FirstInFirstOut(m: Machine, steps: seq<Step>, q: QueueName, gone: set<JobId>)
    requires Inv(m) && RunAllowed(m, steps) && RunTakesOutOnly(m, steps, q, gone)
    ensures Without(Departures(m, steps, q) + Line(Run(m, steps).store, q), gone)
         == Without(Line(m.store, q) + Arrivals(m, steps, q), gone)
    decreases |steps|
  {
    if steps == [] {
      NothingAround(Line(m.store, q));
    } else {
      var m', rest := Apply(m, steps[0]), steps[1..];
      StepInOrder(m, steps[0], q, gone);
      StepKeepsInv(m, steps[0]);
      FirstInFirstOut(m', rest, q, gone);
      ChainOrder(Departure(m, steps[0], q), Line(m'.store, q), Line(m.store, q), Arrival(m, steps[0], q),
                 Departures(m', rest, q), Line(Run(m', rest).store, q), Arrivals(m', rest, q), gone);
    }
  }
}
