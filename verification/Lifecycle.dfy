/** The job lifecycle as a state machine over whole storage operations, and what every run keeps. */
module Lifecycle {
  import opened Redis
  import opened Envelope
  import opened S = Store
  import opened Whereabouts
  import opened Moves

  /** What has become of every job the store accepted. */
  datatype Ledger = Ledger(
    accepted: multiset<JobId>,
    succeeded: multiset<JobId>,
    killed: multiset<JobId>,
    dropped: multiset<JobId>,
    wiped: multiset<JobId>,
    replaced: multiset<JobId>)

  /** `memory` is the copy of the envelope a worker works with from start to finish. */
  datatype Machine = Machine(store: Store, memory: map<JobId, JobEnvelope>, ledger: Ledger, clock: int)

  datatype Step =
    | EnqueueStep(env: JobEnvelope, dest: Destination)
    | EnqueueManyStep(envs: seq<JobEnvelope>, dest: Destination)
    | TakeStep(pid: ProcessId, queue: QueueName)
    | BeginStep(pid: ProcessId, id: JobId, resume: bool)
    | SetStateStep(id: JobId, state: Json)
    | SucceedStep(pid: ProcessId, id: JobId)
    | FailStep(pid: ProcessId, id: JobId, error: string, delay: nat, maxRetries: nat)
    | KillInvalidStep(pid: ProcessId, id: JobId, error: string)
    | PollStep(set_: DelaySet, due: seq<JobId>)
    | RetryAllStep(all: seq<JobId>)
    | ResurrectStep(pid: ProcessId)
    | WipeStep(queue: QueueName)
    | WipeDeadStep
    | ReviveStep
    | TickStep(to: int)

  // ---- the ledger ----

  function Accept(l: Ledger, jobs: map<JobId, JobEnvelope>, e: JobEnvelope): Ledger {
    if ActionFor(jobs, e) == SkipJob then l
    else if e.id in jobs then l.(accepted := l.accepted + multiset{e.id}, replaced := l.replaced + multiset{e.id})
    else l.(accepted := l.accepted + multiset{e.id})
  }

  function AcceptEach(l: Ledger, s: Store, es: seq<JobEnvelope>, dest: Destination): Ledger
    decreases |es|
  {
    if es == [] then l else AcceptEach(Accept(l, s.jobs, es[0]), Enqueue(s, es[0], dest), es[1..], dest)
  }

  ghost predicate Balanced(jobs: map<JobId, JobEnvelope>, l: Ledger) {
    l.accepted == multiset(jobs.Keys) + l.succeeded + l.killed + l.dropped + l.wiped + l.replaced
  }

  // ---- the steps ----

  function ParsedOf(entries: seq<DeadEntry>): seq<JobEnvelope> {
    if entries == [] then []
    else if entries[0].Parsed? then [entries[0].env] + ParsedOf(entries[1..])
    else ParsedOf(entries[1..])
  }

  ghost predicate EachSafe(s: Store, es: seq<JobEnvelope>, dest: Destination)
    decreases |es|
  {
    es == [] || (EnqueueSafe(s, es[0], dest) && EachSafe(Enqueue(s, es[0], dest), es[1..], dest))
  }

  ghost predicate Held(s: Store, pid: ProcessId, id: JobId) {
    id in ListAt(s.processing, pid)
  }

  ghost predicate Allowed(m: Machine, step: Step) {
    match step
    case EnqueueStep(e, dest) => EnqueueSafe(m.store, e, dest)
    case EnqueueManyStep(es, dest) => EachSafe(m.store, es, dest)
    case TakeStep(pid, q) => true
    case BeginStep(pid, id, _) => Held(m.store, pid, id) && id !in m.memory && id in m.store.jobs
    case SetStateStep(id, _) => true
    case SucceedStep(pid, id) => Held(m.store, pid, id) && id in m.memory
    case FailStep(pid, id, _, _, _) => Held(m.store, pid, id) && id in m.memory
    case KillInvalidStep(pid, id, _) => Held(m.store, pid, id) && id !in m.memory && id in m.store.jobs
    case PollStep(z, due) => IsDueReply(due, Members(m.store, z), m.clock)
    case RetryAllStep(all) => IsFullReply(all, m.store.retry)
    case ResurrectStep(pid) => true
    case WipeStep(q) => true
    case WipeDeadStep => true
    case ReviveStep => EachSafe(m.store.(dead := []), ParsedOf(m.store.dead), ToQueue)
    case TickStep(to) => m.clock <= to
  }

  /** The worker loads the envelope, clears old state unless the job resumes, stamps the start. */
  function Started(e: JobEnvelope, resume: bool, now: int): JobEnvelope {
    WithStartedAt(if resume then e else WithState(e, None), now)
  }

  function UpdateState(s: Store, id: JobId, state: Json): Store {
    if id in s.jobs then StoreEnvelope(s, WithState(s.jobs[id], Some(state))) else s
  }

  function Apply(m: Machine, step: Step): Machine
    requires Allowed(m, step)
  {
    match step
    case EnqueueStep(e, dest) =>
      m.(store := Enqueue(m.store, e, dest), ledger := Accept(m.ledger, m.store.jobs, e))
    case EnqueueManyStep(es, dest) =>
      m.(store := EnqueueEach(m.store, es, dest), ledger := AcceptEach(m.ledger, m.store, es, dest))
    case TakeStep(pid, q) => m.(store := Dequeue(m.store, pid, q))
    case BeginStep(pid, id, resume) =>
      var e := Started(m.store.jobs[id], resume, m.clock);
      m.(store := StoreEnvelope(m.store, e), memory := m.memory[id := e])
    case SetStateStep(id, state) => m.(store := UpdateState(m.store, id, state))
    case SucceedStep(pid, id) =>
      m.(store := FinishSuccess(m.store, pid, m.memory[id]), memory := m.memory - {id},
         ledger := m.ledger.(succeeded := m.ledger.succeeded + multiset{id}))
    case FailStep(pid, id, error, delay, maxRetries) =>
      var e := m.memory[id];
      m.(store := HandleErr(m.store, pid, e, error, delay, maxRetries, m.clock), memory := m.memory - {id},
         ledger := if e.meta.retries < maxRetries then m.ledger
                   else m.ledger.(killed := m.ledger.killed + multiset{id}))
    case KillInvalidStep(pid, id, error) =>
      m.(store := Kill(m.store, pid, m.store.jobs[id], error),
         ledger := m.ledger.(killed := m.ledger.killed + multiset{id}))
    case PollStep(z, due) => m.(store := ClaimAndEnqueue(m.store, z, due))
    case RetryAllStep(all) => m.(store := ClaimAndEnqueue(m.store, RetrySet, all))
    case ResurrectStep(pid) =>
      var ids := ListAt(m.store.processing, pid);
      m.(store := Resurrect(m.store, pid), memory := m.memory - ToSet(ids),
         ledger := m.ledger.(dropped := m.ledger.dropped + multiset(Dropped(m.store.jobs, ids))))
    case WipeStep(q) =>
      m.(store := WipeQueue(m.store, q),
         ledger := m.ledger.(wiped := m.ledger.wiped + multiset(ToSet(ListAt(m.store.queues, q)))))
    case WipeDeadStep => m.(store := m.store.(dead := []))
    case ReviveStep =>
      var s := m.store.(dead := []);
      m.(store := ReviveEach(s, m.store.dead), ledger := AcceptEach(m.ledger, s, ParsedOf(m.store.dead), ToQueue))
    case TickStep(to) => m.(clock := to)
  }

  // ---- the invariant ----

  ghost predicate SameButState(a: JobEnvelope, b: JobEnvelope) {
    WithState(a, None) == WithState(b, None)
  }

  /** A worker's copy belongs to a running job and differs from the stored envelope in state only. */
  ghost predicate MemoryAgrees(m: Machine) {
    forall id :: id in m.memory ==>
      id in m.store.jobs && IsRunning(m.store, id) && SameButState(m.memory[id], m.store.jobs[id])
  }

  ghost predicate ScoresAgree(s: Store) {
    forall id :: id in s.schedule ==> id in s.jobs && s.schedule[id] == s.jobs[id].meta.scheduledAt
  }

  ghost predicate Inv(m: Machine) {
    OnePlace(m.store) && MemoryAgrees(m) && Balanced(m.store.jobs, m.ledger) && ScoresAgree(m.store)
  }

  lemma HeldIsStored(s: Store)
    requires OnePlace(s)
    ensures forall pid, id :: Held(s, pid, id) ==> id in s.jobs && s.jobs[id].id == id && id !in s.schedule
  {
    RunningOnly(s);
  }

  lemma NoDupProcessing(s: Store, pid: ProcessId)
    requires OnePlace(s)
    ensures NoDup(ListAt(s.processing, pid))
  {
    var w := SomePlaces(s);
  }

  const NO_LEDGER := Ledger(multiset{}, multiset{}, multiset{}, multiset{}, multiset{}, multiset{})

  lemma InitialInv(clock: int)
    ensures Inv(Machine(EMPTY, map[], NO_LEDGER, clock))
  {
    LocatedIsOnePlace(EMPTY, map[]);
  }

  // ---- one place ----

  function PlacesAfterEach(s: Store, w: map<JobId, Place>, es: seq<JobEnvelope>, dest: Destination): map<JobId, Place>
    decreases |es|
  {
    if es == [] then w
    else PlacesAfterEach(Enqueue(s, es[0], dest), PlacesAfter(s, w, es[0], dest), es[1..], dest)
  }

  /** Where every job is after a step. */
  function NextPlaces(m: Machine, step: Step, w: map<JobId, Place>): map<JobId, Place>
    requires Allowed(m, step)
  {
    var s := m.store;
    match step
    case EnqueueStep(e, dest) => PlacesAfter(s, w, e, dest)
    case EnqueueManyStep(es, dest) => PlacesAfterEach(s, w, es, dest)
    case TakeStep(pid, q) => if ListAt(s.queues, q) == [] then w else w[Last(ListAt(s.queues, q)) := Running(pid)]
    case SucceedStep(_, id) => w - {id}
    case FailStep(_, id, _, _, maxRetries) =>
      if m.memory[id].meta.retries < maxRetries then w[id := Retrying] else w - {id}
    case KillInvalidStep(_, id, _) => w - {id}
    case PollStep(_, due) => PlaceEach(w - ToSet(due), GetMany(s.jobs, due))
    case RetryAllStep(all) => PlaceEach(w - ToSet(all), GetMany(s.jobs, all))
    case ResurrectStep(pid) =>
      PlaceEach(w - ToSet(ListAt(s.processing, pid)), Kept(s.jobs, ListAt(s.processing, pid)))
    case WipeStep(q) => w - ToSet(ListAt(s.queues, q))
    case ReviveStep => PlacesAfterEach(s.(dead := []), w, ParsedOf(s.dead), ToQueue)
    case _ => w
  }

  lemma {:induction false} EnqueueEachLocated(s: Store, w: map<JobId, Place>, es: seq<JobEnvelope>, dest: Destination)
    requires Located(s, w) && EachSafe(s, es, dest)
    ensures Located(EnqueueEach(s, es, dest), PlacesAfterEach(s, w, es, dest))
    decreases |es|
  {
    if es != [] {
      EnqueueLocated(s, w, es[0], dest);
      EnqueueEachLocated(Enqueue(s, es[0], dest), PlacesAfter(s, w, es[0], dest), es[1..], dest);
    }
  }

  lemma {:induction false} ReviveIsEnqueue(s: Store, entries: seq<DeadEntry>)
    ensures ReviveEach(s, entries) == EnqueueEach(s, ParsedOf(entries), ToQueue)
    decreases |entries|
  {
    if entries != [] {
      if entries[0].Parsed? {
        ReviveIsEnqueue(Enqueue(s, entries[0].env, ToQueue), entries[1..]);
        assert ParsedOf(entries)[1..] == ParsedOf(entries[1..]);
      } else {
        ReviveIsEnqueue(s, entries[1..]);
      }
    }
  }

  lemma DeadIsNoPlace(s: Store, w: map<JobId, Place>, dead: seq<DeadEntry>)
    requires Located(s, w)
    ensures Located(s.(dead := dead), w)
  {
  }

  lemma ClaimAllLocated(s: Store, w: map<JobId, Place>, z: DelaySet, ids: seq<JobId>)
    requires Located(s, w)
    requires NoDup(ids) && forall id :: id in ids ==> id in Members(s, z)
    ensures Located(ClaimAndEnqueue(s, z, ids), PlaceEach(w - ToSet(ids), GetMany(s.jobs, ids)))
  {
    ClaimLocated(s, w, z, ids);
    GetManyOfStored(s.jobs, ids);
  }

  lemma KillLocated(s: Store, w: map<JobId, Place>, pid: ProcessId, e: JobEnvelope, error: string)
    requires Located(s, w) && Held(s, pid, e.id)
    ensures Located(Kill(s, pid, e, error), w - {e.id})
  {
    RetireLocated(s, w, pid, e.id);
    DeadIsNoPlace(Unprocess(s.(jobs := s.jobs - {e.id}), pid, e.id), w - {e.id}, Kill(s, pid, e, error).dead);
  }

  lemma FailLocated(s: Store, w: map<JobId, Place>, pid: ProcessId, e: JobEnvelope, error: string, delay: nat,
                    maxRetries: nat, now: int)
    requires Located(s, w) && Held(s, pid, e.id)
    ensures Located(HandleErr(s, pid, e, error, delay, maxRetries, now),
                    if e.meta.retries < maxRetries then w[e.id := Retrying] else w - {e.id})
  {
    if e.meta.retries < maxRetries {
      RetryLocated(s, w, pid, e.id, delay, error, now);
    } else {
      KillLocated(s, w, pid, e, error);
    }
  }

  lemma FinishLocated(m: Machine, step: Step, w: map<JobId, Place>)
    requires MemoryAgrees(m) && Allowed(m, step) && OnePlace(m.store) && Located(m.store, w)
    requires step.SucceedStep? || step.FailStep? || step.KillInvalidStep?
    ensures Located(Apply(m, step).store, NextPlaces(m, step, w))
  {
    HeldIsStored(m.store);
    match step
    case SucceedStep(pid, id) => RetireLocated(m.store, w, pid, id);
    case FailStep(pid, id, error, delay, maxRetries) =>
      assert m.memory[id].id == id;
      FailLocated(m.store, w, pid, m.memory[id], error, delay, maxRetries, m.clock);
    case KillInvalidStep(pid, id, error) => KillLocated(m.store, w, pid, m.store.jobs[id], error);
  }

  lemma EnqueueStepLocated(m: Machine, step: Step, w: map<JobId, Place>)
    requires MemoryAgrees(m) && Allowed(m, step) && OnePlace(m.store) && Located(m.store, w)
    requires step.EnqueueStep? || step.EnqueueManyStep? || step.ReviveStep?
    ensures Located(Apply(m, step).store, NextPlaces(m, step, w))
  {
    match step
    case EnqueueStep(e, dest) => EnqueueLocated(m.store, w, e, dest);
    case EnqueueManyStep(es, dest) => EnqueueEachLocated(m.store, w, es, dest);
    case ReviveStep =>
      DeadIsNoPlace(m.store, w, []);
      ReviveIsEnqueue(m.store.(dead := []), m.store.dead);
      EnqueueEachLocated(m.store.(dead := []), w, ParsedOf(m.store.dead), ToQueue);
  }

  lemma UpdateStepLocated(m: Machine, step: Step, w: map<JobId, Place>)
    requires MemoryAgrees(m) && Allowed(m, step) && OnePlace(m.store) && Located(m.store, w)
    requires step.BeginStep? || step.SetStateStep? || step.WipeDeadStep? || step.TickStep?
    ensures Located(Apply(m, step).store, w)
  {
    HeldIsStored(m.store);
    if step.BeginStep? {
      UpdateLocated(m.store, w, Started(m.store.jobs[step.id], step.resume, m.clock));
    } else if step.SetStateStep? && step.id in m.store.jobs {
      UpdateLocated(m.store, w, WithState(m.store.jobs[step.id], Some(step.state)));
    } else if step.WipeDeadStep? {
      DeadIsNoPlace(m.store, w, []);
    }
  }

  lemma StepLocated(m: Machine, step: Step, w: map<JobId, Place>)
    requires OnePlace(m.store) && MemoryAgrees(m) && Allowed(m, step) && Located(m.store, w)
    ensures Located(Apply(m, step).store, NextPlaces(m, step, w))
  {
    if step.EnqueueStep? || step.EnqueueManyStep? || step.ReviveStep? {
      EnqueueStepLocated(m, step, w);
    } else if step.SucceedStep? || step.FailStep? || step.KillInvalidStep? {
      FinishLocated(m, step, w);
    } else if step.BeginStep? || step.SetStateStep? || step.WipeDeadStep? || step.TickStep? {
      UpdateStepLocated(m, step, w);
    } else if step.TakeStep? {
      if ListAt(m.store.queues, step.queue) != [] {
        DequeueLocated(m.store, w, step.pid, step.queue);
      }
    } else if step.PollStep? {
      ClaimAllLocated(m.store, w, step.set_, step.due);
    } else if step.RetryAllStep? {
      ClaimAllLocated(m.store, w, RetrySet, step.all);
    } else if step.ResurrectStep? {
      ResurrectLocated(m.store, w, step.pid);
    } else {
      WipeLocated(m.store, w, step.queue);
    }
  }

  // ---- the worker's copy ----

  lemma {:induction false} EnqueueEachSparesRunning(s: Store, w: map<JobId, Place>, es: seq<JobEnvelope>,
                                                    dest: Destination, id: JobId)
    requires Located(s, w) && EachSafe(s, es, dest)
    requires id in w && w[id].Running?
    ensures var s' := EnqueueEach(s, es, dest);
            id in s'.jobs && s'.jobs[id] == s.jobs[id] && s'.processing == s.processing
    decreases |es|
  {
    if es != [] {
      EnqueueSparesRunning(s, w, es[0], dest, id);
      EnqueueLocated(s, w, es[0], dest);
      EnqueueEachSparesRunning(Enqueue(s, es[0], dest), PlacesAfter(s, w, es[0], dest), es[1..], dest, id);
    }
  }

  /** A safe enqueue does not touch a running job. */
  lemma EnqueueSparesRunning(s: Store, w: map<JobId, Place>, e: JobEnvelope, dest: Destination, id: JobId)
    requires Located(s, w) && EnqueueSafe(s, e, dest)
    requires id in w && w[id].Running?
    ensures var s' := Enqueue(s, e, dest);
            id in s'.jobs && s'.jobs[id] == s.jobs[id] && s'.processing == s.processing
    ensures PlacesAfter(s, w, e, dest)[id] == w[id]
  {
    EnqueueWrites(s, e, dest);
    assert e.id != id || ActionFor(s.jobs, e) == SkipJob by {
      assert id in ListAt(s.processing, w[id].pid);
      assert id !in s.schedule;
    }
  }

  lemma UnprocessSparesOthers(s: Store, pid: ProcessId, id: JobId, x: JobId)
    requires IsRunning(s, x) && x != id
    ensures IsRunning(Unprocess(s, pid, id), x)
  {
    var p :| x in ListAt(s.processing, p);
    RemoveFirstTakesOne(ListAt(s.processing, pid), id);
    assert multiset(ListAt(s.processing, pid))[x] == multiset(RemoveFirst(ListAt(s.processing, pid), id))[x];
    assert x in ListAt(Unprocess(s, pid, id).processing, p);
  }

  lemma DequeueSparesRunning(s: Store, pid: ProcessId, q: QueueName, x: JobId)
    requires IsRunning(s, x)
    ensures IsRunning(Dequeue(s, pid, q), x)
  {
    var p :| x in ListAt(s.processing, p);
    assert x in ListAt(Dequeue(s, pid, q).processing, p);
  }

  lemma SameProcessing(s: Store, s': Store, x: JobId)
    requires IsRunning(s, x) && s'.processing == s.processing
    ensures IsRunning(s', x)
  {
    var p :| x in ListAt(s.processing, p);
    assert x in ListAt(s'.processing, p);
  }

  lemma ResurrectSparesOthers(m: Machine, pid: ProcessId, x: JobId)
    requires OnePlace(m.store) && x in m.store.jobs && IsRunning(m.store, x) && !Held(m.store, pid, x)
    ensures var s' := Resurrect(m.store, pid);
            x in s'.jobs && s'.jobs[x] == m.store.jobs[x] && IsRunning(s', x)
  {
    var s := m.store;
    HeldIsStored(s);
    NoDupProcessing(s, pid);
    ResurrectEachMeans(s.(processing := s.processing - {pid}), ListAt(s.processing, pid));
    var p :| x in ListAt(s.processing, p);
    assert x in ListAt(Resurrect(s, pid).processing, p);
  }

  ghost predicate CopyAgrees(m: Machine, x: JobId) {
    x in m.memory && x in m.store.jobs && IsRunning(m.store, x) && SameButState(m.memory[x], m.store.jobs[x])
  }

  lemma EnqueueEachKeepsCopy(s: Store, es: seq<JobEnvelope>, dest: Destination, x: JobId)
    requires OnePlace(s) && EachSafe(s, es, dest) && x in s.jobs && IsRunning(s, x)
    ensures var s' := EnqueueEach(s, es, dest); x in s'.jobs && s'.jobs[x] == s.jobs[x] && IsRunning(s', x)
  {
    var w := SomePlaces(s);
    RunningIsPlaced(s, w, x);
    EnqueueEachSparesRunning(s, w, es, dest, x);
    SameProcessing(s, EnqueueEach(s, es, dest), x);
  }

  lemma EnqueueKeepsCopy(m: Machine, step: Step, x: JobId)
    requires OnePlace(m.store) && MemoryAgrees(m) && Allowed(m, step) && x in m.memory
    requires step.EnqueueStep? || step.EnqueueManyStep? || step.ReviveStep?
    ensures CopyAgrees(Apply(m, step), x)
  {
    if step.EnqueueStep? {
      assert EnqueueEach(Enqueue(m.store, step.env, step.dest), [], step.dest) == Enqueue(m.store, step.env, step.dest);
      assert [step.env][1..] == [];
      EnqueueEachKeepsCopy(m.store, [step.env], step.dest, x);
    } else if step.EnqueueManyStep? {
      EnqueueEachKeepsCopy(m.store, step.envs, step.dest, x);
    } else {
      DeadLeavesOnePlace(m.store);
      SameProcessing(m.store, m.store.(dead := []), x);
      ReviveIsEnqueue(m.store.(dead := []), m.store.dead);
      EnqueueEachKeepsCopy(m.store.(dead := []), ParsedOf(m.store.dead), ToQueue, x);
    }
  }

  lemma DeadLeavesOnePlace(s: Store)
    requires OnePlace(s)
    ensures OnePlace(s.(dead := []))
  {
    var w := SomePlaces(s);
    DeadIsNoPlace(s, w, []);
    LocatedIsOnePlace(s.(dead := []), w);
  }

  lemma RetireKeepsCopy(m: Machine, step: Step, x: JobId)
    requires OnePlace(m.store) && MemoryAgrees(m) && Allowed(m, step) && x in m.memory && x in Apply(m, step).memory
    requires step.SucceedStep? || step.FailStep? || step.KillInvalidStep?
    ensures CopyAgrees(Apply(m, step), x)
  {
    FinishTouchesOne(m, step, x);
    UnprocessSparesOthers(m.store, step.pid, step.id, x);
    SameProcessing(Unprocess(m.store, step.pid, step.id), Apply(m, step).store, x);
  }

  lemma FinishTouchesOne(m: Machine, step: Step, x: JobId)
    requires OnePlace(m.store) && MemoryAgrees(m) && Allowed(m, step) && x in m.memory && x in Apply(m, step).memory
    requires step.SucceedStep? || step.FailStep? || step.KillInvalidStep?
    ensures x != step.id && Apply(m, step).memory[x] == m.memory[x]
    ensures Apply(m, step).store.processing == Unprocess(m.store, step.pid, step.id).processing
    ensures var jobs := Apply(m, step).store.jobs; x in jobs && jobs[x] == m.store.jobs[x]
  {
    HeldIsStored(m.store);
  }

  lemma WipeSparesRunning(s: Store, q: QueueName, x: JobId)
    requires OnePlace(s) && x in s.jobs && IsRunning(s, x)
    ensures x !in ListAt(s.queues, q)
  {
    if x in ListAt(s.queues, q) {
      QueuedOnly(s, q, x);
    }
  }

  lemma OtherKeepsCopy(m: Machine, step: Step, x: JobId)
    requires OnePlace(m.store) && MemoryAgrees(m) && Allowed(m, step) && x in m.memory && x in Apply(m, step).memory
    requires !step.SucceedStep? && !step.FailStep? && !step.KillInvalidStep?
    requires !step.EnqueueStep? && !step.EnqueueManyStep? && !step.ReviveStep?
    ensures CopyAgrees(Apply(m, step), x)
  {
    if step.TakeStep? {
      DequeueSparesRunning(m.store, step.pid, step.queue, x);
    } else if step.ResurrectStep? {
      ResurrectSparesOthers(m, step.pid, x);
    } else {
      InPlaceKeepsCopy(m, step, x);
    }
  }

  /** A start and a state update write one envelope, and nothing of it but its start and its state. */
  lemma WriteKeepsJob(m: Machine, step: Step, x: JobId)
    requires OnePlace(m.store) && MemoryAgrees(m) && Allowed(m, step) && x in m.memory && x in Apply(m, step).memory
    requires step.BeginStep? || step.SetStateStep?
    ensures Apply(m, step).memory[x] == m.memory[x] && Apply(m, step).store.processing == m.store.processing
    ensures var jobs := Apply(m, step).store.jobs; x in jobs && SameButState(m.memory[x], jobs[x])
  {
    HeldIsStored(m.store);
  }

  lemma WipeKeepsJob(m: Machine, q: QueueName, x: JobId)
    requires OnePlace(m.store) && MemoryAgrees(m) && x in m.memory
    ensures var jobs := Apply(m, WipeStep(q)).store.jobs; x in jobs && SameButState(m.memory[x], jobs[x])
  {
    WipeSparesRunning(m.store, q, x);
  }

  lemma InPlaceKeepsJob(m: Machine, step: Step, x: JobId)
    requires OnePlace(m.store) && MemoryAgrees(m) && Allowed(m, step) && x in m.memory && x in Apply(m, step).memory
    requires step.BeginStep? || step.SetStateStep? || step.PollStep? || step.RetryAllStep? || step.WipeStep?
             || step.WipeDeadStep? || step.TickStep?
    ensures Apply(m, step).memory[x] == m.memory[x] && Apply(m, step).store.processing == m.store.processing
    ensures var jobs := Apply(m, step).store.jobs; x in jobs && SameButState(m.memory[x], jobs[x])
  {
    if step.BeginStep? || step.SetStateStep? {
      WriteKeepsJob(m, step, x);
    } else if step.WipeStep? {
      WipeKeepsJob(m, step.queue, x);
    }
  }

  lemma InPlaceKeepsCopy(m: Machine, step: Step, x: JobId)
    requires OnePlace(m.store) && MemoryAgrees(m) && Allowed(m, step) && x in m.memory && x in Apply(m, step).memory
    requires step.BeginStep? || step.SetStateStep? || step.PollStep? || step.RetryAllStep? || step.WipeStep?
             || step.WipeDeadStep? || step.TickStep?
    ensures CopyAgrees(Apply(m, step), x)
  {
    InPlaceKeepsJob(m, step, x);
    SameProcessing(m.store, Apply(m, step).store, x);
  }

  lemma StepKeepsMemory(m: Machine, step: Step)
    requires OnePlace(m.store) && MemoryAgrees(m) && Allowed(m, step)
    ensures MemoryAgrees(Apply(m, step))
  {
    HeldIsStored(m.store);
    var m' := Apply(m, step);
    forall x | x in m'.memory ensures CopyAgrees(m', x) {
      if x !in m.memory {
        assert step.BeginStep? && Held(m.store, step.pid, x);
        SameProcessing(m.store, m'.store, x);
      } else if step.EnqueueStep? || step.EnqueueManyStep? || step.ReviveStep? {
        EnqueueKeepsCopy(m, step, x);
      } else if step.SucceedStep? || step.FailStep? || step.KillInvalidStep? {
        RetireKeepsCopy(m, step, x);
      } else {
        OtherKeepsCopy(m, step, x);
      }
    }
  }

  // ---- the ledger balances ----

  lemma KeysWith(jobs: map<JobId, JobEnvelope>, e: JobEnvelope)
    ensures e.id in jobs ==> multiset(jobs[e.id := e].Keys) == multiset(jobs.Keys)
    ensures e.id !in jobs ==> multiset(jobs[e.id := e].Keys) == multiset(jobs.Keys) + multiset{e.id}
  {
    assert jobs[e.id := e].Keys == jobs.Keys + {e.id};
  }

  lemma AcceptBalances(s: Store, l: Ledger, e: JobEnvelope, dest: Destination)
    requires Balanced(s.jobs, l)
    ensures Balanced(Enqueue(s, e, dest).jobs, Accept(l, s.jobs, e))
  {
    EnqueueWrites(s, e, dest);
    KeysWith(s.jobs, e);
  }

  lemma {:induction false} AcceptEachBalances(s: Store, l: Ledger, es: seq<JobEnvelope>, dest: Destination)
    requires Balanced(s.jobs, l)
    ensures Balanced(EnqueueEach(s, es, dest).jobs, AcceptEach(l, s, es, dest))
    decreases |es|
  {
    if es != [] {
      AcceptBalances(s, l, es[0], dest);
      AcceptEachBalances(Enqueue(s, es[0], dest), Accept(l, s.jobs, es[0]), es[1..], dest);
    }
  }

  lemma KeysWithout(jobs: map<JobId, JobEnvelope>, gone: set<JobId>)
    requires gone <= jobs.Keys
    ensures multiset(jobs.Keys) == multiset((jobs - gone).Keys) + multiset(gone)
  {
    assert jobs.Keys == (jobs - gone).Keys + gone;
  }

  lemma KeysWithoutOne(jobs: map<JobId, JobEnvelope>, id: JobId)
    requires id in jobs
    ensures multiset(jobs.Keys) == multiset((jobs - {id}).Keys) + multiset{id}
  {
    KeysWithout(jobs, {id});
  }

  lemma FailBalances(m: Machine, step: Step)
    requires Inv(m) && Allowed(m, step) && step.FailStep?
    ensures Balanced(Apply(m, step).store.jobs, Apply(m, step).ledger)
  {
    HeldIsStored(m.store);
    if m.memory[step.id].meta.retries < step.maxRetries {
      assert Apply(m, step).store.jobs.Keys == m.store.jobs.Keys;
    } else {
      KeysWithoutOne(m.store.jobs, step.id);
    }
  }

  lemma ResurrectBalances(s: Store, l: Ledger, pid: ProcessId)
    requires OnePlace(s) && Balanced(s.jobs, l)
    ensures Balanced(Resurrect(s, pid).jobs,
              l.(dropped := l.dropped + multiset(Dropped(s.jobs, ListAt(s.processing, pid)))))
  {
    HeldIsStored(s);
    NoDupProcessing(s, pid);
    ResurrectEachMeans(s.(processing := s.processing - {pid}), ListAt(s.processing, pid));
    KeysWithout(s.jobs, Dropped(s.jobs, ListAt(s.processing, pid)));
  }

  lemma WipeBalances(s: Store, l: Ledger, q: QueueName)
    requires OnePlace(s) && Balanced(s.jobs, l)
    ensures Balanced(WipeQueue(s, q).jobs, l.(wiped := l.wiped + multiset(ToSet(ListAt(s.queues, q)))))
  {
    forall id | id in ListAt(s.queues, q) ensures id in s.jobs {
      QueuedOnly(s, q, id);
    }
    KeysWithout(s.jobs, ToSet(ListAt(s.queues, q)));
  }

  lemma StepBalances(m: Machine, step: Step)
    requires Inv(m) && Allowed(m, step)
    ensures Balanced(Apply(m, step).store.jobs, Apply(m, step).ledger)
  {
    if step.EnqueueStep? {
      AcceptBalances(m.store, m.ledger, step.env, step.dest);
    } else if step.EnqueueManyStep? {
      AcceptEachBalances(m.store, m.ledger, step.envs, step.dest);
    } else if step.ReviveStep? {
      ReviveIsEnqueue(m.store.(dead := []), m.store.dead);
      AcceptEachBalances(m.store.(dead := []), m.ledger, ParsedOf(m.store.dead), ToQueue);
    } else if step.ResurrectStep? {
      ResurrectBalances(m.store, m.ledger, step.pid);
    } else if step.WipeStep? {
      WipeBalances(m.store, m.ledger, step.queue);
    } else if step.FailStep? {
      FailBalances(m, step);
    } else if step.SucceedStep? || step.KillInvalidStep? {
      HeldIsStored(m.store);
      KeysWithoutOne(m.store.jobs, step.id);
    } else {
      QuietStep(m, step);
    }
  }

  lemma QuietStep(m: Machine, step: Step)
    requires OnePlace(m.store) && Allowed(m, step)
    requires step.TakeStep? || step.BeginStep? || step.SetStateStep? || step.PollStep? || step.RetryAllStep?
             || step.WipeDeadStep? || step.TickStep?
    ensures Apply(m, step).store.jobs.Keys == m.store.jobs.Keys && Apply(m, step).ledger == m.ledger
    ensures Apply(m, step).store.schedule.Keys <= m.store.schedule.Keys
    ensures forall id :: id in Apply(m, step).store.schedule ==>
              Apply(m, step).store.schedule[id] == m.store.schedule[id]
    ensures forall id :: id in m.store.jobs ==>
              Apply(m, step).store.jobs[id].meta.scheduledAt == m.store.jobs[id].meta.scheduledAt
  {
    HeldIsStored(m.store);
    assert forall id :: id in m.store.jobs ==> m.store.jobs[id].id == id;
  }

  // ---- schedule scores ----

  lemma {:induction false} EnqueueEachKeepsScores(s: Store, es: seq<JobEnvelope>, dest: Destination)
    requires ScoresAgree(s) && EachSafe(s, es, dest)
    ensures ScoresAgree(EnqueueEach(s, es, dest))
    decreases |es|
  {
    if es != [] {
      EnqueueKeepsScores(s, es[0], dest);
      EnqueueEachKeepsScores(Enqueue(s, es[0], dest), es[1..], dest);
    }
  }

  lemma EnqueueKeepsScores(s: Store, e: JobEnvelope, dest: Destination)
    requires ScoresAgree(s) && EnqueueSafe(s, e, dest)
    ensures ScoresAgree(Enqueue(s, e, dest))
  {
    EnqueueWrites(s, e, dest);
  }

  ghost predicate FewerScheduled(s: Store, s': Store) {
    forall id :: id in s'.schedule ==>
      && id in s.schedule && s'.schedule[id] == s.schedule[id]
      && id in s.jobs && id in s'.jobs && s'.jobs[id].meta.scheduledAt == s.jobs[id].meta.scheduledAt
  }

  lemma ScheduledIsWaiting(s: Store)
    requires OnePlace(s)
    ensures forall id :: id in s.schedule ==>
              id in s.jobs && (forall pid :: !Held(s, pid, id)) && forall q :: id !in ListAt(s.queues, q)
  {
    var w := SomePlaces(s);
  }

  lemma FailFewerScheduled(m: Machine, step: Step)
    requires OnePlace(m.store) && MemoryAgrees(m) && Allowed(m, step) && step.FailStep?
    ensures FewerScheduled(m.store, Apply(m, step).store)
  {
    ScheduledIsWaiting(m.store);
    assert m.memory[step.id].id == step.id && step.id !in m.store.schedule by { HeldIsStored(m.store); }
    assert m.store.jobs[step.id].id == step.id by { HeldIsStored(m.store); }
    var s' := Apply(m, step).store;
    assert s'.schedule == m.store.schedule;
    assert forall id :: id != step.id && id in m.store.jobs ==> id in s'.jobs && s'.jobs[id] == m.store.jobs[id];
  }

  lemma ResurrectLeaves(s: Store, pid: ProcessId)
    requires OnePlace(s)
    ensures Resurrect(s, pid).schedule == s.schedule
    ensures forall id :: id in s.jobs && !Held(s, pid, id) ==>
              id in Resurrect(s, pid).jobs && Resurrect(s, pid).jobs[id] == s.jobs[id]
  {
    HeldIsStored(s);
    NoDupProcessing(s, pid);
    ResurrectEachMeans(s.(processing := s.processing - {pid}), ListAt(s.processing, pid));
  }

  lemma ResurrectFewerScheduled(s: Store, pid: ProcessId)
    requires OnePlace(s)
    ensures FewerScheduled(s, Resurrect(s, pid))
  {
    ScheduledIsWaiting(s);
    ResurrectLeaves(s, pid);
    assert forall id :: id in s.schedule ==> !Held(s, pid, id);
  }

  lemma ReviveKeepsScores(s: Store)
    requires OnePlace(s) && ScoresAgree(s) && EachSafe(s.(dead := []), ParsedOf(s.dead), ToQueue)
    ensures ScoresAgree(ReviveEach(s.(dead := []), s.dead))
  {
    DeadLeavesOnePlace(s);
    ReviveIsEnqueue(s.(dead := []), s.dead);
    EnqueueEachKeepsScores(s.(dead := []), ParsedOf(s.dead), ToQueue);
  }

  lemma StepKeepsScores(m: Machine, step: Step)
    requires Inv(m) && Allowed(m, step)
    ensures ScoresAgree(Apply(m, step).store)
  {
    HeldIsStored(m.store);
    if step.EnqueueStep? {
      EnqueueKeepsScores(m.store, step.env, step.dest);
    } else if step.EnqueueManyStep? {
      EnqueueEachKeepsScores(m.store, step.envs, step.dest);
    } else if step.ReviveStep? {
      ReviveKeepsScores(m.store);
    } else {
      StepFewerScheduled(m, step);
    }
  }

  lemma StepFewerScheduled(m: Machine, step: Step)
    requires Inv(m) && Allowed(m, step) && !step.EnqueueStep? && !step.EnqueueManyStep? && !step.ReviveStep?
    ensures FewerScheduled(m.store, Apply(m, step).store)
  {
    if step.ResurrectStep? {
      ResurrectFewerScheduled(m.store, step.pid);
    } else if step.FailStep? {
      FailFewerScheduled(m, step);
    } else if step.WipeStep? {
      ScheduledIsWaiting(m.store);
    } else if step.SucceedStep? || step.KillInvalidStep? {
      HeldIsStored(m.store);
      ScheduledIsWaiting(m.store);
    } else {
      ScheduledIsWaiting(m.store);
      QuietStep(m, step);
    }
  }

  // ---- runs ----

  lemma StepKeepsInv(m: Machine, step: Step)
    requires Inv(m) && Allowed(m, step)
    ensures Inv(Apply(m, step))
  {
    var w := SomePlaces(m.store);
    StepLocated(m, step, w);
    LocatedIsOnePlace(Apply(m, step).store, NextPlaces(m, step, w));
    StepKeepsMemory(m, step);
    StepBalances(m, step);
    StepKeepsScores(m, step);
  }

  /** Every step of the run is allowed when its turn comes. */
  ghost predicate RunAllowed(m: Machine, steps: seq<Step>)
    requires Inv(m)
    decreases |steps|
  {
    steps == [] || (Allowed(m, steps[0]) && (StepKeepsInv(m, steps[0]); RunAllowed(Apply(m, steps[0]), steps[1..])))
  }

  ghost function Run(m: Machine, steps: seq<Step>): Machine
    requires Inv(m) && RunAllowed(m, steps)
    decreases |steps|
  {
    if steps == [] then m else StepKeepsInv(m, steps[0]); Run(Apply(m, steps[0]), steps[1..])
  }

  /** Every run keeps the invariant. In particular an id is stored exactly when it is in exactly one
      slot, and every accepted job is live, succeeded, killed, dropped, wiped or replaced. */
  lemma {:induction false} RunKeepsInv(m: Machine, steps: seq<Step>)
    requires Inv(m) && RunAllowed(m, steps)
    ensures Inv(Run(m, steps))
    decreases |steps|
  {
    if steps != [] {
      StepKeepsInv(m, steps[0]);
      RunKeepsInv(Apply(m, steps[0]), steps[1..]);
    }
  }
}
