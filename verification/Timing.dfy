/** No delayed job starts early, and no job is attempted more often than its retries allow. */
module Timing {
  import opened Redis
  import opened Envelope
  import opened S = Store
  import opened Whereabouts
  import opened Moves
  import opened Lifecycle

  // ---- never early ----

  ghost predicate Mentions(es: seq<JobEnvelope>, id: JobId) {
    exists e :: e in es && e.id == id
  }

  /** The step enqueues the id anew; whatever it was waiting for no longer counts. */
  ghost predicate Brings(m: Machine, step: Step, id: JobId) {
    match step
    case EnqueueStep(e, _) => e.id == id
    case EnqueueManyStep(es, _) => Mentions(es, id)
    case ReviveStep => Mentions(ParsedOf(m.store.dead), id)
    case _ => false
  }

  lemma EnqueueLeavesDelays(s: Store, e: JobEnvelope, dest: Destination, z: DelaySet, id: JobId)
    requires e.id != id && id in Members(s, z)
    ensures var z' := Members(Enqueue(s, e, dest), z); id in z' && z'[id] == Members(s, z)[id]
  {
  }

  lemma {:induction false} EnqueueEachLeavesDelays(s: Store, es: seq<JobEnvelope>, dest: Destination, z: DelaySet,
                                                   id: JobId)
    requires !Mentions(es, id) && id in Members(s, z)
    ensures var z' := Members(EnqueueEach(s, es, dest), z); id in z' && z'[id] == Members(s, z)[id]
    decreases |es|
  {
    if es != [] {
      assert es[0] in es;
      EnqueueLeavesDelays(s, es[0], dest, z, id);
      assert forall e :: e in es[1..] ==> e in es;
      EnqueueEachLeavesDelays(Enqueue(s, es[0], dest), es[1..], dest, z, id);
    }
  }

  ghost predicate StillDelayed(m: Machine, z: DelaySet, id: JobId, score: int) {
    id in Members(m.store, z) && Members(m.store, z)[id] == score
  }

  lemma EnqueueStepLeavesDelays(m: Machine, step: Step, z: DelaySet, id: JobId, score: int)
    requires Inv(m) && Allowed(m, step) && StillDelayed(m, z, id, score) && !Brings(m, step, id)
    requires step.EnqueueStep? || step.EnqueueManyStep? || step.ReviveStep?
    ensures StillDelayed(Apply(m, step), z, id, score)
  {
    if step.EnqueueStep? {
      EnqueueLeavesDelays(m.store, step.env, step.dest, z, id);
    } else if step.EnqueueManyStep? {
      EnqueueEachLeavesDelays(m.store, step.envs, step.dest, z, id);
    } else {
      ReviveIsEnqueue(m.store.(dead := []), m.store.dead);
      EnqueueEachLeavesDelays(m.store.(dead := []), ParsedOf(m.store.dead), ToQueue, z, id);
    }
  }

  lemma ResurrectLeavesDelays(s: Store, pid: ProcessId, z: DelaySet)
    requires OnePlace(s)
    ensures Members(Resurrect(s, pid), z) == Members(s, z)
  {
    HeldIsStored(s);
    NoDupProcessing(s, pid);
    ResurrectEachMeans(s.(processing := s.processing - {pid}), ListAt(s.processing, pid));
  }

  lemma FailLeavesDelays(m: Machine, step: Step, z: DelaySet, id: JobId, score: int)
    requires Inv(m) && Allowed(m, step) && StillDelayed(m, z, id, score) && step.FailStep?
    ensures StillDelayed(Apply(m, step), z, id, score)
  {
    HeldIsStored(m.store);
    RunningOnly(m.store);
    assert step.id in ListAt(m.store.processing, step.pid);
  }

  /** One step: the id keeps its score unless a poll takes it, and a poll only takes what is due. */
  lemma DelayedStep(m: Machine, step: Step, z: DelaySet, id: JobId, score: int)
    requires Inv(m) && Allowed(m, step) && StillDelayed(m, z, id, score)
    requires !Brings(m, step, id) && !(z == RetrySet && step.RetryAllStep?)
    ensures StillDelayed(Apply(m, step), z, id, score) || score <= m.clock
  {
    if step.EnqueueStep? || step.EnqueueManyStep? || step.ReviveStep? {
      EnqueueStepLeavesDelays(m, step, z, id, score);
    } else if step.ResurrectStep? {
      ResurrectLeavesDelays(m.store, step.pid, z);
    } else if step.FailStep? {
      FailLeavesDelays(m, step, z, id, score);
    }
  }

  ghost predicate LeavesAlone(m: Machine, steps: seq<Step>, z: DelaySet, id: JobId)
    requires Inv(m) && RunAllowed(m, steps)
    decreases |steps|
  {
    steps == [] ||
    (&& !Brings(m, steps[0], id)
     && !(z == RetrySet && steps[0].RetryAllStep?)
     && (StepKeepsInv(m, steps[0]); LeavesAlone(Apply(m, steps[0]), steps[1..], z, id)))
  }

  lemma {:induction false} ClockOnlyAdvances(m: Machine, steps: seq<Step>)
    requires Inv(m) && RunAllowed(m, steps)
    ensures m.clock <= Run(m, steps).clock
    decreases |steps|
  {
    if steps != [] {
      StepKeepsInv(m, steps[0]);
      ClockOnlyAdvances(Apply(m, steps[0]), steps[1..]);
    }
  }

  /** In every run, a job that entered a delay set with a score is still there, and in no queue and
      no processing list, until the clock has reached the score. */
  lemma {:induction false} NeverEarly(m: Machine, steps: seq<Step>, z: DelaySet, id: JobId, score: int)
    requires Inv(m) && RunAllowed(m, steps)
    requires StillDelayed(m, z, id, score) && LeavesAlone(m, steps, z, id)
    ensures var end := Run(m, steps);
            score <= end.clock ||
            (&& StillDelayed(end, z, id, score) && !IsRunning(end.store, id)
             && forall q :: id !in ListAt(end.store.queues, q))
    decreases |steps|
  {
    if steps == [] {
      DelayedIsNotQueued(m, z, id);
    } else {
      StepKeepsInv(m, steps[0]);
      DelayedStep(m, steps[0], z, id, score);
      ClockOnlyAdvances(m, steps);
      if score > Run(m, steps).clock {
        NeverEarly(Apply(m, steps[0]), steps[1..], z, id, score);
      }
    }
  }

  lemma DelayedIsNotQueued(m: Machine, z: DelaySet, id: JobId)
    requires Inv(m) && id in Members(m.store, z)
    ensures !IsRunning(m.store, id) && forall q :: id !in ListAt(m.store.queues, q)
  {
    RunningOnly(m.store);
    forall q | id in ListAt(m.store.queues, q) ensures false {
      QueuedOnly(m.store, q, id);
    }
  }

  /** The score of a scheduled job is its stored time; that of a failed one is failure time plus delay. */
  lemma ScoresAreTheTimes(m: Machine, step: Step)
    requires Inv(m) && Allowed(m, step)
    ensures forall id :: id in Apply(m, step).store.schedule ==>
              id in Apply(m, step).store.jobs
                && Apply(m, step).store.schedule[id] == Apply(m, step).store.jobs[id].meta.scheduledAt
    ensures step.FailStep? && m.memory[step.id].meta.retries < step.maxRetries ==>
              StillDelayed(Apply(m, step), RetrySet, step.id, m.clock + 1_000_000 * step.delay)
    ensures Apply(m, step).clock == if step.TickStep? then step.to else m.clock
  {
    StepKeepsInv(m, step);
    HeldIsStored(m.store);
  }

  // ---- what a retry preserves ----

  /** The job comes back as it was stored when it failed, state written during the attempt included: with one
      more retry on the count, no start, and the error. */
  lemma RetryPreserves(m: Machine, step: Step)
    requires Inv(m) && Allowed(m, step) && step.FailStep?
    requires m.memory[step.id].meta.retries < step.maxRetries
    ensures var before, after := m.store.jobs[step.id], Apply(m, step).store.jobs;
            && step.id in after
            && after[step.id] == before.(meta := before.meta.(id := before.id, retries := before.meta.retries + 1,
                                                              startedAt := None, error := Some(step.error)))
            && after[step.id].meta.retries <= step.maxRetries
  {
    HeldIsStored(m.store);
    RunningOnly(m.store);
  }

  // ---- bounded attempts ----

  /** How many more times the job can be started: its retries left, plus the attempt it is waiting for. */
  function AttemptsLeft(m: Machine, id: JobId, maxRetries: nat): int {
    if id !in m.store.jobs then 0
    else maxRetries - m.store.jobs[id].meta.retries + (if id in m.memory then 0 else 1)
  }

  ghost predicate WithinRetries(m: Machine, id: JobId, maxRetries: nat) {
    id in m.store.jobs ==> m.store.jobs[id].meta.retries <= maxRetries
  }

  /** The steps left out: a crash of the process running the job, a new enqueue of the same id, and
      a failure under another retry limit. */
  ghost predicate Ordinary(m: Machine, step: Step, id: JobId, maxRetries: nat) {
    && !Brings(m, step, id)
    && (step.ResurrectStep? ==> !Held(m.store, step.pid, id))
    && (step.FailStep? && step.id == id ==> step.maxRetries == maxRetries)
  }

  function Begins(step: Step, id: JobId): nat {
    if step.BeginStep? && step.id == id then 1 else 0
  }

  lemma {:induction false} EnqueueEachLeavesJob(s: Store, es: seq<JobEnvelope>, dest: Destination, id: JobId)
    requires !Mentions(es, id)
    ensures var jobs := EnqueueEach(s, es, dest).jobs;
            (id in jobs <==> id in s.jobs) && (id in jobs ==> jobs[id] == s.jobs[id])
    decreases |es|
  {
    if es != [] {
      assert es[0] in es;
      EnqueueWrites(s, es[0], dest);
      assert forall e :: e in es[1..] ==> e in es;
      EnqueueEachLeavesJob(Enqueue(s, es[0], dest), es[1..], dest, id);
    }
  }

  /** What one ordinary step does to the stored envelope. */
  lemma JobStep(m: Machine, step: Step, id: JobId, maxRetries: nat)
    requires Inv(m) && Allowed(m, step) && Ordinary(m, step, id, maxRetries)
    ensures var jobs := Apply(m, step).store.jobs;
            id in jobs ==>
              && id in m.store.jobs
              && jobs[id].meta.retries == m.store.jobs[id].meta.retries +
                   (if step.FailStep? && step.id == id then 1 else 0)
              && (step.FailStep? && step.id == id ==> m.store.jobs[id].meta.retries < maxRetries)
  {
    HeldIsStored(m.store);
    if step.EnqueueStep? {
      EnqueueWrites(m.store, step.env, step.dest);
    } else if step.EnqueueManyStep? {
      EnqueueEachLeavesJob(m.store, step.envs, step.dest, id);
    } else if step.ReviveStep? {
      ReviveIsEnqueue(m.store.(dead := []), m.store.dead);
      EnqueueEachLeavesJob(m.store.(dead := []), ParsedOf(m.store.dead), ToQueue, id);
    } else if step.ResurrectStep? {
      NoDupProcessing(m.store, step.pid);
      ResurrectEachMeans(m.store.(processing := m.store.processing - {step.pid}), ListAt(m.store.processing, step.pid));
    }
  }

  /** One ordinary step spends an attempt when it starts the job and never gains one. */
  lemma AttemptStep(m: Machine, step: Step, id: JobId, maxRetries: nat)
    requires Inv(m) && Allowed(m, step) && Ordinary(m, step, id, maxRetries) && WithinRetries(m, id, maxRetries)
    ensures WithinRetries(Apply(m, step), id, maxRetries)
    ensures 0 <= AttemptsLeft(Apply(m, step), id, maxRetries)
    ensures AttemptsLeft(Apply(m, step), id, maxRetries) + Begins(step, id) <= AttemptsLeft(m, id, maxRetries)
  {
    HeldIsStored(m.store);
    JobStep(m, step, id, maxRetries);
    StepKeepsMemory(m, step);
  }

  ghost predicate AllOrdinary(m: Machine, steps: seq<Step>, id: JobId, maxRetries: nat)
    requires Inv(m) && RunAllowed(m, steps)
    decreases |steps|
  {
    steps == [] ||
    (Ordinary(m, steps[0], id, maxRetries)
     && (StepKeepsInv(m, steps[0]); AllOrdinary(Apply(m, steps[0]), steps[1..], id, maxRetries)))
  }

  function BeginsIn(steps: seq<Step>, id: JobId): nat {
    if steps == [] then 0 else Begins(steps[0], id) + BeginsIn(steps[1..], id)
  }

  /** In every ordinary run the stored retries never pass the limit, and the job is started at most as
      often as it has attempts left: `maxRetries + 1` times from its first enqueue. */
  lemma {:induction false} BoundedAttempts(m: Machine, steps: seq<Step>, id: JobId, maxRetries: nat)
    requires Inv(m) && RunAllowed(m, steps) && AllOrdinary(m, steps, id, maxRetries) && WithinRetries(m, id, maxRetries)
    ensures WithinRetries(Run(m, steps), id, maxRetries)
    ensures BeginsIn(steps, id) + AttemptsLeft(Run(m, steps), id, maxRetries) <= AttemptsLeft(m, id, maxRetries)
    ensures AttemptsLeft(m, id, maxRetries) <= maxRetries + 1
    ensures 0 <= AttemptsLeft(Run(m, steps), id, maxRetries)
    decreases |steps|
  {
    if steps != [] {
      StepKeepsInv(m, steps[0]);
      AttemptStep(m, steps[0], id, maxRetries);
      BoundedAttempts(Apply(m, steps[0]), steps[1..], id, maxRetries);
    }
  }

  // ---- and each attempt moves on ----

  /** How far a stored job still is from the end of its attempt. */
  function Stage(place: Place, begun: bool): nat {
    match place
    case Scheduled => 3
    case Retrying => 3
    case Waiting(_) => 2
    case Running(_) => if begun then 0 else 1
  }

  lemma {:induction false} PlacesAfterEachKeep(s: Store, w: map<JobId, Place>, es: seq<JobEnvelope>,
                                               dest: Destination, id: JobId)
    requires !Mentions(es, id) && id in w
    ensures var w' := PlacesAfterEach(s, w, es, dest); id in w' && w'[id] == w[id]
    decreases |es|
  {
    if es != [] {
      assert es[0] in es;
      assert forall e :: e in es[1..] ==> e in es;
      PlacesAfterEachKeep(Enqueue(s, es[0], dest), PlacesAfter(s, w, es[0], dest), es[1..], dest, id);
    }
  }

  /** A poll turns a delayed job into a waiting one and leaves the others where they are. */
  lemma ClaimMoves(s: Store, w: map<JobId, Place>, z: DelaySet, ids: seq<JobId>, id: JobId)
    requires Located(s, w) && id in w
    requires NoDup(ids) && forall x :: x in ids ==> x in Members(s, z)
    ensures var w' := PlaceEach(w - ToSet(ids), GetMany(s.jobs, ids));
            && id in w'
            && (id !in ids ==> w'[id] == w[id])
            && (id in ids ==> w'[id].Waiting? && (w[id].Scheduled? || w[id].Retrying?))
  {
    var es := Lookup(s.jobs, ids);
    GetManyOfStored(s.jobs, ids);
    LookupDistinct(s.jobs, ids);
    PlaceEachMeans(w - ToSet(ids), es);
    if id in ids {
      var i :| 0 <= i < |ids| && ids[i] == id;
      assert es[i] in es;
    }
  }

  lemma ResurrectMoves(s: Store, w: map<JobId, Place>, pid: ProcessId, id: JobId)
    requires Located(s, w) && id in w && !Held(s, pid, id)
    ensures var ids := ListAt(s.processing, pid);
            var w' := PlaceEach(w - ToSet(ids), Kept(s.jobs, ids));
            id in w' && w'[id] == w[id]
  {
    var ids := ListAt(s.processing, pid);
    assert NoDup(ids);
    KeptDistinct(s.jobs, ids);
    PlaceEachMeans(w - ToSet(ids), Kept(s.jobs, ids));
  }

  /** The only moves there are for a job that stays stored. */
  ghost predicate Moved(m: Machine, step: Step, id: JobId, from: Place, to: Place) {
    if (step.PollStep? && id in step.due) || (step.RetryAllStep? && id in step.all)
    then (from.Scheduled? || from.Retrying?) && to.Waiting?
    else if step.TakeStep? && ListAt(m.store.queues, step.queue) != [] && Last(ListAt(m.store.queues, step.queue)) == id
    then from == Waiting(step.queue) && to == Running(step.pid)
    else if step.FailStep? && step.id == id then from.Running? && to == Retrying
    else to == from
  }

  lemma BulkMoves(m: Machine, step: Step, w: map<JobId, Place>, id: JobId, maxRetries: nat)
    requires Inv(m) && Allowed(m, step) && Ordinary(m, step, id, maxRetries) && Located(m.store, w) && id in w
    requires step.EnqueueManyStep? || step.ReviveStep? || step.PollStep? || step.RetryAllStep? || step.ResurrectStep?
    ensures id in NextPlaces(m, step, w) && Moved(m, step, id, w[id], NextPlaces(m, step, w)[id])
  {
    if step.EnqueueManyStep? {
      PlacesAfterEachKeep(m.store, w, step.envs, step.dest, id);
    } else if step.ReviveStep? {
      PlacesAfterEachKeep(m.store.(dead := []), w, ParsedOf(m.store.dead), ToQueue, id);
    } else if step.PollStep? {
      ClaimMoves(m.store, w, step.set_, step.due, id);
    } else if step.RetryAllStep? {
      ClaimMoves(m.store, w, RetrySet, step.all, id);
    } else {
      ResurrectMoves(m.store, w, step.pid, id);
    }
  }

  lemma SingleMoves(m: Machine, step: Step, w: map<JobId, Place>, id: JobId)
    requires MemoryAgrees(m) && Allowed(m, step) && !Brings(m, step, id) && Located(m.store, w)
    requires !(step.EnqueueManyStep? || step.ReviveStep? || step.PollStep? || step.RetryAllStep? || step.ResurrectStep?)
    requires id in w && id in NextPlaces(m, step, w)
    ensures Moved(m, step, id, w[id], NextPlaces(m, step, w)[id])
  {
    if step.TakeStep? {
      LastIsWaiting(m.store, w, step.queue);
    } else if step.FailStep? {
      HeldIsRunning(m.store, w, step.pid, step.id);
    }
  }

  lemma LastIsWaiting(s: Store, w: map<JobId, Place>, q: QueueName)
    requires Located(s, w)
    ensures var l := ListAt(s.queues, q); l != [] ==> Last(l) in w && w[Last(l)] == Waiting(q)
  {
    var l := ListAt(s.queues, q);
    assert l != [] ==> Last(l) in l;
  }

  lemma HeldIsRunning(s: Store, w: map<JobId, Place>, pid: ProcessId, id: JobId)
    requires Located(s, w) && Held(s, pid, id)
    ensures id in w && w[id].Running?
  {
    assert ProcessingMatches(s.processing, w);
    assert w[id] == Running(pid);
  }

  /** The retries still unused, then the stage: what an ordinary run spends. */
  function Rank(retries: nat, stage: nat, maxRetries: nat): int {
    4 * (maxRetries - retries) + stage
  }

  predicate FailsAt(step: Step, id: JobId) {
    step.FailStep? && step.id == id
  }

  predicate StartsAt(step: Step, id: JobId) {
    step.BeginStep? && step.id == id
  }

  /** How one ordinary step moves a job: towards running, or from a failure to the retry set. */
  ghost predicate Falls(from: Place, to: Place, begun: bool, begunAfter: bool, fails: bool, starts: bool) {
    && (begun ==> from.Running?)
    && (if fails then from.Running? && to == Retrying
        else to == from || ((from.Scheduled? || from.Retrying?) && to.Waiting?) || (from.Waiting? && to.Running?))
    && (starts ==> !fails && from.Running? && to == from && !begun && begunAfter)
    && (begun && !fails ==> begunAfter)
  }

  lemma RankFalls(from: Place, to: Place, begun: bool, begunAfter: bool, retries: nat, fails: bool, starts: bool,
                  maxRetries: nat)
    requires Falls(from, to, begun, begunAfter, fails, starts)
    ensures var before := Rank(retries, Stage(from, begun), maxRetries);
            var after := Rank(retries + (if fails then 1 else 0), Stage(to, begunAfter), maxRetries);
            after <= before && (to != from || starts ==> after < before)
  {
  }

  lemma StepFalls(m: Machine, step: Step, w: map<JobId, Place>, id: JobId, maxRetries: nat)
    requires Inv(m) && Allowed(m, step) && Ordinary(m, step, id, maxRetries) && Located(m.store, w)
    requires id in m.store.jobs && id in Apply(m, step).store.jobs
    ensures var w' := NextPlaces(m, step, w);
            && id in w && id in w'
            && Falls(w[id], w'[id], id in m.memory, id in Apply(m, step).memory, FailsAt(step, id), StartsAt(step, id))
  {
    StepMoves(m, step, w, id, maxRetries);
    CopiesMove(m, step, w, id);
  }

  lemma StepMoves(m: Machine, step: Step, w: map<JobId, Place>, id: JobId, maxRetries: nat)
    requires Inv(m) && Allowed(m, step) && Ordinary(m, step, id, maxRetries) && Located(m.store, w)
    requires id in m.store.jobs && id in Apply(m, step).store.jobs
    ensures var w' := NextPlaces(m, step, w); id in w && id in w' && Moved(m, step, id, w[id], w'[id])
  {
    assert id in NextPlaces(m, step, w) by { StepLocated(m, step, w); }
    if step.EnqueueManyStep? || step.ReviveStep? || step.PollStep? || step.RetryAllStep? || step.ResurrectStep? {
      BulkMoves(m, step, w, id, maxRetries);
    } else {
      SingleMoves(m, step, w, id);
    }
  }

  lemma CopiesMove(m: Machine, step: Step, w: map<JobId, Place>, id: JobId)
    requires MemoryAgrees(m) && Allowed(m, step) && Located(m.store, w) && id in w
    ensures id in m.memory ==> w[id].Running?
    ensures id in m.memory && id !in Apply(m, step).memory ==>
              ((step.SucceedStep? || step.FailStep?) && step.id == id)
                || (step.ResurrectStep? && Held(m.store, step.pid, id))
    ensures step.BeginStep? && step.id == id ==> w[id].Running? && id !in m.memory && id in Apply(m, step).memory
    ensures step.SucceedStep? && step.id == id ==> id !in Apply(m, step).store.jobs
  {
    if id in m.memory {
      RunningIsPlaced(m.store, w, id);
    }
    if step.BeginStep? {
      HeldIsRunning(m.store, w, step.pid, step.id);
    }
  }

  /** Every poll, dequeue, start and failure of a job lowers its rank; no other ordinary step raises it. */
  lemma StepLowersRank(m: Machine, step: Step, w: map<JobId, Place>, id: JobId, maxRetries: nat)
    requires Inv(m) && Allowed(m, step) && Ordinary(m, step, id, maxRetries) && Located(m.store, w)
    requires id in m.store.jobs && id in Apply(m, step).store.jobs
    ensures var m', w' := Apply(m, step), NextPlaces(m, step, w);
            && id in w && id in w'
            && var before := Rank(m.store.jobs[id].meta.retries, Stage(w[id], id in m.memory), maxRetries);
               var after := Rank(m'.store.jobs[id].meta.retries, Stage(w'[id], id in m'.memory), maxRetries);
               && after <= before
               && (w'[id] != w[id] || (step.BeginStep? && step.id == id) ==> after < before)
  {
    var m', w' := Apply(m, step), NextPlaces(m, step, w);
    StepFalls(m, step, w, id, maxRetries);
    assert m'.store.jobs[id].meta.retries == m.store.jobs[id].meta.retries + (if FailsAt(step, id) then 1 else 0) by {
      JobStep(m, step, id, maxRetries);
    }
    RankFalls(w[id], w'[id], id in m.memory, id in m'.memory, m.store.jobs[id].meta.retries,
              FailsAt(step, id), StartsAt(step, id), maxRetries);
  }
}
