/** What happens to a job's envelope over its life: which fields never change, and what the others record. */
module JobLife {
  import opened Redis
  import opened Envelope
  import opened S = Store
  import opened Lifecycle
  import Moves
  import Timing

  /** The fields that say what the job is: all but the count of retries and the start, state and error of
      attempts. A retry writes the id into `meta` again. */
  ghost predicate SameIdentity(a: JobEnvelope, b: JobEnvelope) {
    && a.id == b.id && a.job == b.job && a.queue == b.queue
    && (b.meta.id == b.id ==> a.meta.id == a.id)
    && a.meta.unique == b.meta.unique && a.meta.onConflict == b.meta.onConflict
    && a.meta.createdAt == b.meta.createdAt && a.meta.scheduledAt == b.meta.scheduledAt
    && a.meta.resurrect == b.meta.resurrect && a.meta.throttleCost == b.meta.throttleCost
  }

  /** The record of attempts: retries counted, start of the attempt that runs, state stored, last error. */
  datatype Attempts = Attempts(retries: nat, startedAt: Option<int>, state: Option<Json>, error: Option<string>)

  function AttemptsOf(e: JobEnvelope): Attempts {
    Attempts(e.meta.retries, e.meta.startedAt, e.meta.state, e.meta.error)
  }

  /** A start is stamped and drops the state unless the job resumes; a failure counts, ends the start and
      leaves its error; an update of the state leaves the rest; nothing else is recorded. */
  function AfterStep(a: Attempts, step: Step, id: JobId, now: int): Attempts {
    match step
    case BeginStep(_, x, resume) =>
      if x == id then Attempts(a.retries, Some(now), if resume then a.state else None, a.error) else a
    case FailStep(_, x, error, _, _) => if x == id then Attempts(a.retries + 1, None, a.state, Some(error)) else a
    case SetStateStep(x, state) => if x == id then Attempts(a.retries, a.startedAt, Some(state), a.error) else a
    case _ => a
  }

  /** What one step leaves of a job that stays, unless it enqueues that job again. */
  lemma StepRecords(m: Machine, step: Step, id: JobId)
    requires Inv(m) && Allowed(m, step) && !Timing.Brings(m, step, id)
    ensures var jobs := Apply(m, step).store.jobs;
            id in jobs ==>
              && id in m.store.jobs && SameIdentity(jobs[id], m.store.jobs[id])
              && AttemptsOf(jobs[id]) == AfterStep(AttemptsOf(m.store.jobs[id]), step, id, m.clock)
  {
    if step.EnqueueStep? || step.EnqueueManyStep? || step.ReviveStep? {
      EnqueueRecordsNothing(m, step, id);
    } else if step.BeginStep? || step.SetStateStep? {
      WriteRecords(m, step, id);
    } else if step.ResurrectStep? {
      HeldIsStored(m.store);
      NoDupProcessing(m.store, step.pid);
      Moves.ResurrectEachMeans(m.store.(processing := m.store.processing - {step.pid}),
        ListAt(m.store.processing, step.pid));
    } else if step.FailStep? {
      FailRecords(m, step, id);
    } else {
      OthersRecordNothing(m, step, id);
    }
  }

  lemma OthersRecordNothing(m: Machine, step: Step, id: JobId)
    requires Inv(m) && Allowed(m, step)
    requires step.TakeStep? || step.SucceedStep? || step.KillInvalidStep? || step.PollStep? || step.RetryAllStep?
             || step.WipeStep? || step.WipeDeadStep? || step.TickStep?
    ensures var jobs := Apply(m, step).store.jobs; id in jobs ==> id in m.store.jobs && jobs[id] == m.store.jobs[id]
  {
  }

  lemma WriteRecords(m: Machine, step: Step, id: JobId)
    requires Inv(m) && Allowed(m, step) && (step.BeginStep? || step.SetStateStep?)
    ensures var jobs := Apply(m, step).store.jobs;
            id in jobs ==>
              && id in m.store.jobs && SameIdentity(jobs[id], m.store.jobs[id])
              && AttemptsOf(jobs[id]) == AfterStep(AttemptsOf(m.store.jobs[id]), step, id, m.clock)
  {
    HeldIsStored(m.store);
  }

  lemma EnqueueRecordsNothing(m: Machine, step: Step, id: JobId)
    requires Inv(m) && Allowed(m, step) && !Timing.Brings(m, step, id)
    requires step.EnqueueStep? || step.EnqueueManyStep? || step.ReviveStep?
    ensures var jobs := Apply(m, step).store.jobs; id in jobs ==> id in m.store.jobs && jobs[id] == m.store.jobs[id]
  {
    if step.EnqueueStep? {
      EnqueueWrites(m.store, step.env, step.dest);
    } else if step.EnqueueManyStep? {
      Timing.EnqueueEachLeavesJob(m.store, step.envs, step.dest, id);
    } else {
      ReviveIsEnqueue(m.store.(dead := []), m.store.dead);
      Timing.EnqueueEachLeavesJob(m.store.(dead := []), ParsedOf(m.store.dead), ToQueue, id);
    }
  }

  lemma FailRecords(m: Machine, step: Step, id: JobId)
    requires Inv(m) && Allowed(m, step) && step.FailStep?
    ensures var jobs := Apply(m, step).store.jobs;
            id in jobs ==>
              && id in m.store.jobs && SameIdentity(jobs[id], m.store.jobs[id])
              && AttemptsOf(jobs[id]) == AfterStep(AttemptsOf(m.store.jobs[id]), step, id, m.clock)
  {
    HeldIsStored(m.store);
  }

  ghost predicate NotEnqueuedAgain(m: Machine, steps: seq<Step>, id: JobId)
    requires Inv(m) && RunAllowed(m, steps)
    decreases |steps|
  {
    steps == [] ||
    (!Timing.Brings(m, steps[0], id) &&
     (StepKeepsInv(m, steps[0]); NotEnqueuedAgain(Apply(m, steps[0]), steps[1..], id)))
  }

  ghost function AfterRun(a: Attempts, m: Machine, steps: seq<Step>, id: JobId): Attempts
    requires Inv(m) && RunAllowed(m, steps)
    decreases |steps|
  {
    if steps == [] then a
    else
      StepKeepsInv(m, steps[0]);
      AfterRun(AfterStep(a, steps[0], id, m.clock), Apply(m, steps[0]), steps[1..], id)
  }

  /** Over every run: a job that is stored at the end, and was not enqueued again, is the same job, whatever
      queues, sets, workers and recoveries it went through; and its record is that of its own starts,
      failures and updates in their order. */
  lemma {:induction false} RunRecords(m: Machine, steps: seq<Step>, id: JobId)
    requires Inv(m) && RunAllowed(m, steps) && NotEnqueuedAgain(m, steps, id) && id in Run(m, steps).store.jobs
    ensures id in m.store.jobs && SameIdentity(Run(m, steps).store.jobs[id], m.store.jobs[id])
    ensures AttemptsOf(Run(m, steps).store.jobs[id]) == AfterRun(AttemptsOf(m.store.jobs[id]), m, steps, id)
    decreases |steps|
  {
    if steps != [] {
      StepKeepsInv(m, steps[0]);
      RunRecords(Apply(m, steps[0]), steps[1..], id);
      StepRecords(m, steps[0], id);
    }
  }

  /** The copy in a worker's memory is the envelope its start stored, stamped with the start. */
  lemma WorkerSeesItsStart(m: Machine, step: Step)
    requires Inv(m) && Allowed(m, step) && step.BeginStep?
    ensures step.id in Apply(m, step).memory
    ensures Apply(m, step).memory[step.id] == Apply(m, step).store.jobs[step.id]
    ensures Apply(m, step).memory[step.id].meta.startedAt == Some(m.clock)
  {
    HeldIsStored(m.store);
  }

  // ---- the ledger ----

  /** Who enters the ledger, and where: success, kill, recovery, wipe and enqueue each have their own column. */
  lemma StepEnters(m: Machine, step: Step)
    requires Inv(m) && Allowed(m, step)
    ensures var l, l' := m.ledger, Apply(m, step).ledger;
            && l'.succeeded == l.succeeded + (if step.SucceedStep? then multiset{step.id} else multiset{})
            && (!step.FailStep? && !step.KillInvalidStep? ==> l'.killed == l.killed)
            && (step.KillInvalidStep? ==> l'.killed == l.killed + multiset{step.id})
            && (step.FailStep? ==>
                  l'.killed == if step.id in Apply(m, step).store.jobs then l.killed else l.killed + multiset{step.id})
            && (!step.ResurrectStep? ==> l'.dropped == l.dropped)
            && (!step.WipeStep? ==> l'.wiped == l.wiped)
            && (!step.EnqueueStep? && !step.EnqueueManyStep? && !step.ReviveStep? ==>
                  l'.accepted == l.accepted && l'.replaced == l.replaced)
            && (step.EnqueueStep? ==>
                  var new_ := if LetIn(m.store, step.env) then multiset{step.env.id} else multiset{};
                  l'.accepted == l.accepted + new_ &&
                  l'.replaced == l.replaced + (if step.env.id in m.store.jobs then new_ else multiset{}))
  {
    if step.FailStep? {
      FailEnters(m, step);
    } else if step.EnqueueManyStep? {
      AcceptTouchesTwo(m.ledger, m.store, step.envs, step.dest);
    } else if step.ReviveStep? {
      AcceptTouchesTwo(m.ledger, m.store.(dead := []), ParsedOf(m.store.dead), ToQueue);
    }
  }

  lemma FailEnters(m: Machine, step: Step)
    requires Inv(m) && Allowed(m, step) && step.FailStep?
    ensures var l, l' := m.ledger, Apply(m, step).ledger;
            && l' == l.(killed := l'.killed)
            && l'.killed == if step.id in Apply(m, step).store.jobs then l.killed else l.killed + multiset{step.id}
  {
    HeldIsStored(m.store);
  }

  lemma {:induction false} AcceptTouchesTwo(l: Ledger, s: Store, es: seq<JobEnvelope>, dest: Destination)
    ensures var l' := AcceptEach(l, s, es, dest);
            l'.succeeded == l.succeeded && l'.killed == l.killed && l'.dropped == l.dropped && l'.wiped == l.wiped
    decreases |es|
  {
    if es != [] {
      AcceptTouchesTwo(Accept(l, s.jobs, es[0]), Enqueue(s, es[0], dest), es[1..], dest);
    }
  }
}
