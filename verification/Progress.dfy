/** Resumable iteration: the iterator stores a cursor after each completed item, and a later attempt of the
    same job, if it resumes, starts at the stored cursor. */
module Progress {
  import opened Redis
  import opened Envelope
  import opened S = Store
  import opened Lifecycle
  import Moves
  import Timing

  datatype JobProgress = JobProgress(cursor: int, total: nat)

  /** The state of the job as it is stored. */
  class JobState {
    var progress: Option<JobProgress>

    constructor ()
      ensures progress == None
    {
      progress := None;
    }

    method UpdateProgress(cursor: nat, total: nat)
      modifies this
      ensures progress == Some(JobProgress(cursor, total))
    {
      progress := Some(JobProgress(cursor, total));
    }
  }

  /** `cursor.max(0)`, and 0 without a stored state. */
  function CursorOf(progress: Option<JobProgress>): nat {
    match progress
    case None => 0
    case Some(p) => if p.cursor < 0 then 0 else p.cursor
  }

  class JobProgressIterator<T> {
    const items: seq<T>
    const state: JobState
    /** The index that the enumerated and skipped iterator yields next. */
    var upcoming: nat
    var currentIndex: Option<nat>

    /** The stored cursor is the first item that is not known to be completed. */
    ghost predicate Valid(start: nat)
      reads this, state
    {
      && start <= upcoming
      && (currentIndex == None || currentIndex == Some(upcoming - 1))
      && (currentIndex.Some? ==> start < upcoming <= |items|)
      && (start < upcoming ==> upcoming <= |items|)
      && CursorOf(state.progress) == (if currentIndex.Some? then upcoming - 1 else upcoming)
    }

    constructor (state: JobState, items: seq<T>)
      ensures this.state == state && this.items == items
      ensures currentIndex == None
      ensures upcoming == match state.progress case Some(p) => (if p.cursor > 0 then p.cursor else 0) case None => 0
      ensures Valid(upcoming)
    {
      this.state := state;
      this.items := items;
      upcoming := CursorOf(state.progress);
      currentIndex := None;
    }

    method MarkCurrentCompleted(ghost start: nat)
      requires Valid(start)
      modifies this`currentIndex, state
      ensures Valid(start) && currentIndex == None
      ensures state.progress == if old(currentIndex).Some? then Some(JobProgress(old(currentIndex).value + 1, |items|))
                                else old(state.progress)
    {
      if currentIndex.Some? {
        var index := currentIndex.value;
        currentIndex := None;
        state.UpdateProgress(index + 1, |items|);
      }
    }

    method Next(ghost start: nat) returns (item: Option<T>)
      requires Valid(start)
      modifies this, state
      ensures Valid(start)
      ensures if old(upcoming) < |items|
              then item == Some(items[old(upcoming)]) && upcoming == old(upcoming) + 1
                && currentIndex == Some(old(upcoming))
              else item == None && upcoming == old(upcoming) && currentIndex == None
      ensures state.progress == if old(currentIndex).Some? then Some(JobProgress(old(currentIndex).value + 1, |items|))
                                else old(state.progress)
    {
      MarkCurrentCompleted(start);
      if upcoming < |items| {
        item := Some(items[upcoming]);
        currentIndex := Some(upcoming);
        upcoming := upcoming + 1;
      } else {
        item := None;
      }
    }
  }

  // ---- one attempt ----

  function Min(a: int, b: int): int {
    if a < b then a else b
  }

  /** How many items an attempt that starts at `cursor` and calls `next` this often yields. */
  function Yields(cursor: nat, n: nat, calls: nat): nat {
    if cursor >= n then 0 else Min(calls, n - cursor)
  }

  /** The cursor it leaves: every item but one that was still in hand when the attempt stopped. */
  function CursorAfter(cursor: nat, n: nat, calls: nat): nat {
    if calls == 0 || cursor >= n then cursor else cursor + Min(calls - 1, n - cursor)
  }

  /** An attempt stops after any number of calls, by failing, by a crash, or past the end. */
  method RunAttempt<T>(state: JobState, items: seq<T>, calls: nat) returns (yielded: seq<T>)
    modifies state
    ensures var c := CursorOf(old(state.progress));
            && yielded == (if c < |items| then items[c..c + Yields(c, |items|, calls)] else [])
            && CursorOf(state.progress) == CursorAfter(c, |items|, calls)
  {
    ghost var c := CursorOf(state.progress);
    var it := new JobProgressIterator(state, items);
    yielded := [];
    var k := 0;
    while k < calls
      invariant k <= calls && it.Valid(c) && it.items == items && it.state == state
      invariant fresh(it)
      invariant it.upcoming == c + Yields(c, |items|, k)
      invariant it.currentIndex.Some? <==> 0 < k <= |items| - c
      invariant yielded == if c < |items| then items[c..it.upcoming] else []
    {
      var item := it.Next(c);
      if item.Some? {
        yielded := yielded + [item.value];
      }
      k := k + 1;
    }
  }

  // ---- many attempts of a job that resumes ----

  function CursorAfterAll(cursor: nat, n: nat, attempts: seq<nat>): nat
    decreases |attempts|
  {
    if attempts == [] then cursor
    else CursorAfter(CursorAfterAll(cursor, n, attempts[..|attempts| - 1]), n, attempts[|attempts| - 1])
  }

  /** Attempt `k` yields the items `[Start(k), End(k))`. */
  function Start(n: nat, attempts: seq<nat>, k: nat): nat
    requires k <= |attempts|
  {
    CursorAfterAll(0, n, attempts[..k])
  }

  function End(n: nat, attempts: seq<nat>, k: nat): nat
    requires k < |attempts|
  {
    Start(n, attempts, k) + Yields(Start(n, attempts, k), n, attempts[k])
  }

  lemma NextStart(n: nat, attempts: seq<nat>, k: nat)
    requires k < |attempts|
    ensures Start(n, attempts, k + 1) == CursorAfter(Start(n, attempts, k), n, attempts[k])
  {
    assert attempts[..k + 1][..k] == attempts[..k];
  }

  lemma {:induction false} StartsInRange(n: nat, attempts: seq<nat>, k: nat)
    requires k <= |attempts|
    ensures Start(n, attempts, k) <= n
  {
    if k > 0 {
      StartsInRange(n, attempts, k - 1);
      NextStart(n, attempts, k - 1);
    }
  }

  /** From one attempt to the next the cursor does not fall and at most one item is yielded again. */
  lemma OverlapAtMostOne(n: nat, attempts: seq<nat>, k: nat)
    requires k < |attempts|
    ensures Start(n, attempts, k) <= Start(n, attempts, k + 1) <= End(n, attempts, k) <= Start(n, attempts, k + 1) + 1
  {
    NextStart(n, attempts, k);
    StartsInRange(n, attempts, k);
  }

  /** Every item before the stored cursor has been yielded by some attempt. */
  lemma {:induction false} NothingSkipped(n: nat, attempts: seq<nat>, k: nat, i: nat) returns (which: nat)
    requires k <= |attempts| && i < Start(n, attempts, k)
    ensures which < k && Start(n, attempts, which) <= i < End(n, attempts, which)
  {
    NextStart(n, attempts, k - 1);
    OverlapAtMostOne(n, attempts, k - 1);
    if i < Start(n, attempts, k - 1) {
      which := NothingSkipped(n, attempts, k - 1, i);
    } else {
      which := k - 1;
    }
  }

  /** An attempt that saw the end of a nonempty iterator leaves the cursor at the number of items, and only
      such an attempt does (unless it already started there). */
  lemma EndLeavesTheCount(n: nat, attempts: seq<nat>, k: nat)
    requires k < |attempts| && n > 0 && Start(n, attempts, k) < n
    ensures Start(n, attempts, k + 1) == n <==> attempts[k] > n - Start(n, attempts, k)
  {
    NextStart(n, attempts, k);
  }

  /** Later attempts find nothing left. */
  lemma {:induction false} DoneStaysDone(n: nat, attempts: seq<nat>, j: nat, k: nat)
    requires j <= k < |attempts| && Start(n, attempts, j) == n
    ensures Start(n, attempts, k) == n && Yields(Start(n, attempts, k), n, attempts[k]) == 0
  {
    if j < k {
      DoneStaysDone(n, attempts, j, k - 1);
      NextStart(n, attempts, k - 1);
    }
  }

  // ---- from one attempt to the next ----

  /** The stored state read as progress. */
  function ProgressIn(read: Json -> JobProgress, state: Option<Json>): Option<JobProgress> {
    match state case None => None case Some(json) => Some(read(json))
  }

  function StateAfter(state: Option<Json>, step: Step, id: JobId): Option<Json> {
    match step
    case SetStateStep(x, json) => if x == id then Some(json) else state
    case BeginStep(_, x, resume) => if x == id && !resume then None else state
    case _ => state
  }

  /** Only `update_state`, a start without resume and a new enqueue change a job's stored state: success and
      kill end the job, and failure, retry, poll, dequeue and recovery keep it. */
  lemma StateStep(m: Machine, step: Step, id: JobId)
    requires Inv(m) && Allowed(m, step) && !Timing.Brings(m, step, id)
    ensures var jobs := Apply(m, step).store.jobs;
            id in jobs ==>
              id in m.store.jobs && jobs[id].meta.state == StateAfter(m.store.jobs[id].meta.state, step, id)
  {
    HeldIsStored(m.store);
    if step.EnqueueStep? {
      EnqueueWrites(m.store, step.env, step.dest);
    } else if step.EnqueueManyStep? {
      Timing.EnqueueEachLeavesJob(m.store, step.envs, step.dest, id);
    } else if step.ReviveStep? {
      ReviveIsEnqueue(m.store.(dead := []), m.store.dead);
      Timing.EnqueueEachLeavesJob(m.store.(dead := []), ParsedOf(m.store.dead), ToQueue, id);
    } else if step.ResurrectStep? {
      NoDupProcessing(m.store, step.pid);
      Moves.ResurrectEachMeans(m.store.(processing := m.store.processing - {step.pid}),
        ListAt(m.store.processing, step.pid));
    }
  }

  /** No step of the run writes, clears or replaces the job's state. */
  ghost predicate LeavesState(m: Machine, steps: seq<Step>, id: JobId)
    requires Inv(m) && RunAllowed(m, steps)
    decreases |steps|
  {
    steps == [] ||
    (!Timing.Brings(m, steps[0], id) && !(steps[0].SetStateStep? && steps[0].id == id)
     && !(steps[0].BeginStep? && steps[0].id == id)
     && (StepKeepsInv(m, steps[0]); LeavesState(Apply(m, steps[0]), steps[1..], id)))
  }

  lemma {:induction false} StateSurvives(m: Machine, steps: seq<Step>, id: JobId)
    requires Inv(m) && RunAllowed(m, steps) && LeavesState(m, steps, id)
    ensures var jobs := Run(m, steps).store.jobs;
            id in jobs ==> id in m.store.jobs && jobs[id].meta.state == m.store.jobs[id].meta.state
    decreases |steps|
  {
    if steps != [] {
      StateStep(m, steps[0], id);
      StepKeepsInv(m, steps[0]);
      StateSurvives(Apply(m, steps[0]), steps[1..], id);
    }
  }

  /** Between two attempts, over any run in which nobody else writes the job's state, the next attempt finds
      the cursor that the last one stored if and only if it resumes or there was no progress to lose. */
  lemma NextAttemptFindsTheCursor(m: Machine, steps: seq<Step>, pid: ProcessId, id: JobId, resume: bool,
                                  read: Json -> JobProgress)
    requires Inv(m) && RunAllowed(m, steps) && LeavesState(m, steps, id) && id in m.store.jobs
    requires Allowed(Run(m, steps), BeginStep(pid, id, resume))
    ensures var stored := CursorOf(ProgressIn(read, m.store.jobs[id].meta.state));
            var begun := Apply(Run(m, steps), BeginStep(pid, id, resume));
            && id in begun.store.jobs && id in begun.memory
            && begun.memory[id].meta.state == begun.store.jobs[id].meta.state
            && (CursorOf(ProgressIn(read, begun.store.jobs[id].meta.state)) == stored <==> resume || stored == 0)
  {
    StateSurvives(m, steps, id);
    RunKeepsInv(m, steps);
    HeldIsStored(Run(m, steps).store);
  }
}
