/** The storage layer as it runs: methods that issue Redis commands against the shared store,
    each proved equal to its specification in module `Store`. */
module Storage {
  import opened Redis
  import opened Envelope
  import opened S = Store
  import Bulk
  import Claims
  import DeadList
  import Lifecycle
  import Moves
  import Resurrection

  class StorageInternal {
    const pid: ProcessId
    var jobs: map<JobId, JobEnvelope>
    var queues: map<QueueName, seq<JobId>>
    var processing: map<ProcessId, seq<JobId>>
    var schedule: map<JobId, int>
    var retry: map<JobId, int>
    var dead: seq<DeadEntry>

    constructor (pid: ProcessId)
      ensures this.pid == pid && State() == EMPTY
    {
      this.pid := pid;
      jobs, queues, processing, schedule, retry, dead := map[], map[], map[], map[], map[], [];
    }

    ghost function State(): Store
      reads this
    {
      Store(jobs, queues, processing, schedule, retry, dead)
    }

    /** Sends a pipeline: the commands run in order. */
    method Query(pipe: seq<Bulk.Command>)
      modifies this
      ensures State() == Bulk.ExecAll(old(State()), pipe)
    {
      var i := 0;
      while i < |pipe|
        invariant 0 <= i <= |pipe|
        invariant State() == Bulk.ExecAll(old(State()), pipe[..i])
      {
        match pipe[i] {
          case HSet(e) => jobs := jobs[e.id := e];
          case PushHead(q, id) => queues := LPush(queues, q, id);
          case ZAddSchedule(id, score) => schedule := schedule[id := score];
          case ZRemSchedule(id) => schedule := schedule - {id};
          case ZRemRetry(id) => retry := retry - {id};
          case LRem(q, id) => queues := SetList(queues, q, RemoveAll(ListAt(queues, q), id));
        }
        Bulk.ExecAllSnoc(old(State()), pipe[..i], pipe[i]);
        assert pipe[..i + 1] == pipe[..i] + [pipe[i]];
        i := i + 1;
      }
      assert pipe[..i] == pipe;
    }

    method EnqueueOne(e: JobEnvelope, dest: Destination) returns (id: JobId)
      modifies this
      ensures State() == Enqueue(old(State()), e, dest)
      ensures id == e.id
    {
      var action := ActionFor(jobs, e);
      Bulk.CommandsDoTheEnqueue(State(), e, dest);
      if action != SkipJob {
        Query(Bulk.CommandsFor(action, e, dest));
      }
      id := e.id;
    }

    /** Bulk enqueue: commands are deferred to the end of a chunk, and conflicts with envelopes
        earlier in the list are found in `staged`, not in the store. */
    method EnqueueList(es: seq<JobEnvelope>, dest: Destination, chunkSize: nat) returns (ids: seq<JobId>)
      requires chunkSize > 0
      requires Bulk.IdSpacesApart(es)
      modifies this
      ensures State() == EnqueueEach(old(State()), es, dest)
      ensures AreIdsOf(ids, es)
    {
      ids := [];
      var staged: map<JobId, QueueName> := map[];
      ghost var start := State();
      var i := 0;
      while i < |es|
        invariant 0 <= i <= |es|
        invariant State() == EnqueueEach(start, es[..i], dest)
        invariant Bulk.Tracks(staged, jobs, jobs, es[..i])
        invariant |ids| == i && forall k :: 0 <= k < i ==> ids[k] == es[k].id
      {
        var chunkEnd := if i + chunkSize <= |es| then i + chunkSize else |es|;
        var pipe;
        pipe, staged, ids := Bulk.StageChunk(start, State(), jobs, es, i, chunkEnd, dest, staged, ids);
        Bulk.TracksAfterFlush(staged, jobs, Bulk.ExecAll(State(), pipe).jobs, es[..chunkEnd]);
        if pipe != [] {
          Query(pipe);
        }
        i := chunkEnd;
      }
      assert es[..i] == es;
    }

    method EnqueueAtTime(e: JobEnvelope, now: int) returns (id: JobId)
      modifies this
      ensures State() == EnqueueAt(old(State()), e, now)
      ensures id == e.id
    {
      if e.meta.scheduledAt <= now {
        id := EnqueueOne(e, ToQueue);
      } else {
        id := EnqueueOne(e, ToSchedule);
      }
    }

    /** A delay of zero enqueues at once; otherwise the time is set first. */
    method EnqueueIn(e: JobEnvelope, delay: nat, now: int) returns (id: JobId)
      modifies this
      ensures delay == 0 ==> State() == Enqueue(old(State()), e, ToQueue)
      ensures delay > 0 ==>
                var later := e.(meta := e.meta.(scheduledAt := now + 1_000_000 * delay));
                State() == Enqueue(old(State()), later, ToSchedule)
      ensures delay > 0 && LetIn(old(State()), e) ==> e.id in schedule && schedule[e.id] == now + 1_000_000 * delay
      ensures id == e.id
    {
      if delay == 0 {
        id := EnqueueOne(e, ToQueue);
      } else {
        ghost var later := e.(meta := e.meta.(scheduledAt := now + 1_000_000 * delay));
        assert WithScheduledAt(e, now + delay * MICROS_PER_SECOND, now) == later;
        ConflictRule(State(), later, ToSchedule);
        id := EnqueueAtTime(WithScheduledAt(e, now + delay * MICROS_PER_SECOND, now), now);
      }
    }

    // ---- running ----

    method DequeueOne(q: QueueName) returns (id: Option<JobId>)
      modifies this
      ensures State() == Dequeue(old(State()), pid, q)
      ensures id.Some? ==> ListAt(processing, pid) == [id.value] + ListAt(old(processing), pid)
      ensures var line := ListAt(old(queues), q);
              id == if line == [] then None else Some(line[|line| - 1])
    {
      var l := ListAt(queues, q);
      if l == [] {
        return None;
      }
      queues := SetList(queues, q, l[..|l| - 1]);
      processing := LPush(processing, pid, l[|l| - 1]);
      id := Some(l[|l| - 1]);
    }

    method UpdateJobState(id: JobId, state: Json) returns (found: bool)
      modifies this
      ensures found == (id in old(jobs))
      ensures State() ==
                if found then StoreEnvelope(old(State()), WithState(old(jobs)[id], Some(state))) else old(State())
      ensures found && old(jobs)[id].id == id ==>
                jobs == old(jobs)[id := old(jobs)[id].(meta := old(jobs)[id].meta.(state := Some(state)))]
    {
      found := id in jobs;
      if found {
        var e := WithState(jobs[id], Some(state));
        jobs := jobs[e.id := e];
      }
    }

    method SetStartedAt(e: JobEnvelope, now: int) returns (started: JobEnvelope)
      modifies this
      ensures started == WithStartedAt(e, now) && State() == StoreEnvelope(old(State()), started)
    {
      started := WithStartedAt(e, now);
      jobs := jobs[started.id := started];
    }

    method FinishWithSuccess(e: JobEnvelope)
      modifies this
      ensures State() == FinishSuccess(old(State()), pid, e)
      ensures e.id !in jobs
      ensures multiset(ListAt(processing, pid)) == multiset(ListAt(old(processing), pid)) - multiset{e.id}
    {
      RemoveFirstTakesOne(ListAt(processing, pid), e.id);
      jobs := jobs - {e.id};
      processing := SetList(processing, pid, RemoveFirst(ListAt(processing, pid), e.id));
    }

    method UnprocessAll(es: seq<JobEnvelope>)
      modifies this
      ensures State() == UnprocessEach(old(State()), pid, es)
    {
      var i := 0;
      while i < |es|
        invariant 0 <= i <= |es|
        invariant State() == UnprocessEach(old(State()), pid, es[..i])
      {
        UnprocessEachSnoc(old(State()), pid, es[..i], es[i]);
        assert es[..i + 1] == es[..i] + [es[i]];
        FinishWithFailure(es[i]);
        i := i + 1;
      }
      assert es[..i] == es;
    }

    method FinishWithSuccessBatch(es: seq<JobEnvelope>)
      modifies this
      ensures State() == FinishSuccessBatch(old(State()), pid, es)
    {
      if es == [] {
        assert jobs - IdSet(es) == jobs;
        return;
      }
      jobs := jobs - IdSet(es);
      UnprocessAll(es);
    }

    method FinishWithFailure(e: JobEnvelope)
      modifies this
      ensures State() == Unprocess(old(State()), pid, e.id)
      ensures multiset(ListAt(processing, pid)) == multiset(ListAt(old(processing), pid)) - multiset{e.id}
    {
      RemoveFirstTakesOne(ListAt(processing, pid), e.id);
      processing := SetList(processing, pid, RemoveFirst(ListAt(processing, pid), e.id));
    }

    method RetryJobIn(id: JobId, delay: nat, error: string, now: int) returns (found: bool)
      modifies this
      ensures found == (id in old(jobs)) && State() == RetryIn(old(State()), id, delay, error, now)
      ensures found && old(jobs)[id].id == id ==>
                && retry == old(retry)[id := now + 1_000_000 * delay]
                && jobs == old(jobs)[id := old(jobs)[id].(meta := old(jobs)[id].meta.(
                     id := id, retries := old(jobs)[id].meta.retries + 1, startedAt := None, error := Some(error)))]
    {
      found := id in jobs;
      if found {
        var e := WithRetriesIncremented(jobs[id], error);
        jobs := jobs[e.id := e];
        retry := retry[e.id := now + delay * MICROS_PER_SECOND];
      }
    }

    method KillJob(e: JobEnvelope, error: string)
      modifies this
      ensures State() == Kill(old(State()), pid, e, error)
      ensures e.id !in jobs && |dead| <= 1000
      ensures dead <= [Parsed(e.(meta := e.meta.(error := Some(error))))] + old(dead)
    {
      processing := SetList(processing, pid, RemoveFirst(ListAt(processing, pid), e.id));
      jobs := jobs - {e.id};
      dead := Take([Parsed(WithError(e, error))] + dead, DEAD_LIMIT);
    }

    /** The executor's decision after a failure or a panic. */
    method HandleError(e: JobEnvelope, error: string, delay: nat, maxRetries: nat, now: int)
      modifies this
      ensures State() == HandleErr(old(State()), pid, e, error, delay, maxRetries, now)
    {
      if e.meta.retries < maxRetries {
        FinishWithFailure(e);
        var _ := RetryJobIn(e.id, delay, error, now);
      } else {
        KillJob(e, error);
      }
    }

    // ---- polling ----

    /** Claims the ids it can, reads their envelopes, and pushes each onto its queue. */
    method ClaimAndEnqueueIds(z: DelaySet, ids: seq<JobId>) returns (count: nat)
      modifies this
      ensures State() == ClaimAndEnqueue(old(State()), z, ids)
      ensures count == |GetMany(old(jobs), Claimable(ids, Members(old(State()), z)))|
    {
      var members := if z == ScheduleSet then schedule else retry;
      var claimed, rest := Claims.ClaimIds(members, ids);
      if z == ScheduleSet {
        schedule := rest;
      } else {
        retry := rest;
      }
      var envs := GetMany(jobs, claimed);
      count := |envs|;
      queues := Claims.PushGroups(queues, envs);
    }

    /** `due` is the reply of ZRANGEBYSCORE from 0 to `now`. */
    method EnqueueScheduled(z: DelaySet, due: seq<JobId>, now: int) returns (count: nat)
      requires IsDueReply(due, Members(State(), z), now)
      modifies this
      ensures State() == ClaimAndEnqueue(old(State()), z, due)
      ensures count == |GetMany(old(jobs), due)|
    {
      Moves.ClaimableOfMembers(due, Members(State(), z));
      count := ClaimAndEnqueueIds(z, due);
    }

    /** `all` is the reply of ZRANGE over the whole retry set. */
    method RetryAllNow(all: seq<JobId>) returns (count: nat)
      requires IsFullReply(all, retry)
      modifies this
      ensures State() == ClaimAndEnqueue(old(State()), RetrySet, all)
      ensures count == |GetMany(old(jobs), all)|
    {
      Moves.ClaimableOfMembers(all, retry);
      count := ClaimAndEnqueueIds(RetrySet, all);
    }

    // ---- wiping ----

    method Wipe(q: QueueName)
      modifies this
      ensures State() == WipeQueue(old(State()), q)
    {
      var ids := ListAt(queues, q);
      jobs := jobs - ToSet(ids);
      queues := queues - {q};
    }

    method WipeDead()
      modifies this
      ensures State() == old(State()).(dead := [])
    {
      dead := [];
    }

    // ---- reviving ----

    /** `fails` says at which entries the enqueue returns an error. The whole list is claimed first; at
        the first error that entry and everything after it go back. */
    method ReviveAllDead(fails: set<nat>) returns (revived: nat, failedAt: Option<nat>)
      modifies this
      ensures var entries := old(dead);
              match failedAt
              case None =>
                && State() == ReviveEach(old(State()).(dead := []), entries)
                && (forall k :: 0 <= k < |entries| && entries[k].Parsed? ==> k !in fails)
              case Some(k) =>
                && k < |entries| && entries[k].Parsed? && k in fails
                && (forall j :: 0 <= j < k && entries[j].Parsed? ==> j !in fails)
                && State() == ReviveEach(old(State()).(dead := []), entries[..k]).(dead := entries[k..])
      ensures var handled := match failedAt case None => |old(dead)| case Some(k) => k;
              revived == |Lifecycle.ParsedOf(Take(old(dead), handled))|
    {
      var entries := dead;
      dead := [];
      ghost var start := State();
      revived := 0;
      var i := 0;
      while i < |entries|
        invariant 0 <= i <= |entries|
        invariant State() == ReviveEach(start, entries[..i]) && dead == []
        invariant revived == |Lifecycle.ParsedOf(entries[..i])|
        invariant forall j :: 0 <= j < i && entries[j].Parsed? ==> j !in fails
      {
        DeadList.ReviveSnoc(start, entries[..i], entries[i]);
        assert entries[..i + 1] == entries[..i] + [entries[i]];
        match entries[i] {
          case Unparseable(_) =>
          case Parsed(e) =>
            if i in fails {
              dead := dead + entries[i..];
              failedAt := Some(i);
              return;
            }
            EnqueueWrites(State(), e, ToQueue);
            var _ := EnqueueOne(e, ToQueue);
            revived := revived + 1;
        }
        i := i + 1;
      }
      assert entries[..i] == entries;
      failedAt := None;
    }

    // ---- resurrection ----

    /** Handles ids popped from a dead process's list, one at a time. */
    method ResurrectIds(ids: seq<JobId>) returns (requeued: seq<JobId>, dropped: seq<JobId>, unknown: seq<JobId>)
      modifies this
      ensures State() == ResurrectEach(old(State()), ids)
      ensures requeued == Resurrection.WithFate(old(State()), ids, Resurrection.Requeued)
      ensures dropped == Resurrection.WithFate(old(State()), ids, Resurrection.Dropped)
      ensures unknown == Resurrection.WithFate(old(State()), ids, Resurrection.Unknown)
      ensures forall x :: multiset(ids)[x] == multiset(requeued)[x] + multiset(dropped)[x] + multiset(unknown)[x]
    {
      requeued, dropped, unknown := [], [], [];
      ghost var start := State();
      var i := 0;
      while i < |ids|
        invariant 0 <= i <= |ids|
        invariant State() == ResurrectEach(start, ids[..i])
        invariant requeued == Resurrection.WithFate(start, ids[..i], Resurrection.Requeued)
        invariant dropped == Resurrection.WithFate(start, ids[..i], Resurrection.Dropped)
        invariant unknown == Resurrection.WithFate(start, ids[..i], Resurrection.Unknown)
      {
        var id := ids[i];
        Resurrection.ResurrectNext(start, ids, i);
        Resurrection.FateNext(start, ids, i, Resurrection.Requeued);
        Resurrection.FateNext(start, ids, i, Resurrection.Dropped);
        Resurrection.FateNext(start, ids, i, Resurrection.Unknown);
        if id !in jobs {
          unknown := unknown + [id];
        } else if jobs[id].meta.resurrect {
          queues := LPush(queues, jobs[id].queue, jobs[id].id);
          requeued := requeued + [id];
        } else {
          jobs := jobs - {jobs[id].id};
          dropped := dropped + [id];
        }
        i := i + 1;
      }
      assert ids[..i] == ids;
      forall x ensures multiset(ids)[x] == multiset(requeued)[x] + multiset(dropped)[x] + multiset(unknown)[x] {
        Resurrection.EveryIdHasAFate(start, ids, x);
      }
    }

    /** LPOP 10, and what comes of the ids it yields. */
    method ResurrectPortion(p: ProcessId) returns (count: nat)
      modifies this
      ensures var l := ListAt(old(processing), p);
              && count == (if |l| <= 10 then |l| else 10)
              && State() == ResurrectEach(old(State()).(processing := SetList(old(processing), p, l[count..])),
                   l[..count])
              && processing == SetList(old(processing), p, l[count..])
    {
      var l := ListAt(processing, p);
      var ids := Take(l, Resurrection.POP_COUNT);
      count := |ids|;
      assert ids == l[..count];
      processing := SetList(processing, p, l[count..]);
      Resurrection.ResurrectIgnoresProcessing(State(), ids, processing);
      var _, _, _ := ResurrectIds(ids);
    }

    /** Portions until the list is empty. */
    method ResurrectProcess(p: ProcessId) returns (count: nat)
      modifies this
      ensures State() == if ListAt(old(processing), p) == [] then old(State()) else Resurrect(old(State()), p)
      ensures count == |ListAt(old(processing), p)|
    {
      ghost var start := State();
      ghost var all := ListAt(processing, p);
      count := 0;
      assert start == ResurrectEach(start, all[..0]).(processing := processing);
      while ListAt(processing, p) != []
        invariant count <= |all| && ListAt(processing, p) == all[count..]
        invariant processing == if count == 0 then start.processing else SetList(start.processing, p, all[count..])
        invariant State() == ResurrectEach(start, all[..count]).(processing := processing)
        decreases |ListAt(processing, p)|
      {
        ghost var left := ListAt(processing, p);
        var k := ResurrectPortion(p);
        Resurrection.NextPortion(start, all, count, k, SetList(start.processing, p, all[count + k..]));
        assert left[k..] == all[count + k..] && left[..k] == all[count..count + k];
        count := count + k;
      }
      assert all[..count] == all;
      Resurrection.ResurrectIgnoresProcessing(start, all, start.processing - {p});
    }
  }
}
