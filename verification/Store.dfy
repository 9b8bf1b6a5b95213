/** The shared store as a value, and what each storage operation does to it. The class
    `Storage.StorageInternal` carries the operations out; these functions are its specification. */
module Store {
  import opened Redis
  import opened Envelope

  /** An entry of the dead list is JSON text: it parses as an envelope or it does not. */
  datatype DeadEntry = Parsed(env: JobEnvelope) | Unparseable(text: string)

  datatype Store = Store(
    jobs: map<JobId, JobEnvelope>,
    queues: map<QueueName, seq<JobId>>,
    processing: map<ProcessId, seq<JobId>>,
    schedule: map<JobId, int>,
    retry: map<JobId, int>,
    dead: seq<DeadEntry>)

  const EMPTY := Store(map[], map[], map[], map[], map[], [])
  const DEAD_LIMIT: nat := 1000

  datatype Destination = ToQueue | ToSchedule

  // ---- enqueueing ----

  datatype EnqueueAction = Default | SkipJob | ReplaceJob(existingQueue: QueueName)

  /** What a unique job that is already stored does to the enqueue. */
  function ActionFor(jobs: map<JobId, JobEnvelope>, e: JobEnvelope): EnqueueAction {
    if !e.meta.unique || e.id !in jobs then Default
    else if e.meta.onConflict == Some(Replace) then ReplaceJob(jobs[e.id].queue)
    else SkipJob
  }

  function Push(s: Store, e: JobEnvelope, dest: Destination): Store {
    match dest
    case ToQueue => s.(queues := LPush(s.queues, e.queue, e.id))
    case ToSchedule => s.(schedule := s.schedule[e.id := e.meta.scheduledAt])
  }

  /** LREM key 0 id. */
  function DropFromQueue(s: Store, q: QueueName, id: JobId): Store {
    s.(queues := SetList(s.queues, q, RemoveAll(ListAt(s.queues, q), id)))
  }

  function StoreEnvelope(s: Store, e: JobEnvelope): Store {
    s.(jobs := s.jobs[e.id := e])
  }

  /** Takes the id out of every waiting place the code looks at. */
  function Unplace(s: Store, oldQueue: QueueName, e: JobEnvelope): Store {
    var s1 := DropFromQueue(s.(schedule := s.schedule - {e.id}, retry := s.retry - {e.id}), oldQueue, e.id);
    if oldQueue != e.queue then DropFromQueue(s1, e.queue, e.id) else s1
  }

  function Enqueue(s: Store, e: JobEnvelope, dest: Destination): Store {
    match ActionFor(s.jobs, e)
    case SkipJob => s
    case Default => Push(StoreEnvelope(s, e), e, dest)
    case ReplaceJob(was) => Push(Unplace(StoreEnvelope(s, e), was, e), e, dest)
  }

  lemma EnqueueWrites(s: Store, e: JobEnvelope, dest: Destination)
    ensures Enqueue(s, e, dest).jobs == if ActionFor(s.jobs, e) == SkipJob then s.jobs else s.jobs[e.id := e]
    ensures Enqueue(s, e, dest).processing == s.processing && Enqueue(s, e, dest).dead == s.dead
  {
  }

  /** Whether the conflict rule lets this envelope in: a unique job that is stored is only replaced. */
  predicate LetIn(s: Store, e: JobEnvelope) {
    e.meta.unique && e.id in s.jobs ==> e.meta.onConflict == Some(Replace)
  }

  lemma PushedAtTheHead(s: Store, e: JobEnvelope, dest: Destination)
    ensures var s' := Push(s, e, dest);
            && (dest == ToQueue ==> ListAt(s'.queues, e.queue) == [e.id] + ListAt(s.queues, e.queue))
            && (dest == ToSchedule ==> e.id in s'.schedule && s'.schedule[e.id] == e.meta.scheduledAt)
  {
  }

  /** What is refused changes nothing. What is let in is stored as it is and waits at the head of its queue, or in
      the schedule at its time; running and dead jobs are not touched. */
  lemma ConflictRule(s: Store, e: JobEnvelope, dest: Destination)
    ensures var s' := Enqueue(s, e, dest);
            if !LetIn(s, e) then s' == s
            else
              && s'.jobs == s.jobs[e.id := e] && s'.processing == s.processing && s'.dead == s.dead
              && (dest == ToQueue ==> ListAt(s'.queues, e.queue) != [] && ListAt(s'.queues, e.queue)[0] == e.id)
              && (dest == ToSchedule ==> e.id in s'.schedule && s'.schedule[e.id] == e.meta.scheduledAt)
  {
    EnqueueWrites(s, e, dest);
    match ActionFor(s.jobs, e)
    case SkipJob =>
    case Default => PushedAtTheHead(StoreEnvelope(s, e), e, dest);
    case ReplaceJob(was) => PushedAtTheHead(Unplace(StoreEnvelope(s, e), was, e), e, dest);
  }

  /** A job that conflicts with nothing is added, and nothing else moves. */
  lemma AddsOnly(s: Store, e: JobEnvelope, dest: Destination)
    requires !e.meta.unique || e.id !in s.jobs
    ensures var s' := Enqueue(s, e, dest);
            && s'.retry == s.retry && (forall q :: q != e.queue ==> ListAt(s'.queues, q) == ListAt(s.queues, q))
            && (dest == ToQueue ==> ListAt(s'.queues, e.queue) == [e.id] + ListAt(s.queues, e.queue)
                                    && s'.schedule == s.schedule)
            && (dest == ToSchedule ==> s'.queues == s.queues && s'.schedule == s.schedule[e.id := e.meta.scheduledAt])
  {
  }

  /** Replace clears every waiting place it knows of, however often the id is there, before the new entry. */
  lemma ReplaceClears(s: Store, e: JobEnvelope, dest: Destination)
    requires e.meta.unique && e.id in s.jobs && e.meta.onConflict == Some(Replace)
    ensures var s', was := Enqueue(s, e, dest), s.jobs[e.id].queue;
            && e.id !in s'.retry && (dest == ToQueue ==> e.id !in s'.schedule)
            && (was != e.queue || dest == ToSchedule ==> e.id !in ListAt(s'.queues, was))
            && (dest == ToSchedule ==> e.id !in ListAt(s'.queues, e.queue))
            && (dest == ToQueue ==> e.id !in ListAt(s'.queues, e.queue)[1..])
  {
  }

  /** `enqueue` for each envelope in turn. */
  function EnqueueEach(s: Store, es: seq<JobEnvelope>, dest: Destination): Store
    decreases |es|
  {
    if es == [] then s else EnqueueEach(Enqueue(s, es[0], dest), es[1..], dest)
  }

  ghost predicate AreIdsOf(ids: seq<JobId>, es: seq<JobEnvelope>) {
    |ids| == |es| && forall i :: 0 <= i < |es| ==> ids[i] == es[i].id
  }

  /** A job whose time has come goes straight to its queue. */
  function EnqueueAt(s: Store, e: JobEnvelope, now: int): Store {
    Enqueue(s, e, if e.meta.scheduledAt <= now then ToQueue else ToSchedule)
  }

  /** A job for a requested time: a time that has passed means now, and the job goes straight to its queue; any
      other waits in the schedule until that time. */
  lemma RequestedTime(s: Store, e: JobEnvelope, at: int, now: int)
    requires LetIn(s, e)
    ensures var e', s' := WithScheduledAt(e, at, now), EnqueueAt(s, WithScheduledAt(e, at, now), now);
            && e' == e.(meta := e.meta.(scheduledAt := if at <= now then now else at)) && s'.jobs[e.id] == e'
            && (at <= now ==> ListAt(s'.queues, e.queue) != [] && ListAt(s'.queues, e.queue)[0] == e.id)
            && (at > now ==> e.id in s'.schedule && s'.schedule[e.id] == at)
  {
    ConflictRule(s, WithScheduledAt(e, at, now), if at <= now then ToQueue else ToSchedule);
  }

  // ---- running ----

  /** LMOVE queue processing RIGHT LEFT. */
  function Dequeue(s: Store, pid: ProcessId, q: QueueName): Store {
    var l := ListAt(s.queues, q);
    if l == [] then s
    else s.(queues := SetList(s.queues, q, l[..|l| - 1]),
            processing := LPush(s.processing, pid, l[|l| - 1]))
  }

  /** LREM processing 1 id. */
  function Unprocess(s: Store, pid: ProcessId, id: JobId): Store {
    s.(processing := SetList(s.processing, pid, RemoveFirst(ListAt(s.processing, pid), id)))
  }

  function FinishSuccess(s: Store, pid: ProcessId, e: JobEnvelope): Store {
    Unprocess(s.(jobs := s.jobs - {e.id}), pid, e.id)
  }

  function FinishSuccessBatch(s: Store, pid: ProcessId, es: seq<JobEnvelope>): Store {
    UnprocessEach(s.(jobs := s.jobs - IdSet(es)), pid, es)
  }

  function IdSet(es: seq<JobEnvelope>): set<JobId> {
    set e | e in es :: e.id
  }

  function UnprocessEach(s: Store, pid: ProcessId, es: seq<JobEnvelope>): Store
    decreases |es|
  {
    if es == [] then s else UnprocessEach(Unprocess(s, pid, es[0].id), pid, es[1..])
  }

  lemma {:induction false} UnprocessEachSnoc(s: Store, pid: ProcessId, es: seq<JobEnvelope>, e: JobEnvelope)
    ensures UnprocessEach(s, pid, es + [e]) == Unprocess(UnprocessEach(s, pid, es), pid, e.id)
    decreases |es|
  {
    if es != [] {
      assert (es + [e])[0] == es[0] && (es + [e])[1..] == es[1..] + [e];
      UnprocessEachSnoc(Unprocess(s, pid, es[0].id), pid, es[1..], e);
    }
  }

  const MICROS_PER_SECOND: int := 1_000_000

  /** `retry_in`: the stored envelope is read again, so state written during the attempt stays. */
  function RetryIn(s: Store, id: JobId, delay: nat, error: string, now: int): Store {
    if id !in s.jobs then s
    else
      var e := WithRetriesIncremented(s.jobs[id], error);
      s.(jobs := s.jobs[e.id := e], retry := s.retry[e.id := now + delay * MICROS_PER_SECOND])
  }

  function Kill(s: Store, pid: ProcessId, e: JobEnvelope, error: string): Store {
    Unprocess(s, pid, e.id).(jobs := s.jobs - {e.id},
                             dead := PushDead(s.dead, Parsed(WithError(e, error))))
  }

  /** LPUSH then LTRIM 0 999. */
  function PushDead(dead: seq<DeadEntry>, x: DeadEntry): seq<DeadEntry> {
    Take([x] + dead, DEAD_LIMIT)
  }

  /** The retry-or-kill decision; it looks at the envelope in memory, not at the stored one. */
  function HandleErr(s: Store, pid: ProcessId, e: JobEnvelope, error: string, delay: nat, maxRetries: nat,
                     now: int): Store
  {
    if e.meta.retries < maxRetries
    then RetryIn(Unprocess(s, pid, e.id), e.id, delay, error, now)
    else Kill(s, pid, e, error)
  }

  // ---- polling ----

  /** HMGET: the stored envelopes of the ids that still have one, in order. */
  function GetMany(jobs: map<JobId, JobEnvelope>, ids: seq<JobId>): seq<JobEnvelope> {
    if ids == [] then []
    else if ids[0] in jobs then [jobs[ids[0]]] + GetMany(jobs, ids[1..])
    else GetMany(jobs, ids[1..])
  }

  /** One LPUSH after another, each to the envelope's own queue. */
  function PushEach(queues: map<QueueName, seq<JobId>>, es: seq<JobEnvelope>): map<QueueName, seq<JobId>>
    decreases |es|
  {
    if es == [] then queues else PushEach(LPush(queues, es[0].queue, es[0].id), es[1..])
  }

  datatype DelaySet = ScheduleSet | RetrySet

  function Members(s: Store, z: DelaySet): map<JobId, int> {
    match z case ScheduleSet => s.schedule case RetrySet => s.retry
  }

  function WithMembers(s: Store, z: DelaySet, m: map<JobId, int>): Store {
    match z case ScheduleSet => s.(schedule := m) case RetrySet => s.(retry := m)
  }

  /** The members of `ids` that a ZREM for each of them removes. */
  function Claimable(ids: seq<JobId>, z: map<JobId, int>): (r: seq<JobId>)
    ensures forall id :: id in r ==> id in ids && id in z
  {
    if ids == [] then []
    else if ids[0] in z then [ids[0]] + Claimable(ids[1..], z - {ids[0]})
    else Claimable(ids[1..], z)
  }

  /** `claim_and_enqueue_scheduled_job_ids` without interference. */
  function ClaimAndEnqueue(s: Store, z: DelaySet, ids: seq<JobId>): Store {
    var claimed := Claimable(ids, Members(s, z));
    var s1 := WithMembers(s, z, Members(s, z) - ToSet(ids));
    s1.(queues := PushEach(s1.queues, GetMany(s.jobs, claimed)))
  }

  // ---- wiping, dead jobs, resurrection ----

  function WipeQueue(s: Store, q: QueueName): Store {
    s.(jobs := s.jobs - ToSet(ListAt(s.queues, q)), queues := s.queues - {q})
  }

  /** The entries of a claimed dead list, enqueued one after another. */
  function ReviveEach(s: Store, entries: seq<DeadEntry>): Store
    decreases |entries|
  {
    if entries == [] then s
    else if entries[0].Parsed? then ReviveEach(Enqueue(s, entries[0].env, ToQueue), entries[1..])
    else ReviveEach(s, entries[1..])
  }

  /** One id taken from a dead process's list: requeued, dropped, or unknown. */
  function ResurrectOne(s: Store, id: JobId): Store {
    if id !in s.jobs then s
    else if s.jobs[id].meta.resurrect then s.(queues := LPush(s.queues, s.jobs[id].queue, s.jobs[id].id))
    else s.(jobs := s.jobs - {s.jobs[id].id})
  }

  function ResurrectEach(s: Store, ids: seq<JobId>): Store
    decreases |ids|
  {
    if ids == [] then s else ResurrectEach(ResurrectOne(s, ids[0]), ids[1..])
  }

  /** Everything in the dead process's list, taken from the head. */
  function Resurrect(s: Store, pid: ProcessId): Store {
    ResurrectEach(s.(processing := s.processing - {pid}), ListAt(s.processing, pid))
  }
}
