/** Bulk enqueue: the commands an enqueue puts in a pipeline, and why deferring them to the end of
    a chunk changes nothing. */
module Bulk {
  import opened Redis
  import opened Envelope
  import opened S = Store

  datatype Command =
    | HSet(env: JobEnvelope)
    | PushHead(queue: QueueName, id: JobId)
    | ZAddSchedule(id: JobId, score: int)
    | ZRemSchedule(id: JobId)
    | ZRemRetry(id: JobId)
    | LRem(queue: QueueName, id: JobId)

  function Exec(s: Store, c: Command): Store {
    match c
    case HSet(e) => StoreEnvelope(s, e)
    case PushHead(q, id) => s.(queues := LPush(s.queues, q, id))
    case ZAddSchedule(id, score) => s.(schedule := s.schedule[id := score])
    case ZRemSchedule(id) => s.(schedule := s.schedule - {id})
    case ZRemRetry(id) => s.(retry := s.retry - {id})
    case LRem(q, id) => DropFromQueue(s, q, id)
  }

  function ExecAll(s: Store, pipe: seq<Command>): Store
    decreases |pipe|
  {
    if pipe == [] then s else Exec(ExecAll(s, pipe[..|pipe| - 1]), pipe[|pipe| - 1])
  }

  function PushCommand(e: JobEnvelope, dest: Destination): Command {
    match dest
    case ToQueue => PushHead(e.queue, e.id)
    case ToSchedule => ZAddSchedule(e.id, e.meta.scheduledAt)
  }

  function EnqueueCommands(e: JobEnvelope, dest: Destination): seq<Command> {
    [HSet(e), PushCommand(e, dest)]
  }

  function ReplaceCommands(existingQueue: QueueName, e: JobEnvelope, dest: Destination): seq<Command> {
    [HSet(e), ZRemSchedule(e.id), ZRemRetry(e.id), LRem(existingQueue, e.id)]
    + (if existingQueue != e.queue then [LRem(e.queue, e.id)] else [])
    + [PushCommand(e, dest)]
  }

  function CommandsFor(action: EnqueueAction, e: JobEnvelope, dest: Destination): seq<Command> {
    match action
    case SkipJob => []
    case Default => EnqueueCommands(e, dest)
    case ReplaceJob(existingQueue) => ReplaceCommands(existingQueue, e, dest)
  }

  /** The conflict decision of bulk enqueue: envelopes staged earlier in the list come first. */
  function ListAction(staged: map<JobId, QueueName>, jobs: map<JobId, JobEnvelope>, e: JobEnvelope): EnqueueAction {
    if !e.meta.unique then Default
    else if e.id !in staged then ActionFor(jobs, e)
    else if e.meta.onConflict == Some(Replace) then ReplaceJob(staged[e.id])
    else SkipJob
  }

  lemma ExecAllSnoc(s: Store, pipe: seq<Command>, c: Command)
    ensures ExecAll(s, pipe + [c]) == Exec(ExecAll(s, pipe), c)
  {
    assert (pipe + [c])[..|pipe|] == pipe;
  }

  lemma {:induction false} ExecAllAppend(s: Store, a: seq<Command>, b: seq<Command>)
    ensures ExecAll(s, a + b) == ExecAll(ExecAll(s, a), b)
    decreases |b|
  {
    if b == [] {
      assert a + b == a;
    } else {
      var n := |b| - 1;
      assert a + b == (a + b[..n]) + [b[n]];
      ExecAllSnoc(s, a + b[..n], b[n]);
      ExecAllAppend(s, a, b[..n]);
      assert b == b[..n] + [b[n]];
      ExecAllSnoc(ExecAll(s, a), b[..n], b[n]);
    }
  }

  lemma {:induction false} EnqueueEachSnoc(s: Store, es: seq<JobEnvelope>, e: JobEnvelope, dest: Destination)
    ensures EnqueueEach(s, es + [e], dest) == Enqueue(EnqueueEach(s, es, dest), e, dest)
    decreases |es|
  {
    if es != [] {
      assert (es + [e])[0] == es[0] && (es + [e])[1..] == es[1..] + [e];
      EnqueueEachSnoc(Enqueue(s, es[0], dest), es[1..], e, dest);
    }
  }

  lemma ExecReplace(s: Store, q: QueueName, e: JobEnvelope, dest: Destination)
    ensures ExecAll(s, ReplaceCommands(q, e, dest)) == Push(Unplace(StoreEnvelope(s, e), q, e), e, dest)
  {
    var c1 := [HSet(e)];
    var c2 := c1 + [ZRemSchedule(e.id)];
    var c3 := c2 + [ZRemRetry(e.id)];
    var c4 := c3 + [LRem(q, e.id)];
    var c5 := if q != e.queue then c4 + [LRem(e.queue, e.id)] else c4;
    assert c1 == [] + [HSet(e)];
    ExecAllSnoc(s, [], HSet(e));
    ExecAllSnoc(s, c1, ZRemSchedule(e.id));
    ExecAllSnoc(s, c2, ZRemRetry(e.id));
    ExecAllSnoc(s, c3, LRem(q, e.id));
    ExecAllSnoc(s, c4, LRem(e.queue, e.id));
    ExecAllSnoc(s, c5, PushCommand(e, dest));
    assert ReplaceCommands(q, e, dest) == c5 + [PushCommand(e, dest)];
  }

  /** The pipelined commands have the effect that `Enqueue` states. */
  lemma CommandsDoTheEnqueue(s: Store, e: JobEnvelope, dest: Destination)
    ensures ExecAll(s, CommandsFor(ActionFor(s.jobs, e), e, dest)) == Enqueue(s, e, dest)
  {
    match ActionFor(s.jobs, e)
    case SkipJob =>
    case Default =>
      ExecAllSnoc(s, [], HSet(e));
      ExecAllSnoc(s, [HSet(e)], PushCommand(e, dest));
      assert EnqueueCommands(e, dest) == ([] + [HSet(e)]) + [PushCommand(e, dest)];
    case ReplaceJob(q) =>
      ExecReplace(s, q, e, dest);
  }

  ghost predicate PlainIn(es: seq<JobEnvelope>, id: JobId) {
    exists i :: 0 <= i < |es| && es[i].id == id && !es[i].meta.unique
  }

  /** No unique envelope carries the id of an earlier envelope that is not unique. Ids made by the
      library satisfy this: unique ones are `name/unique_id`, the others are UUIDs. */
  ghost predicate IdSpacesApart(es: seq<JobEnvelope>) {
    forall i, j :: 0 <= i < j < |es| && !es[i].meta.unique && es[j].meta.unique ==> es[i].id != es[j].id
  }

  /** What holds between two envelopes of the list: `jobs` is what the store answers now, `later`
      what it will hold once the deferred commands have run, `done` the envelopes handled so far. */
  ghost predicate Tracks(staged: map<JobId, QueueName>, jobs: map<JobId, JobEnvelope>,
                         later: map<JobId, JobEnvelope>, done: seq<JobEnvelope>) {
    && (forall id :: id in staged ==> id in later && (PlainIn(done, id) || later[id].queue == staged[id]))
    && (forall id :: id !in staged && !PlainIn(done, id) ==>
          (id in jobs <==> id in later) && (id in later ==> jobs[id] == later[id]))
  }

  function Stage(staged: map<JobId, QueueName>, action: EnqueueAction, e: JobEnvelope): map<JobId, QueueName> {
    if e.meta.unique && action != SkipJob then staged[e.id := e.queue] else staged
  }

  lemma PlainInSnoc(es: seq<JobEnvelope>, e: JobEnvelope, id: JobId)
    ensures PlainIn(es + [e], id) <==> PlainIn(es, id) || (e.id == id && !e.meta.unique)
  {
    var all := es + [e];
    assert all[|es|] == e;
    if PlainIn(es, id) {
      var i :| 0 <= i < |es| && es[i].id == id && !es[i].meta.unique;
      assert all[i] == es[i];
    }
  }

  /** Looking in `staged` first finds the action that enqueueing one by one would take. */
  lemma StagedDecision(staged: map<JobId, QueueName>, jobs: map<JobId, JobEnvelope>, later: map<JobId, JobEnvelope>,
                       done: seq<JobEnvelope>, e: JobEnvelope)
    requires Tracks(staged, jobs, later, done)
    requires e.meta.unique ==> !PlainIn(done, e.id)
    ensures ListAction(staged, jobs, e) == ActionFor(later, e)
    ensures Tracks(Stage(staged, ListAction(staged, jobs, e), e), jobs,
                   if ActionFor(later, e) == SkipJob then later else later[e.id := e], done + [e])
  {
    forall id ensures PlainIn(done + [e], id) <==> PlainIn(done, id) || (e.id == id && !e.meta.unique) {
      PlainInSnoc(done, e, id);
    }
  }

  /** Once the deferred commands have run, the store answers with what was expected of it. */
  lemma TracksAfterFlush(staged: map<JobId, QueueName>, jobs: map<JobId, JobEnvelope>, later: map<JobId, JobEnvelope>,
                         done: seq<JobEnvelope>)
    requires Tracks(staged, jobs, later, done)
    ensures Tracks(staged, later, later, done)
  {
  }

  /** One turn of the loop over a chunk. */
  lemma DeferOne(start: Store, now: Store, pipe: seq<Command>, staged: map<JobId, QueueName>,
                 es: seq<JobEnvelope>, i: nat, dest: Destination)
    requires i < |es| && IdSpacesApart(es)
    requires ExecAll(now, pipe) == EnqueueEach(start, es[..i], dest)
    requires Tracks(staged, now.jobs, ExecAll(now, pipe).jobs, es[..i])
    ensures var action := ListAction(staged, now.jobs, es[i]);
            var next := ExecAll(now, pipe + CommandsFor(action, es[i], dest));
            && next == EnqueueEach(start, es[..i + 1], dest)
            && Tracks(Stage(staged, action, es[i]), now.jobs, next.jobs, es[..i + 1])
  {
    var e, done := es[i], es[..i];
    assert e.meta.unique ==> !PlainIn(done, e.id);
    DeferNext(start, now, pipe, staged, done, e, dest);
    assert es[..i + 1] == done + [e];
  }

  lemma DeferNext(start: Store, now: Store, pipe: seq<Command>, staged: map<JobId, QueueName>,
                  done: seq<JobEnvelope>, e: JobEnvelope, dest: Destination)
    requires e.meta.unique ==> !PlainIn(done, e.id)
    requires ExecAll(now, pipe) == EnqueueEach(start, done, dest)
    requires Tracks(staged, now.jobs, ExecAll(now, pipe).jobs, done)
    ensures var action := ListAction(staged, now.jobs, e);
            var next := ExecAll(now, pipe + CommandsFor(action, e, dest));
            && next == EnqueueEach(start, done + [e], dest)
            && Tracks(Stage(staged, action, e), now.jobs, next.jobs, done + [e])
  {
    var later := ExecAll(now, pipe);
    var action := ListAction(staged, now.jobs, e);
    StagedDecision(staged, now.jobs, later.jobs, done, e);
    assert ExecAll(now, pipe + CommandsFor(action, e, dest)) == Enqueue(later, e, dest) by {
      CommandsDoTheEnqueue(later, e, dest);
      ExecAllAppend(now, pipe, CommandsFor(action, e, dest));
    }
    EnqueueWrites(later, e, dest);
    EnqueueEachSnoc(start, done, e, dest);
  }

  /** Defers the commands of one envelope. */
  method StageOne(ghost start: Store, ghost now: Store, jobs: map<JobId, JobEnvelope>, es: seq<JobEnvelope>, i: nat,
                  dest: Destination, before: seq<Command>, stagedBefore: map<JobId, QueueName>)
    returns (pipe: seq<Command>, staged: map<JobId, QueueName>)
    requires i < |es| && IdSpacesApart(es) && jobs == now.jobs
    requires Staging(start, now, es, i, dest, before, stagedBefore)
    ensures Staging(start, now, es, i + 1, dest, pipe, staged)
  {
    DeferOne(start, now, before, stagedBefore, es, i, dest);
    var action := ListAction(stagedBefore, jobs, es[i]);
    pipe := before + CommandsFor(action, es[i], dest);
    staged := Stage(stagedBefore, action, es[i]);
  }

  /** The pipeline, once run, will have enqueued the first `i` envelopes. */
  ghost predicate Staging(start: Store, now: Store, es: seq<JobEnvelope>, i: nat, dest: Destination,
                          pipe: seq<Command>, staged: map<JobId, QueueName>) {
    && i <= |es|
    && ExecAll(now, pipe) == EnqueueEach(start, es[..i], dest)
    && Tracks(staged, now.jobs, ExecAll(now, pipe).jobs, es[..i])
  }

  /** Builds the pipeline of one chunk. The commands are only deferred: every answer the store
      gives in the meantime comes from `jobs`. */
  method StageChunk(ghost start: Store, ghost now: Store, jobs: map<JobId, JobEnvelope>,
                    es: seq<JobEnvelope>, first: nat, chunkEnd: nat, dest: Destination,
                    stagedSoFar: map<JobId, QueueName>, idsSoFar: seq<JobId>)
    returns (pipe: seq<Command>, staged: map<JobId, QueueName>, ids: seq<JobId>)
    requires first <= chunkEnd <= |es| && IdSpacesApart(es)
    requires jobs == now.jobs && now == EnqueueEach(start, es[..first], dest)
    requires Tracks(stagedSoFar, jobs, jobs, es[..first])
    requires |idsSoFar| == first && forall k :: 0 <= k < first ==> idsSoFar[k] == es[k].id
    ensures ExecAll(now, pipe) == EnqueueEach(start, es[..chunkEnd], dest)
    ensures Tracks(staged, jobs, ExecAll(now, pipe).jobs, es[..chunkEnd])
    ensures |ids| == chunkEnd && forall k :: 0 <= k < chunkEnd ==> ids[k] == es[k].id
  {
    pipe, staged, ids := [], stagedSoFar, idsSoFar;
    var i := first;
    while i < chunkEnd
      invariant first <= i <= chunkEnd
      invariant Staging(start, now, es, i, dest, pipe, staged)
      invariant |ids| == i && forall k :: 0 <= k < i ==> ids[k] == es[k].id
    {
      pipe, staged := StageOne(start, now, jobs, es, i, dest, pipe, staged);
      ids := ids + [es[i].id];
      i := i + 1;
    }
  }

  /** Two envelopes deferred in one chunk. */
  function DeferPair(s: Store, e1: JobEnvelope, e2: JobEnvelope): Store {
    var first := ListAction(map[], s.jobs, e1);
    var second := ListAction(Stage(map[], first, e1), s.jobs, e2);
    ExecAll(s, CommandsFor(first, e1, ToQueue) + CommandsFor(second, e2, ToQueue))
  }

  lemma PairDefers(s: Store, e1: JobEnvelope, e2: JobEnvelope)
    requires IdSpacesApart([e1, e2])
    ensures DeferPair(s, e1, e2) == EnqueueEach(s, [e1, e2], ToQueue)
  {
    var first := ListAction(map[], s.jobs, e1);
    DeferNext(s, s, [], map[], [], e1, ToQueue);
    assert [] + CommandsFor(first, e1, ToQueue) == CommandsFor(first, e1, ToQueue) && [] + [e1] == [e1];
    assert e2.meta.unique ==> !PlainIn([e1], e2.id) by {
      assert [e1, e2][0] == e1 && [e1, e2][1] == e2;
    }
    DeferNext(s, s, CommandsFor(first, e1, ToQueue), Stage(map[], first, e1), [e1], e2, ToQueue);
    assert [e1] + [e2] == [e1, e2];
  }

  lemma PairByTurns(s: Store, e1: JobEnvelope, e2: JobEnvelope)
    ensures EnqueueEach(s, [e1, e2], ToQueue) == Enqueue(Enqueue(s, e1, ToQueue), e2, ToQueue)
  {
    assert [e1, e2][1..] == [e2] && [e2][1..] == [];
    assert EnqueueEach(Enqueue(s, e1, ToQueue), [e2], ToQueue)
        == EnqueueEach(Enqueue(Enqueue(s, e1, ToQueue), e2, ToQueue), [], ToQueue);
  }

  /** A plain job and then a unique one with its id: the second finds neither a staged nor a stored job. */
  lemma SharedIdPushesTwice(e1: JobEnvelope, e2: JobEnvelope)
    requires !e1.meta.unique && e2.meta.unique && e1.id == e2.id
    ensures DeferPair(EMPTY, e1, e2).queues == LPush(LPush(map[], e1.queue, e1.id), e2.queue, e2.id)
    ensures EnqueueEach(EMPTY, [e1, e2], ToQueue).queues != LPush(LPush(map[], e1.queue, e1.id), e2.queue, e2.id)
  {
    var s1 := Enqueue(EMPTY, e1, ToQueue);
    CommandsDoTheEnqueue(EMPTY, e1, ToQueue);
    ExecAllAppend(EMPTY, EnqueueCommands(e1, ToQueue), EnqueueCommands(e2, ToQueue));
    assert EnqueueCommands(e2, ToQueue) == [HSet(e2)] + [PushHead(e2.queue, e2.id)] && [HSet(e2)] == [] + [HSet(e2)];
    ExecAllSnoc(s1, [HSet(e2)], PushHead(e2.queue, e2.id));
    ExecAllSnoc(s1, [], HSet(e2));
    PairByTurns(EMPTY, e1, e2);
    var twice, folded := LPush(LPush(map[], e1.queue, e1.id), e2.queue, e2.id), Enqueue(s1, e2, ToQueue).queues;
    assert s1.queues == LPush(map[], e1.queue, e1.id) && ListAt(s1.queues, e1.queue) == [e1.id];
    if e1.queue == e2.queue {
      assert |ListAt(twice, e2.queue)| == 2 && |ListAt(folded, e2.queue)| == 1;
    } else if e2.meta.onConflict == Some(Replace) {
      assert ListAt(twice, e1.queue) == [e1.id] && ListAt(folded, e1.queue) == [];
    } else {
      assert ListAt(twice, e2.queue) == [e2.id] && ListAt(folded, e2.queue) == [];
    }
  }

  /** For two envelopes, whatever they are: deferring them in one chunk leaves what enqueueing one by one
      leaves, on every store, if and only if they are not a plain job followed by a unique one with its id. */
  lemma PairsAgreeIffApart(e1: JobEnvelope, e2: JobEnvelope)
    ensures (forall s :: DeferPair(s, e1, e2) == EnqueueEach(s, [e1, e2], ToQueue)) <==> IdSpacesApart([e1, e2])
  {
    if IdSpacesApart([e1, e2]) {
      forall s ensures DeferPair(s, e1, e2) == EnqueueEach(s, [e1, e2], ToQueue) {
        PairDefers(s, e1, e2);
      }
    } else {
      assert [e1, e2][0] == e1 && [e1, e2][1] == e2;
      SharedIdPushesTwice(e1, e2);
      assert DeferPair(EMPTY, e1, e2) != EnqueueEach(EMPTY, [e1, e2], ToQueue);
    }
  }
}
