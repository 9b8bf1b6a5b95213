/** What a batch does to each of its jobs: no job takes another one's policy or outcome, and the
    one-place invariant holds afterwards. */
module BatchOutcome {
  import opened Redis
  import opened Envelope
  import opened S = Store
  import opened Batcher
  import opened BatchRun
  import opened Whereabouts
  import opened Moves
  import opened Lifecycle
  import DeadList

  ghost predicate HeldEach(s: Store, pid: ProcessId, es: seq<JobEnvelope>) {
    forall k :: 0 <= k < |es| ==> Held(s, pid, es[k].id)
  }

  ghost predicate Has(es: seq<JobEnvelope>, id: JobId) {
    exists k :: 0 <= k < |es| && es[k].id == id
  }

  /** The two stores agree on everything about this id. */
  ghost predicate SameFor(s: Store, s': Store, pid: ProcessId, id: JobId) {
    && (id in s.jobs <==> id in s'.jobs) && (id in s.jobs ==> s.jobs[id] == s'.jobs[id])
    && (id in s.retry <==> id in s'.retry) && (id in s.retry ==> s.retry[id] == s'.retry[id])
    && (Held(s, pid, id) <==> Held(s', pid, id))
  }

  lemma SameForBoth(s: Store, s1: Store, s2: Store, pid: ProcessId, id: JobId)
    requires SameFor(s, s1, pid, id) && SameFor(s1, s2, pid, id)
    ensures SameFor(s, s2, pid, id)
  {
  }

  lemma UnprocessIsLocal(s: Store, pid: ProcessId, id: JobId, x: JobId)
    requires x != id
    ensures SameFor(s, Unprocess(s, pid, id), pid, x)
  {
    var l := ListAt(s.processing, pid);
    RemoveFirstTakesOne(l, id);
    assert multiset(l)[x] == multiset(RemoveFirst(l, id))[x];
  }

  lemma FailOneIsLocal(s: Store, pid: ProcessId, worker: Worker, outcome: Outcome, item: BatchItem, now: int, x: JobId)
    requires x != item.context.id && (item.context.id in s.jobs ==> s.jobs[item.context.id].id == item.context.id)
    ensures SameFor(s, FailOne(s, pid, worker, outcome, item, now), pid, x)
  {
    UnprocessIsLocal(s, pid, item.context.id, x);
  }

  lemma FailOneKeepsOnePlace(s: Store, pid: ProcessId, worker: Worker, outcome: Outcome, item: BatchItem, now: int)
    requires OnePlace(s) && Held(s, pid, item.context.id)
    ensures OnePlace(FailOne(s, pid, worker, outcome, item, now))
  {
    var w := SomePlaces(s);
    var e := item.context;
    if e.meta.retries < worker.maxRetries(item.payload) {
      RetryLocated(s, w, pid, e.id, DelayAfter(outcome, e, worker.retryDelay(item.payload, e.meta.retries)),
        MessageOf(outcome), now);
      LocatedIsOnePlace(FailOne(s, pid, worker, outcome, item, now), w[e.id := Retrying]);
    } else {
      KillLocated(s, w, pid, e, MessageOf(outcome));
      LocatedIsOnePlace(FailOne(s, pid, worker, outcome, item, now), w - {e.id});
    }
  }

  lemma {:induction false} FailEachKeeps(s: Store, pid: ProcessId, worker: Worker, outcome: Outcome,
                                         items: seq<BatchItem>, now: int)
    requires OnePlace(s) && HeldEach(s, pid, Contexts(items)) && DistinctIds(Contexts(items))
    ensures OnePlace(FailEach(s, pid, worker, outcome, items, now))
    ensures forall x :: !Has(Contexts(items), x) ==> SameFor(s, FailEach(s, pid, worker, outcome, items, now), pid, x)
  {
    if items != [] {
      var init, last := items[..|items| - 1], items[|items| - 1];
      var s1 := FailEach(s, pid, worker, outcome, init, now);
      InitOf(items);
      FailEachKeeps(s, pid, worker, outcome, init, now);
      assert SameFor(s, s1, pid, last.context.id);
      assert Held(s, pid, Contexts(items)[|items| - 1].id);
      FailOneKeepsOnePlace(s1, pid, worker, outcome, last, now);
      HeldIsStored(s1);
      forall x | !Has(Contexts(items), x)
        ensures SameFor(s, FailEach(s, pid, worker, outcome, items, now), pid, x)
      {
        assert Contexts(items)[|items| - 1].id != x;
        assert !Has(Contexts(init), x);
        FailOneIsLocal(s1, pid, worker, outcome, last, now, x);
      }
    }
  }

  lemma InitOf(items: seq<BatchItem>)
    requires items != [] && DistinctIds(Contexts(items))
    ensures DistinctIds(Contexts(items[..|items| - 1]))
            && !Has(Contexts(items[..|items| - 1]), items[|items| - 1].context.id)
    ensures forall s, pid :: HeldEach(s, pid, Contexts(items)) ==> HeldEach(s, pid, Contexts(items[..|items| - 1]))
    ensures forall x :: !Has(Contexts(items), x) ==> !Has(Contexts(items[..|items| - 1]), x)
  {
    var all, init := Contexts(items), Contexts(items[..|items| - 1]);
    assert forall k :: 0 <= k < |init| ==> init[k] == all[k];
    assert all[|items| - 1] == items[|items| - 1].context;
    forall x | Has(init, x) ensures Has(all, x) {
      var k :| 0 <= k < |init| && init[k].id == x;
      assert all[k].id == x;
    }
  }

  /** Stored with one more retry, no start and this error, and due `delay` seconds from now. */
  ghost predicate Retried(s: Store, s': Store, id: JobId, error: string, delay: nat, now: int) {
    && id in s.jobs && id in s'.jobs && id in s'.retry
    && (var e := s.jobs[id];
        s'.jobs[id] == e.(meta := e.meta.(id := e.id, retries := e.meta.retries + 1,
                                          startedAt := None, error := Some(error))))
    && s'.retry[id] == now + 1_000_000 * delay
  }

  /** What a failed job is left with, by the policy of its own payload: below the limit it is retried, after a
      panic with the worker's own delay, after an error with the delay that the settings give for its retries
      and that delay, if they give one; at the limit it is gone. */
  ghost predicate TookItsPolicy(s: Store, s': Store, pid: ProcessId, worker: Worker, outcome: Outcome,
                                item: BatchItem, now: int)
  {
    var e, own := item.context, worker.retryDelay(item.payload, item.context.meta.retries);
    && !Held(s', pid, e.id)
    && (if e.meta.retries < worker.maxRetries(item.payload)
        then
          match outcome
          case Failed(error, override) =>
            (match override(e.meta.retries, own)
             case Some(other) => Retried(s, s', e.id, error, other, now)
             case None => Retried(s, s', e.id, error, own, now))
          case Panicked(message) => Retried(s, s', e.id, message, own, now)
          case Succeeded => Retried(s, s', e.id, "", own, now)
        else e.id !in s'.jobs && e.id !in s'.retry)
  }

  lemma FailOneTakesItsPolicy(s: Store, pid: ProcessId, worker: Worker, outcome: Outcome, item: BatchItem, now: int)
    requires OnePlace(s) && Held(s, pid, item.context.id)
    ensures TookItsPolicy(s, FailOne(s, pid, worker, outcome, item, now), pid, worker, outcome, item, now)
  {
    HeldIsStored(s);
    RunningOnly(s);
    NoDupProcessing(s, pid);
    RemoveFirstIsRemoveAll(ListAt(s.processing, pid), item.context.id);
  }

  /** A job at its limit heads the dead list, as it was and with the error or the panic that ended it. */
  lemma FailOneBuries(s: Store, pid: ProcessId, worker: Worker, outcome: Outcome, item: BatchItem, now: int)
    requires !outcome.Succeeded?
    ensures var e, said := item.context, if outcome.Failed? then outcome.error else outcome.message;
            FailOne(s, pid, worker, outcome, item, now).dead ==
              if e.meta.retries < worker.maxRetries(item.payload) then s.dead
              else Take([S.Parsed(e.(meta := e.meta.(error := Some(said))))] + s.dead, 1000)
  {
  }

  /** In a failed or panicked batch every job is retried or killed by its own retries, its own limit and
      its own delay, whatever the other jobs of the batch come to. */
  lemma {:induction false} EachJobTakesItsOwnPolicy(
    s: Store, pid: ProcessId, worker: Worker, outcome: Outcome, items: seq<BatchItem>, now: int, k: nat)
    requires OnePlace(s) && HeldEach(s, pid, Contexts(items)) && DistinctIds(Contexts(items)) && k < |items|
    ensures TookItsPolicy(s, FailEach(s, pid, worker, outcome, items, now), pid, worker, outcome, items[k], now)
  {
    var init, last := items[..|items| - 1], items[|items| - 1];
    var s1 := FailEach(s, pid, worker, outcome, init, now);
    InitOf(items);
    FailEachKeeps(s, pid, worker, outcome, init, now);
    assert last.context == Contexts(items)[|items| - 1];
    if k == |items| - 1 {
      assert SameFor(s, s1, pid, last.context.id);
      FailOneTakesItsPolicy(s1, pid, worker, outcome, last, now);
    } else {
      EachJobTakesItsOwnPolicy(s, pid, worker, outcome, init, now, k);
      HeldIsStored(s1);
      assert init[k] == items[k] && items[k].context == Contexts(items)[k];
      assert SameFor(s, s1, pid, last.context.id);
      FailOneIsLocal(s1, pid, worker, outcome, last, now, items[k].context.id);
    }
  }

  /** So after an error or a panic; after a success every job of the batch is gone. */
  lemma FinishJudgesEach(s: Store, pid: ProcessId, worker: Worker, outcome: Outcome, items: seq<BatchItem>,
                         now: int, k: nat)
    requires OnePlace(s) && HeldEach(s, pid, Contexts(items)) && DistinctIds(Contexts(items)) && k < |items|
    ensures var s' := Finish(s, pid, worker, outcome, items, now);
            if outcome.Succeeded? then items[k].context.id !in s'.jobs && s'.retry == s.retry && s'.dead == s.dead
            else TookItsPolicy(s, s', pid, worker, outcome, items[k], now)
  {
    if outcome.Succeeded? {
      assert Contexts(items)[k] in Contexts(items);
      UnprocessEachTouchesLists(s.(jobs := s.jobs - IdSet(Contexts(items))), pid, Contexts(items));
    } else {
      EachJobTakesItsOwnPolicy(s, pid, worker, outcome, items, now, k);
    }
  }

  lemma {:induction false} UnprocessEachTouchesLists(s: Store, pid: ProcessId, es: seq<JobEnvelope>)
    ensures UnprocessEach(s, pid, es) == s.(processing := UnprocessEach(s, pid, es).processing)
    decreases |es|
  {
    if es != [] {
      UnprocessEachTouchesLists(Unprocess(s, pid, es[0].id), pid, es[1..]);
    }
  }

  /** When nobody is registered for the worker, every job of the batch is buried with that error. */
  lemma {:induction false} AllAreBuried(s: Store, pid: ProcessId, es: seq<JobEnvelope>, error: string)
    requires |s.dead| <= 1000
    ensures KillEvery(s, pid, es, error).dead == Take(GravesWith(es, error) + s.dead, 1000)
  {
    if es == [] {
      assert [] + s.dead == s.dead;
    } else {
      var n := |es| - 1;
      var grave := [S.Parsed(es[n].(meta := es[n].meta.(error := Some(error))))];
      var before := GravesWith(es[..n], error) + s.dead;
      AllAreBuried(s, pid, es[..n], error);
      assert GravesWith(es, error) + s.dead == grave + before;
      DeadList.TrimmedTwice(before, grave);
    }
  }

  ghost function GravesWith(es: seq<JobEnvelope>, error: string): seq<DeadEntry> {
    if es == [] then []
    else
      var e := es[|es| - 1];
      [S.Parsed(e.(meta := e.meta.(error := Some(error))))] + GravesWith(es[..|es| - 1], error)
  }

  // ---- the whole batch ----

  lemma KillKeeps(s: Store, pid: ProcessId, e: JobEnvelope, error: string)
    requires OnePlace(s) && Held(s, pid, e.id)
    ensures OnePlace(Kill(s, pid, e, error)) && !Held(Kill(s, pid, e, error), pid, e.id)
            && e.id !in Kill(s, pid, e, error).jobs
    ensures forall x :: x != e.id ==> SameFor(s, Kill(s, pid, e, error), pid, x)
  {
    var w := SomePlaces(s);
    KillLocated(s, w, pid, e, error);
    LocatedIsOnePlace(Kill(s, pid, e, error), w - {e.id});
    NoDupProcessing(s, pid);
    RemoveFirstIsRemoveAll(ListAt(s.processing, pid), e.id);
    forall x | x != e.id ensures SameFor(s, Kill(s, pid, e, error), pid, x) {
      UnprocessIsLocal(s, pid, e.id, x);
    }
  }

  /** The dead entries of the jobs that do not parse, each with its own error, the last one first. */
  ghost function Graves(parse: Parser, pending: seq<PendingJob>): seq<DeadEntry> {
    if pending == [] then []
    else
      var n := |pending| - 1;
      var e := pending[n].envelope;
      (match parse(e.job.args)
       case ValidArgs(_) => []
       case InvalidArgs(error) => [S.Parsed(e.(meta := e.meta.(error := Some(error))))])
      + Graves(parse, pending[..n])
  }

  /** The filter buries every invalid job with its own error, in the order of the batch. */
  lemma {:induction false} InvalidAreBuried(s: Store, pid: ProcessId, parse: Parser, pending: seq<PendingJob>)
    requires |s.dead| <= 1000
    ensures KillInvalid(s, pid, parse, pending).dead == Take(Graves(parse, pending) + s.dead, 1000)
  {
    if pending == [] {
      assert [] + s.dead == s.dead;
    } else {
      var n := |pending| - 1;
      var e, before := pending[n].envelope, Graves(parse, pending[..n]) + s.dead;
      InvalidAreBuried(s, pid, parse, pending[..n]);
      match parse(e.job.args)
      case ValidArgs(_) => assert Graves(parse, pending) + s.dead == before;
      case InvalidArgs(error) =>
        var grave := [S.Parsed(e.(meta := e.meta.(error := Some(error))))];
        assert Graves(parse, pending) + s.dead == grave + before;
        DeadList.TrimmedTwice(before, grave);
    }
  }

  ghost predicate IsInvalid(parse: Parser, job: PendingJob) {
    ErrorOf(parse, job).Some?
  }

  lemma AllButLast(pending: seq<PendingJob>)
    requires pending != [] && DistinctIds(EnvelopesOf(pending))
    ensures var n := |pending| - 1;
            && DistinctIds(EnvelopesOf(pending[..n])) && !Has(EnvelopesOf(pending[..n]), pending[n].envelope.id)
            && (forall s, pid :: HeldEach(s, pid, EnvelopesOf(pending)) ==>
                  HeldEach(s, pid, EnvelopesOf(pending[..n])) && Held(s, pid, pending[n].envelope.id))
            && (forall x :: !Has(EnvelopesOf(pending), x) ==>
                 !Has(EnvelopesOf(pending[..n]), x) && x != pending[n].envelope.id)
  {
    var n := |pending| - 1;
    var all, init := EnvelopesOf(pending), EnvelopesOf(pending[..n]);
    assert all == init + [pending[n].envelope];
    assert all[n] == pending[n].envelope;
    forall x | Has(init, x) ensures Has(all, x) {
      var k :| 0 <= k < n && init[k].id == x;
      assert all[k].id == x;
    }
  }

  lemma {:induction false} KillInvalidKeeps(s: Store, pid: ProcessId, parse: Parser, pending: seq<PendingJob>)
    requires OnePlace(s) && HeldEach(s, pid, EnvelopesOf(pending)) && DistinctIds(EnvelopesOf(pending))
    ensures OnePlace(KillInvalid(s, pid, parse, pending))
    ensures forall x :: !Has(EnvelopesOf(pending), x) ==> SameFor(s, KillInvalid(s, pid, parse, pending), pid, x)
  {
    if pending != [] {
      var n := |pending| - 1;
      var s1 := KillInvalid(s, pid, parse, pending[..n]);
      AllButLast(pending);
      KillInvalidKeeps(s, pid, parse, pending[..n]);
      if IsInvalid(parse, pending[n]) {
        assert SameFor(s, s1, pid, pending[n].envelope.id);
        KillKeeps(s1, pid, pending[n].envelope, ErrorOf(parse, pending[n]).value);
        forall x | !Has(EnvelopesOf(pending), x) ensures SameFor(s, KillInvalid(s, pid, parse, pending), pid, x) {
          SameForBoth(s, s1, KillInvalid(s, pid, parse, pending), pid, x);
        }
      }
    }
  }

  /** After the filter an invalid job is gone and a valid one is as it was. */
  lemma {:induction false} FilterJudgesEach(s: Store, pid: ProcessId, parse: Parser, pending: seq<PendingJob>, k: nat)
    requires OnePlace(s) && HeldEach(s, pid, EnvelopesOf(pending)) && DistinctIds(EnvelopesOf(pending)) && k < |pending|
    ensures var s', id := KillInvalid(s, pid, parse, pending), pending[k].envelope.id;
            if IsInvalid(parse, pending[k]) then id !in s'.jobs && !Held(s', pid, id) else SameFor(s, s', pid, id)
  {
    var n := |pending| - 1;
    var s1 := KillInvalid(s, pid, parse, pending[..n]);
    var last, id := pending[n].envelope, pending[k].envelope.id;
    AllButLast(pending);
    KillInvalidKeeps(s, pid, parse, pending[..n]);
    assert SameFor(s, s1, pid, last.id);
    if k < n {
      FilterJudgesEach(s, pid, parse, pending[..n], k);
      assert EnvelopesOf(pending)[k].id == id && EnvelopesOf(pending)[n] == last;
    }
    if IsInvalid(parse, pending[n]) {
      KillKeeps(s1, pid, last, ErrorOf(parse, pending[n]).value);
      assert k < n ==> SameFor(s1, KillInvalid(s, pid, parse, pending), pid, id);
    }
  }

  ghost predicate ValidIn(parse: Parser, pending: seq<PendingJob>, job: PendingJob) {
    exists k :: 0 <= k < |pending| && pending[k] == job && !IsInvalid(parse, job)
  }

  lemma {:induction false} SurvivorsAreValid(parse: Parser, pending: seq<PendingJob>)
    requires DistinctIds(EnvelopesOf(pending))
    ensures forall j :: 0 <= j < |Survivors(parse, pending)| ==>
              ValidIn(parse, pending, Survivors(parse, pending)[j].job)
    ensures DistinctIds(Envelopes(Survivors(parse, pending)))
  {
    if pending != [] {
      var n := |pending| - 1;
      assert forall j :: 0 <= j < n ==> EnvelopesOf(pending[..n])[j] == EnvelopesOf(pending)[j];
      SurvivorsAreValid(parse, pending[..n]);
      var before, after := Survivors(parse, pending[..n]), Survivors(parse, pending);
      forall j | 0 <= j < |after|
        ensures ValidIn(parse, pending, after[j].job)
      {
        if j < |before| {
          assert ValidIn(parse, pending[..n], before[j].job);
          var k :| 0 <= k < n && pending[..n][k] == before[j].job;
          assert pending[k] == after[j].job;
        } else {
          assert pending[n] == after[j].job;
        }
      }
      forall i, j | 0 <= i < j < |after| ensures Envelopes(after)[i].id != Envelopes(after)[j].id {
        if j < |before| {
          assert Envelopes(before)[i].id != Envelopes(before)[j].id;
        } else {
          assert ValidIn(parse, pending[..n], before[i].job);
          var k :| 0 <= k < n && pending[..n][k] == before[i].job;
          assert EnvelopesOf(pending)[k].id != EnvelopesOf(pending)[n].id;
        }
      }
    }
  }

  lemma StoreKeeps(s: Store, pid: ProcessId, e: JobEnvelope)
    requires OnePlace(s) && Held(s, pid, e.id)
    ensures OnePlace(StoreEnvelope(s, e))
    ensures forall x :: x != e.id ==> SameFor(s, StoreEnvelope(s, e), pid, x)
  {
    HeldIsStored(s);
    var w := SomePlaces(s);
    assert w[e.id] == Running(pid);
    UpdateLocated(s, w, e);
    LocatedIsOnePlace(StoreEnvelope(s, e), w);
  }

  lemma {:induction false} StartEachKeeps(s: Store, pid: ProcessId, es: seq<JobEnvelope>)
    requires OnePlace(s) && HeldEach(s, pid, es)
    ensures OnePlace(StartEach(s, es)) && StartEach(s, es).processing == s.processing
    ensures forall x :: !Has(es, x) ==> SameFor(s, StartEach(s, es), pid, x)
  {
    if es != [] {
      var init, last := es[..|es| - 1], es[|es| - 1];
      assert forall k :: 0 <= k < |init| ==> init[k] == es[k];
      StartEachKeeps(s, pid, init);
      var s1 := StartEach(s, init);
      StoreKeeps(s1, pid, last);
      forall x | !Has(es, x) ensures SameFor(s, StartEach(s, es), pid, x) {
        assert es[|es| - 1].id != x && !Has(init, x);
        SameForBoth(s, s1, StartEach(s, es), pid, x);
      }
    }
  }

  lemma FinishOneKeeps(s: Store, pid: ProcessId, e: JobEnvelope)
    requires OnePlace(s) && Held(s, pid, e.id)
    ensures OnePlace(FinishSuccess(s, pid, e)) && !Held(FinishSuccess(s, pid, e), pid, e.id)
    ensures e.id !in FinishSuccess(s, pid, e).jobs
    ensures forall x :: x != e.id ==> SameFor(s, FinishSuccess(s, pid, e), pid, x)
  {
    var w := SomePlaces(s);
    RetireLocated(s, w, pid, e.id);
    LocatedIsOnePlace(FinishSuccess(s, pid, e), w - {e.id});
    NoDupProcessing(s, pid);
    RemoveFirstIsRemoveAll(ListAt(s.processing, pid), e.id);
    forall x | x != e.id ensures SameFor(s, FinishSuccess(s, pid, e), pid, x) {
      UnprocessIsLocal(s, pid, e.id, x);
    }
  }

  lemma {:induction false} SucceedEachKeeps(s: Store, pid: ProcessId, es: seq<JobEnvelope>)
    requires OnePlace(s) && HeldEach(s, pid, es) && DistinctIds(es)
    ensures OnePlace(SucceedEach(s, pid, es))
    ensures forall x :: !Has(es, x) ==> SameFor(s, SucceedEach(s, pid, es), pid, x)
    ensures forall k :: 0 <= k < |es| ==>
              es[k].id !in SucceedEach(s, pid, es).jobs && !Held(SucceedEach(s, pid, es), pid, es[k].id)
    decreases |es|
  {
    if es != [] {
      var s1, rest := FinishSuccess(s, pid, es[0]), es[1..];
      FinishOneKeeps(s, pid, es[0]);
      forall k | 0 <= k < |rest| ensures Held(s1, pid, rest[k].id) && rest[k].id != es[0].id {
        assert rest[k] == es[k + 1];
        assert SameFor(s, s1, pid, es[k + 1].id);
      }
      SucceedEachKeeps(s1, pid, rest);
      assert !Has(rest, es[0].id);
      forall k | 0 <= k < |es|
        ensures es[k].id !in SucceedEach(s, pid, es).jobs && !Held(SucceedEach(s, pid, es), pid, es[k].id)
      {
        if k > 0 {
          assert es[k] == rest[k - 1];
        }
      }
      forall x | !Has(es, x) ensures SameFor(s, SucceedEach(s, pid, es), pid, x) {
        assert es[0].id != x;
        assert !Has(rest, x);
        SameForBoth(s, s1, SucceedEach(s, pid, es), pid, x);
      }
    }
  }

  lemma FinishKeepsOnePlace(s: Store, pid: ProcessId, worker: Worker, outcome: Outcome, items: seq<BatchItem>, now: int)
    requires OnePlace(s) && HeldEach(s, pid, Contexts(items)) && DistinctIds(Contexts(items))
    ensures OnePlace(Finish(s, pid, worker, outcome, items, now))
    ensures forall x :: !Has(Contexts(items), x) ==> SameFor(s, Finish(s, pid, worker, outcome, items, now), pid, x)
    ensures forall k :: 0 <= k < |items| ==>
              !Held(Finish(s, pid, worker, outcome, items, now), pid, items[k].context.id)
  {
    if outcome.Succeeded? {
      BatchFinishIsOneByOne(s, pid, Contexts(items));
      SucceedEachKeeps(s, pid, Contexts(items));
      assert forall k :: 0 <= k < |items| ==> items[k].context == Contexts(items)[k];
    } else {
      FailEachKeeps(s, pid, worker, outcome, items, now);
      forall k | 0 <= k < |items| ensures !Held(Finish(s, pid, worker, outcome, items, now), pid, items[k].context.id) {
        EachJobTakesItsOwnPolicy(s, pid, worker, outcome, items, now, k);
      }
    }
  }

  /** The survivors still held, with distinct ids, when the worker starts. */
  lemma SurvivorsHeld(s: Store, pid: ProcessId, parse: Parser, pending: seq<PendingJob>, resume: bool, now: int)
    requires OnePlace(s) && HeldEach(s, pid, EnvelopesOf(pending)) && DistinctIds(EnvelopesOf(pending))
    ensures var contexts := Contexts(ItemsOf(Survivors(parse, pending), resume, now));
            HeldEach(KillInvalid(s, pid, parse, pending), pid, contexts) && DistinctIds(contexts)
  {
    SurvivorsAreValid(parse, pending);
    var bound := Survivors(parse, pending);
    var contexts := Contexts(ItemsOf(bound, resume, now));
    assert forall j :: 0 <= j < |contexts| ==> contexts[j].id == Envelopes(bound)[j].id;
    forall j | 0 <= j < |contexts| ensures Held(KillInvalid(s, pid, parse, pending), pid, contexts[j].id) {
      assert ValidIn(parse, pending, bound[j].job);
      var k :| 0 <= k < |pending| && pending[k] == bound[j].job && !IsInvalid(parse, pending[k]);
      assert EnvelopesOf(pending)[k].id == contexts[j].id;
      FilterJudgesEach(s, pid, parse, pending, k);
    }
  }

  /** A batch of jobs this process holds leaves every id in one place and none of its jobs in the
      processing list, whatever parses and however the worker ends. */
  lemma BatchKeepsOnePlace(s: Store, pid: ProcessId, parse: Parser, worker: Worker, outcome: Outcome,
                           pending: seq<PendingJob>, now: int)
    requires OnePlace(s) && HeldEach(s, pid, EnvelopesOf(pending)) && DistinctIds(EnvelopesOf(pending))
    ensures OnePlace(BatchEffect(s, pid, parse, worker, outcome, pending, now))
    ensures forall k :: 0 <= k < |Survivors(parse, pending)| ==>
              !Held(BatchEffect(s, pid, parse, worker, outcome, pending, now), pid,
                Survivors(parse, pending)[k].job.envelope.id)
  {
    var killed := KillInvalid(s, pid, parse, pending);
    var items := ItemsOf(Survivors(parse, pending), worker.resume, now);
    KillInvalidKeeps(s, pid, parse, pending);
    SurvivorsHeld(s, pid, parse, pending, worker.resume, now);
    if items != [] {
      StartEachKeeps(killed, pid, Contexts(items));
      FinishKeepsOnePlace(StartEach(killed, Contexts(items)), pid, worker, outcome, items, now);
    }
  }

  /** An invalid job of the batch is killed, and the rest of the batch does not bring it back. */
  lemma InvalidStaysKilled(s: Store, pid: ProcessId, parse: Parser, worker: Worker, outcome: Outcome,
                           pending: seq<PendingJob>, now: int, k: nat)
    requires OnePlace(s) && HeldEach(s, pid, EnvelopesOf(pending)) && DistinctIds(EnvelopesOf(pending))
    requires k < |pending| && IsInvalid(parse, pending[k])
    ensures var s' := BatchEffect(s, pid, parse, worker, outcome, pending, now);
            pending[k].envelope.id !in s'.jobs && !Held(s', pid, pending[k].envelope.id)
  {
    var killed := KillInvalid(s, pid, parse, pending);
    var id := pending[k].envelope.id;
    var items := ItemsOf(Survivors(parse, pending), worker.resume, now);
    KillInvalidKeeps(s, pid, parse, pending);
    FilterJudgesEach(s, pid, parse, pending, k);
    SurvivorsHeld(s, pid, parse, pending, worker.resume, now);
    if items != [] {
      assert !Has(Contexts(items), id) by {
        forall j | 0 <= j < |items| ensures Contexts(items)[j].id != id {
          assert Held(killed, pid, Contexts(items)[j].id);
        }
      }
      StartEachKeeps(killed, pid, Contexts(items));
      var started := StartEach(killed, Contexts(items));
      assert SameFor(killed, started, pid, id);
      FinishKeepsOnePlace(started, pid, worker, outcome, items, now);
    }
  }

  // ---- from the batch that was cut to what becomes of each job ----

  lemma {:induction false} SurvivorOf(parse: Parser, pending: seq<PendingJob>, k: nat) returns (j: nat)
    requires k < |pending| && parse(pending[k].envelope.job.args).ValidArgs?
    ensures j < |Survivors(parse, pending)|
    ensures Survivors(parse, pending)[j] == Bound(parse(pending[k].envelope.job.args).payload, pending[k])
  {
    var n := |pending| - 1;
    if k < n {
      j := SurvivorOf(parse, pending[..n], k);
    } else {
      j := |Survivors(parse, pending[..n])|;
    }
  }

  lemma {:induction false} StartEachStores(s: Store, es: seq<JobEnvelope>, j: nat)
    requires DistinctIds(es) && j < |es|
    ensures es[j].id in StartEach(s, es).jobs && StartEach(s, es).jobs[es[j].id] == es[j]
  {
    var n := |es| - 1;
    if j < n {
      assert forall i :: 0 <= i < n ==> es[..n][i] == es[i];
      StartEachStores(s, es[..n], j);
    }
  }

  /** Back in the retry set: one more retry, no start, the error, the state only if the worker resumes. */
  ghost predicate GoesBack(s: Store, e: JobEnvelope, resume: bool, error: string, delay: nat, now: int) {
    && e.id in s.jobs && e.id in s.retry && s.retry[e.id] == now + 1_000_000 * delay
    && s.jobs[e.id] == e.(meta := e.meta.(id := e.id, retries := e.meta.retries + 1, startedAt := None,
                                          state := if resume then e.meta.state else None, error := Some(error)))
  }

  /** What becomes of each job of a batch: one that does not parse is gone; after a success it is gone; after an
      error or a panic it is gone at its limit, and below it goes back with its own delay, or after an error
      with the delay that the settings give. */
  ghost predicate Ends(s: Store, parse: Parser, worker: Worker, outcome: Outcome, e: JobEnvelope, now: int) {
    match parse(e.job.args)
    case InvalidArgs(_) => e.id !in s.jobs
    case ValidArgs(payload) =>
      if outcome.Succeeded? || e.meta.retries >= worker.maxRetries(payload) then e.id !in s.jobs
      else
        var own := worker.retryDelay(payload, e.meta.retries);
        match outcome
        case Failed(error, override) =>
          (match override(e.meta.retries, own)
           case Some(other) => GoesBack(s, e, worker.resume, error, other, now)
           case None => GoesBack(s, e, worker.resume, error, own, now))
        case Panicked(message) => GoesBack(s, e, worker.resume, message, own, now)
        case Succeeded => true
  }

  lemma PolicyIsTheEnd(s: Store, s': Store, pid: ProcessId, parse: Parser, worker: Worker, outcome: Outcome,
                       item: BatchItem, e: JobEnvelope, now: int)
    requires parse(e.job.args) == ValidArgs(item.payload) && item.context == Started(e, worker.resume, now)
    requires e.id in s.jobs && s.jobs[e.id] == item.context
    requires if outcome.Succeeded? then e.id !in s'.jobs else TookItsPolicy(s, s', pid, worker, outcome, item, now)
    ensures Ends(s', parse, worker, outcome, e, now)
  {
  }

  lemma ValidJobEnds(s: Store, pid: ProcessId, parse: Parser, worker: Worker, outcome: Outcome,
                     pending: seq<PendingJob>, now: int, k: nat)
    requires OnePlace(s) && HeldEach(s, pid, EnvelopesOf(pending)) && DistinctIds(EnvelopesOf(pending))
    requires k < |pending| && !IsInvalid(parse, pending[k])
    ensures Ends(BatchEffect(s, pid, parse, worker, outcome, pending, now), parse, worker, outcome,
                 pending[k].envelope, now)
    ensures !Held(BatchEffect(s, pid, parse, worker, outcome, pending, now), pid, pending[k].envelope.id)
  {
    var j := SurvivorOf(parse, pending, k);
    var killed, items := KillInvalid(s, pid, parse, pending), ItemsOf(Survivors(parse, pending), worker.resume, now);
    var started := StartEach(killed, Contexts(items));
    KillInvalidKeeps(s, pid, parse, pending);
    SurvivorsHeld(s, pid, parse, pending, worker.resume, now);
    StartEachKeeps(killed, pid, Contexts(items));
    StartEachStores(killed, Contexts(items), j);
    FinishJudgesEach(started, pid, worker, outcome, items, now, j);
    FinishKeepsOnePlace(started, pid, worker, outcome, items, now);
    PolicyIsTheEnd(started, Finish(started, pid, worker, outcome, items, now), pid, parse, worker, outcome, items[j],
                   pending[k].envelope, now);
  }

  /** For every batch of jobs that this process holds, every parser, worker and outcome, each job ends by its own
      arguments, retries and policy, and this process holds none of them any more. */
  lemma EveryJobOfTheBatchEnds(s: Store, pid: ProcessId, parse: Parser, worker: Worker, outcome: Outcome,
                               pending: seq<PendingJob>, now: int, k: nat)
    requires OnePlace(s) && HeldEach(s, pid, EnvelopesOf(pending)) && DistinctIds(EnvelopesOf(pending))
    requires k < |pending|
    ensures Ends(BatchEffect(s, pid, parse, worker, outcome, pending, now), parse, worker, outcome,
                 pending[k].envelope, now)
    ensures !Held(BatchEffect(s, pid, parse, worker, outcome, pending, now), pid, pending[k].envelope.id)
  {
    if IsInvalid(parse, pending[k]) {
      InvalidStaysKilled(s, pid, parse, worker, outcome, pending, now, k);
    } else {
      ValidJobEnds(s, pid, parse, worker, outcome, pending, now, k);
    }
  }
}
