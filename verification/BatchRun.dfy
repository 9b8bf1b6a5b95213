/** One batch from cut to finish: arguments are parsed, invalid jobs are killed and filtered out, and the
    rest run as one. Jobs, envelopes, permits, retry policies and contexts travel in separate vectors
    through four functions; what is proved is that position k always means the same job. */
module BatchRun {
  import opened Redis
  import opened Envelope
  import opened S = Store
  import opened Batcher
  import opened Storage
  import Lifecycle
  import Moves

  /** A job's arguments as the worker's type. */
  type Payload(!new)

  datatype Parsed = ValidArgs(payload: Payload) | InvalidArgs(error: string)

  type Parser = Json -> Parsed

  datatype InvalidBatchJob = InvalidBatchJob(index: nat, error: string)

  datatype BatchBuild = BatchBuild(job: Option<seq<Payload>>, invalid: seq<InvalidBatchJob>)

  datatype Worker = Worker(maxRetries: Payload -> nat, retryDelay: (Payload, nat) -> nat, resume: bool)

  /** What running the worker came to; the settings may override a delay after an error. */
  datatype Outcome =
    | Succeeded
    | Failed(error: string, override: (nat, nat) -> Option<nat>)
    | Panicked(message: string)

  datatype Policy = Policy(maxRetries: nat, retryDelay: nat)

  /** A job with the envelope whose context it runs under. */
  datatype BatchItem = BatchItem(payload: Payload, context: JobEnvelope)

  // ---- the reference: one filter over whole jobs ----

  datatype Bound = Bound(payload: Payload, job: PendingJob)

  function Survivors(parse: Parser, pending: seq<PendingJob>): seq<Bound> {
    if pending == [] then []
    else
      var last := pending[|pending| - 1];
      Survivors(parse, pending[..|pending| - 1]) +
      (match parse(last.envelope.job.args)
       case ValidArgs(payload) => [Bound(payload, last)]
       case InvalidArgs(_) => [])
  }

  function Payloads(bound: seq<Bound>): (r: seq<Payload>)
    ensures |r| == |bound| && forall k :: 0 <= k < |r| ==> r[k] == bound[k].payload
  {
    seq(|bound|, k requires 0 <= k < |bound| => bound[k].payload)
  }

  function Envelopes(bound: seq<Bound>): (r: seq<JobEnvelope>)
    ensures |r| == |bound| && forall k :: 0 <= k < |r| ==> r[k] == bound[k].job.envelope
  {
    seq(|bound|, k requires 0 <= k < |bound| => bound[k].job.envelope)
  }

  function PermitsOf(bound: seq<Bound>): (r: seq<Permit>)
    ensures |r| == |bound| && forall k :: 0 <= k < |r| ==> r[k] == bound[k].job.permit
  {
    seq(|bound|, k requires 0 <= k < |bound| => bound[k].job.permit)
  }

  function Permits(jobs: seq<PendingJob>): (r: seq<Permit>)
    ensures |r| == |jobs| && forall k :: 0 <= k < |r| ==> r[k] == jobs[k].permit
  {
    seq(|jobs|, k requires 0 <= k < |jobs| => jobs[k].permit)
  }

  /** Kills the jobs that do not parse, each with its own error. */
  function KillInvalid(s: Store, pid: ProcessId, parse: Parser, pending: seq<PendingJob>): Store {
    if pending == [] then s
    else
      var last := pending[|pending| - 1];
      var s' := KillInvalid(s, pid, parse, pending[..|pending| - 1]);
      match parse(last.envelope.job.args)
      case ValidArgs(_) => s'
      case InvalidArgs(error) => Kill(s', pid, last.envelope, error)
  }

  function KillEvery(s: Store, pid: ProcessId, es: seq<JobEnvelope>, error: string): Store {
    if es == [] then s else Kill(KillEvery(s, pid, es[..|es| - 1], error), pid, es[|es| - 1], error)
  }

  function StartEach(s: Store, es: seq<JobEnvelope>): Store {
    if es == [] then s else StoreEnvelope(StartEach(s, es[..|es| - 1]), es[|es| - 1])
  }

  function AllStarted(es: seq<JobEnvelope>, resume: bool, now: int): (r: seq<JobEnvelope>)
    ensures |r| == |es| && forall k :: 0 <= k < |r| ==> r[k] == Lifecycle.Started(es[k], resume, now)
  {
    seq(|es|, k requires 0 <= k < |es| => Lifecycle.Started(es[k], resume, now))
  }

  function DelayAfter(outcome: Outcome, e: JobEnvelope, delay: nat): nat {
    match outcome
    case Succeeded => delay
    case Panicked(_) => delay
    case Failed(_, override) =>
      match override(e.meta.retries, delay)
      case Some(other) => other
      case None => delay
  }

  function MessageOf(outcome: Outcome): string {
    match outcome case Succeeded => "" case Failed(error, _) => error case Panicked(message) => message
  }

  /** What a failed batch does to one of its jobs, judged by that job's own payload. */
  function FailOne(s: Store, pid: ProcessId, worker: Worker, outcome: Outcome, item: BatchItem, now: int): Store {
    var e := item.context;
    HandleErr(s, pid, e, MessageOf(outcome), DelayAfter(outcome, e, worker.retryDelay(item.payload, e.meta.retries)),
              worker.maxRetries(item.payload), now)
  }

  function FailEach(s: Store, pid: ProcessId, worker: Worker, outcome: Outcome, items: seq<BatchItem>, now: int): Store
  {
    if items == [] then s
    else FailOne(FailEach(s, pid, worker, outcome, items[..|items| - 1], now),
                 pid, worker, outcome, items[|items| - 1], now)
  }

  function Finish(s: Store, pid: ProcessId, worker: Worker, outcome: Outcome, items: seq<BatchItem>, now: int): Store {
    if outcome.Succeeded? then FinishSuccessBatch(s, pid, Contexts(items))
    else FailEach(s, pid, worker, outcome, items, now)
  }

  function Contexts(items: seq<BatchItem>): (r: seq<JobEnvelope>)
    ensures |r| == |items| && forall k :: 0 <= k < |r| ==> r[k] == items[k].context
  {
    seq(|items|, k requires 0 <= k < |items| => items[k].context)
  }

  /** The k-th survivor's payload with the k-th survivor's envelope. */
  function ItemsOf(bound: seq<Bound>, resume: bool, now: int): (r: seq<BatchItem>)
    ensures |r| == |bound|
    ensures forall k :: 0 <= k < |r| ==>
      r[k] == BatchItem(bound[k].payload, Lifecycle.Started(bound[k].job.envelope, resume, now))
  {
    seq(|bound|, k requires 0 <= k < |bound| =>
      BatchItem(bound[k].payload, Lifecycle.Started(bound[k].job.envelope, resume, now)))
  }

  /** The whole effect on the store. */
  function BatchEffect(s: Store, pid: ProcessId, parse: Parser, worker: Worker, outcome: Outcome,
                       pending: seq<PendingJob>, now: int): Store {
    var killed := KillInvalid(s, pid, parse, pending);
    var items := ItemsOf(Survivors(parse, pending), worker.resume, now);
    if items == [] then killed
    else Finish(StartEach(killed, Contexts(items)), pid, worker, outcome, items, now)
  }

  // ---- worker_registry.rs: parsing ----

  /** The invalid list describes exactly the values that do not parse, in order. */
  ghost predicate DescribesInvalid(parse: Parser, values: seq<Json>, invalid: seq<InvalidBatchJob>) {
    && (forall k :: 0 <= k < |invalid| ==>
          invalid[k].index < |values| && parse(values[invalid[k].index]) == InvalidArgs(invalid[k].error))
    && (forall j, k :: 0 <= j < k < |invalid| ==> invalid[j].index < invalid[k].index)
    && (forall i :: 0 <= i < |values| && parse(values[i]).InvalidArgs? ==>
          InvalidBatchJob(i, parse(values[i]).error) in invalid)
  }

  ghost predicate ArgsOf(values: seq<Json>, pending: seq<PendingJob>) {
    |values| == |pending| && forall k :: 0 <= k < |values| ==> values[k] == pending[k].envelope.job.args
  }

  /** One more value, which parses or is described by one more entry. */
  lemma DescribesNext(parse: Parser, values: seq<Json>, i: nat, invalid: seq<InvalidBatchJob>)
    requires i < |values| && DescribesInvalid(parse, values[..i], invalid)
    ensures match parse(values[i])
            case ValidArgs(_) => DescribesInvalid(parse, values[..i + 1], invalid)
            case InvalidArgs(error) => DescribesInvalid(parse, values[..i + 1], invalid + [InvalidBatchJob(i, error)])
  {
    assert values[..i + 1] == values[..i] + [values[i]];
    if parse(values[i]).InvalidArgs? {
      var entry := InvalidBatchJob(i, parse(values[i]).error);
      assert (invalid + [entry])[|invalid|] == entry;
      assert forall x :: x in invalid ==> x in invalid + [entry];
    }
  }

  lemma PayloadsNext(parse: Parser, pending: seq<PendingJob>, i: nat)
    requires i < |pending|
    ensures Payloads(Survivors(parse, pending[..i + 1])) ==
              Payloads(Survivors(parse, pending[..i])) +
              (match parse(pending[i].envelope.job.args) case ValidArgs(payload) => [payload] case InvalidArgs(_) => [])
  {
    assert pending[..i + 1][..i] == pending[..i];
  }

  method JobBatchFactory(parse: Parser, values: seq<Json>, ghost pending: seq<PendingJob>) returns (build: BatchBuild)
    requires ArgsOf(values, pending)
    ensures build.job == if Survivors(parse, pending) == [] then None else Some(Payloads(Survivors(parse, pending)))
    ensures DescribesInvalid(parse, values, build.invalid)
  {
    var jobs, invalid := [], [];
    var i := 0;
    while i < |values|
      invariant 0 <= i <= |values|
      invariant jobs == Payloads(Survivors(parse, pending[..i]))
      invariant DescribesInvalid(parse, values[..i], invalid)
    {
      DescribesNext(parse, values, i, invalid);
      PayloadsNext(parse, pending, i);
      match parse(values[i]) {
        case ValidArgs(payload) => jobs := jobs + [payload];
        case InvalidArgs(error) => invalid := invalid + [InvalidBatchJob(i, error)];
      }
      i := i + 1;
    }
    assert pending[..i] == pending && values[..i] == values;
    build := BatchBuild(if jobs == [] then None else Some(jobs), invalid);
  }

  // ---- coordinator.rs: filtering ----

  function FirstError(invalid: seq<InvalidBatchJob>, i: nat): Option<string> {
    if invalid == [] then None
    else
      var last := invalid[|invalid| - 1];
      var earlier := FirstError(invalid[..|invalid| - 1], i);
      if earlier == None && last.index == i then Some(last.error) else earlier
  }

  lemma FirstErrorSnoc(invalid: seq<InvalidBatchJob>, n: nat, i: nat)
    requires n < |invalid|
    ensures FirstError(invalid[..n + 1], i) ==
              if FirstError(invalid[..n], i) == None && invalid[n].index == i then Some(invalid[n].error)
              else FirstError(invalid[..n], i)
  {
    assert invalid[..n + 1][..n] == invalid[..n];
  }

  function Indexed(byIndex: map<nat, string>, i: nat): Option<string> {
    if i in byIndex then Some(byIndex[i]) else None
  }

  /** Entries beyond the batch are ignored and the first entry for an index wins. */
  method InvalidJobsByIndex(invalid: seq<InvalidBatchJob>, count: nat) returns (byIndex: map<nat, string>)
    ensures forall i: nat :: Indexed(byIndex, i) == if i < count then FirstError(invalid, i) else None
  {
    byIndex := map[];
    var n := 0;
    while n < |invalid|
      invariant 0 <= n <= |invalid|
      invariant forall i: nat :: Indexed(byIndex, i) == if i < count then FirstError(invalid[..n], i) else None
    {
      ghost var before := byIndex;
      if invalid[n].index < count && invalid[n].index !in byIndex {
        byIndex := byIndex[invalid[n].index := invalid[n].error];
      }
      forall i: nat ensures Indexed(byIndex, i) == if i < count then FirstError(invalid[..n + 1], i) else None {
        assert Indexed(before, i) == if i < count then FirstError(invalid[..n], i) else None;
        FirstErrorSnoc(invalid, n, i);
      }
      n := n + 1;
    }
    assert invalid[..n] == invalid;
  }

  lemma {:induction false} FirstErrorIsIn(invalid: seq<InvalidBatchJob>, i: nat)
    ensures FirstError(invalid, i).Some? ==> InvalidBatchJob(i, FirstError(invalid, i).value) in invalid
  {
    if invalid != [] {
      FirstErrorIsIn(invalid[..|invalid| - 1], i);
    }
  }

  lemma {:induction false} FirstErrorFinds(invalid: seq<InvalidBatchJob>, entry: InvalidBatchJob)
    requires entry in invalid
    ensures FirstError(invalid, entry.index).Some?
  {
    if entry != invalid[|invalid| - 1] {
      FirstErrorFinds(invalid[..|invalid| - 1], entry);
    }
  }

  /** The indexed errors are exactly the parse errors of the batch. */
  lemma ErrorsAreTheParse(parse: Parser, values: seq<Json>, invalid: seq<InvalidBatchJob>, i: nat)
    requires DescribesInvalid(parse, values, invalid) && i < |values|
    ensures FirstError(invalid, i) ==
              match parse(values[i]) case ValidArgs(_) => None case InvalidArgs(error) => Some(error)
  {
    FirstErrorIsIn(invalid, i);
    if parse(values[i]).InvalidArgs? {
      FirstErrorFinds(invalid, InvalidBatchJob(i, parse(values[i]).error));
    }
  }

  function ErrorOf(parse: Parser, job: PendingJob): Option<string> {
    match parse(job.envelope.job.args) case ValidArgs(_) => None case InvalidArgs(error) => Some(error)
  }

  // ---- executor.rs and the rest of coordinator.rs ----

  datatype RunResult = Ran(success: bool) | LengthMismatch

  class BatchRunner {
    const storage: StorageInternal
    /** The permits given back so far. */
    var released: seq<Permit>
    /** What the worker was last called with. */
    var workerItems: seq<BatchItem>

    constructor (storage: StorageInternal)
      ensures this.storage == storage && released == [] && workerItems == []
    {
      this.storage := storage;
      released := [];
      workerItems := [];
    }

    method SetStartedAtBatch(es: seq<JobEnvelope>, resume: bool, now: int) returns (started: seq<JobEnvelope>)
      modifies storage
      ensures started == AllStarted(es, resume, now)
      ensures storage.State() == StartEach(old(storage.State()), started)
    {
      started := AllStarted(es, resume, now);
      var i := 0;
      while i < |started|
        invariant 0 <= i <= |started|
        invariant storage.State() == StartEach(old(storage.State()), started[..i])
      {
        assert started[..i + 1][..i] == started[..i];
        storage.jobs := storage.jobs[started[i].id := started[i]];
        i := i + 1;
      }
      assert started[..i] == started;
    }

    /** `zip` of the envelopes with the policies that were computed from them. */
    method FinishBatchResult(worker: Worker, outcome: Outcome, envelopes: seq<JobEnvelope>, policies: seq<Policy>,
                             now: int, ghost items: seq<BatchItem>)
      requires |policies| == |envelopes| && envelopes == Contexts(items)
      requires forall k :: 0 <= k < |items| ==>
                 policies[k] == PolicyFor(worker, items[k].payload, envelopes[k])
      modifies storage
      ensures storage.State() == Finish(old(storage.State()), storage.pid, worker, outcome, items, now)
    {
      match outcome {
        case Succeeded =>
          storage.FinishWithSuccessBatch(envelopes);
        case Failed(_, _) =>
          FailAll(worker, outcome, envelopes, policies, now, items);
        case Panicked(_) =>
          FailAll(worker, outcome, envelopes, policies, now, items);
      }
    }

    method FailAll(worker: Worker, outcome: Outcome, envelopes: seq<JobEnvelope>, policies: seq<Policy>,
                   now: int, ghost items: seq<BatchItem>)
      requires |policies| == |envelopes| && envelopes == Contexts(items)
      requires forall k :: 0 <= k < |items| ==>
                 policies[k] == PolicyFor(worker, items[k].payload, envelopes[k])
      modifies storage
      ensures storage.State() == FailEach(old(storage.State()), storage.pid, worker, outcome, items, now)
    {
      var k := 0;
      while k < |envelopes|
        invariant 0 <= k <= |envelopes|
        invariant storage.State() == FailEach(old(storage.State()), storage.pid, worker, outcome, items[..k], now)
      {
        assert items[..k + 1][..k] == items[..k];
        storage.HandleError(envelopes[k], MessageOf(outcome), DelayAfter(outcome, envelopes[k], policies[k].retryDelay),
                            policies[k].maxRetries, now);
        k := k + 1;
      }
      assert items[..k] == items;
    }

    /** Refuses to run when the worker holds another number of jobs than there are envelopes. */
    method RunBatch(worker: Worker, jobs: seq<Payload>, envelopes: seq<JobEnvelope>, outcome: Outcome, now: int)
      returns (result: RunResult)
      modifies storage, this`workerItems
      ensures result == LengthMismatch <==> envelopes != [] && |jobs| != |envelopes|
      ensures envelopes == [] || |jobs| != |envelopes| ==>
                storage.State() == old(storage.State()) && workerItems == old(workerItems)
      ensures envelopes != [] && |jobs| == |envelopes| ==>
                && result == Ran(outcome.Succeeded?)
                && workerItems == Zip(jobs, AllStarted(envelopes, worker.resume, now))
                && storage.State() == Finish(StartEach(old(storage.State()), Contexts(workerItems)), storage.pid,
                                             worker, outcome, workerItems, now)
    {
      if envelopes == [] {
        return Ran(true);
      }
      if |jobs| != |envelopes| {
        return LengthMismatch;
      }
      var policies := [];
      for k := 0 to |envelopes|
        invariant |policies| == k
        invariant forall j :: 0 <= j < k ==> policies[j] == PolicyFor(worker, jobs[j], envelopes[j])
      {
        policies := policies + [PolicyFor(worker, jobs[k], envelopes[k])];
      }
      var started := SetStartedAtBatch(envelopes, worker.resume, now);
      workerItems := Zip(jobs, started);
      assert Contexts(workerItems) == started;
      FinishBatchResult(worker, outcome, started, policies, now, workerItems);
      result := Ran(outcome.Succeeded?);
    }

    /** `drop(permit)` for each. */
    method ReleaseAll(permits: seq<Permit>)
      modifies this`released
      ensures released == old(released) + permits
    {
      released := released + permits;
    }

    method KillAll(es: seq<JobEnvelope>, error: string)
      modifies storage
      ensures storage.State() == KillEvery(old(storage.State()), storage.pid, es, error)
    {
      var i := 0;
      while i < |es|
        invariant 0 <= i <= |es|
        invariant storage.State() == KillEvery(old(storage.State()), storage.pid, es[..i], error)
      {
        assert es[..i + 1][..i] == es[..i];
        storage.KillJob(es[i], error);
        i := i + 1;
      }
      assert es[..i] == es;
    }

    /** One turn of the filter loop: an invalid job is killed and its permit dropped. */
    method Judge(e: JobEnvelope, permit: Permit, byIndex: map<nat, string>, index: nat) returns (keep: bool)
      modifies storage, this`released
      ensures keep == (Indexed(byIndex, index) == None)
      ensures released == if keep then old(released) else old(released) + [permit]
      ensures storage.State() ==
                if keep then old(storage.State()) else Kill(old(storage.State()), storage.pid, e, byIndex[index])
    {
      keep := index !in byIndex;
      if !keep {
        storage.KillJob(e, byIndex[index]);
        released := released + [permit];
      }
    }

    /** What is left is the survivors, position by position. */
    method DropInvalid(parse: Parser, envelopes: seq<JobEnvelope>, permits: seq<Permit>, byIndex: map<nat, string>,
                       ghost pending: seq<PendingJob>)
      returns (validEnvelopes: seq<JobEnvelope>, validPermits: seq<Permit>)
      requires envelopes == EnvelopesOf(pending) && permits == Permits(pending)
      requires forall k: nat :: k < |pending| ==> Indexed(byIndex, k) == ErrorOf(parse, pending[k])
      modifies storage, this`released
      ensures validEnvelopes == Envelopes(Survivors(parse, pending))
      ensures validPermits == PermitsOf(Survivors(parse, pending))
      ensures storage.State() == KillInvalid(old(storage.State()), storage.pid, parse, pending)
      ensures SameTotal(released, validPermits, old(released), permits)
    {
      validEnvelopes, validPermits := [], [];
      var i := 0;
      while i < |envelopes|
        invariant 0 <= i <= |envelopes|
        invariant Filtered(validEnvelopes, validPermits, storage.State(), storage.pid, parse, pending[..i],
                    old(storage.State()))
        invariant SameTotal(released, validPermits, old(released), permits[..i])
      {
        FilteredNext(validEnvelopes, validPermits, storage.State(), storage.pid, parse, pending, i,
          old(storage.State()));
        OneMore(released, validPermits, old(released), permits, i);
        assert Indexed(byIndex, i) == ErrorOf(parse, pending[i]);
        var keep := Judge(envelopes[i], permits[i], byIndex, i);
        if keep {
          validEnvelopes := validEnvelopes + [envelopes[i]];
          validPermits := validPermits + [permits[i]];
        }
        i := i + 1;
      }
      assert pending[..i] == pending && permits[..i] == permits;
    }

    /** `registered` says whether the registry knows the worker; `registryError` is what it answers if not. */
    method ProcessPendingBatch(parse: Parser, worker: Worker, registered: bool, registryError: string,
                               pending: seq<PendingJob>, outcome: Outcome, now: int) returns (result: RunResult)
      modifies storage, this
      ensures result != LengthMismatch
      ensures SameTotal(released, [], old(released), Permits(pending))
      ensures storage.State() ==
                if registered then BatchEffect(old(storage.State()), storage.pid, parse, worker, outcome, pending, now)
                else KillEvery(old(storage.State()), storage.pid, EnvelopesOf(pending), registryError)
      ensures registered && Survivors(parse, pending) != [] ==>
                workerItems == ItemsOf(Survivors(parse, pending), worker.resume, now)
    {
      var envelopes, permits := EnvelopesOf(pending), Permits(pending);
      if envelopes == [] {
        return Ran(true);
      }
      if !registered {
        KillAll(envelopes, registryError);
        ReleaseAll(permits);
        return Ran(true);
      }
      var values := ArgsOfEach(envelopes);
      var build := JobBatchFactory(parse, values, pending);
      var byIndex := InvalidJobsByIndex(build.invalid, |envelopes|);
      forall k | 0 <= k < |pending|
        ensures Indexed(byIndex, k) == ErrorOf(parse, pending[k])
      {
        ErrorsAreTheParse(parse, values, build.invalid, k);
      }
      if byIndex != map[] {
        envelopes, permits := DropInvalid(parse, envelopes, permits, byIndex, pending);
      } else {
        AllValid(parse, pending, storage.State(), storage.pid);
      }
      result := RunSurvivors(worker, build.job, envelopes, permits, Survivors(parse, pending), outcome, now);
    }

    /** A job outside batches: parse or kill, start, run, and finish by its own policy. Its effect is that of
        a batch of one. */
    method ProcessPendingJob(parse: Parser, worker: Worker, pending: PendingJob, outcome: Outcome, now: int)
      modifies storage, this
      ensures released == old(released) + [pending.permit]
      ensures storage.State() == BatchEffect(old(storage.State()), storage.pid, parse, worker, outcome, [pending], now)
      ensures parse(pending.envelope.job.args).ValidArgs? ==>
                workerItems == ItemsOf(Survivors(parse, [pending]), worker.resume, now)
    {
      BatchOfOne(old(storage.State()), storage.pid, parse, worker, outcome, pending, now);
      match parse(pending.envelope.job.args)
      case InvalidArgs(error) =>
        storage.KillJob(pending.envelope, error);
        ReleaseAll([pending.permit]);
      case ValidArgs(payload) =>
        var e := pending.envelope;
        if !worker.resume {
          e := WithState(e, None);
        }
        e := storage.SetStartedAt(e, now);
        var policy := PolicyFor(worker, payload, e);
        workerItems := [BatchItem(payload, e)];
        match outcome {
          case Succeeded =>
            storage.FinishWithSuccess(e);
          case Failed(error, _) =>
            storage.HandleError(e, error, DelayAfter(outcome, e, policy.retryDelay), policy.maxRetries, now);
          case Panicked(message) =>
            storage.HandleError(e, message, policy.retryDelay, policy.maxRetries, now);
        }
        ReleaseAll([pending.permit]);
    }

    method RunSurvivors(worker: Worker, job: Option<seq<Payload>>, envelopes: seq<JobEnvelope>, permits: seq<Permit>,
                        ghost bound: seq<Bound>, outcome: Outcome, now: int) returns (result: RunResult)
      requires job == if bound == [] then None else Some(Payloads(bound))
      requires envelopes == Envelopes(bound)
      modifies storage, this
      ensures result != LengthMismatch
      ensures released == old(released) + permits
      ensures var items := ItemsOf(bound, worker.resume, now);
              && (items == [] ==> storage.State() == old(storage.State()))
              && (items != [] ==>
                   && workerItems == items
                   && storage.State() == Finish(StartEach(old(storage.State()), Contexts(items)), storage.pid, worker,
                                                outcome, items, now))
    {
      if job == None {
        ReleaseAll(permits);
        return Ran(true);
      }
      result := RunBatch(worker, job.value, envelopes, outcome, now);
      assert workerItems == ItemsOf(bound, worker.resume, now);
      ReleaseAll(permits);
    }
  }

  lemma BatchOfOne(s: Store, pid: ProcessId, parse: Parser, worker: Worker, outcome: Outcome, job: PendingJob, now: int)
    ensures match parse(job.envelope.job.args)
            case InvalidArgs(error) =>
              BatchEffect(s, pid, parse, worker, outcome, [job], now) == Kill(s, pid, job.envelope, error)
            case ValidArgs(payload) =>
              var e := Lifecycle.Started(job.envelope, worker.resume, now);
              && ItemsOf(Survivors(parse, [job]), worker.resume, now) == [BatchItem(payload, e)]
              && BatchEffect(s, pid, parse, worker, outcome, [job], now) ==
                   if outcome.Succeeded? then FinishSuccess(StoreEnvelope(s, e), pid, e)
                   else FailOne(StoreEnvelope(s, e), pid, worker, outcome, BatchItem(payload, e), now)
  {
    assert [job][..0] == [] && [job][|[job]| - 1] == job;
    assert KillInvalid(s, pid, parse, [job][..0]) == s && Survivors(parse, [job][..0]) == [];
    match parse(job.envelope.job.args)
    case InvalidArgs(_) =>
    case ValidArgs(payload) =>
      var e := Lifecycle.Started(job.envelope, worker.resume, now);
      var items := ItemsOf(Survivors(parse, [job]), worker.resume, now);
      assert items == [BatchItem(payload, e)];
      assert items[..0] == [] && Contexts(items) == [e] && [e][..0] == [] && [e][1..] == [];
      var started := StartEach(s, [e]);
      assert started == StoreEnvelope(StartEach(s, [e][..0]), e);
      Moves.BatchFinishIsOneByOne(started, pid, [e]);
      assert Moves.SucceedEach(started, pid, [e]) == Moves.SucceedEach(FinishSuccess(started, pid, e), pid, [e][1..]);
      assert FailEach(started, pid, worker, outcome, items[..0], now) == started;
  }

  /** The same permits, each as often, in the first two as in the last two. */
  ghost predicate SameTotal(a: seq<Permit>, b: seq<Permit>, c: seq<Permit>, d: seq<Permit>) {
    forall p :: multiset(a)[p] + multiset(b)[p] == multiset(c)[p] + multiset(d)[p]
  }

  lemma OneMore(a: seq<Permit>, b: seq<Permit>, c: seq<Permit>, permits: seq<Permit>, i: nat)
    requires i < |permits| && SameTotal(a, b, c, permits[..i])
    ensures SameTotal(a + [permits[i]], b, c, permits[..i + 1])
    ensures SameTotal(a, b + [permits[i]], c, permits[..i + 1])
  {
    assert permits[..i + 1] == permits[..i] + [permits[i]];
  }

  /** What the filter has after the jobs of `done`. */
  ghost predicate Filtered(es: seq<JobEnvelope>, permits: seq<Permit>, s: Store, pid: ProcessId, parse: Parser,
                           done: seq<PendingJob>, start: Store) {
    && es == Envelopes(Survivors(parse, done))
    && permits == PermitsOf(Survivors(parse, done))
    && s == KillInvalid(start, pid, parse, done)
  }

  lemma FilteredNext(es: seq<JobEnvelope>, permits: seq<Permit>, s: Store, pid: ProcessId, parse: Parser,
                     pending: seq<PendingJob>, i: nat, start: Store)
    requires i < |pending| && Filtered(es, permits, s, pid, parse, pending[..i], start)
    ensures match ErrorOf(parse, pending[i])
            case None =>
              Filtered(es + [pending[i].envelope], permits + [pending[i].permit], s, pid, parse,
                       pending[..i + 1], start)
            case Some(error) =>
              Filtered(es, permits, Kill(s, pid, pending[i].envelope, error), pid, parse, pending[..i + 1], start)
  {
    assert pending[..i + 1][..i] == pending[..i];
  }

  function PolicyFor(worker: Worker, payload: Payload, e: JobEnvelope): Policy {
    Policy(worker.maxRetries(payload), worker.retryDelay(payload, e.meta.retries))
  }

  function Zip(jobs: seq<Payload>, es: seq<JobEnvelope>): (r: seq<BatchItem>)
    requires |jobs| == |es|
    ensures |r| == |jobs| && forall k :: 0 <= k < |r| ==> r[k] == BatchItem(jobs[k], es[k])
  {
    seq(|jobs|, k requires 0 <= k < |jobs| => BatchItem(jobs[k], es[k]))
  }

  function EnvelopesOf(pending: seq<PendingJob>): (r: seq<JobEnvelope>)
    ensures |r| == |pending| && forall k :: 0 <= k < |r| ==> r[k] == pending[k].envelope
  {
    seq(|pending|, k requires 0 <= k < |pending| => pending[k].envelope)
  }

  function ArgsOfEach(es: seq<JobEnvelope>): (r: seq<Json>)
    ensures |r| == |es| && forall k :: 0 <= k < |r| ==> r[k] == es[k].job.args
  {
    seq(|es|, k requires 0 <= k < |es| => es[k].job.args)
  }

  lemma {:induction false} AllValid(parse: Parser, pending: seq<PendingJob>, s: Store, pid: ProcessId)
    requires forall k :: 0 <= k < |pending| ==> parse(pending[k].envelope.job.args).ValidArgs?
    ensures Envelopes(Survivors(parse, pending)) == EnvelopesOf(pending)
    ensures KillInvalid(s, pid, parse, pending) == s
  {
    if pending != [] {
      AllValid(parse, pending[..|pending| - 1], s, pid);
    }
  }
}
