/** The coordinator's map of batch formers, one for each worker and queue, and the loop that hands a
    job over: a batch former whose channel is closed is forgotten and replaced. */
module BatcherPool {
  import opened Redis
  import opened Envelope
  import opened B = Batcher

  datatype BatchKey = BatchKey(worker: JobName, queue: QueueName)

  function KeyOf(job: Job): BatchKey {
    BatchKey(job.envelope.job.name, job.envelope.queue)
  }

  datatype Member = Member(key: BatchKey, system: System)

  /** `registered` is the coordinator's map, `members` every batch former it ever spawned, in order;
      `waiting` is the job that `send_to_batcher` is handing over. */
  datatype Pool = Pool(
    registered: map<BatchKey, nat>,
    members: seq<Member>,
    waiting: Option<Job>,
    running: bool,
    cancelled: bool,
    routed: seq<Job>)

  datatype PoolEvent =
    | Arrive(job: Job)
      /** `or_insert_with(spawn_batcher)`: the new batch former runs from here on. */
    | Spawn
      /** The send completes: accepted, or refused because the channel is closed. */
    | TrySend
      /** An event of one batch former. */
    | Inside(i: nat, e: Event)
    | CancelAll
      /** The coordinator returns and drops its map. */
    | Stop

  datatype Settings = Settings(size: nat, zeroTimeout: bool)

  predicate Spawned(p: Pool) {
    forall key :: key in p.registered ==> p.registered[key] < |p.members|
  }

  predicate Possible(p: Pool, e: PoolEvent, conf: Settings)
    requires Spawned(p)
  {
    match e
    case Arrive(_) => p.running && p.waiting == None
    case Spawn => p.running && p.waiting.Some? && KeyOf(p.waiting.value) !in p.registered
    case TrySend =>
      p.running && p.waiting.Some? && KeyOf(p.waiting.value) in p.registered &&
      B.Possible(p.members[p.registered[KeyOf(p.waiting.value)]].system, Send(p.waiting.value), conf.size)
    case Inside(i, inner) =>
      i < |p.members| && B.Possible(p.members[i].system, inner, conf.size) &&
      (inner.Step? || (inner.Cancel? && p.cancelled) ||
       (inner.HangUp? && forall key :: key in p.registered ==> p.registered[key] != i))
    case CancelAll => true
    case Stop => p.running && p.waiting == None
  }

  function Register(p: Pool, key: BatchKey): Pool {
    p.(registered := p.registered[key := |p.members|], members := p.members + [Member(key, NewSystem(p.cancelled))])
  }

  /** A refused job stays with the sender, which forgets the closed channel and tries again. */
  function HandOver(p: Pool, i: nat, job: Job): Pool
    requires i < |p.members|
  {
    if Closed(p.members[i].system)
    then p.(registered := p.registered - {KeyOf(job)})
    else p.(members := p.members[i := Accepting(p.members[i], job)], waiting := None, routed := p.routed + [job])
  }

  function Accepting(m: Member, job: Job): Member {
    m.(system := m.system.(channel := m.system.channel + [job], accepted := m.system.accepted + [job]))
  }

  function Happen(p: Pool, e: PoolEvent, conf: Settings): Pool
    requires Spawned(p) && Possible(p, e, conf)
  {
    match e
    case Arrive(job) => p.(waiting := Some(job))
    case Spawn => Register(p, KeyOf(p.waiting.value))
    case TrySend => HandOver(p, p.registered[KeyOf(p.waiting.value)], p.waiting.value)
    case Inside(i, inner) =>
      p.(members := p.members[i :=
        p.members[i].(system := B.Happen(p.members[i].system, inner, conf.size, conf.zeroTimeout))])
    case CancelAll => p.(cancelled := true)
    case Stop => p.(running := false, registered := map[])
  }

  // ---- what every history keeps ----

  function OfKey(jobs: seq<Job>, key: BatchKey): seq<Job> {
    if jobs == [] then []
    else
      var last := jobs[|jobs| - 1];
      OfKey(jobs[..|jobs| - 1], key) + (if KeyOf(last) == key then [last] else [])
  }

  /** What the batch formers of a key accepted, the oldest batch former first. */
  ghost function AcceptedBy(members: seq<Member>, key: BatchKey): seq<Job> {
    if members == [] then []
    else
      var last := members[|members| - 1];
      AcceptedBy(members[..|members| - 1], key) + (if last.key == key then last.system.accepted else [])
  }

  /** The registered batch former is the youngest of its key, and its sender is alive. */
  ghost predicate Registered(p: Pool) {
    forall key :: key in p.registered ==>
      && p.registered[key] < |p.members|
      && p.members[p.registered[key]].key == key
      && !p.members[p.registered[key]].system.hungUp
      && forall j :: p.registered[key] < j < |p.members| ==> p.members[j].key != key
  }

  /** While the coordinator runs, only the registered batch former of a key can be open. */
  ghost predicate OneOpen(p: Pool) {
    p.running ==>
      forall i :: 0 <= i < |p.members| && !Closed(p.members[i].system) ==>
        p.members[i].key in p.registered && p.registered[p.members[i].key] == i
  }

  ghost predicate OwnKeyOnly(m: Member) {
    forall k :: 0 <= k < |m.system.accepted| ==> KeyOf(m.system.accepted[k]) == m.key
  }

  ghost predicate MembersSound(members: seq<Member>, size: nat) {
    forall i :: 0 <= i < |members| ==> B.Sound(members[i].system, size) && OwnKeyOnly(members[i])
  }

  ghost predicate Sound(p: Pool, conf: Settings) {
    && Registered(p)
    && OneOpen(p)
    && MembersSound(p.members, conf.size)
    && (forall key :: AcceptedBy(p.members, key) == OfKey(p.routed, key))
  }

  lemma {:induction false} AcceptedBySame(members: seq<Member>, i: nat, m: Member, key: BatchKey)
    requires i < |members| && m.key == members[i].key && m.system.accepted == members[i].system.accepted
    ensures AcceptedBy(members[i := m], key) == AcceptedBy(members, key)
  {
    var n := |members| - 1;
    if i < n {
      assert members[i := m][..n] == members[..n][i := m];
      AcceptedBySame(members[..n], i, m, key);
    } else {
      assert members[i := m][..n] == members[..n];
    }
  }

  lemma {:induction false} AcceptedByGrows(members: seq<Member>, i: nat, job: Job, key: BatchKey)
    requires i < |members| && members[i].key == KeyOf(job)
    requires forall j :: i < j < |members| ==> members[j].key != KeyOf(job)
    ensures AcceptedBy(members[i := Accepting(members[i], job)], key)
         == AcceptedBy(members, key) + (if KeyOf(job) == key then [job] else [])
  {
    var n := |members| - 1;
    var members' := members[i := Accepting(members[i], job)];
    if i < n {
      assert members'[..n] == members[..n][i := Accepting(members[..n][i], job)];
      AcceptedByGrows(members[..n], i, job, key);
      assert members'[n] == members[n];
      if members[n].key == key {
        assert KeyOf(job) != key;
      } else {
        assert AcceptedBy(members, key) == AcceptedBy(members[..n], key);
      }
    } else {
      assert members'[..n] == members[..n];
    }
  }

  lemma NewAcceptsNothing(members: seq<Member>, key: BatchKey, cancelled: bool, k: BatchKey)
    ensures AcceptedBy(members + [Member(key, NewSystem(cancelled))], k) == AcceptedBy(members, k)
  {
    assert (members + [Member(key, NewSystem(cancelled))])[..|members|] == members;
  }

  lemma RegisterKeepsMap(p: Pool, key: BatchKey)
    requires Registered(p) && OneOpen(p) && key !in p.registered
    ensures Registered(Register(p, key)) && OneOpen(Register(p, key))
  {
    var p', n := Register(p, key), |p.members|;
    assert p'.members[n] == Member(key, NewSystem(p.cancelled));
    assert forall i :: 0 <= i < n ==> p'.members[i] == p.members[i];
    assert forall k :: k in p'.registered && k != key ==> k in p.registered && p'.registered[k] == p.registered[k];
  }

  lemma RegisterKeepsMembers(members: seq<Member>, key: BatchKey, cancelled: bool, size: nat)
    requires size > 0 && MembersSound(members, size)
    ensures MembersSound(members + [Member(key, NewSystem(cancelled))], size)
  {
    assert B.Sound(NewSystem(cancelled), size) && OwnKeyOnly(Member(key, NewSystem(cancelled)));
  }

  lemma RegisterKeepsSound(p: Pool, key: BatchKey, conf: Settings)
    requires conf.size > 0 && Sound(p, conf) && key !in p.registered
    ensures Sound(Register(p, key), conf)
  {
    var p' := Register(p, key);
    RegisterKeepsMap(p, key);
    RegisterKeepsMembers(p.members, key, p.cancelled, conf.size);
    forall k ensures AcceptedBy(p'.members, k) == OfKey(p'.routed, k) {
      NewAcceptsNothing(p.members, key, p.cancelled, k);
    }
  }

  lemma AcceptingKeepsMember(m: Member, job: Job, size: nat)
    requires B.Sound(m.system, size) && OwnKeyOnly(m) && KeyOf(job) == m.key && !Closed(m.system)
    ensures B.Sound(Accepting(m, job).system, size) && OwnKeyOnly(Accepting(m, job))
  {
    var s, s' := m.system, Accepting(m, job).system;
    assert Taken(s'.task) + s'.channel == Taken(s.task) + s.channel + [job];
  }

  lemma RoutingAgrees(members: seq<Member>, routed: seq<Job>, i: nat, job: Job)
    requires forall key :: AcceptedBy(members, key) == OfKey(routed, key)
    requires i < |members| && members[i].key == KeyOf(job)
    requires forall j :: i < j < |members| ==> members[j].key != KeyOf(job)
    ensures forall key :: AcceptedBy(members[i := Accepting(members[i], job)], key) == OfKey(routed + [job], key)
  {
    assert (routed + [job])[..|routed|] == routed;
    forall key ensures AcceptedBy(members[i := Accepting(members[i], job)], key) == OfKey(routed + [job], key) {
      AcceptedByGrows(members, i, job, key);
    }
  }

  lemma ForgetKeepsSound(p: Pool, key: BatchKey, conf: Settings)
    requires conf.size > 0 && Sound(p, conf) && key in p.registered && Closed(p.members[p.registered[key]].system)
    ensures Sound(p.(registered := p.registered - {key}), conf)
  {
  }

  lemma HandOverKeepsSound(p: Pool, job: Job, conf: Settings)
    requires conf.size > 0 && Sound(p, conf) && KeyOf(job) in p.registered
    ensures Sound(HandOver(p, p.registered[KeyOf(job)], job), conf)
  {
    var i := p.registered[KeyOf(job)];
    if Closed(p.members[i].system) {
      ForgetKeepsSound(p, KeyOf(job), conf);
    } else {
      var p' := HandOver(p, i, job);
      assert MembersSound(p'.members, conf.size) by {
        AcceptingKeepsMember(p.members[i], job, conf.size);
      }
      assert Registered(p');
      assert OneOpen(p');
      RoutingAgrees(p.members, p.routed, i, job);
    }
  }

  lemma MemberKeeps(s: System, inner: Event, conf: Settings)
    requires conf.size > 0 && B.Sound(s, conf.size) && B.Possible(s, inner, conf.size)
    requires inner.Step? || inner.Cancel? || inner.HangUp?
    ensures var s' := B.Happen(s, inner, conf.size, conf.zeroTimeout);
            && B.Sound(s', conf.size) && s'.accepted == s.accepted && (Closed(s) ==> Closed(s'))
            && (!inner.HangUp? ==> s'.hungUp == s.hungUp)
  {
    B.EventKeepsSound(s, inner, conf.size, conf.zeroTimeout);
  }

  /** A member may change as long as what it accepted stays; only one that nobody is registered for hangs up. */
  lemma SameAccepted(p: Pool, i: nat, m: Member, conf: Settings)
    requires Sound(p, conf) && i < |p.members| && B.Sound(m.system, conf.size)
    requires m.key == p.members[i].key && m.system.accepted == p.members[i].system.accepted
    requires Closed(p.members[i].system) ==> Closed(m.system)
    requires m.system.hungUp == p.members[i].system.hungUp
             || forall key :: key in p.registered ==> p.registered[key] != i
    ensures Sound(p.(members := p.members[i := m]), conf)
  {
    var p' := p.(members := p.members[i := m]);
    assert Registered(p');
    forall k ensures AcceptedBy(p'.members, k) == OfKey(p'.routed, k) {
      AcceptedBySame(p.members, i, m, k);
    }
  }

  lemma InsideKeepsSound(p: Pool, i: nat, inner: Event, conf: Settings)
    requires conf.size > 0 && Sound(p, conf) && Possible(p, Inside(i, inner), conf)
    ensures Sound(Happen(p, Inside(i, inner), conf), conf)
  {
    MemberKeeps(p.members[i].system, inner, conf);
    SameAccepted(p, i, Happen(p, Inside(i, inner), conf).members[i], conf);
  }

  lemma EventKeepsSound(p: Pool, e: PoolEvent, conf: Settings)
    requires conf.size > 0 && Sound(p, conf) && Possible(p, e, conf)
    ensures Sound(Happen(p, e, conf), conf)
  {
    match e
    case Spawn => RegisterKeepsSound(p, KeyOf(p.waiting.value), conf);
    case TrySend => HandOverKeepsSound(p, p.waiting.value, conf);
    case Inside(i, inner) => InsideKeepsSound(p, i, inner, conf);
    case Arrive(_) =>
    case CancelAll =>
    case Stop =>
  }

  ghost predicate AllPossible(p: Pool, es: seq<PoolEvent>, conf: Settings)
    decreases |es|
  {
    es == [] ||
    (Spawned(p) && Possible(p, es[0], conf) && AllPossible(Happen(p, es[0], conf), es[1..], conf))
  }

  ghost function Play(p: Pool, es: seq<PoolEvent>, conf: Settings): Pool
    requires AllPossible(p, es, conf)
    decreases |es|
  {
    if es == [] then p else Play(Happen(p, es[0], conf), es[1..], conf)
  }

  function NewPool(): Pool {
    Pool(map[], [], None, true, false, [])
  }

  lemma {:induction false} EveryHistoryIsSound(p: Pool, es: seq<PoolEvent>, conf: Settings)
    requires conf.size > 0 && Sound(p, conf) && AllPossible(p, es, conf)
    ensures Sound(Play(p, es, conf), conf)
    decreases |es|
  {
    if es != [] {
      EventKeepsSound(p, es[0], conf);
      EveryHistoryIsSound(Happen(p, es[0], conf), es[1..], conf);
    }
  }

  /** When the coordinator returns it lets go of every batch former, so each can see the end of its channel. */
  lemma StopLetsGo(p: Pool, conf: Settings, i: nat)
    requires Spawned(p) && Possible(p, Stop, conf) && i < |p.members|
    ensures var p' := Happen(p, Stop, conf); Spawned(p') && !p'.running && Possible(p', Inside(i, HangUp), conf)
  {
  }

  /** The jobs that came to the coordinator, in order. */
  function Arrived(es: seq<PoolEvent>): seq<Job> {
    if es == [] then [] else (match es[0] case Arrive(job) => [job] case _ => []) + Arrived(es[1..])
  }

  function InHand(p: Pool): seq<Job> {
    match p.waiting case Some(job) => [job] case None => []
  }

  /** Every job that came is handed over to a batch former, once and in order of arrival, or is the one that is being
      handed over: a refused job is not lost. */
  lemma {:induction false} ArrivalsAreHandedOver(p: Pool, es: seq<PoolEvent>, conf: Settings)
    requires AllPossible(p, es, conf)
    ensures Play(p, es, conf).routed + InHand(Play(p, es, conf)) == p.routed + InHand(p) + Arrived(es)
    decreases |es|
  {
    if es == [] {
      assert p.routed + InHand(p) + [] == p.routed + InHand(p);
    } else {
      var p' := Happen(p, es[0], conf);
      ArrivalsAreHandedOver(p', es[1..], conf);
      var came := match es[0] case Arrive(job) => [job] case _ => [];
      assert p'.routed + InHand(p') == p.routed + InHand(p) + came;
      assert p.routed + InHand(p) + came + Arrived(es[1..]) == p.routed + InHand(p) + (came + Arrived(es[1..]));
    }
  }

  /** The batches cut for a key by all its batch formers, oldest first, joined. */
  ghost function BatchedFor(members: seq<Member>, key: BatchKey): seq<Job> {
    if members == [] then []
    else
      var last := members[|members| - 1];
      BatchedFor(members[..|members| - 1], key) + (if last.key == key then Flatten(last.system.task.batches) else [])
  }

  ghost predicate AllReturned(members: seq<Member>) {
    forall i :: 0 <= i < |members| ==> members[i].system.task.at == Done
  }

  lemma {:induction false} DoneMeansBatched(members: seq<Member>, key: BatchKey, size: nat)
    requires MembersSound(members, size) && AllReturned(members)
    ensures BatchedFor(members, key) == AcceptedBy(members, key)
  {
    if members != [] {
      DoneMeansBatched(members[..|members| - 1], key, size);
    }
  }

  lemma {:induction false} InFlatten(batches: seq<seq<Job>>, b: nat, job: Job)
    requires b < |batches| && job in batches[b]
    ensures job in Flatten(batches)
  {
    if b < |batches| - 1 {
      InFlatten(batches[..|batches| - 1], b, job);
    }
  }

  /** From the start of the coordinator: once every batch former has returned, the jobs handed over for
      a worker and queue are in its batches exactly once and in order, across all the batch formers that
      replaced one another; and no batch mixes workers or queues. */
  lemma EveryJobIsBatchedOnce(es: seq<PoolEvent>, conf: Settings, key: BatchKey)
    requires conf.size > 0 && AllPossible(NewPool(), es, conf)
    requires AllReturned(Play(NewPool(), es, conf).members)
    ensures BatchedFor(Play(NewPool(), es, conf).members, key) == OfKey(Play(NewPool(), es, conf).routed, key)
    ensures Play(NewPool(), es, conf).waiting == None ==>
              BatchedFor(Play(NewPool(), es, conf).members, key) == OfKey(Arrived(es), key)
  {
    assert Sound(NewPool(), conf);
    EveryHistoryIsSound(NewPool(), es, conf);
    DoneMeansBatched(Play(NewPool(), es, conf).members, key, conf.size);
    ArrivalsAreHandedOver(NewPool(), es, conf);
    var end := Play(NewPool(), es, conf);
    assert end.waiting == None ==> end.routed + InHand(end) == end.routed;
    assert [] + [] + Arrived(es) == Arrived(es);
  }

  lemma BatchesDoNotMix(p: Pool, conf: Settings, i: nat, b: nat, job: Job)
    requires Sound(p, conf) && i < |p.members|
    requires b < |p.members[i].system.task.batches| && job in p.members[i].system.task.batches[b]
    ensures job.envelope.job.name == p.members[i].key.worker && job.envelope.queue == p.members[i].key.queue
  {
    InFlatten(p.members[i].system.task.batches, b, job);
    assert job in p.members[i].system.accepted;
  }
}
