/** Any number of pollers on one sorted set, interleaved at the level of single Redis commands:
    ZRANGEBYSCORE or ZRANGE, a ZREM per id, one HMGET, an LPUSH per queue. */
module Claims {
  import opened Redis
  import opened Envelope
  import opened S = Store

  datatype Poller =
    | Idle
      /** `scores` is what the range reply saw; the first `i` ids have been tried. */
    | Claiming(ids: seq<JobId>, i: nat, claimed: seq<JobId>, scores: map<JobId, int>)
    | Pushing(envs: seq<JobEnvelope>, scores: map<JobId, int>)

  /** `added`, `pushed`, `lost` and `removed` count what came into the set, what pollers put into a queue,
      what had no envelope left when it was claimed, and what other clients took out of the set. */
  datatype Race = Race(
    z: map<JobId, int>,
    jobs: map<JobId, JobEnvelope>,
    queues: map<QueueName, seq<JobId>>,
    pollers: seq<Poller>,
    added: multiset<JobId>,
    pushed: multiset<JobId>,
    lost: multiset<JobId>,
    removed: multiset<JobId>)

  datatype Action =
    | RangeReply(p: nat, ids: seq<JobId>)
    | TryClaim(p: nat)
    | Fetch(p: nat)
    | PushQueue(p: nat, queue: QueueName)
      // other clients
    | ZAdd(id: JobId, score: int)
    | SetJob(env: JobEnvelope)
    | DeleteJob(id: JobId)
    | Pop(queue: QueueName)
      // what an enqueue and a Replace of another client send besides
    | ZRem(id: JobId)
    | LPushOne(queue: QueueName, id: JobId)
    | LRemAll(queue: QueueName, id: JobId)

  function IdsOf(es: seq<JobEnvelope>): (ids: seq<JobId>)
    ensures |ids| == |es|
    ensures forall i :: 0 <= i < |es| ==> ids[i] == es[i].id
  {
    if es == [] then [] else [es[0].id] + IdsOf(es[1..])
  }

  /** The envelopes of one queue, in order: one entry of the map that `claim` groups them into. */
  function ForQueue(es: seq<JobEnvelope>, q: QueueName): (r: seq<JobEnvelope>)
    ensures forall e :: e in r <==> e in es && e.queue == q
  {
    if es == [] then [] else (if es[0].queue == q then [es[0]] else []) + ForQueue(es[1..], q)
  }

  function NotForQueue(es: seq<JobEnvelope>, q: QueueName): (r: seq<JobEnvelope>)
    ensures forall e :: e in r <==> e in es && e.queue != q
  {
    if es == [] then [] else (if es[0].queue != q then [es[0]] else []) + NotForQueue(es[1..], q)
  }

  /** LPUSH of several values pushes them one after another. */
  function PushMany(l: seq<JobId>, ids: seq<JobId>): seq<JobId> {
    Reverse(ids) + l
  }

  predicate Enabled(r: Race, a: Action) {
    match a
    case RangeReply(p, ids) => p < |r.pollers| && r.pollers[p].Idle?
    case TryClaim(p) => p < |r.pollers| && r.pollers[p].Claiming? && r.pollers[p].i < |r.pollers[p].ids|
    case Fetch(p) => p < |r.pollers| && r.pollers[p].Claiming? && r.pollers[p].i == |r.pollers[p].ids|
    case PushQueue(p, q) => p < |r.pollers| && r.pollers[p].Pushing? && ForQueue(r.pollers[p].envs, q) != []
    case _ => true
  }

  /** A range reply lists members of the set, each once, in score order. */
  ghost predicate ReplyIsOrdered(r: Race, a: Action) {
    a.RangeReply? ==> NoDup(a.ids) && InScoreOrder(a.ids, r.z)
  }

  function With(r: Race, p: nat, to: Poller): Race
    requires p < |r.pollers|
  {
    r.(pollers := r.pollers[p := to])
  }

  function Missing(jobs: map<JobId, JobEnvelope>, ids: seq<JobId>): multiset<JobId> {
    if ids == [] then multiset{}
    else (if ids[0] in jobs then multiset{} else multiset{ids[0]}) + Missing(jobs, ids[1..])
  }

  function AfterClaim(c: Poller, won: bool): Poller
    requires c.Claiming? && c.i < |c.ids|
  {
    c.(i := c.i + 1, claimed := if won then c.claimed + [c.ids[c.i]] else c.claimed)
  }

  function AfterFetch(jobs: map<JobId, JobEnvelope>, c: Poller): Poller
    requires c.Claiming?
  {
    var envs := GetMany(jobs, c.claimed);
    if envs == [] then Idle else Pushing(envs, c.scores)
  }

  function AfterPush(c: Poller, q: QueueName): Poller
    requires c.Pushing?
  {
    var rest := NotForQueue(c.envs, q);
    if rest == [] then Idle else c.(envs := rest)
  }

  function Do(r: Race, a: Action): Race
    requires Enabled(r, a)
  {
    match a
    case RangeReply(p, ids) => With(r, p, Claiming(ids, 0, [], r.z))
    case TryClaim(p) =>
      var id := r.pollers[p].ids[r.pollers[p].i];
      With(r, p, AfterClaim(r.pollers[p], id in r.z)).(z := r.z - {id})
    case Fetch(p) =>
      var c := r.pollers[p];
      With(r, p, AfterFetch(r.jobs, c)).(lost := r.lost + Missing(r.jobs, c.claimed))
    case PushQueue(p, q) =>
      var c := r.pollers[p];
      var mine := IdsOf(ForQueue(c.envs, q));
      With(r, p, AfterPush(c, q))
        .(queues := SetList(r.queues, q, PushMany(ListAt(r.queues, q), mine)), pushed := r.pushed + multiset(mine))
    case ZAdd(id, score) =>
      r.(z := r.z[id := score], added := if id in r.z then r.added else r.added + multiset{id})
    case SetJob(e) => r.(jobs := r.jobs[e.id := e])
    case DeleteJob(id) => r.(jobs := r.jobs - {id})
    case Pop(q) =>
      var l := ListAt(r.queues, q);
      if l == [] then r else r.(queues := SetList(r.queues, q, l[..|l| - 1]))
    case ZRem(id) =>
      r.(z := r.z - {id}, removed := if id in r.z then r.removed + multiset{id} else r.removed)
    case LPushOne(q, id) => r.(queues := LPush(r.queues, q, id))
    case LRemAll(q, id) => r.(queues := SetList(r.queues, q, RemoveAll(ListAt(r.queues, q), id)))
  }

  // ---- conservation ----

  function Hand(c: Poller): multiset<JobId> {
    match c
    case Idle => multiset{}
    case Claiming(_, _, claimed, _) => multiset(claimed)
    case Pushing(envs, _) => multiset(IdsOf(envs))
  }

  /** How often the pollers together hold an id. */
  function Hands(cs: seq<Poller>, x: JobId): nat {
    if cs == [] then 0 else Hand(cs[0])[x] + Hands(cs[1..], x)
  }

  ghost predicate Accounted(r: Race, id: JobId) {
    r.added[id] == (if id in r.z then 1 else 0) + Hands(r.pollers, id) + r.pushed[id] + r.lost[id] + r.removed[id]
  }

  /** Every arrival in the set is still there, in exactly one poller's hands, pushed once, lost, or taken out. */
  ghost predicate Conserved(r: Race) {
    && (forall id :: Accounted(r, id))
    && (forall id :: id in r.jobs ==> r.jobs[id].id == id)
  }

  lemma {:induction false} HandsAt(cs: seq<Poller>, p: nat, to: Poller, x: JobId)
    requires p < |cs|
    ensures Hands(cs[p := to], x) + Hand(cs[p])[x] == Hands(cs, x) + Hand(to)[x]
  {
    if p == 0 {
      assert cs[p := to][1..] == cs[1..];
    } else {
      HandsAt(cs[1..], p - 1, to, x);
      assert cs[p := to][1..] == cs[1..][p - 1 := to];
    }
  }

  lemma {:induction false} FetchSplits(jobs: map<JobId, JobEnvelope>, ids: seq<JobId>, x: JobId)
    requires forall id :: id in jobs ==> jobs[id].id == id
    ensures multiset(ids)[x] == multiset(IdsOf(GetMany(jobs, ids)))[x] + Missing(jobs, ids)[x]
  {
    if ids != [] {
      FetchSplits(jobs, ids[1..], x);
      assert ids == [ids[0]] + ids[1..];
      var rest := GetMany(jobs, ids[1..]);
      if ids[0] in jobs {
        assert GetMany(jobs, ids) == [jobs[ids[0]]] + rest;
        assert IdsOf(GetMany(jobs, ids)) == [ids[0]] + IdsOf(rest);
      }
    }
  }

  lemma {:induction false} GroupSplits(es: seq<JobEnvelope>, q: QueueName, x: JobId)
    ensures multiset(IdsOf(es))[x] == multiset(IdsOf(ForQueue(es, q)))[x] + multiset(IdsOf(NotForQueue(es, q)))[x]
  {
    if es != [] {
      GroupSplits(es[1..], q, x);
      var mine, rest := ForQueue(es[1..], q), NotForQueue(es[1..], q);
      assert IdsOf(es) == [es[0].id] + IdsOf(es[1..]);
      if es[0].queue == q {
        assert ([es[0]] + mine)[1..] == mine;
        assert IdsOf([es[0]] + mine) == [es[0].id] + IdsOf(mine);
        assert ForQueue(es, q) == [es[0]] + mine && NotForQueue(es, q) == rest;
      } else {
        assert ([es[0]] + rest)[1..] == rest;
        assert IdsOf([es[0]] + rest) == [es[0].id] + IdsOf(rest);
        assert NotForQueue(es, q) == [es[0]] + rest && ForQueue(es, q) == mine;
      }
    }
  }

  lemma ClaimKeepsTheRest(r: Race, p: nat)
    requires Enabled(r, TryClaim(p))
    ensures var r', id := Do(r, TryClaim(p)), r.pollers[p].ids[r.pollers[p].i];
            && r'.added == r.added && r'.z == r.z - {id} && r'.pushed == r.pushed && r'.lost == r.lost
            && r'.removed == r.removed && r'.pollers == r.pollers[p := AfterClaim(r.pollers[p], id in r.z)]
  {
  }

  lemma ClaimConserves(r: Race, p: nat, x: JobId)
    requires Accounted(r, x) && Enabled(r, TryClaim(p))
    ensures Accounted(Do(r, TryClaim(p)), x)
  {
    var c, r' := r.pollers[p], Do(r, TryClaim(p));
    var won := c.ids[c.i] in r.z;
    ClaimKeepsTheRest(r, p);
    HandsAt(r.pollers, p, AfterClaim(c, won), x);
    OneMoreClaimed(c, won, x);
    ClaimedLeaves(r.z, c.ids[c.i], x);
  }

  lemma ClaimedLeaves(z: map<JobId, int>, id: JobId, x: JobId)
    ensures (if x in z - {id} then 1 else 0) + (if id in z && x == id then 1 else 0) == (if x in z then 1 else 0)
  {
  }

  lemma OneMoreClaimed(c: Poller, won: bool, x: JobId)
    requires c.Claiming? && c.i < |c.ids|
    ensures Hand(AfterClaim(c, won))[x] == Hand(c)[x] + (if won && x == c.ids[c.i] then 1 else 0)
  {
  }

  lemma FetchConserves(r: Race, p: nat, x: JobId)
    requires Accounted(r, x) && Enabled(r, Fetch(p))
    requires forall id :: id in r.jobs ==> r.jobs[id].id == id
    ensures Accounted(Do(r, Fetch(p)), x)
  {
    var c, c' := r.pollers[p], AfterFetch(r.jobs, r.pollers[p]);
    FetchKeepsTheRest(r, p);
    FetchedHand(r.jobs, c, x);
    HandsAt(r.pollers, p, c', x);
  }

  lemma FetchKeepsTheRest(r: Race, p: nat)
    requires Enabled(r, Fetch(p))
    ensures var r' := Do(r, Fetch(p));
            && r'.added == r.added && r'.z == r.z && r'.pushed == r.pushed && r'.removed == r.removed
            && r'.lost == r.lost + Missing(r.jobs, r.pollers[p].claimed)
            && r'.pollers == r.pollers[p := AfterFetch(r.jobs, r.pollers[p])]
  {
  }

  lemma FetchedHand(jobs: map<JobId, JobEnvelope>, c: Poller, x: JobId)
    requires c.Claiming? && forall id :: id in jobs ==> jobs[id].id == id
    ensures Hand(AfterFetch(jobs, c))[x] + Missing(jobs, c.claimed)[x] == Hand(c)[x]
  {
    FetchSplits(jobs, c.claimed, x);
  }

  lemma PushConserves(r: Race, p: nat, q: QueueName, x: JobId)
    requires Accounted(r, x) && Enabled(r, PushQueue(p, q))
    ensures Accounted(Do(r, PushQueue(p, q)), x)
  {
    var c, c' := r.pollers[p], AfterPush(r.pollers[p], q);
    assert Hand(c')[x] + multiset(IdsOf(ForQueue(c.envs, q)))[x] == Hand(c)[x] by { GroupSplits(c.envs, q, x); }
    HandsAt(r.pollers, p, c', x);
  }

  lemma ActionConserves(r: Race, a: Action)
    requires Conserved(r) && Enabled(r, a)
    ensures Conserved(Do(r, a))
  {
    forall x ensures Accounted(Do(r, a), x) {
      assert Accounted(r, x);
      match a
      case RangeReply(p, ids) => HandsAt(r.pollers, p, Do(r, a).pollers[p], x);
      case TryClaim(p) => ClaimConserves(r, p, x);
      case Fetch(p) => FetchConserves(r, p, x);
      case PushQueue(p, q) => PushConserves(r, p, q, x);
      case ZAdd(id, score) =>
      case SetJob(e) =>
      case DeleteJob(id) =>
      case Pop(q) =>
      case ZRem(id) =>
      case LPushOne(q, id) =>
      case LRemAll(q, id) =>
    }
  }

  ghost predicate Enableds(r: Race, as_: seq<Action>)
    decreases |as_|
  {
    as_ == [] || (Enabled(r, as_[0]) && ReplyIsOrdered(r, as_[0]) && Enableds(Do(r, as_[0]), as_[1..]))
  }

  ghost function DoAll(r: Race, as_: seq<Action>): Race
    requires Enableds(r, as_)
    decreases |as_|
  {
    if as_ == [] then r else DoAll(Do(r, as_[0]), as_[1..])
  }

  /** In every interleaving each arrival is conserved; so a member that arrived once is never in two
      pollers' hands, never pushed twice, and never both. */
  lemma {:induction false} NoDuplicateClaims(r: Race, as_: seq<Action>)
    requires Conserved(r) && Enableds(r, as_)
    ensures var end := DoAll(r, as_);
            && Conserved(end)
            && (forall id :: end.added[id] <= 1 ==>
                 Hands(end.pollers, id) + end.pushed[id] + end.lost[id] + end.removed[id] <= 1)
    decreases |as_|
  {
    if as_ != [] {
      ActionConserves(r, as_[0]);
      NoDuplicateClaims(Do(r, as_[0]), as_[1..]);
    } else {
      forall id ensures r.added[id] <= 1 ==> Hands(r.pollers, id) + r.pushed[id] + r.lost[id] + r.removed[id] <= 1 {
        assert Accounted(r, id);
      }
    }
  }

  lemma {:induction false} IdleHandsEmpty(cs: seq<Poller>, x: JobId)
    requires forall c :: c in cs ==> c.Idle?
    ensures Hands(cs, x) == 0
  {
    if cs != [] {
      assert cs[0] in cs;
      IdleHandsEmpty(cs[1..], x);
    }
  }

  /** Once all pollers are done, what left the set was pushed, had no envelope or was taken out: once each. */
  lemma QuiescentAccounting(r: Race)
    requires Conserved(r) && forall c :: c in r.pollers ==> c.Idle?
    ensures forall id :: r.added[id] == (if id in r.z then 1 else 0) + r.pushed[id] + r.lost[id] + r.removed[id]
  {
    forall id ensures r.added[id] == (if id in r.z then 1 else 0) + r.pushed[id] + r.lost[id] + r.removed[id] {
      IdleHandsEmpty(r.pollers, id);
      assert Accounted(r, id);
    }
  }

  // ---- progress ----

  /** What a poller holds is what it has tried, and it never waits to push nothing. */
  ghost predicate Busy(c: Poller) {
    match c
    case Idle => true
    case Claiming(ids, i, claimed, _) => |claimed| <= i <= |ids|
    case Pushing(envs, _) => envs != []
  }

  /** How many more actions of its own a poller takes before it is idle, at the most. */
  function ToDo(c: Poller): int {
    match c
    case Idle => 0
    case Claiming(ids, i, _, _) => 1 + |ids| + (|ids| - i)
    case Pushing(envs, _) => |envs|
  }

  /** The poller that the action belongs to goes on with its round. */
  predicate GoesOn(a: Action, p: nat) {
    (a.TryClaim? || a.Fetch? || a.PushQueue?) && a.p == p
  }

  lemma {:induction false} FetchIsNoLonger(jobs: map<JobId, JobEnvelope>, ids: seq<JobId>)
    ensures |GetMany(jobs, ids)| <= |ids|
  {
    if ids != [] {
      FetchIsNoLonger(jobs, ids[1..]);
    }
  }

  lemma {:induction false} GroupsAddUp(es: seq<JobEnvelope>, q: QueueName)
    ensures |ForQueue(es, q)| + |NotForQueue(es, q)| == |es|
  {
    if es != [] {
      GroupsAddUp(es[1..], q);
    }
  }

  lemma StaysBusy(r: Race, a: Action, p: nat)
    requires Enabled(r, a) && p < |r.pollers| && Busy(r.pollers[p])
    ensures Busy(Do(r, a).pollers[p])
    ensures GoesOn(a, p) ==> ToDo(Do(r, a).pollers[p]) < ToDo(r.pollers[p])
    ensures !GoesOn(a, p) && !(a.RangeReply? && a.p == p) ==> Do(r, a).pollers[p] == r.pollers[p]
  {
    if a.Fetch? && a.p == p {
      FetchIsNoLonger(r.jobs, r.pollers[p].claimed);
    } else if a.PushQueue? && a.p == p {
      GroupsAddUp(r.pollers[p].envs, a.queue);
    }
  }

  /** A poller that is not idle can always go on, whatever the other clients have done, each of its actions brings
      it closer to being idle, and no action of anyone else touches it: so every round ends, even when all the
      envelopes are gone. */
  lemma RoundsEnd(r: Race, p: nat)
    requires p < |r.pollers| && Busy(r.pollers[p]) && !r.pollers[p].Idle?
    ensures exists a :: GoesOn(a, p) && Enabled(r, a)
    ensures forall a :: Enabled(r, a) ==>
              && Busy(Do(r, a).pollers[p])
              && (if GoesOn(a, p) then 0 <= ToDo(Do(r, a).pollers[p]) < ToDo(r.pollers[p])
                  else Do(r, a).pollers[p] == r.pollers[p])
  {
    var c := r.pollers[p];
    if c.Claiming? {
      var a := if c.i < |c.ids| then TryClaim(p) else Fetch(p);
      assert GoesOn(a, p) && Enabled(r, a);
    } else {
      assert c.envs[0] in ForQueue(c.envs, c.envs[0].queue);
      assert GoesOn(PushQueue(p, c.envs[0].queue), p) && Enabled(r, PushQueue(p, c.envs[0].queue));
    }
    forall a | Enabled(r, a)
      ensures Busy(Do(r, a).pollers[p])
      ensures if GoesOn(a, p) then 0 <= ToDo(Do(r, a).pollers[p]) < ToDo(r.pollers[p])
              else Do(r, a).pollers[p] == r.pollers[p]
    {
      StaysBusy(r, a, p);
    }
  }

  // ---- order ----

  ghost predicate InOrder(ids: seq<JobId>, scores: map<JobId, int>) {
    && (forall i :: 0 <= i < |ids| ==> ids[i] in scores)
    && (forall i, j :: 0 <= i < j < |ids| ==> scores[ids[i]] <= scores[ids[j]])
  }

  /** Every poller holds its ids in the score order of its range reply. */
  ghost predicate PollerOrdered(c: Poller) {
    match c
    case Idle => true
    case Claiming(ids, i, claimed, scores) =>
      i <= |ids| && InOrder(ids, scores) && InOrder(claimed, scores)
      && forall k, j :: 0 <= k < |claimed| && i <= j < |ids| ==> scores[claimed[k]] <= scores[ids[j]]
    case Pushing(envs, scores) => InOrder(IdsOf(envs), scores)
  }

  ghost predicate Ordered(r: Race) {
    (forall c :: c in r.pollers ==> PollerOrdered(c)) && (forall id :: id in r.jobs ==> r.jobs[id].id == id)
  }

  ghost predicate Within(small: seq<JobId>, large: seq<JobId>) {
    forall id :: id in small ==> id in large
  }

  lemma OrderCons(whole: seq<JobId>, rest: seq<JobId>, scores: map<JobId, int>)
    requires whole != [] && InOrder(whole, scores) && InOrder(rest, scores) && Within(rest, whole[1..])
    ensures InOrder([whole[0]] + rest, scores)
    ensures Within([whole[0]] + rest, whole) && Within(rest, whole)
  {
    forall j | 0 <= j < |rest| ensures scores[whole[0]] <= scores[rest[j]] {
      assert rest[j] in whole[1..];
      var k :| 0 <= k < |whole[1..]| && whole[1..][k] == rest[j];
      assert whole[k + 1] == rest[j];
    }
  }

  lemma {:induction false} FetchKeepsOrder(jobs: map<JobId, JobEnvelope>, ids: seq<JobId>, scores: map<JobId, int>)
    requires InOrder(ids, scores) && forall id :: id in jobs ==> jobs[id].id == id
    ensures InOrder(IdsOf(GetMany(jobs, ids)), scores)
    ensures Within(IdsOf(GetMany(jobs, ids)), ids)
  {
    if ids != [] {
      FetchKeepsOrder(jobs, ids[1..], scores);
      var rest := GetMany(jobs, ids[1..]);
      OrderCons(ids, IdsOf(rest), scores);
      if ids[0] in jobs {
        assert ([jobs[ids[0]]] + rest)[1..] == rest;
        assert IdsOf(GetMany(jobs, ids)) == [ids[0]] + IdsOf(rest);
      }
    }
  }

  lemma {:induction false} GroupKeepsOrder(es: seq<JobEnvelope>, q: QueueName, scores: map<JobId, int>)
    requires InOrder(IdsOf(es), scores)
    ensures InOrder(IdsOf(ForQueue(es, q)), scores) && InOrder(IdsOf(NotForQueue(es, q)), scores)
    ensures Within(IdsOf(ForQueue(es, q)), IdsOf(es)) && Within(IdsOf(NotForQueue(es, q)), IdsOf(es))
  {
    if es != [] {
      var whole, mine, rest := IdsOf(es), ForQueue(es[1..], q), NotForQueue(es[1..], q);
      assert whole == [es[0].id] + IdsOf(es[1..]);
      assert whole[1..] == IdsOf(es[1..]);
      GroupKeepsOrder(es[1..], q, scores);
      OrderCons(whole, IdsOf(mine), scores);
      OrderCons(whole, IdsOf(rest), scores);
      assert ([es[0]] + mine)[1..] == mine && ([es[0]] + rest)[1..] == rest;
      if es[0].queue == q {
        assert ForQueue(es, q) == [es[0]] + mine && NotForQueue(es, q) == rest;
      } else {
        assert NotForQueue(es, q) == [es[0]] + rest && ForQueue(es, q) == mine;
      }
    }
  }

  lemma ClaimKeepsOrder(c: Poller, won: bool)
    requires c.Claiming? && c.i < |c.ids| && PollerOrdered(c)
    ensures PollerOrdered(c.(i := c.i + 1, claimed := if won then c.claimed + [c.ids[c.i]] else c.claimed))
  {
  }

  lemma ActionKeepsOrder(r: Race, a: Action)
    requires Ordered(r) && Enabled(r, a) && ReplyIsOrdered(r, a)
    ensures Ordered(Do(r, a))
  {
    var r' := Do(r, a);
    if a.RangeReply? || a.TryClaim? || a.Fetch? || a.PushQueue? {
      var c := r.pollers[a.p];
      assert c in r.pollers;
      if a.TryClaim? {
        ClaimKeepsOrder(c, c.ids[c.i] in r.z);
      } else if a.Fetch? {
        FetchKeepsOrder(r.jobs, c.claimed, c.scores);
      } else if a.PushQueue? {
        GroupKeepsOrder(c.envs, a.queue, c.scores);
      }
      assert PollerOrdered(r'.pollers[a.p]);
      forall d | d in r'.pollers ensures PollerOrdered(d) {
        var k :| 0 <= k < |r'.pollers| && r'.pollers[k] == d;
        assert k != a.p ==> r.pollers[k] == d;
      }
    }
  }

  /** The order in which RPOP after RPOP (or LMOVE from the right) takes a list. */
  function TakenOrder(l: seq<JobId>): seq<JobId> {
    if l == [] then [] else [l[|l| - 1]] + TakenOrder(l[..|l| - 1])
  }

  lemma {:induction false} TakenAfterPush(l: seq<JobId>, ids: seq<JobId>)
    ensures TakenOrder(PushMany(l, ids)) == TakenOrder(l) + ids
    decreases |l| + |ids|
  {
    var all := PushMany(l, ids);
    if l != [] {
      var n := |l| - 1;
      assert all[..|all| - 1] == PushMany(l[..n], ids);
      TakenAfterPush(l[..n], ids);
    } else if ids != [] {
      assert all == Reverse(ids[1..]) + [ids[0]];
      assert all[..|all| - 1] == PushMany([], ids[1..]);
      TakenAfterPush([], ids[1..]);
      assert TakenOrder([]) + ids == [ids[0]] + ids[1..];
    }
  }

  /** One poller's jobs for a queue join the end of the order in which workers take them, sorted by
      the scores the poller read, and each in the queue its envelope named. */
  lemma PushedInScoreOrder(r: Race, p: nat, q: QueueName)
    requires Ordered(r) && Enabled(r, PushQueue(p, q))
    ensures var r', mine := Do(r, PushQueue(p, q)), IdsOf(ForQueue(r.pollers[p].envs, q));
            && TakenOrder(ListAt(r'.queues, q)) == TakenOrder(ListAt(r.queues, q)) + mine
            && InOrder(mine, r.pollers[p].scores)
            && forall e :: e in ForQueue(r.pollers[p].envs, q) ==> e.queue == q
  {
    assert r.pollers[p] in r.pollers;
    GroupKeepsOrder(r.pollers[p].envs, q, r.pollers[p].scores);
    TakenAfterPush(ListAt(r.queues, q), IdsOf(ForQueue(r.pollers[p].envs, q)));
  }

  lemma {:induction false} RunKeepsOrder(r: Race, as_: seq<Action>)
    requires Ordered(r) && Enableds(r, as_)
    ensures Ordered(DoAll(r, as_))
    decreases |as_|
  {
    if as_ != [] {
      ActionKeepsOrder(r, as_[0]);
      RunKeepsOrder(Do(r, as_[0]), as_[1..]);
    }
  }

  // ---- the order in which a queue is taken, over a run ----

  /** What the action takes from the queue. */
  function PopOf(r: Race, a: Action, q: QueueName): seq<JobId> {
    var l := ListAt(r.queues, q);
    if a == Pop(q) && l != [] then [l[|l| - 1]] else []
  }

  /** What the action puts behind everything that waits in the queue. */
  function ArrivalOf(r: Race, a: Action, q: QueueName): seq<JobId>
    requires Enabled(r, a)
  {
    match a
    case PushQueue(p, to) => if to == q then IdsOf(ForQueue(r.pollers[p].envs, q)) else []
    case LPushOne(to, id) => if to == q then [id] else []
    case _ => []
  }

  ghost function Popped(r: Race, as_: seq<Action>, q: QueueName): seq<JobId>
    requires Enableds(r, as_)
    decreases |as_|
  {
    if as_ == [] then [] else PopOf(r, as_[0], q) + Popped(Do(r, as_[0]), as_[1..], q)
  }

  ghost function Arrivals(r: Race, as_: seq<Action>, q: QueueName): seq<JobId>
    requires Enableds(r, as_)
    decreases |as_|
  {
    if as_ == [] then [] else ArrivalOf(r, as_[0], q) + Arrivals(Do(r, as_[0]), as_[1..], q)
  }

  /** No id outside `gone` is taken out of the middle of the queue. */
  ghost predicate RemovesOnly(as_: seq<Action>, q: QueueName, gone: set<JobId>) {
    forall i :: 0 <= i < |as_| && as_[i].LRemAll? && as_[i].queue == q ==> as_[i].id in gone
  }

  function Without(l: seq<JobId>, gone: set<JobId>): seq<JobId> {
    if l == [] then [] else (if l[0] in gone then [] else [l[0]]) + Without(l[1..], gone)
  }

  lemma {:induction false} WithoutAppend(a: seq<JobId>, b: seq<JobId>, gone: set<JobId>)
    ensures Without(a + b, gone) == Without(a, gone) + Without(b, gone)
  {
    if a == [] {
      assert a + b == b;
    } else {
      assert (a + b)[1..] == a[1..] + b;
      WithoutAppend(a[1..], b, gone);
    }
  }

  lemma {:induction false} RemoveAllSnoc(l: seq<JobId>, x: JobId, y: JobId)
    ensures RemoveAll(l + [x], y) == RemoveAll(l, y) + (if x == y then [] else [x])
  {
    if l == [] {
      assert l + [x] == [x] && [x][1..] == [];
    } else {
      assert (l + [x])[1..] == l[1..] + [x];
      RemoveAllSnoc(l[1..], x, y);
    }
  }

  lemma TakenSnoc(l: seq<JobId>, x: JobId)
    ensures TakenOrder(l + [x]) == [x] + TakenOrder(l)
  {
    assert (l + [x])[..|l|] == l;
  }

  lemma {:induction false} TakenWithout(l: seq<JobId>, y: JobId, gone: set<JobId>)
    requires y in gone
    ensures Without(TakenOrder(RemoveAll(l, y)), gone) == Without(TakenOrder(l), gone)
    decreases |l|
  {
    if l != [] {
      var init, x := l[..|l| - 1], l[|l| - 1];
      assert l == init + [x];
      TakenWithout(init, y, gone);
      RemoveAllSnoc(init, x, y);
      TakenSnoc(init, x);
      WithoutAppend([x], TakenOrder(init), gone);
      if x == y {
        assert RemoveAll(init, y) + [] == RemoveAll(init, y);
        assert Without([x], gone) == [];
      } else {
        TakenSnoc(RemoveAll(init, y), x);
        WithoutAppend([x], TakenOrder(RemoveAll(init, y)), gone);
      }
    }
  }

  predicate Touches(a: Action, q: QueueName) {
    (a.PushQueue? || a.LPushOne? || a.LRemAll? || a.Pop?) && a.queue == q
  }

  lemma UntouchedQueue(r: Race, a: Action, q: QueueName)
    requires Enabled(r, a) && !Touches(a, q)
    ensures ListAt(Do(r, a).queues, q) == ListAt(r.queues, q) && PopOf(r, a, q) == [] && ArrivalOf(r, a, q) == []
  {
  }

  lemma PushTakesInOrder(r: Race, a: Action, q: QueueName)
    requires Enabled(r, a) && (a.PushQueue? || a.LPushOne?) && a.queue == q
    ensures TakenOrder(ListAt(Do(r, a).queues, q)) == TakenOrder(ListAt(r.queues, q)) + ArrivalOf(r, a, q)
  {
    var l := ListAt(r.queues, q);
    var arrived := ArrivalOf(r, a, q);
    assert ListAt(Do(r, a).queues, q) == PushMany(l, arrived) by {
      if a.LPushOne? {
        assert arrived == [a.id] && arrived[1..] == [];
      }
    }
    TakenAfterPush(l, arrived);
  }

  /** One action: popped in front, arrivals behind, removals dropped. */
  lemma ActionTakesInOrder(r: Race, a: Action, q: QueueName, gone: set<JobId>)
    requires Enabled(r, a) && (a.LRemAll? && a.queue == q ==> a.id in gone)
    ensures Without(PopOf(r, a, q) + TakenOrder(ListAt(Do(r, a).queues, q)), gone)
         == Without(TakenOrder(ListAt(r.queues, q)) + ArrivalOf(r, a, q), gone)
  {
    if !Touches(a, q) {
      UntouchedQueue(r, a, q);
      NothingAround(TakenOrder(ListAt(r.queues, q)));
    } else if a.PushQueue? || a.LPushOne? {
      PushTakesInOrder(r, a, q);
      NothingAround(TakenOrder(ListAt(Do(r, a).queues, q)));
    } else if a.LRemAll? {
      TakenWithout(ListAt(r.queues, q), a.id, gone);
      NothingAround(TakenOrder(ListAt(r.queues, q)));
      NothingAround(TakenOrder(ListAt(Do(r, a).queues, q)));
    } else {
      PopTakesFirst(r, q);
      NothingAround(TakenOrder(ListAt(r.queues, q)));
    }
  }

  lemma PopTakesFirst(r: Race, q: QueueName)
    ensures PopOf(r, Pop(q), q) + TakenOrder(ListAt(Do(r, Pop(q)).queues, q)) == TakenOrder(ListAt(r.queues, q))
  {
  }

  lemma NothingAround<T>(l: seq<T>)
    ensures l + [] == l && [] + l == l
  {
  }

  /** In every run, the ids taken from a queue followed by those still in it are those that were in it
      followed by those that arrived, in order, apart from ids that were taken out of the middle. */
  lemma {:induction false} RunTakesInOrder(r: Race, as_: seq<Action>, q: QueueName, gone: set<JobId>)
    requires Enableds(r, as_) && RemovesOnly(as_, q, gone)
    ensures Without(Popped(r, as_, q) + TakenOrder(ListAt(DoAll(r, as_).queues, q)), gone)
         == Without(TakenOrder(ListAt(r.queues, q)) + Arrivals(r, as_, q), gone)
    decreases |as_|
  {
    if as_ == [] {
      assert TakenOrder(ListAt(r.queues, q)) + [] == [] + TakenOrder(ListAt(r.queues, q));
    } else {
      var a, r', rest := as_[0], Do(r, as_[0]), as_[1..];
      ActionTakesInOrder(r, a, q, gone);
      RunTakesInOrder(r', rest, q, gone);
      ChainOrder(PopOf(r, a, q), TakenOrder(ListAt(r'.queues, q)), TakenOrder(ListAt(r.queues, q)), ArrivalOf(r, a, q),
                 Popped(r', rest, q), TakenOrder(ListAt(DoAll(r', rest).queues, q)), Arrivals(r', rest, q), gone);
    }
  }

  lemma ChainOrder(pop: seq<JobId>, line': seq<JobId>, line: seq<JobId>, came: seq<JobId>,
                   popped: seq<JobId>, end: seq<JobId>, arrivals: seq<JobId>, gone: set<JobId>)
    requires Without(pop + line', gone) == Without(line + came, gone)
    requires Without(popped + end, gone) == Without(line' + arrivals, gone)
    ensures Without((pop + popped) + end, gone) == Without(line + (came + arrivals), gone)
  {
    WithoutAppend(pop, line', gone);
    WithoutAppend(line, came, gone);
    WithoutAppend(popped, end, gone);
    WithoutAppend(line', arrivals, gone);
    WithoutAppend(pop + popped, end, gone);
    WithoutAppend(pop, popped, gone);
    WithoutAppend(line, came + arrivals, gone);
    WithoutAppend(came, arrivals, gone);
    ChainLists(Without(pop, gone), Without(line', gone), Without(line, gone), Without(came, gone),
               Without(popped, gone), Without(end, gone), Without(arrivals, gone));
  }

  lemma ChainLists<T>(pop: seq<T>, line': seq<T>, line: seq<T>, came: seq<T>, popped: seq<T>, end: seq<T>,
                      arrivals: seq<T>)
    requires pop + line' == line + came && popped + end == line' + arrivals
    ensures (pop + popped) + end == line + (came + arrivals)
  {
    assert (pop + popped) + end == pop + (popped + end);
    assert pop + (line' + arrivals) == (pop + line') + arrivals;
    assert (line + came) + arrivals == line + (came + arrivals);
  }

  /** So whatever happens after a poller has pushed its jobs for a queue, they are taken one after another
      in the order of their scores, behind all that waited there and before all that arrives later. */
  lemma LaterTakenInScoreOrder(r: Race, p: nat, q: QueueName, as_: seq<Action>, gone: set<JobId>)
    requires Ordered(r) && Enabled(r, PushQueue(p, q)) && Enableds(Do(r, PushQueue(p, q)), as_)
             && RemovesOnly(as_, q, gone)
    ensures var r', mine := Do(r, PushQueue(p, q)), IdsOf(ForQueue(r.pollers[p].envs, q));
            && Without(Popped(r', as_, q) + TakenOrder(ListAt(DoAll(r', as_).queues, q)), gone)
               == Without(TakenOrder(ListAt(r.queues, q)) + mine + Arrivals(r', as_, q), gone)
            && InOrder(mine, r.pollers[p].scores)
  {
    PushedInScoreOrder(r, p, q);
    RunTakesInOrder(Do(r, PushQueue(p, q)), as_, q, gone);
  }

  // ---- pushing by groups ----

  lemma ForQueueSnoc(es: seq<JobEnvelope>, e: JobEnvelope, q: QueueName)
    ensures ForQueue(es + [e], q) == ForQueue(es, q) + (if e.queue == q then [e] else [])
    ensures IdsOf(ForQueue(es + [e], q)) == IdsOf(ForQueue(es, q)) + (if e.queue == q then [e.id] else [])
  {
    ForQueueAppend(es, [e], q);
    IdsOfAppend(ForQueue(es, q), if e.queue == q then [e] else []);
    assert IdsOf([e]) == [e.id];
  }

  lemma {:induction false} ForQueueAppend(a: seq<JobEnvelope>, b: seq<JobEnvelope>, q: QueueName)
    ensures ForQueue(a + b, q) == ForQueue(a, q) + ForQueue(b, q)
  {
    if a == [] {
      assert a + b == b;
    } else {
      assert (a + b)[0] == a[0] && (a + b)[1..] == a[1..] + b;
      ForQueueAppend(a[1..], b, q);
    }
  }

  lemma IdsOfAppend(a: seq<JobEnvelope>, b: seq<JobEnvelope>)
    ensures IdsOf(a + b) == IdsOf(a) + IdsOf(b)
  {
  }

  /** `now` is `queues` after the groups of the queues in `done` have been pushed. */
  ghost predicate PushedFor(queues: map<QueueName, seq<JobId>>, es: seq<JobEnvelope>, done: set<QueueName>,
                            now: map<QueueName, seq<JobId>>) {
    && (forall q :: q in now <==> q in queues || q in done)
    && (forall q :: q in done ==> ListAt(now, q) == PushMany(ListAt(queues, q), IdsOf(ForQueue(es, q))))
    && (forall q :: q !in done ==> ListAt(now, q) == ListAt(queues, q))
  }

  lemma PushManyCons(l: seq<JobId>, id: JobId, ids: seq<JobId>)
    ensures PushMany(l, [id] + ids) == PushMany([id] + l, ids)
  {
    assert ([id] + ids)[1..] == ids;
    assert Reverse([id] + ids) + l == Reverse(ids) + ([id] + l);
  }

  lemma {:induction false} PushEachAt(queues: map<QueueName, seq<JobId>>, es: seq<JobEnvelope>, q: QueueName)
    ensures ListAt(PushEach(queues, es), q) == PushMany(ListAt(queues, q), IdsOf(ForQueue(es, q)))
    ensures q in PushEach(queues, es) <==> q in queues || ForQueue(es, q) != []
    decreases |es|
  {
    if es != [] {
      PushEachAt(LPush(queues, es[0].queue, es[0].id), es[1..], q);
      var rest := ForQueue(es[1..], q);
      if es[0].queue == q {
        assert ForQueue(es, q) == [es[0]] + rest;
        assert IdsOf(ForQueue(es, q)) == [es[0].id] + IdsOf(rest) by {
          assert ([es[0]] + rest)[1..] == rest;
        }
        PushManyCons(ListAt(queues, q), es[0].id, IdsOf(rest));
      } else {
        assert ForQueue(es, q) == rest;
      }
    }
  }

  lemma SameAtEachKey(queues: map<QueueName, seq<JobId>>, es: seq<JobEnvelope>, all: set<QueueName>,
                      now: map<QueueName, seq<JobId>>, q: QueueName)
    requires q in all <==> ForQueue(es, q) != []
    requires PushedFor(queues, es, all, now)
    ensures (q in now <==> q in PushEach(queues, es)) && ListAt(now, q) == ListAt(PushEach(queues, es), q)
  {
    PushEachAt(queues, es, q);
    if q !in all {
      assert IdsOf(ForQueue(es, q)) == [] && PushMany(ListAt(queues, q), []) == ListAt(queues, q);
    }
  }

  /** Pushing group by group leaves what pushing one envelope after another leaves. */
  lemma GroupedIsEach(queues: map<QueueName, seq<JobId>>, es: seq<JobEnvelope>, all: set<QueueName>,
                      now: map<QueueName, seq<JobId>>)
    requires forall q :: q in all <==> ForQueue(es, q) != []
    requires PushedFor(queues, es, all, now)
    ensures now == PushEach(queues, es)
  {
    forall q ensures (q in now <==> q in PushEach(queues, es)) && ListAt(now, q) == ListAt(PushEach(queues, es), q) {
      SameAtEachKey(queues, es, all, now, q);
    }
    SameLists(now, PushEach(queues, es));
  }

  lemma SameLists(a: map<QueueName, seq<JobId>>, b: map<QueueName, seq<JobId>>)
    requires forall q :: (q in a <==> q in b) && ListAt(a, q) == ListAt(b, q)
    ensures a == b
  {
    forall q | q in a ensures q in b && a[q] == b[q] {
      assert ListAt(a, q) == ListAt(b, q);
    }
  }

  /** `groups` is the claimed envelopes grouped by queue. */
  ghost predicate Grouped(groups: map<QueueName, seq<JobId>>, es: seq<JobEnvelope>) {
    && (forall q :: q in groups <==> ForQueue(es, q) != [])
    && (forall q :: ListAt(groups, q) == IdsOf(ForQueue(es, q)))
  }

  lemma GroupOne(groups: map<QueueName, seq<JobId>>, es: seq<JobEnvelope>, e: JobEnvelope)
    requires Grouped(groups, es)
    ensures Grouped(groups[e.queue := ListAt(groups, e.queue) + [e.id]], es + [e])
  {
    var groups' := groups[e.queue := ListAt(groups, e.queue) + [e.id]];
    forall q
      ensures (q in groups' <==> ForQueue(es + [e], q) != []) && ListAt(groups', q) == IdsOf(ForQueue(es + [e], q))
    {
      ForQueueSnoc(es, e, q);
      assert ListAt(groups, q) == IdsOf(ForQueue(es, q));
    }
  }

  lemma GroupNext(groups: map<QueueName, seq<JobId>>, es: seq<JobEnvelope>, i: nat)
    requires i < |es| && Grouped(groups, es[..i])
    ensures Grouped(groups[es[i].queue := ListAt(groups, es[i].queue) + [es[i].id]], es[..i + 1])
  {
    var done, e := es[..i], es[i];
    assert es[..i + 1] == done + [e];
    GroupOne(groups, done, e);
  }

  method GroupByQueue(es: seq<JobEnvelope>) returns (groups: map<QueueName, seq<JobId>>)
    ensures Grouped(groups, es)
  {
    groups := map[];
    var i := 0;
    while i < |es|
      invariant 0 <= i <= |es|
      invariant Grouped(groups, es[..i])
    {
      GroupNext(groups, es, i);
      groups := groups[es[i].queue := ListAt(groups, es[i].queue) + [es[i].id]];
      i := i + 1;
    }
    assert es[..i] == es;
  }

  lemma PushOneGroup(queues: map<QueueName, seq<JobId>>, es: seq<JobEnvelope>, done: set<QueueName>,
                     now: map<QueueName, seq<JobId>>, q: QueueName)
    requires PushedFor(queues, es, done, now) && q !in done && ForQueue(es, q) != []
    ensures PushedFor(queues, es, done + {q}, SetList(now, q, PushMany(ListAt(now, q), IdsOf(ForQueue(es, q)))))
  {
    var l := PushMany(ListAt(now, q), IdsOf(ForQueue(es, q)));
    assert l != [] && ListAt(now, q) == ListAt(queues, q);
    forall k ensures ListAt(SetList(now, q, l), k) == if k == q then l else ListAt(now, k) {
    }
  }

  lemma PushTurn(queues: map<QueueName, seq<JobId>>, es: seq<JobEnvelope>, groups: map<QueueName, seq<JobId>>,
                 todo: set<QueueName>, now: map<QueueName, seq<JobId>>, q: QueueName)
    requires Grouped(groups, es) && q in todo && todo <= groups.Keys
    requires PushedFor(queues, es, groups.Keys - todo, now)
    ensures PushedFor(queues, es, groups.Keys - (todo - {q}), SetList(now, q, PushMany(ListAt(now, q), groups[q])))
  {
    assert groups[q] == ListAt(groups, q);
    PushOneGroup(queues, es, groups.Keys - todo, now, q);
    assert groups.Keys - (todo - {q}) == groups.Keys - todo + {q};
  }

  /** One LPUSH per group, the groups in whatever order the hash map yields them. */
  method PushGroups(queues: map<QueueName, seq<JobId>>, es: seq<JobEnvelope>) returns (r: map<QueueName, seq<JobId>>)
    ensures r == PushEach(queues, es)
  {
    var groups := GroupByQueue(es);
    var todo := groups.Keys;
    r := queues;
    while todo != {}
      invariant todo <= groups.Keys
      invariant PushedFor(queues, es, groups.Keys - todo, r)
      decreases |todo|
    {
      var q :| q in todo;
      PushTurn(queues, es, groups, todo, r, q);
      r := SetList(r, q, PushMany(ListAt(r, q), groups[q]));
      todo := todo - {q};
    }
    assert groups.Keys - todo == groups.Keys;
    GroupedIsEach(queues, es, groups.Keys, r);
  }

  lemma ClaimNext(members: map<JobId, int>, ids: seq<JobId>, i: nat, claimed: seq<JobId>, rest: map<JobId, int>)
    requires i < |ids| && rest == members - ToSet(ids[..i])
    ensures rest - {ids[i]} == members - ToSet(ids[..i + 1])
    ensures claimed + Claimable(ids[i..], rest)
         == claimed + (if ids[i] in rest then [ids[i]] else []) + Claimable(ids[i + 1..], rest - {ids[i]})
  {
    var id := ids[i];
    assert ids[i..][1..] == ids[i + 1..] && ids[i..][0] == id;
    assert id !in rest ==> rest - {id} == rest;
    assert ids[..i + 1] == ids[..i] + [id];
    assert ToSet(ids[..i + 1]) == ToSet(ids[..i]) + {id};
  }

  /** ZREM for every id; the replies tell which ones this caller took. */
  method ClaimIds(members: map<JobId, int>, ids: seq<JobId>) returns (claimed: seq<JobId>, rest: map<JobId, int>)
    ensures claimed == Claimable(ids, members)
    ensures rest == members - ToSet(ids)
  {
    claimed, rest := [], members;
    var i := 0;
    while i < |ids|
      invariant 0 <= i <= |ids|
      invariant rest == members - ToSet(ids[..i])
      invariant claimed + Claimable(ids[i..], rest) == Claimable(ids, members)
    {
      var id := ids[i];
      ClaimNext(members, ids, i, claimed, rest);
      if id in rest {
        claimed := claimed + [id];
      }
      rest := rest - {id};
      i := i + 1;
    }
    assert ids[..i] == ids;
  }
}
