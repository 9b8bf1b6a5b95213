/** Crash recovery: which processes count as dead, and what happens to the jobs they held when several
    surviving processes recover them at once. */
module Resurrection {
  import opened Redis
  import opened Envelope
  import opened S = Store

  // ---- one process recovers, nobody interferes ----

  lemma {:induction false} ResurrectEachAppend(s: Store, a: seq<JobId>, b: seq<JobId>)
    ensures ResurrectEach(s, a + b) == ResurrectEach(ResurrectEach(s, a), b)
    decreases |a|
  {
    if a == [] {
      assert a + b == b;
    } else {
      assert (a + b)[0] == a[0] && (a + b)[1..] == a[1..] + b;
      ResurrectEachAppend(ResurrectOne(s, a[0]), a[1..], b);
    }
  }

  lemma ResurrectNext(s: Store, ids: seq<JobId>, i: nat)
    requires i < |ids|
    ensures ResurrectEach(s, ids[..i + 1]) == ResurrectOne(ResurrectEach(s, ids[..i]), ids[i])
    ensures multiset(ids[..i + 1]) == multiset(ids[..i]) + multiset{ids[i]}
  {
    var s1 := ResurrectEach(s, ids[..i]);
    assert ids[..i + 1] == ids[..i] + [ids[i]];
    ResurrectEachAppend(s, ids[..i], [ids[i]]);
    assert ResurrectEach(s1, [ids[i]]) == ResurrectEach(ResurrectOne(s1, ids[i]), [ids[i]][1..]);
  }

  lemma {:induction false} ResurrectIgnoresProcessing(s: Store, ids: seq<JobId>, processing: map<ProcessId, seq<JobId>>)
    ensures ResurrectEach(s.(processing := processing), ids) == ResurrectEach(s, ids).(processing := processing)
    decreases |ids|
  {
    if ids != [] {
      ResurrectIgnoresProcessing(ResurrectOne(s, ids[0]), ids[1..], processing);
      assert ResurrectOne(s.(processing := processing), ids[0]) == ResurrectOne(s, ids[0]).(processing := processing);
    }
  }

  /** Handling one popped portion carries on where the portions before it stopped. */
  lemma NextPortion(start: Store, all: seq<JobId>, count: nat, k: nat, processing: map<ProcessId, seq<JobId>>)
    requires count + k <= |all|
    ensures ResurrectEach(ResurrectEach(start, all[..count]).(processing := processing), all[count..count + k]) ==
            ResurrectEach(start, all[..count + k]).(processing := processing)
  {
    assert all[..count + k] == all[..count] + all[count..count + k];
    ResurrectEachAppend(start, all[..count], all[count..count + k]);
    ResurrectIgnoresProcessing(ResurrectEach(start, all[..count]), all[count..count + k], processing);
  }

  // ---- what becomes of each id ----

  datatype Fate = Requeued | Dropped | Unknown

  function FateOf(jobs: map<JobId, JobEnvelope>, id: JobId): Fate {
    if id !in jobs then Unknown else if jobs[id].meta.resurrect then Requeued else Dropped
  }

  /** The ids that meet this fate, each judged by the envelopes that are left when its turn comes. */
  function WithFate(s: Store, ids: seq<JobId>, fate: Fate): seq<JobId> {
    if ids == [] then []
    else
      var n := |ids| - 1;
      WithFate(s, ids[..n], fate) + (if FateOf(ResurrectEach(s, ids[..n]).jobs, ids[n]) == fate then [ids[n]] else [])
  }

  lemma FateNext(s: Store, ids: seq<JobId>, i: nat, fate: Fate)
    requires i < |ids|
    ensures WithFate(s, ids[..i + 1], fate)
         == WithFate(s, ids[..i], fate)
           + (if FateOf(ResurrectEach(s, ids[..i]).jobs, ids[i]) == fate then [ids[i]] else [])
  {
    assert ids[..i + 1][..i] == ids[..i];
  }

  lemma {:induction false} EveryIdHasAFate(s: Store, ids: seq<JobId>, x: JobId)
    ensures multiset(ids)[x] == multiset(WithFate(s, ids, Requeued))[x] + multiset(WithFate(s, ids, Dropped))[x]
                              + multiset(WithFate(s, ids, Unknown))[x]
  {
    if ids != [] {
      var init, last := ids[..|ids| - 1], ids[|ids| - 1];
      var fate := FateOf(ResurrectEach(s, init).jobs, last);
      EveryIdHasAFate(s, init, x);
      CountWithLast(init, last, ids, x);
      CountLogged(WithFate(s, init, Requeued), last, fate == Requeued, WithFate(s, ids, Requeued), x);
      CountLogged(WithFate(s, init, Dropped), last, fate == Dropped, WithFate(s, ids, Dropped), x);
      CountLogged(WithFate(s, init, Unknown), last, fate == Unknown, WithFate(s, ids, Unknown), x);
    }
  }

  lemma CountWithLast(init: seq<JobId>, last: JobId, all: seq<JobId>, x: JobId)
    requires all == init + [last]
    ensures multiset(all)[x] == multiset(init)[x] + (if x == last then 1 else 0)
  {
  }

  lemma CountLogged(log: seq<JobId>, id: JobId, joins: bool, after: seq<JobId>, x: JobId)
    requires after == log + (if joins then [id] else [])
    ensures multiset(after)[x] == multiset(log)[x] + (if joins && x == id then 1 else 0)
  {
    if !joins {
      assert after == log;
    }
  }

  /** With distinct ids, as in a processing list, each is judged by its envelope of the start. */
  lemma {:induction false} FatesOfTheStart(s: Store, ids: seq<JobId>, fate: Fate, x: JobId)
    requires NoDup(ids) && forall id :: id in s.jobs ==> s.jobs[id].id == id
    ensures x in WithFate(s, ids, fate) <==> x in ids && FateOf(s.jobs, x) == fate
    ensures x !in ids ==> (x in s.jobs <==> x in ResurrectEach(s, ids).jobs)
                          && (x in s.jobs ==> ResurrectEach(s, ids).jobs[x] == s.jobs[x])
    ensures forall id :: id in ResurrectEach(s, ids).jobs ==> ResurrectEach(s, ids).jobs[id].id == id
  {
    if ids != [] {
      var n := |ids| - 1;
      assert ids[..n + 1] == ids;
      ResurrectNext(s, ids, n);
      FateNext(s, ids, n, fate);
      FatesOfTheStart(s, ids[..n], fate, x);
      FatesOfTheStart(s, ids[..n], fate, ids[n]);
    }
  }

  // ---- several recover the same process ----

  const POP_COUNT: nat := 10

  datatype Rescuer =
    | Ready
    | Holding(ids: seq<JobId>)
      /** The envelope of the first held id has been read. */
    | Decided(ids: seq<JobId>, found: Option<JobEnvelope>)
    | Finished

  /** Four logs of ids: still listed at the start, requeued, dropped, without an envelope. */
  datatype Rescue = Rescue(
    list: seq<JobId>,
    jobs: map<JobId, JobEnvelope>,
    queues: map<QueueName, seq<JobId>>,
    rescuers: seq<Rescuer>,
    listed: multiset<JobId>,
    requeued: multiset<JobId>,
    dropped: multiset<JobId>,
    unknown: multiset<JobId>)

  datatype Move =
    | PopTen(r: nat)
    | ReadFirst(r: nat)
    | Settle(r: nat)
    | OtherClient(jobs: map<JobId, JobEnvelope>, queues: map<QueueName, seq<JobId>>)

  predicate CanMove(s: Rescue, m: Move) {
    match m
    case PopTen(r) => r < |s.rescuers| && s.rescuers[r].Ready?
    case ReadFirst(r) => r < |s.rescuers| && s.rescuers[r].Holding? && s.rescuers[r].ids != []
    case Settle(r) => r < |s.rescuers| && s.rescuers[r].Decided? && s.rescuers[r].ids != []
    case OtherClient(_, _) => true
  }

  function Set(s: Rescue, r: nat, to: Rescuer): Rescue
    requires r < |s.rescuers|
  {
    s.(rescuers := s.rescuers[r := to])
  }

  function AfterPop(list: seq<JobId>): Rescuer {
    if list == [] then Finished else Holding(Take(list, POP_COUNT))
  }

  function AfterSettle(c: Rescuer): Rescuer
    requires c.Decided? && c.ids != []
  {
    if |c.ids| == 1 then Ready else Holding(c.ids[1..])
  }

  function MoveOn(s: Rescue, m: Move): Rescue
    requires CanMove(s, m)
  {
    match m
    case PopTen(r) =>
      Set(s, r, AfterPop(s.list)).(list := s.list[|Take(s.list, POP_COUNT)|..])
    case ReadFirst(r) =>
      var id := s.rescuers[r].ids[0];
      Set(s, r, Decided(s.rescuers[r].ids, if id in s.jobs then Some(s.jobs[id]) else None))
    case Settle(r) =>
      var c := s.rescuers[r];
      var t := Set(s, r, AfterSettle(c));
      if c.found.None? then t.(unknown := t.unknown + multiset{c.ids[0]})
      else
        var e := c.found.value;
        if e.meta.resurrect
        then t.(queues := LPush(t.queues, e.queue, e.id), requeued := t.requeued + multiset{c.ids[0]})
        else t.(jobs := t.jobs - {e.id}, dropped := t.dropped + multiset{c.ids[0]})
    case OtherClient(jobs, queues) => s.(jobs := jobs, queues := queues)
  }

  function InHand(c: Rescuer): seq<JobId> {
    match c
    case Holding(ids) => ids
    case Decided(ids, _) => ids
    case _ => []
  }

  /** How often the rescuers together hold an id. */
  function InHands(cs: seq<Rescuer>, x: JobId): nat {
    if cs == [] then 0 else CountIn(cs[0], x) + InHands(cs[1..], x)
  }

  function CountIn(c: Rescuer, x: JobId): nat {
    multiset(InHand(c))[x]
  }

  function Logged(s: Rescue, x: JobId): nat {
    s.requeued[x] + s.dropped[x] + s.unknown[x]
  }

  ghost predicate Settled(s: Rescue, id: JobId) {
    s.listed[id] == multiset(s.list)[id] + InHands(s.rescuers, id) + Logged(s, id)
  }

  lemma {:induction false} InHandsAt(cs: seq<Rescuer>, r: nat, to: Rescuer, x: JobId)
    requires r < |cs|
    ensures InHands(cs[r := to], x) + CountIn(cs[r], x) == InHands(cs, x) + CountIn(to, x)
  {
    if r == 0 {
      assert cs[r := to][1..] == cs[1..];
    } else {
      InHandsAt(cs[1..], r - 1, to, x);
      assert cs[r := to][1..] == cs[1..][r - 1 := to];
    }
  }

  lemma PopSettles(s: Rescue, r: nat, x: JobId)
    requires Settled(s, x) && CanMove(s, PopTen(r))
    ensures Settled(MoveOn(s, PopTen(r)), x)
  {
    var ids := Take(s.list, POP_COUNT);
    assert s.list == ids + s.list[|ids|..];
    assert multiset(s.list)[x] == multiset(ids)[x] + multiset(s.list[|ids|..])[x];
    assert InHand(AfterPop(s.list)) == ids;
    InHandsAt(s.rescuers, r, AfterPop(s.list), x);
  }

  lemma SettleSettles(s: Rescue, r: nat, x: JobId)
    requires Settled(s, x) && CanMove(s, Settle(r))
    ensures Settled(MoveOn(s, Settle(r)), x)
  {
    OneMoreLogged(s, r, x);
    SettleOnlyLogs(s, r);
    HandShrinks(s.rescuers, r, x);
  }

  lemma SettleOnlyLogs(s: Rescue, r: nat)
    requires CanMove(s, Settle(r))
    ensures var s' := MoveOn(s, Settle(r));
            s'.rescuers == s.rescuers[r := AfterSettle(s.rescuers[r])] && s'.list == s.list && s'.listed == s.listed
  {
  }

  lemma HandShrinks(cs: seq<Rescuer>, r: nat, x: JobId)
    requires r < |cs| && cs[r].Decided? && cs[r].ids != []
    ensures InHands(cs[r := AfterSettle(cs[r])], x) + (if x == cs[r].ids[0] then 1 else 0) == InHands(cs, x)
  {
    var ids := cs[r].ids;
    assert ids == [ids[0]] + ids[1..];
    assert InHand(AfterSettle(cs[r])) == ids[1..];
    InHandsAt(cs, r, AfterSettle(cs[r]), x);
  }

  lemma OneMoreLogged(s: Rescue, r: nat, x: JobId)
    requires CanMove(s, Settle(r))
    ensures Logged(MoveOn(s, Settle(r)), x) == Logged(s, x) + (if x == s.rescuers[r].ids[0] then 1 else 0)
  {
    var c := s.rescuers[r];
    if c.found.None? {
    } else if c.found.value.meta.resurrect {
    } else {
    }
  }

  lemma MoveSettles(s: Rescue, m: Move, x: JobId)
    requires Settled(s, x) && CanMove(s, m)
    ensures Settled(MoveOn(s, m), x)
  {
    match m
    case PopTen(r) => PopSettles(s, r, x);
    case ReadFirst(r) => InHandsAt(s.rescuers, r, MoveOn(s, m).rescuers[r], x);
    case Settle(r) => SettleSettles(s, r, x);
    case OtherClient(_, _) =>
  }

  /** Reading an envelope and settling its id, with no other move between, does to jobs and queues what recovering
      that one id does: requeued by its own envelope when that says so, dropped when not, and left when unknown. */
  lemma SettlingIsRecovering(s: Rescue, r: nat, store: Store)
    requires CanMove(s, ReadFirst(r)) && store.jobs == s.jobs && store.queues == s.queues
    ensures CanMove(MoveOn(s, ReadFirst(r)), Settle(r))
    ensures var id, after := s.rescuers[r].ids[0], MoveOn(MoveOn(s, ReadFirst(r)), Settle(r));
            && after.jobs == ResurrectOne(store, id).jobs && after.queues == ResurrectOne(store, id).queues
            && (FateOf(s.jobs, id) == Requeued ==> after.requeued == s.requeued + multiset{id})
            && (FateOf(s.jobs, id) == Dropped ==> after.dropped == s.dropped + multiset{id})
            && (FateOf(s.jobs, id) == Unknown ==> after.unknown == s.unknown + multiset{id})
  {
  }

  ghost predicate CanMoves(s: Rescue, ms: seq<Move>)
    decreases |ms|
  {
    ms == [] || (CanMove(s, ms[0]) && CanMoves(MoveOn(s, ms[0]), ms[1..]))
  }

  function MoveAll(s: Rescue, ms: seq<Move>): Rescue
    requires CanMoves(s, ms)
    decreases |ms|
  {
    if ms == [] then s else MoveAll(MoveOn(s, ms[0]), ms[1..])
  }

  /** In every interleaving of any number of rescuers with other clients, each entry of the dead
      process's list is still listed, in one rescuer's hands, requeued, dropped or unknown: exactly one
      of them, once. So an entry listed once is requeued at most once. */
  lemma {:induction false} RescueConserves(s: Rescue, ms: seq<Move>)
    requires CanMoves(s, ms) && forall id :: Settled(s, id)
    ensures forall id :: Settled(MoveAll(s, ms), id)
    ensures forall id :: MoveAll(s, ms).listed[id] == s.listed[id]
    ensures forall id :: s.listed[id] <= 1 ==> MoveAll(s, ms).requeued[id] <= 1
    decreases |ms|
  {
    if ms == [] {
      forall id ensures s.listed[id] <= 1 ==> s.requeued[id] <= 1 {
        assert Settled(s, id);
      }
    } else {
      forall id ensures Settled(MoveOn(s, ms[0]), id) {
        MoveSettles(s, ms[0], id);
      }
      RescueConserves(MoveOn(s, ms[0]), ms[1..]);
    }
  }

  ghost predicate SomeoneFinished(s: Rescue) {
    exists r :: 0 <= r < |s.rescuers| && s.rescuers[r] == Finished
  }

  lemma FinishesOnEmpty(s: Rescue, m: Move)
    requires CanMove(s, m) && (SomeoneFinished(s) ==> s.list == [])
    ensures SomeoneFinished(MoveOn(s, m)) ==> MoveOn(s, m).list == []
  {
    var s' := MoveOn(s, m);
    assert s.list == [] ==> s'.list == [];
    if !m.OtherClient? && !SomeoneFinished(s) && SomeoneFinished(s') {
      var k :| 0 <= k < |s'.rescuers| && s'.rescuers[k] == Finished;
      assert k == m.r && m.PopTen?;
    }
  }

  /** A rescuer gives up only on an empty list, so once one has finished, nothing is listed any more. */
  lemma {:induction false} FinishedMeansEmptied(s: Rescue, ms: seq<Move>)
    requires CanMoves(s, ms) && (SomeoneFinished(s) ==> s.list == [])
    ensures SomeoneFinished(MoveAll(s, ms)) ==> MoveAll(s, ms).list == []
    decreases |ms|
  {
    if ms != [] {
      FinishesOnEmpty(s, ms[0]);
      FinishedMeansEmptied(MoveOn(s, ms[0]), ms[1..]);
    }
  }

  // ---- termination ----

  function Work(c: Rescuer): nat {
    match c
    case Ready => 1
    case Holding(ids) => 3 * |ids| + 1
    case Decided(ids, _) => 3 * |ids|
    case Finished => 0
  }

  function WorkOf(cs: seq<Rescuer>): nat {
    if cs == [] then 0 else Work(cs[0]) + WorkOf(cs[1..])
  }

  function WorkLeft(s: Rescue): nat {
    4 * |s.list| + WorkOf(s.rescuers)
  }

  lemma {:induction false} WorkAt(cs: seq<Rescuer>, r: nat, to: Rescuer)
    requires r < |cs|
    ensures WorkOf(cs[r := to]) + Work(cs[r]) == WorkOf(cs) + Work(to)
  {
    if r == 0 {
      assert cs[r := to][1..] == cs[1..];
    } else {
      WorkAt(cs[1..], r - 1, to);
      assert cs[r := to][1..] == cs[1..][r - 1 := to];
    }
  }

  /** Every move of a rescuer brings the recovery closer to its end. */
  lemma RescueTerminates(s: Rescue, m: Move)
    requires CanMove(s, m) && !m.OtherClient?
    ensures WorkLeft(MoveOn(s, m)) < WorkLeft(s)
  {
    WorkAt(s.rescuers, m.r, MoveOn(s, m).rescuers[m.r]);
  }

  // ---- which processes are dead ----

  /** What `rsplit(':').next()` yields: the text after the last colon. */
  function LastSegment(s: string): string {
    if s == "" then ""
    else if s[|s| - 1] == ':' then ""
    else LastSegment(s[..|s| - 1]) + [s[|s| - 1]]
  }

  lemma {:induction false} LastSegmentOf(prefix: string, id: string)
    ensures LastSegment(prefix + ":" + id) == id <==> ':' !in id
    ensures ':' !in LastSegment(prefix + ":" + id)
    decreases |id|
  {
    var s := prefix + ":" + id;
    if id == "" {
      assert s[|s| - 1] == ':';
    } else {
      var n := |id| - 1;
      assert s[..|s| - 1] == prefix + ":" + id[..n];
      assert id == id[..n] + [id[n]];
      LastSegmentOf(prefix, id[..n]);
      if id[n] != ':' {
        var t := LastSegment(s[..|s| - 1]);
        assert LastSegment(s) == t + [id[n]];
        assert (t + [id[n]])[..|t|] == t;
        if t + [id[n]] == id {
          assert t == id[..n];
        }
      }
    }
  }

  ghost predicate Stale(processes: seq<(string, int)>, threshold: int, id: string) {
    exists i :: 0 <= i < |processes| && processes[i].0 == id && processes[i].1 < threshold
  }

  ghost predicate Known(processes: seq<(string, int)>, id: string) {
    exists i :: 0 <= i < |processes| && processes[i].0 == id
  }

  ghost predicate Orphan(processes: seq<(string, int)>, keys: seq<string>, id: string) {
    !Known(processes, id) && exists k :: 0 <= k < |keys| && LastSegment(keys[k]) == id
  }

  /** `processes` is the heartbeat set, `keys` the processing lists that exist. */
  method DeadProcessIds(processes: seq<(string, int)>, threshold: int, keys: seq<string>) returns (dead: seq<string>)
    ensures NoDup(dead)
    ensures forall id :: id in dead <==> Stale(processes, threshold, id) || Orphan(processes, keys, id)
  {
    dead := [];
    var seen: set<string> := {};
    var active: set<string> := {};
    var i := 0;
    while i < |processes|
      invariant 0 <= i <= |processes|
      invariant forall id :: id in active <==> Known(processes[..i], id)
      invariant NoDup(dead) && forall id :: id in seen <==> id in dead
      invariant forall id :: id in dead <==> Stale(processes[..i], threshold, id)
    {
      var (id, score) := processes[i];
      StaleSnoc(processes[..i], threshold, processes[i]);
      assert processes[..i + 1] == processes[..i] + [processes[i]];
      active := active + {id};
      if score < threshold && id !in seen {
        seen := seen + {id};
        dead := dead + [id];
      }
      i := i + 1;
    }
    assert processes[..i] == processes;
    var k := 0;
    while k < |keys|
      invariant 0 <= k <= |keys|
      invariant NoDup(dead) && forall id :: id in seen <==> id in dead
      invariant forall id :: id in dead <==> Stale(processes, threshold, id) || Orphan(processes, keys[..k], id)
    {
      var id := LastSegment(keys[k]);
      OrphanSnoc(processes, keys[..k], keys[k]);
      assert keys[..k + 1] == keys[..k] + [keys[k]];
      if id !in active && id !in seen {
        seen := seen + {id};
        dead := dead + [id];
      }
      k := k + 1;
    }
    assert keys[..k] == keys;
  }

  lemma StaleSnoc(ps: seq<(string, int)>, threshold: int, p: (string, int))
    ensures forall id :: Stale(ps + [p], threshold, id) <==> Stale(ps, threshold, id) || (p.0 == id && p.1 < threshold)
    ensures forall id :: Known(ps + [p], id) <==> Known(ps, id) || p.0 == id
  {
    var all := ps + [p];
    assert all[|ps|] == p;
    assert forall i :: 0 <= i < |ps| ==> all[i] == ps[i];
  }

  lemma OrphanSnoc(ps: seq<(string, int)>, keys: seq<string>, key: string)
    ensures forall id ::
              Orphan(ps, keys + [key], id) <==> Orphan(ps, keys, id) || (!Known(ps, id) && LastSegment(key) == id)
  {
    var all := keys + [key];
    assert all[|keys|] == key;
    assert forall i :: 0 <= i < |keys| ==> all[i] == keys[i];
  }

  /** A process whose heartbeat is in the set and fresh is never selected. */
  lemma FreshIsNotDead(processes: seq<(string, int)>, threshold: int, keys: seq<string>, id: string, i: nat)
    requires forall a, b :: 0 <= a < b < |processes| ==> processes[a].0 != processes[b].0
    requires i < |processes| && processes[i].0 == id && threshold <= processes[i].1
    ensures !Stale(processes, threshold, id) && !Orphan(processes, keys, id)
  {
  }

  lemma {:induction false} NoColonInLastSegment(s: string)
    ensures ':' !in LastSegment(s)
  {
    if s != "" && s[|s| - 1] != ':' {
      NoColonInLastSegment(s[..|s| - 1]);
    }
  }

  /** Among any keys, the owner of a leftover processing list is found exactly when its id has no colon. */
  lemma LeftoverListIsFound(processes: seq<(string, int)>, keys: seq<string>, prefix: string, id: string)
    requires !Known(processes, id) && prefix + ":" + id in keys
    ensures Orphan(processes, keys, id) <==> ':' !in id
  {
    LastSegmentOf(prefix, id);
    var k :| 0 <= k < |keys| && keys[k] == prefix + ":" + id;
    if Orphan(processes, keys, id) {
      var j :| 0 <= j < |keys| && LastSegment(keys[j]) == id;
      NoColonInLastSegment(keys[j]);
    }
  }
}
