/** The sliding-window throttle: a sorted set with one member for each unit of cost, scored by time in
    microseconds, and the dispatcher that checks it, pops a job and charges it. */
module Throttle {
  import opened Redis

  datatype Settings = Settings(limit: nat, windowMs: nat)

  function WindowMicros(conf: Settings): nat {
    conf.windowMs * 1000
  }

  /** EXPIRE takes whole seconds. */
  function ExpiryMicros(conf: Settings): nat {
    conf.windowMs / 1000 * 1_000_000
  }

  /** The sorted set seen as its scores; an empty set has no key and so no expiry. */
  datatype Key = Key(scores: seq<int>, expiresAt: Option<int>)

  const NO_KEY := Key([], None)

  /** What a command issued at this time finds. */
  function Touch(k: Key, now: int): Key {
    if k.expiresAt.Some? && k.expiresAt.value <= now then NO_KEY else k
  }

  /** ZREMRANGEBYSCORE 0 max. */
  function Purge(scores: seq<int>, max: int): seq<int> {
    if scores == [] then []
    else if 0 <= scores[0] <= max then Purge(scores[1..], max)
    else [scores[0]] + Purge(scores[1..], max)
  }

  function Lowest(scores: seq<int>): (r: int)
    requires scores != []
    ensures r in scores && forall i :: 0 <= i < |scores| ==> r <= scores[i]
  {
    if |scores| == 1 then scores[0]
    else
      var rest := Lowest(scores[1..]);
      if rest < scores[0] then rest else scores[0]
  }

  datatype ThrottlerState = ThrottlerState(requests: nat, isAllowed: bool, throttledFor: Option<int>)

  function AfterState(k: Key, now: int, conf: Settings): Key {
    var scores := Purge(Touch(k, now).scores, now - WindowMicros(conf));
    if scores == [] then NO_KEY else Key(scores, Touch(k, now).expiresAt)
  }

  function StateOf(k: Key, now: int, conf: Settings): ThrottlerState {
    var allowed := |k.scores| < conf.limit;
    ThrottlerState(|k.scores|, allowed,
                   if allowed || k.scores == [] then None
                   else Some(TruncDiv1000(now - Lowest(k.scores) + WindowMicros(conf)) + 1))
  }

  /** Division by 1000 as the hardware does it, towards zero. */
  function TruncDiv1000(v: int): int {
    if v < 0 then -(-v / 1000) else v / 1000
  }

  function Repeat(t: int, n: nat): (r: seq<int>)
    ensures |r| == n && forall i :: 0 <= i < n ==> r[i] == t
  {
    seq(n, _ => t)
  }

  function CostOf(cost: Option<nat>): nat {
    match cost case None => 1 case Some(c) => c
  }

  /** Three readings of the clock: `scoredAt` for the score, `now` inside the check, `at` by the server
      when it carries out ZADD and EXPIRE. */
  function AfterConsume(k: Key, cost: Option<nat>, scoredAt: int, now: int, at: int, conf: Settings): Key {
    var k' := AfterState(k, now, conf);
    if |k'.scores| < conf.limit && CostOf(cost) > 0 then
      if ExpiryMicros(conf) == 0 then NO_KEY
      else Key(Touch(k', at).scores + Repeat(scoredAt, CostOf(cost)), Some(at + ExpiryMicros(conf)))
    else k'
  }

  class Throttler {
    const conf: Settings
    var key: Key

    constructor (conf: Settings)
      ensures this.conf == conf && key == NO_KEY
    {
      this.conf := conf;
      key := NO_KEY;
    }

    method State(now: int) returns (state: ThrottlerState)
      modifies this
      ensures key == AfterState(old(key), now, conf) && state == StateOf(key, now, conf)
    {
      var windowStart := now - WindowMicros(conf);
      key := Touch(key, now);
      var scores := Purge(key.scores, windowStart);
      key := if scores == [] then NO_KEY else key.(scores := scores);
      var requestCount := |scores|;
      var isAllowed := requestCount < conf.limit;
      var throttledFor: Option<int> := None;
      if !isAllowed && scores != [] {
        throttledFor := Some(TruncDiv1000(now - Lowest(scores) + WindowMicros(conf)) + 1);
      }
      state := ThrottlerState(requestCount, isAllowed, throttledFor);
    }

    method Consume(cost: Option<nat>, scoredAt: int, now: int, at: int) returns (state: ThrottlerState)
      modifies this
      ensures key == AfterConsume(old(key), cost, scoredAt, now, at, conf)
      ensures var before := StateOf(AfterState(old(key), now, conf), now, conf);
              state == if before.isAllowed then before.(requests := before.requests + CostOf(cost)) else before
    {
      state := State(now);
      if state.isAllowed {
        var effectiveCost := CostOf(cost);
        if effectiveCost == 0 {
          return;
        }
        key := Touch(key, at);
        key := if ExpiryMicros(conf) == 0 then NO_KEY
               else Key(key.scores + Repeat(scoredAt, effectiveCost), Some(at + ExpiryMicros(conf)));
        state := state.(requests := state.requests + effectiveCost);
      }
    }

    /** `front` is what a dequeue would find: a job with the cost in its envelope, or nothing. */
    method PopQueueMessage(front: Option<Option<nat>>, fallbackWaitMs: nat, checkedAt: int, scoredAt: int, now: int,
                           at: int)
      returns (popped: bool, waitMs: nat)
      modifies this
      ensures var k := AfterState(old(key), checkedAt, conf);
              && popped == (|k.scores| < conf.limit && front.Some?)
              && key == (if popped then AfterConsume(k, front.value, scoredAt, now, at, conf) else k)
              && (!popped ==> waitMs == WaitMs(StateOf(k, checkedAt, conf), fallbackWaitMs))
    {
      var state := State(checkedAt);
      if state.isAllowed && front.Some? {
        var _ := Consume(front.value, scoredAt, now, at);
        return true, 0;
      }
      popped := false;
      waitMs :=
        if state.throttledFor.Some? && state.throttledFor.value >= 0 then state.throttledFor.value else fallbackWaitMs;
    }
  }

  function WaitMs(state: ThrottlerState, fallbackWaitMs: nat): nat {
    if state.throttledFor.Some? && state.throttledFor.value >= 0 then state.throttledFor.value else fallbackWaitMs
  }

  /** A charge adds one entry per unit of cost, all with the score, to what is left, and renews the expiry: whole
      seconds of the window from the moment the server carries it out. */
  lemma WhatAChargeLeaves(k: Key, cost: Option<nat>, scoredAt: int, now: int, at: int, conf: Settings)
    requires |AfterState(k, now, conf).scores| < conf.limit && (cost.Some? ==> cost.value > 0) && conf.windowMs >= 1000
    ensures var k', left := AfterConsume(k, cost, scoredAt, now, at, conf), Touch(AfterState(k, now, conf), at).scores;
            && k'.expiresAt == Some(at + 1_000_000 * (conf.windowMs / 1000))
            && |k'.scores| == |left| + (if cost.Some? then cost.value else 1) && left <= k'.scores
            && forall i :: |left| <= i < |k'.scores| ==> k'.scores[i] == scoredAt
  {
  }

  /** A refused dispatcher waits the age of the oldest entry and the window, in milliseconds rounded down, and one
      more; when nothing is in the key, which is so only under the limit 0, it waits as it would without a throttle. */
  lemma WhatItWaits(k: Key, now: int, conf: Settings, fallbackWaitMs: nat)
    requires |k.scores| >= conf.limit && forall i :: 0 <= i < |k.scores| ==> k.scores[i] <= now
    ensures k.scores == [] ==> conf.limit == 0 && WaitMs(StateOf(k, now, conf), fallbackWaitMs) == fallbackWaitMs
    ensures k.scores != [] ==>
              var micros := now - Lowest(k.scores) + 1000 * conf.windowMs;
              WaitMs(StateOf(k, now, conf), fallbackWaitMs) == micros / 1000 + 1
  {
  }

  // ---- one dispatcher, one monotone clock ----

  datatype Charge = Charge(score: int, cost: nat)

  datatype Turn = Turn(front: Option<Option<nat>>, checkedAt: int, scoredAt: int, now: int, at: int)

  datatype Dispatcher = Dispatcher(key: Key, charges: seq<Charge>, clock: int)

  predicate InOrder(d: Dispatcher, t: Turn) {
    0 <= d.clock <= t.checkedAt <= t.scoredAt <= t.now <= t.at
  }

  predicate Pops(d: Dispatcher, t: Turn, conf: Settings) {
    |AfterState(d.key, t.checkedAt, conf).scores| < conf.limit && t.front.Some?
  }

  /** The charge is what `Consume` really does: nothing when its own check fails. */
  function TakeTurn(d: Dispatcher, t: Turn, conf: Settings): Dispatcher {
    var k := AfterState(d.key, t.checkedAt, conf);
    if !Pops(d, t, conf) then Dispatcher(k, d.charges, t.checkedAt)
    else
      var charged := |AfterState(k, t.now, conf).scores| < conf.limit && CostOf(t.front.value) > 0;
      Dispatcher(AfterConsume(k, t.front.value, t.scoredAt, t.now, t.at, conf),
                 d.charges + (if charged then [Charge(t.scoredAt, CostOf(t.front.value))] else []), t.at)
  }

  /** Cost charged with a score in `(lo, hi]`. */
  function Units(charges: seq<Charge>, lo: int, hi: int): nat {
    if charges == [] then 0
    else
      var last := charges[|charges| - 1];
      Units(charges[..|charges| - 1], lo, hi) + (if lo < last.score <= hi then last.cost else 0)
  }

  function Above(scores: seq<int>, lo: int): nat {
    if scores == [] then 0 else (if scores[0] > lo then 1 else 0) + Above(scores[1..], lo)
  }

  lemma {:induction false} AboveAppend(a: seq<int>, b: seq<int>, lo: int)
    ensures Above(a + b, lo) == Above(a, lo) + Above(b, lo)
  {
    if a == [] {
      assert a + b == b;
    } else {
      assert (a + b)[1..] == a[1..] + b;
      AboveAppend(a[1..], b, lo);
    }
  }

  lemma {:induction false} AboveRepeat(t: int, n: nat, lo: int)
    ensures Above(Repeat(t, n), lo) == if t > lo then n else 0
  {
    if n > 0 {
      assert Repeat(t, n)[1..] == Repeat(t, n - 1);
      AboveRepeat(t, n - 1, lo);
    }
  }

  lemma {:induction false} PurgeKeepsAbove(scores: seq<int>, max: int)
    requires forall i :: 0 <= i < |scores| ==> scores[i] >= 0
    ensures forall i :: 0 <= i < |Purge(scores, max)| ==> Purge(scores, max)[i] > max && Purge(scores, max)[i] in scores
    ensures |Purge(scores, max)| == Above(scores, max)
    ensures forall lo :: lo >= max ==> Above(Purge(scores, max), lo) == Above(scores, lo)
  {
    if scores != [] {
      PurgeKeepsAbove(scores[1..], max);
      var rest := Purge(scores[1..], max);
      if scores[0] > max {
        assert ([scores[0]] + rest)[1..] == rest;
      }
    }
  }

  /** The key holds what is still inside the window. */
  ghost predicate Tracks(d: Dispatcher, conf: Settings) {
    && 0 <= d.clock
    && (forall i :: 0 <= i < |d.key.scores| ==> 0 <= d.key.scores[i] <= d.clock)
    && (forall lo :: lo >= d.clock - WindowMicros(conf) ==> Above(d.key.scores, lo) == Units(d.charges, lo, d.clock))
    && (forall i :: 0 <= i < |d.charges| ==> d.charges[i].score <= d.clock)
    && (d.key.expiresAt.Some? ==>
          forall i :: 0 <= i < |d.charges| ==> d.charges[i].score + ExpiryMicros(conf) <= d.key.expiresAt.value)
  }

  lemma {:induction false} NoneLeft(charges: seq<Charge>, lo: int, hi: int)
    requires forall i :: 0 <= i < |charges| ==> charges[i].score <= lo
    ensures Units(charges, lo, hi) == 0
  {
    if charges != [] {
      NoneLeft(charges[..|charges| - 1], lo, hi);
    }
  }

  lemma {:induction false} UnitsUpTo(charges: seq<Charge>, lo: int, hi: int, hi': int)
    requires hi <= hi' && forall i :: 0 <= i < |charges| ==> charges[i].score <= hi
    ensures Units(charges, lo, hi') == Units(charges, lo, hi)
  {
    if charges != [] {
      UnitsUpTo(charges[..|charges| - 1], lo, hi, hi');
    }
  }

  predicate WholeSeconds(conf: Settings) {
    conf.windowMs % 1000 == 0
  }

  lemma WholeSecondsExpiry(conf: Settings)
    ensures WholeSeconds(conf) <==> ExpiryMicros(conf) == WindowMicros(conf)
    ensures ExpiryMicros(conf) <= WindowMicros(conf)
  {
  }

  lemma TouchTracks(d: Dispatcher, now: int, conf: Settings)
    requires WholeSeconds(conf) && Tracks(d, conf) && d.clock <= now
    ensures Tracks(Dispatcher(Touch(d.key, now), d.charges, now), conf)
  {
    WholeSecondsExpiry(conf);
    forall lo | lo >= now - WindowMicros(conf)
      ensures Above(Touch(d.key, now).scores, lo) == Units(d.charges, lo, now)
    {
      UnitsUpTo(d.charges, lo, d.clock, now);
      if d.key.expiresAt.Some? && d.key.expiresAt.value <= now {
        NoneLeft(d.charges, lo, now);
      }
    }
  }

  lemma StateTracks(d: Dispatcher, now: int, conf: Settings)
    requires WholeSeconds(conf) && Tracks(d, conf) && d.clock <= now
    ensures var d' := Dispatcher(AfterState(d.key, now, conf), d.charges, now);
            Tracks(d', conf) && |d'.key.scores| == Units(d.charges, now - WindowMicros(conf), now)
  {
    TouchTracks(d, now, conf);
    PurgeKeepsAbove(Touch(d.key, now).scores, now - WindowMicros(conf));
  }

  lemma ChargeTracks(d: Dispatcher, scoredAt: int, at: int, cost: nat, conf: Settings)
    requires WholeSeconds(conf) && conf.windowMs > 0 && Tracks(d, conf) && cost > 0
    requires 0 <= scoredAt <= d.clock <= at
    ensures Tracks(Dispatcher(Key(Touch(d.key, at).scores + Repeat(scoredAt, cost), Some(at + ExpiryMicros(conf))),
                              d.charges + [Charge(scoredAt, cost)], at), conf)
  {
    TouchTracks(d, at, conf);
    var charges := d.charges + [Charge(scoredAt, cost)];
    assert charges[..|d.charges|] == d.charges;
    var scores := Touch(d.key, at).scores;
    forall lo | lo >= at - WindowMicros(conf)
      ensures Above(scores + Repeat(scoredAt, cost), lo) == Units(charges, lo, at)
    {
      AboveAppend(scores, Repeat(scoredAt, cost), lo);
      AboveRepeat(scoredAt, cost, lo);
    }
  }

  /** Between the dispatcher's check and the one in `consume` entries can only expire. */
  lemma StillAllowed(d: Dispatcher, t: Turn, conf: Settings)
    requires Tracks(d, conf) && WholeSeconds(conf) && InOrder(d, t) && Pops(d, t, conf)
    ensures |AfterState(AfterState(d.key, t.checkedAt, conf), t.now, conf).scores| < conf.limit
  {
    var d0 := Dispatcher(AfterState(d.key, t.checkedAt, conf), d.charges, t.checkedAt);
    StateTracks(d, t.checkedAt, conf);
    PurgeKeepsAbove(Touch(d0.key, t.now).scores, t.now - WindowMicros(conf));
    AboveAtMost(Touch(d0.key, t.now).scores, t.now - WindowMicros(conf));
  }

  lemma {:induction false} AboveAtMost(scores: seq<int>, lo: int)
    ensures Above(scores, lo) <= |scores|
  {
    if scores != [] {
      AboveAtMost(scores[1..], lo);
    }
  }

  lemma TurnKeepsTracks(d: Dispatcher, t: Turn, conf: Settings)
    requires WholeSeconds(conf) && conf.windowMs > 0 && Tracks(d, conf) && InOrder(d, t)
    ensures Tracks(TakeTurn(d, t, conf), conf)
  {
    var d0 := Dispatcher(AfterState(d.key, t.checkedAt, conf), d.charges, t.checkedAt);
    StateTracks(d, t.checkedAt, conf);
    if Pops(d, t, conf) {
      StillAllowed(d, t, conf);
      StateTracks(d0, t.now, conf);
      var d1 := Dispatcher(AfterState(d0.key, t.now, conf), d.charges, t.now);
      if CostOf(t.front.value) > 0 {
        ChargeTracks(d1, t.scoredAt, t.at, CostOf(t.front.value), conf);
      } else {
        assert d.charges + [] == d.charges;
        forall lo | lo >= t.at - WindowMicros(conf) ensures Above(d1.key.scores, lo) == Units(d.charges, lo, t.at) {
          UnitsUpTo(d.charges, lo, t.now, t.at);
        }
      }
    }
  }

  /** Every popped job of nonzero cost is charged, by exactly its cost, which is 1 when the job names none. The
      dispatcher's own check, which comes before the score is read, leaves less than the limit in the window that
      ends at the score. */
  lemma PoppedJobsAreCharged(d: Dispatcher, t: Turn, conf: Settings)
    requires WholeSeconds(conf) && conf.windowMs > 0 && Tracks(d, conf) && InOrder(d, t)
    ensures var cost := match t.front case Some(Some(given)) => given case _ => 1;
            TakeTurn(d, t, conf).charges ==
              d.charges + (if Pops(d, t, conf) && cost > 0 then [Charge(t.scoredAt, cost)] else [])
    ensures Pops(d, t, conf) ==> Units(d.charges, t.scoredAt - 1000 * conf.windowMs, t.scoredAt) < conf.limit
  {
    if Pops(d, t, conf) {
      StillAllowed(d, t, conf);
      StateTracks(d, t.checkedAt, conf);
      NarrowerHoldsLess(d.charges, t.scoredAt - WindowMicros(conf), t.scoredAt, t.checkedAt - WindowMicros(conf),
        t.checkedAt);
    }
  }

  lemma {:induction false} NarrowerHoldsLess(charges: seq<Charge>, lo: int, hi: int, lo': int, hi': int)
    requires lo' <= lo && forall k :: 0 <= k < |charges| ==> charges[k].score <= hi'
    ensures Units(charges, lo, hi) <= Units(charges, lo', hi')
  {
    if charges != [] {
      NarrowerHoldsLess(charges[..|charges| - 1], lo, hi, lo', hi');
    }
  }

  // ---- the window bound over whole runs ----

  ghost predicate AllInOrder(d: Dispatcher, turns: seq<Turn>, conf: Settings)
    decreases |turns|
  {
    turns == [] || (InOrder(d, turns[0]) && AllInOrder(TakeTurn(d, turns[0], conf), turns[1..], conf))
  }

  ghost function TakeTurns(d: Dispatcher, turns: seq<Turn>, conf: Settings): Dispatcher
    decreases |turns|
  {
    if turns == [] then d else TakeTurns(TakeTurn(d, turns[0], conf), turns[1..], conf)
  }

  /** Charges come in order of their scores, each with less than the limit in the window before it. */
  ghost predicate WellCharged(charges: seq<Charge>, conf: Settings) {
    && (forall j, k :: 0 <= j < k < |charges| ==> charges[j].score <= charges[k].score)
    && (forall k :: 0 <= k < |charges| ==> WasBelow(charges, k, conf))
  }

  ghost predicate WasBelow(charges: seq<Charge>, k: nat, conf: Settings)
    requires k < |charges|
  {
    Units(charges[..k], charges[k].score - WindowMicros(conf), charges[k].score) < conf.limit
  }

  lemma WellChargedSnoc(charges: seq<Charge>, c: Charge, conf: Settings)
    requires WellCharged(charges, conf) && forall j :: 0 <= j < |charges| ==> charges[j].score <= c.score
    requires Units(charges, c.score - WindowMicros(conf), c.score) < conf.limit
    ensures WellCharged(charges + [c], conf)
  {
    var all := charges + [c];
    forall k | 0 <= k < |all| ensures WasBelow(all, k, conf) {
      if k < |charges| {
        WasBelowStays(charges, c, k, conf);
      } else {
        LastWasBelow(charges, c, conf);
      }
    }
  }

  lemma LastWasBelow(charges: seq<Charge>, c: Charge, conf: Settings)
    requires Units(charges, c.score - WindowMicros(conf), c.score) < conf.limit
    ensures WasBelow(charges + [c], |charges|, conf)
  {
    assert (charges + [c])[..|charges|] == charges;
  }

  lemma WasBelowStays(charges: seq<Charge>, c: Charge, k: nat, conf: Settings)
    requires k < |charges| && WasBelow(charges, k, conf)
    ensures WasBelow(charges + [c], k, conf)
  {
    assert (charges + [c])[..k] == charges[..k];
  }

  /** Every run of one dispatcher charges well. */
  lemma {:induction false} RunsChargeWell(d: Dispatcher, turns: seq<Turn>, conf: Settings)
    requires WholeSeconds(conf) && conf.windowMs > 0 && Tracks(d, conf) && AllInOrder(d, turns, conf)
    requires WellCharged(d.charges, conf)
    ensures WellCharged(TakeTurns(d, turns, conf).charges, conf)
    decreases |turns|
  {
    if turns != [] {
      var t, d' := turns[0], TakeTurn(d, turns[0], conf);
      PoppedJobsAreCharged(d, t, conf);
      TurnKeepsTracks(d, t, conf);
      if Pops(d, t, conf) && CostOf(t.front.value) > 0 {
        WellChargedSnoc(d.charges, Charge(t.scoredAt, CostOf(t.front.value)), conf);
      } else {
        assert d'.charges == d.charges;
      }
      RunsChargeWell(d', turns[1..], conf);
    }
  }

  /** In every window `(x, x + window]` the cost charged is below the limit plus the last charge in it. */
  ghost predicate WindowsBounded(charges: seq<Charge>, conf: Settings) {
    forall x, k :: WindowHolds(charges, conf, x, k)
  }

  /** The k-th charge is the last of this window's that has been made. */
  ghost predicate WindowHolds(charges: seq<Charge>, conf: Settings, x: int, k: int) {
    0 <= k < |charges| && x < charges[k].score <= x + 1000 * conf.windowMs ==>
      Units(charges[..k + 1], x, x + 1000 * conf.windowMs) < conf.limit + charges[k].cost
  }

  lemma WellChargedIsBounded(charges: seq<Charge>, conf: Settings)
    requires WellCharged(charges, conf)
    ensures WindowsBounded(charges, conf)
  {
    forall x, k ensures WindowHolds(charges, conf, x, k) {
      if 0 <= k < |charges| && x < charges[k].score <= x + WindowMicros(conf) {
        WindowAt(charges, conf, x, k);
      }
    }
  }

  lemma WindowAt(charges: seq<Charge>, conf: Settings, x: int, k: nat)
    requires WellCharged(charges, conf) && k < |charges| && x >= charges[k].score - WindowMicros(conf)
    ensures Units(charges[..k + 1], x, x + WindowMicros(conf)) < conf.limit + charges[k].cost
  {
    assert charges[..k + 1][..k] == charges[..k];
    assert WasBelow(charges, k, conf);
    NarrowerHoldsLess(charges[..k], x, x + WindowMicros(conf), charges[k].score - WindowMicros(conf), charges[k].score);
  }

  function NewDispatcher(start: nat): Dispatcher {
    Dispatcher(NO_KEY, [], start)
  }

  /** One dispatcher and a monotone clock, read any number of times: every window of every run is bounded. */
  lemma EveryRunIsBounded(start: nat, turns: seq<Turn>, conf: Settings)
    requires WholeSeconds(conf) && AllInOrder(NewDispatcher(start), turns, conf)
    ensures WindowsBounded(TakeTurns(NewDispatcher(start), turns, conf).charges, conf)
  {
    if conf.windowMs > 0 {
      RunsChargeWell(NewDispatcher(start), turns, conf);
      WellChargedIsBounded(TakeTurns(NewDispatcher(start), turns, conf).charges, conf);
    }
  }

  lemma {:induction false} NothingUnderLimitZero(d: Dispatcher, turns: seq<Turn>, conf: Settings)
    requires conf.limit == 0
    ensures TakeTurns(d, turns, conf).charges == d.charges
    decreases |turns|
  {
    if turns != [] {
      NothingUnderLimitZero(TakeTurn(d, turns[0], conf), turns[1..], conf);
    }
  }

  function TurnAt(t: int, cost: nat): Turn {
    Turn(Some(Some(cost)), t, t, t, t)
  }

  /** The window filled up at once, and one more job when the key has expired. */
  function EarlyExpiry(start: nat, conf: Settings): seq<Turn> {
    [TurnAt(start, conf.limit), TurnAt(start + ExpiryMicros(conf), 1)]
  }

  lemma EarlyExpiryCharges(start: nat, conf: Settings)
    requires conf.limit > 0
    ensures AllInOrder(NewDispatcher(start), EarlyExpiry(start, conf), conf)
    ensures TakeTurns(NewDispatcher(start), EarlyExpiry(start, conf), conf).charges
         == [Charge(start, conf.limit), Charge(start + ExpiryMicros(conf), 1)]
  {
    var turns, e := EarlyExpiry(start, conf), ExpiryMicros(conf);
    var d1 := TakeTurn(NewDispatcher(start), turns[0], conf);
    assert AfterState(NO_KEY, start, conf) == NO_KEY;
    assert d1.charges == [Charge(start, conf.limit)] && d1.clock == start;
    assert Touch(d1.key, start + e) == NO_KEY;
    var d2 := TakeTurn(d1, turns[1], conf);
    assert AfterState(d1.key, start + e, conf) == NO_KEY;
    assert d2.charges == [Charge(start, conf.limit), Charge(start + e, 1)];
    assert turns[1..] == [turns[1]] && turns[1..][1..] == [];
    assert AllInOrder(d1, turns[1..], conf) && TakeTurns(d1, turns[1..], conf) == d2;
  }

  /** The key expires after whole seconds. Every run of one dispatcher keeps the bound if and only if the
      window is a whole number of seconds, or the limit lets nothing through at all. */
  lemma RunsBoundedIffWholeSeconds(start: nat, conf: Settings)
    ensures (forall turns :: AllInOrder(NewDispatcher(start), turns, conf) ==>
               WindowsBounded(TakeTurns(NewDispatcher(start), turns, conf).charges, conf))
       <==> WholeSeconds(conf) || conf.limit == 0
  {
    if WholeSeconds(conf) || conf.limit == 0 {
      forall turns | AllInOrder(NewDispatcher(start), turns, conf)
        ensures WindowsBounded(TakeTurns(NewDispatcher(start), turns, conf).charges, conf)
      {
        if conf.limit == 0 {
          NothingUnderLimitZero(NewDispatcher(start), turns, conf);
        } else {
          EveryRunIsBounded(start, turns, conf);
        }
      }
    } else {
      EarlyExpiryCharges(start, conf);
      WholeSecondsExpiry(conf);
      var charges := [Charge(start, conf.limit), Charge(start + ExpiryMicros(conf), 1)];
      assert charges[..1 + 1] == charges;
      TwoInOneWindow(charges[0], charges[1], start - 1, start - 1 + WindowMicros(conf));
      assert !WindowHolds(charges, conf, start - 1, 1);
    }
  }

  lemma TwoInOneWindow(a: Charge, b: Charge, lo: int, hi: int)
    requires lo < a.score <= hi && lo < b.score <= hi
    ensures Units([a, b], lo, hi) == a.cost + b.cost
  {
    var both := [a, b];
    assert both[|both| - 1] == b && both[..|both| - 1] == [a];
    assert [a][|[a]| - 1] == a && [a][..|[a]| - 1] == [];
    assert Units([a], lo, hi) == a.cost;
  }

  // ---- waiting ----

  /** After the returned wait every entry of the refused check has expired, so the next check is allowed
      whenever any check can be; and the wait is longer than needed by twice the age of the oldest entry. */
  lemma WaitSuffices(k: Key, now: int, conf: Settings, fallback: nat, next: int)
    requires 0 <= now && forall i :: 0 <= i < |k.scores| ==> 0 <= k.scores[i] <= now
    requires var refused := StateOf(AfterState(k, now, conf), now, conf);
             !refused.isAllowed && conf.limit >= 1 && next >= now + 1000 * WaitMs(refused, fallback)
    ensures var k' := AfterState(k, now, conf);
            && AfterState(k', next, conf) == NO_KEY
            && StateOf(AfterState(k', next, conf), next, conf) == ThrottlerState(0, true, None)
            && 1000 * WaitMs(StateOf(k', now, conf), fallback)
                 > (Lowest(k'.scores) + WindowMicros(conf) - now) + 2 * (now - Lowest(k'.scores))
  {
    var k' := AfterState(k, now, conf);
    LeftInWindow(k, now, conf);
    assert k'.scores != [];
    WaitCovers(k', now, conf, fallback);
    NextFindsNothing(k', now, conf, next);
  }

  lemma LeftInWindow(k: Key, now: int, conf: Settings)
    requires forall i :: 0 <= i < |k.scores| ==> 0 <= k.scores[i] <= now
    ensures var left := AfterState(k, now, conf).scores;
            forall i :: 0 <= i < |left| ==> 0 <= left[i] <= now && now - WindowMicros(conf) < left[i]
  {
    PurgeKeepsAbove(Touch(k, now).scores, now - WindowMicros(conf));
  }

  lemma NextFindsNothing(k: Key, now: int, conf: Settings, next: int)
    requires forall i :: 0 <= i < |k.scores| ==> 0 <= k.scores[i] <= now
    requires next - WindowMicros(conf) >= now
    ensures AfterState(k, next, conf) == NO_KEY
  {
    PurgeAll(k.scores, next - WindowMicros(conf));
  }

  /** The returned wait in microseconds: more than the age of the oldest entry and the window together. */
  lemma WaitCovers(k: Key, now: int, conf: Settings, fallback: nat)
    requires !StateOf(k, now, conf).isAllowed && conf.limit >= 1
    requires k.scores != [] && now - WindowMicros(conf) < Lowest(k.scores) <= now
    ensures 1000 * WaitMs(StateOf(k, now, conf), fallback) > now - Lowest(k.scores) + WindowMicros(conf)
  {
    TruncCovers(now - Lowest(k.scores) + WindowMicros(conf));
  }

  lemma TruncCovers(v: int)
    requires v >= 0
    ensures 1000 * (TruncDiv1000(v) + 1) > v
  {
  }

  lemma {:induction false} PurgeAll(scores: seq<int>, max: int)
    requires forall i :: 0 <= i < |scores| ==> 0 <= scores[i] <= max
    ensures Purge(scores, max) == []
  {
    if scores != [] {
      PurgeAll(scores[1..], max);
    }
  }
}
