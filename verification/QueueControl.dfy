/** Queue permits: a semaphore whose limit can be changed and that can be paused while it is in use.
    A mutex guards the counters; `tokio::sync::Notify` wakes the waiters. */
module QueueControl {
  import opened Redis

  datatype QueueState = Active | Paused

  datatype RuntimeConfig = RuntimeConfig(concurrency: Option<nat>, state: QueueState)

  /** What the mutex guards, and how often `notify_waiters` has been called. A `Notified` future
      remembers that number when it is created and is ready as soon as the number has grown. */
  datatype Control = Control(concurrency: nat, active: nat, state: QueueState, calls: nat)

  predicate CanGrant(c: Control) {
    c.state == Active && c.active < c.concurrency
  }

  function NewControl(config: RuntimeConfig): Control {
    Control(if config.concurrency.Some? then config.concurrency.value else 1, 0, config.state, 0)
  }

  function Grant(c: Control): Control {
    if CanGrant(c) then c.(active := c.active + 1) else c
  }

  function Configure(c: Control, config: RuntimeConfig): Control {
    c.(concurrency := if config.concurrency.Some? then config.concurrency.value else c.concurrency,
       state := config.state)
  }

  /** `saturating_sub`. */
  function GiveBack(c: Control): Control {
    c.(active := if c.active == 0 then 0 else c.active - 1)
  }

  function NotifyWaiters(c: Control): Control {
    c.(calls := c.calls + 1)
  }

  /** The object itself: each method is one critical section or one call on the notifier. */
  class QueueControl {
    var concurrency: nat
    var active: nat
    var queueState: QueueState
    var calls: nat

    ghost function View(): Control
      reads this
    {
      Control(concurrency, active, queueState, calls)
    }

    /** Without a limit in the config the limit is 1. */
    constructor (config: RuntimeConfig)
      ensures View() == NewControl(config)
      ensures concurrency == (match config.concurrency case Some(limit) => limit case None => 1)
      ensures active == 0 && queueState == config.state
    {
      concurrency := if config.concurrency.Some? then config.concurrency.value else 1;
      active := 0;
      queueState := config.state;
      calls := 0;
    }

    /** Creates the future that `acquire` may wait on; it is created before the lock is taken. */
    method Notified() returns (ticket: nat)
      ensures ticket == calls
    {
      ticket := calls;
    }

    method TryAcquire() returns (granted: bool)
      modifies this
      ensures granted == CanGrant(old(View())) && View() == Grant(old(View()))
    {
      granted := queueState == Active && active < concurrency;
      if granted {
        active := active + 1;
      }
    }

    method ApplyConfig(config: RuntimeConfig)
      modifies this
      ensures View() == NotifyWaiters(Configure(old(View()), config))
      ensures queueState == config.state && active == old(active) && calls == old(calls) + 1
      ensures concurrency == (match config.concurrency case Some(limit) => limit case None => old(concurrency))
    {
      if config.concurrency.Some? {
        concurrency := config.concurrency.value;
      }
      queueState := config.state;
      calls := calls + 1;
    }

    method Release()
      modifies this
      ensures View() == NotifyWaiters(GiveBack(old(View())))
    {
      if active > 0 {
        active := active - 1;
      }
      calls := calls + 1;
    }
  }

  // ---- every interleaving ----

  datatype Waiter =
    | Outside
      /** Holds its future, has not taken the lock yet. */
    | Subscribed(ticket: nat)
      /** Found no room; awaits its future. */
    | Asleep(ticket: nat)

  /** `permits` counts the live permits; `pending` the releases and config changes that have left the
      lock and have still to notify. */
  datatype System = System(control: Control, waiters: seq<Waiter>, permits: nat, pending: nat)

  datatype Event =
    | Subscribe(w: nat)
    | Check(w: nat)
    | Wake(w: nat)
      /** The caller drops the acquire future. */
    | Abandon(w: nat)
    | DropPermit
    | SetConfig(config: RuntimeConfig)
    | SendNotify

  function IsReady(c: Control, ticket: nat): bool {
    ticket < c.calls
  }

  predicate Possible(s: System, e: Event) {
    match e
    case Subscribe(w) => w < |s.waiters| && s.waiters[w].Outside?
    case Check(w) => w < |s.waiters| && s.waiters[w].Subscribed?
    case Wake(w) => w < |s.waiters| && s.waiters[w].Asleep? && IsReady(s.control, s.waiters[w].ticket)
    case Abandon(w) => w < |s.waiters| && !s.waiters[w].Outside?
    case DropPermit => s.permits > 0
    case SetConfig(_) => true
    case SendNotify => s.pending > 0
  }

  function Happen(s: System, e: Event): System
    requires Possible(s, e)
  {
    match e
    case Subscribe(w) => s.(waiters := s.waiters[w := Subscribed(s.control.calls)])
    case Check(w) =>
      if CanGrant(s.control)
      then s.(control := Grant(s.control), waiters := s.waiters[w := Outside], permits := s.permits + 1)
      else s.(waiters := s.waiters[w := Asleep(s.waiters[w].ticket)])
    case Wake(w) => s.(waiters := s.waiters[w := Outside])
    case Abandon(w) => s.(waiters := s.waiters[w := Outside])
    case DropPermit => s.(control := GiveBack(s.control), permits := s.permits - 1, pending := s.pending + 1)
    case SetConfig(config) => s.(control := Configure(s.control, config), pending := s.pending + 1)
    case SendNotify => s.(control := NotifyWaiters(s.control), pending := s.pending - 1)
  }

  ghost predicate NoLostWakeup(s: System) {
    forall w :: 0 <= w < |s.waiters| && s.waiters[w].Asleep? && !IsReady(s.control, s.waiters[w].ticket) ==>
      !CanGrant(s.control) || s.pending > 0
  }

  /** No future is newer than the notifier. */
  ghost predicate TicketsIssued(s: System) {
    forall w :: 0 <= w < |s.waiters| && !s.waiters[w].Outside? ==> s.waiters[w].ticket <= s.control.calls
  }

  ghost predicate Sound(s: System) {
    s.control.active == s.permits && NoLostWakeup(s) && TicketsIssued(s)
  }

  lemma EventKeepsSound(s: System, e: Event)
    requires Sound(s) && Possible(s, e)
    ensures Sound(Happen(s, e))
  {
    var s' := Happen(s, e);
    forall w | 0 <= w < |s'.waiters| && s'.waiters[w].Asleep? && !IsReady(s'.control, s'.waiters[w].ticket)
      ensures !CanGrant(s'.control) || s'.pending > 0
    {
      if s.waiters[w].Asleep? {
        assert e.SendNotify? || !IsReady(s.control, s.waiters[w].ticket);
      }
    }
  }

  /** A permit is granted only while the queue is active and below its limit of that moment, and the
      limit is not exceeded by the grant; a release never finds the counter at zero. */
  lemma GrantsRespectTheLimit(s: System, e: Event)
    requires Sound(s) && Possible(s, e)
    ensures Happen(s, e).permits > s.permits ==>
              && e.Check? && s.control.state == Active && s.control.active < s.control.concurrency
              && Happen(s, e).control.active == s.control.active + 1 <= s.control.concurrency
    ensures e.DropPermit? ==> 0 < s.control.active && Happen(s, e).control.active == s.control.active - 1
  {
  }

  ghost predicate AllPossible(s: System, es: seq<Event>)
    decreases |es|
  {
    es == [] || (Possible(s, es[0]) && AllPossible(Happen(s, es[0]), es[1..]))
  }

  function Play(s: System, es: seq<Event>): System
    requires AllPossible(s, es)
    decreases |es|
  {
    if es == [] then s else Play(Happen(s, es[0]), es[1..])
  }

  /** The largest limit in force at any moment of the history. */
  function PeakLimit(s: System, es: seq<Event>): nat
    requires AllPossible(s, es)
    decreases |es|
  {
    if es == [] then s.control.concurrency
    else
      var rest := PeakLimit(Happen(s, es[0]), es[1..]);
      if rest < s.control.concurrency then s.control.concurrency else rest
  }

  /** In every interleaving the counter is the number of live permits, no wakeup is lost, and there are
      never more permits than at the start or than the largest limit that was in force. */
  lemma {:induction false} EveryHistoryIsSound(s: System, es: seq<Event>)
    requires Sound(s) && AllPossible(s, es)
    ensures Sound(Play(s, es))
    ensures Play(s, es).permits <= (if s.permits < PeakLimit(s, es) then PeakLimit(s, es) else s.permits)
    decreases |es|
  {
    if es != [] {
      EventKeepsSound(s, es[0]);
      GrantsRespectTheLimit(s, es[0]);
      EveryHistoryIsSound(Happen(s, es[0]), es[1..]);
    }
  }

  // ---- what is in force ----

  /** The state that the last config of the history set. */
  function LastState(state: QueueState, es: seq<Event>): QueueState {
    if es == [] then state
    else
      match es[|es| - 1]
      case SetConfig(config) => config.state
      case _ => LastState(state, es[..|es| - 1])
  }

  /** The limit of the last config of the history that gave one. */
  function LastLimit(limit: nat, es: seq<Event>): nat {
    if es == [] then limit
    else
      match es[|es| - 1]
      case SetConfig(config) =>
        (match config.concurrency case Some(given) => given case None => LastLimit(limit, es[..|es| - 1]))
      case _ => LastLimit(limit, es[..|es| - 1])
  }

  lemma {:induction false} LastAfterFirst(state: QueueState, limit: nat, e: Event, es: seq<Event>)
    ensures LastState(state, [e] + es) == LastState(LastState(state, [e]), es)
    ensures LastLimit(limit, [e] + es) == LastLimit(LastLimit(limit, [e]), es)
  {
    if es == [] {
      assert [e] + es == [e];
    } else {
      var n := |es| - 1;
      assert ([e] + es)[..|es|] == [e] + es[..n] && ([e] + es)[|es|] == es[n];
      LastAfterFirst(state, limit, e, es[..n]);
    }
  }

  /** In every history the state in force is that of the last config that was set, and the limit is that of
      the last config that gave one; no other event touches them. */
  lemma {:induction false} TheLastConfigIsInForce(s: System, es: seq<Event>)
    requires AllPossible(s, es)
    ensures Play(s, es).control.state == LastState(s.control.state, es)
    ensures Play(s, es).control.concurrency == LastLimit(s.control.concurrency, es)
    decreases |es|
  {
    if es != [] {
      TheLastConfigIsInForce(Happen(s, es[0]), es[1..]);
      LastAfterFirst(s.control.state, s.control.concurrency, es[0], es[1..]);
      assert es == [es[0]] + es[1..];
      assert [es[0]][..0] == [];
    }
  }

  /** From a pause on, until an active config comes, no permit is granted, whoever waits and whatever room
      there is. */
  lemma PausedGrantsNothing(s: System, config: RuntimeConfig, es: seq<Event>)
    requires config.state == Paused && AllPossible(Happen(s, SetConfig(config)), es)
    requires forall e :: e in es && e.SetConfig? ==> e.config.state == Paused
    ensures Play(Happen(s, SetConfig(config)), es).permits <= s.permits
  {
    assert s.permits == Happen(s, SetConfig(config)).permits;
    StaysPaused(Happen(s, SetConfig(config)), es);
  }

  lemma {:induction false} StaysPaused(s: System, es: seq<Event>)
    requires s.control.state == Paused && AllPossible(s, es)
    requires forall e :: e in es && e.SetConfig? ==> e.config.state == Paused
    ensures Play(s, es).permits <= s.permits
    decreases |es|
  {
    if es != [] {
      assert es[0] in es;
      assert forall e :: e in es[1..] ==> e in es;
      StaysPaused(Happen(s, es[0]), es[1..]);
    }
  }

  /** Whenever the queue has room and somebody is in `acquire`, some event other than giving up, dropping
      a permit or changing the config can bring that waiter on: it can check, it can wake, or a
      notification that will make it ready is still to be sent. */
  lemma RoomMeansProgress(s: System, w: nat)
    requires Sound(s) && CanGrant(s.control) && w < |s.waiters| && !s.waiters[w].Outside?
    ensures Possible(s, Check(w)) || Possible(s, Wake(w)) ||
            (Possible(s, SendNotify) && Possible(Happen(s, SendNotify), Wake(w)))
    ensures Possible(s, Check(w)) ==> Happen(s, Check(w)).permits == s.permits + 1
  {
    if s.waiters[w].Asleep? && !IsReady(s.control, s.waiters[w].ticket) {
      assert s.pending > 0;
      assert s.waiters[w].ticket <= s.control.calls;
    }
  }

  /** And that is enough: with room, anyone who is in `acquire` has its permit after at most four events, none of
      which gives up, drops a permit or changes the config. */
  lemma RoomLeadsToAPermit(s: System, w: nat) returns (es: seq<Event>)
    requires Sound(s) && CanGrant(s.control) && w < |s.waiters| && !s.waiters[w].Outside?
    ensures |es| <= 4 && forall e :: e in es ==> e in {SendNotify, Wake(w), Subscribe(w), Check(w)}
    ensures AllPossible(s, es) && Play(s, es).permits == s.permits + 1 && Play(s, es).waiters == s.waiters[w := Outside]
  {
    if s.waiters[w].Subscribed? {
      es := [Check(w)];
      assert Play(s, es) == Play(Happen(s, Check(w)), []);
    } else if IsReady(s.control, s.waiters[w].ticket) {
      es := [Wake(w)] + TriesAgain(Happen(s, Wake(w)), w);
      assert es[1..] == TriesAgain(Happen(s, Wake(w)), w);
    } else {
      var s1 := Happen(s, SendNotify);
      var s2 := Happen(s1, Wake(w));
      es := [SendNotify, Wake(w)] + TriesAgain(s2, w);
      assert es[1..] == [Wake(w)] + TriesAgain(s2, w) && es[1..][1..] == TriesAgain(s2, w);
      assert Play(s, es) == Play(s1, es[1..]) == Play(s2, TriesAgain(s2, w));
    }
  }

  function TriesAgain(s: System, w: nat): (es: seq<Event>)
    requires w < |s.waiters| && s.waiters[w].Outside? && CanGrant(s.control)
    ensures es == [Subscribe(w), Check(w)]
    ensures AllPossible(s, es) && Play(s, es).permits == s.permits + 1 && Play(s, es).waiters == s.waiters[w := Outside]
  {
    var es := [Subscribe(w), Check(w)];
    assert es[1..] == [Check(w)] && es[1..][1..] == [];
    assert AllPossible(Happen(s, Subscribe(w)), [Check(w)]);
    assert Play(s, es) == Play(Happen(s, Subscribe(w)), [Check(w)]) == Happen(Happen(s, Subscribe(w)), Check(w));
    es
  }

  /** So once the pending notifications are sent, a waiter that is not ready waits for a reason. */
  lemma SleepersWaitForAReason(config: RuntimeConfig, n: nat, es: seq<Event>, w: nat)
    requires var s := System(NewControl(config), seq(n, _ => Outside), 0, 0); AllPossible(s, es)
    requires var end := Play(System(NewControl(config), seq(n, _ => Outside), 0, 0), es);
             end.pending == 0 && w < |end.waiters| && end.waiters[w].Asleep?
               && !IsReady(end.control, end.waiters[w].ticket)
    ensures var end := Play(System(NewControl(config), seq(n, _ => Outside), 0, 0), es);
            end.control.state == Paused || end.control.concurrency <= end.permits
  {
    EveryHistoryIsSound(System(NewControl(config), seq(n, _ => Outside), 0, 0), es);
  }
}
