/** Clients that race with Replace for one unique job that is stored. Each looks the job up, HEXISTS and HGET in
    one step since none of them removes the envelope, and then sends its pipeline; the commands of the
    pipelines interleave. */
module ReplaceRace {
  import opened Redis
  import opened Envelope
  import opened S = Store
  import opened Whereabouts
  import opened Bulk

  datatype Request = Request(env: JobEnvelope, dest: Destination)

  /** Before its lookup, or with this much of its pipeline left. */
  datatype Client = Looking | Writing(rest: seq<Command>)

  datatype Race = Race(store: Store, clients: seq<Client>)

  predicate Ready(r: Race, p: nat) {
    p < |r.clients| && (r.clients[p].Looking? || r.clients[p].rest != [])
  }

  /** The lookup, or the next command of the pipeline. */
  function Turn(r: Race, reqs: seq<Request>, p: nat): Race
    requires |reqs| == |r.clients| && Ready(r, p)
  {
    match r.clients[p]
    case Looking =>
      var pipe := CommandsFor(ActionFor(r.store.jobs, reqs[p].env), reqs[p].env, reqs[p].dest);
      r.(clients := r.clients[p := Writing(pipe)])
    case Writing(rest) => Race(Exec(r.store, rest[0]), r.clients[p := Writing(rest[1..])])
  }

  ghost predicate AllReady(r: Race, reqs: seq<Request>, turns: seq<nat>)
    requires |reqs| == |r.clients|
    decreases |turns|
  {
    turns == [] || (Ready(r, turns[0]) && AllReady(Turn(r, reqs, turns[0]), reqs, turns[1..]))
  }

  ghost function Play(r: Race, reqs: seq<Request>, turns: seq<nat>): (end: Race)
    requires |reqs| == |r.clients| && AllReady(r, reqs, turns)
    ensures |end.clients| == |r.clients|
    decreases |turns|
  {
    if turns == [] then r else Play(Turn(r, reqs, turns[0]), reqs, turns[1..])
  }

  /** Every client that has looked is done. */
  predicate Settled(r: Race) {
    forall p :: 0 <= p < |r.clients| ==> r.clients[p].Looking? || r.clients[p].rest == []
  }

  function StartOf(s: Store, n: nat): (r: Race)
    ensures r.store == s && |r.clients| == n && forall p :: 0 <= p < n ==> r.clients[p] == Looking
  {
    Race(s, seq(n, _ => Looking))
  }

  /** All of them replace the job `id`. */
  ghost predicate Replacers(reqs: seq<Request>, id: JobId) {
    forall p :: 0 <= p < |reqs| ==>
      reqs[p].env.id == id && reqs[p].env.meta.unique && reqs[p].env.meta.onConflict == Some(Replace)
  }

  predicate AllToSchedule(reqs: seq<Request>) {
    forall p :: 0 <= p < |reqs| ==> reqs[p].dest == ToSchedule
  }

  // ---- a client alone ----

  ghost predicate Alone(r: Race, s: Store, req: Request) {
    |r.clients| == 1 &&
    match r.clients[0]
    case Looking => r.store == s
    case Writing(rest) => ExecAll(r.store, rest) == Enqueue(s, req.env, req.dest)
  }

  lemma AloneStep(r: Race, s: Store, req: Request)
    requires Alone(r, s, req) && Ready(r, 0)
    ensures Alone(Turn(r, [req], 0), s, req)
  {
    match r.clients[0]
    case Looking => CommandsDoTheEnqueue(s, req.env, req.dest);
    case Writing(rest) =>
      assert [rest[0]] + rest[1..] == rest;
      ExecAllAppend(r.store, [rest[0]], rest[1..]);
      assert [rest[0]] == [] + [rest[0]];
      ExecAllSnoc(r.store, [], rest[0]);
  }

  lemma {:induction false} AloneRun(r: Race, s: Store, req: Request, turns: seq<nat>)
    requires Alone(r, s, req) && AllReady(r, [req], turns)
    ensures Alone(Play(r, [req], turns), s, req)
    decreases |turns|
  {
    if turns != [] {
      AloneStep(r, s, req);
      AloneRun(Turn(r, [req], turns[0]), s, req, turns[1..]);
    }
  }

  // ---- all to the schedule ----

  /** Nothing has been written yet; whoever has looked saw the job as it was. */
  ghost predicate Untouched(r: Race, s: Store, reqs: seq<Request>, id: JobId)
    requires |reqs| == |r.clients| && id in s.jobs
  {
    r.store == s && forall p :: 0 <= p < |reqs| ==>
      r.clients[p] == Looking || r.clients[p] == Writing(ReplaceCommands(s.jobs[id].queue, reqs[p].env, ToSchedule))
  }

  ghost predicate Pending(r: Race, c: Command) {
    exists p :: 0 <= p < |r.clients| && r.clients[p].Writing? && c in r.clients[p].rest
  }

  ghost predicate SomeoneWrites(r: Race) {
    exists p :: 0 <= p < |r.clients| && r.clients[p].Writing? && r.clients[p].rest != []
  }

  /** A pipeline to the schedule: it pushes to no queue and ends with the ZADD. */
  ghost predicate ToTheSchedule(c: Client, id: JobId) {
    c.Writing? && c.rest != [] ==>
      && (c.rest[|c.rest| - 1].ZAddSchedule? && c.rest[|c.rest| - 1].id == id)
      && (forall k :: 0 <= k < |c.rest| ==> Mild(c.rest[k], id))
  }

  predicate Mild(c: Command, id: JobId) {
    match c
    case HSet(e) => e.id == id
    case PushHead(_, _) => false
    case ZAddSchedule(x, _) => x == id
    case ZRemSchedule(x) => x == id
    case ZRemRetry(x) => x == id
    case LRem(_, x) => x == id
  }

  /** Where the id can be while something is still to be written. */
  ghost predicate Allowed(r: Race, slot: Slot, was: QueueName, id: JobId) {
    match slot
    case ScheduleSlot => true
    case RetrySlot => Pending(r, ZRemRetry(id))
    case QueueSlot(q, _) => q == was && Pending(r, LRem(was, id))
    case RunSlot(_, _) => false
  }

  ghost predicate Touched(r: Race, was: QueueName, id: JobId) {
    && (forall slot :: Holds(r.store, slot, id) ==> Allowed(r, slot, was, id))
    && (id in r.store.schedule || SomeoneWrites(r))
  }

  ghost predicate Sound(r: Race, s: Store, reqs: seq<Request>, id: JobId) {
    && |reqs| == |r.clients| && id in s.jobs && id in r.store.jobs
    && (forall p :: 0 <= p < |r.clients| ==> ToTheSchedule(r.clients[p], id))
    && (Untouched(r, s, reqs, id) || Touched(r, s.jobs[id].queue, id))
  }

  lemma PipeIsMild(q: QueueName, req: Request, id: JobId)
    requires req.env.id == id && req.dest == ToSchedule
    ensures ToTheSchedule(Writing(ReplaceCommands(q, req.env, ToSchedule)), id)
    ensures var pipe := ReplaceCommands(q, req.env, ToSchedule);
            pipe[0] == HSet(req.env) && ZRemRetry(id) in pipe[1..] && LRem(q, id) in pipe[1..] && pipe[1..] != []
  {
    var pipe := ReplaceCommands(q, req.env, ToSchedule);
    assert pipe[1..][1] == ZRemRetry(id) && pipe[1..][2] == LRem(q, id);
  }

  /** A turn takes at most the command it executes out of what is pending. */
  lemma StaysPending(r: Race, reqs: seq<Request>, p: nat, c: Command)
    requires |reqs| == |r.clients| && Ready(r, p) && Pending(r, c)
    ensures Pending(Turn(r, reqs, p), c) || (r.clients[p].Writing? && r.clients[p].rest[0] == c)
  {
    var k :| 0 <= k < |r.clients| && r.clients[k].Writing? && c in r.clients[k].rest;
    var r' := Turn(r, reqs, p);
    if k == p {
      assert r.clients[p].rest == [r.clients[p].rest[0]] + r.clients[p].rest[1..];
      assert r.clients[p].rest[0] == c || c in r'.clients[p].rest;
    } else {
      assert r'.clients[k] == r.clients[k];
    }
  }

  lemma LookKeepsSound(r: Race, s: Store, reqs: seq<Request>, id: JobId, p: nat)
    requires Sound(r, s, reqs, id) && Replacers(reqs, id) && AllToSchedule(reqs)
    requires Ready(r, p) && r.clients[p].Looking?
    ensures Sound(Turn(r, reqs, p), s, reqs, id)
  {
    var r', was := Turn(r, reqs, p), s.jobs[id].queue;
    PipeIsMild(r.store.jobs[id].queue, reqs[p], id);
    if !Untouched(r, s, reqs, id) {
      forall slot | Holds(r'.store, slot, id) ensures Allowed(r', slot, was, id) {
        if slot.RetrySlot? {
          StaysPending(r, reqs, p, ZRemRetry(id));
        } else if slot.QueueSlot? {
          StaysPending(r, reqs, p, LRem(was, id));
        }
      }
      assert r'.clients[p].Writing? && r'.clients[p].rest != [];
    }
  }

  /** The first write of all: everything that clears the old place is now pending. */
  lemma FirstWrite(r: Race, s: Store, reqs: seq<Request>, id: JobId, p: nat)
    requires Sound(r, s, reqs, id) && Replacers(reqs, id) && AllToSchedule(reqs) && OnePlace(s) && !IsRunning(s, id)
    requires Ready(r, p) && r.clients[p].Writing? && Untouched(r, s, reqs, id)
    ensures Sound(Turn(r, reqs, p), s, reqs, id)
  {
    var r', was := Turn(r, reqs, p), s.jobs[id].queue;
    PipeIsMild(was, reqs[p], id);
    assert r'.clients[p] == Writing(ReplaceCommands(was, reqs[p].env, ToSchedule)[1..]);
    assert Pending(r', ZRemRetry(id)) && Pending(r', LRem(was, id)) && SomeoneWrites(r');
    assert forall pid :: id !in ListAt(s.processing, pid);
    forall slot | Holds(r'.store, slot, id) ensures Allowed(r', slot, was, id) {
      assert Holds(s, slot, id);
    }
  }

  lemma LaterWrite(r: Race, s: Store, reqs: seq<Request>, id: JobId, p: nat)
    requires Sound(r, s, reqs, id) && Touched(r, s.jobs[id].queue, id)
    requires Ready(r, p) && r.clients[p].Writing?
    ensures Sound(Turn(r, reqs, p), s, reqs, id)
  {
    var r', was, rest := Turn(r, reqs, p), s.jobs[id].queue, r.clients[p].rest;
    assert Mild(rest[0], id);
    assert ToTheSchedule(r'.clients[p], id);
    forall slot | Holds(r'.store, slot, id) ensures Allowed(r', slot, was, id) {
      SlotWasThere(r.store, rest[0], slot, id);
      if slot.RetrySlot? {
        StaysPending(r, reqs, p, ZRemRetry(id));
      } else if slot.QueueSlot? {
        var i :| Holds(r.store, QueueSlot(slot.queue, i), id);
        assert Allowed(r, QueueSlot(slot.queue, i), was, id);
        StaysPending(r, reqs, p, LRem(was, id));
      } else {
        assert slot.RunSlot? ==> Allowed(r, slot, was, id);
      }
    }
    if !rest[0].ZAddSchedule? {
      assert r'.clients[p].Writing? && r'.clients[p].rest != [];
    }
  }

  /** A mild command brings the id to no place but the schedule, and LREM leaves none of it in its queue. */
  lemma SlotWasThere(s: Store, c: Command, slot: Slot, id: JobId)
    requires Mild(c, id) && Holds(Exec(s, c), slot, id)
    ensures slot.QueueSlot? ==> c != LRem(slot.queue, id) && exists i :: Holds(s, QueueSlot(slot.queue, i), id)
    ensures slot.RetrySlot? ==> c != ZRemRetry(id) && Holds(s, slot, id)
    ensures slot.RunSlot? ==> Holds(s, slot, id)
  {
    if slot.QueueSlot? {
      var l := ListAt(s.queues, slot.queue);
      assert id in ListAt(Exec(s, c).queues, slot.queue);
      var i :| 0 <= i < |l| && l[i] == id;
      assert Holds(s, QueueSlot(slot.queue, i), id);
    }
  }

  lemma {:induction false} RunKeepsSound(r: Race, s: Store, reqs: seq<Request>, id: JobId, turns: seq<nat>)
    requires Sound(r, s, reqs, id) && Replacers(reqs, id) && AllToSchedule(reqs) && OnePlace(s) && !IsRunning(s, id)
    requires AllReady(r, reqs, turns)
    ensures Sound(Play(r, reqs, turns), s, reqs, id)
    decreases |turns|
  {
    if turns != [] {
      if r.clients[turns[0]].Looking? {
        LookKeepsSound(r, s, reqs, id, turns[0]);
      } else if Untouched(r, s, reqs, id) {
        FirstWrite(r, s, reqs, id, turns[0]);
      } else {
        LaterWrite(r, s, reqs, id, turns[0]);
      }
      RunKeepsSound(Turn(r, reqs, turns[0]), s, reqs, id, turns[1..]);
    }
  }

  lemma SettledIsOneSlot(r: Race, s: Store, reqs: seq<Request>, id: JobId)
    requires Sound(r, s, reqs, id) && OnePlace(s) && Settled(r)
    ensures InOneSlot(r.store, id)
  {
    if Untouched(r, s, reqs, id) {
      assert InOneSlot(s, id);
    } else {
      assert Holds(r.store, ScheduleSlot, id);
      forall slot | Holds(r.store, slot, id) ensures slot == ScheduleSlot {
      }
    }
  }

  // ---- a run that fails ----

  lemma {:induction false} PlaySnoc(r: Race, reqs: seq<Request>, turns: seq<nat>, p: nat)
    requires |reqs| == |r.clients| && AllReady(r, reqs, turns) && Ready(Play(r, reqs, turns), p)
    ensures AllReady(r, reqs, turns + [p]) && Play(r, reqs, turns + [p]) == Turn(Play(r, reqs, turns), reqs, p)
    decreases |turns|
  {
    if turns == [] {
      assert [] + [p] == [p] && [p][1..] == [];
    } else {
      assert (turns + [p])[0] == turns[0] && (turns + [p])[1..] == turns[1..] + [p];
      PlaySnoc(Turn(r, reqs, turns[0]), reqs, turns[1..], p);
    }
  }

  lemma Then(r: Race, reqs: seq<Request>, turns: seq<nat>, p: nat) returns (turns': seq<nat>)
    requires |reqs| == |r.clients| && AllReady(r, reqs, turns) && Ready(Play(r, reqs, turns), p)
    ensures AllReady(r, reqs, turns') && Play(r, reqs, turns') == Turn(Play(r, reqs, turns), reqs, p)
  {
    turns' := turns + [p];
    PlaySnoc(r, reqs, turns, p);
  }

  /** A client goes on until only the last command of its pipeline is left. */
  lemma {:induction false} RunToLast(r: Race, reqs: seq<Request>, turns: seq<nat>, p: nat) returns (turns': seq<nat>)
    requires |reqs| == |r.clients| && AllReady(r, reqs, turns) && Ready(Play(r, reqs, turns), p)
    requires Play(r, reqs, turns).clients[p].Writing?
    ensures AllReady(r, reqs, turns')
    ensures var now := Play(r, reqs, turns).clients;
            Play(r, reqs, turns').clients == now[p := Writing([now[p].rest[|now[p].rest| - 1]])]
    decreases |Play(r, reqs, turns).clients[p].rest|
  {
    var now := Play(r, reqs, turns).clients;
    if |now[p].rest| == 1 {
      turns' := turns;
      assert now[p].rest == [now[p].rest[0]];
    } else {
      turns' := Then(r, reqs, turns, p);
      turns' := RunToLast(r, reqs, turns', p);
    }
  }

  /** Both have looked and both have only their push left. */
  lemma BothAtLast(s: Store, reqs: seq<Request>, id: JobId, p: nat, q: nat) returns (turns: seq<nat>)
    requires Replacers(reqs, id) && id in s.jobs && p < |reqs| && q < |reqs| && p != q
    ensures var start := StartOf(s, |reqs|);
            && AllReady(start, reqs, turns)
            && Play(start, reqs, turns).clients == start.clients[p := Writing([PushCommand(reqs[p].env, reqs[p].dest)])]
                                                               [q := Writing([PushCommand(reqs[q].env, reqs[q].dest)])]
  {
    var start := StartOf(s, |reqs|);
    turns := Then(start, reqs, [], p);
    turns := Then(start, reqs, turns, q);
    turns := RunToLast(start, reqs, turns, p);
    turns := RunToLast(start, reqs, turns, q);
  }

  lemma PushedTwice(s: Store, a: Request, b: Request, id: JobId)
    requires a.env.id == b.env.id == id && a.dest == ToQueue
    ensures !InOneSlot(Exec(Exec(s, PushCommand(a.env, a.dest)), PushCommand(b.env, b.dest)), id)
  {
    var s' := Exec(Exec(s, PushCommand(a.env, a.dest)), PushCommand(b.env, b.dest));
    var i := if b.dest == ToQueue && b.env.queue == a.env.queue then 1 else 0;
    assert Holds(s', QueueSlot(a.env.queue, i), id);
    assert Holds(s', if b.dest == ToQueue then QueueSlot(b.env.queue, 0) else ScheduleSlot, id);
  }

  lemma TwoFail(s: Store, reqs: seq<Request>, id: JobId, p: nat, q: nat) returns (turns: seq<nat>)
    requires Replacers(reqs, id) && id in s.jobs && p < |reqs| && q < |reqs| && p != q && reqs[p].dest == ToQueue
    ensures AllReady(StartOf(s, |reqs|), reqs, turns)
    ensures var end := Play(StartOf(s, |reqs|), reqs, turns); Settled(end) && !InOneSlot(end.store, id)
  {
    var start := StartOf(s, |reqs|);
    turns := BothAtLast(s, reqs, id, p, q);
    PushedTwice(Play(start, reqs, turns).store, reqs[p], reqs[q], id);
    turns := Then(start, reqs, turns, p);
    turns := Then(start, reqs, turns, q);
  }

  lemma {:induction false} ProcessingStays(r: Race, reqs: seq<Request>, turns: seq<nat>)
    requires |reqs| == |r.clients| && AllReady(r, reqs, turns)
    ensures Play(r, reqs, turns).store.processing == r.store.processing
    decreases |turns|
  {
    if turns != [] {
      ProcessingStays(Turn(r, reqs, turns[0]), reqs, turns[1..]);
    }
  }

  /** Nobody takes a running job out of its processing list. */
  lemma RunningFails(s: Store, reqs: seq<Request>, id: JobId) returns (turns: seq<nat>)
    requires Replacers(reqs, id) && id in s.jobs && reqs != [] && IsRunning(s, id)
    ensures AllReady(StartOf(s, |reqs|), reqs, turns)
    ensures var end := Play(StartOf(s, |reqs|), reqs, turns); Settled(end) && !InOneSlot(end.store, id)
  {
    var start, req := StartOf(s, |reqs|), reqs[0];
    turns := Then(start, reqs, [], 0);
    turns := RunToLast(start, reqs, turns, 0);
    turns := Then(start, reqs, turns, 0);
    ProcessingStays(start, reqs, turns);
    var end := Play(start, reqs, turns).store;
    var pid :| id in ListAt(end.processing, pid);
    var i :| 0 <= i < |ListAt(end.processing, pid)| && ListAt(end.processing, pid)[i] == id;
    assert Holds(end, RunSlot(pid, i), id);
    assert Holds(end, if req.dest == ToQueue then QueueSlot(req.env.queue, 0) else ScheduleSlot, id);
  }

  // ---- the theorem ----

  /** In every interleaving, once those that have looked are done, the job is in one place. */
  ghost predicate AlwaysOnePlace(s: Store, reqs: seq<Request>, id: JobId) {
    forall turns :: AllReady(StartOf(s, |reqs|), reqs, turns) && Settled(Play(StartOf(s, |reqs|), reqs, turns)) ==>
      InOneSlot(Play(StartOf(s, |reqs|), reqs, turns).store, id)
  }

  lemma AloneIsOneSlot(s: Store, req: Request, id: JobId, turns: seq<nat>)
    requires OnePlace(s) && id in s.jobs && !IsRunning(s, id) && Replacers([req], id)
    requires AllReady(StartOf(s, 1), [req], turns) && Settled(Play(StartOf(s, 1), [req], turns))
    ensures InOneSlot(Play(StartOf(s, 1), [req], turns).store, id)
  {
    assert [req][0] == req;
    AloneRun(StartOf(s, 1), s, req, turns);
    EnqueueKeepsOnePlace(s, req.env, req.dest);
    EnqueueWrites(s, req.env, req.dest);
  }

  lemma SafeIsOneSlot(s: Store, reqs: seq<Request>, id: JobId, turns: seq<nat>)
    requires OnePlace(s) && id in s.jobs && Replacers(reqs, id)
    requires reqs == [] || (!IsRunning(s, id) && (|reqs| == 1 || AllToSchedule(reqs)))
    requires AllReady(StartOf(s, |reqs|), reqs, turns) && Settled(Play(StartOf(s, |reqs|), reqs, turns))
    ensures InOneSlot(Play(StartOf(s, |reqs|), reqs, turns).store, id)
  {
    var start := StartOf(s, |reqs|);
    if reqs == [] {
      assert turns == [];
    } else if AllToSchedule(reqs) {
      RunKeepsSound(start, s, reqs, id, turns);
      SettledIsOneSlot(Play(start, reqs, turns), s, reqs, id);
    } else {
      assert reqs == [reqs[0]];
      AloneIsOneSlot(s, reqs[0], id, turns);
    }
  }

  /** However many clients race with Replace for one stored job: they always leave it in one place exactly
      when there is none, or nobody runs the job and there is only one of them or all of them schedule it. */
  lemma OnePlaceIffAloneOrScheduled(s: Store, reqs: seq<Request>, id: JobId)
    requires OnePlace(s) && id in s.jobs && Replacers(reqs, id)
    ensures AlwaysOnePlace(s, reqs, id) <==>
              reqs == [] || (!IsRunning(s, id) && (|reqs| == 1 || AllToSchedule(reqs)))
  {
    var start := StartOf(s, |reqs|);
    if reqs != [] && IsRunning(s, id) {
      var turns := RunningFails(s, reqs, id);
    } else if |reqs| <= 1 || AllToSchedule(reqs) {
      forall turns | AllReady(start, reqs, turns) && Settled(Play(start, reqs, turns))
        ensures InOneSlot(Play(start, reqs, turns).store, id)
      {
        SafeIsOneSlot(s, reqs, id, turns);
      }
    } else {
      var p :| 0 <= p < |reqs| && reqs[p].dest != ToSchedule;
      var turns := TwoFail(s, reqs, id, p, if p == 0 then 1 else 0);
    }
  }
}
