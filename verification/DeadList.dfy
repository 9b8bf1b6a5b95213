/** The dead list: the newest kills, newest first, and what a revive does to it. */
module DeadList {
  import opened Redis
  import opened Envelope
  import opened S = Store
  import opened Lifecycle

  function KillAll(dead: seq<DeadEntry>, kills: seq<DeadEntry>): seq<DeadEntry>
    decreases |kills|
  {
    if kills == [] then dead else KillAll(PushDead(dead, kills[0]), kills[1..])
  }

  lemma {:induction false} ReverseAppend<T>(a: seq<T>, b: seq<T>)
    ensures Reverse(a + b) == Reverse(b) + Reverse(a)
  {
    if a == [] {
      assert a + b == b;
    } else {
      assert (a + b)[1..] == a[1..] + b;
      ReverseAppend(a[1..], b);
    }
  }

  /** After any number of kills the list is the newest 1000 of them and of what was there before,
      newest first. */
  lemma {:induction false} NewestKills(dead: seq<DeadEntry>, kills: seq<DeadEntry>)
    requires |dead| <= DEAD_LIMIT || kills != []
    ensures KillAll(dead, kills) == Take(Reverse(kills) + dead, DEAD_LIMIT)
    decreases |kills|
  {
    if kills == [] {
      assert Reverse(kills) + dead == dead;
    } else {
      NewestKills(PushDead(dead, kills[0]), kills[1..]);
      assert kills == [kills[0]] + kills[1..];
      assert Reverse(kills) + dead == Reverse(kills[1..]) + ([kills[0]] + dead);
    }
  }

  /** A revive claims the list, other kills go on meanwhile, and at the first failing entry the rest is
      put back behind them. Nothing is trimmed by the restore; the next kill trims, and then the list is the
      newest 1000 of all kills that were not revived, newest first. */
  lemma KillsDuringARevive(entries: seq<DeadEntry>, k: nat, during: seq<DeadEntry>, after: seq<DeadEntry>)
    requires k <= |entries| && after != []
    ensures KillAll([], during) + entries[k..] == Take(Reverse(during), DEAD_LIMIT) + entries[k..]
    ensures KillAll(KillAll([], during) + entries[k..], after)
            == Take(Reverse(during + after) + entries[k..], DEAD_LIMIT)
  {
    NewestKills([], during);
    assert Reverse(during) + [] == Reverse(during);
    NewestKills(KillAll([], during) + entries[k..], after);
    ReverseAppend(during, after);
    var a, d, e := Reverse(after), Reverse(during), entries[k..];
    assert Take(a + (Take(d, DEAD_LIMIT) + e), DEAD_LIMIT) == Take(a + d + e, DEAD_LIMIT) by {
      if |d| > DEAD_LIMIT {
        assert (a + (Take(d, DEAD_LIMIT) + e))[..DEAD_LIMIT] == (a + d + e)[..DEAD_LIMIT];
      } else {
        assert a + (d + e) == a + d + e;
      }
    }
  }

  lemma {:induction false} ReviveSnoc(s: Store, entries: seq<DeadEntry>, x: DeadEntry)
    ensures ReviveEach(s, entries + [x]) ==
            if x.Parsed? then Enqueue(ReviveEach(s, entries), x.env, ToQueue) else ReviveEach(s, entries)
    ensures ParsedOf(entries + [x]) == ParsedOf(entries) + (if x.Parsed? then [x.env] else [])
    ensures ReviveEach(s, entries).dead == s.dead
    decreases |entries|
  {
    if entries == [] {
      assert entries + [x] == [x];
      assert [x][1..] == [];
    } else {
      assert (entries + [x])[0] == entries[0] && (entries + [x])[1..] == entries[1..] + [x];
      if entries[0].Parsed? {
        EnqueueWrites(s, entries[0].env, ToQueue);
        ReviveSnoc(Enqueue(s, entries[0].env, ToQueue), entries[1..], x);
      } else {
        ReviveSnoc(s, entries[1..], x);
      }
    }
  }

  // ---- over every run ----

  predicate Clears(step: Step) {
    step.WipeDeadStep? || step.ReviveStep?
  }

  /** What the step adds to the dead list: the job as the worker holds it, or as it is stored, with the error. */
  function KillOf(m: Machine, step: Step): seq<DeadEntry>
    requires Allowed(m, step)
  {
    match step
    case FailStep(_, id, error, _, maxRetries) =>
      var e := m.memory[id];
      if e.meta.retries < maxRetries then [] else [Parsed(e.(meta := e.meta.(error := Some(error))))]
    case KillInvalidStep(_, id, error) =>
      var e := m.store.jobs[id];
      [Parsed(e.(meta := e.meta.(error := Some(error))))]
    case _ => []
  }

  lemma {:induction false} EnqueueEachLeavesDead(s: Store, es: seq<JobEnvelope>, dest: Destination)
    ensures EnqueueEach(s, es, dest).dead == s.dead
    decreases |es|
  {
    if es != [] {
      EnqueueWrites(s, es[0], dest);
      EnqueueEachLeavesDead(Enqueue(s, es[0], dest), es[1..], dest);
    }
  }

  lemma {:induction false} ResurrectEachLeavesDead(s: Store, ids: seq<JobId>)
    ensures ResurrectEach(s, ids).dead == s.dead
    decreases |ids|
  {
    if ids != [] {
      ResurrectEachLeavesDead(ResurrectOne(s, ids[0]), ids[1..]);
    }
  }

  lemma DeadAfterStep(m: Machine, step: Step)
    requires Allowed(m, step)
    ensures Apply(m, step).store.dead ==
              if Clears(step) then [] else if KillOf(m, step) == [] then m.store.dead
              else PushDead(m.store.dead, KillOf(m, step)[0])
  {
    if step.EnqueueStep? {
      EnqueueWrites(m.store, step.env, step.dest);
    } else if step.EnqueueManyStep? {
      EnqueueEachLeavesDead(m.store, step.envs, step.dest);
    } else if step.ReviveStep? {
      ReviveIsEnqueue(m.store.(dead := []), m.store.dead);
      EnqueueEachLeavesDead(m.store.(dead := []), ParsedOf(m.store.dead), ToQueue);
    } else if step.ResurrectStep? {
      ResurrectEachLeavesDead(m.store.(processing := m.store.processing - {step.pid}),
        ListAt(m.store.processing, step.pid));
    }
  }

  /** Everything that died since the dead list was last wiped or revived, newest first, nothing trimmed. */
  ghost function Deaths(m: Machine, steps: seq<Step>, before: seq<DeadEntry>): seq<DeadEntry>
    requires Inv(m) && RunAllowed(m, steps)
    decreases |steps|
  {
    if steps == [] then before
    else
      StepKeepsInv(m, steps[0]);
      Deaths(Apply(m, steps[0]), steps[1..], if Clears(steps[0]) then [] else KillOf(m, steps[0]) + before)
  }

  /** Over every run of the lifecycle, the dead list is the newest 1000 of all that died since it was last
      wiped or revived. */
  lemma {:induction false} NewestDeaths(m: Machine, steps: seq<Step>, before: seq<DeadEntry>)
    requires Inv(m) && RunAllowed(m, steps) && m.store.dead == Take(before, 1000)
    ensures Run(m, steps).store.dead == Take(Deaths(m, steps, before), 1000)
    decreases |steps|
  {
    if steps != [] {
      var m', after := Apply(m, steps[0]), if Clears(steps[0]) then [] else KillOf(m, steps[0]) + before;
      DeadAfterStep(m, steps[0]);
      StepKeepsInv(m, steps[0]);
      assert m'.store.dead == Take(after, DEAD_LIMIT) by {
        TrimmedTwice(before, KillOf(m, steps[0]));
      }
      NewestDeaths(m', steps[1..], after);
    }
  }

  lemma TrimmedTwice(before: seq<DeadEntry>, kill: seq<DeadEntry>)
    ensures kill == [] ==> kill + before == before
    ensures |kill| == 1 ==> PushDead(Take(before, DEAD_LIMIT), kill[0]) == Take(kill + before, DEAD_LIMIT)
  {
    if |kill| == 1 && |before| > DEAD_LIMIT {
      assert ([kill[0]] + before[..DEAD_LIMIT])[..DEAD_LIMIT] == (kill + before)[..DEAD_LIMIT];
    } else if |kill| == 1 {
      assert [kill[0]] == kill;
    }
  }
}
