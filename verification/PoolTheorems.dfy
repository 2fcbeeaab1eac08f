/** What holds in every run of ThreadPool. */
module PoolTheorems {
  import opened Sequences
  import opened PoolSpec

  lemma CreateInv(max: nat)
    ensures Inv(Create(max))
  {
  }

  // ---- Main results ----

  /** Work is taken in the order it was submitted, the pool never grows past its maximum,
      and before the destructor runs no wake-up is lost: while a worker sleeps, at least as
      many woken workers are on their way as there are items, so a queued item always has a
      worker awake. */
  lemma WorkConserved(max: nat, moves: seq<Move>)
    requires Possible(Create(max), moves)
    ensures var p := Run(Create(max), moves);
      && p.submitted == p.taken + p.work
      && |p.workers| <= p.max
      && (!p.stop && Sleeping in p.workers ==> |p.work| <= Number(p, Woken))
      && (!p.stop && p.max > 0 && p.work != [] ==>
            exists i :: 0 <= i < |p.workers| && !p.workers[i].Sleeping? && !p.workers[i].Exited?)
  {
    CreateInv(max);
    RunInv(Create(max), moves);
    var p := Run(Create(max), moves);
    if !p.stop && p.max > 0 && p.work != [] {
      AwakeExists(p);
    }
  }

  /** As long as the pool may grow, right after a submission some worker is not busy with
      another item: an item never waits for one running when it came. */
  lemma AddLeavesOneFree(max: nat, moves: seq<Move>, x: Item, j: nat)
    requires Possible(Create(max), moves)
    requires var p := Run(Create(max), moves); Enabled(p, Add(x, j)) && |p.workers| < max
    ensures var q := Do(Run(Create(max), moves), Add(x, j));
      exists i :: 0 <= i < |q.workers| && !q.workers[i].Running? && !q.workers[i].Exited?
  {
    CreateInv(max);
    RunInv(Create(max), moves);
    SameMax(Create(max), moves);
    OneFree(Run(Create(max), moves), x, j);
  }

  lemma OneFree(p: Pool, x: Item, j: nat)
    requires Inv(p) && Enabled(p, Add(x, j)) && |p.workers| < p.max
    ensures var q := Do(p, Add(x, j));
      exists i :: 0 <= i < |q.workers| && !q.workers[i].Running? && !q.workers[i].Exited?
  {
    var q := Do(p, Add(x, j));
    if Grows(p) {
      assert q.workers[|p.workers|].Testing?;
    } else {
      var w := if Number(p, Sleeping) > 0 then Sleeping else Woken;
      assert w in multiset(p.workers);
      var i :| 0 <= i < |p.workers| && p.workers[i] == w;
      assert !q.workers[i].Running? && !q.workers[i].Exited?;
    }
  }

  lemma {:induction false} SameMax(p: Pool, moves: seq<Move>)
    requires Possible(p, moves)
    ensures Run(p, moves).max == p.max
    decreases |moves|
  {
    if moves == [] {
    } else {
      SameMax(Do(p, moves[0]), moves[1..]);
    }
  }

  lemma AwakeExists(p: Pool)
    requires Inv(p) && !p.stop && p.max > 0 && p.work != []
    ensures exists i :: 0 <= i < |p.workers| && !p.workers[i].Sleeping? && !p.workers[i].Exited?
  {
    if p.workers[0].Sleeping? {
      assert Sleeping in multiset(p.workers);
      assert Woken in multiset(p.workers);
      var i :| 0 <= i < |p.workers| && p.workers[i] == Woken;
    } else {
      assert Exited !in multiset(p.workers);
      assert p.workers[0] in multiset(p.workers);
    }
  }

  /** Every submitted item is at any time queued, being run, or already run, once for each
      time it was submitted; when the destructor has finished all have been run. */
  lemma ExecutedExactlyOnce(max: nat, moves: seq<Move>, x: Item)
    requires Possible(Create(max), moves)
    ensures var p := Run(Create(max), moves);
      && (p.phase.Open? || p.phase.Joining? ==>
            multiset(p.submitted)[x] == multiset(p.work)[x] + Number(p, Running(x)) + multiset(p.executed)[x])
      && (p.phase.Draining? ==>
            p.phase.k <= |p.work|
            && multiset(p.submitted)[x] == multiset(p.work[p.phase.k..])[x] + multiset(p.executed)[x])
      && (p.phase.Closed? ==> multiset(p.executed)[x] == multiset(p.submitted)[x])
  {
    hide Inv, Run, Possible, Create;
    CreateInv(max);
    RunInv(Create(max), moves);
    ItemsAccounted(Run(Create(max), moves), x);
  }

  lemma ItemsAccounted(p: Pool, x: Item)
    requires Inv(p)
    ensures p.phase.Open? || p.phase.Joining? ==>
      multiset(p.submitted)[x] == multiset(p.work)[x] + Number(p, Running(x)) + multiset(p.executed)[x]
    ensures p.phase.Draining? ==>
      p.phase.k <= |p.work|
      && multiset(p.submitted)[x] == multiset(p.work[p.phase.k..])[x] + multiset(p.executed)[x]
    ensures p.phase.Closed? ==> multiset(p.executed)[x] == multiset(p.submitted)[x]
  {
    ConcatCount(p.taken, p.work, x);
    if p.phase.Draining? || p.phase.Closed? {
      assert Running(x) !in multiset(p.workers);
    }
    if p.phase.Draining? {
      ConcatCount(p.work[..p.phase.k], p.work[p.phase.k..], x);
      assert p.work == p.work[..p.phase.k] + p.work[p.phase.k..];
    }
  }

  // ---- Shutdown ----

  /** Once the destructor has run WakeAll, a worker that falls asleep is never woken by
      anybody: only a spurious wake-up helps, and until then the join cannot finish. */
  lemma SleepsThroughShutdown(p: Pool, m: Move, i: nat)
    requires Inv(p) && p.stop && i < |p.workers| && p.workers[i].Sleeping?
    requires Enabled(p, m) && m != Spurious(i)
    ensures !m.Join?
    ensures var q := Do(p, m); q.stop && i < |q.workers| && q.workers[i].Sleeping?
  {
  }

  /** Some run from `q` on puts a worker to sleep. */
  ghost predicate MaySleep(q: Pool) {
    exists moves :: Possible(q, moves) && Sleeping in Run(q, moves).workers
  }

  /** Every worker past its test of mStop will find an item. */
  ghost predicate Supplied(p: Pool) {
    p.stop && Number(p, Sleeping) == 0 && Number(p, Entering) <= |p.work|
  }

  lemma StaysSupplied(p: Pool, m: Move)
    requires Inv(p) && Supplied(p) && Enabled(p, m)
    ensures Supplied(Do(p, m))
  {
    if m.Test? || m.Spurious? || m.Finish? {
      MoveSupplied(p, m);
    } else if m.Enter? || m.Resume? {
      LookSupplied(p, m);
    }
  }

  lemma MoveSupplied(p: Pool, m: Move)
    requires Inv(p) && Supplied(p) && Enabled(p, m) && (m.Test? || m.Spurious? || m.Finish?)
    ensures Supplied(Do(p, m))
  {
    SetMoves(p, Do(p, m), m.i);
  }

  lemma LookSupplied(p: Pool, m: Move)
    requires Inv(p) && Supplied(p) && Enabled(p, m) && (m.Enter? || m.Resume?)
    ensures Supplied(Do(p, m))
  {
    SetMoves(p, Do(p, m), m.i);
  }

  lemma {:induction false} SuppliedRun(p: Pool, moves: seq<Move>)
    requires Inv(p) && Supplied(p) && Possible(p, moves)
    ensures Sleeping !in Run(p, moves).workers
    decreases |moves|
  {
    if moves == [] {
      assert Sleeping !in multiset(p.workers);
    } else {
      StaysSupplied(p, moves[0]);
      StepInv(p, moves[0]);
      SuppliedRun(Do(p, moves[0]), moves[1..]);
    }
  }

  /** Workers that passed the test before mStop was set use up the queue, and one more
      goes to sleep. */
  lemma {:induction false} PutToSleep(p: Pool) returns (moves: seq<Move>)
    requires Inv(p) && p.phase.Joining? && Number(p, Entering) > |p.work|
    ensures Possible(p, moves) && Sleeping in Run(p, moves).workers
    decreases |p.work|
  {
    assert Entering in multiset(p.workers);
    var i :| 0 <= i < |p.workers| && p.workers[i] == Entering;
    var m := Enter(i);
    var q := Do(p, m);
    SetMoves(p, q, i);
    StepInv(p, m);
    if p.work == [] {
      moves := [m];
      assert q.workers[i] == Sleeping;
      assert Run(p, moves) == q;
    } else {
      var rest := PutToSleep(q);
      moves := [m] + rest;
      assert moves[1..] == rest;
    }
  }

  /** The destructor can hang exactly when, at the moment it sets mStop, more workers have
      passed their test of mStop without holding the lock yet than items are queued. */
  lemma ShutdownHangsIff(max: nat, before: seq<Move>)
    requires Possible(Create(max), before) && Run(Create(max), before).phase.Open?
    ensures var p := Run(Create(max), before);
      MaySleep(Do(p, Stop)) <==> Number(p, Entering) > |p.work|
  {
    CreateInv(max);
    RunInv(Create(max), before);
    var p := Run(Create(max), before);
    var q := Do(p, Stop);
    StepInv(p, Stop);
    WakeAllCounts(p.workers, Entering);
    WakeAllCounts(p.workers, Sleeping);
    if Number(p, Entering) > |p.work| {
      var moves := PutToSleep(q);
    } else {
      assert Supplied(q);
      forall moves | Possible(q, moves) ensures Sleeping !in Run(q, moves).workers {
        SuppliedRun(q, moves);
      }
    }
  }

  /** And that moment is reachable: one item, one worker that has run it and come back. */
  lemma ShutdownCanHang() returns (before: seq<Move>)
    ensures Possible(Create(1), before) && Run(Create(1), before).phase.Open?
    ensures MaySleep(Do(Run(Create(1), before), Stop))
  {
    var p1 := Do(Create(1), Add(7, 0));
    var p2 := Do(p1, Test(0));
    var p3 := Do(p2, Enter(0));
    assert p3.workers == [Running(7)];
    var p4 := Do(p3, Finish(0));
    assert p4.workers == [Testing];
    var p5 := Do(p4, Test(0));
    assert p5.workers == [Entering] && p5.work == [];
    before := [Add(7, 0), Test(0), Enter(0), Finish(0), Test(0)];
    Unfold(Create(1), before);
    Unfold(p1, before[1..]);
    Unfold(p2, before[2..]);
    Unfold(p3, before[3..]);
    Unfold(p4, before[4..]);
    ShutdownHangsIff(1, before);
  }

  lemma Unfold(p: Pool, moves: seq<Move>)
    requires moves != []
    ensures Possible(p, moves) <==> Enabled(p, moves[0]) && Possible(Do(p, moves[0]), moves[1..])
    ensures Possible(p, moves) ==> Run(p, moves) == Run(Do(p, moves[0]), moves[1..])
  {
  }
}
