/** ThreadPool gets its work done: without new submissions the workers come to rest, and
    then every item has been run. */
module PoolProgress {
  import opened PoolSpec
  import opened PoolTheorems

  /** Steps a worker may take before it needs an item or a wake-up. */
  function Weight(w: Worker): nat {
    match w
    case Sleeping => 0
    case Woken => 1
    case Entering => 2
    case Testing => 3
    case Running(_) => 4
    case Exited => 0
  }

  function Weights(workers: seq<Worker>): nat {
    if workers == [] then 0
    else Weights(workers[..|workers| - 1]) + Weight(workers[|workers| - 1])
  }

  /** What the destructor has still to do. */
  function Closing(p: Pool): int {
    match p.phase
    case Open => |p.workers| + |p.work| + 4
    case Joining => |p.work| + 3
    case Draining(k) => |p.work| - k + 1
    case Closed => 0
  }

  function Effort(p: Pool): int {
    Weights(p.workers) + 4 * |p.work| + Closing(p)
  }

  lemma {:induction false} WeightsUpdate(workers: seq<Worker>, i: nat, w: Worker)
    requires i < |workers|
    ensures Weights(workers[i := w]) == Weights(workers) - Weight(workers[i]) + Weight(w)
  {
    var n := |workers| - 1;
    if i == n {
      assert workers[i := w][..n] == workers[..n];
    } else {
      assert workers[i := w][..n] == workers[..n][i := w];
      WeightsUpdate(workers[..n], i, w);
    }
  }

  lemma {:induction false} WakeAllWeights(workers: seq<Worker>)
    ensures Weights(WakeAll(workers)) <= Weights(workers) + |workers|
  {
    if workers == [] {
    } else {
      var n := |workers| - 1;
      WakeAllWeights(workers[..n]);
      assert WakeAll(workers)[..n] == WakeAll(workers[..n]);
    }
  }

  predicate Inside(m: Move) { !m.Add? && !m.Spurious? }

  lemma EffortLowers(p: Pool, m: Move)
    requires Inv(p) && Enabled(p, m) && Inside(m)
    ensures Effort(Do(p, m)) < Effort(p)
  {
    hide Balanced, Number, Drained;
    if m.Test? || m.Enter? || m.Resume? || m.Finish? {
      WorkerLowers(p, m);
    } else if m.Stop? {
      WakeAllWeights(p.workers);
    }
  }

  lemma WorkerLowers(p: Pool, m: Move)
    requires Inv(p) && Enabled(p, m) && (m.Test? || m.Enter? || m.Resume? || m.Finish?)
    ensures Effort(Do(p, m)) < Effort(p)
  {
    hide Balanced, Number, Drained, Weights;
    WeightsUpdate(p.workers, m.i, Do(p, m).workers[m.i]);
  }

  lemma SomeEffort(p: Pool)
    requires Inv(p)
    ensures Effort(p) >= 0
  {
  }

  lemma {:induction false} EffortRunsOut(p: Pool, moves: seq<Move>)
    requires Inv(p) && Possible(p, moves) && forall m :: m in moves ==> Inside(m)
    ensures |moves| <= Effort(p)
    decreases |moves|
  {
    hide Inv, Do, Effort;
    if moves == [] {
      SomeEffort(p);
    } else {
      assert moves[0] in moves;
      EffortLowers(p, moves[0]);
      StepInv(p, moves[0]);
      EffortRunsOut(Do(p, moves[0]), moves[1..]);
    }
  }

  /** Without further submissions and spurious wake-ups the pool takes only so many steps:
      four for each queued item and one to four for each worker, and those of the
      destructor. */
  lemma ComesToRest(max: nat, moves: seq<Move>, more: seq<Move>)
    requires Possible(Create(max), moves) && Possible(Run(Create(max), moves), more)
    requires forall m :: m in more ==> Inside(m)
    ensures |more| <= Effort(Run(Create(max), moves))
  {
    CreateInv(max);
    RunInv(Create(max), moves);
    EffortRunsOut(Run(Create(max), moves), more);
  }

  /** No worker can take a step of its own. */
  ghost predicate AtRest(p: Pool) {
    forall i :: !Enabled(p, Test(i)) && !Enabled(p, Enter(i)) && !Enabled(p, Resume(i)) && !Enabled(p, Finish(i))
  }

  /** At rest before shutdown, a pool that may have a worker has run every item submitted,
      as often as it was submitted. */
  lemma RestMeansDone(max: nat, moves: seq<Move>, x: Item)
    requires Possible(Create(max), moves) && max > 0
    requires var p := Run(Create(max), moves); p.phase.Open? && AtRest(p)
    ensures var p := Run(Create(max), moves);
      p.work == [] && multiset(p.executed)[x] == multiset(p.submitted)[x]
  {
    CreateInv(max);
    RunInv(Create(max), moves);
    SameMax(Create(max), moves);
    var p := Run(Create(max), moves);
    ExecutedExactlyOnce(max, moves, x);
    NobodyAwake(p, x);
  }

  lemma NobodyAwake(p: Pool, x: Item)
    requires Inv(p) && p.phase.Open? && AtRest(p) && p.max > 0
    ensures p.work == [] && Number(p, Running(x)) == 0
  {
    forall i | 0 <= i < |p.workers| ensures p.workers[i].Sleeping? || p.workers[i].Exited? {
      assert !Enabled(p, Test(i)) && !Enabled(p, Enter(i)) && !Enabled(p, Resume(i)) && !Enabled(p, Finish(i));
    }
    assert Running(x) !in multiset(p.workers);
    if p.work != [] {
      AwakeExists(p);
    }
  }
}
