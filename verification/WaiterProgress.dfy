/** A call of Event, Mutex or Semaphore that runs alone returns, unless another thread left
    the lock bit set or it is a Set or Post that has read the lock bit; those never do. */
module WaiterProgress {
  import opened Sequences
  import opened Chains
  import opened WaiterSpec
  import opened WaiterProtocol
  import opened WaiterInvariant
  import opened WaiterRefinement
  import opened WaiterTheorems
  import opened WaiterRuns

  /** A Set or Post that read the lock bit. */
  predicate Spins(pc: Pc) { pc.SetSpin? || pc.PostSpin? }

  function AddLeft(sh: Shared, pc: Pc): nat {
    match pc
    case AddLower(_) => 5
    case AddLoad(_) => 4
    case AddTake(_) => if sh.word == FREE then 2 else 4
    case AddLink(_, head) => if sh.word == head then 3 else 5
    case AddCas(_, head) => if sh.word == head then 2 else 4
    case _ => 0
  }

  function RemoveLeft(sh: Shared, pc: Pc): int {
    var all := 3 * |sh.list|;
    match pc
    case RmLoad(_) => all + 6
    case RmRead(_, head, _) => if sh.word == head then 3 else all + 7
    case RmPop(_, head, _, _) => if sh.word == head then 2 else all + 6
    case RmLock(_, head) => if sh.word == head then all + 5 else all + 6
    case RmUnlock(_, _) => 2
    case _ => ScanRank(sh.list, pc) + 2
  }

  function LockLeft(sh: Shared, pc: Pc): nat {
    match pc
    case LockTry(spin) => if sh.word == FREE then 2 else spin + 2
    case LockSpin(spin) => if sh.word == FREE then 3 else spin + 2
    case _ => 0
  }

  function PopLeft(sh: Shared, pc: Pc): nat {
    match pc
    case UnlockFast => 6
    case UnlockLoad => 5
    case UnlockFree(head) => if sh.word == head then 2 else 5
    case PostCount => 6
    case PostLoad => 5
    case PopRead(head, _) => if sh.word == head then 4 else 6
    case PopCas(head, _, _) => if sh.word == head then 3 else 5
    case NotifyOne(_) => 2
    case _ => 0
  }

  function SetLeft(sh: Shared, pc: Pc): nat {
    var all := 2 * |sh.list|;
    match pc
    case SetLoad => all + 5
    case SetFlagCas(head) => if sh.word == head then 2 else all + 5
    case SetDetach(head) => if sh.word == head then all + 4 else all + 5
    case ChainRead(rest, _) => 2 * |rest| + 3
    case ChainNotify(rest, _, _) => 2 * |rest| + 2
    case SetUnlock => 2
    case _ => 0
  }

  /** Steps a call has left while nobody else moves: a CAS on a word that has changed fails
      once. */
  function StepsLeft(sh: Shared, pc: Pc): int {
    if pc.Idle? || pc.AssertFailed? then 0
    else if pc.Ret? then 1
    else if pc.ResetAnd? then 2
    else if Removing(pc) then RemoveLeft(sh, pc)
    else if pc.LockTry? || pc.LockSpin? then LockLeft(sh, pc)
    else if pc.AddLower? || pc.AddLoad? || pc.AddTake? || pc.AddLink? || pc.AddCas? then AddLeft(sh, pc)
    else if pc.SetLoad? || pc.SetFlagCas? || pc.SetDetach? || pc.ChainRead? || pc.ChainNotify? || pc.SetUnlock?
    then SetLeft(sh, pc)
    else PopLeft(sh, pc)
  }

  /** Nobody else has the lock bit, and the call has not read it. */
  ghost predicate Unhindered(sh: Shared, pc: Pc) {
    !Spins(pc) && (sh.word.lock ==> HoldsLock(pc))
  }

  ghost predicate Lowers(p: Params, sh: Shared, t: Tid, pc: Pc)
    requires p.tags > 0 && !pc.Idle?
  {
    var o := StepRunning(p, sh, t, pc);
    var sh' := ApplyEffect(p, sh, t, o.eff);
    0 <= StepsLeft(sh', o.pc) < StepsLeft(sh, pc) && Unhindered(sh', o.pc)
  }

  lemma AddLowers(p: Params, sh: Shared, t: Tid, pc: Pc)
    requires p.tags > 0 && SharedOk(p, sh) && ThreadOk(p, sh, t, pc) && Unhindered(sh, pc)
    requires pc.AddLower? || pc.AddLoad? || pc.AddTake? || pc.AddLink? || pc.AddCas?
    ensures Lowers(p, sh, t, pc)
  {
    hide Linked, Distinct, Snapshot, Reached, ChainOk;
  }

  lemma RemoveLowers(p: Params, sh: Shared, t: Tid, pc: Pc)
    requires p.tags > 0 && SharedOk(p, sh) && ThreadOk(p, sh, t, pc) && Unhindered(sh, pc)
    requires Removing(pc) && !Scanning(pc)
    ensures Lowers(p, sh, t, pc)
  {
    hide Linked, Distinct, Snapshot, Reached, ChainOk;
  }

  lemma ScanLowers(p: Params, sh: Shared, t: Tid, pc: Pc)
    requires p.tags > 0 && SharedOk(p, sh) && ThreadOk(p, sh, t, pc) && Unhindered(sh, pc) && Scanning(pc)
    ensures Lowers(p, sh, t, pc)
  {
    ScanStepRank(p, sh, t, pc);
    ScanStaysLocked(p, sh, t, pc);
    ScanCounts(p, sh, t, pc);
    hide ScanRank, SharedOk, ThreadOk, Unhindered, HoldsLock, StepRunning, StepsLeft;
  }

  /** A step of the scan leads to another or to RmUnlock. */
  lemma ScanCounts(p: Params, sh: Shared, t: Tid, pc: Pc)
    requires p.tags > 0 && Scanning(pc) && RemoveTarget(pc) != NULL
    ensures StepsLeft(sh, pc) == ScanRank(sh.list, pc) + 2 && StepRunning(p, sh, t, pc) == StepRemove(sh, t, pc)
    ensures var o := StepRunning(p, sh, t, pc);
      StepsLeft(ApplyEffect(p, sh, t, o.eff), o.pc) == ScanRank(sh.list, o.pc) + 2
  {
  }

  lemma ScanStaysLocked(p: Params, sh: Shared, t: Tid, pc: Pc)
    requires p.tags > 0 && ThreadOk(p, sh, t, pc) && Scanning(pc)
    ensures var o := StepRunning(p, sh, t, pc); Unhindered(ApplyEffect(p, sh, t, o.eff), o.pc)
  {
    hide Linked, Distinct, Snapshot, Reached, ChainOk;
  }

  lemma LockLowers(p: Params, sh: Shared, t: Tid, pc: Pc)
    requires p.tags > 0 && SharedOk(p, sh) && ThreadOk(p, sh, t, pc) && Unhindered(sh, pc)
    requires pc.LockTry? || pc.LockSpin?
    ensures Lowers(p, sh, t, pc)
  {
    hide Linked, Distinct, Snapshot, Reached, ChainOk;
  }

  lemma PopLowers(p: Params, sh: Shared, t: Tid, pc: Pc)
    requires p.tags > 0 && SharedOk(p, sh) && ThreadOk(p, sh, t, pc) && Unhindered(sh, pc)
    requires pc.UnlockFast? || pc.UnlockLoad? || pc.UnlockFree? || pc.PostCount? || pc.PostLoad?
          || pc.PopRead? || pc.PopCas? || pc.NotifyOne?
    ensures Lowers(p, sh, t, pc)
  {
    if pc.PopRead? || pc.PopCas? || pc.NotifyOne? {
      TakeLowers(p, sh, t, pc);
    } else {
      LookLowers(p, sh, t, pc);
    }
  }

  lemma TakeLowers(p: Params, sh: Shared, t: Tid, pc: Pc)
    requires p.tags > 0 && SharedOk(p, sh) && ThreadOk(p, sh, t, pc) && Unhindered(sh, pc)
    requires pc.PopRead? || pc.PopCas? || pc.NotifyOne?
    ensures Lowers(p, sh, t, pc)
  {
    hide Linked, Distinct, Snapshot, Reached, ChainOk;
  }

  lemma LookLowers(p: Params, sh: Shared, t: Tid, pc: Pc)
    requires p.tags > 0 && SharedOk(p, sh) && ThreadOk(p, sh, t, pc) && Unhindered(sh, pc)
    requires pc.UnlockFast? || pc.UnlockLoad? || pc.UnlockFree? || pc.PostCount? || pc.PostLoad?
    ensures Lowers(p, sh, t, pc)
  {
    if pc.PostCount? || pc.PostLoad? {
      PostLowers(p, sh, t, pc);
    } else {
      UnlockLowers(p, sh, t, pc);
    }
  }

  lemma PostLowers(p: Params, sh: Shared, t: Tid, pc: Pc)
    requires p.tags > 0 && SharedOk(p, sh) && ThreadOk(p, sh, t, pc) && Unhindered(sh, pc)
    requires pc.PostCount? || pc.PostLoad?
    ensures Lowers(p, sh, t, pc)
  {
    hide Linked, Distinct, Snapshot, Reached, ChainOk;
  }

  lemma UnlockLowers(p: Params, sh: Shared, t: Tid, pc: Pc)
    requires p.tags > 0 && SharedOk(p, sh) && ThreadOk(p, sh, t, pc) && Unhindered(sh, pc)
    requires pc.UnlockFast? || pc.UnlockLoad? || pc.UnlockFree?
    ensures Lowers(p, sh, t, pc)
  {
    hide Linked, Distinct, Snapshot, Reached, ChainOk;
  }

  lemma SetLowers(p: Params, sh: Shared, t: Tid, pc: Pc)
    requires p.tags > 0 && SharedOk(p, sh) && ThreadOk(p, sh, t, pc) && Unhindered(sh, pc)
    requires pc.SetLoad? || pc.SetFlagCas? || pc.SetDetach? || pc.ChainRead? || pc.ChainNotify? || pc.SetUnlock?
    ensures Lowers(p, sh, t, pc)
  {
    if pc.ChainRead? || pc.ChainNotify? || pc.SetUnlock? {
      ChainLowers(p, sh, t, pc);
    } else {
      RaiseLowers(p, sh, t, pc);
    }
  }

  lemma RaiseLowers(p: Params, sh: Shared, t: Tid, pc: Pc)
    requires p.tags > 0 && SharedOk(p, sh) && ThreadOk(p, sh, t, pc) && Unhindered(sh, pc)
    requires pc.SetLoad? || pc.SetFlagCas? || pc.SetDetach?
    ensures Lowers(p, sh, t, pc)
  {
    hide Linked, Distinct, Snapshot, Reached, ChainOk;
  }

  lemma ChainLowers(p: Params, sh: Shared, t: Tid, pc: Pc)
    requires p.tags > 0 && SharedOk(p, sh) && ThreadOk(p, sh, t, pc) && Unhindered(sh, pc)
    requires pc.ChainRead? || pc.ChainNotify? || pc.SetUnlock?
    ensures Lowers(p, sh, t, pc)
  {
    hide Distinct, Snapshot, Reached, SharedOk;
  }

  lemma StepLowers(p: Params, sh: Shared, t: Tid, pc: Pc)
    requires p.tags > 0 && SharedOk(p, sh) && ThreadOk(p, sh, t, pc) && Unhindered(sh, pc) && !pc.Idle?
    ensures Lowers(p, sh, t, pc)
  {
    if Scanning(pc) {
      ScanLowers(p, sh, t, pc);
    } else if Removing(pc) {
      RemoveLowers(p, sh, t, pc);
    } else if pc.LockTry? || pc.LockSpin? {
      LockLowers(p, sh, t, pc);
    } else if pc.AddLower? || pc.AddLoad? || pc.AddTake? || pc.AddLink? || pc.AddCas? {
      AddLowers(p, sh, t, pc);
    } else if pc.SetLoad? || pc.SetFlagCas? || pc.SetDetach? || pc.ChainRead? || pc.ChainNotify? || pc.SetUnlock? {
      SetLowers(p, sh, t, pc);
    } else if pc.Ret? || pc.ResetAnd? {
      EndLowers(p, sh, t, pc);
    } else {
      PopLowers(p, sh, t, pc);
    }
  }

  lemma EndLowers(p: Params, sh: Shared, t: Tid, pc: Pc)
    requires p.tags > 0 && Unhindered(sh, pc) && (pc.Ret? || pc.ResetAnd?)
    ensures Lowers(p, sh, t, pc)
  {
  }

  /** Moves of thread `t` inside its call, nobody else's. */
  predicate Alone(moves: seq<Move>, t: Tid) {
    forall m :: m in moves ==> m == Move(t, Advance)
  }

  lemma AloneStep(p: Params, a0: Abs, s: State, t: Tid)
    requires Inv(p, a0, s) && Unhindered(s.sh, PcOf(s, t)) && !PcOf(s, t).Idle?
    ensures p.tags > 0
    ensures var s' := Do(p, s, t, Advance);
      Unhindered(s'.sh, PcOf(s', t)) && 0 <= StepsLeft(s'.sh, PcOf(s', t)) < StepsLeft(s.sh, PcOf(s, t))
  {
    assert ThreadOk(p, s.sh, t, PcOf(s, t));
    StepLowers(p, s.sh, t, PcOf(s, t));
    hide SharedOk, ThreadOk, StepsLeft, Unhindered, StepRunning, Describes, Tracks, LegalHistory;
  }

  lemma {:induction false} AloneSteps(p: Params, a0: Abs, s: State, moves: seq<Move>, t: Tid)
    requires Inv(p, a0, s) && Possible(p, s, moves) && Alone(moves, t) && Unhindered(s.sh, PcOf(s, t))
    ensures moves == [] || |moves| <= StepsLeft(s.sh, PcOf(s, t))
    decreases |moves|
  {
    hide Inv, Do, StepsLeft, Unhindered, InWindow;
    if moves == [] {
    } else {
      assert moves[0] in moves && forall m :: m in moves[1..] ==> m in moves;
      AloneStep(p, a0, s, t);
      StepInv(p, a0, s, t, Advance);
      AloneSteps(p, a0, Do(p, s, t, Advance), moves[1..], t);
    }
  }

  function SpinsLeft(pc: Pc): nat {
    match pc case LockTry(spin) => spin case LockSpin(spin) => spin case _ => 0
  }

  lemma {:induction false} FromShort(list: seq<Node>, x: Node)
    ensures |From(list, x)| <= |list|
  {
    if list == [] {
    } else {
      FromShort(list[1..], x);
    }
  }

  lemma StepsBounded(sh: Shared, pc: Pc)
    ensures StepsLeft(sh, pc) <= 3 * |sh.list| + 2 * |RestOf(pc)| + SpinsLeft(pc) + 7
  {
    if Scanning(pc) {
      FromShort(sh.list, pc.cur);
    }
  }

  // ---- Main results ----

  /** While nobody else has the lock bit, a call that has not read it and now runs alone is
      over after boundedly many steps, whatever the others left behind: three for each
      waiter in the list, two for each callback it still owes, its spins, and seven. */
  lemma ReturnsAlone(p: Params, isSet: bool, count: nat, moves: seq<Move>, alone: seq<Move>, t: Tid)
    requires p.tags > 0 && Possible(p, Initial(p, isSet, count), moves)
    requires var s := Reach(p, isSet, count, moves);
      Possible(p, s, alone) && Alone(alone, t) && Unhindered(s.sh, PcOf(s, t))
    ensures var s := Reach(p, isSet, count, moves); var pc := PcOf(s, t);
      |alone| <= 3 * |s.sh.list| + 2 * |RestOf(pc)| + SpinsLeft(pc) + 7
  {
    hide Inv, StepsLeft, Unhindered;
    Invariant(p, isSet, count, moves);
    var s := Reach(p, isSet, count, moves);
    AloneSteps(p, Start(p.kind, isSet, count), s, alone, t);
    StepsBounded(s.sh, PcOf(s, t));
  }

  /** A Set or Post that has read the lock bit never returns, whatever others do: its loop
      does not look at the word again. */
  lemma {:induction false} SpinsForEver(p: Params, s: State, moves: seq<Move>, t: Tid)
    requires p.tags > 0 && Possible(p, s, moves) && Spins(PcOf(s, t))
    ensures PcOf(Run(p, s, moves), t) == PcOf(s, t)
    decreases |moves|
  {
    hide ApplyEffect;
    if moves == [] {
    } else {
      KeepsSpinning(p, s, moves[0], t);
      SpinsForEver(p, Do(p, s, moves[0].t, moves[0].c), moves[1..], t);
    }
  }

  lemma KeepsSpinning(p: Params, s: State, m: Move, t: Tid)
    requires p.tags > 0 && Enabled(p, s, m.t, m.c) && Spins(PcOf(s, t))
    ensures PcOf(Do(p, s, m.t, m.c), t) == PcOf(s, t)
  {
    hide ApplyEffect;
  }

  /** Alone, the call of `t` is over after at most so many steps. */
  ghost predicate Ends(p: Params, s: State, t: Tid)
    requires p.tags > 0
  {
    exists bound: nat :: EndsIn(p, s, t, bound)
  }

  ghost predicate EndsIn(p: Params, s: State, t: Tid, bound: nat)
    requires p.tags > 0
  {
    forall alone :: Possible(p, s, alone) && Alone(alone, t) ==> |alone| <= bound
  }

  lemma {:induction false} SpinOn(p: Params, s: State, t: Tid, n: nat) returns (alone: seq<Move>)
    requires p.tags > 0 && Spins(PcOf(s, t))
    ensures Possible(p, s, alone) && Alone(alone, t) && |alone| == n
    decreases n
  {
    if n == 0 {
      alone := [];
    } else {
      assert Enabled(p, s, t, Advance);
      KeepsSpinning(p, s, Move(t, Advance), t);
      var rest := SpinOn(p, Do(p, s, t, Advance), t, n - 1);
      alone := [Move(t, Advance)] + rest;
      assert alone[1..] == rest;
    }
  }

  /** With nobody else holding the lock bit, a call left alone returns if and only if it is
      not a Set or Post that has read the lock bit. */
  lemma ReturnsAloneIff(p: Params, isSet: bool, count: nat, moves: seq<Move>, t: Tid)
    requires p.tags > 0 && Possible(p, Initial(p, isSet, count), moves)
    requires var s := Reach(p, isSet, count, moves); s.sh.word.lock ==> HoldsLock(PcOf(s, t))
    ensures var s := Reach(p, isSet, count, moves); Ends(p, s, t) <==> !Spins(PcOf(s, t))
  {
    var s := Reach(p, isSet, count, moves);
    if Spins(PcOf(s, t)) {
      forall bound: nat ensures !EndsIn(p, s, t, bound) {
        var alone := SpinOn(p, s, t, bound + 1);
      }
    } else {
      var pc := PcOf(s, t);
      forall alone | Possible(p, s, alone) && Alone(alone, t)
        ensures |alone| <= 3 * |s.sh.list| + 2 * |RestOf(pc)| + SpinsLeft(pc) + 7
      {
        ReturnsAlone(p, isSet, count, moves, alone, t);
      }
      assert EndsIn(p, s, t, 3 * |s.sh.list| + 2 * |RestOf(pc)| + SpinsLeft(pc) + 7);
    }
  }
}
