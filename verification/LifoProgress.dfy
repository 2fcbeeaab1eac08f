/** A call on the LIFO lists, the queue or the allocator that runs alone returns. */
module LifoProgress {
  import opened Chains
  import opened LifoSpec
  import opened LifoLists
  import opened LifoTheorems

  /** Steps left after a successful pop, or after one that found the list empty. */
  function AfterPop(g: Goal): nat {
    match g
    case PutValue(_) => 7
    case TakeValue => 5
    case Allocate => 2
    case _ => 1
  }

  /** Steps a call has left while nobody else moves: a CAS on a root that has changed fails
      once. */
  function StepsLeft(sh: Shared, t: Tid, pc: Pc): nat {
    match pc
    case Idle => 0
    case Ret(_, _) => 1
    case PushLoad(_, _, _) => 4
    case PushLink(l, _, root, _) => if RootOf(sh, l) == root then 3 else 5
    case PushCas(l, _, root, _) => if RootOf(sh, l) == root then 2 else 4
    case PopLoad(_, g) => AfterPop(g) + 3
    case PopRead(l, root, _, g) => AfterPop(g) + if RootOf(sh, l) == root then 2 else 4
    case PopCas(l, root, _, _, g) => AfterPop(g) + if RootOf(sh, l) == root then 1 else 3
    case NewNode(_) => 7
    case Malloc => 2
    case Construct(_, _) => 6
    case ClearNext(_, _) => 5
    case MoveOut(_, _) => 5
    case AllocLocal => 6
    case FreeLocal(_) => 2
  }

  lemma StepLowers(tags: nat, s: State, t: Tid, addr: Node)
    requires tags > 0 && !PcOf(s, t).Idle?
    ensures var s' := Do(tags, s, t, Advance(addr));
      StepsLeft(s'.sh, t, PcOf(s', t)) < StepsLeft(s.sh, t, PcOf(s, t))
  {
  }

  /** Moves of thread `t` inside its call, nobody else's. */
  predicate Alone(moves: seq<Move>, t: Tid) {
    forall m :: m in moves ==> m.t == t && m.c.Advance?
  }

  lemma {:induction false} AloneSteps(tags: nat, w: nat, s: State, moves: seq<Move>, t: Tid)
    requires tags > 0 && Possible(tags, w, s, moves)
    requires Alone(moves, t)
    ensures |moves| <= StepsLeft(s.sh, t, PcOf(s, t))
    decreases |moves|
  {
    hide Do, StepsLeft, InWindow, PcOf;
    if moves == [] {
    } else {
      assert moves[0] in moves;
      StepLowers(tags, s, t, moves[0].c.addr);
      AloneSteps(tags, w, Do(tags, s, t, moves[0].c), moves[1..], t);
    }
  }

  /** From whatever state other threads left it in, a call that now runs alone is over after
      at most eleven steps. */
  lemma ReturnsAlone(tags: nat, moves: seq<Move>, alone: seq<Move>, t: Tid)
    requires tags > 0 && Possible(tags, tags, INITIAL, moves)
    requires Possible(tags, tags, Reach(tags, moves), alone) && Alone(alone, t)
    ensures |alone| <= 11
  {
    var s := Reach(tags, moves);
    AloneSteps(tags, tags, s, alone, t);
    AtMostEleven(s.sh, t, PcOf(s, t));
  }

  lemma AtMostEleven(sh: Shared, t: Tid, pc: Pc)
    ensures StepsLeft(sh, t, pc) <= 11
  {
  }
}
