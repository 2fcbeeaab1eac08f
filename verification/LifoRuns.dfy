/** What the properties of calls and values say about every run on the lists. */
module LifoRuns {
  import opened Chains
  import opened Logs
  import opened Rosters
  import opened LifoSpec
  import opened LifoLists
  import opened LifoProofs
  import opened LifoTheorems
  import opened LifoOutcomes
  import opened LifoLaws

  /** The call a command begins. */
  function CallOf(m: Move): seq<Action> {
    match m.c
    case CallPush(l, n) => [Called(m.t, PushOp(l, n))]
    case CallPop(l) => [Called(m.t, PopOp(l))]
    case CallPut(v) => [Called(m.t, PutOp(v))]
    case CallTake => [Called(m.t, TakeOp)]
    case CallAllocate => [Called(m.t, AllocOp)]
    case CallFree(n) => [Called(m.t, FreeOp(n))]
    case _ => []
  }

  function CallsMade(moves: seq<Move>): seq<Action> {
    if moves == [] then [] else CallOf(moves[0]) + CallsMade(moves[1..])
  }

  function CallsIn(log: seq<Action>): seq<Action> {
    Kept(log, (x: Action) => x.Called?)
  }

  lemma OneAction(sh: Shared, t: Tid, pc: Pc, c: Command)
    requires c.Advance? ==> !pc.Idle?
    ensures var acts := Decide(sh, t, pc, c).acts;
      |acts| <= 1 && CallOf(Move(t, c)) == if acts != [] && acts[0].Called? then acts else []
  {
  }

  lemma CallLogged(tags: nat, s: State, m: Move)
    requires tags > 0 && Enabled(tags, s, m.t, m.c)
    ensures CallsIn(Do(tags, s, m.t, m.c).log) == CallsIn(s.log) + CallOf(m)
  {
    var acts := Decide(s.sh, m.t, PcOf(s, m.t), m.c).acts;
    OneAction(s.sh, m.t, PcOf(s, m.t), m.c);
    if acts == [] {
      assert s.log + acts == s.log;
    } else {
      assert (s.log + acts)[..|s.log|] == s.log;
    }
  }

  lemma EnabledRuns(tags: nat, s: State, m: Move)
    requires Enabled(tags, s, m.t, m.c)
    ensures m.c.Advance? ==> !PcOf(s, m.t).Idle?
  {
  }

  lemma {:induction false} CallsLogged(tags: nat, s: State, moves: seq<Move>)
    requires tags > 0 && Possible(tags, tags, s, moves)
    ensures CallsIn(Run(tags, tags, s, moves).log) == CallsIn(s.log) + CallsMade(moves)
    decreases |moves|
  {
    hide Enabled, Do, CallsIn, CallOf;
    if moves == [] {
      assert CallsIn(s.log) + [] == CallsIn(s.log);
    } else {
      var m := moves[0];
      EnabledRuns(tags, s, m);
      CallLogged(tags, s, m);
      CallsLogged(tags, Do(tags, s, m.t, m.c), moves[1..]);
      assert (CallsIn(s.log) + CallOf(m)) + CallsMade(moves[1..])
          == CallsIn(s.log) + (CallOf(m) + CallsMade(moves[1..]));
    }
  }

  // ---- Main results ----

  /** In every run the log holds exactly the calls the threads made, in order; a thread is
      idle exactly when all its calls have returned; and every call that returned took
      effect in between, once, as Achieves says for its result: Pop returns the abstract
      top, or nothing when the list is empty. */
  lemma CallsTakeEffect(tags: nat, moves: seq<Move>, i: nat, j: nat, t: Tid)
    requires tags > 0 && Possible(tags, tags, INITIAL, moves)
    ensures var log := Reach(tags, moves).log;
      && CallsIn(log) == CallsMade(moves)
      && (PcOf(Reach(tags, moves), t).Idle? <==> Calls(log, t) == Returns(log, t))
      && (i < j < |log| && log[i].Called? && log[j].Returned? && log[i].t == log[j].t == t
          && (forall n :: i < n < j && log[n].t == t ==> Inner(log[n])) ==>
            log[j].op == log[i].op && Achieves(log[i].op, t, Acts(log, i + 1, j, t), log[j].result))
  {
    CallsLogged(tags, INITIAL, moves);
    assert CallsIn([]) + CallsMade(moves) == CallsMade(moves);
    IdleIffReturned(tags, moves, t);
    var log := Reach(tags, moves).log;
    Linearizable(tags, moves, 0);
    if i < j < |log| && log[i].Called? && log[j].Returned? && log[i].t == log[j].t == t
      && forall n :: i < n < j && log[n].t == t ==> Inner(log[n])
    {
      OneEffectPerCall(log, i, j);
    }
  }

  lemma IdleIffReturned(tags: nat, moves: seq<Move>, t: Tid)
    requires tags > 0 && Possible(tags, tags, INITIAL, moves)
    ensures var s := Reach(tags, moves); PcOf(s, t).Idle? <==> Calls(s.log, t) == Returns(s.log, t)
  {
    Invariant(tags, moves);
    var s := Reach(tags, moves);
    CallsReturn(s.log, t);
    assert Tracks(Replay(s.log), t, PcOf(s, t));
  }

  /** The values in the storage of the nodes of `list`. */
  function SlotValues(sh: Shared, list: seq<Node>): seq<Value> {
    seq(|list|, i requires 0 <= i < |list| => Stored(sh, list[i]))
  }

  /** In every run each value passed to the queue's Push was delivered by a TryPop, or is
      stored in the chain from mQueueNodes, or is with a Push or TryPop still running, and
      in exactly one of these ways for each time it was passed. */
  lemma QueueConserves(tags: nat, moves: seq<Move>, v: Value)
    requires tags > 0 && Possible(tags, tags, INITIAL, moves)
    ensures var s := Reach(tags, moves); var chain := StackOf(Replay(s.log), VALUES);
      && RootOf(s.sh, VALUES).ptr == HeadOf(chain) && Linked(s.sh.next, chain)
      && Puts(s.log, v) == Deliveries(s.log, v) + multiset(SlotValues(s.sh, chain))[v]
           + |Underway(Replay(s.log).calls, v)|
  {
    Invariant(tags, moves);
    Linearizable(tags, moves, VALUES);
    var s := Reach(tags, moves);
    ValuesConserved(s.log, v);
    assert SlotValues(s.sh, StackOf(Replay(s.log), VALUES)) == Replay(s.log).values;
  }

  /** In every run the chain of list `l` in memory is exactly the nodes put on it and not
      taken off since, the last one first. */
  lemma ChainTold(tags: nat, moves: seq<Move>, l: ListId)
    requires tags > 0 && Possible(tags, tags, INITIAL, moves)
    ensures var s := Reach(tags, moves); var stack := StackOf(Replay(s.log), l);
      && RootOf(s.sh, l).ptr == HeadOf(stack) && Linked(s.sh.next, stack)
      && Tells(s.log, |s.log|, stack, Comes(l), Goes(l))
  {
    hide Tells;
    Linearizable(tags, moves, l);
    var log := Reach(tags, moves).log;
    AtIsReplay(log, |log|);
    assert log[..|log|] == log;
    StackTold(log, |log|, l);
  }
}
