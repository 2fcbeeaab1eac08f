/** What the properties of histories and the scan lemmas say about every run of the
    program. */
module WaiterRuns {
  import opened Numbers
  import opened Chains
  import opened Logs
  import opened Rosters
  import opened WaiterSpec
  import opened WaiterProtocol
  import opened WaiterInvariant
  import opened WaiterRefinement
  import opened WaiterTheorems
  import opened WaiterHistories
  import opened WaiterOutcomes
  import opened WaiterLaws

  /** A new event, mutex or semaphore after the moves of a run. */
  ghost function Reach(p: Params, isSet: bool, count: nat, moves: seq<Move>): State
    requires p.tags > 0 && Possible(p, Initial(p, isSet, count), moves)
  {
    Run(p, Initial(p, isSet, count), moves)
  }

  lemma Invariant(p: Params, isSet: bool, count: nat, moves: seq<Move>)
    requires p.tags > 0 && Possible(p, Initial(p, isSet, count), moves)
    ensures Inv(p, Start(p.kind, isSet, count), Reach(p, isSet, count, moves))
  {
    InitialInv(p, isSet, count);
    RunInv(p, Start(p.kind, isSet, count), Initial(p, isSet, count), moves);
  }

  // ---- Calls, effects and results ----

  /** The call a command begins. */
  function CallOf(m: Move): seq<Action> {
    match m.c
    case CallAdd(w) => [Called(m.t, AddOp(w))]
    case CallRemove(w) => [Called(m.t, RemoveOp(w))]
    case CallLock(_) => [Called(m.t, LockOp)]
    case CallUnlock => [Called(m.t, UnlockOp)]
    case CallPost => [Called(m.t, PostOp)]
    case CallSet => [Called(m.t, SetOp)]
    case CallReset => [Called(m.t, ResetOp)]
    case _ => []
  }

  function CallsMade(moves: seq<Move>): seq<Action> {
    if moves == [] then [] else CallOf(moves[0]) + CallsMade(moves[1..])
  }

  function CallsIn(log: seq<Action>): seq<Action> {
    Kept(log, (x: Action) => x.Called?)
  }

  lemma CallLogged(p: Params, s: State, m: Move)
    requires p.tags > 0 && Enabled(p, s, m.t, m.c)
    ensures CallsIn(Do(p, s, m.t, m.c).log) == CallsIn(s.log) + CallOf(m)
  {
    var acts := Decide(p, s.sh, m.t, PcOf(s, m.t), m.c).acts;
    OneAction(p, s.sh, m.t, PcOf(s, m.t), m.c);
    if acts == [] {
      assert s.log + acts == s.log;
    } else {
      assert (s.log + acts)[..|s.log|] == s.log;
    }
  }

  lemma OneAction(p: Params, sh: Shared, t: Tid, pc: Pc, c: Command)
    requires c.Advance? ==> !pc.Idle?
    ensures var acts := Decide(p, sh, t, pc, c).acts;
      |acts| <= 1 && CallOf(Move(t, c)) == if acts != [] && acts[0].Called? then acts else []
  {
    if c.Advance? {
      NoCall(p, sh, t, pc);
    }
  }

  lemma NoCall(p: Params, sh: Shared, t: Tid, pc: Pc)
    requires !pc.Idle?
    ensures var acts := StepRunning(p, sh, t, pc).acts;
      |acts| <= 1 && (acts != [] ==> !acts[0].Called?)
  {
  }

  lemma {:induction false} CallsLogged(p: Params, s: State, moves: seq<Move>)
    requires p.tags > 0 && Possible(p, s, moves)
    ensures CallsIn(Run(p, s, moves).log) == CallsIn(s.log) + CallsMade(moves)
    decreases |moves|
  {
    hide Enabled, Do, CallsIn, CallOf;
    if moves == [] {
      assert CallsIn(s.log) + [] == CallsIn(s.log);
    } else {
      var m := moves[0];
      EnabledRuns(p, s, m);
      CallLogged(p, s, m);
      CallsLogged(p, Do(p, s, m.t, m.c), moves[1..]);
      assert (CallsIn(s.log) + CallOf(m)) + CallsMade(moves[1..])
          == CallsIn(s.log) + (CallOf(m) + CallsMade(moves[1..]));
    }
  }

  lemma EnabledRuns(p: Params, s: State, m: Move)
    requires Enabled(p, s, m.t, m.c)
    ensures m.c.Advance? ==> !PcOf(s, m.t).Idle?
  {
  }

  /** In every run the log holds exactly the calls the threads made, in order; a thread
      is idle exactly when all its calls have returned; and every call that returned took
      effect in between, once, as Achieves says for its result. */
  lemma CallsTakeEffect(p: Params, isSet: bool, count: nat, moves: seq<Move>, i: nat, j: nat, t: Tid)
    requires p.tags > 0 && Possible(p, Initial(p, isSet, count), moves)
    ensures var log := Reach(p, isSet, count, moves).log;
      && CallsIn(log) == CallsMade(moves)
      && (PcOf(Reach(p, isSet, count, moves), t).Idle? <==> Calls(log, t) == Returns(log, t))
      && (i < j < |log| && log[i].Called? && log[j].Returned? && log[i].t == log[j].t == t
          && (forall n :: i < n < j && log[n].t == t ==> Inner(log[n])) ==>
            log[j].op == log[i].op && Achieves(p.kind, log[i].op, t, Acts(log, i + 1, j, t), log[j].result))
  {
    CallsLogged(p, Initial(p, isSet, count), moves);
    IdleIffReturned(p, isSet, count, moves, t);
    var log := Reach(p, isSet, count, moves).log;
    Linearizable(p, isSet, count, moves);
    if i < j < |log| && log[i].Called? && log[j].Returned? && log[i].t == log[j].t == t
      && forall n :: i < n < j && log[n].t == t ==> Inner(log[n])
    {
      OneEffectPerCall(p.kind, isSet, count, log, i, j);
    }
  }

  lemma IdleIffReturned(p: Params, isSet: bool, count: nat, moves: seq<Move>, t: Tid)
    requires p.tags > 0 && Possible(p, Initial(p, isSet, count), moves)
    ensures var s := Reach(p, isSet, count, moves);
      PcOf(s, t).Idle? <==> Calls(s.log, t) == Returns(s.log, t)
  {
    Invariant(p, isSet, count, moves);
    var s := Reach(p, isSet, count, moves);
    CallsReturn(p.kind, isSet, count, s.log, t);
    assert Tracks(p, View(p, Start(p.kind, isSet, count), s), t, PcOf(s, t));
    assert ThreadOk(p, s.sh, t, PcOf(s, t));
    OutsideIffIdle(p, PcOf(s, t));
  }

  lemma OutsideIffIdle(p: Params, pc: Pc)
    requires !pc.AssertFailed?
    ensures StageFor(p, pc).Outside? <==> pc.Idle?
  {
  }

  /** In every run each AddWaiter that returned true is ended by at most one of a single
      callback and a single RemoveWaiter that returned true; what is not ended is in the
      list or taken by a notifier about to run its callback. */
  lemma EndedOnce(p: Params, isSet: bool, count: nat, moves: seq<Move>, w: Node)
    requires p.tags > 0 && Possible(p, Initial(p, isSet, count), moves)
    ensures var s := Reach(p, isSet, count, moves);
      Count(s.log, Pushes(w)) == Count(s.log, Removes(w)) + Count(s.log, Notifies(w))
        + (if StatusOf(s.sh, w).Listed? || StatusOf(s.sh, w).Claimed? then 1 else 0)
  {
    Invariant(p, isSet, count, moves);
    EndedExactlyOnce(p.kind, isSet, count, Reach(p, isSet, count, moves).log, w);
  }

  /** A thread that is inside Unlock is the mutex's owner, so no two are. */
  lemma OneUnlocker(p: Params, moves: seq<Move>, t: Tid, u: Tid)
    requires p.tags > 0 && p.kind.Mutex? && Possible(p, Initial(p, false, 0), moves)
    requires var s := Reach(p, false, 0, moves); InUnlock(p, PcOf(s, t)) && InUnlock(p, PcOf(s, u))
    ensures t == u
  {
    MutexWord(p, moves, t);
    MutexWord(p, moves, u);
  }

  /** At any time the permits handed out are within the initial count plus the posts. */
  lemma GrantsBounded(p: Params, count: nat, moves: seq<Move>)
    requires p.tags > 0 && p.kind.Semaphore? && Possible(p, Initial(p, false, count), moves)
    ensures var s := Reach(p, false, count, moves);
      && Count(s.log, Directs) + Count(s.log, Grants) <= count + Count(s.log, Posts)
      && Max0(s.sh.count) == count + Count(s.log, EarlyPosts) - Count(s.log, Directs)
  {
    Invariant(p, false, count, moves);
    NeverOverGrants(count, Reach(p, false, count, moves).log);
    SemaphoreAccounts(count, Reach(p, false, count, moves).log);
  }

  /** While RemoveWaiter scans, every step of another thread leaves the part it has yet
      to see as it is, and changes the list only by prepending. */
  lemma ScanUndisturbed(p: Params, isSet: bool, count: nat, moves: seq<Move>, t: Tid, u: Tid, c: Command)
    requires p.tags > 0 && Possible(p, Initial(p, isSet, count), moves)
    requires var s := Reach(p, isSet, count, moves); Enabled(p, s, u, c) && u != t && Scanning(PcOf(s, t))
    ensures var s := Reach(p, isSet, count, moves); var s' := Do(p, s, u, c); var cur := PcOf(s, t).cur;
      && PcOf(s', t) == PcOf(s, t)
      && From(s'.sh.list, cur) == From(s.sh.list, cur)
      && (forall x :: x in s.sh.list ==> Next(s'.sh.next, x) == Next(s.sh.next, x))
      && (s'.sh.list == s.sh.list || s'.sh.list == [HeadOf(s'.sh.list)] + s.sh.list)
  {
    Invariant(p, isSet, count, moves);
    OthersKeepScan(p, Start(p.kind, isSet, count), Reach(p, isSet, count, moves), t, u, c);
  }

  /** Before each of `moves` thread `t` is in its scan. */
  ghost predicate ScanGoesOn(p: Params, s: State, moves: seq<Move>, t: Tid)
    requires p.tags > 0 && Possible(p, s, moves)
    decreases |moves|
  {
    moves != [] ==>
      Scanning(PcOf(s, t)) && ScanGoesOn(p, Do(p, s, moves[0].t, moves[0].c), moves[1..], t)
  }

  function OwnSteps(moves: seq<Move>, t: Tid): nat {
    if moves == [] then 0 else OwnSteps(moves[1..], t) + if moves[0] == Move(t, Advance) then 1 else 0
  }

  /** Each of the scanner's steps lowers its rank and nobody else's raises it. */
  lemma {:induction false} RankPaysSteps(p: Params, a0: Abs, s: State, moves: seq<Move>, t: Tid)
    requires Inv(p, a0, s) && Possible(p, s, moves) && ScanGoesOn(p, s, moves, t)
    ensures var s' := Run(p, s, moves);
      moves != [] ==>
        0 <= ScanRank(s'.sh.list, PcOf(s', t)) <= ScanRank(s.sh.list, PcOf(s, t)) - OwnSteps(moves, t)
    decreases |moves|
  {
    hide Inv, Enabled, Do, ScanRank;
    if moves == [] {
    } else {
      var m := moves[0];
      ScanStep(p, a0, s, t, m);
      StepInv(p, a0, s, m.t, m.c);
      RankPaysSteps(p, a0, Do(p, s, m.t, m.c), moves[1..], t);
    }
  }

  lemma ScanStep(p: Params, a0: Abs, s: State, t: Tid, m: Move)
    requires Inv(p, a0, s) && Enabled(p, s, m.t, m.c) && Scanning(PcOf(s, t))
    ensures p.tags > 0 && (m.c.Advance? ==> !PcOf(s, m.t).Idle?)
    ensures var s' := Do(p, s, m.t, m.c);
      0 <= ScanRank(s'.sh.list, PcOf(s', t))
        <= ScanRank(s.sh.list, PcOf(s, t)) - if m == Move(t, Advance) then 1 else 0
  {
    if m == Move(t, Advance) {
      OwnStepAdvances(p, a0, s, t);
    } else {
      OwnStepAdvances(p, a0, s, t);
      OthersKeepScan(p, a0, s, t, m.t, m.c);
    }
  }

  /** The scan ends: from any point of it on the scanner takes no more steps than its rank
      there, whatever the others do meanwhile, so after taking the lock bit at most two
      and three for every waiter then in the list, however many are added meanwhile. */
  lemma ScanBounded(p: Params, isSet: bool, count: nat, moves: seq<Move>, more: seq<Move>, t: Tid)
    requires p.tags > 0 && Possible(p, Initial(p, isSet, count), moves)
    requires var s := Reach(p, isSet, count, moves);
      Possible(p, s, more) && ScanGoesOn(p, s, more, t) && more != []
    ensures var s := Reach(p, isSet, count, moves); var pc := PcOf(s, t);
      && OwnSteps(more, t) <= ScanRank(s.sh.list, pc)
      && (pc.ScanTest? && pc.cur == s.sh.word.ptr ==> OwnSteps(more, t) <= 3 * |s.sh.list| + 2)
  {
    Invariant(p, isSet, count, moves);
    RankPaysSteps(p, Start(p.kind, isSet, count), Reach(p, isSet, count, moves), more, t);
  }

  // ---- What memory holds, from the actions alone ----

  lemma AtTheEnd(k: Kind, a0: Abs, log: seq<Action>)
    ensures At(k, a0, log, |log|) == Replay(k, a0, log)
  {
    AtIsReplay(k, a0, log, |log|);
    assert log[..|log|] == log;
  }

  /** In every run the chain from the word's pointer is exactly the waiters registered and
      not taken out since, the last one first. */
  lemma ChainTold(p: Params, isSet: bool, count: nat, moves: seq<Move>)
    requires p.tags > 0 && Possible(p, Initial(p, isSet, count), moves)
    ensures var s := Reach(p, isSet, count, moves);
      && s.sh.word.ptr == HeadOf(s.sh.list) && Linked(s.sh.next, s.sh.list)
      && Tells(s.log, |s.log|, s.sh.list, Joins, Parts)
  {
    hide Tells, SharedOk, ThreadOk;
    Invariant(p, isSet, count, moves);
    Linearizable(p, isSet, count, moves);
    var log := Reach(p, isSet, count, moves).log;
    AtTheEnd(p.kind, Start(p.kind, isSet, count), log);
    ListTold(p.kind, isSet, count, log, |log|);
  }

  /** In every run the event's bit in the word is set exactly while a Set is in force: from
      the start or by a Set, and no Reset since. */
  lemma EventWordTold(p: Params, isSet: bool, moves: seq<Move>)
    requires p.tags > 0 && p.kind.Event? && Possible(p, Initial(p, isSet, 0), moves)
    ensures var s := Reach(p, isSet, 0, moves);
      s.sh.word.user <==> InForce(isSet, s.log, |s.log|)
  {
    Linearizable(p, isSet, 0, moves);
    var log := Reach(p, isSet, 0, moves).log;
    AtTheEnd(Event, Start(Event, isSet, 0), log);
    FlagTold(isSet, log, |log|);
  }

  /** In every run the mutex's word is the free word exactly if everybody who took it
      freed it. */
  lemma MutexWordTold(p: Params, moves: seq<Move>)
    requires p.tags > 0 && p.kind.Mutex? && Possible(p, Initial(p, false, 0), moves)
    ensures var s := Reach(p, false, 0, moves);
      s.sh.word == FREE <==> !Locked(s.log, |s.log|)
  {
    Linearizable(p, false, 0, moves);
    MutexWord(p, moves, 0);
    var log := Reach(p, false, 0, moves).log;
    AtTheEnd(Mutex, Start(Mutex, false, 0), log);
    OwnerTold(log, |log|, 0);
  }
}
