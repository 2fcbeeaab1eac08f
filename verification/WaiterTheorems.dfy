/** What holds in every run of the waiter machine. */
module WaiterTheorems {
  import opened Sequences
  import opened Chains
  import opened WaiterSpec
  import opened WaiterProtocol
  import opened WaiterInvariant
  import opened WaiterRefinement

  /** Which thread moves next, and what it does. */
  datatype Move = Move(t: Tid, c: Command)

  /** The schedule can be followed from `s` with every caller keeping the contract. */
  ghost predicate Possible(p: Params, s: State, moves: seq<Move>)
    requires p.tags > 0
    decreases |moves|
  {
    moves != [] ==>
      && Enabled(p, s, moves[0].t, moves[0].c)
      && Possible(p, Do(p, s, moves[0].t, moves[0].c), moves[1..])
  }

  ghost function Run(p: Params, s: State, moves: seq<Move>): State
    requires p.tags > 0 && Possible(p, s, moves)
    decreases |moves|
  {
    if moves == [] then s else Run(p, Do(p, s, moves[0].t, moves[0].c), moves[1..])
  }

  /** The abstract state the history of `s` stands for. */
  ghost function View(p: Params, a0: Abs, s: State): Abs {
    Replay(p.kind, a0, s.log)
  }

  ghost predicate Inv(p: Params, a0: Abs, s: State) {
    && SharedOk(p, s.sh)
    && (forall u :: ThreadOk(p, s.sh, u, PcOf(s, u)))
    && (s.sh.word.lock ==> HoldsLock(PcOf(s, s.sh.locker)))
    && LegalHistory(p.kind, a0, s.log)
    && Describes(p, View(p, a0, s), s.sh)
    && (forall u :: Tracks(p, View(p, a0, s), u, PcOf(s, u)))
  }

  lemma InitialInv(p: Params, isSet: bool, count: nat)
    requires p.tags > 0
    ensures Inv(p, Start(p.kind, isSet, count), Initial(p, isSet, count))
  {
  }

  lemma AdvanceOk(p: Params, s: State, a: Abs, t: Tid, pc: Pc)
    requires pc == PcOf(s, t) && !pc.Idle?
    requires Ready(p, s.sh, a, t, pc) && InWindow(p, s.sh, pc)
    ensures Sound(p, s.sh, a, t, StepRunning(p, s.sh, t, pc))
  {
    if RemoveTarget(pc) != NULL {
      StepRemoveOk(p, s.sh, a, t, pc);
    } else if pc.LockTry? || pc.LockSpin? {
      StepLockOk(p, s.sh, a, t, pc);
    } else if pc.AddLower? || pc.AddLoad? || pc.AddTake? || pc.AddLink? || pc.AddCas? {
      StepAddOk(p, s.sh, a, t, pc);
    } else if pc.SetLoad? || pc.SetSpin? || pc.SetFlagCas? || pc.SetDetach? || pc.ChainRead?
           || pc.ChainNotify? || pc.SetUnlock? {
      StepSetOk(p, s.sh, a, t, pc);
    } else if pc.ResetAnd? {
      ResetOk(p, s.sh, a, t);
    } else if pc.Ret? {
      ReturnOk(p, s.sh, a, t, pc);
    } else {
      StepPopOk(p, s.sh, a, t, pc);
    }
  }

  lemma CallAddOk(p: Params, sh: Shared, a: Abs, t: Tid, w: Node)
    requires Ready(p, sh, a, t, Idle) && w != NULL && StatusOf(sh, w).Free?
    ensures Sound(p, sh, a, t, Decide(p, sh, t, Idle, CallAdd(w)))
  {
  }

  lemma CallTakeOverOk(p: Params, sh: Shared, a: Abs, t: Tid)
    requires Ready(p, sh, a, t, Idle) && p.kind.Mutex? && sh.own.Woken?
    ensures Sound(p, sh, a, t, Decide(p, sh, t, Idle, CallTakeOver))
  {
  }

  lemma CallPlainOk(p: Params, sh: Shared, a: Abs, t: Tid, op: Op, dst: Pc)
    requires Ready(p, sh, a, t, Idle) && Has(p.kind, op)
    requires ThreadOk(p, sh, t, dst) && RestOf(dst) == [] && StageFor(p, dst) == Begun(op)
    ensures Sound(p, sh, a, t, Outcome(NoEffect, dst, [Called(t, op)]))
  {
  }

  lemma ResetOk(p: Params, sh: Shared, a: Abs, t: Tid)
    requires Ready(p, sh, a, t, ResetAnd)
    ensures Sound(p, sh, a, t, StepRunning(p, sh, t, ResetAnd))
  {
    hide Linked, Distinct, Reached, Snapshot, ChainOk;
  }

  lemma ReturnOk(p: Params, sh: Shared, a: Abs, t: Tid, pc: Pc)
    requires Ready(p, sh, a, t, pc) && pc.Ret?
    ensures Sound(p, sh, a, t, StepRunning(p, sh, t, pc))
  {
  }

  lemma CallOk(p: Params, s: State, a: Abs, t: Tid, c: Command)
    requires Ready(p, s.sh, a, t, PcOf(s, t)) && Enabled(p, s, t, c) && !c.Advance? && !c.Reuse?
    ensures Sound(p, s.sh, a, t, Decide(p, s.sh, t, PcOf(s, t), c))
  {
    if c.CallAdd? {
      CallAddOk(p, s.sh, a, t, c.w);
    } else if c.CallTakeOver? {
      CallTakeOverOk(p, s.sh, a, t);
    } else if c.CallRemove? {
      CallPlainOk(p, s.sh, a, t, RemoveOp(c.w), RmLoad(c.w));
    } else if c.CallLock? {
      CallPlainOk(p, s.sh, a, t, LockOp, LockTry(c.spin));
    } else {
      CallNoArgumentOk(p, s, a, t, c);
    }
  }

  lemma CallNoArgumentOk(p: Params, s: State, a: Abs, t: Tid, c: Command)
    requires Ready(p, s.sh, a, t, PcOf(s, t)) && Enabled(p, s, t, c)
    requires c.CallUnlock? || c.CallPost? || c.CallSet? || c.CallReset?
    ensures Sound(p, s.sh, a, t, Decide(p, s.sh, t, PcOf(s, t), c))
  {
    var op := if c.CallUnlock? then UnlockOp else if c.CallPost? then PostOp else if c.CallSet? then SetOp else ResetOp;
    CallPlainOk(p, s.sh, a, t, op, Decide(p, s.sh, t, PcOf(s, t), c).pc);
  }

  lemma ReuseOk(p: Params, s: State, a: Abs, t: Tid, c: Command)
    requires Ready(p, s.sh, a, t, PcOf(s, t)) && Enabled(p, s, t, c) && c.Reuse?
    ensures Sound(p, s.sh, a, t, Decide(p, s.sh, t, PcOf(s, t), c))
  {
    FrameWrite(p, s.sh, t + 1, Scribble(c.w, c.v), t, PcOf(s, t));
  }

  lemma DecideOk(p: Params, s: State, a: Abs, t: Tid, c: Command)
    requires Ready(p, s.sh, a, t, PcOf(s, t)) && Enabled(p, s, t, c)
    ensures Sound(p, s.sh, a, t, Decide(p, s.sh, t, PcOf(s, t), c))
  {
    if c.Advance? {
      AdvanceOk(p, s, a, t, PcOf(s, t));
    } else if c.Reuse? {
      ReuseOk(p, s, a, t, c);
    } else {
      CallOk(p, s, a, t, c);
    }
  }

  /** The lock bit changes hands only through its holder. */
  lemma LockKept(p: Params, s: State, t: Tid, c: Command)
    requires p.tags > 0 && Enabled(p, s, t, c) && ThreadOk(p, s.sh, t, PcOf(s, t))
    requires s.sh.word.lock ==> HoldsLock(PcOf(s, s.sh.locker))
    ensures var s' := Do(p, s, t, c);
      s'.sh.word.lock ==> HoldsLock(PcOf(s', s'.sh.locker))
  {
    LockPoints(p, s.sh, t, PcOf(s, t), c);
    LockBit(p, s.sh, t, Decide(p, s.sh, t, PcOf(s, t), c).eff);
  }

  /** The lock bit appears only with SetLock and Detach. */
  lemma LockBit(p: Params, sh: Shared, t: Tid, e: Effect)
    requires p.tags > 0
    ensures var sh' := ApplyEffect(p, sh, t, e);
      if e.SetLock? || e.Detach? then sh'.locker == t
      else sh'.locker == sh.locker && (sh'.word.lock ==> sh.word.lock && !e.ClearLock?)
  {
  }

  lemma LockPoints(p: Params, sh: Shared, t: Tid, pc: Pc, c: Command)
    requires c.Advance? || c.Reuse? || pc.Idle?
    requires c.Advance? ==> !pc.Idle?
    requires Removing(pc) ==> RemoveTarget(pc) != NULL
    requires pc.RmLock? ==> pc.head.ptr != pc.w
    ensures var o := Decide(p, sh, t, pc, c);
      && (o.eff.SetLock? || o.eff.Detach? ==> HoldsLock(o.pc))
      && (HoldsLock(pc) && !o.eff.ClearLock? ==> HoldsLock(o.pc))
  {
  }

  lemma LogGrows(p: Params, a0: Abs, s: State, s': State, acts: seq<Action>)
    requires LegalHistory(p.kind, a0, s.log) && s'.log == s.log + acts && |acts| <= 1
    requires acts != [] ==> Legal(p.kind, View(p, a0, s), acts[0])
    ensures LegalHistory(p.kind, a0, s'.log)
    ensures View(p, a0, s') ==
      if acts == [] then View(p, a0, s) else Apply(p.kind, View(p, a0, s), acts[0])
  {
    if acts == [] {
      assert s'.log == s.log;
    } else {
      assert acts == [acts[0]];
      ReplayExtend(p.kind, a0, s.log, acts[0]);
    }
  }

  lemma ThreadsKept(p: Params, s: State, t: Tid, o: Outcome)
    requires SharedOk(p, s.sh) && EffectOk(p, s.sh, t, o.eff)
    requires forall u :: ThreadOk(p, s.sh, u, PcOf(s, u))
    requires o.eff.BeginAdd? ==> forall u :: RemoveTarget(PcOf(s, u)) != o.eff.w
    requires ThreadOk(p, ApplyEffect(p, s.sh, t, o.eff), t, o.pc)
    ensures var s' := State(ApplyEffect(p, s.sh, t, o.eff), s.pcs[t := o.pc], s.log + o.acts);
      forall u :: ThreadOk(p, s'.sh, u, PcOf(s', u))
  {
    var s' := State(ApplyEffect(p, s.sh, t, o.eff), s.pcs[t := o.pc], s.log + o.acts);
    forall u ensures ThreadOk(p, s'.sh, u, PcOf(s', u)) {
      if u != t {
        Frame(p, s.sh, t, o.eff, u, PcOf(s, u));
      }
    }
  }

  lemma TracksKept(p: Params, a: Abs, a': Abs, s: State, s': State, t: Tid)
    requires forall u :: Tracks(p, a, u, PcOf(s, u))
    requires Tracks(p, a', t, PcOf(s', t)) && OthersKept(a, a', t)
    requires forall u :: u != t ==> PcOf(s', u) == PcOf(s, u)
    ensures forall u :: Tracks(p, a', u, PcOf(s', u))
  {
    forall u ensures Tracks(p, a', u, PcOf(s', u)) {
      assert Tracks(p, a, u, PcOf(s, u));
    }
  }

  lemma StepMemory(p: Params, a: Abs, s: State, t: Tid, c: Command)
    requires Ready(p, s.sh, a, t, PcOf(s, t)) && Enabled(p, s, t, c)
    requires forall u :: ThreadOk(p, s.sh, u, PcOf(s, u))
    ensures var s' := Do(p, s, t, c);
      SharedOk(p, s'.sh) && forall u :: ThreadOk(p, s'.sh, u, PcOf(s', u))
  {
    DecideOk(p, s, a, t, c);
    var o := Decide(p, s.sh, t, PcOf(s, t), c);
    KeepsShared(p, s.sh, t, o.eff);
    AddsUnremoved(p, s, t, c);
    ThreadsKept(p, s, t, o);
  }

  lemma AddsUnremoved(p: Params, s: State, t: Tid, c: Command)
    requires Enabled(p, s, t, c)
    ensures var e := Decide(p, s.sh, t, PcOf(s, t), c).eff;
      e.BeginAdd? ==> forall u :: RemoveTarget(PcOf(s, u)) != e.w
  {
  }

  lemma StepHistory(p: Params, a0: Abs, s: State, t: Tid, c: Command)
    requires Ready(p, s.sh, View(p, a0, s), t, PcOf(s, t)) && Enabled(p, s, t, c)
    requires LegalHistory(p.kind, a0, s.log)
    requires forall u :: Tracks(p, View(p, a0, s), u, PcOf(s, u))
    ensures var s' := Do(p, s, t, c); var a' := View(p, a0, s');
      && LegalHistory(p.kind, a0, s'.log)
      && Describes(p, a', s'.sh)
      && forall u :: Tracks(p, a', u, PcOf(s', u))
  {
    hide Decide, Legal, Apply, Tracks, Describes, ThreadOk;
    var a, s' := View(p, a0, s), Do(p, s, t, c);
    DecideOk(p, s, a, t, c);
    LogGrows(p, a0, s, s', Decide(p, s.sh, t, PcOf(s, t), c).acts);
    TracksKept(p, a, View(p, a0, s'), s, s', t);
  }

  lemma StepInv(p: Params, a0: Abs, s: State, t: Tid, c: Command)
    requires Inv(p, a0, s) && Enabled(p, s, t, c)
    ensures Inv(p, a0, Do(p, s, t, c))
  {
    assert Ready(p, s.sh, View(p, a0, s), t, PcOf(s, t));
    StepMemory(p, View(p, a0, s), s, t, c);
    LockKept(p, s, t, c);
    StepHistory(p, a0, s, t, c);
  }

  lemma {:induction false} RunInv(p: Params, a0: Abs, s: State, moves: seq<Move>)
    requires Inv(p, a0, s) && Possible(p, s, moves)
    ensures Inv(p, a0, Run(p, s, moves))
    decreases |moves|
  {
    if moves == [] {
    } else {
      StepInv(p, a0, s, moves[0].t, moves[0].c);
      RunInv(p, a0, Do(p, s, moves[0].t, moves[0].c), moves[1..]);
    }
  }

  // ---- Main results: a run from a new event, mutex or semaphore ----

  /** In every interleaving the steps taken are a legal sequential history, and the word,
      the chain of `next` fields and the count are the state that history leads to. */
  lemma Linearizable(p: Params, isSet: bool, count: nat, moves: seq<Move>)
    requires p.tags > 0 && Possible(p, Initial(p, isSet, count), moves)
    ensures var s := Run(p, Initial(p, isSet, count), moves);
      var a0 := Start(p.kind, isSet, count);
      var a := Replay(p.kind, a0, s.log);
      && LegalHistory(p.kind, a0, s.log)
      && s.sh.word.ptr == HeadOf(a.list) && Linked(s.sh.next, a.list) && Distinct(a.list)
      && s.sh.word.user == a.flag
      && s.sh.count == a.count
  {
    InitialInv(p, isSet, count);
    RunInv(p, Start(p.kind, isSet, count), Initial(p, isSet, count), moves);
  }

  /** The lock bit is set exactly while one thread is between taking and clearing it. */
  lemma LockBitExclusive(p: Params, isSet: bool, count: nat, moves: seq<Move>)
    requires p.tags > 0 && Possible(p, Initial(p, isSet, count), moves)
    ensures var s := Run(p, Initial(p, isSet, count), moves);
      && (s.sh.word.lock <==> exists t :: HoldsLock(PcOf(s, t)))
      && (forall t, u :: HoldsLock(PcOf(s, t)) && HoldsLock(PcOf(s, u)) ==> t == u)
  {
    InitialInv(p, isSet, count);
    RunInv(p, Start(p.kind, isSet, count), Initial(p, isSet, count), moves);
    var s := Run(p, Initial(p, isSet, count), moves);
    forall t | HoldsLock(PcOf(s, t)) ensures s.sh.word.lock && t == s.sh.locker {
      assert ThreadOk(p, s.sh, t, PcOf(s, t));
    }
  }

  /** No CRUNCH_ASSERT in the list walk, Unlock or AddWaiter ever fails, whichever of the
      three the list belongs to. */
  lemma NoAssertFails(p: Params, isSet: bool, count: nat, moves: seq<Move>, t: Tid)
    requires p.tags > 0 && Possible(p, Initial(p, isSet, count), moves)
    ensures !PcOf(Run(p, Initial(p, isSet, count), moves), t).AssertFailed?
  {
    InitialInv(p, isSet, count);
    RunInv(p, Start(p.kind, isSet, count), Initial(p, isSet, count), moves);
    var s := Run(p, Initial(p, isSet, count), moves);
    assert ThreadOk(p, s.sh, t, PcOf(s, t));
  }

  /** The free bit means the whole word is the free word, and it is set exactly while
      nobody owns the mutex; a locked list has a waiter. */
  lemma MutexWord(p: Params, moves: seq<Move>, t: Tid)
    requires p.tags > 0 && p.kind.Mutex? && Possible(p, Initial(p, false, 0), moves)
    ensures var s := Run(p, Initial(p, false, 0), moves);
      var a := Replay(Mutex, Start(Mutex, false, 0), s.log);
      && (s.sh.word.user <==> a.owner.Nobody?)
      && (s.sh.word.user ==> s.sh.word == FREE)
      && (s.sh.word.lock ==> s.sh.word.ptr != NULL)
      && (InUnlock(p, PcOf(s, t)) ==> a.owner == Holder(t))
  {
    InitialInv(p, false, 0);
    RunInv(p, Start(p.kind, false, 0), Initial(p, false, 0), moves);
    var s := Run(p, Initial(p, false, 0), moves);
    assert ThreadOk(p, s.sh, t, PcOf(s, t));
  }

  /** No waiter is registered on a set event, whatever Set, Reset, AddWaiter and
      RemoveWaiter are doing at the same time. */
  lemma SetEventHasNoWaiters(p: Params, isSet: bool, moves: seq<Move>, w: Node)
    requires p.tags > 0 && p.kind.Event? && Possible(p, Initial(p, isSet, 0), moves)
    ensures var s := Run(p, Initial(p, isSet, 0), moves);
      s.sh.word.user ==> s.sh.word.ptr == NULL && !StatusOf(s.sh, w).Listed?
  {
    InitialInv(p, isSet, 0);
    RunInv(p, Start(p.kind, isSet, 0), Initial(p, isSet, 0), moves);
  }

  /** A head pop about to succeed, in Unlock, Post or RemoveWaiter, installs the node
      that really follows the head, even though a mutex resets its tag on release. */
  lemma NoStalePop(p: Params, isSet: bool, count: nat, moves: seq<Move>, t: Tid)
    requires p.tags > 0 && Possible(p, Initial(p, isSet, count), moves)
    requires var s := Run(p, Initial(p, isSet, count), moves); var pc := PcOf(s, t);
      (pc.PopCas? || pc.RmPop?) && s.sh.word == pc.head && InWindow(p, s.sh, pc)
    ensures var s := Run(p, Initial(p, isSet, count), moves); var pc := PcOf(s, t);
      var list := Replay(p.kind, Start(p.kind, isSet, count), s.log).list;
      && list != [] && list[0] == pc.head.ptr
      && pc.nxt == HeadOf(list[1..])
      && pc.seen == s.sh.bumps
  {
    InitialInv(p, isSet, count);
    RunInv(p, Start(p.kind, isSet, count), Initial(p, isSet, count), moves);
    var s := Run(p, Initial(p, isSet, count), moves);
    var pc := PcOf(s, t);
    assert ThreadOk(p, s.sh, t, pc);
    if pc.RmPop? {
      assert s.sh.list != [] && s.sh.list[0] == pc.w;
    }
    PopIsFresh(p, s.sh, pc.head, pc.nxt, pc.seen);
  }

  // ---- The scan under the lock bit ----

  predicate Scanning(pc: Pc) {
    pc.ScanTest? || pc.ScanCompare? || pc.ScanAdvance? || pc.UnlinkRead? || pc.UnlinkWrite?
  }

  /** The part of `list` from `x` on. */
  function From(list: seq<Node>, x: Node): seq<Node> {
    if list == [] then []
    else if list[0] == x then list
    else From(list[1..], x)
  }

  /** A step of another thread leaves what the scan has yet to see as it is. */
  lemma OthersKeepScan(p: Params, a0: Abs, s: State, t: Tid, u: Tid, c: Command)
    requires Inv(p, a0, s) && Enabled(p, s, u, c)
    requires (u != t || c.Reuse?) && Scanning(PcOf(s, t))
    ensures var s' := Do(p, s, u, c); var cur := PcOf(s, t).cur;
      && PcOf(s', t) == PcOf(s, t)
      && From(s'.sh.list, cur) == From(s.sh.list, cur)
      && (forall x :: x in s.sh.list ==> Next(s'.sh.next, x) == Next(s.sh.next, x))
      && (s'.sh.list == s.sh.list || s'.sh.list == [HeadOf(s'.sh.list)] + s.sh.list)
  {
    hide Inv, ThreadOk, SharedOk, Enabled, EffectOk, HoldsLock;
    ScanLocks(p, a0, s, t);
    EffectSafe(p, a0, s, u, c);
    var o := Decide(p, s.sh, u, PcOf(s, u), c);
    LockedEffects(p, s.sh, u, o.eff);
    if o.eff.PushHead? {
      assert ([o.eff.w] + s.sh.list)[1..] == s.sh.list;
    }
  }

  lemma ScanLocks(p: Params, a0: Abs, s: State, t: Tid)
    requires Inv(p, a0, s) && Scanning(PcOf(s, t))
    ensures p.tags > 0 && SharedOk(p, s.sh)
    ensures s.sh.word.lock && s.sh.locker == t && PcOf(s, t).cur in s.sh.list
  {
    assert ThreadOk(p, s.sh, t, PcOf(s, t));
  }

  lemma EffectSafe(p: Params, a0: Abs, s: State, u: Tid, c: Command)
    requires Inv(p, a0, s) && Enabled(p, s, u, c)
    ensures (c.Advance? ==> !PcOf(s, u).Idle?) && EffectOk(p, s.sh, u, Decide(p, s.sh, u, PcOf(s, u), c).eff)
  {
    hide EffectOk, ThreadOk, SharedOk, Decide, Tracks, Describes;
    assert Ready(p, s.sh, View(p, a0, s), u, PcOf(s, u));
    DecideOk(p, s, View(p, a0, s), u, c);
  }

  /** What another thread may do to a locked, non-empty list. */
  lemma LockedEffects(p: Params, sh: Shared, u: Tid, e: Effect)
    requires SharedOk(p, sh) && EffectOk(p, sh, u, e)
    requires sh.word.lock && sh.list != [] && (sh.locker != u || e.Scribble?)
    ensures var sh' := ApplyEffect(p, sh, u, e);
      && (forall x :: x in sh.list ==> Next(sh'.next, x) == Next(sh.next, x))
      && (if e.PushHead? then sh'.list == [e.w] + sh.list && e.w !in sh.list else sh'.list == sh.list)
  {
  }

  /** Bounds the scanner's own remaining steps. */
  function ScanRank(list: seq<Node>, pc: Pc): int {
    match pc
    case ScanTest(_, cur) => 3 * |From(list, cur)| + 2
    case ScanCompare(_, cur) => 3 * |From(list, cur)| + 1
    case ScanAdvance(_, cur) => 3 * |From(list, cur)|
    case UnlinkRead(_, cur) => 3 * |From(list, cur)|
    case UnlinkWrite(_, cur, _) => 3 * |From(list, cur)| - 1
    case _ => 0
  }

  lemma {:induction false} FromShrinks(list: seq<Node>, i: nat)
    requires i < |list| && Distinct(list)
    ensures From(list, list[i]) == list[i..]
  {
    if i == 0 {
    } else {
      FromShrinks(list[1..], i - 1);
    }
  }

  lemma NextSuffix(h: Heap, list: seq<Node>, cur: Node)
    requires Linked(h, list) && Distinct(list) && cur in list
    ensures |From(list, cur)| >= 1
    ensures Next(h, cur) != NULL ==> |From(list, Next(h, cur))| == |From(list, cur)| - 1
  {
    var i :| 0 <= i < |list| && list[i] == cur;
    assert Next(h, cur) == Follower(list, i);
    FromShrinks(list, i);
    if i + 1 < |list| {
      FromShrinks(list, i + 1);
    }
  }

  lemma ScanStepRank(p: Params, sh: Shared, t: Tid, pc: Pc)
    requires SharedOk(p, sh) && ThreadOk(p, sh, t, pc) && Scanning(pc)
    ensures var pc' := StepRemove(sh, t, pc).pc;
      0 <= ScanRank(sh.list, pc') < ScanRank(sh.list, pc)
  {
    assert Reached(sh.list, pc.w, pc.cur);
    assert pc.cur in sh.list;
    NextSuffix(sh.next, sh.list, pc.cur);
    SuffixRank(sh, t, pc);
  }

  lemma SuffixRank(sh: Shared, t: Tid, pc: Pc)
    requires Scanning(pc) && RemoveTarget(pc) != NULL && |From(sh.list, pc.cur)| >= 1
    requires Next(sh.next, pc.cur) != NULL ==> |From(sh.list, Next(sh.next, pc.cur))| == |From(sh.list, pc.cur)| - 1
    requires pc.ScanAdvance? ==> Next(sh.next, pc.cur) != NULL
    ensures 0 <= ScanRank(sh.list, StepRemove(sh, t, pc).pc) < ScanRank(sh.list, pc)
  {
  }

  lemma OwnStepAdvances(p: Params, a0: Abs, s: State, t: Tid)
    requires Inv(p, a0, s) && Scanning(PcOf(s, t))
    ensures var s' := Do(p, s, t, Advance);
      0 <= ScanRank(s'.sh.list, PcOf(s', t)) < ScanRank(s.sh.list, PcOf(s, t))
  {
    hide ThreadOk, Describes, Tracks, LegalHistory;
    assert ThreadOk(p, s.sh, t, PcOf(s, t));
    ScanStepRank(p, s.sh, t, PcOf(s, t));
  }
}
