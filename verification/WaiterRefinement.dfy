/** Every interleaving of the waiter machine is a legal sequential history. */
module WaiterRefinement {
  import opened Numbers
  import opened Sequences
  import opened Chains
  import opened WaiterSpec
  import opened WaiterProtocol
  import opened WaiterInvariant

  /** The abstract state `a` describes the memory. */
  ghost predicate Describes(p: Params, a: Abs, sh: Shared) {
    && a.flag == sh.word.user
    && a.list == sh.list
    && a.owner == sh.own
    && a.count == sh.count
    && (forall w :: w in a.claimed <==> StatusOf(sh, w).Claimed?)
  }

  /** ... and what thread `u` still has to do. */
  ghost predicate Tracks(p: Params, a: Abs, u: Tid, pc: Pc) {
    TodoOf(a, u) == RestOf(pc) && StageOf(a, u) == StageFor(p, pc)
  }

  ghost predicate OthersKept(a: Abs, a': Abs, t: Tid) {
    forall u :: u != t ==> TodoOf(a', u) == TodoOf(a, u) && StageOf(a', u) == StageOf(a, u)
  }

  /** A decision that is safe, legal, and tracked by the abstract state. */
  ghost predicate Sound(p: Params, sh: Shared, a: Abs, t: Tid, o: Outcome)
    requires p.tags > 0
  {
    var sh' := ApplyEffect(p, sh, t, o.eff);
    && EffectOk(p, sh, t, o.eff)
    && ThreadOk(p, sh', t, o.pc)
    && |o.acts| <= 1
    && (o.acts == [] ==> Describes(p, a, sh') && Tracks(p, a, t, o.pc))
    && (o.acts != [] ==>
          var a' := Apply(p.kind, a, o.acts[0]);
          && Legal(p.kind, a, o.acts[0])
          && Describes(p, a', sh') && Tracks(p, a', t, o.pc) && OthersKept(a, a', t))
  }

  ghost predicate Ready(p: Params, sh: Shared, a: Abs, t: Tid, pc: Pc) {
    SharedOk(p, sh) && Describes(p, a, sh) && Tracks(p, a, t, pc) && ThreadOk(p, sh, t, pc)
  }

  lemma GotoOk(p: Params, sh: Shared, a: Abs, t: Tid, pc: Pc, dst: Pc)
    requires p.tags > 0 && Describes(p, a, sh) && Tracks(p, a, t, pc) && ThreadOk(p, sh, t, dst)
    requires RestOf(dst) == RestOf(pc) && StageFor(p, dst) == StageFor(p, pc)
    ensures Sound(p, sh, a, t, Goto(dst))
  {
  }

  /** What a call knows when it looks at the word afresh. */
  ghost predicate Looks(p: Params, sh: Shared, a: Abs, t: Tid, pc: Pc, g: Stage) {
    SharedOk(p, sh) && Describes(p, a, sh) && Tracks(p, a, t, pc) && RestOf(pc) == [] && StageFor(p, pc) == g
  }

  lemma AddSeesOk(p: Params, sh: Shared, a: Abs, t: Tid, w: Node, pc: Pc)
    requires Looks(p, sh, a, t, pc, Adds(p, w)) && w != NULL && StatusOf(sh, w) == Adding(t)
    ensures Sound(p, sh, a, t, AddSees(p, t, w, sh.word))
  {
    if p.kind.Event? && sh.word.user {
      RefuseOk(p, sh, a, t, w, pc);
    } else if p.kind.Mutex? && sh.word.user {
      GotoOk(p, sh, a, t, pc, AddTake(w));
    } else {
      GotoOk(p, sh, a, t, pc, AddLink(w, sh.word));
    }
  }

  lemma RefuseOk(p: Params, sh: Shared, a: Abs, t: Tid, w: Node, pc: Pc)
    requires p.tags > 0 && Describes(p, a, sh) && p.kind.Event? && sh.word.user && StatusOf(sh, w) == Adding(t)
    requires TodoOf(a, t) == [] && StageOf(a, t) == Begun(AddOp(w))
    ensures Sound(p, sh, a, t, Outcome(AbortAdd(w), Ret(AddOp(w), false), [Refuse(t, w)]))
  {
    var x := Refuse(t, w);
    assert Legal(p.kind, a, x);
    OthersUntouched(p.kind, a, x);
    RefuseDescribed(p, sh, a, t, w);
    assert Tracks(p, Apply(p.kind, a, x), t, Ret(AddOp(w), false));
  }

  lemma RefuseDescribed(p: Params, sh: Shared, a: Abs, t: Tid, w: Node)
    requires p.tags > 0 && Describes(p, a, sh) && StatusOf(sh, w) == Adding(t)
    ensures Describes(p, Apply(p.kind, a, Refuse(t, w)), ApplyEffect(p, sh, t, AbortAdd(w)))
  {
  }

  /** An action is its own thread's affair. */
  lemma OthersUntouched(k: Kind, a: Abs, x: Action)
    ensures OthersKept(a, Apply(k, a, x), x.t)
  {
  }

  lemma RemoveSeesOk(p: Params, sh: Shared, a: Abs, t: Tid, w: Node, pc: Pc)
    requires Looks(p, sh, a, t, pc, Begun(RemoveOp(w))) && w != NULL && !StatusOf(sh, w).Adding?
    ensures Sound(p, sh, a, t, RemoveSees(t, w, sh.word, sh.bumps))
  {
    if sh.word.ptr == NULL {
      AbsentOk(p, sh, a, t, w, pc);
    } else if sh.word.lock {
      GotoOk(p, sh, a, t, pc, RmLoad(w));
    } else {
      ProceedOk(p, sh, a, t, w, pc);
    }
  }

  lemma ProceedOk(p: Params, sh: Shared, a: Abs, t: Tid, w: Node, pc: Pc)
    requires Looks(p, sh, a, t, pc, Begun(RemoveOp(w))) && w != NULL && !StatusOf(sh, w).Adding?
    requires sh.word.ptr != NULL && !sh.word.lock
    ensures Sound(p, sh, a, t, RemoveSees(t, w, sh.word, sh.bumps))
  {
    if sh.word.ptr == w {
      GotoOk(p, sh, a, t, pc, RmRead(w, sh.word, sh.bumps));
    } else {
      GotoOk(p, sh, a, t, pc, RmLock(w, sh.word));
    }
  }

  lemma AbsentOk(p: Params, sh: Shared, a: Abs, t: Tid, w: Node, pc: Pc)
    requires Looks(p, sh, a, t, pc, Begun(RemoveOp(w))) && sh.word.ptr == NULL
    ensures Sound(p, sh, a, t, Outcome(NoEffect, Ret(RemoveOp(w), false), [Absent(t, w)]))
  {
    hide Distinct, Reached, Snapshot, ChainOk;
    QuietOk(p, sh, a, t, Absent(t, w), Ret(RemoveOp(w), false));
  }

  /** An action that changes nothing but its own call, and returns next. */
  lemma QuietOk(p: Params, sh: Shared, a: Abs, t: Tid, x: Action, ret: Pc)
    requires p.tags > 0 && Describes(p, a, sh) && TodoOf(a, t) == [] && x.t == t && Legal(p.kind, a, x)
    requires Changed(p.kind, a, x) == a && ret.Ret? && StageFor(p, ret) == After(StageOf(a, t), x)
    ensures Sound(p, sh, a, t, Outcome(NoEffect, ret, [x]))
  {
  }

  lemma UnlockSeesOk(p: Params, sh: Shared, a: Abs, t: Tid, pc: Pc)
    requires Looks(p, sh, a, t, pc, Begun(UnlockOp)) && p.kind.Mutex? && sh.own == Holder(t)
    ensures Sound(p, sh, a, t, UnlockSees(sh.word, sh.bumps))
  {
    hide Sound, Describes, Tracks;
    GotoOk(p, sh, a, t, pc, UnlockSees(sh.word, sh.bumps).pc);
  }

  lemma PostSeesOk(p: Params, sh: Shared, a: Abs, t: Tid, pc: Pc)
    requires Looks(p, sh, a, t, pc, Counted(PostOp)) && p.kind.Semaphore?
    ensures Sound(p, sh, a, t, PostSees(t, sh.word, sh.bumps))
  {
    hide Sound, Describes, Tracks;
    if sh.word.ptr == NULL {
      PostEmptyOk(p, sh, a, t, pc);
    } else {
      GotoOk(p, sh, a, t, pc, PostSees(t, sh.word, sh.bumps).pc);
    }
  }

  lemma PostEmptyOk(p: Params, sh: Shared, a: Abs, t: Tid, pc: Pc)
    requires Looks(p, sh, a, t, pc, Counted(PostOp)) && p.kind.Semaphore? && sh.word.ptr == NULL
    ensures Sound(p, sh, a, t, Outcome(NoEffect, Ret(PostOp, true), [PostEmpty(t)]))
  {
    hide Distinct, Reached, Snapshot, ChainOk;
    QuietOk(p, sh, a, t, PostEmpty(t), Ret(PostOp, true));
  }

  lemma SetSeesOk(p: Params, sh: Shared, a: Abs, t: Tid, pc: Pc)
    requires Looks(p, sh, a, t, pc, Begun(SetOp)) && p.kind.Event?
    ensures Sound(p, sh, a, t, SetSees(t, sh.word))
  {
    if sh.word.user {
      AlreadySetOk(p, sh, a, t, pc);
    } else {
      GotoOk(p, sh, a, t, pc, SetSees(t, sh.word).pc);
    }
  }

  lemma AlreadySetOk(p: Params, sh: Shared, a: Abs, t: Tid, pc: Pc)
    requires Looks(p, sh, a, t, pc, Begun(SetOp)) && p.kind.Event? && sh.word.user
    ensures Sound(p, sh, a, t, Outcome(NoEffect, Ret(SetOp, true), [AlreadySet(t)]))
  {
    QuietOk(p, sh, a, t, AlreadySet(t), Ret(SetOp, true));
  }

  /** A pop whose CAS finds the word it read, within one tag window, read a `next`
      field that is still current. */
  lemma PopIsFresh(p: Params, sh: Shared, head: Word, nxt: Node, seen: nat)
    requires SharedOk(p, sh) && Snapshot(p, sh, head, seen) && sh.base <= seen
    requires seen == sh.bumps ==> Next(sh.next, head.ptr) == nxt
    requires sh.word == head && sh.bumps - seen < p.tags
    ensures seen == sh.bumps && sh.list != [] && sh.list[0] == head.ptr
    ensures nxt == HeadOf(sh.list[1..])
  {
    SameVersion(sh.base, seen, sh.bumps, p.tags);
    LinkedTail(sh.next, sh.list);
  }

  lemma StepAddOk(p: Params, sh: Shared, a: Abs, t: Tid, pc: Pc)
    requires Ready(p, sh, a, t, pc)
    requires pc.AddLower? || pc.AddLoad? || pc.AddTake? || pc.AddLink? || pc.AddCas?
    ensures Sound(p, sh, a, t, StepAdd(p, sh, t, pc))
  {
    if pc.AddLower? {
      AddLowerOk(p, sh, a, t, pc);
    } else if pc.AddLink? {
      AddLinkOk(p, sh, a, t, pc);
    } else if pc.AddTake? && sh.word == FREE {
      AddTakesOk(p, sh, a, t, pc);
    } else if pc.AddCas? && sh.word == pc.head {
      PushOk(p, sh, a, t, pc);
    } else {
      AddSeesOk(p, sh, a, t, pc.w, pc);
    }
  }

  lemma AddLowerOk(p: Params, sh: Shared, a: Abs, t: Tid, pc: Pc)
    requires Ready(p, sh, a, t, pc) && pc.AddLower?
    ensures Sound(p, sh, a, t, StepAdd(p, sh, t, pc))
  {
    if sh.count > 0 {
      PermitOk(p, sh, a, t, pc);
    }
  }

  lemma PermitOk(p: Params, sh: Shared, a: Abs, t: Tid, pc: Pc)
    requires Ready(p, sh, a, t, pc) && pc.AddLower? && sh.count > 0
    ensures Sound(p, sh, a, t, StepAdd(p, sh, t, pc))
  {
    hide Linked, Distinct, Reached, Snapshot, ChainOk;
  }

  lemma AddLinkOk(p: Params, sh: Shared, a: Abs, t: Tid, pc: Pc)
    requires Ready(p, sh, a, t, pc) && pc.AddLink?
    ensures Sound(p, sh, a, t, StepAdd(p, sh, t, pc))
  {
  }

  lemma PushOk(p: Params, sh: Shared, a: Abs, t: Tid, pc: Pc)
    requires Ready(p, sh, a, t, pc) && pc.AddCas? && sh.word == pc.head
    ensures Sound(p, sh, a, t, StepAdd(p, sh, t, pc))
  {
  }

  lemma AddTakesOk(p: Params, sh: Shared, a: Abs, t: Tid, pc: Pc)
    requires Ready(p, sh, a, t, pc) && pc.AddTake? && sh.word == FREE
    ensures Sound(p, sh, a, t, StepAdd(p, sh, t, pc))
  {
  }

  lemma TakeOk(p: Params, sh: Shared, a: Abs, t: Tid, pc: Pc)
    requires Ready(p, sh, a, t, pc) && pc.LockTry? && sh.word == FREE
    ensures Sound(p, sh, a, t, StepLock(sh, t, pc))
  {
  }

  lemma BusyOk(p: Params, sh: Shared, a: Abs, t: Tid, pc: Pc)
    requires Ready(p, sh, a, t, pc) && (pc.LockTry? || pc.LockSpin?) && sh.word != FREE
    ensures Sound(p, sh, a, t, LockMisses(t, pc.spin))
  {
    if pc.spin > 0 {
      GotoOk(p, sh, a, t, pc, LockSpin(pc.spin - 1));
    } else {
      QuietOk(p, sh, a, t, Busy(t), Ret(LockOp, false));
    }
  }

  lemma StepLockOk(p: Params, sh: Shared, a: Abs, t: Tid, pc: Pc)
    requires Ready(p, sh, a, t, pc)
    requires pc.LockTry? || pc.LockSpin?
    ensures Sound(p, sh, a, t, StepLock(sh, t, pc))
  {
    if pc.LockTry? && sh.word == FREE {
      TakeOk(p, sh, a, t, pc);
    } else if sh.word == FREE {
      GotoOk(p, sh, a, t, pc, LockTry(pc.spin));
    } else {
      BusyOk(p, sh, a, t, pc);
    }
  }

  lemma StepRemoveOk(p: Params, sh: Shared, a: Abs, t: Tid, pc: Pc)
    requires Ready(p, sh, a, t, pc)
    requires RemoveTarget(pc) != NULL && InWindow(p, sh, pc)
    ensures Sound(p, sh, a, t, StepRemove(sh, t, pc))
  {
    if pc.UnlinkWrite? {
      UnlinkOk(p, sh, a, t, pc);
    } else if pc.RmUnlock? {
      UnlockListOk(p, sh, a, t, pc, Ret(RemoveOp(pc.w), pc.removed));
    } else if pc.RmLoad? || pc.RmRead? || pc.RmPop? || pc.RmLock? {
      StepRemoveHeadOk(p, sh, a, t, pc);
    } else {
      ScanOk(p, sh, a, t, pc);
    }
  }

  lemma StepRemoveHeadOk(p: Params, sh: Shared, a: Abs, t: Tid, pc: Pc)
    requires Ready(p, sh, a, t, pc) && InWindow(p, sh, pc)
    requires pc.RmLoad? || pc.RmRead? || pc.RmPop? || pc.RmLock?
    ensures Sound(p, sh, a, t, StepRemove(sh, t, pc))
  {
    if pc.RmRead? {
      GotoOk(p, sh, a, t, pc, RmPop(pc.w, pc.head, Next(sh.next, pc.w), pc.seen));
    } else if pc.RmPop? && sh.word == pc.head {
      RemoveHeadOk(p, sh, a, t, pc);
    } else if pc.RmLock? && sh.word == pc.head {
      LockOk(p, sh, a, t, pc);
    } else {
      RemoveSeesOk(p, sh, a, t, pc.w, pc);
    }
  }

  lemma HeadMemory(p: Params, sh: Shared, t: Tid, pc: Pc)
    requires SharedOk(p, sh) && ThreadOk(p, sh, t, pc)
    requires pc.RmPop? && sh.word == pc.head && InWindow(p, sh, pc)
    ensures sh.list != [] && sh.list[0] == pc.w && Without(sh.list, pc.w) == sh.list[1..]
    ensures EffectOk(p, sh, t, TakeHead(pc.w, pc.nxt, false))
  {
    assert sh.list != [] && sh.list[0] == pc.w;
    PopIsFresh(p, sh, pc.head, pc.nxt, pc.seen);
  }

  lemma RemoveHeadOk(p: Params, sh: Shared, a: Abs, t: Tid, pc: Pc)
    requires Ready(p, sh, a, t, pc)
    requires pc.RmPop? && sh.word == pc.head && InWindow(p, sh, pc)
    ensures Sound(p, sh, a, t, StepRemove(sh, t, pc))
  {
    HeadMemory(p, sh, t, pc);
    HeadDescribed(p, sh, a, t, pc);
    OthersUntouched(p.kind, a, Remove(t, pc.w));
  }

  lemma HeadDescribed(p: Params, sh: Shared, a: Abs, t: Tid, pc: Pc)
    requires p.tags > 0 && Describes(p, a, sh) && pc.RmPop? && StatusOf(sh, pc.w).Listed?
    requires sh.list != [] && Without(sh.list, pc.w) == sh.list[1..]
    ensures Describes(p, Apply(p.kind, a, Remove(t, pc.w)), ApplyEffect(p, sh, t, TakeHead(pc.w, pc.nxt, false)))
  {
  }

  lemma LockOk(p: Params, sh: Shared, a: Abs, t: Tid, pc: Pc)
    requires Ready(p, sh, a, t, pc)
    requires pc.RmLock? && sh.word == pc.head
    ensures Sound(p, sh, a, t, StepRemove(sh, t, pc))
  {
    assert sh.list != [] && sh.list[0] == pc.head.ptr;
  }

  lemma UnlockListOk(p: Params, sh: Shared, a: Abs, t: Tid, pc: Pc, ret: Pc)
    requires Ready(p, sh, a, t, pc) && (pc.RmUnlock? || pc.SetUnlock?)
    requires ret.Ret? && StageFor(p, ret) == StageFor(p, pc)
    ensures Sound(p, sh, a, t, Outcome(ClearLock, ret, []))
  {
  }

  lemma ScanOk(p: Params, sh: Shared, a: Abs, t: Tid, pc: Pc)
    requires Ready(p, sh, a, t, pc)
    requires pc.ScanTest? || pc.ScanCompare? || pc.ScanAdvance? || pc.UnlinkRead?
    ensures Sound(p, sh, a, t, StepRemove(sh, t, pc))
  {
    if pc.ScanTest? && Next(sh.next, pc.cur) == NULL {
      ScanFailsOk(p, sh, a, t, pc);
    } else {
      ScanGoesOn(p, sh, t, pc);
      GotoOk(p, sh, a, t, pc, StepRemove(sh, t, pc).pc);
    }
  }

  lemma ScanFailsOk(p: Params, sh: Shared, a: Abs, t: Tid, pc: Pc)
    requires Ready(p, sh, a, t, pc) && pc.ScanTest? && Next(sh.next, pc.cur) == NULL
    ensures Sound(p, sh, a, t, StepRemove(sh, t, pc))
  {
    ScanEnds(p, sh, pc.w, pc.cur);
  }

  lemma ScanGoesOn(p: Params, sh: Shared, t: Tid, pc: Pc)
    requires SharedOk(p, sh) && ThreadOk(p, sh, t, pc)
    requires pc.ScanTest? || pc.ScanCompare? || pc.ScanAdvance? || pc.UnlinkRead?
    requires pc.ScanTest? ==> Next(sh.next, pc.cur) != NULL
    ensures ThreadOk(p, sh, t, StepRemove(sh, t, pc).pc)
  {
    if pc.ScanAdvance? {
      ScanMoves(p, sh, pc.w, pc.cur);
    }
  }

  lemma ScanEnds(p: Params, sh: Shared, w: Node, cur: Node)
    requires SharedOk(p, sh) && Reached(sh.list, w, cur) && Next(sh.next, cur) == NULL
    ensures w !in sh.list
  {
    var i :| 0 <= i < |sh.list| && sh.list[i] == cur;
    assert Follower(sh.list, i) == NULL;
    assert i + 1 == |sh.list|;
  }

  lemma ScanMoves(p: Params, sh: Shared, w: Node, cur: Node)
    requires SharedOk(p, sh) && Reached(sh.list, w, cur)
    requires Next(sh.next, cur) != NULL && Next(sh.next, cur) != w
    ensures Reached(sh.list, w, Next(sh.next, cur))
  {
    var i :| 0 <= i < |sh.list| && sh.list[i] == cur;
    assert Next(sh.next, cur) == Follower(sh.list, i) == sh.list[i + 1];
  }

  lemma UnlinkOk(p: Params, sh: Shared, a: Abs, t: Tid, pc: Pc)
    requires Ready(p, sh, a, t, pc)
    requires pc.UnlinkWrite?
    ensures Sound(p, sh, a, t, StepRemove(sh, t, pc))
  {
    UnlinkChain(sh.next, sh.list, pc.cur, pc.w);
    UnlinkMemory(p, sh, t, pc);
    UnlinkDescribed(p, sh, a, t, pc);
  }

  lemma UnlinkMemory(p: Params, sh: Shared, t: Tid, pc: Pc)
    requires SharedOk(p, sh) && ThreadOk(p, sh, t, pc) && pc.UnlinkWrite?
    requires pc.cur in Without(sh.list, pc.w)
    ensures EffectOk(p, sh, t, Unlink(pc.w, pc.cur, pc.nxt))
    ensures ThreadOk(p, ApplyEffect(p, sh, t, Unlink(pc.w, pc.cur, pc.nxt)), t, RmUnlock(pc.w, true))
  {
    assert pc.w in sh.list by { UnlinkChain(sh.next, sh.list, pc.cur, pc.w); }
    WithoutDistinct(sh.list, pc.w);
  }

  lemma UnlinkDescribed(p: Params, sh: Shared, a: Abs, t: Tid, pc: Pc)
    requires Ready(p, sh, a, t, pc) && pc.UnlinkWrite? && pc.w in sh.list
    ensures Describes(p, Apply(p.kind, a, Remove(t, pc.w)), ApplyEffect(p, sh, t, Unlink(pc.w, pc.cur, pc.nxt)))
  {
  }

  lemma StepPopOk(p: Params, sh: Shared, a: Abs, t: Tid, pc: Pc)
    requires Ready(p, sh, a, t, pc)
    requires pc.UnlockFast? || pc.UnlockLoad? || pc.UnlockFree? || pc.PostCount? || pc.PostLoad?
          || pc.PostSpin? || pc.PopRead? || pc.PopCas? || pc.NotifyOne?
    requires InWindow(p, sh, pc)
    ensures Sound(p, sh, a, t, StepPop(p, sh, t, pc))
  {
    if pc.UnlockFast? || pc.UnlockLoad? || pc.UnlockFree? {
      StepUnlockOk(p, sh, a, t, pc);
    } else if pc.PostCount? || pc.PostLoad? || pc.PostSpin? {
      StepPostOk(p, sh, a, t, pc);
    } else {
      StepGrantOk(p, sh, a, t, pc);
    }
  }

  lemma StepUnlockOk(p: Params, sh: Shared, a: Abs, t: Tid, pc: Pc)
    requires Ready(p, sh, a, t, pc) && (pc.UnlockFast? || pc.UnlockLoad? || pc.UnlockFree?)
    ensures Sound(p, sh, a, t, StepPop(p, sh, t, pc))
  {
    if (pc.UnlockFast? && sh.word == LOCKED) || (pc.UnlockFree? && sh.word == pc.head) {
      ReleaseOk(p, sh, a, t, pc);
    } else {
      UnlockSeesOk(p, sh, a, t, pc);
    }
  }

  lemma StepPostOk(p: Params, sh: Shared, a: Abs, t: Tid, pc: Pc)
    requires Ready(p, sh, a, t, pc) && (pc.PostCount? || pc.PostLoad? || pc.PostSpin?)
    ensures Sound(p, sh, a, t, StepPop(p, sh, t, pc))
  {
    match pc
    case PostCount => PostCountOk(p, sh, a, t, pc);
    case PostLoad => PostSeesOk(p, sh, a, t, pc);
    case PostSpin(head) => GotoOk(p, sh, a, t, pc, pc);
  }

  lemma StepGrantOk(p: Params, sh: Shared, a: Abs, t: Tid, pc: Pc)
    requires Ready(p, sh, a, t, pc) && (pc.PopRead? || pc.PopCas? || pc.NotifyOne?) && InWindow(p, sh, pc)
    ensures Sound(p, sh, a, t, StepPop(p, sh, t, pc))
  {
    match pc
    case PopCas(head, nxt, seen) =>
      if sh.word == head {
        GrantOk(p, sh, a, t, pc);
      } else {
        PopMissesOk(p, sh, a, t, pc);
      }
    case PopRead(head, seen) => GotoOk(p, sh, a, t, pc, PopCas(head, Next(sh.next, head.ptr), seen));
    case NotifyOne(w) => NotifyOneOk(p, sh, a, t, pc);
  }

  lemma PopMissesOk(p: Params, sh: Shared, a: Abs, t: Tid, pc: Pc)
    requires Ready(p, sh, a, t, pc) && pc.PopCas? && sh.word != pc.head
    ensures Sound(p, sh, a, t, StepPop(p, sh, t, pc))
  {
    if p.kind.Mutex? {
      UnlockSeesOk(p, sh, a, t, pc);
    } else {
      PostSeesOk(p, sh, a, t, pc);
    }
  }

  lemma ReleaseOk(p: Params, sh: Shared, a: Abs, t: Tid, pc: Pc)
    requires Ready(p, sh, a, t, pc)
    requires (pc.UnlockFast? && sh.word == LOCKED) || (pc.UnlockFree? && sh.word == pc.head)
    ensures Sound(p, sh, a, t, Outcome(MakeFree, Ret(UnlockOp, true), [Release(t)]))
  {
    hide Distinct, Reached, Snapshot, ChainOk;
  }

  lemma PostCountOk(p: Params, sh: Shared, a: Abs, t: Tid, pc: Pc)
    requires Ready(p, sh, a, t, pc) && pc.PostCount?
    ensures Sound(p, sh, a, t, StepPop(p, sh, t, pc))
  {
  }

  lemma NotifyOneOk(p: Params, sh: Shared, a: Abs, t: Tid, pc: Pc)
    requires Ready(p, sh, a, t, pc) && pc.NotifyOne?
    ensures Sound(p, sh, a, t, StepPop(p, sh, t, pc))
  {
    hide Linked, Distinct, Reached, Snapshot, ChainOk;
  }

  lemma GrantOk(p: Params, sh: Shared, a: Abs, t: Tid, pc: Pc)
    requires Ready(p, sh, a, t, pc)
    requires pc.PopCas? && sh.word == pc.head && InWindow(p, sh, pc)
    ensures Sound(p, sh, a, t, StepPop(p, sh, t, pc))
  {
    GrantMemory(p, sh, t, pc);
    GrantTracked(p, sh, a, t, pc);
    GrantDescribed(p, sh, a, t, pc);
  }

  lemma GrantMemory(p: Params, sh: Shared, t: Tid, pc: Pc)
    requires SharedOk(p, sh) && ThreadOk(p, sh, t, pc)
    requires pc.PopCas? && sh.word == pc.head && InWindow(p, sh, pc)
    ensures sh.list != [] && sh.list[0] == pc.head.ptr
    ensures EffectOk(p, sh, t, TakeHead(pc.head.ptr, pc.nxt, true))
    ensures ThreadOk(p, ApplyEffect(p, sh, t, TakeHead(pc.head.ptr, pc.nxt, true)), t, NotifyOne(pc.head.ptr))
  {
    PopIsFresh(p, sh, pc.head, pc.nxt, pc.seen);
  }

  lemma GrantTracked(p: Params, sh: Shared, a: Abs, t: Tid, pc: Pc)
    requires Ready(p, sh, a, t, pc) && pc.PopCas?
    requires sh.list != [] && sh.list[0] == pc.head.ptr
    ensures var x := Grant(t, pc.head.ptr); var a' := Apply(p.kind, a, x);
      Legal(p.kind, a, x) && Tracks(p, a', t, NotifyOne(pc.head.ptr)) && OthersKept(a, a', t)
  {
  }

  lemma GrantDescribed(p: Params, sh: Shared, a: Abs, t: Tid, pc: Pc)
    requires p.tags > 0 && Describes(p, a, sh) && pc.PopCas? && !p.kind.Event?
    ensures Describes(p, Apply(p.kind, a, Grant(t, pc.head.ptr)),
                      ApplyEffect(p, sh, t, TakeHead(pc.head.ptr, pc.nxt, true)))
  {
  }

  lemma StepSetOk(p: Params, sh: Shared, a: Abs, t: Tid, pc: Pc)
    requires Ready(p, sh, a, t, pc)
    requires pc.SetLoad? || pc.SetSpin? || pc.SetFlagCas? || pc.SetDetach? || pc.ChainRead?
          || pc.ChainNotify? || pc.SetUnlock?
    ensures Sound(p, sh, a, t, StepSet(sh, t, pc))
  {
    if pc.ChainRead? {
      ChainReadOk(p, sh, a, t, pc);
    } else if pc.ChainNotify? {
      NotifyOk(p, sh, a, t, pc);
    } else if pc.SetUnlock? {
      UnlockListOk(p, sh, a, t, pc, Ret(SetOp, true));
    } else {
      StepSetHeadOk(p, sh, a, t, pc);
    }
  }

  lemma StepSetHeadOk(p: Params, sh: Shared, a: Abs, t: Tid, pc: Pc)
    requires Ready(p, sh, a, t, pc) && (pc.SetLoad? || pc.SetSpin? || pc.SetFlagCas? || pc.SetDetach?)
    ensures Sound(p, sh, a, t, StepSet(sh, t, pc))
  {
    if pc.SetSpin? {
      GotoOk(p, sh, a, t, pc, pc);
    } else if pc.SetFlagCas? && sh.word == pc.head {
      FlagOk(p, sh, a, t, pc);
    } else if pc.SetDetach? && sh.word == pc.head {
      DetachOk(p, sh, a, t, pc);
    } else {
      SetSeesOk(p, sh, a, t, pc);
    }
  }

  lemma FlagOk(p: Params, sh: Shared, a: Abs, t: Tid, pc: Pc)
    requires Ready(p, sh, a, t, pc) && pc.SetFlagCas? && sh.word == pc.head
    ensures Sound(p, sh, a, t, StepSet(sh, t, pc))
  {
    hide Distinct, Reached, Snapshot, ChainOk;
  }

  lemma ChainReadOk(p: Params, sh: Shared, a: Abs, t: Tid, pc: Pc)
    requires Ready(p, sh, a, t, pc) && pc.ChainRead?
    ensures Sound(p, sh, a, t, StepSet(sh, t, pc))
  {
    if pc.cur == NULL {
      ChainEndsOk(p, sh, a, t, pc);
    } else {
      LinkedTail(sh.next, pc.rest);
      GotoOk(p, sh, a, t, pc, ChainNotify(pc.rest, pc.cur, Next(sh.next, pc.cur)));
    }
  }

  lemma ChainEndsOk(p: Params, sh: Shared, a: Abs, t: Tid, pc: Pc)
    requires Ready(p, sh, a, t, pc) && pc.ChainRead? && pc.cur == NULL
    ensures Sound(p, sh, a, t, StepSet(sh, t, pc))
  {
  }

  lemma DetachOk(p: Params, sh: Shared, a: Abs, t: Tid, pc: Pc)
    requires Ready(p, sh, a, t, pc)
    requires pc.SetDetach? && sh.word == pc.head
    ensures Sound(p, sh, a, t, StepSet(sh, t, pc))
  {
    DetachMemory(p, sh, a, t, pc);
    DetachTracked(p, sh, a, t, pc);
    DetachDescribed(p, sh, a, t);
  }

  lemma DetachMemory(p: Params, sh: Shared, a: Abs, t: Tid, pc: Pc)
    requires Ready(p, sh, a, t, pc) && pc.SetDetach? && sh.word == pc.head
    ensures EffectOk(p, sh, t, Detach)
    ensures ThreadOk(p, ApplyEffect(p, sh, t, Detach), t, ChainRead(sh.list, pc.head.ptr))
  {
  }

  lemma DetachTracked(p: Params, sh: Shared, a: Abs, t: Tid, pc: Pc)
    requires Ready(p, sh, a, t, pc) && pc.SetDetach? && sh.word == pc.head
    ensures var x := TakeAll(t, sh.list); var a' := Apply(p.kind, a, x);
      Legal(p.kind, a, x) && Tracks(p, a', t, ChainRead(sh.list, pc.head.ptr)) && OthersKept(a, a', t)
  {
  }

  lemma DetachDescribed(p: Params, sh: Shared, a: Abs, t: Tid)
    requires p.tags > 0 && Describes(p, a, sh)
    ensures Describes(p, Apply(p.kind, a, TakeAll(t, sh.list)), ApplyEffect(p, sh, t, Detach))
  {
  }

  lemma NotifyOk(p: Params, sh: Shared, a: Abs, t: Tid, pc: Pc)
    requires Ready(p, sh, a, t, pc)
    requires pc.ChainNotify?
    ensures Sound(p, sh, a, t, StepSet(sh, t, pc))
  {
    LinkedTail(sh.next, pc.rest);
    TailMembers(pc.rest);
    OthersUntouched(p.kind, a, Notify(t, pc.cur));
  }
}
