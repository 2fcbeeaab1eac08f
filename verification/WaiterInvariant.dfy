/** The inductive invariant of the waiter machine. */
module WaiterInvariant {
  import opened Numbers
  import opened Sequences
  import opened Chains
  import opened WaiterSpec
  import opened WaiterProtocol

  ghost predicate SharedOk(p: Params, sh: Shared) {
    && p.tags > 0
    && sh.word.ptr == HeadOf(sh.list)
    && Linked(sh.next, sh.list)
    && Distinct(sh.list)
    && (forall w :: w in sh.list <==> StatusOf(sh, w).Listed?)
    && sh.base <= sh.bumps
    && sh.word.tag == (sh.bumps - sh.base) % p.tags
    && (p.kind.Event? && sh.word.user ==> sh.list == [])
    && (p.kind.Mutex? ==> (sh.word.user <==> sh.own.Nobody?))
    && (p.kind.Mutex? && sh.word.user ==> sh.word == FREE)
    && (p.kind.Mutex? && sh.word.lock ==> sh.list != [])
    && (p.kind.Semaphore? ==> !sh.word.user)
  }

  predicate HoldsLock(pc: Pc) {
    pc.ScanTest? || pc.ScanCompare? || pc.ScanAdvance? || pc.UnlinkRead? || pc.UnlinkWrite?
    || pc.RmUnlock? || pc.ChainRead? || pc.ChainNotify? || pc.SetUnlock?
  }

  predicate InUnlock(p: Params, pc: Pc) {
    pc.UnlockFast? || pc.UnlockLoad? || pc.UnlockFree? || (p.kind.Mutex? && (pc.PopRead? || pc.PopCas?))
  }

  /** Where the call of a thread at `pc` is. */
  function StageFor(p: Params, pc: Pc): Stage {
    match pc
    case Idle => Outside
    case AddLower(w) => Begun(AddOp(w))
    case AddLoad(w) => Adds(p, w)
    case AddTake(w) => Begun(AddOp(w))
    case AddLink(w, _) => Adds(p, w)
    case AddCas(w, _) => Adds(p, w)
    case RmUnlock(w, removed) => Over(RemoveOp(w), removed)
    case LockTry(_) => Begun(LockOp)
    case LockSpin(_) => Begun(LockOp)
    case UnlockFast => Begun(UnlockOp)
    case UnlockLoad => Begun(UnlockOp)
    case UnlockFree(_) => Begun(UnlockOp)
    case PostCount => Begun(PostOp)
    case PostLoad => Counted(PostOp)
    case PostSpin(_) => Counted(PostOp)
    case PopRead(_, _) => Pops(p)
    case PopCas(_, _, _) => Pops(p)
    case NotifyOne(_) => Notifying(if p.kind.Mutex? then UnlockOp else PostOp)
    case ChainRead(_, _) => Notifying(SetOp)
    case ChainNotify(_, _, _) => Notifying(SetOp)
    case SetUnlock => Over(SetOp, true)
    case ResetAnd => Begun(ResetOp)
    case Ret(op, result) => Over(op, result)
    case AssertFailed => Outside
    case _ => if RemoveTarget(pc) != NULL then Begun(RemoveOp(RemoveTarget(pc))) else Begun(SetOp)
  }

  /** A semaphore's AddWaiter has lowered the count before it touches the list. */
  function Adds(p: Params, w: Node): Stage {
    if p.kind.Semaphore? then Counted(AddOp(w)) else Begun(AddOp(w))
  }

  function Pops(p: Params): Stage {
    if p.kind.Mutex? then Begun(UnlockOp) else Counted(PostOp)
  }

  /** The callbacks this thread has yet to run. */
  function RestOf(pc: Pc): seq<Node> {
    match pc
    case NotifyOne(w) => [w]
    case ChainRead(rest, _) => rest
    case ChainNotify(rest, _, _) => rest
    case _ => []
  }

  /** What a local copy of the word, read unlocked at version `seen`, still says. */
  ghost predicate Snapshot(p: Params, sh: Shared, head: Word, seen: nat) {
    && p.tags > 0
    && head.ptr != NULL && !head.lock
    && seen <= sh.bumps
    && (seen == sh.bumps ==> sh.word.ptr == head.ptr && !sh.word.lock)
    && (sh.base <= seen ==> head.tag == (seen - sh.base) % p.tags)
  }

  /** The scan has reached `cur` without meeting `w`. */
  ghost predicate Reached(list: seq<Node>, w: Node, cur: Node) {
    && cur in list
    && (forall i, j :: 0 <= j <= i < |list| && list[i] == cur ==> list[j] != w)
  }

  ghost predicate ChainOk(sh: Shared, t: Tid, rest: seq<Node>) {
    && Linked(sh.next, rest)
    && Distinct(rest)
    && (forall w :: w in rest ==> StatusOf(sh, w) == Claimed(t))
  }

  ghost predicate PointOk(p: Params, sh: Shared, t: Tid, pc: Pc) {
    match pc
    case Idle => true
    case AddLower(w) => w != NULL && StatusOf(sh, w) == Adding(t) && p.kind.Semaphore?
    case AddLoad(w) => w != NULL && StatusOf(sh, w) == Adding(t) && !p.kind.Mutex?
    case AddTake(w) => w != NULL && StatusOf(sh, w) == Adding(t) && p.kind.Mutex?
    case AddLink(w, head) => w != NULL && StatusOf(sh, w) == Adding(t) && !head.user
    case AddCas(w, head) =>
      w != NULL && StatusOf(sh, w) == Adding(t) && !head.user && Next(sh.next, w) == head.ptr
    case RmLoad(w) => true
    case RmRead(w, head, seen) =>
      head.ptr == w && Snapshot(p, sh, head, seen) && (w in sh.list ==> sh.base <= seen)
    case RmPop(w, head, nxt, seen) =>
      && head.ptr == w && Snapshot(p, sh, head, seen) && (w in sh.list ==> sh.base <= seen)
      && (seen == sh.bumps ==> Next(sh.next, w) == nxt)
    case RmLock(w, head) => head.ptr != NULL && head.ptr != w && !head.lock
    case ScanTest(w, cur) => Reached(sh.list, w, cur)
    case ScanCompare(w, cur) => Reached(sh.list, w, cur) && Next(sh.next, cur) != NULL
    case ScanAdvance(w, cur) =>
      Reached(sh.list, w, cur) && Next(sh.next, cur) != NULL && Next(sh.next, cur) != w
    case UnlinkRead(w, cur) => Reached(sh.list, w, cur) && Next(sh.next, cur) == w
    case UnlinkWrite(w, cur, nxt) =>
      Reached(sh.list, w, cur) && Next(sh.next, cur) == w && Next(sh.next, w) == nxt
    case RmUnlock(w, _) => sh.list != [] && w !in sh.list
    case LockTry(_) => p.kind.Mutex?
    case LockSpin(_) => p.kind.Mutex?
    case UnlockFast => p.kind.Mutex?
    case UnlockLoad => p.kind.Mutex?
    case UnlockFree(head) => p.kind.Mutex? && head.ptr == NULL && !head.lock && !head.user
    case PostCount => p.kind.Semaphore?
    case PostLoad => p.kind.Semaphore?
    case PostSpin(_) => p.kind.Semaphore?
    case PopRead(head, seen) =>
      !p.kind.Event? && Snapshot(p, sh, head, seen) && sh.base <= seen
    case PopCas(head, nxt, seen) =>
      && !p.kind.Event? && Snapshot(p, sh, head, seen) && sh.base <= seen
      && (seen == sh.bumps ==> Next(sh.next, head.ptr) == nxt)
    case NotifyOne(w) =>
      && !p.kind.Event? && StatusOf(sh, w) == Claimed(t)
      && (p.kind.Mutex? ==> sh.own == Granted(w))
    case SetLoad => p.kind.Event?
    case SetSpin(_) => p.kind.Event?
    case SetFlagCas(head) => p.kind.Event? && head.ptr == NULL && !head.lock && !head.user
    case SetDetach(head) => p.kind.Event? && head.ptr != NULL && !head.lock && !head.user
    case ChainRead(rest, cur) =>
      p.kind.Event? && ChainOk(sh, t, rest) && cur == HeadOf(rest)
    case ChainNotify(rest, cur, nxt) =>
      && p.kind.Event? && ChainOk(sh, t, rest)
      && rest != [] && cur == rest[0] && nxt == HeadOf(rest[1..])
    case SetUnlock => p.kind.Event?
    case ResetAnd => p.kind.Event?
    case Ret(_, _) => true
    case AssertFailed => false
  }

  predicate Removing(pc: Pc) {
    pc.RmLoad? || pc.RmRead? || pc.RmPop? || pc.RmLock? || pc.ScanTest? || pc.ScanCompare?
    || pc.ScanAdvance? || pc.UnlinkRead? || pc.UnlinkWrite? || pc.RmUnlock?
  }

  ghost predicate ThreadOk(p: Params, sh: Shared, t: Tid, pc: Pc) {
    && PointOk(p, sh, t, pc)
    && (HoldsLock(pc) ==> sh.word.lock && sh.locker == t)
    && (InUnlock(p, pc) ==> sh.own == Holder(t))
    && (Removing(pc) ==> RemoveTarget(pc) != NULL && !StatusOf(sh, RemoveTarget(pc)).Adding?)
  }

  /** When an effect of thread `t` is safe. */
  ghost predicate EffectOk(p: Params, sh: Shared, t: Tid, e: Effect) {
    match e
    case NoEffect => true
    case BeginAdd(w) => w != NULL && StatusOf(sh, w).Free?
    case AbortAdd(w) => StatusOf(sh, w) == Adding(t)
    case Link(w, v) => StatusOf(sh, w) == Adding(t)
    case PushHead(w) =>
      && w != NULL && StatusOf(sh, w) == Adding(t)
      && Next(sh.next, w) == sh.word.ptr && !sh.word.user
    case TakeHead(w, v, claim) =>
      && sh.list != [] && sh.list[0] == w && v == Next(sh.next, w) && !sh.word.lock
      && (claim ==> !p.kind.Event? && (p.kind.Mutex? ==> sh.own == Holder(t)))
    case SetLock => !sh.word.lock && sh.list != []
    case Unlink(w, cur, v) =>
      && sh.word.lock && sh.locker == t
      && w != NULL && cur in sh.list && Next(sh.next, cur) == w && v == Next(sh.next, w)
    case ClearLock => sh.word.lock && sh.locker == t
    case SetFlag => p.kind.Event? && sh.list == [] && !sh.word.lock && !sh.word.user
    case Detach => p.kind.Event? && sh.list != [] && !sh.word.lock && !sh.word.user
    case ClearFlag => p.kind.Event?
    case Notified(w) =>
      && StatusOf(sh, w) == Claimed(t)
      && (p.kind.Mutex? ==> sh.own == Granted(w))
    case TakeFree => p.kind.Mutex? && sh.word.user
    case TakeFreeFor(w) => p.kind.Mutex? && sh.word.user && StatusOf(sh, w) == Adding(t)
    case MakeFree => p.kind.Mutex? && sh.own == Holder(t) && sh.list == [] && !sh.word.lock
    case Resume => p.kind.Mutex? && sh.own.Woken?
    case Scribble(w, v) => StatusOf(sh, w).Free?
    case AddCount(d) => true
    case LowerFor(w) => StatusOf(sh, w) == Adding(t)
  }

  lemma KeepsShared(p: Params, sh: Shared, t: Tid, e: Effect)
    requires SharedOk(p, sh) && EffectOk(p, sh, t, e)
    ensures SharedOk(p, ApplyEffect(p, sh, t, e))
  {
    if e.PushHead? {
      KeepsPush(p, sh, t, e.w);
    } else if e.TakeHead? {
      KeepsTake(p, sh, t, e);
    } else if e.Unlink? {
      KeepsUnlink(p, sh, t, e);
    } else if e.SetLock? || e.SetFlag? || e.Detach? {
      KeepsBump(p, sh, t, e);
    } else if e.Link? || e.Scribble? {
      LinkedFrame(sh.next, sh.list, e.w, e.v);
    } else {
      KeepsPlain(p, sh, t, e);
    }
  }

  lemma KeepsBump(p: Params, sh: Shared, t: Tid, e: Effect)
    requires SharedOk(p, sh) && EffectOk(p, sh, t, e) && (e.SetLock? || e.SetFlag? || e.Detach?)
    ensures SharedOk(p, ApplyEffect(p, sh, t, e))
  {
    TagAdvances(sh.bumps - sh.base, p.tags);
  }

  lemma KeepsPlain(p: Params, sh: Shared, t: Tid, e: Effect)
    requires SharedOk(p, sh) && EffectOk(p, sh, t, e)
    requires e.NoEffect? || e.BeginAdd? || e.AbortAdd? || e.ClearLock? || e.ClearFlag? || e.Notified?
      || e.TakeFree? || e.TakeFreeFor? || e.MakeFree? || e.Resume? || e.AddCount? || e.LowerFor?
    ensures SharedOk(p, ApplyEffect(p, sh, t, e))
  {
    if e.ClearLock? || e.ClearFlag? || e.TakeFree? || e.MakeFree? || e.Resume? {
      KeepsWord(p, sh, t, e);
    } else if e.TakeFreeFor? {
      KeepsStatus(p, sh, t, AbortAdd(e.w));
      KeepsWord(p, ApplyEffect(p, sh, t, AbortAdd(e.w)), t, TakeFree);
    } else {
      KeepsStatus(p, sh, t, e);
    }
  }

  lemma KeepsWord(p: Params, sh: Shared, t: Tid, e: Effect)
    requires SharedOk(p, sh) && EffectOk(p, sh, t, e)
    requires e.ClearLock? || e.ClearFlag? || e.TakeFree? || e.MakeFree? || e.Resume?
    ensures SharedOk(p, ApplyEffect(p, sh, t, e))
  {
  }

  lemma KeepsStatus(p: Params, sh: Shared, t: Tid, e: Effect)
    requires SharedOk(p, sh) && EffectOk(p, sh, t, e)
    requires e.NoEffect? || e.BeginAdd? || e.AbortAdd? || e.Notified? || e.AddCount? || e.LowerFor?
    ensures SharedOk(p, ApplyEffect(p, sh, t, e))
  {
  }

  lemma KeepsPush(p: Params, sh: Shared, t: Tid, w: Node)
    requires SharedOk(p, sh) && EffectOk(p, sh, t, PushHead(w))
    ensures SharedOk(p, ApplyEffect(p, sh, t, PushHead(w)))
  {
    TagAdvances(sh.bumps - sh.base, p.tags);
    LinkedPush(sh.next, sh.list, w);
    hide Linked;
  }

  lemma KeepsTake(p: Params, sh: Shared, t: Tid, e: Effect)
    requires SharedOk(p, sh) && EffectOk(p, sh, t, e) && e.TakeHead?
    ensures SharedOk(p, ApplyEffect(p, sh, t, e))
  {
    TagAdvances(sh.bumps - sh.base, p.tags);
    LinkedTail(sh.next, sh.list);
    TailMembers(sh.list);
  }

  lemma KeepsUnlink(p: Params, sh: Shared, t: Tid, e: Effect)
    requires SharedOk(p, sh) && EffectOk(p, sh, t, e) && e.Unlink?
    ensures SharedOk(p, ApplyEffect(p, sh, t, e))
  {
    UnlinkChain(sh.next, sh.list, e.cur, e.w);
    WithoutDistinct(sh.list, e.w);
  }

  lemma Frame(p: Params, sh: Shared, t: Tid, e: Effect, u: Tid, pc: Pc)
    requires SharedOk(p, sh) && EffectOk(p, sh, t, e)
    requires u != t && ThreadOk(p, sh, u, pc)
    requires e.BeginAdd? ==> RemoveTarget(pc) != e.w
    ensures ThreadOk(p, ApplyEffect(p, sh, t, e), u, pc)
  {
    if e.PushHead? {
      FramePush(p, sh, t, e.w, u, pc);
    } else if e.TakeHead? {
      FrameTake(p, sh, t, e, u, pc);
    } else if e.Unlink? {
      FrameUnlink(p, sh, t, e, u, pc);
    } else if e.Detach? {
      FrameDetach(p, sh, t, u, pc);
    } else {
      FrameSmall(p, sh, t, e, u, pc);
    }
  }

  lemma FrameSmall(p: Params, sh: Shared, t: Tid, e: Effect, u: Tid, pc: Pc)
    requires SharedOk(p, sh) && EffectOk(p, sh, t, e)
    requires !e.PushHead? && !e.TakeHead? && !e.Unlink? && !e.Detach?
    requires u != t && ThreadOk(p, sh, u, pc)
    requires e.BeginAdd? ==> RemoveTarget(pc) != e.w
    ensures ThreadOk(p, ApplyEffect(p, sh, t, e), u, pc)
  {
    if e.BeginAdd? || e.AbortAdd? || e.LowerFor? {
      FrameAdd(p, sh, t, e, u, pc);
    } else if e.Link? || e.Scribble? {
      FrameWrite(p, sh, t, e, u, pc);
    } else if e.TakeFreeFor? || e.Notified? || e.AddCount? || e.NoEffect? {
      FrameRest(p, sh, t, e, u, pc);
    } else {
      FrameWord(p, sh, t, e, u, pc);
    }
  }

  lemma FrameRest(p: Params, sh: Shared, t: Tid, e: Effect, u: Tid, pc: Pc)
    requires SharedOk(p, sh) && EffectOk(p, sh, t, e)
    requires e.TakeFreeFor? || e.Notified? || e.AddCount? || e.NoEffect?
    requires u != t && ThreadOk(p, sh, u, pc)
    ensures ThreadOk(p, ApplyEffect(p, sh, t, e), u, pc)
  {
    if e.TakeFreeFor? {
      FrameTakeFor(p, sh, t, e.w, u, pc);
    } else if e.Notified? {
      FrameNotified(p, sh, t, e.w, u, pc);
    } else if e.AddCount? {
      FrameCount(p, sh, t, e.d, u, pc);
    }
  }

  lemma FrameCount(p: Params, sh: Shared, t: Tid, d: int, u: Tid, pc: Pc)
    requires p.tags > 0 && ThreadOk(p, sh, u, pc)
    ensures ThreadOk(p, ApplyEffect(p, sh, t, AddCount(d)), u, pc)
  {
  }

  lemma FrameAdd(p: Params, sh: Shared, t: Tid, e: Effect, u: Tid, pc: Pc)
    requires SharedOk(p, sh) && EffectOk(p, sh, t, e) && (e.BeginAdd? || e.AbortAdd? || e.LowerFor?)
    requires u != t && ThreadOk(p, sh, u, pc)
    requires e.BeginAdd? ==> RemoveTarget(pc) != e.w
    ensures ThreadOk(p, ApplyEffect(p, sh, t, e), u, pc)
  {
    if !e.BeginAdd? {
      FrameHandBack(p, sh, t, e, u, pc);
    }
  }

  lemma FrameHandBack(p: Params, sh: Shared, t: Tid, e: Effect, u: Tid, pc: Pc)
    requires SharedOk(p, sh) && EffectOk(p, sh, t, e) && (e.AbortAdd? || e.LowerFor?)
    requires u != t && ThreadOk(p, sh, u, pc)
    ensures ThreadOk(p, ApplyEffect(p, sh, t, e), u, pc)
  {
  }

  lemma FrameTakeFor(p: Params, sh: Shared, t: Tid, w: Node, u: Tid, pc: Pc)
    requires SharedOk(p, sh) && EffectOk(p, sh, t, TakeFreeFor(w))
    requires u != t && ThreadOk(p, sh, u, pc)
    ensures ThreadOk(p, ApplyEffect(p, sh, t, TakeFreeFor(w)), u, pc)
  {
    FrameAdd(p, sh, t, AbortAdd(w), u, pc);
    FrameWord(p, ApplyEffect(p, sh, t, AbortAdd(w)), t, TakeFree, u, pc);
  }

  lemma FrameWord(p: Params, sh: Shared, t: Tid, e: Effect, u: Tid, pc: Pc)
    requires SharedOk(p, sh) && EffectOk(p, sh, t, e)
    requires e.SetLock? || e.ClearLock? || e.SetFlag? || e.ClearFlag? || e.TakeFree? || e.MakeFree? || e.Resume?
    requires u != t && ThreadOk(p, sh, u, pc)
    ensures ThreadOk(p, ApplyEffect(p, sh, t, e), u, pc)
  {
    if e.SetLock? || e.SetFlag? {
      FrameBump(p, sh, t, e, u, pc);
    } else if e.ClearLock? || e.ClearFlag? {
      FrameClear(p, sh, t, e, u, pc);
    } else {
      FrameOwner(p, sh, t, e, u, pc);
    }
  }

  lemma FrameBump(p: Params, sh: Shared, t: Tid, e: Effect, u: Tid, pc: Pc)
    requires SharedOk(p, sh) && EffectOk(p, sh, t, e) && (e.SetLock? || e.SetFlag?)
    requires u != t && ThreadOk(p, sh, u, pc)
    ensures ThreadOk(p, ApplyEffect(p, sh, t, e), u, pc)
  {
  }

  lemma FrameClear(p: Params, sh: Shared, t: Tid, e: Effect, u: Tid, pc: Pc)
    requires SharedOk(p, sh) && EffectOk(p, sh, t, e) && (e.ClearLock? || e.ClearFlag?)
    requires u != t && ThreadOk(p, sh, u, pc)
    ensures ThreadOk(p, ApplyEffect(p, sh, t, e), u, pc)
  {
  }

  lemma FrameOwner(p: Params, sh: Shared, t: Tid, e: Effect, u: Tid, pc: Pc)
    requires SharedOk(p, sh) && EffectOk(p, sh, t, e) && (e.TakeFree? || e.MakeFree? || e.Resume?)
    requires u != t && ThreadOk(p, sh, u, pc)
    ensures ThreadOk(p, ApplyEffect(p, sh, t, e), u, pc)
  {
  }

  lemma FrameWrite(p: Params, sh: Shared, t: Tid, e: Effect, u: Tid, pc: Pc)
    requires SharedOk(p, sh) && EffectOk(p, sh, t, e) && (e.Link? || e.Scribble?)
    requires u != t && ThreadOk(p, sh, u, pc)
    ensures ThreadOk(p, ApplyEffect(p, sh, t, e), u, pc)
  {
    if pc.ChainRead? || pc.ChainNotify? {
      LinkedFrame(sh.next, RestOf(pc), e.w, e.v);
    } else {
      FrameWriteRest(p, sh, t, e, u, pc);
    }
  }

  lemma FrameWriteRest(p: Params, sh: Shared, t: Tid, e: Effect, u: Tid, pc: Pc)
    requires SharedOk(p, sh) && EffectOk(p, sh, t, e) && (e.Link? || e.Scribble?)
    requires u != t && ThreadOk(p, sh, u, pc) && !pc.ChainRead? && !pc.ChainNotify?
    ensures ThreadOk(p, ApplyEffect(p, sh, t, e), u, pc)
  {
    if HoldsLock(pc) {
      FrameWriteLocked(p, sh, t, e, u, pc);
    }
  }

  lemma FrameWriteLocked(p: Params, sh: Shared, t: Tid, e: Effect, u: Tid, pc: Pc)
    requires SharedOk(p, sh) && EffectOk(p, sh, t, e) && (e.Link? || e.Scribble?)
    requires u != t && ThreadOk(p, sh, u, pc) && !pc.ChainRead? && !pc.ChainNotify? && HoldsLock(pc)
    ensures ThreadOk(p, ApplyEffect(p, sh, t, e), u, pc)
  {
  }

  lemma FramePush(p: Params, sh: Shared, t: Tid, w: Node, u: Tid, pc: Pc)
    requires SharedOk(p, sh) && EffectOk(p, sh, t, PushHead(w))
    requires u != t && ThreadOk(p, sh, u, pc)
    ensures ThreadOk(p, ApplyEffect(p, sh, t, PushHead(w)), u, pc)
  {
    if HoldsLock(pc) {
      FramePushLocked(p, sh, t, w, u, pc);
    }
  }

  lemma FramePushLocked(p: Params, sh: Shared, t: Tid, w: Node, u: Tid, pc: Pc)
    requires SharedOk(p, sh) && EffectOk(p, sh, t, PushHead(w))
    requires u != t && ThreadOk(p, sh, u, pc) && HoldsLock(pc)
    ensures ThreadOk(p, ApplyEffect(p, sh, t, PushHead(w)), u, pc)
  {
  }

  lemma FrameTake(p: Params, sh: Shared, t: Tid, e: Effect, u: Tid, pc: Pc)
    requires SharedOk(p, sh) && EffectOk(p, sh, t, e) && e.TakeHead?
    requires u != t && ThreadOk(p, sh, u, pc)
    ensures ThreadOk(p, ApplyEffect(p, sh, t, e), u, pc)
  {
    TailMembers(sh.list);
  }

  lemma FrameUnlink(p: Params, sh: Shared, t: Tid, e: Effect, u: Tid, pc: Pc)
    requires SharedOk(p, sh) && EffectOk(p, sh, t, e) && e.Unlink?
    requires u != t && ThreadOk(p, sh, u, pc)
    ensures ThreadOk(p, ApplyEffect(p, sh, t, e), u, pc)
  {
    assert !HoldsLock(pc);
    UnlinkChain(sh.next, sh.list, e.cur, e.w);
    if pc.RmRead? || pc.RmPop? || pc.PopRead? || pc.PopCas? {
      FrameUnlinkPop(p, sh, t, e, u, pc);
    } else {
      FrameUnlinkRest(p, sh, t, e, u, pc);
    }
  }

  lemma FrameUnlinkPop(p: Params, sh: Shared, t: Tid, e: Effect, u: Tid, pc: Pc)
    requires SharedOk(p, sh) && EffectOk(p, sh, t, e) && e.Unlink? && e.w in sh.list
    requires u != t && ThreadOk(p, sh, u, pc) && (pc.RmRead? || pc.RmPop? || pc.PopRead? || pc.PopCas?)
    ensures ThreadOk(p, ApplyEffect(p, sh, t, e), u, pc)
  {
    WithoutDistinct(sh.list, e.w);
  }

  lemma FrameUnlinkRest(p: Params, sh: Shared, t: Tid, e: Effect, u: Tid, pc: Pc)
    requires SharedOk(p, sh) && EffectOk(p, sh, t, e) && e.Unlink? && e.w in sh.list
    requires u != t && ThreadOk(p, sh, u, pc) && !HoldsLock(pc)
    requires !(pc.RmRead? || pc.RmPop? || pc.PopRead? || pc.PopCas?)
    ensures ThreadOk(p, ApplyEffect(p, sh, t, e), u, pc)
  {
  }

  lemma FrameDetach(p: Params, sh: Shared, t: Tid, u: Tid, pc: Pc)
    requires SharedOk(p, sh) && EffectOk(p, sh, t, Detach)
    requires u != t && ThreadOk(p, sh, u, pc)
    ensures ThreadOk(p, ApplyEffect(p, sh, t, Detach), u, pc)
  {
  }

  lemma FrameNotified(p: Params, sh: Shared, t: Tid, w: Node, u: Tid, pc: Pc)
    requires SharedOk(p, sh) && EffectOk(p, sh, t, Notified(w))
    requires u != t && ThreadOk(p, sh, u, pc)
    ensures ThreadOk(p, ApplyEffect(p, sh, t, Notified(w)), u, pc)
  {
  }
}
