/** Event, Mutex and Semaphore as an interleaving machine: any number of threads, one
    access to a shared location per step, sequentially consistent.  The three share the
    waiter list packed into one word, so they are one machine with a `Kind`. */
module WaiterProtocol {
  import opened Sequences
  import opened Chains
  import opened WaiterSpec

  /** `tags` is the number of distinct tags, 2^16 or 2^30. */
  datatype Params = Params(kind: Kind, tags: nat)

  /** The atomic word: head pointer, user flag (event set / mutex free), lock bit, tag. */
  datatype Word = Word(ptr: Node, user: bool, lock: bool, tag: nat)

  const FREE: Word := Word(NULL, true, false, 0)
  const LOCKED: Word := Word(NULL, false, false, 0)

  /** Where a waiter is. */
  datatype Status = Free | Adding(tid: Tid) | Listed | Claimed(tid: Tid)

  /** `word`, `next` and `count` are the program's memory.  The other fields record
      history and are never read by a program step: the list the word stands for, the
      status of each waiter, the number of tag bumps so far (`bumps`) and when the tag
      was last reset to zero (`base`), the last thread to take the lock bit, and the
      mutex owner. */
  datatype Shared = Shared(
    word: Word,
    next: Heap,
    count: int,
    list: seq<Node>,
    st: map<Node, Status>,
    bumps: nat,
    base: nat,
    locker: Tid,
    own: Owner)

  function StatusOf(sh: Shared, w: Node): Status {
    if w in sh.st then sh.st[w] else Free
  }

  /** Program points.  `head` is the local copy of the word and `seen` the value of
      `bumps` when it was read; `rest` is the part of a detached chain still to notify. */
  datatype Pc =
    | Idle
    // AddWaiter
    | AddLower(w: Node)
    | AddLoad(w: Node)
    | AddTake(w: Node)
    | AddLink(w: Node, head: Word)
    | AddCas(w: Node, head: Word)
    // RemoveWaiter
    | RmLoad(w: Node)
    | RmRead(w: Node, head: Word, seen: nat)
    | RmPop(w: Node, head: Word, nxt: Node, seen: nat)
    | RmLock(w: Node, head: Word)
    | ScanTest(w: Node, cur: Node)
    | ScanCompare(w: Node, cur: Node)
    | ScanAdvance(w: Node, cur: Node)
    | UnlinkRead(w: Node, cur: Node)
    | UnlinkWrite(w: Node, cur: Node, nxt: Node)
    | RmUnlock(w: Node, removed: bool)
    // Mutex::Lock
    | LockTry(spin: nat)
    | LockSpin(spin: nat)
    // Mutex::Unlock and Semaphore::Post
    | UnlockFast
    | UnlockLoad
    | UnlockFree(head: Word)
    | PostCount
    | PostLoad
    | PostSpin(head: Word)
    | PopRead(head: Word, seen: nat)
    | PopCas(head: Word, nxt: Node, seen: nat)
    | NotifyOne(w: Node)
    // Event::Set
    | SetLoad
    | SetSpin(head: Word)
    | SetFlagCas(head: Word)
    | SetDetach(head: Word)
    | ChainRead(rest: seq<Node>, cur: Node)
    | ChainNotify(rest: seq<Node>, cur: Node, nxt: Node)
    | SetUnlock
    // Event::Reset
    | ResetAnd
    // the call has only to return
    | Ret(op: Op, result: bool)
    // a CRUNCH_ASSERT of the code failed
    | AssertFailed

  datatype Command =
    | Advance
    | CallAdd(w: Node)
    | CallRemove(w: Node)
    | CallLock(spin: nat)
    | CallUnlock
    | CallTakeOver
    | CallPost
    | CallSet
    | CallReset
    | Reuse(w: Node, v: Node)

  datatype State = State(sh: Shared, pcs: map<Tid, Pc>, log: seq<Action>)

  function PcOf(s: State, t: Tid): Pc {
    if t in s.pcs then s.pcs[t] else Idle
  }

  /** The waiter a running RemoveWaiter is after. */
  function RemoveTarget(pc: Pc): Node {
    match pc
    case RmLoad(w) => w
    case RmRead(w, _, _) => w
    case RmPop(w, _, _, _) => w
    case RmLock(w, _) => w
    case ScanTest(w, _) => w
    case ScanCompare(w, _) => w
    case ScanAdvance(w, _) => w
    case UnlinkRead(w, _) => w
    case UnlinkWrite(w, _, _) => w
    case RmUnlock(w, _) => w
    case _ => NULL
  }

  // ---- Effects of a step on the shared state ----

  datatype Effect =
    | NoEffect
    | BeginAdd(w: Node)
    | AbortAdd(w: Node)
    | Link(w: Node, v: Node)                 // w->next = v
    | PushHead(w: Node)                      // CAS to w, tag bumped
    | TakeHead(w: Node, v: Node, claim: bool)  // CAS from w to v, tag bumped
    | SetLock                                // CAS to the same pointer with the lock bit, tag bumped
    | Unlink(w: Node, cur: Node, v: Node)    // cur->next = v
    | ClearLock                              // And(~LOCK_BIT)
    | SetFlag                                // CAS to the same word with the flag, tag bumped
    | Detach                                 // CAS to null with flag and lock bit, tag bumped
    | ClearFlag                              // And(~flag)
    | Notified(w: Node)
    | TakeFree                               // CAS to 0
    | TakeFreeFor(w: Node)                   // the same in AddWaiter, which hands its waiter back
    | MakeFree                               // CAS to the free word
    | Resume
    | Scribble(w: Node, v: Node)             // whoever owns a free waiter writes its next field
    | AddCount(d: int)
    | LowerFor(w: Node)                      // the count falls and AddWaiter hands its waiter back

  function Bumped(p: Params, sh: Shared, word: Word): Shared
    requires p.tags > 0
  {
    sh.(word := word.(tag := (sh.word.tag + 1) % p.tags), bumps := sh.bumps + 1)
  }

  function ClaimAll(st: map<Node, Status>, list: seq<Node>, t: Tid): map<Node, Status> {
    st + map w | w in list :: Claimed(t)
  }

  function ApplyEffect(p: Params, sh: Shared, t: Tid, e: Effect): Shared
    requires p.tags > 0
  {
    match e
    case NoEffect => sh
    case BeginAdd(w) => sh.(st := sh.st[w := Adding(t)])
    case AbortAdd(w) => sh.(st := sh.st[w := Free])
    case Link(w, v) => sh.(next := sh.next[w := v])
    case PushHead(w) =>
      Bumped(p, sh, sh.word.(ptr := w)).(list := [w] + sh.list, st := sh.st[w := Listed])
    case TakeHead(w, v, claim) =>
      Bumped(p, sh, sh.word.(ptr := v)).(
        list := Tail(sh.list),
        st := sh.st[w := if claim then Claimed(t) else Free],
        own := if claim && p.kind.Mutex? then Granted(w) else sh.own)
    case SetLock => Bumped(p, sh, sh.word.(lock := true)).(locker := t)
    case Unlink(w, cur, v) =>
      sh.(next := sh.next[cur := v], list := Without(sh.list, w), st := sh.st[w := Free])
    case ClearLock => sh.(word := sh.word.(lock := false))
    case SetFlag => Bumped(p, sh, sh.word.(user := true))
    case Detach =>
      Bumped(p, sh, Word(NULL, true, true, sh.word.tag)).(
        list := [], st := ClaimAll(sh.st, sh.list, t), locker := t)
    case ClearFlag => sh.(word := sh.word.(user := false))
    case Notified(w) =>
      sh.(st := sh.st[w := Free], own := if p.kind.Mutex? then Woken else sh.own)
    case TakeFree => sh.(word := LOCKED, own := Holder(t))
    case TakeFreeFor(w) => sh.(word := LOCKED, own := Holder(t), st := sh.st[w := Free])
    case MakeFree => sh.(word := FREE, base := sh.bumps, own := Nobody)
    case Resume => sh.(own := Holder(t))
    case Scribble(w, v) => sh.(next := sh.next[w := v])
    case AddCount(d) => sh.(count := sh.count + d)
    case LowerFor(w) => sh.(count := sh.count - 1, st := sh.st[w := Free])
  }

  // ---- The program ----

  datatype Outcome = Outcome(eff: Effect, pc: Pc, acts: seq<Action>)

  function Goto(pc: Pc): Outcome {
    Outcome(NoEffect, pc, [])
  }

  /** AddWaiter has a fresh copy of the word. */
  function AddSees(p: Params, t: Tid, w: Node, head: Word): Outcome {
    if p.kind.Event? && head.user then
      Outcome(AbortAdd(w), Ret(AddOp(w), false), [Refuse(t, w)])
    else if p.kind.Mutex? && head.user then
      Goto(if head == FREE then AddTake(w) else AssertFailed)
    else
      Goto(AddLink(w, head))
  }

  /** RemoveWaiter has a fresh copy of the word. */
  function RemoveSees(t: Tid, w: Node, head: Word, seen: nat): Outcome {
    if head.ptr == NULL then Outcome(NoEffect, Ret(RemoveOp(w), false), [Absent(t, w)])
    else if head.lock then Goto(RmLoad(w))
    else if head.ptr == w then Goto(RmRead(w, head, seen))
    else Goto(RmLock(w, head))
  }

  function UnlockSees(head: Word, seen: nat): Outcome {
    if head.user then Goto(AssertFailed)
    else if head.ptr == NULL then Goto(if head.lock then AssertFailed else UnlockFree(head))
    else if head.lock then Goto(UnlockLoad)
    else Goto(PopRead(head, seen))
  }

  function PostSees(t: Tid, head: Word, seen: nat): Outcome {
    if head.ptr == NULL then Outcome(NoEffect, Ret(PostOp, true), [PostEmpty(t)])
    else if head.lock then Goto(PostSpin(head))
    else Goto(PopRead(head, seen))
  }

  function SetSees(t: Tid, head: Word): Outcome {
    if head.user then Outcome(NoEffect, Ret(SetOp, true), [AlreadySet(t)])
    else if head.lock then Goto(SetSpin(head))
    else if head.ptr == NULL then Goto(SetFlagCas(head))
    else Goto(SetDetach(head))
  }

  function StepAdd(p: Params, sh: Shared, t: Tid, pc: Pc): Outcome
    requires pc.AddLower? || pc.AddLoad? || pc.AddTake? || pc.AddLink? || pc.AddCas?
  {
    match pc
    case AddLower(w) =>
      if sh.count > 0 then Outcome(LowerFor(w), Ret(AddOp(w), false), [Lowered(t, sh.count)])
      else Outcome(AddCount(-1), AddLoad(w), [Lowered(t, sh.count)])
    case AddLoad(w) => AddSees(p, t, w, sh.word)
    case AddTake(w) =>
      if sh.word == FREE then Outcome(TakeFreeFor(w), Ret(AddOp(w), false), [Acquire(t)])
      else AddSees(p, t, w, sh.word)
    case AddLink(w, head) => Outcome(Link(w, head.ptr), AddCas(w, head), [])
    case AddCas(w, head) =>
      if sh.word == head then Outcome(PushHead(w), Ret(AddOp(w), true), [Push(t, w)])
      else AddSees(p, t, w, sh.word)
  }

  function StepRemove(sh: Shared, t: Tid, pc: Pc): Outcome
    requires RemoveTarget(pc) != NULL
  {
    match pc
    case RmLoad(w) => RemoveSees(t, w, sh.word, sh.bumps)
    case RmRead(w, head, seen) => Goto(RmPop(w, head, Next(sh.next, w), seen))
    case RmPop(w, head, nxt, seen) =>
      if sh.word == head then Outcome(TakeHead(w, nxt, false), Ret(RemoveOp(w), true), [Remove(t, w)])
      else RemoveSees(t, w, sh.word, sh.bumps)
    case RmLock(w, head) =>
      if sh.word == head then
        Outcome(SetLock, if head.ptr == w then AssertFailed else ScanTest(w, head.ptr), [])
      else RemoveSees(t, w, sh.word, sh.bumps)
    case ScanTest(w, cur) =>
      if Next(sh.next, cur) != NULL then Goto(ScanCompare(w, cur))
      else Outcome(NoEffect, RmUnlock(w, false), [Absent(t, w)])
    case ScanCompare(w, cur) =>
      Goto(if Next(sh.next, cur) == w then UnlinkRead(w, cur) else ScanAdvance(w, cur))
    case ScanAdvance(w, cur) => Goto(ScanTest(w, Next(sh.next, cur)))
    case UnlinkRead(w, cur) => Goto(UnlinkWrite(w, cur, Next(sh.next, w)))
    case UnlinkWrite(w, cur, nxt) => Outcome(Unlink(w, cur, nxt), RmUnlock(w, true), [Remove(t, w)])
    case RmUnlock(w, removed) => Outcome(ClearLock, Ret(RemoveOp(w), removed), [])
    case _ => Goto(AssertFailed)
  }

  /** Lock found the mutex held: spin on, or go on to WaitFor. */
  function LockMisses(t: Tid, spin: nat): Outcome {
    if spin > 0 then Goto(LockSpin(spin - 1)) else Outcome(NoEffect, Ret(LockOp, false), [Busy(t)])
  }

  function StepLock(sh: Shared, t: Tid, pc: Pc): Outcome
    requires pc.LockTry? || pc.LockSpin?
  {
    match pc
    case LockTry(spin) =>
      if sh.word == FREE then Outcome(TakeFree, Ret(LockOp, true), [Acquire(t)])
      else LockMisses(t, spin)
    case LockSpin(spin) => if sh.word == FREE then Goto(LockTry(spin)) else LockMisses(t, spin)
  }

  function StepPop(p: Params, sh: Shared, t: Tid, pc: Pc): Outcome
    requires pc.UnlockFast? || pc.UnlockLoad? || pc.UnlockFree? || pc.PostCount? || pc.PostLoad?
          || pc.PostSpin? || pc.PopRead? || pc.PopCas? || pc.NotifyOne?
  {
    match pc
    case UnlockFast =>
      if sh.word == LOCKED then Outcome(MakeFree, Ret(UnlockOp, true), [Release(t)])
      else UnlockSees(sh.word, sh.bumps)
    case UnlockLoad => UnlockSees(sh.word, sh.bumps)
    case UnlockFree(head) =>
      if sh.word == head then Outcome(MakeFree, Ret(UnlockOp, true), [Release(t)])
      else UnlockSees(sh.word, sh.bumps)
    case PostCount =>
      Outcome(AddCount(1), if sh.count < 0 then PostLoad else Ret(PostOp, true), [Posted(t, sh.count)])
    case PostLoad => PostSees(t, sh.word, sh.bumps)
    case PostSpin(head) => Goto(PostSpin(head))
    case PopRead(head, seen) => Goto(PopCas(head, Next(sh.next, head.ptr), seen))
    case PopCas(head, nxt, seen) =>
      if sh.word == head then
        Outcome(TakeHead(head.ptr, nxt, true), NotifyOne(head.ptr), [Grant(t, head.ptr)])
      else if p.kind.Mutex? then UnlockSees(sh.word, sh.bumps)
      else PostSees(t, sh.word, sh.bumps)
    case NotifyOne(w) =>
      Outcome(Notified(w), Ret(if p.kind.Mutex? then UnlockOp else PostOp, true), [Notify(t, w)])
  }

  function StepSet(sh: Shared, t: Tid, pc: Pc): Outcome
    requires pc.SetLoad? || pc.SetSpin? || pc.SetFlagCas? || pc.SetDetach? || pc.ChainRead?
          || pc.ChainNotify? || pc.SetUnlock?
  {
    match pc
    case SetLoad => SetSees(t, sh.word)
    case SetSpin(head) => Goto(SetSpin(head))
    case SetFlagCas(head) =>
      if sh.word == head then Outcome(SetFlag, Ret(SetOp, true), [TakeAll(t, [])])
      else SetSees(t, sh.word)
    case SetDetach(head) =>
      if sh.word == head then
        Outcome(Detach, ChainRead(sh.list, head.ptr), [TakeAll(t, sh.list)])
      else SetSees(t, sh.word)
    case ChainRead(rest, cur) =>
      if cur == NULL then Outcome(NoEffect, SetUnlock, [SetDone(t)])
      else Goto(ChainNotify(rest, cur, Next(sh.next, cur)))
    case ChainNotify(rest, cur, nxt) =>
      Outcome(Notified(cur), ChainRead(Tail(rest), nxt), [Notify(t, cur)])
    case SetUnlock => Outcome(ClearLock, Ret(SetOp, true), [])
  }

  function StepRunning(p: Params, sh: Shared, t: Tid, pc: Pc): Outcome
    requires !pc.Idle?
  {
    if RemoveTarget(pc) != NULL then StepRemove(sh, t, pc)
    else if pc.LockTry? || pc.LockSpin? then StepLock(sh, t, pc)
    else if pc.AddLower? || pc.AddLoad? || pc.AddTake? || pc.AddLink? || pc.AddCas? then
      StepAdd(p, sh, t, pc)
    else if pc.SetLoad? || pc.SetSpin? || pc.SetFlagCas? || pc.SetDetach? || pc.ChainRead?
         || pc.ChainNotify? || pc.SetUnlock? then StepSet(sh, t, pc)
    else if pc.UnlockFast? || pc.UnlockLoad? || pc.UnlockFree? || pc.PostCount? || pc.PostLoad?
         || pc.PostSpin? || pc.PopRead? || pc.PopCas? || pc.NotifyOne? then StepPop(p, sh, t, pc)
    else if pc.ResetAnd? then Outcome(ClearFlag, Ret(ResetOp, true), [Reset(t)])
    else if pc.Ret? then Outcome(NoEffect, Idle, [Returned(t, pc.op, pc.result)])
    else Goto(AssertFailed)
  }

  function Decide(p: Params, sh: Shared, t: Tid, pc: Pc, c: Command): Outcome
    requires c.Advance? ==> !pc.Idle?
  {
    match c
    case Advance => StepRunning(p, sh, t, pc)
    case CallAdd(w) =>
      Outcome(BeginAdd(w),
              match p.kind case Event => AddLoad(w) case Mutex => AddTake(w) case Semaphore => AddLower(w),
              [Called(t, AddOp(w))])
    case CallRemove(w) => Outcome(NoEffect, RmLoad(w), [Called(t, RemoveOp(w))])
    case CallLock(spin) => Outcome(NoEffect, LockTry(spin), [Called(t, LockOp)])
    case CallUnlock => Outcome(NoEffect, UnlockFast, [Called(t, UnlockOp)])
    case CallTakeOver => Outcome(Resume, Idle, [TakeOver(t)])
    case CallPost => Outcome(NoEffect, PostCount, [Called(t, PostOp)])
    case CallSet => Outcome(NoEffect, SetLoad, [Called(t, SetOp)])
    case CallReset => Outcome(NoEffect, ResetAnd, [Called(t, ResetOp)])
    case Reuse(w, v) => Outcome(Scribble(w, v), pc, [])
  }

  /** A pop's CAS that succeeds does so within one tag window of reading the word. */
  predicate InWindow(p: Params, sh: Shared, pc: Pc) {
    match pc
    case RmPop(_, head, _, seen) => sh.word == head ==> sh.bumps - seen < p.tags
    case PopCas(head, _, seen) => sh.word == head ==> sh.bumps - seen < p.tags
    case _ => true
  }

  /** The contract callers keep: a waiter is added only while it is in no list, not
      claimed, and nobody is removing it; it is removed only after AddWaiter returned;
      only the holder unlocks. */
  ghost predicate Enabled(p: Params, s: State, t: Tid, c: Command) {
    var pc := PcOf(s, t);
    match c
    case Advance => !pc.Idle? && InWindow(p, s.sh, pc)
    case CallAdd(w) =>
      && pc.Idle? && w != NULL && StatusOf(s.sh, w).Free?
      && (forall u :: RemoveTarget(PcOf(s, u)) != w)
    case CallRemove(w) => pc.Idle? && w != NULL && !StatusOf(s.sh, w).Adding?
    case CallLock(_) => pc.Idle? && p.kind.Mutex?
    case CallUnlock => pc.Idle? && p.kind.Mutex? && s.sh.own == Holder(t)
    case CallTakeOver => pc.Idle? && p.kind.Mutex? && s.sh.own.Woken?
    case CallPost => pc.Idle? && p.kind.Semaphore?
    case CallSet => pc.Idle? && p.kind.Event?
    case CallReset => pc.Idle? && p.kind.Event?
    case Reuse(w, _) => StatusOf(s.sh, w).Free?
  }

  function Do(p: Params, s: State, t: Tid, c: Command): State
    requires p.tags > 0
    requires c.Advance? ==> !PcOf(s, t).Idle?
  {
    var o := Decide(p, s.sh, t, PcOf(s, t), c);
    State(ApplyEffect(p, s.sh, t, o.eff), s.pcs[t := o.pc], s.log + o.acts)
  }

  /** The constructors. */
  function Initial(p: Params, isSet: bool, count: nat): State {
    var word := match p.kind
      case Event => if isSet then LOCKED.(user := true) else LOCKED
      case Mutex => FREE
      case Semaphore => LOCKED;
    State(Shared(word, map[], count, [], map[], 0, 0, 0, Nobody), map[], [])
  }
}
