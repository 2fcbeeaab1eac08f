/** Every interleaving of the tagged stacks is a legal sequential history. */
module LifoProofs {
  import opened Numbers
  import opened Sequences
  import opened Chains
  import opened LifoSpec
  import opened Storages
  import opened LifoLists

  ghost predicate ListOk(tags: nat, sh: Shared, l: ListId)
    requires tags > 0
  {
    && RootOf(sh, l).ptr == HeadOf(ItemsOf(sh, l))
    && RootOf(sh, l).tag == BumpsOf(sh, l) % tags
    && Linked(sh.next, ItemsOf(sh, l))
    && Distinct(ItemsOf(sh, l))
    && (forall n :: n in ItemsOf(sh, l) <==> PlaceOf(sh, n) == On(l))
  }

  ghost predicate LocalOk(sh: Shared, t: Tid) {
    && LocalHead(sh, t) == HeadOf(LocalsOf(sh, t))
    && Linked(sh.next, LocalsOf(sh, t))
    && Distinct(LocalsOf(sh, t))
    && (forall n :: n in LocalsOf(sh, t) <==> PlaceOf(sh, n) == Local(t))
  }

  /** Exactly the nodes on the value stack, and some inside a call, hold a value. */
  ghost predicate StoreOk(sh: Shared) {
    && (forall n :: PlaceOf(sh, n) == On(VALUES) ==> SlotOf(sh, n).Full?)
    && (forall n :: SlotOf(sh, n).Full? ==> PlaceOf(sh, n) == On(VALUES) || PlaceOf(sh, n).InCall?)
  }

  ghost predicate SharedOk(tags: nat, sh: Shared) {
    && tags > 0
    && (forall l :: ListOk(tags, sh, l))
    && (forall t :: LocalOk(sh, t))
    && StoreOk(sh)
  }

  ghost predicate Snapshot(tags: nat, sh: Shared, l: ListId, root: Root, seen: nat)
    requires tags > 0
  {
    && root.ptr != NULL
    && seen <= BumpsOf(sh, l)
    && (seen == BumpsOf(sh, l) ==> RootOf(sh, l) == root)
    && (seen + 1 == BumpsOf(sh, l) ==> RootOf(sh, l).ptr != root.ptr)
    && root.tag == seen % tags
  }

  /** A node on its way to list `l`. */
  ghost predicate Carries(sh: Shared, t: Tid, l: ListId, n: Node, g: Goal) {
    && n != NULL && PlaceOf(sh, n) == InCall(t)
    && (match g
        case PutValue(v) => l == VALUES && SlotOf(sh, n) == Full(v)
        case Recycle(_) => l == SPARE && SlotOf(sh, n).Vacant?
        case Client => l >= BLOCKS && SlotOf(sh, n).Vacant?
        case _ => false)
  }

  ghost predicate Wants(sh: Shared, t: Tid, l: ListId, g: Goal) {
    match g
    case PutValue(_) => l == SPARE
    case TakeValue => l == VALUES
    case Allocate => l == BLOCKS && LocalsOf(sh, t) == []
    case Client => l > BLOCKS
    case Recycle(_) => false
  }

  ghost predicate ThreadOk(tags: nat, sh: Shared, t: Tid, pc: Pc)
    requires tags > 0
  {
    match pc
    case Idle => true
    case PushLoad(l, n, g) => Carries(sh, t, l, n, g)
    case PushLink(l, n, root, g) => Carries(sh, t, l, n, g)
    case PushCas(l, n, root, g) => Carries(sh, t, l, n, g) && Next(sh.next, n) == root.ptr
    case PopLoad(l, g) => Wants(sh, t, l, g)
    case PopRead(l, root, seen, g) => Wants(sh, t, l, g) && Snapshot(tags, sh, l, root, seen)
    case PopCas(l, root, nxt, seen, g) =>
      && Wants(sh, t, l, g) && Snapshot(tags, sh, l, root, seen)
      && (seen == BumpsOf(sh, l) ==> Next(sh.next, root.ptr) == nxt)
    case NewNode(_) => true
    case Malloc => true
    case Construct(n, v) => n != NULL && PlaceOf(sh, n) == InCall(t) && SlotOf(sh, n).Vacant?
    case ClearNext(n, v) => n != NULL && PlaceOf(sh, n) == InCall(t) && SlotOf(sh, n) == Full(v)
    case MoveOut(n, want) => n != NULL && PlaceOf(sh, n) == InCall(t) && SlotOf(sh, n) == Full(want)
    case AllocLocal => true
    case FreeLocal(n) => n != NULL && PlaceOf(sh, n) == InCall(t) && SlotOf(sh, n).Vacant?
    case Ret(_, _) => true
  }

  /** The node a call has in hand. */
  function Carried(pc: Pc): Node {
    match pc
    case PushLoad(_, n, _) => n
    case PushLink(_, n, _, _) => n
    case PushCas(_, n, _, _) => n
    case Construct(n, _) => n
    case ClearNext(n, _) => n
    case MoveOut(n, _) => n
    case FreeLocal(n) => n
    case _ => NULL
  }

  /** No node is in the call of `t` but the one it has in hand. */
  ghost predicate OnlyCarried(sh: Shared, t: Tid, pc: Pc) {
    forall n :: PlaceOf(sh, n) == InCall(t) ==> n == Carried(pc) && n != NULL
  }

  /** When an effect of thread `t` is safe. */
  ghost predicate EffectOk(sh: Shared, t: Tid, e: Effect) {
    match e
    case NoEffect => true
    case Transfer(n, q) =>
      && n != NULL && SlotOf(sh, n).Vacant?
      && (PlaceOf(sh, n).Unborn? || PlaceOf(sh, n).Live?)
      && (q.Live? || q == InCall(t))
    case Link(n, v) => PlaceOf(sh, n).Live? || PlaceOf(sh, n) == InCall(t)
    case PushRoot(l, n) =>
      && n != NULL && PlaceOf(sh, n) == InCall(t) && Next(sh.next, n) == RootOf(sh, l).ptr
      && (l == VALUES <==> SlotOf(sh, n).Full?)
    case PopRoot(l, n, v, q) =>
      && ItemsOf(sh, l) != [] && ItemsOf(sh, l)[0] == n && v == Next(sh.next, n)
      && (q.Live? || q == InCall(t)) && (l == VALUES ==> q.InCall?)
    case Write(n, slot) => PlaceOf(sh, n) == InCall(t)
    case PushLocal(n) => n != NULL && PlaceOf(sh, n) == InCall(t) && SlotOf(sh, n).Vacant?
    case PopLocal(n) => n != NULL && n == LocalHead(sh, t)
  }

  lemma KeepsList(tags: nat, sh: Shared, t: Tid, e: Effect, l: ListId)
    requires SharedOk(tags, sh) && EffectOk(sh, t, e)
    ensures ListOk(tags, ApplyEffect(tags, sh, t, e), l)
  {
    assert ListOk(tags, sh, l);
    match e
    case Link(n, v) => LinkedFrame(sh.next, ItemsOf(sh, l), n, v);
    case PushLocal(n) => LinkedFrame(sh.next, ItemsOf(sh, l), n, LocalHead(sh, t));
    case PushRoot(m, n) => KeepsListPush(tags, sh, t, m, n, l);
    case PopRoot(m, n, v, q) => KeepsListPop(tags, sh, t, e, l);
    case PopLocal(n) => KeepsListPopLocal(tags, sh, t, n, l);
    case _ =>
  }

  lemma KeepsListPush(tags: nat, sh: Shared, t: Tid, m: ListId, n: Node, l: ListId)
    requires SharedOk(tags, sh) && EffectOk(sh, t, PushRoot(m, n))
    ensures ListOk(tags, ApplyEffect(tags, sh, t, PushRoot(m, n)), l)
  {
    assert ListOk(tags, sh, l) && ListOk(tags, sh, m);
    if l == m {
      KeepsPushedList(tags, sh, t, m, n);
    }
  }

  lemma KeepsPushedList(tags: nat, sh: Shared, t: Tid, m: ListId, n: Node)
    requires tags > 0 && ListOk(tags, sh, m) && EffectOk(sh, t, PushRoot(m, n))
    ensures ListOk(tags, ApplyEffect(tags, sh, t, PushRoot(m, n)), m)
  {
    TagAdvances(BumpsOf(sh, m), tags);
    LinkedPush(sh.next, ItemsOf(sh, m), n);
  }

  lemma KeepsListPop(tags: nat, sh: Shared, t: Tid, e: Effect, l: ListId)
    requires SharedOk(tags, sh) && EffectOk(sh, t, e) && e.PopRoot?
    ensures ListOk(tags, ApplyEffect(tags, sh, t, e), l)
  {
    assert ListOk(tags, sh, l) && ListOk(tags, sh, e.l);
    if l == e.l {
      KeepsPoppedList(tags, sh, t, e);
    }
  }

  lemma KeepsPoppedList(tags: nat, sh: Shared, t: Tid, e: Effect)
    requires tags > 0 && e.PopRoot? && ListOk(tags, sh, e.l) && EffectOk(sh, t, e)
    ensures ListOk(tags, ApplyEffect(tags, sh, t, e), e.l)
  {
    TagAdvances(BumpsOf(sh, e.l), tags);
    LinkedTail(sh.next, ItemsOf(sh, e.l));
    TailMembers(ItemsOf(sh, e.l));
  }

  lemma KeepsListPopLocal(tags: nat, sh: Shared, t: Tid, n: Node, l: ListId)
    requires SharedOk(tags, sh) && EffectOk(sh, t, PopLocal(n))
    ensures ListOk(tags, ApplyEffect(tags, sh, t, PopLocal(n)), l)
  {
    assert ListOk(tags, sh, l) && LocalOk(sh, t);
    assert n in LocalsOf(sh, t);
  }

  lemma KeepsLocal(tags: nat, sh: Shared, t: Tid, e: Effect, u: Tid)
    requires SharedOk(tags, sh) && EffectOk(sh, t, e)
    ensures LocalOk(ApplyEffect(tags, sh, t, e), u)
  {
    assert LocalOk(sh, u) && LocalOk(sh, t);
    match e
    case Link(n, v) => LinkedFrame(sh.next, LocalsOf(sh, u), n, v);
    case PushLocal(n) => KeepsLocalPush(tags, sh, t, n, u);
    case PopLocal(n) => KeepsLocalPop(tags, sh, t, n, u);
    case PopRoot(l, n, v, q) =>
      assert ListOk(tags, sh, l) && n in ItemsOf(sh, l);
    case _ =>
  }

  lemma KeepsLocalPush(tags: nat, sh: Shared, t: Tid, n: Node, u: Tid)
    requires tags > 0 && EffectOk(sh, t, PushLocal(n)) && LocalOk(sh, u) && LocalOk(sh, t)
    ensures LocalOk(ApplyEffect(tags, sh, t, PushLocal(n)), u)
  {
    LinkedFrame(sh.next, LocalsOf(sh, u), n, LocalHead(sh, t));
    if u == t {
      LinkedPush(sh.next[n := LocalHead(sh, t)], LocalsOf(sh, t), n);
    }
  }

  lemma KeepsLocalPop(tags: nat, sh: Shared, t: Tid, n: Node, u: Tid)
    requires tags > 0 && EffectOk(sh, t, PopLocal(n)) && LocalOk(sh, u) && LocalOk(sh, t)
    ensures LocalOk(ApplyEffect(tags, sh, t, PopLocal(n)), u)
  {
    assert n in LocalsOf(sh, t);
    LinkedTail(sh.next, LocalsOf(sh, t));
    TailMembers(LocalsOf(sh, t));
  }

  lemma KeepsStore(tags: nat, sh: Shared, t: Tid, e: Effect)
    requires SharedOk(tags, sh) && EffectOk(sh, t, e)
    ensures StoreOk(ApplyEffect(tags, sh, t, e))
  {
    if e.PopRoot? {
      assert ListOk(tags, sh, e.l) && e.n in ItemsOf(sh, e.l);
    } else if e.PopLocal? {
      assert LocalOk(sh, t) && e.n in LocalsOf(sh, t);
    }
    var sh' := ApplyEffect(tags, sh, t, e);
    forall n ensures PlaceOf(sh', n) == On(VALUES) ==> SlotOf(sh', n).Full?
      ensures SlotOf(sh', n).Full? ==> PlaceOf(sh', n) == On(VALUES) || PlaceOf(sh', n).InCall?
    {
      assert PlaceOf(sh, n) == On(VALUES) ==> SlotOf(sh, n).Full?;
      assert SlotOf(sh, n).Full? ==> PlaceOf(sh, n) == On(VALUES) || PlaceOf(sh, n).InCall?;
    }
  }

  lemma KeepsShared(tags: nat, sh: Shared, t: Tid, e: Effect)
    requires SharedOk(tags, sh) && EffectOk(sh, t, e)
    ensures SharedOk(tags, ApplyEffect(tags, sh, t, e))
  {
    forall l ensures ListOk(tags, ApplyEffect(tags, sh, t, e), l) {
      KeepsList(tags, sh, t, e, l);
    }
    forall u ensures LocalOk(ApplyEffect(tags, sh, t, e), u) {
      KeepsLocal(tags, sh, t, e, u);
    }
    KeepsStore(tags, sh, t, e);
  }

  lemma Frame(tags: nat, sh: Shared, t: Tid, e: Effect, u: Tid, pc: Pc)
    requires SharedOk(tags, sh) && EffectOk(sh, t, e)
    requires u != t && ThreadOk(tags, sh, u, pc)
    ensures ThreadOk(tags, ApplyEffect(tags, sh, t, e), u, pc)
  {
    if pc.PopRead? || pc.PopCas? {
      FramePop(tags, sh, t, e, u, pc);
    } else {
      FrameCarry(tags, sh, t, e, u, pc);
    }
  }

  lemma FramePop(tags: nat, sh: Shared, t: Tid, e: Effect, u: Tid, pc: Pc)
    requires SharedOk(tags, sh) && EffectOk(sh, t, e) && (pc.PopRead? || pc.PopCas?)
    requires u != t && ThreadOk(tags, sh, u, pc)
    ensures ThreadOk(tags, ApplyEffect(tags, sh, t, e), u, pc)
  {
    assert ListOk(tags, sh, pc.l);
    FrameSnapshot(tags, sh, t, e, pc.l, pc.root, pc.seen);
    FrameWants(tags, sh, t, e, u, pc.l, pc.g);
  }

  lemma FrameWants(tags: nat, sh: Shared, t: Tid, e: Effect, u: Tid, l: ListId, g: Goal)
    requires tags > 0 && u != t && Wants(sh, u, l, g)
    ensures Wants(ApplyEffect(tags, sh, t, e), u, l, g)
  {
  }

  /** What a pop read stays true until the root is bumped. */
  lemma FrameSnapshot(tags: nat, sh: Shared, t: Tid, e: Effect, l: ListId, root: Root, seen: nat)
    requires tags > 0 && ListOk(tags, sh, l) && EffectOk(sh, t, e) && Snapshot(tags, sh, l, root, seen)
    ensures var sh' := ApplyEffect(tags, sh, t, e);
      && Snapshot(tags, sh', l, root, seen)
      && (seen == BumpsOf(sh', l) ==> seen == BumpsOf(sh, l) && Next(sh'.next, root.ptr) == Next(sh.next, root.ptr))
  {
    if seen == BumpsOf(sh, l) {
      assert root.ptr in ItemsOf(sh, l);
    }
  }

  lemma FrameCarry(tags: nat, sh: Shared, t: Tid, e: Effect, u: Tid, pc: Pc)
    requires SharedOk(tags, sh) && EffectOk(sh, t, e) && !pc.PopRead? && !pc.PopCas?
    requires u != t && ThreadOk(tags, sh, u, pc)
    ensures ThreadOk(tags, ApplyEffect(tags, sh, t, e), u, pc)
  {
    if Carried(pc) != NULL {
      FrameNode(tags, sh, t, e, u, Carried(pc));
      FrameInHand(tags, sh, t, e, u, pc);
    }
  }

  /** Nobody else touches a node in hand. */
  lemma FrameNode(tags: nat, sh: Shared, t: Tid, e: Effect, u: Tid, n: Node)
    requires SharedOk(tags, sh) && EffectOk(sh, t, e) && u != t && PlaceOf(sh, n) == InCall(u)
    ensures var sh' := ApplyEffect(tags, sh, t, e);
      PlaceOf(sh', n) == InCall(u) && SlotOf(sh', n) == SlotOf(sh, n) && Next(sh'.next, n) == Next(sh.next, n)
  {
    if e.PopRoot? {
      assert ListOk(tags, sh, e.l) && e.n in ItemsOf(sh, e.l);
    } else if e.PopLocal? {
      assert LocalOk(sh, t) && e.n in LocalsOf(sh, t);
    }
  }

  lemma FrameInHand(tags: nat, sh: Shared, t: Tid, e: Effect, u: Tid, pc: Pc)
    requires tags > 0 && ThreadOk(tags, sh, u, pc) && Carried(pc) != NULL
    requires var sh' := ApplyEffect(tags, sh, t, e); var n := Carried(pc);
      PlaceOf(sh', n) == InCall(u) && SlotOf(sh', n) == SlotOf(sh, n) && Next(sh'.next, n) == Next(sh.next, n)
    ensures ThreadOk(tags, ApplyEffect(tags, sh, t, e), u, pc)
  {
  }

  // ---- Refinement ----

  /** Where the call of a thread at `pc` is. */
  function StageFor(pc: Pc): Stage {
    match pc
    case Idle => Outside
    case PushLoad(l, n, g) => PushStage(l, n, g)
    case PushLink(l, n, _, g) => PushStage(l, n, g)
    case PushCas(l, n, _, g) => PushStage(l, n, g)
    case PopLoad(l, g) => PopStage(l, g)
    case PopRead(l, _, _, g) => PopStage(l, g)
    case PopCas(l, _, _, _, g) => PopStage(l, g)
    case NewNode(v) => Missed(PutOp(v))
    case Malloc => Missed(AllocOp)
    case Construct(n, v) => Holding(PutOp(v), n, v)
    case ClearNext(n, v) => Holding(PutOp(v), n, v)
    case MoveOut(n, want) => Holding(TakeOp, n, want)
    case AllocLocal => Begun(AllocOp)
    case FreeLocal(n) => Begun(FreeOp(n))
    case Ret(op, result) => Over(op, result)
  }

  function PushStage(l: ListId, n: Node, g: Goal): Stage {
    match g
    case PutValue(v) => Holding(PutOp(v), n, v)
    case Recycle(v) => Holding(TakeOp, n, v)
    case _ => Begun(PushOp(l, n))
  }

  function PopStage(l: ListId, g: Goal): Stage {
    match g
    case PutValue(v) => Begun(PutOp(v))
    case TakeValue => Begun(TakeOp)
    case Allocate => Begun(AllocOp)
    case _ => Begun(PopOp(l))
  }

  /** The abstract state describes the memory. */
  ghost predicate Describes(a: Abs, sh: Shared) {
    && a.stacks == sh.items && a.locals == sh.locals
    && |a.values| == |ItemsOf(sh, VALUES)|
    && (forall i :: 0 <= i < |a.values| ==> SlotOf(sh, ItemsOf(sh, VALUES)[i]) == Full(a.values[i]))
    && (forall n :: n in a.held <==> PlaceOf(sh, n).Live?)
    && (forall n :: n in a.born <==> !PlaceOf(sh, n).Unborn?)
  }

  ghost predicate Tracks(a: Abs, t: Tid, pc: Pc) {
    StageOf(a, t) == StageFor(pc)
  }

  ghost predicate Ready(tags: nat, sh: Shared, a: Abs, t: Tid, pc: Pc) {
    SharedOk(tags, sh) && ThreadOk(tags, sh, t, pc) && Describes(a, sh) && Tracks(a, t, pc)
  }

  /** A decision that is safe, legal, and tracked by the abstract state. */
  ghost predicate Sound(tags: nat, sh: Shared, a: Abs, t: Tid, o: Outcome)
    requires tags > 0
  {
    var sh' := ApplyEffect(tags, sh, t, o.eff);
    && EffectOk(sh, t, o.eff)
    && ThreadOk(tags, sh', t, o.pc)
    && |o.acts| <= 1
    && (o.acts == [] ==> Describes(a, sh') && Tracks(a, t, o.pc))
    && (o.acts != [] ==>
          var a' := Apply(a, o.acts[0]);
          && Legal(a, o.acts[0]) && o.acts[0].t == t
          && Describes(a', sh') && Tracks(a', t, o.pc))
  }

  /** An action is its own thread's affair. */
  lemma OthersUntouched(a: Abs, x: Action, u: Tid)
    requires u != x.t
    ensures StageOf(Apply(a, x), u) == StageOf(a, u)
  {
  }

  lemma PopIsFresh(tags: nat, sh: Shared, l: ListId, root: Root, nxt: Node, seen: nat)
    requires SharedOk(tags, sh) && Snapshot(tags, sh, l, root, seen)
    requires seen == BumpsOf(sh, l) ==> Next(sh.next, root.ptr) == nxt
    requires RootOf(sh, l) == root && BumpsOf(sh, l) - seen < tags
    ensures seen == BumpsOf(sh, l)
    ensures ItemsOf(sh, l) != [] && ItemsOf(sh, l)[0] == root.ptr
    ensures nxt == HeadOf(ItemsOf(sh, l)[1..]) && nxt == Next(sh.next, root.ptr)
    ensures PlaceOf(sh, root.ptr) == On(l)
  {
    assert ListOk(tags, sh, l);
    SameVersion(0, seen, BumpsOf(sh, l), tags);
    LinkedTail(sh.next, ItemsOf(sh, l));
    assert root.ptr in ItemsOf(sh, l);
  }

  lemma GotoOk(tags: nat, sh: Shared, a: Abs, t: Tid, pc: Pc, dest: Pc)
    requires Ready(tags, sh, a, t, pc) && ThreadOk(tags, sh, t, dest) && StageFor(dest) == StageFor(pc)
    ensures Sound(tags, sh, a, t, Goto(dest))
  {
  }

  lemma PopSeesOk(tags: nat, sh: Shared, a: Abs, t: Tid, pc: Pc, l: ListId, g: Goal)
    requires Ready(tags, sh, a, t, pc) && Wants(sh, t, l, g) && StageFor(pc) == PopStage(l, g)
    ensures Sound(tags, sh, a, t, PopSees(t, l, RootOf(sh, l), BumpsOf(sh, l), g))
  {
    assert ListOk(tags, sh, l);
    if RootOf(sh, l).ptr == NULL {
      PopMissesOk(tags, sh, a, t, pc, l, g);
    } else {
      GotoOk(tags, sh, a, t, pc, PopRead(l, RootOf(sh, l), BumpsOf(sh, l), g));
    }
  }

  lemma PopMissesOk(tags: nat, sh: Shared, a: Abs, t: Tid, pc: Pc, l: ListId, g: Goal)
    requires Ready(tags, sh, a, t, pc) && Wants(sh, t, l, g) && StageFor(pc) == PopStage(l, g)
    requires ListOk(tags, sh, l) && RootOf(sh, l).ptr == NULL
    ensures Sound(tags, sh, a, t, Outcome(NoEffect, PopMisses(l, g), [PoppedNone(t, l)]))
  {
    hide LocalOk, StoreOk, Snapshot;
  }

  /** A node inside a call or new is on no abstract list. */
  lemma CarriedNowhere(tags: nat, sh: Shared, a: Abs, n: Node)
    requires SharedOk(tags, sh) && Describes(a, sh)
    requires n != NULL && (PlaceOf(sh, n).InCall? || PlaceOf(sh, n).Unborn?)
    ensures Nowhere(a, n)
  {
    forall l ensures n !in StackOf(a, l) {
      assert ListOk(tags, sh, l);
    }
    forall t ensures n !in LocalsIn(a, t) {
      assert LocalOk(sh, t);
    }
  }

  lemma PushCasOk(tags: nat, sh: Shared, a: Abs, t: Tid, pc: Pc)
    requires Ready(tags, sh, a, t, pc) && pc.PushCas? && RootOf(sh, pc.l) == pc.root
    ensures Sound(tags, sh, a, t, PushEnds(t, pc.l, pc.n, pc.g))
  {
    CarriedNowhere(tags, sh, a, pc.n);
    if pc.g.PutValue? {
      PushValueOk(tags, sh, a, t, pc);
    } else {
      PushNodeOk(tags, sh, a, t, pc);
    }
  }

  lemma PushValueOk(tags: nat, sh: Shared, a: Abs, t: Tid, pc: Pc)
    requires Ready(tags, sh, a, t, pc) && pc.PushCas? && RootOf(sh, pc.l) == pc.root && pc.g.PutValue?
    requires Nowhere(a, pc.n)
    ensures Sound(tags, sh, a, t, PushEnds(t, pc.l, pc.n, pc.g))
  {
    hide LocalOk, StoreOk, ListOk, Snapshot, Wants;
  }

  lemma PushNodeOk(tags: nat, sh: Shared, a: Abs, t: Tid, pc: Pc)
    requires Ready(tags, sh, a, t, pc) && pc.PushCas? && RootOf(sh, pc.l) == pc.root && !pc.g.PutValue?
    requires Nowhere(a, pc.n)
    ensures Sound(tags, sh, a, t, PushEnds(t, pc.l, pc.n, pc.g))
  {
    hide StoreOk, LocalOk, ListOk, Snapshot, Wants;
    PushDescribed(tags, sh, a, t, pc);
  }

  lemma PushDescribed(tags: nat, sh: Shared, a: Abs, t: Tid, pc: Pc)
    requires tags > 0 && Describes(a, sh) && ThreadOk(tags, sh, t, pc) && pc.PushCas? && !pc.g.PutValue?
    ensures Describes(Apply(a, Pushed(t, pc.l, pc.n)), ApplyEffect(tags, sh, t, PushRoot(pc.l, pc.n)))
  {
  }

  lemma PopCasOk(tags: nat, sh: Shared, a: Abs, t: Tid, pc: Pc)
    requires Ready(tags, sh, a, t, pc) && pc.PopCas? && RootOf(sh, pc.l) == pc.root
    requires InWindow(tags, sh, pc)
    ensures Sound(tags, sh, a, t, PopGets(sh, t, pc.l, pc.root.ptr, pc.nxt, pc.g))
  {
    PopIsFresh(tags, sh, pc.l, pc.root, pc.nxt, pc.seen);
    if pc.g.TakeValue? {
      PopValueOk(tags, sh, a, t, pc);
    } else {
      PopNodeOk(tags, sh, a, t, pc);
    }
  }

  ghost predicate Fresh(sh: Shared, pc: Pc) {
    && pc.PopCas? && ItemsOf(sh, pc.l) != [] && ItemsOf(sh, pc.l)[0] == pc.root.ptr
    && pc.nxt == Next(sh.next, pc.root.ptr) && PlaceOf(sh, pc.root.ptr) == On(pc.l)
  }

  lemma PopNodeOk(tags: nat, sh: Shared, a: Abs, t: Tid, pc: Pc)
    requires Ready(tags, sh, a, t, pc) && Fresh(sh, pc) && !pc.g.TakeValue?
    ensures Sound(tags, sh, a, t, PopGets(sh, t, pc.l, pc.root.ptr, pc.nxt, pc.g))
  {
    var l, n := pc.l, pc.root.ptr;
    assert l != VALUES;
    assert SlotOf(sh, n).Vacant? && n != NULL by { assert StoreOk(sh); }
    if pc.g.PutValue? {
      PopDescribed(tags, sh, a, t, l, n, pc.nxt, InCall(t), false);
    } else {
      PopDescribed(tags, sh, a, t, l, n, pc.nxt, Live, true);
    }
    PopTracked(sh, a, t, pc);
  }

  lemma PopTracked(sh: Shared, a: Abs, t: Tid, pc: Pc)
    requires Describes(a, sh) && Tracks(a, t, pc) && Fresh(sh, pc) && Wants(sh, t, pc.l, pc.g) && !pc.g.TakeValue?
    ensures var o := PopGets(sh, t, pc.l, pc.root.ptr, pc.nxt, pc.g);
      |o.acts| == 1 && Legal(a, o.acts[0]) && Tracks(Apply(a, o.acts[0]), t, o.pc)
  {
  }

  lemma PopDescribed(
    tags: nat, sh: Shared, a: Abs, t: Tid, l: ListId, n: Node, nxt: Node, q: Place, out: bool)
    requires tags > 0 && Describes(a, sh) && l != VALUES && ItemsOf(sh, l) != []
    requires PlaceOf(sh, n) == On(l) && q == if out then Live else InCall(t)
    ensures Describes(Apply(a, Popped(t, l, n, out)), ApplyEffect(tags, sh, t, PopRoot(l, n, nxt, q)))
  {
  }

  lemma PopValueOk(tags: nat, sh: Shared, a: Abs, t: Tid, pc: Pc)
    requires Ready(tags, sh, a, t, pc) && Fresh(sh, pc) && pc.g.TakeValue?
    ensures Sound(tags, sh, a, t, PopGets(sh, t, pc.l, pc.root.ptr, pc.nxt, pc.g))
  {
    assert SlotOf(sh, ItemsOf(sh, VALUES)[0]) == Full(a.values[0]);
  }

  lemma RunningOk(tags: nat, sh: Shared, a: Abs, t: Tid, pc: Pc, addr: Node)
    requires Ready(tags, sh, a, t, pc) && !pc.Idle? && InWindow(tags, sh, pc)
    requires pc.NewNode? || pc.Malloc? ==> addr != NULL && PlaceOf(sh, addr).Unborn?
    ensures Sound(tags, sh, a, t, StepRunning(sh, t, pc, addr))
  {
    if pc.PushLoad? || pc.PushLink? || pc.PushCas? {
      PushStepOk(tags, sh, a, t, pc);
    } else if pc.PopLoad? || pc.PopRead? || pc.PopCas? {
      PopStepOk(tags, sh, a, t, pc);
    } else if pc.NewNode? || pc.Malloc? {
      BirthOk(tags, sh, a, t, pc, addr);
    } else if pc.Construct? || pc.ClearNext? || pc.MoveOut? {
      StorageOk(tags, sh, a, t, pc);
    } else {
      LocalStepOk(tags, sh, a, t, pc);
    }
  }

  lemma PushStepOk(tags: nat, sh: Shared, a: Abs, t: Tid, pc: Pc)
    requires Ready(tags, sh, a, t, pc) && (pc.PushLoad? || pc.PushLink? || pc.PushCas?)
    ensures Sound(tags, sh, a, t, StepRunning(sh, t, pc, 0))
  {
    if pc.PushLink? {
      LinkOk(tags, sh, a, t, pc);
    } else if pc.PushCas? && RootOf(sh, pc.l) == pc.root {
      PushCasOk(tags, sh, a, t, pc);
    } else {
      GotoOk(tags, sh, a, t, pc, PushLink(pc.l, pc.n, RootOf(sh, pc.l), pc.g));
    }
  }

  lemma PopStepOk(tags: nat, sh: Shared, a: Abs, t: Tid, pc: Pc)
    requires Ready(tags, sh, a, t, pc) && (pc.PopLoad? || pc.PopRead? || pc.PopCas?) && InWindow(tags, sh, pc)
    ensures Sound(tags, sh, a, t, StepRunning(sh, t, pc, 0))
  {
    if pc.PopRead? {
      GotoOk(tags, sh, a, t, pc, PopCas(pc.l, pc.root, Next(sh.next, pc.root.ptr), pc.seen, pc.g));
    } else if pc.PopCas? && RootOf(sh, pc.l) == pc.root {
      PopCasOk(tags, sh, a, t, pc);
    } else {
      PopSeesOk(tags, sh, a, t, pc, pc.l, pc.g);
    }
  }

  lemma StorageOk(tags: nat, sh: Shared, a: Abs, t: Tid, pc: Pc)
    requires Ready(tags, sh, a, t, pc) && (pc.Construct? || pc.ClearNext? || pc.MoveOut?)
    ensures Sound(tags, sh, a, t, StepRunning(sh, t, pc, 0))
  {
    if pc.ClearNext? {
      LinkOk(tags, sh, a, t, pc);
    } else {
      ValuesElsewhere(tags, sh, t, pc);
      if pc.Construct? {
        ConstructOk(tags, sh, a, t, pc);
      } else {
        MoveOutOk(tags, sh, a, t, pc);
      }
    }
  }

  lemma LinkOk(tags: nat, sh: Shared, a: Abs, t: Tid, pc: Pc)
    requires Ready(tags, sh, a, t, pc) && (pc.PushLink? || pc.ClearNext?)
    ensures Sound(tags, sh, a, t, StepRunning(sh, t, pc, 0))
  {
  }

  /** The node a call works on is not among the queued ones. */
  lemma ValuesElsewhere(tags: nat, sh: Shared, t: Tid, pc: Pc)
    requires SharedOk(tags, sh) && ThreadOk(tags, sh, t, pc) && (pc.Construct? || pc.MoveOut?)
    ensures forall i :: 0 <= i < |ItemsOf(sh, VALUES)| ==> ItemsOf(sh, VALUES)[i] != pc.n
  {
    assert ListOk(tags, sh, VALUES);
    assert forall i :: 0 <= i < |ItemsOf(sh, VALUES)| ==> ItemsOf(sh, VALUES)[i] in ItemsOf(sh, VALUES);
  }

  lemma ConstructOk(tags: nat, sh: Shared, a: Abs, t: Tid, pc: Pc)
    requires Ready(tags, sh, a, t, pc) && pc.Construct?
    requires forall i :: 0 <= i < |ItemsOf(sh, VALUES)| ==> ItemsOf(sh, VALUES)[i] != pc.n
    ensures Sound(tags, sh, a, t, StepRunning(sh, t, pc, 0))
  {
  }

  lemma MoveOutOk(tags: nat, sh: Shared, a: Abs, t: Tid, pc: Pc)
    requires Ready(tags, sh, a, t, pc) && pc.MoveOut?
    requires forall i :: 0 <= i < |ItemsOf(sh, VALUES)| ==> ItemsOf(sh, VALUES)[i] != pc.n
    ensures Sound(tags, sh, a, t, StepRunning(sh, t, pc, 0))
  {
  }

  lemma BirthOk(tags: nat, sh: Shared, a: Abs, t: Tid, pc: Pc, addr: Node)
    requires Ready(tags, sh, a, t, pc) && (pc.NewNode? || pc.Malloc?)
    requires addr != NULL && PlaceOf(sh, addr).Unborn?
    ensures Sound(tags, sh, a, t, StepRunning(sh, t, pc, addr))
  {
    CarriedNowhere(tags, sh, a, addr);
    assert SlotOf(sh, addr).Vacant?;
    BirthDescribed(tags, sh, a, t, pc, addr);
  }

  lemma BirthDescribed(tags: nat, sh: Shared, a: Abs, t: Tid, pc: Pc, addr: Node)
    requires tags > 0 && Describes(a, sh) && (pc.NewNode? || pc.Malloc?) && PlaceOf(sh, addr).Unborn?
    ensures var o := StepRunning(sh, t, pc, addr);
      Describes(Apply(a, o.acts[0]), ApplyEffect(tags, sh, t, o.eff))
  {
  }

  lemma LocalStepOk(tags: nat, sh: Shared, a: Abs, t: Tid, pc: Pc)
    requires Ready(tags, sh, a, t, pc) && (pc.AllocLocal? || pc.FreeLocal? || pc.Ret?)
    ensures Sound(tags, sh, a, t, StepRunning(sh, t, pc, 0))
  {
    if pc.FreeLocal? {
      FreeOk(tags, sh, a, t, pc);
    } else if pc.AllocLocal? && LocalHead(sh, t) != NULL {
      TakeLocalOk(tags, sh, a, t);
    } else if pc.AllocLocal? {
      assert LocalOk(sh, t);
      GotoOk(tags, sh, a, t, pc, PopLoad(BLOCKS, Allocate));
    } else {
      ReturnOk(tags, sh, a, t, pc);
    }
  }

  lemma TakeLocalOk(tags: nat, sh: Shared, a: Abs, t: Tid)
    requires Ready(tags, sh, a, t, AllocLocal) && LocalHead(sh, t) != NULL
    ensures Sound(tags, sh, a, t, StepRunning(sh, t, AllocLocal, 0))
  {
    assert LocalOk(sh, t) && LocalHead(sh, t) in LocalsOf(sh, t);
    hide ListOk, StoreOk, Snapshot, Wants, SharedOk;
  }

  lemma FreeOk(tags: nat, sh: Shared, a: Abs, t: Tid, pc: Pc)
    requires Ready(tags, sh, a, t, pc) && pc.FreeLocal?
    ensures Sound(tags, sh, a, t, StepRunning(sh, t, pc, 0))
  {
    CarriedNowhere(tags, sh, a, pc.n);
    FreeDescribed(tags, sh, a, t, pc.n);
    hide Describes, StoreOk, ListOk, LocalOk, SharedOk, Snapshot, Wants;
  }

  lemma FreeDescribed(tags: nat, sh: Shared, a: Abs, t: Tid, n: Node)
    requires tags > 0 && Describes(a, sh) && PlaceOf(sh, n).InCall?
    ensures Describes(Apply(a, Freed(t, n)), ApplyEffect(tags, sh, t, PushLocal(n)))
  {
  }

  lemma ReturnOk(tags: nat, sh: Shared, a: Abs, t: Tid, pc: Pc)
    requires Ready(tags, sh, a, t, pc) && pc.Ret?
    ensures Sound(tags, sh, a, t, StepRunning(sh, t, pc, 0))
  {
  }

  lemma CallOk(tags: nat, s: State, a: Abs, t: Tid, c: Command)
    requires Ready(tags, s.sh, a, t, PcOf(s, t)) && Callable(s, t, c) && !c.Advance?
    ensures Sound(tags, s.sh, a, t, Decide(s.sh, t, PcOf(s, t), c))
  {
    if c.Create? {
      CreateOk(tags, s.sh, a, t, c.n);
    } else if c.Reuse? {
      ReuseOk(tags, s.sh, a, t, c.n, c.x);
    } else if c.CallPush? || c.CallFree? {
      HandInOk(tags, s.sh, a, t, c);
    } else {
      BeginOk(tags, s.sh, a, t, c);
    }
  }

  lemma HandInOk(tags: nat, sh: Shared, a: Abs, t: Tid, c: Command)
    requires Ready(tags, sh, a, t, Idle) && (c.CallPush? || c.CallFree?) && c.n != NULL && PlaceOf(sh, c.n).Live?
    requires c.CallPush? ==> c.l >= BLOCKS
    ensures Sound(tags, sh, a, t, Begin(t, c))
  {
    assert SlotOf(sh, c.n).Vacant?;
    hide ListOk, LocalOk, SharedOk, Snapshot, Wants;
  }

  lemma BeginOk(tags: nat, sh: Shared, a: Abs, t: Tid, c: Command)
    requires Ready(tags, sh, a, t, Idle) && (c.CallPop? || c.CallPut? || c.CallTake? || c.CallAllocate?)
    requires c.CallPop? ==> c.l > BLOCKS
    ensures Sound(tags, sh, a, t, Begin(t, c))
  {
  }

  lemma CreateOk(tags: nat, sh: Shared, a: Abs, t: Tid, n: Node)
    requires Ready(tags, sh, a, t, Idle) && n != NULL && PlaceOf(sh, n).Unborn?
    ensures Sound(tags, sh, a, t, Decide(sh, t, Idle, Create(n)))
  {
    hide ListOk, LocalOk, Snapshot, Wants;
    CarriedNowhere(tags, sh, a, n);
    assert SlotOf(sh, n).Vacant?;
  }

  lemma ReuseOk(tags: nat, sh: Shared, a: Abs, t: Tid, n: Node, x: Node)
    requires Ready(tags, sh, a, t, Idle) && PlaceOf(sh, n).Live?
    ensures Sound(tags, sh, a, t, Decide(sh, t, Idle, Reuse(n, x)))
  {
  }

  // ---- Nodes in hand ----

  /** A step of `t` keeps its call from losing a node. */
  lemma OwnCarried(tags: nat, sh: Shared, t: Tid, pc: Pc, c: Command)
    requires tags > 0 && OnlyCarried(sh, t, pc)
    requires if c.Advance? then !pc.Idle? else pc.Idle?
    requires EffectOk(sh, t, Decide(sh, t, pc, c).eff) && ThreadOk(tags, sh, t, pc)
    ensures var o := Decide(sh, t, pc, c); OnlyCarried(ApplyEffect(tags, sh, t, o.eff), t, o.pc)
  {
    var o := Decide(sh, t, pc, c);
    CarriedNext(sh, t, pc, c);
    MovesOne(tags, sh, t, o.eff);
    forall n | PlaceOf(ApplyEffect(tags, sh, t, o.eff), n) == InCall(t) ensures n == Carried(o.pc) && n != NULL {
      if PlaceOf(sh, n) == InCall(t) {
        assert n == Carried(pc);
      }
    }
  }

  /** Which node an effect moves, and where to. */
  lemma MovesOne(tags: nat, sh: Shared, t: Tid, e: Effect)
    requires tags > 0
    ensures forall n {:trigger PlaceOf(ApplyEffect(tags, sh, t, e), n)} ::
      PlaceOf(ApplyEffect(tags, sh, t, e), n) ==
        match e
        case Transfer(m, q) => if n == m then q else PlaceOf(sh, n)
        case PushRoot(l, m) => if n == m then On(l) else PlaceOf(sh, n)
        case PopRoot(_, m, _, q) => if n == m then q else PlaceOf(sh, n)
        case PushLocal(m) => if n == m then Local(t) else PlaceOf(sh, n)
        case PopLocal(m) => if n == m then Live else PlaceOf(sh, n)
        case _ => PlaceOf(sh, n)
  {
  }

  /** A call has in hand what its effect gave it, or what it had. */
  lemma CarriedNext(sh: Shared, t: Tid, pc: Pc, c: Command)
    requires if c.Advance? then !pc.Idle? else pc.Idle?
    requires EffectOk(sh, t, Decide(sh, t, pc, c).eff)
    requires pc.PopCas? ==> !pc.g.Recycle?
    ensures var o := Decide(sh, t, pc, c);
      match o.eff
      case Transfer(n, q) => q == InCall(t) ==> Carried(o.pc) == n && n != NULL && Carried(pc) == NULL
      case PopRoot(_, n, _, q) => Carried(pc) == NULL && (q == InCall(t) ==> Carried(o.pc) == n)
      case PushRoot(_, n) => Carried(pc) == n
      case PushLocal(n) => Carried(pc) == n
      case _ => Carried(o.pc) == Carried(pc)
  {
  }

  lemma OthersCarried(tags: nat, sh: Shared, t: Tid, e: Effect, u: Tid, pc: Pc)
    requires tags > 0 && EffectOk(sh, t, e) && u != t && OnlyCarried(sh, u, pc)
    ensures OnlyCarried(ApplyEffect(tags, sh, t, e), u, pc)
  {
    MovesOne(tags, sh, t, e);
    forall n | PlaceOf(ApplyEffect(tags, sh, t, e), n) == InCall(u) ensures n == Carried(pc) && n != NULL {
      assert PlaceOf(sh, n) == InCall(u);
    }
  }
}
