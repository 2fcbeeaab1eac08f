/** MPMCLifoList, MPMCLifoQueue and the waiter allocator as one interleaving machine:
    any number of tagged stacks over one heap of nodes, any number of threads, nodes
    freely reused between lists, one shared access per step. */
module LifoLists {
  import opened Sequences
  import opened Chains
  import opened LifoSpec
  import opened Storages

  /** The atomic root of a list: pointer and tag. */
  datatype Root = Root(ptr: Node, tag: nat)

  type Slot = Storage<Value>

  /** Where a node is: not allocated yet, with a client, inside one call, on a list, or
      on a thread's local free list. */
  datatype Place = Unborn | Live | InCall(tid: Tid) | On(l: ListId) | Local(tid: Tid)

  /** `roots`, `next`, `store` and `heads` (each thread's tWaiterFreeList) are the
      program's memory; the rest is history that no step reads. */
  datatype Shared = Shared(
    roots: map<ListId, Root>,
    next: Heap,
    store: map<Node, Slot>,
    heads: map<Tid, Node>,
    items: map<ListId, seq<Node>>,
    bumps: map<ListId, nat>,
    locals: map<Tid, seq<Node>>,
    place: map<Node, Place>)

  function RootOf(sh: Shared, l: ListId): Root { if l in sh.roots then sh.roots[l] else Root(NULL, 0) }
  function SlotOf(sh: Shared, n: Node): Slot { if n in sh.store then sh.store[n] else Vacant }
  function LocalHead(sh: Shared, t: Tid): Node { if t in sh.heads then sh.heads[t] else NULL }
  function ItemsOf(sh: Shared, l: ListId): seq<Node> { if l in sh.items then sh.items[l] else [] }
  function BumpsOf(sh: Shared, l: ListId): nat { if l in sh.bumps then sh.bumps[l] else 0 }
  function LocalsOf(sh: Shared, t: Tid): seq<Node> { if t in sh.locals then sh.locals[t] else [] }
  function PlaceOf(sh: Shared, n: Node): Place { if n in sh.place then sh.place[n] else Unborn }

  /** Why a list operation runs: for a client, or as part of a queue or allocator call. */
  datatype Goal = Client | PutValue(v: Value) | TakeValue | Recycle(v: Value) | Allocate

  datatype Pc =
    | Idle
    | PushLoad(l: ListId, n: Node, g: Goal)
    | PushLink(l: ListId, n: Node, root: Root, g: Goal)
    | PushCas(l: ListId, n: Node, root: Root, g: Goal)
    | PopLoad(l: ListId, g: Goal)
    | PopRead(l: ListId, root: Root, seen: nat, g: Goal)
    | PopCas(l: ListId, root: Root, nxt: Node, seen: nat, g: Goal)
    | NewNode(v: Value)                 // the spare list was empty
    | Malloc                            // the block list was empty
    | Construct(n: Node, v: Value)
    | ClearNext(n: Node, v: Value)
    | MoveOut(n: Node, want: Value)
    | AllocLocal                        // Waiter::Allocate looks at its thread's list
    | FreeLocal(n: Node)                // Waiter::Free
    | Ret(op: Op, result: Result)       // the call has only to return

  /** `addr` is the address the memory allocator would return next. */
  datatype Command =
    | Advance(addr: Node)
    | CallPush(l: ListId, n: Node)
    | CallPop(l: ListId)
    | CallPut(v: Value)
    | CallTake
    | CallAllocate
    | CallFree(n: Node)
    | Create(n: Node)
    | Reuse(n: Node, x: Node)

  datatype State = State(sh: Shared, pcs: map<Tid, Pc>, log: seq<Action>)

  function PcOf(s: State, t: Tid): Pc { if t in s.pcs then s.pcs[t] else Idle }

  datatype Effect =
    | NoEffect
    | Transfer(n: Node, dest: Place)
    | Link(n: Node, v: Node)
    | PushRoot(l: ListId, n: Node)
    | PopRoot(l: ListId, n: Node, v: Node, dest: Place)
    | Write(n: Node, slot: Slot)
    | PushLocal(n: Node)
    | PopLocal(n: Node)

  function ApplyEffect(tags: nat, sh: Shared, t: Tid, e: Effect): Shared
    requires tags > 0
  {
    match e
    case NoEffect => sh
    case Transfer(n, q) => sh.(place := sh.place[n := q])
    case Link(n, v) => sh.(next := sh.next[n := v])
    case PushRoot(l, n) =>
      sh.(roots := sh.roots[l := Root(n, (RootOf(sh, l).tag + 1) % tags)],
          items := sh.items[l := [n] + ItemsOf(sh, l)],
          bumps := sh.bumps[l := BumpsOf(sh, l) + 1],
          place := sh.place[n := On(l)])
    case PopRoot(l, n, v, q) =>
      sh.(roots := sh.roots[l := Root(v, (RootOf(sh, l).tag + 1) % tags)],
          items := sh.items[l := Tail(ItemsOf(sh, l))],
          bumps := sh.bumps[l := BumpsOf(sh, l) + 1],
          place := sh.place[n := q])
    case Write(n, slot) => sh.(store := sh.store[n := slot])
    case PushLocal(n) =>
      sh.(next := sh.next[n := LocalHead(sh, t)],
          heads := sh.heads[t := n],
          locals := sh.locals[t := [n] + LocalsOf(sh, t)],
          place := sh.place[n := Local(t)])
    case PopLocal(n) =>
      sh.(heads := sh.heads[t := Next(sh.next, n)],
          locals := sh.locals[t := Tail(LocalsOf(sh, t))],
          place := sh.place[n := Live])
  }

  datatype Outcome = Outcome(eff: Effect, pc: Pc, acts: seq<Action>)

  function Goto(pc: Pc): Outcome { Outcome(NoEffect, pc, []) }

  /** Pop found the list empty. */
  function PopMisses(l: ListId, g: Goal): Pc {
    match g
    case PutValue(v) => NewNode(v)
    case Allocate => Malloc
    case TakeValue => Ret(TakeOp, Nothing)
    case _ => Ret(PopOp(l), Nothing)
  }

  function PopSees(t: Tid, l: ListId, root: Root, seen: nat, g: Goal): Outcome {
    if root.ptr != NULL then Goto(PopRead(l, root, seen, g))
    else Outcome(NoEffect, PopMisses(l, g), [PoppedNone(t, l)])
  }

  /** What a call finds in the storage of a node. */
  function Stored(sh: Shared, n: Node): Value {
    match SlotOf(sh, n) case Full(x) => x case Vacant => 0
  }

  /** A pop's CAS succeeded: hand the node to whoever wanted it. */
  function PopGets(sh: Shared, t: Tid, l: ListId, n: Node, nxt: Node, g: Goal): Outcome {
    match g
    case Client => Outcome(PopRoot(l, n, nxt, Live), Ret(PopOp(l), Got(n)), [Popped(t, l, n, true)])
    case PutValue(v) => Outcome(PopRoot(l, n, nxt, InCall(t)), Construct(n, v), [Popped(t, l, n, false)])
    case TakeValue =>
      Outcome(PopRoot(l, n, nxt, InCall(t)), MoveOut(n, Stored(sh, n)), [PoppedValue(t, n, Stored(sh, n))])
    case Allocate => Outcome(PopRoot(l, n, nxt, Live), Ret(AllocOp, Got(n)), [Popped(t, l, n, true)])
    case Recycle(_) => Goto(Idle)
  }

  /** A push's CAS succeeded. */
  function PushEnds(t: Tid, l: ListId, n: Node, g: Goal): Outcome {
    match g
    case PutValue(v) => Outcome(PushRoot(l, n), Ret(PutOp(v), Done), [PushedValue(t, n, v)])
    case Recycle(v) => Outcome(PushRoot(l, n), Ret(TakeOp, Taken(v)), [Pushed(t, l, n)])
    case _ => Outcome(PushRoot(l, n), Ret(PushOp(l, n), Done), [Pushed(t, l, n)])
  }

  function StepRunning(sh: Shared, t: Tid, pc: Pc, addr: Node): Outcome
    requires !pc.Idle?
  {
    match pc
    case PushLoad(l, n, g) => Goto(PushLink(l, n, RootOf(sh, l), g))
    case PushLink(l, n, root, g) => Outcome(Link(n, root.ptr), PushCas(l, n, root, g), [])
    case PushCas(l, n, root, g) =>
      if RootOf(sh, l) == root then PushEnds(t, l, n, g) else Goto(PushLink(l, n, RootOf(sh, l), g))
    case PopLoad(l, g) => PopSees(t, l, RootOf(sh, l), BumpsOf(sh, l), g)
    case PopRead(l, root, seen, g) => Goto(PopCas(l, root, Next(sh.next, root.ptr), seen, g))
    case PopCas(l, root, nxt, seen, g) =>
      if RootOf(sh, l) == root then PopGets(sh, t, l, root.ptr, nxt, g)
      else PopSees(t, l, RootOf(sh, l), BumpsOf(sh, l), g)
    case NewNode(v) => Outcome(Transfer(addr, InCall(t)), Construct(addr, v), [Made(t, addr)])
    case Malloc => Outcome(Transfer(addr, Live), Ret(AllocOp, Got(addr)), [Allocated(t, addr)])
    case Construct(n, v) => Outcome(Write(n, Full(v)), ClearNext(n, v), [])
    case ClearNext(n, v) => Outcome(Link(n, NULL), PushLoad(VALUES, n, PutValue(v)), [])
    case MoveOut(n, want) => Outcome(Write(n, Vacant), PushLoad(SPARE, n, Recycle(Stored(sh, n))), [])
    case AllocLocal =>
      var n := LocalHead(sh, t);
      if n != NULL then Outcome(PopLocal(n), Ret(AllocOp, Got(n)), [TakenLocal(t, n)])
      else Goto(PopLoad(BLOCKS, Allocate))
    case FreeLocal(n) => Outcome(PushLocal(n), Ret(FreeOp(n), Done), [Freed(t, n)])
    case Ret(op, result) => Outcome(NoEffect, Idle, [Returned(t, op, result)])
  }

  /** The first step of a call. */
  function Begin(t: Tid, c: Command): Outcome
    requires !c.Advance? && !c.Create? && !c.Reuse?
  {
    match c
    case CallPush(l, n) => Outcome(Transfer(n, InCall(t)), PushLoad(l, n, Client), [Called(t, PushOp(l, n))])
    case CallPop(l) => Outcome(NoEffect, PopLoad(l, Client), [Called(t, PopOp(l))])
    case CallPut(v) => Outcome(NoEffect, PopLoad(SPARE, PutValue(v)), [Called(t, PutOp(v))])
    case CallTake => Outcome(NoEffect, PopLoad(VALUES, TakeValue), [Called(t, TakeOp)])
    case CallAllocate => Outcome(NoEffect, AllocLocal, [Called(t, AllocOp)])
    case CallFree(n) => Outcome(Transfer(n, InCall(t)), FreeLocal(n), [Called(t, FreeOp(n))])
  }

  function Decide(sh: Shared, t: Tid, pc: Pc, c: Command): Outcome
    requires c.Advance? ==> !pc.Idle?
  {
    match c
    case Advance(addr) => StepRunning(sh, t, pc, addr)
    case Create(n) => Outcome(Transfer(n, Live), pc, [Created(t, n)])
    case Reuse(n, v) => Outcome(Link(n, v), pc, [])
    case _ => Begin(t, c)
  }

  /** A pop's CAS that succeeds does so fewer than `w` updates after reading the root. */
  predicate InWindow(w: nat, sh: Shared, pc: Pc) {
    pc.PopCas? && RootOf(sh, pc.l) == pc.root ==> BumpsOf(sh, pc.l) - pc.seen < w
  }

  /** Clients push and free only nodes they hold, create nodes and write to the ones they
      hold between their calls; the memory allocator returns nodes nobody has. */
  ghost predicate Callable(s: State, t: Tid, c: Command) {
    var pc := PcOf(s, t);
    match c
    case Advance(addr) =>
      !pc.Idle? && (pc.NewNode? || pc.Malloc? ==> addr != NULL && PlaceOf(s.sh, addr).Unborn?)
    case CallPush(l, n) => pc.Idle? && l >= BLOCKS && n != NULL && PlaceOf(s.sh, n).Live?
    case CallPop(l) => pc.Idle? && l > BLOCKS
    case CallFree(n) => pc.Idle? && n != NULL && PlaceOf(s.sh, n).Live?
    case Create(n) => pc.Idle? && n != NULL && PlaceOf(s.sh, n).Unborn?
    case Reuse(n, _) => pc.Idle? && PlaceOf(s.sh, n).Live?
    case _ => pc.Idle?
  }

  ghost predicate Enabled(w: nat, s: State, t: Tid, c: Command) {
    Callable(s, t, c) && (c.Advance? ==> InWindow(w, s.sh, PcOf(s, t)))
  }

  function Do(tags: nat, s: State, t: Tid, c: Command): State
    requires tags > 0
    requires c.Advance? ==> !PcOf(s, t).Idle?
  {
    var o := Decide(s.sh, t, PcOf(s, t), c);
    State(ApplyEffect(tags, s.sh, t, o.eff), s.pcs[t := o.pc], s.log + o.acts)
  }

  const INITIAL: State :=
    State(Shared(map[], map[], map[], map[], map[], map[], map[], map[]), map[], [])
}
