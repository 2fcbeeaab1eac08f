/** The sequential meaning of the LIFO lists, the queue and the allocator: plain stacks,
    and which action of which call is legal when. */
module LifoSpec {
  import opened Sequences
  import opened Chains

  type Tid = nat
  type ListId = nat
  type Value = int

  const VALUES: ListId := 0     // MPMCLifoQueue::mQueueNodes
  const SPARE: ListId := 1      // MPMCLifoQueue::mFreeNodes
  const BLOCKS: ListId := 2     // WaiterAllocator::mFreeList; larger ids are plain lists

  /** MPMCLifoList's Push and Pop, MPMCLifoQueue's Push and TryPop, Waiter's Allocate and
      Free. */
  datatype Op =
    | PushOp(l: ListId, n: Node) | PopOp(l: ListId)
    | PutOp(v: Value) | TakeOp
    | AllocOp | FreeOp(n: Node)

  datatype Result = Done | Got(n: Node) | Taken(v: Value) | Nothing

  /** How far a thread's call is: not in a call; nothing done yet; the list it needed a
      node from was empty; it has a node, and the value it puts or took; only the return
      left. */
  datatype Stage =
    | Outside
    | Begun(op: Op)
    | Missed(op: Op)
    | Holding(op: Op, n: Node, v: Value)
    | Over(op: Op, result: Result)

  /** Plain stacks of nodes, the queued values, the nodes clients hold, each thread's
      local free list, the nodes that exist, and where each thread is in its call. */
  datatype Abs = Abs(
    stacks: map<ListId, seq<Node>>,
    values: seq<Value>,
    held: set<Node>,
    locals: map<Tid, seq<Node>>,
    born: set<Node>,
    calls: map<Tid, Stage>)

  datatype Action =
    | Called(t: Tid, op: Op)
    | Returned(t: Tid, op: Op, result: Result)
    | Pushed(t: Tid, l: ListId, n: Node)
    | Popped(t: Tid, l: ListId, n: Node, out: bool)  // `out`: for a client
    | PoppedNone(t: Tid, l: ListId)
    | PushedValue(t: Tid, n: Node, v: Value)         // the queue's Push took effect
    | PoppedValue(t: Tid, n: Node, v: Value)         // TryPop took effect
    | Made(t: Tid, n: Node)                          // the queue allocated a node
    | Allocated(t: Tid, n: Node)                     // malloc in Allocate
    | TakenLocal(t: Tid, n: Node)
    | Freed(t: Tid, n: Node)
    | Created(t: Tid, n: Node)                       // a client allocated a node itself

  function StackOf(a: Abs, l: ListId): seq<Node> { if l in a.stacks then a.stacks[l] else [] }

  function LocalsIn(a: Abs, t: Tid): seq<Node> { if t in a.locals then a.locals[t] else [] }

  function StageOf(a: Abs, t: Tid): Stage { if t in a.calls then a.calls[t] else Outside }

  /** The action is the next one a call at stage `g` may take. */
  predicate InOrder(g: Stage, x: Action) {
    match x
    case Called(_, _) => g.Outside?
    case Created(_, _) => g.Outside?
    case Returned(_, op, result) => g == Over(op, result)
    case Pushed(_, l, n) => g == Begun(PushOp(l, n)) || (g.Holding? && g.op == TakeOp && g.n == n && l == SPARE)
    case Popped(_, l, _, out) =>
      g.Begun? && (if out then g.op == PopOp(l) || (g.op.AllocOp? && l == BLOCKS) else g.op.PutOp? && l == SPARE)
    case PoppedNone(_, l) =>
      g.Begun? &&
      (match g.op
       case PopOp(m) => l == m
       case PutOp(_) => l == SPARE
       case TakeOp => l == VALUES
       case AllocOp => l == BLOCKS
       case _ => false)
    case PushedValue(_, n, v) => g == Holding(PutOp(v), n, v)
    case PoppedValue(_, _, _) => g == Begun(TakeOp)
    case Made(_, _) => g.Missed? && g.op.PutOp?
    case Allocated(_, _) => g == Missed(AllocOp)
    case TakenLocal(_, _) => g == Begun(AllocOp)
    case Freed(_, n) => g == Begun(FreeOp(n))
  }

  /** On no stack and with no client. */
  ghost predicate Nowhere(a: Abs, n: Node) {
    n != NULL && n !in a.held && (forall l :: n !in StackOf(a, l)) && forall t :: n !in LocalsIn(a, t)
  }

  ghost predicate Legal(a: Abs, x: Action) {
    && InOrder(StageOf(a, x.t), x)
    && match x
       case Called(_, op) => (op.PushOp? || op.FreeOp?) ==> op.n in a.held
       case Pushed(_, l, n) => l != VALUES && Nowhere(a, n)
       case Popped(_, l, n, _) =>
         && l != VALUES && StackOf(a, l) != [] && StackOf(a, l)[0] == n && n !in a.held
         && (StageOf(a, x.t).op.AllocOp? ==> LocalsIn(a, x.t) == [])
       case PoppedNone(_, l) => StackOf(a, l) == [] && (StageOf(a, x.t).op.AllocOp? ==> LocalsIn(a, x.t) == [])
       case PushedValue(_, n, v) => Nowhere(a, n)
       case PoppedValue(_, n, v) =>
         StackOf(a, VALUES) != [] && StackOf(a, VALUES)[0] == n && a.values != [] && a.values[0] == v
       case Made(_, n) => n !in a.born && Nowhere(a, n)
       case Allocated(_, n) => n !in a.born && Nowhere(a, n)
       case Created(_, n) => n !in a.born && Nowhere(a, n)
       case TakenLocal(t, n) => LocalsIn(a, t) != [] && LocalsIn(a, t)[0] == n && n !in a.held
       case Freed(_, n) => Nowhere(a, n)
       case _ => true
  }

  /** The stage after an action. */
  function After(g: Stage, x: Action): Stage {
    if g.Outside? then
      match x case Called(_, op) => Begun(op) case _ => g
    else
      match x
      case Returned(_, _, _) => Outside
      case Popped(_, _, n, out) => if out then Over(g.op, Got(n)) else Holding(g.op, n, ValueOf(g.op))
      case PoppedNone(_, _) => if g.op.PutOp? || g.op.AllocOp? then Missed(g.op) else Over(g.op, Nothing)
      case PoppedValue(_, n, v) => Holding(g.op, n, v)
      case Made(_, n) => Holding(g.op, n, ValueOf(g.op))
      case Allocated(_, n) => Over(g.op, Got(n))
      case TakenLocal(_, n) => Over(g.op, Got(n))
      case Pushed(_, _, _) => Over(g.op, if g.Holding? then Taken(g.v) else Done)
      case _ => Over(g.op, Done)
  }

  function ValueOf(op: Op): Value {
    match op case PutOp(v) => v case _ => 0
  }

  /** What an action does to everything but the calls. */
  function Changed(a: Abs, x: Action): Abs {
    match x
    case Called(_, op) => if op.PushOp? || op.FreeOp? then a.(held := a.held - {op.n}) else a
    case Pushed(_, l, n) => a.(stacks := a.stacks[l := [n] + StackOf(a, l)])
    case Popped(_, l, n, out) =>
      a.(stacks := a.stacks[l := Tail(StackOf(a, l))], held := if out then a.held + {n} else a.held)
    case PushedValue(_, n, v) =>
      a.(stacks := a.stacks[VALUES := [n] + StackOf(a, VALUES)], values := [v] + a.values)
    case PoppedValue(_, n, v) =>
      a.(stacks := a.stacks[VALUES := Tail(StackOf(a, VALUES))], values := Tail(a.values))
    case Made(_, n) => a.(born := a.born + {n})
    case Allocated(_, n) => a.(born := a.born + {n}, held := a.held + {n})
    case Created(_, n) => a.(born := a.born + {n}, held := a.held + {n})
    case TakenLocal(t, n) => a.(locals := a.locals[t := Tail(LocalsIn(a, t))], held := a.held + {n})
    case Freed(t, n) => a.(locals := a.locals[t := [n] + LocalsIn(a, t)])
    case _ => a
  }

  function Apply(a: Abs, x: Action): Abs {
    Changed(a, x).(calls := a.calls[x.t := After(StageOf(a, x.t), x)])
  }

  const NO_LISTS: Abs := Abs(map[], [], {}, map[], {}, map[])

  function Replay(log: seq<Action>): Abs {
    if log == [] then NO_LISTS else Apply(Replay(log[..|log| - 1]), log[|log| - 1])
  }

  ghost predicate LegalHistory(log: seq<Action>) {
    log != [] ==>
      && LegalHistory(log[..|log| - 1])
      && Legal(Replay(log[..|log| - 1]), log[|log| - 1])
  }

  lemma ReplayExtend(log: seq<Action>, x: Action)
    ensures Replay(log + [x]) == Apply(Replay(log), x)
    ensures LegalHistory(log + [x]) <==> LegalHistory(log) && Legal(Replay(log), x)
  {
    assert (log + [x])[..|log|] == log;
  }

  lemma {:induction false} LegalPrefix(log: seq<Action>, n: nat)
    requires LegalHistory(log) && n <= |log|
    ensures LegalHistory(log[..n])
    decreases |log|
  {
    if n < |log| {
      LegalPrefix(log[..|log| - 1], n);
      assert log[..|log| - 1][..n] == log[..n];
    } else {
      assert log[..n] == log;
    }
  }

  /** The state before the action number `m`. */
  function At(log: seq<Action>, m: nat): Abs
    requires m <= |log|
  {
    if m == 0 then NO_LISTS else Apply(At(log, m - 1), log[m - 1])
  }

  lemma {:induction false} AtIsReplay(log: seq<Action>, m: nat)
    requires m <= |log|
    ensures At(log, m) == Replay(log[..m])
  {
    if m == 0 {
    } else {
      AtIsReplay(log, m - 1);
      assert log[..m][..m - 1] == log[..m - 1];
    }
  }

  lemma LegalAt(log: seq<Action>, m: nat)
    requires LegalHistory(log) && m < |log|
    ensures Legal(At(log, m), log[m])
  {
    LegalPrefix(log, m + 1);
    AtIsReplay(log, m);
    assert log[..m + 1][..m] == log[..m];
  }
}
