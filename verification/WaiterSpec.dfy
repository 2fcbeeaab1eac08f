/** The sequential meaning of Event, Mutex and Semaphore: an abstract state, the
    actions that may change it, and which action is legal when.  Nothing here knows
    about words, tags, lock bits or `next` fields. */
module WaiterSpec {
  import opened Sequences
  import opened Chains

  type Tid = nat

  datatype Kind = Event | Mutex | Semaphore

  datatype Owner = Nobody | Holder(tid: Tid) | Granted(waiter: Node) | Woken

  datatype Op = AddOp(w: Node) | RemoveOp(w: Node) | LockOp | UnlockOp | PostOp | SetOp | ResetOp

  /** How far a thread's call is: not in a call; nothing done yet; the semaphore's count
      changed and more to do; waiters taken and callbacks to run; only the return left. */
  datatype Stage =
    | Outside
    | Begun(op: Op)
    | Counted(op: Op)
    | Notifying(op: Op)
    | Over(op: Op, result: bool)

  /** `flag`: the event is set, or the mutex is free.  `list`: registered waiters,
      newest first.  `claimed`: waiters taken off the list whose callback has not run
      yet; `todo` says which thread will run them, in order.  `calls`: where each thread
      is in its call. */
  datatype Abs = Abs(
    flag: bool,
    list: seq<Node>,
    claimed: set<Node>,
    todo: map<Tid, seq<Node>>,
    owner: Owner,
    count: int,
    calls: map<Tid, Stage>)

  datatype Action =
    | Called(t: Tid, op: Op)
    | Returned(t: Tid, op: Op, result: bool)
    | Push(t: Tid, w: Node)           // AddWaiter registered its waiter
    | Refuse(t: Tid, w: Node)         // AddWaiter found the event set
    | Acquire(t: Tid)                 // Lock or AddWaiter took a free mutex
    | Busy(t: Tid)                    // Lock gave up spinning on a held mutex
    | Release(t: Tid)                 // Unlock made the mutex free
    | Grant(t: Tid, w: Node)          // Unlock or Post took one waiter
    | TakeAll(t: Tid, ws: seq<Node>)  // Set took every waiter
    | Notify(t: Tid, w: Node)         // a taken waiter's callback ran
    | TakeOver(t: Tid)                // the owner of a granted waiter resumed holding the mutex
    | SetDone(t: Tid)                 // Set has notified its waiters
    | AlreadySet(t: Tid)              // Set found the event set
    | Reset(t: Tid)
    | Remove(t: Tid, w: Node)         // RemoveWaiter took its waiter out
    | Absent(t: Tid, w: Node)         // RemoveWaiter found its waiter gone
    | Posted(t: Tid, seen: int)       // Post incremented the count
    | Lowered(t: Tid, seen: int)      // Semaphore::AddWaiter decremented the count
    | PostEmpty(t: Tid)               // Post found no waiter

  function TodoOf(a: Abs, t: Tid): seq<Node> {
    if t in a.todo then a.todo[t] else []
  }

  function StageOf(a: Abs, t: Tid): Stage {
    if t in a.calls then a.calls[t] else Outside
  }

  /** The calls each kind of object has. */
  predicate Has(k: Kind, op: Op) {
    match op
    case AddOp(w) => w != NULL
    case RemoveOp(w) => w != NULL
    case LockOp => k.Mutex?
    case UnlockOp => k.Mutex?
    case PostOp => k.Semaphore?
    case SetOp => k.Event?
    case ResetOp => k.Event?
  }

  /** The action is the next one a call at stage `g` may take. */
  predicate InOrder(k: Kind, g: Stage, x: Action) {
    match x
    case Called(_, op) => g.Outside? && Has(k, op)
    case Returned(_, op, result) => g == Over(op, result)
    case Push(_, w) => g == if k.Semaphore? then Counted(AddOp(w)) else Begun(AddOp(w))
    case Refuse(_, w) => g == Begun(AddOp(w))
    case Acquire(_) => g.Begun? && (g.op.LockOp? || g.op.AddOp?)
    case Busy(_) => g == Begun(LockOp)
    case Release(_) => g == Begun(UnlockOp)
    case Grant(_, _) => g == if k.Mutex? then Begun(UnlockOp) else Counted(PostOp)
    case TakeAll(_, _) => g == Begun(SetOp)
    case Notify(_, _) => g.Notifying?
    case TakeOver(_) => g.Outside?
    case SetDone(_) => g == Notifying(SetOp)
    case AlreadySet(_) => g == Begun(SetOp)
    case Reset(_) => g == Begun(ResetOp)
    case Remove(_, w) => g == Begun(RemoveOp(w))
    case Absent(_, w) => g == Begun(RemoveOp(w))
    case Posted(_, _) => g == Begun(PostOp)
    case Lowered(_, _) => g.Begun? && g.op.AddOp?
    case PostEmpty(_) => g == Counted(PostOp)
  }

  ghost predicate Legal(k: Kind, a: Abs, x: Action) {
    && InOrder(k, StageOf(a, x.t), x)
    && match x
       case Push(t, w) => !a.flag && w !in a.list && w !in a.claimed
       case Refuse(t, w) => k.Event? && a.flag
       case Acquire(t) => k.Mutex? && a.flag && a.owner.Nobody?
       case Busy(t) => k.Mutex? && !a.flag
       case Release(t) => k.Mutex? && !a.flag && a.list == [] && a.owner == Holder(t)
       case Grant(t, w) =>
         a.list != [] && a.list[0] == w && TodoOf(a, t) == [] && !k.Event? && (k.Mutex? ==> a.owner == Holder(t))
       case TakeAll(t, ws) => k.Event? && !a.flag && ws == a.list && TodoOf(a, t) == []
       case Notify(t, w) =>
         TodoOf(a, t) != [] && TodoOf(a, t)[0] == w && (k.Mutex? ==> a.owner == Granted(w))
       case TakeOver(t) => k.Mutex? && a.owner.Woken?
       case SetDone(t) => k.Event? && TodoOf(a, t) == []
       case AlreadySet(t) => k.Event? && a.flag
       case Reset(t) => k.Event?
       case Remove(t, w) => w in a.list
       case Absent(t, w) => w !in a.list
       case Posted(t, seen) => k.Semaphore? && seen == a.count
       case Lowered(t, seen) => k.Semaphore? && seen == a.count
       case PostEmpty(t) => k.Semaphore? && a.list == []
       case _ => true
  }

  /** The stage after an action. */
  function After(g: Stage, x: Action): Stage {
    if g.Outside? then
      match x case Called(_, op) => Begun(op) case _ => g
    else
      match x
      case Returned(_, _, _) => Outside
      case Refuse(_, _) => Over(g.op, false)
      case Acquire(_) => Over(g.op, g.op.LockOp?)
      case Busy(_) => Over(g.op, false)
      case Grant(_, _) => Notifying(g.op)
      case TakeAll(_, ws) => if ws == [] then Over(g.op, true) else Notifying(g.op)
      case Notify(_, _) => if g.op.SetOp? then g else Over(g.op, true)
      case Absent(_, _) => Over(g.op, false)
      case Posted(_, seen) => if seen < 0 then Counted(g.op) else Over(g.op, true)
      case Lowered(_, seen) => if seen > 0 then Over(g.op, false) else Counted(g.op)
      case _ => Over(g.op, true)
  }

  /** What an action does to everything but the calls. */
  function Changed(k: Kind, a: Abs, x: Action): Abs {
    match x
    case Push(t, w) => a.(list := [w] + a.list)
    case Acquire(t) => a.(flag := false, owner := Holder(t))
    case Release(t) => a.(flag := true, owner := Nobody)
    case Grant(t, w) =>
      a.(list := Tail(a.list),
         claimed := a.claimed + {w},
         todo := a.todo[t := [w]],
         owner := if k.Mutex? then Granted(w) else a.owner)
    case TakeAll(t, ws) =>
      a.(flag := true, list := [], claimed := a.claimed + (set w | w in ws),
         todo := a.todo[t := ws])
    case Notify(t, w) =>
      a.(claimed := a.claimed - {w},
         todo := a.todo[t := Tail(TodoOf(a, t))],
         owner := if k.Mutex? then Woken else a.owner)
    case TakeOver(t) => a.(owner := Holder(t))
    case Reset(t) => a.(flag := false)
    case Remove(t, w) => a.(list := Without(a.list, w))
    case Posted(t, seen) => a.(count := a.count + 1)
    case Lowered(t, seen) => a.(count := a.count - 1)
    case _ => a
  }

  function Apply(k: Kind, a: Abs, x: Action): Abs {
    Changed(k, a, x).(calls := a.calls[x.t := After(StageOf(a, x.t), x)])
  }

  /** A new event (set or not), a new free mutex, a new semaphore. */
  function Start(k: Kind, isSet: bool, count: nat): Abs {
    Abs(match k case Event => isSet case Mutex => true case Semaphore => false,
        [], {}, map[], Nobody, count, map[])
  }

  /** The abstract state a history of actions leads to. */
  function Replay(k: Kind, a: Abs, log: seq<Action>): Abs {
    if log == [] then a else Apply(k, Replay(k, a, log[..|log| - 1]), log[|log| - 1])
  }

  /** Every action of the history was legal when it happened. */
  ghost predicate LegalHistory(k: Kind, a: Abs, log: seq<Action>) {
    log != [] ==>
      && LegalHistory(k, a, log[..|log| - 1])
      && Legal(k, Replay(k, a, log[..|log| - 1]), log[|log| - 1])
  }

  lemma ReplayExtend(k: Kind, a: Abs, log: seq<Action>, x: Action)
    ensures Replay(k, a, log + [x]) == Apply(k, Replay(k, a, log), x)
    ensures LegalHistory(k, a, log + [x])
      <==> LegalHistory(k, a, log) && Legal(k, Replay(k, a, log), x)
  {
    assert (log + [x])[..|log|] == log;
  }

  /** A legal history stays legal when cut short. */
  lemma {:induction false} LegalPrefix(k: Kind, a: Abs, log: seq<Action>, n: nat)
    requires LegalHistory(k, a, log) && n <= |log|
    ensures LegalHistory(k, a, log[..n])
    decreases |log|
  {
    if n < |log| {
      LegalPrefix(k, a, log[..|log| - 1], n);
      assert log[..|log| - 1][..n] == log[..n];
    } else {
      assert log[..n] == log;
    }
  }

  /** The state before the action number `m`. */
  function At(k: Kind, a: Abs, log: seq<Action>, m: nat): Abs
    requires m <= |log|
  {
    if m == 0 then a else Apply(k, At(k, a, log, m - 1), log[m - 1])
  }

  lemma {:induction false} AtIsReplay(k: Kind, a: Abs, log: seq<Action>, m: nat)
    requires m <= |log|
    ensures At(k, a, log, m) == Replay(k, a, log[..m])
  {
    if m == 0 {
    } else {
      AtIsReplay(k, a, log, m - 1);
      assert log[..m][..m - 1] == log[..m - 1];
    }
  }

  lemma LegalAt(k: Kind, a: Abs, log: seq<Action>, m: nat)
    requires LegalHistory(k, a, log) && m < |log|
    ensures Legal(k, At(k, a, log, m), log[m])
  {
    LegalPrefix(k, a, log, m + 1);
    AtIsReplay(k, a, log, m);
    assert log[..m + 1][..m] == log[..m];
  }
}
