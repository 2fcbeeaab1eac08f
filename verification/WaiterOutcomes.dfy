/** What each call of Event, Mutex and Semaphore does between its start and its return:
    in a legal history every call that returns took effect exactly as its kind says, and
    the effect determines the result. */
module WaiterOutcomes {
  import opened Chains
  import opened Logs
  import opened WaiterSpec

  /** The actions of thread `t` from number `i` up to `j`. */
  function Acts(log: seq<Action>, i: nat, j: nat, t: Tid): seq<Action>
    requires j <= |log|
  {
    KeptFrom(log, i, j, (x: Action) => x.t == t)
  }

  /** What a call of `op` by thread `t` that returned `result` has done. */
  predicate Achieves(k: Kind, op: Op, t: Tid, acts: seq<Action>, result: bool) {
    match op
    case AddOp(w) =>
      (match k
       case Event => acts == [if result then Push(t, w) else Refuse(t, w)]
       case Mutex => acts == [if result then Push(t, w) else Acquire(t)]
       case Semaphore =>
         && acts != [] && acts[0].Lowered? && (acts[0].seen > 0 <==> !result)
         && acts[1..] == if result then [Push(t, w)] else [])
    case RemoveOp(w) => acts == [if result then Remove(t, w) else Absent(t, w)]
    case LockOp => acts == [if result then Acquire(t) else Busy(t)]
    case UnlockOp => acts == [Release(t)] || GrantedOne(t, acts)
    case PostOp =>
      && acts != [] && acts[0].Posted?
      && (if acts[0].seen >= 0 then |acts| == 1 else acts[1..] == [PostEmpty(t)] || GrantedOne(t, acts[1..]))
    case SetOp => acts == [AlreadySet(t)] || TookAll(t, acts)
    case ResetOp => acts == [Reset(t)]
  }

  /** One waiter taken and its callback run. */
  predicate GrantedOne(t: Tid, acts: seq<Action>) {
    |acts| == 2 && acts[0].Grant? && acts[0].t == t && acts[1] == Notify(t, acts[0].w)
  }

  /** `acts` takes a list and runs the callbacks of its first `n` waiters, in order. */
  predicate Ran(t: Tid, acts: seq<Action>, n: nat) {
    && n < |acts| && acts[0].TakeAll? && acts[0].t == t && n <= |acts[0].ws|
    && forall m :: 0 <= m < n ==> acts[m + 1] == Notify(t, acts[0].ws[m])
  }

  predicate TookAll(t: Tid, acts: seq<Action>) {
    && acts != [] && acts[0].TakeAll?
    && var n := |acts[0].ws|;
    && Ran(t, acts, n)
    && acts[n + 1..] == if n == 0 then [] else [SetDone(t)]
  }

  /** What a call still running has done, by its stage and the callbacks it owes. */
  predicate Progress(k: Kind, op: Op, t: Tid, g: Stage, todo: seq<Node>, acts: seq<Action>) {
    !g.Outside? && g.op == op &&
    match g
    case Begun(_) => acts == []
    case Counted(_) => k.Semaphore? && |acts| == 1 && CountedFirst(op, acts[0])
    case Notifying(_) =>
      (match op
       case UnlockOp => |acts| == 1 && Took(t, acts[0], todo)
       case PostOp => |acts| == 2 && CountedFirst(op, acts[0]) && Took(t, acts[1], todo)
       case SetOp => acts != [] && Ran(t, acts, |acts| - 1) && acts[0].ws != [] && todo == acts[0].ws[|acts| - 1..]
       case _ => false)
    case Over(_, result) => Achieves(k, op, t, acts, result)
  }

  predicate CountedFirst(op: Op, x: Action) {
    if op.PostOp? then x.Posted? && x.seen < 0 else op.AddOp? && x.Lowered? && x.seen <= 0
  }

  predicate Took(t: Tid, x: Action, todo: seq<Node>) {
    x.Grant? && x.t == t && todo == [x.w]
  }

  predicate Inner(x: Action) { !x.Called? && !x.Returned? }

  /** Another thread's action leaves a call where it is. */
  lemma OthersProgress(k: Kind, a: Abs, x: Action, t: Tid)
    requires x.t != t
    ensures StageOf(Apply(k, a, x), t) == StageOf(a, t) && TodoOf(Apply(k, a, x), t) == TodoOf(a, t)
  {
  }

  lemma OwnProgress(k: Kind, op: Op, a: Abs, x: Action, acts: seq<Action>)
    requires Legal(k, a, x) && Inner(x) && Has(k, op)
    requires Progress(k, op, x.t, StageOf(a, x.t), TodoOf(a, x.t), acts)
    ensures var a' := Apply(k, a, x); Progress(k, op, x.t, StageOf(a', x.t), TodoOf(a', x.t), acts + [x])
  {
    if StageOf(a, x.t).Begun? {
      FirstAction(k, op, a, x, acts);
    } else if StageOf(a, x.t).Counted? {
      SecondAction(k, op, a, x, acts);
    } else if op.SetOp? {
      SetAction(k, op, a, x, acts);
    } else {
      LastAction(k, op, a, x, acts);
    }
  }

  lemma FirstAction(k: Kind, op: Op, a: Abs, x: Action, acts: seq<Action>)
    requires Legal(k, a, x) && Inner(x) && Has(k, op) && StageOf(a, x.t) == Begun(op) && acts == []
    ensures var a' := Apply(k, a, x); Progress(k, op, x.t, StageOf(a', x.t), TodoOf(a', x.t), acts + [x])
  {
    assert acts + [x] == [x];
  }

  lemma SecondAction(k: Kind, op: Op, a: Abs, x: Action, acts: seq<Action>)
    requires Legal(k, a, x) && Inner(x) && Has(k, op) && StageOf(a, x.t) == Counted(op)
    requires Progress(k, op, x.t, StageOf(a, x.t), TodoOf(a, x.t), acts)
    ensures var a' := Apply(k, a, x); Progress(k, op, x.t, StageOf(a', x.t), TodoOf(a', x.t), acts + [x])
  {
    assert (acts + [x])[1..] == [x];
  }

  lemma LastAction(k: Kind, op: Op, a: Abs, x: Action, acts: seq<Action>)
    requires Legal(k, a, x) && Inner(x) && StageOf(a, x.t) == Notifying(op) && !op.SetOp?
    requires Progress(k, op, x.t, StageOf(a, x.t), TodoOf(a, x.t), acts)
    ensures var a' := Apply(k, a, x); Progress(k, op, x.t, StageOf(a', x.t), TodoOf(a', x.t), acts + [x])
  {
    if op.PostOp? {
      assert (acts + [x])[1..] == [acts[1], x];
    }
  }

  lemma SetAction(k: Kind, op: Op, a: Abs, x: Action, acts: seq<Action>)
    requires Legal(k, a, x) && Inner(x) && StageOf(a, x.t) == Notifying(SetOp) && op.SetOp?
    requires Progress(k, op, x.t, StageOf(a, x.t), TodoOf(a, x.t), acts)
    ensures var a' := Apply(k, a, x); Progress(k, op, x.t, StageOf(a', x.t), TodoOf(a', x.t), acts + [x])
  {
    var ws, n := acts[0].ws, |acts| - 1;
    if x.Notify? {
      assert ws[n..][0] == ws[n];
      assert ws[n..][1..] == ws[n + 1..];
    } else {
      assert n == |ws|;
      assert (acts + [x])[n + 1..] == [x];
    }
  }

  // ---- Main results ----

  /** Between a call and its return a thread does exactly what the operation is for, once,
      and the result tells which way it went. */
  lemma OneEffectPerCall(k: Kind, isSet: bool, count: nat, log: seq<Action>, i: nat, j: nat)
    requires LegalHistory(k, Start(k, isSet, count), log) && i < j < |log|
    requires log[i].Called? && log[j].Returned? && log[j].t == log[i].t
    requires forall n :: i < n < j && log[n].t == log[i].t ==> Inner(log[n])
    ensures log[j].op == log[i].op
    ensures Achieves(k, log[i].op, log[i].t, Acts(log, i + 1, j, log[i].t), log[j].result)
  {
    hide *;
    var a0, t, op := Start(k, isSet, count), log[i].t, log[i].op;
    CallStarts(k, a0, log, i);
    var n := i + 1;
    while n < j
      invariant i < n <= j
      invariant ProgressAt(k, a0, log, op, t, i, n)
    {
      CallGoesOn(k, a0, log, op, t, i, n);
      n := n + 1;
    }
    CallEnds(k, a0, log, op, t, i, j);
  }

  ghost predicate ProgressAt(k: Kind, a0: Abs, log: seq<Action>, op: Op, t: Tid, i: nat, n: nat)
    requires n <= |log|
  {
    var a := At(k, a0, log, n);
    Has(k, op) && Progress(k, op, t, StageOf(a, t), TodoOf(a, t), Acts(log, i + 1, n, t))
  }

  lemma CallStarts(k: Kind, a0: Abs, log: seq<Action>, i: nat)
    requires LegalHistory(k, a0, log) && i < |log| && log[i].Called?
    ensures ProgressAt(k, a0, log, log[i].op, log[i].t, i, i + 1)
  {
    LegalAt(k, a0, log, i);
  }

  lemma CallGoesOn(k: Kind, a0: Abs, log: seq<Action>, op: Op, t: Tid, i: nat, n: nat)
    requires LegalHistory(k, a0, log) && i < n < |log| && ProgressAt(k, a0, log, op, t, i, n)
    requires log[n].t == t ==> Inner(log[n])
    ensures ProgressAt(k, a0, log, op, t, i, n + 1)
  {
    hide Legal, Apply, Progress;
    LegalAt(k, a0, log, n);
    if log[n].t == t {
      OwnProgress(k, op, At(k, a0, log, n), log[n], Acts(log, i + 1, n, t));
    } else {
      OthersProgress(k, At(k, a0, log, n), log[n], t);
      assert Acts(log, i + 1, n + 1, t) == Acts(log, i + 1, n, t);
    }
  }

  lemma CallEnds(k: Kind, a0: Abs, log: seq<Action>, op: Op, t: Tid, i: nat, j: nat)
    requires LegalHistory(k, a0, log) && i < j < |log| && ProgressAt(k, a0, log, op, t, i, j)
    requires log[j].Returned? && log[j].t == t
    ensures log[j].op == op && Achieves(k, op, t, Acts(log, i + 1, j, t), log[j].result)
  {
    LegalAt(k, a0, log, j);
  }

  function Calls(log: seq<Action>, t: Tid): nat {
    Tally(log, (x: Action) => x.Called? && x.t == t)
  }

  function Returns(log: seq<Action>, t: Tid): nat {
    Tally(log, (x: Action) => x.Returned? && x.t == t)
  }

  /** A thread has one call open exactly when it is not outside. */
  lemma {:induction false} CallsReturn(k: Kind, isSet: bool, count: nat, log: seq<Action>, t: Tid)
    requires LegalHistory(k, Start(k, isSet, count), log)
    ensures var a := Replay(k, Start(k, isSet, count), log);
      Calls(log, t) == Returns(log, t) + if StageOf(a, t).Outside? then 0 else 1
  {
    if log == [] {
    } else {
      var n := |log| - 1;
      CallsReturn(k, isSet, count, log[..n], t);
      OpenStep(k, Replay(k, Start(k, isSet, count), log[..n]), log[n], t);
    }
  }

  lemma OpenStep(k: Kind, a: Abs, x: Action, t: Tid)
    requires Legal(k, a, x)
    ensures StageOf(Apply(k, a, x), t).Outside? <==>
      (StageOf(a, t).Outside? && !(x.Called? && x.t == t)) || (x.Returned? && x.t == t)
    ensures x.t == t ==> (x.Called? ==> StageOf(a, t).Outside?) && (x.Returned? ==> !StageOf(a, t).Outside?)
  {
  }
}
