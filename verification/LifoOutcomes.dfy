/** What each call on the lists, the queue and the allocator does between its start and its
    return, and where the queue's values are meanwhile. */
module LifoOutcomes {
  import opened Sequences
  import opened Chains
  import opened Logs
  import opened LifoSpec

  /** The actions of thread `t` from number `i` up to `j`. */
  function Acts(log: seq<Action>, i: nat, j: nat, t: Tid): seq<Action>
    requires j <= |log|
  {
    KeptFrom(log, i, j, (x: Action) => x.t == t)
  }

  /** What a call of `op` by thread `t` that returned `result` has done. */
  predicate Achieves(op: Op, t: Tid, acts: seq<Action>, result: Result) {
    match op
    case PushOp(l, n) => result == Done && acts == [Pushed(t, l, n)]
    case PopOp(l) =>
      (match result
       case Nothing => acts == [PoppedNone(t, l)]
       case Got(n) => acts == [Popped(t, l, n, true)]
       case _ => false)
    case PutOp(v) => result == Done && |acts| >= 2 && Fetched(t, acts[..|acts| - 1], acts[|acts| - 1], v)
    case TakeOp =>
      (match result
       case Nothing => acts == [PoppedNone(t, VALUES)]
       case Taken(v) =>
         |acts| == 2 && acts[0].PoppedValue? && acts[0] == PoppedValue(t, acts[0].n, v)
         && acts[1] == Pushed(t, SPARE, acts[0].n)
       case _ => false)
    case AllocOp =>
      result.Got? &&
      (acts == [TakenLocal(t, result.n)] || acts == [Popped(t, BLOCKS, result.n, true)]
       || acts == [PoppedNone(t, BLOCKS), Allocated(t, result.n)])
    case FreeOp(n) => result == Done && acts == [Freed(t, n)]
  }

  /** The queue's Push took a spare node, or made one as there was none, and queued it. */
  predicate Fetched(t: Tid, before: seq<Action>, last: Action, v: Value) {
    last.PushedValue? && last == PushedValue(t, last.n, v) && GotNode(t, before, last.n)
  }

  predicate GotNode(t: Tid, acts: seq<Action>, n: Node) {
    acts == [Popped(t, SPARE, n, false)] || acts == [PoppedNone(t, SPARE), Made(t, n)]
  }

  /** What a call still running has done. */
  predicate Progress(op: Op, t: Tid, g: Stage, acts: seq<Action>) {
    !g.Outside? && g.op == op &&
    match g
    case Begun(_) => acts == []
    case Missed(_) =>
      (match op
       case PutOp(_) => acts == [PoppedNone(t, SPARE)]
       case AllocOp => acts == [PoppedNone(t, BLOCKS)]
       case _ => false)
    case Holding(_, n, v) =>
      (match op
       case PutOp(x) => v == x && GotNode(t, acts, n)
       case TakeOp => acts == [PoppedValue(t, n, v)]
       case _ => false)
    case Over(_, result) => Achieves(op, t, acts, result)
  }

  /** Between a call and its return a thread only takes part in that call. */
  predicate Inner(x: Action) { !x.Called? && !x.Returned? && !x.Created? }

  lemma OthersProgress(a: Abs, x: Action, t: Tid)
    requires x.t != t
    ensures StageOf(Apply(a, x), t) == StageOf(a, t)
  {
  }

  lemma OwnProgress(op: Op, a: Abs, x: Action, acts: seq<Action>)
    requires Legal(a, x) && Inner(x) && Progress(op, x.t, StageOf(a, x.t), acts)
    ensures Progress(op, x.t, StageOf(Apply(a, x), x.t), acts + [x])
  {
    if StageOf(a, x.t).Begun? {
      FirstAction(op, a, x, acts);
    } else {
      LastAction(op, a, x, acts);
    }
  }

  lemma FirstAction(op: Op, a: Abs, x: Action, acts: seq<Action>)
    requires Legal(a, x) && Inner(x) && Progress(op, x.t, StageOf(a, x.t), acts) && StageOf(a, x.t).Begun?
    ensures Progress(op, x.t, StageOf(Apply(a, x), x.t), acts + [x])
  {
    assert acts + [x] == [x];
  }

  lemma LastAction(op: Op, a: Abs, x: Action, acts: seq<Action>)
    requires Legal(a, x) && Inner(x) && Progress(op, x.t, StageOf(a, x.t), acts) && !StageOf(a, x.t).Begun?
    ensures Progress(op, x.t, StageOf(Apply(a, x), x.t), acts + [x])
  {
    assert (acts + [x])[..|acts|] == acts;
  }

  ghost predicate ProgressAt(log: seq<Action>, op: Op, t: Tid, i: nat, n: nat)
    requires n <= |log|
  {
    Progress(op, t, StageOf(At(log, n), t), Acts(log, i + 1, n, t))
  }

  lemma CallStarts(log: seq<Action>, i: nat)
    requires LegalHistory(log) && i < |log| && log[i].Called?
    ensures ProgressAt(log, log[i].op, log[i].t, i, i + 1)
  {
    LegalAt(log, i);
  }

  lemma CallGoesOn(log: seq<Action>, op: Op, t: Tid, i: nat, n: nat)
    requires LegalHistory(log) && i < n < |log| && ProgressAt(log, op, t, i, n)
    requires log[n].t == t ==> Inner(log[n])
    ensures ProgressAt(log, op, t, i, n + 1)
  {
    hide Legal, Apply, Progress;
    LegalAt(log, n);
    if log[n].t == t {
      OwnProgress(op, At(log, n), log[n], Acts(log, i + 1, n, t));
    } else {
      OthersProgress(At(log, n), log[n], t);
      assert Acts(log, i + 1, n + 1, t) == Acts(log, i + 1, n, t);
    }
  }

  lemma CallEnds(log: seq<Action>, op: Op, t: Tid, i: nat, j: nat)
    requires LegalHistory(log) && i < j < |log| && ProgressAt(log, op, t, i, j)
    requires log[j].Returned? && log[j].t == t
    ensures log[j].op == op && Achieves(op, t, Acts(log, i + 1, j, t), log[j].result)
  {
    LegalAt(log, j);
  }

  function Calls(log: seq<Action>, t: Tid): nat {
    Tally(log, (x: Action) => x.Called? && x.t == t)
  }

  function Returns(log: seq<Action>, t: Tid): nat {
    Tally(log, (x: Action) => x.Returned? && x.t == t)
  }

  lemma OpenStep(a: Abs, x: Action, t: Tid)
    requires Legal(a, x)
    ensures StageOf(Apply(a, x), t).Outside? <==>
      (StageOf(a, t).Outside? && !(x.Called? && x.t == t)) || (x.Returned? && x.t == t)
    ensures x.t == t ==> (x.Called? ==> StageOf(a, t).Outside?) && (x.Returned? ==> !StageOf(a, t).Outside?)
  {
  }

  // ---- Values ----

  function Puts(log: seq<Action>, v: Value): nat {
    Tally(log, (x: Action) => PutsOne(x, v))
  }

  function Deliveries(log: seq<Action>, v: Value): nat {
    Tally(log, (x: Action) => DeliversOne(x, v))
  }

  predicate PutsOne(x: Action, v: Value) { x.Called? && x.op == PutOp(v) }

  predicate DeliversOne(x: Action, v: Value) { x.Returned? && x.op.TakeOp? && x.result == Taken(v) }

  /** A Push that has not queued the value yet, or a TryPop that has not returned it. */
  predicate Bears(g: Stage, v: Value) {
    match g
    case Outside => false
    case Begun(op) => op == PutOp(v)
    case Missed(op) => op == PutOp(v)
    case Holding(op, _, x) => (op == PutOp(v) || op.TakeOp?) && x == v
    case Over(op, result) => op.TakeOp? && result == Taken(v)
  }

  function Underway(calls: map<Tid, Stage>, v: Value): set<Tid> {
    set t | t in calls && Bears(calls[t], v)
  }

  lemma UnderwayMoves(a: Abs, t: Tid, g: Stage, v: Value)
    ensures |Underway(a.calls[t := g], v)| ==
      |Underway(a.calls, v)| - (if Bears(StageOf(a, t), v) then 1 else 0) + (if Bears(g, v) then 1 else 0)
  {
    var before, after := Underway(a.calls, v), Underway(a.calls[t := g], v);
    forall u | u != t ensures u in before <==> u in after {
      assert u in a.calls <==> u in a.calls[t := g];
    }
    SizeMoves(before, after, t);
  }

  /** A call's stage keeps to its operation. */
  ghost predicate StageOk(g: Stage) {
    match g
    case Holding(op, _, v) => op == PutOp(v) || op.TakeOp?
    case Over(op, result) => op.TakeOp? || !result.Taken?
    case _ => true
  }

  lemma StageStep(a: Abs, x: Action)
    requires Legal(a, x) && StageOk(StageOf(a, x.t))
    ensures StageOk(After(StageOf(a, x.t), x))
  {
  }

  lemma BearStep(a: Abs, x: Action, v: Value)
    requires Legal(a, x) && StageOk(StageOf(a, x.t))
    ensures (if Bears(After(StageOf(a, x.t), x), v) then 1 else 0)
      == (if Bears(StageOf(a, x.t), v) then 1 else 0)
      + (if PutsOne(x, v) then 1 else 0) - (if DeliversOne(x, v) then 1 else 0)
      - (if x.PushedValue? && x.v == v then 1 else 0) + (if x.PoppedValue? && x.v == v then 1 else 0)
  {
  }

  lemma QueueStep(a: Abs, x: Action, v: Value)
    requires Legal(a, x)
    ensures multiset(Apply(a, x).values)[v] == multiset(a.values)[v]
      + (if x.PushedValue? && x.v == v then 1 else 0) - (if x.PoppedValue? && x.v == v then 1 else 0)
  {
    if x.PoppedValue? {
      assert a.values == [a.values[0]] + a.values[1..];
    }
  }

  ghost predicate StagesOk(a: Abs) {
    forall t :: StageOk(StageOf(a, t))
  }

  lemma {:induction false} HistoryStages(log: seq<Action>)
    requires LegalHistory(log)
    ensures StagesOk(Replay(log))
  {
    if log == [] {
    } else {
      var a, x := Replay(log[..|log| - 1]), log[|log| - 1];
      HistoryStages(log[..|log| - 1]);
      StagesStep(a, x);
    }
  }

  lemma StagesStep(a: Abs, x: Action)
    requires Legal(a, x) && StagesOk(a)
    ensures StagesOk(Apply(a, x))
  {
    StageStep(a, x);
    forall t ensures StageOk(StageOf(Apply(a, x), t)) {
      assert StageOk(StageOf(a, t));
      if t != x.t {
        OthersProgress(a, x, t);
      }
    }
  }

  // ---- Main results ----

  /** Between a call and its return a thread does exactly what the operation is for, once,
      and the result is what it got. */
  lemma OneEffectPerCall(log: seq<Action>, i: nat, j: nat)
    requires LegalHistory(log) && i < j < |log|
    requires log[i].Called? && log[j].Returned? && log[j].t == log[i].t
    requires forall n :: i < n < j && log[n].t == log[i].t ==> Inner(log[n])
    ensures log[j].op == log[i].op && Achieves(log[i].op, log[i].t, Acts(log, i + 1, j, log[i].t), log[j].result)
  {
    CallUnderWay(log, i, j);
    CallEnds(log, log[i].op, log[i].t, i, j);
  }

  lemma CallUnderWay(log: seq<Action>, i: nat, j: nat)
    requires LegalHistory(log) && i < j <= |log| && log[i].Called?
    requires forall n :: i < n < j && log[n].t == log[i].t ==> Inner(log[n])
    ensures ProgressAt(log, log[i].op, log[i].t, i, j)
  {
    hide *;
    var t, op := log[i].t, log[i].op;
    CallStarts(log, i);
    var n := i + 1;
    while n < j
      invariant i < n <= j
      invariant ProgressAt(log, op, t, i, n)
    {
      CallGoesOn(log, op, t, i, n);
      n := n + 1;
    }
  }

  /** A thread has one call open exactly when it is not outside. */
  lemma {:induction false} CallsReturn(log: seq<Action>, t: Tid)
    requires LegalHistory(log)
    ensures Calls(log, t) == Returns(log, t) + if StageOf(Replay(log), t).Outside? then 0 else 1
  {
    if log == [] {
    } else {
      CallsReturn(log[..|log| - 1], t);
      OpenStep(Replay(log[..|log| - 1]), log[|log| - 1], t);
    }
  }

  /** Every value passed to the queue's Push has been delivered by a TryPop, is queued, or is
      with a Push or TryPop still running: none is lost, duplicated or changed. */
  lemma {:induction false} ValuesConserved(log: seq<Action>, v: Value)
    requires LegalHistory(log)
    ensures var a := Replay(log);
      Puts(log, v) == Deliveries(log, v) + multiset(a.values)[v] + |Underway(a.calls, v)|
  {
    if log == [] {
    } else {
      var before := log[..|log| - 1];
      ValuesConserved(before, v);
      HistoryStages(before);
      ValueStep(Replay(before), log[|log| - 1], v);
    }
  }

  lemma ValueStep(a: Abs, x: Action, v: Value)
    requires Legal(a, x) && StagesOk(a)
    ensures multiset(Apply(a, x).values)[v] + |Underway(Apply(a, x).calls, v)|
      == multiset(a.values)[v] + |Underway(a.calls, v)|
      + (if PutsOne(x, v) then 1 else 0) - (if DeliversOne(x, v) then 1 else 0)
  {
    assert StageOk(StageOf(a, x.t));
    BearStep(a, x, v);
    QueueStep(a, x, v);
    UnderwayMoves(a, x.t, After(StageOf(a, x.t), x), v);
  }
}
