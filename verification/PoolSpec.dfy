/** ThreadPool as a machine whose steps are its critical sections and the worker's
    unlocked test of mStop.  Any number of workers, any number of work items. */
module PoolSpec {
  import opened Sequences

  type Item = int

  /** Where a worker is: before testing mStop, past the test and before taking the lock,
      asleep on mHasWork, woken but not yet holding the lock again, running an item, gone. */
  datatype Worker = Testing | Entering | Sleeping | Woken | Running(x: Item) | Exited

  /** The destructor: not called, joining the workers, running what is left from item
      `k` on, finished. */
  datatype Shutdown = Open | Joining | Draining(k: nat) | Closed

  /** `max`, `stop`, `idle`, `workers` and `work` are the object's fields; `submitted`,
      `taken` (by workers) and `executed` record history. */
  datatype Pool = Pool(
    max: nat,
    stop: bool,
    idle: int,
    workers: seq<Worker>,
    work: seq<Item>,
    phase: Shutdown,
    submitted: seq<Item>,
    taken: seq<Item>,
    executed: seq<Item>)

  function Create(max: nat): Pool {
    Pool(max, false, 0, [], [], Open, [], [], [])
  }

  /** AddWorkItem's `j` is the worker WakeOne picks, if one is asleep. */
  datatype Move =
    | Add(x: Item, j: nat)
    | Test(i: nat)
    | Enter(i: nat)
    | Spurious(i: nat)
    | Resume(i: nat)
    | Finish(i: nat)
    | Stop
    | Join
    | Drain

  ghost predicate SomeSleeping(workers: seq<Worker>) {
    Sleeping in workers
  }

  /** AddWorkItem decides to start a thread. */
  predicate Grows(p: Pool) {
    p.idle == 0 && |p.workers| < p.max
  }

  ghost predicate Enabled(p: Pool, m: Move) {
    match m
    case Add(x, j) =>
      && p.phase.Open?
      && (!Grows(p) && SomeSleeping(p.workers) ==> j < |p.workers| && p.workers[j].Sleeping?)
    case Test(i) => i < |p.workers| && p.workers[i].Testing?
    case Enter(i) => i < |p.workers| && p.workers[i].Entering?
    case Spurious(i) => i < |p.workers| && p.workers[i].Sleeping?
    case Resume(i) => i < |p.workers| && p.workers[i].Woken?
    case Finish(i) => i < |p.workers| && p.workers[i].Running?
    case Stop => p.phase.Open?
    case Join => p.phase.Joining? && forall i :: 0 <= i < |p.workers| ==> p.workers[i].Exited?
    case Drain => p.phase.Draining?
  }

  function Wake(w: Worker): Worker {
    if w.Sleeping? then Woken else w
  }

  /** WakeAll. */
  function WakeAll(workers: seq<Worker>): (r: seq<Worker>)
    ensures |r| == |workers|
    ensures forall i :: 0 <= i < |r| ==> r[i] == Wake(workers[i])
  {
    if workers == [] then [] else WakeAll(workers[..|workers| - 1]) + [Wake(workers[|workers| - 1])]
  }

  function Set(p: Pool, i: nat, w: Worker): Pool
    requires i < |p.workers|
  {
    p.(workers := p.workers[i := w])
  }

  /** The inner loop of the worker, holding the lock and counted idle. */
  function Look(p: Pool, i: nat): Pool
    requires i < |p.workers|
  {
    if p.work == [] then Set(p, i, Sleeping)
    else
      Set(p, i, Running(p.work[0])).(
        work := p.work[1..],
        taken := p.taken + [p.work[0]],
        idle := p.idle - 1)
  }

  function Do(p: Pool, m: Move): Pool
    requires m.Test? || m.Enter? || m.Spurious? || m.Resume? || m.Finish? ==> m.i < |p.workers|
  {
    match m
    case Add(x, j) =>
      var q := p.(work := p.work + [x], submitted := p.submitted + [x]);
      if Grows(p) then q.(workers := p.workers + [Testing])
      else if j < |p.workers| then Set(q, j, Wake(p.workers[j]))
      else q
    case Test(i) => Set(p, i, if p.stop then Exited else Entering)
    case Enter(i) => Look(p.(idle := p.idle + 1), i)
    case Spurious(i) => Set(p, i, Woken)
    case Resume(i) =>
      if p.stop then Set(p, i, Exited).(idle := p.idle - 1)
      else Look(p, i)
    case Finish(i) =>
      Set(p, i, Testing).(
        executed := p.executed + (match p.workers[i] case Running(x) => [x] case _ => []))
    case Stop => p.(stop := true, workers := WakeAll(p.workers), phase := Joining)
    case Join => p.(phase := Draining(0))
    case Drain =>
      match p.phase
      case Draining(k) =>
        if k < |p.work| then p.(executed := p.executed + [p.work[k]], phase := Draining(k + 1))
        else p.(phase := Closed)
      case _ => p
  }

  ghost predicate Possible(p: Pool, moves: seq<Move>)
    decreases |moves|
  {
    moves != [] ==> Enabled(p, moves[0]) && Possible(Do(p, moves[0]), moves[1..])
  }

  ghost function Run(p: Pool, moves: seq<Move>): Pool
    requires Possible(p, moves)
    decreases |moves|
  {
    if moves == [] then p else Run(Do(p, moves[0]), moves[1..])
  }

  function Number(p: Pool, w: Worker): nat {
    multiset(p.workers)[w]
  }

  /** The part of the remaining work the destructor has already run. */
  function Drained(p: Pool): seq<Item> {
    match p.phase
    case Draining(k) => if k <= |p.work| then p.work[..k] else []
    case Closed => p.work
    case _ => []
  }

  /** Every item taken or drained has been run or is being run. */
  ghost predicate Balanced(p: Pool) {
    forall x :: multiset(p.taken)[x] + multiset(Drained(p))[x] == multiset(p.executed)[x] + Number(p, Running(x))
  }

  ghost predicate Inv(p: Pool) {
    && p.idle == Number(p, Sleeping) + Number(p, Woken)
    && |p.workers| <= p.max
    && p.submitted == p.taken + p.work
    && Balanced(p)
    && (p.stop <==> !p.phase.Open?)
    && (!p.stop ==> Number(p, Exited) == 0)
    && (!p.stop && Number(p, Sleeping) > 0 ==> |p.work| <= Number(p, Woken))
    && (!p.stop && p.max > 0 && p.work != [] ==> |p.workers| > 0)
    && (p.phase.Draining? || p.phase.Closed? ==> forall i :: 0 <= i < |p.workers| ==> p.workers[i].Exited?)
    && (p.phase.Draining? ==> p.phase.k <= |p.work|)
  }

  lemma {:induction false} WakeAllCounts(workers: seq<Worker>, x: Worker)
    ensures multiset(WakeAll(workers))[x] ==
      if x.Sleeping? then 0
      else if x.Woken? then multiset(workers)[Woken] + multiset(workers)[Sleeping]
      else multiset(workers)[x]
  {
    if workers == [] {
    } else {
      var n := |workers| - 1;
      WakeAllCounts(workers[..n], x);
      assert WakeAll(workers)[..n] == WakeAll(workers[..n]);
      LastCount(WakeAll(workers), x);
      LastCount(workers, x);
      LastCount(workers, Woken);
      LastCount(workers, Sleeping);
    }
  }

  /** The counts after one worker moved from `v` to `w`. */
  ghost predicate Moved(p: Pool, q: Pool, v: Worker, w: Worker) {
    forall x :: Number(q, x) == Number(p, x) - (if v == x then 1 else 0) + (if w == x then 1 else 0)
  }

  lemma SetMoves(p: Pool, q: Pool, i: nat)
    requires i < |p.workers| && |q.workers| == |p.workers| && q.workers == p.workers[i := q.workers[i]]
    ensures Moved(p, q, p.workers[i], q.workers[i]) && Number(p, p.workers[i]) > 0
  {
    forall x ensures Number(q, x) ==
      Number(p, x) - (if p.workers[i] == x then 1 else 0) + (if q.workers[i] == x then 1 else 0)
    {
      ReplaceCount(p.workers, i, q.workers[i], x);
    }
    assert p.workers[i] in multiset(p.workers);
  }

  lemma AddInv(p: Pool, m: Move)
    requires Inv(p) && Enabled(p, m) && m.Add?
    ensures Inv(Do(p, m))
  {
    var q := Do(p, m);
    if Grows(p) {
      forall x ensures Number(q, x) == Number(p, x) + (if x == Testing then 1 else 0) {
        assert multiset(q.workers) == multiset(p.workers) + multiset{Testing};
      }
    } else if m.j < |p.workers| {
      SetMoves(p, q, m.j);
    }
    assert Number(p, Sleeping) > 0 ==> Sleeping in p.workers;
  }

  lemma LookInv(p: Pool, m: Move)
    requires Inv(p) && Enabled(p, m) && (m.Enter? || (m.Resume? && !p.stop))
    ensures Inv(Do(p, m))
  {
    SetMoves(p, Do(p, m), m.i);
    assert !p.phase.Draining? && !p.phase.Closed?;
    if p.work == [] {
      LookSleeps(p, m);
    } else {
      LookTakes(p, m);
    }
  }

  lemma LookSleeps(p: Pool, m: Move)
    requires Inv(p) && Enabled(p, m) && (m.Enter? || (m.Resume? && !p.stop)) && p.work == []
    requires !p.phase.Draining? && !p.phase.Closed?
    requires Moved(p, Do(p, m), p.workers[m.i], Do(p, m).workers[m.i])
    ensures Inv(Do(p, m))
  {
    SameBalance(p, Do(p, m), p.workers[m.i], Sleeping);
  }

  lemma LookTakes(p: Pool, m: Move)
    requires Inv(p) && Enabled(p, m) && (m.Enter? || (m.Resume? && !p.stop)) && p.work != []
    requires !p.phase.Draining? && !p.phase.Closed?
    requires Moved(p, Do(p, m), p.workers[m.i], Do(p, m).workers[m.i])
    ensures Inv(Do(p, m))
  {
    var q := Do(p, m);
    assert q.taken + q.work == p.taken + p.work;
    TakeBalances(p, q, p.workers[m.i], p.work[0]);
  }

  /** A worker moved that neither started nor finished an item. */
  lemma SameBalance(p: Pool, q: Pool, v: Worker, w: Worker)
    requires Balanced(p) && Moved(p, q, v, w) && !v.Running? && !w.Running?
    requires q.taken == p.taken && q.executed == p.executed && Drained(q) == Drained(p)
    ensures Balanced(q)
  {
  }

  lemma TakeBalances(p: Pool, q: Pool, v: Worker, y: Item)
    requires Balanced(p) && Moved(p, q, v, Running(y)) && !v.Running?
    requires q.taken == p.taken + [y] && q.executed == p.executed && Drained(q) == Drained(p)
    ensures Balanced(q)
  {
    OneMore(p.taken, y);
  }

  lemma FinishBalances(p: Pool, q: Pool, y: Item)
    requires Balanced(p) && Moved(p, q, Running(y), Testing)
    requires q.taken == p.taken && q.executed == p.executed + [y] && Drained(q) == Drained(p)
    ensures Balanced(q)
  {
    OneMore(p.executed, y);
  }

  lemma DrainBalances(p: Pool, q: Pool, y: Item)
    requires Balanced(p) && q.workers == p.workers
    requires q.taken == p.taken && q.executed == p.executed + [y] && Drained(q) == Drained(p) + [y]
    ensures Balanced(q)
  {
    OneMore(p.executed, y);
    OneMore(Drained(p), y);
  }

  lemma OneMore(items: seq<Item>, y: Item)
    ensures forall x :: multiset(items + [y])[x] == multiset(items)[x] + if x == y then 1 else 0
  {
  }

  lemma WorkerInv(p: Pool, m: Move)
    requires Inv(p) && Enabled(p, m)
    requires m.Test? || m.Spurious? || (m.Resume? && p.stop)
    ensures Inv(Do(p, m))
  {
    SetMoves(p, Do(p, m), m.i);
    SameBalance(p, Do(p, m), p.workers[m.i], Do(p, m).workers[m.i]);
  }

  lemma FinishInv(p: Pool, m: Move)
    requires Inv(p) && Enabled(p, m) && m.Finish?
    ensures Inv(Do(p, m))
  {
    var q := Do(p, m);
    SetMoves(p, q, m.i);
    FinishBalances(p, q, p.workers[m.i].x);
  }

  lemma StopInv(p: Pool, m: Move)
    requires Inv(p) && Enabled(p, m) && m.Stop?
    ensures Inv(Do(p, m))
  {
    hide WakeAll;
    var q := Do(p, m);
    WakeAllCounts(p.workers, Sleeping);
    WakeAllCounts(p.workers, Woken);
    forall x ensures multiset(q.taken)[x] + multiset(Drained(q))[x] == multiset(q.executed)[x] + Number(q, Running(x)) {
      WakeAllCounts(p.workers, Running(x));
    }
  }

  lemma JoinInv(p: Pool)
    requires Inv(p) && Enabled(p, Join)
    ensures Inv(Do(p, Join))
  {
  }

  lemma DrainInv(p: Pool)
    requires Inv(p) && Enabled(p, Drain)
    ensures Inv(Do(p, Drain))
  {
    var k := p.phase.k;
    if k < |p.work| {
      assert p.work[..k + 1] == p.work[..k] + [p.work[k]];
      DrainBalances(p, Do(p, Drain), p.work[k]);
    } else {
      assert p.work[..k] == p.work;
    }
  }

  lemma StepInv(p: Pool, m: Move)
    requires Inv(p) && Enabled(p, m)
    ensures Inv(Do(p, m))
  {
    match m
    case Add(_, _) => AddInv(p, m);
    case Test(_) => WorkerInv(p, m);
    case Enter(_) => LookInv(p, m);
    case Spurious(_) => WorkerInv(p, m);
    case Resume(_) => if p.stop { WorkerInv(p, m); } else { LookInv(p, m); }
    case Finish(_) => FinishInv(p, m);
    case Stop => StopInv(p, m);
    case Join => JoinInv(p);
    case Drain => DrainInv(p);
  }

  lemma {:induction false} RunInv(p: Pool, moves: seq<Move>)
    requires Inv(p) && Possible(p, moves)
    ensures Inv(Run(p, moves))
    decreases |moves|
  {
    if moves == [] {
    } else {
      StepInv(p, moves[0]);
      RunInv(Do(p, moves[0]), moves[1..]);
    }
  }
}
