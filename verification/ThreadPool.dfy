/** ThreadPool as an object: its fields, and the stretches of code that run under mLock.
    Each keeps the machine's invariant. */
module ThreadPool {
  import opened Numbers
  import opened Sequences
  import opened PoolSpec
  import opened PoolTheorems

  class ThreadPool {
    const mMaxThreadCount: nat
    var mStop: bool
    var mIdleThreadCount: int
    var mThreads: seq<Worker>
    var mWork: seq<Item>

    ghost var phase: Shutdown
    ghost var submitted: seq<Item>
    ghost var taken: seq<Item>
    ghost var executed: seq<Item>

    ghost function View(): Pool
      reads this
    {
      Pool(mMaxThreadCount, mStop, mIdleThreadCount, mThreads, mWork, phase, submitted, taken, executed)
    }

    /** The idle count is the number of workers in the wait, no wake-up is lost, and every
        item is accounted for. */
    ghost predicate Valid()
      reads this
    {
      Inv(View())
    }

    /** Some worker is neither asleep nor gone. */
    ghost predicate Attended()
      reads this
    {
      exists i :: 0 <= i < |mThreads| && !mThreads[i].Sleeping? && !mThreads[i].Exited?
    }

    /** How many workers are in the condition wait or on their way out of it. */
    ghost function Waiting(): nat
      reads this
    {
      multiset(mThreads)[Sleeping] + multiset(mThreads)[Woken]
    }

    constructor (maxThreadCount: nat)
      ensures Valid() && View() == Create(maxThreadCount)
    {
      mMaxThreadCount := maxThreadCount;
      mStop := false;
      mIdleThreadCount := 0;
      mThreads := [];
      mWork := [];
      phase := Open;
      submitted, taken, executed := [], [], [];
    }

    /** Queue an item last, then start a thread if nobody is idle and there is room, else
        wake worker `j` if anybody sleeps.  Afterwards some worker is awake to take it. */
    method AddWorkItem(work: Item, j: nat)
      requires Valid() && Enabled(View(), Add(work, j))
      modifies this
      ensures Valid() && View() == Do(old(View()), Add(work, j))
      ensures mWork == old(mWork) + [work] && submitted == old(submitted) + [work]
      ensures mMaxThreadCount > 0 ==> Attended()
      ensures |mThreads| == old(|mThreads|) +
        if old(Waiting() == 0 && |mThreads| < mMaxThreadCount) then 1 else 0
      ensures Number(View(), Sleeping) == Max0(Number(old(View()), Sleeping) - 1)
    {
      hide Inv;
      ghost var was := View();
      mWork := mWork + [work];
      submitted := submitted + [work];
      if mIdleThreadCount == 0 && |mThreads| < mMaxThreadCount {
        mThreads := mThreads + [Testing];
      } else if j < |mThreads| && mThreads[j].Sleeping? {
        mThreads := mThreads[j := Woken];
      } else if j < |mThreads| {
        assert mThreads[j := mThreads[j]] == mThreads;
      }
      StepInv(was, Add(work, j));
      IdleCounted(was);
      OneFewerAsleep(was, work, j);
      AddAttended(was, work, j);
    }

    /** Worker `i` locks, counts itself idle and looks for work. */
    method EnterLock(i: nat)
      requires Valid() && i < |mThreads| && mThreads[i].Entering?
      modifies this
      ensures Valid() && View() == Do(old(View()), Enter(i))
      ensures Looked(old(View()), View(), i)
      ensures mIdleThreadCount == old(mIdleThreadCount) + if old(mWork) == [] then 1 else 0
    {
      hide Inv;
      ghost var was := View();
      mIdleThreadCount := mIdleThreadCount + 1;
      LookForWork(i);
      StepInv(was, Enter(i));
    }

    /** Worker `i` returns from the condition wait with the lock held: it leaves if mStop is
        set, else it looks for work again. */
    method ResumeFromWait(i: nat)
      requires Valid() && i < |mThreads| && mThreads[i].Woken?
      modifies this
      ensures Valid() && View() == Do(old(View()), Resume(i))
      ensures old(mStop) ==> mThreads[i].Exited? && mWork == old(mWork) && mIdleThreadCount == old(mIdleThreadCount) - 1
      ensures !old(mStop) ==> Looked(old(View()), View(), i)
      ensures !old(mStop) ==> mIdleThreadCount == old(mIdleThreadCount) - if old(mWork) == [] then 0 else 1
    {
      hide Inv;
      ghost var was := View();
      if mStop {
        mIdleThreadCount := mIdleThreadCount - 1;
        mThreads := mThreads[i := Exited];
      } else {
        LookForWork(i);
      }
      StepInv(was, Resume(i));
    }

    /** The inner loop of worker `i`: wait if there is no work, else take the oldest item. */
    method LookForWork(i: nat)
      requires i < |mThreads|
      modifies this
      ensures View() == Look(old(View()), i)
    {
      if mWork == [] {
        mThreads := mThreads[i := Sleeping];
        return;
      }
      var workItem := mWork[0];
      mWork := mWork[1..];
      taken := taken + [workItem];
      mIdleThreadCount := mIdleThreadCount - 1;
      mThreads := mThreads[i := Running(workItem)];
    }

    /** The destructor's first block: set mStop and wake everybody. */
    method BeginShutdown()
      requires Valid() && phase.Open?
      modifies this
      ensures Valid() && View() == Do(old(View()), Stop)
      ensures mStop && Sleeping !in mThreads && mIdleThreadCount == Number(View(), Woken)
    {
      mStop := true;
      phase := Joining;
      ghost var was := mThreads;
      var n := 0;
      while n < |mThreads|
        invariant n <= |mThreads| == |was|
        invariant forall i :: 0 <= i < n ==> mThreads[i] == Wake(was[i])
        invariant forall i :: n <= i < |was| ==> mThreads[i] == was[i]
        invariant mStop && phase.Joining? && mIdleThreadCount == old(mIdleThreadCount) && mWork == old(mWork)
        invariant submitted == old(submitted) && taken == old(taken) && executed == old(executed)
      {
        if mThreads[n].Sleeping? {
          mThreads := mThreads[n := Woken];
        }
        n := n + 1;
      }
      assert mThreads == WakeAll(was);
      StepInv(old(View()), Stop);
      WakeAllCounts(was, Sleeping);
      assert Sleeping !in multiset(mThreads);
    }

    /** The destructor after the join: run what is left, in order, and then every item ever
        submitted has been run, as often as it was submitted. */
    method RunRemaining()
      requires Valid() && phase == Draining(0)
      modifies this
      ensures Valid() && View() == old(View()).(phase := Closed, executed := old(executed) + mWork)
      ensures multiset(executed) == multiset(submitted)
    {
      hide Inv;
      var k := 0;
      while k < |mWork|
        invariant k <= |mWork| && phase == Draining(k) && Valid()
        invariant mStop == old(mStop) && mIdleThreadCount == old(mIdleThreadCount)
        invariant mThreads == old(mThreads) && mWork == old(mWork)
        invariant submitted == old(submitted) && taken == old(taken)
        invariant executed == old(executed) + mWork[..k]
      {
        ghost var was := View();
        executed := executed + [mWork[k]];
        k := k + 1;
        phase := Draining(k);
        StepInv(was, Drain);
      }
      ghost var was := View();
      phase := Closed;
      StepInv(was, Drain);
      AllRun(View());
    }
  }

  /** Worker `i` looked for work: it took the oldest item, or sleeps as there is none; the
      other workers are where they were. */
  predicate Looked(p: Pool, q: Pool, i: nat)
    requires i < |p.workers|
  {
    && (if p.work == [] then q.work == [] && q.taken == p.taken
        else [p.work[0]] + q.work == p.work && q.taken == p.taken + [p.work[0]])
    && q.workers == p.workers[i := if p.work == [] then Sleeping else Running(p.work[0])]
  }

  lemma IdleCounted(p: Pool)
    requires Inv(p)
    ensures p.idle == Number(p, Sleeping) + Number(p, Woken)
  {
  }

  lemma OneFewerAsleep(p: Pool, x: Item, j: nat)
    requires Inv(p) && Enabled(p, Add(x, j))
    ensures Number(Do(p, Add(x, j)), Sleeping) == Max0(Number(p, Sleeping) - 1)
  {
    if Grows(p) {
      assert multiset(p.workers + [Testing]) == multiset(p.workers) + multiset{Testing};
    } else if j < |p.workers| {
      ReplaceCount(p.workers, j, Wake(p.workers[j]), Sleeping);
    }
    assert Sleeping in p.workers <==> Number(p, Sleeping) > 0;
  }

  lemma AddAttended(p: Pool, x: Item, j: nat)
    requires Inv(p) && Enabled(p, Add(x, j))
    ensures var q := Do(p, Add(x, j)); q.max > 0 ==>
      exists i :: 0 <= i < |q.workers| && !q.workers[i].Sleeping? && !q.workers[i].Exited?
  {
    StepInv(p, Add(x, j));
    if p.max > 0 {
      AwakeExists(Do(p, Add(x, j)));
    }
  }

  lemma AllRun(p: Pool)
    requires Inv(p) && p.phase.Closed?
    ensures multiset(p.executed) == multiset(p.submitted)
  {
    forall x: Item ensures multiset(p.executed)[x] == multiset(p.submitted)[x] {
      assert Running(x) !in multiset(p.workers);
      assert multiset(p.submitted)[x] == multiset(p.taken)[x] + multiset(p.work)[x];
    }
  }
}
