/** ContextImpl::Run with its locals as fields: each method is the code between two points
    where a callback can get in, or one of the callbacks. */
module RunLoop {
  import opened RunSpec
  import opened RunProofs
  import opened RunTheorems
  import opened RunTurns

  /** One more entry of the idle list `was` looked at: `idle` is what is left of it. */
  lemma NextChosen(last: seq<Last>, idle: seq<nat>, p: nat, was: seq<nat>, k: nat)
    requires Below(was, |last|) && p < |idle| && k <= |was| && idle[p..] == was[k..]
    ensures k < |was| && idle[p] == was[k] && idle[p + 1..] == was[k + 1..]
    ensures idle[..p + 1] == idle[..p] + [idle[p]]
    ensures (idle[..p] + idle[p + 1..])[p..] == was[k + 1..]
    ensures (idle[..p] + idle[p + 1..])[..p] == idle[..p]
    ensures forall b :: Choose(last, was[..k + 1], b) ==
                        Choose(last, was[..k], b) + if last[was[k]].Idle? == b then [was[k]] else []
  {
    assert idle[p..][0] == was[k..][0];
    assert idle[p..][1..] == idle[p + 1..] && was[k..][1..] == was[k + 1..];
    assert was[..k + 1][..k] == was[..k];
  }

  class RunLoop {
    ghost var point: Pc
    var lastState: seq<Last>
    var hooks: seq<Hook>
    var activeSchedulers: seq<nat>
    var idleSchedulers: seq<nat>
    var activeCount: int
    var pollingCount: int
    var stop: bool

    ghost function View(): State
      reads this
    {
      State(point, lastState, activeSchedulers, idleSchedulers, activeCount, pollingCount, stop, hooks)
    }

    /** The lists partition the schedulers, the two counters count them, and a waiter is
        out exactly for the idle schedulers not yet signalled. */
    ghost predicate Valid()
      reads this
    {
      Inv(View())
    }

    constructor (schedulerCount: nat)
      ensures Valid() && View() == Initial(schedulerCount)
    {
      point := Top;
      lastState := Each(schedulerCount, Working);
      hooks := Each(schedulerCount, Loose);
      activeSchedulers := Numbers(schedulerCount);
      idleSchedulers := [];
      activeCount := schedulerCount;
      pollingCount := 0;
      stop := false;
      new;
      hide Inv;
      InitialInv(schedulerCount);
    }

    /** Move the idle schedulers that were signalled to the end of the active list. */
    method CollectSignalled()
      requires Valid() && point.Collect?
      modifies `point, `activeSchedulers, `idleSchedulers, `activeCount
      ensures Valid() && View() == CollectAll(old(View()))
      ensures activeCount == |activeSchedulers| && forall x :: x in idleSchedulers ==> lastState[x].Idle?
    {
      hide Inv, Choose;
      InvTyped(View());
      NothingChosen(View());
      ghost var was := idleSchedulers;
      ghost var k := 0;
      var p := 0;
      while p < |idleSchedulers|
        invariant k <= |was| && Below(was[..k], |lastState|) && Below(was, |lastState|)
        invariant p <= |idleSchedulers| && idleSchedulers[p..] == was[k..]
        invariant idleSchedulers[..p] == Choose(lastState, was[..k], true)
        invariant activeSchedulers == old(activeSchedulers) + Choose(lastState, was[..k], false)
        decreases |was| - k
      {
        var x := idleSchedulers[p];
        NextChosen(lastState, idleSchedulers, p, was, k);
        if !lastState[x].Idle? {
          activeSchedulers := activeSchedulers + [x];
          idleSchedulers := idleSchedulers[..p] + idleSchedulers[p + 1..];
        } else {
          p := p + 1;
        }
        k := k + 1;
      }
      assert was[..k] == was;
      assert idleSchedulers[..p] == idleSchedulers;
      activeCount := |activeSchedulers|;
      point := Pass(0);
      StepInv(old(View()), Main(Working, false));
      NoneSignalled(old(View()));
    }

    /** One turn of the loop over the active schedulers up to the point where stateLock
        is taken: `state` is what the scheduler's runner returned. */
    method RunScheduler(i: nat, state: Last)
      requires Valid() && point == Pass(i)
      modifies `point, `lastState, `pollingCount
      ensures Valid() && View() == Do(old(View()), Main(state, false))
      ensures point.Stopped? ==> stop
      ensures point == Pass(i + 1) ==>
        |lastState| == old(|lastState|) && Below(activeSchedulers, |lastState|) && i < |activeSchedulers|
        && lastState[activeSchedulers[i]] == state && pollingCount == PollingIn(lastState, activeSchedulers)
    {
      hide Inv;
      InvTyped(View());
      StepInv(View(), Main(state, false));
      PollsCounted(Do(View(), Main(state, false)));
      if i == |activeSchedulers| {
        point := AfterPass;
        return;
      }
      if stop {
        point := Stopped;
        return;
      }
      var ss := activeSchedulers[i];
      if state.Idle? {
        if lastState[ss].Polling? {
          pollingCount := pollingCount - 1;
        }
        point := WentIdle(i);
      } else {
        if state != lastState[ss] {
          if state.Polling? {
            pollingCount := pollingCount + 1;
          } else {
            pollingCount := pollingCount - 1;
          }
          lastState := lastState[ss := state];
        }
        assert lastState == old(lastState)[ss := state];
        point := Pass(i + 1);
      }
    }

    /** The rest of that turn for a scheduler that went idle, under stateLock: it moves to
        the idle list with its waiter registered, or stays active as its condition is set;
        either way the polling count is exact again. */
    method ParkScheduler(i: nat, added: bool)
      requires Valid() && point == WentIdle(i)
      modifies `point, `lastState, `hooks, `activeSchedulers, `idleSchedulers, `activeCount
      ensures Valid() && View() == Do(old(View()), Main(Idle, added))
      ensures Below(activeSchedulers, |lastState|) && pollingCount == PollingIn(lastState, activeSchedulers)
      ensures old(i < |activeSchedulers|)
      ensures var ss := old(activeSchedulers[i]);
        && (ss in idleSchedulers <==> added) && (ss in activeSchedulers <==> !added)
        && activeCount == old(activeCount) - (if added then 1 else 0)
        && ss < |lastState| && lastState[ss] == (if added then Idle else Working)
        && (forall x :: 0 <= x < |lastState| && x != ss ==> x < old(|lastState|) && lastState[x] == old(lastState)[x])
    {
      hide Inv;
      InvTyped(View());
      var ss := activeSchedulers[i];
      if added {
        hooks := hooks[ss := Registered];
        lastState := lastState[ss := Idle];
        idleSchedulers := idleSchedulers + [ss];
        activeSchedulers := activeSchedulers[..i] + activeSchedulers[i + 1..];
        activeCount := activeCount - 1;
        point := Pass(i);
      } else {
        lastState := lastState[ss := Working];
        point := Pass(i + 1);
      }
      StepInv(old(View()), Main(Idle, added));
      PollsCounted(View());
      EitherList(View(), ss);
      assert added ==> ss in idleSchedulers;
      assert !added ==> activeSchedulers[i] in activeSchedulers;
    }

    /** The idle loop's tests, on entry and after each return from the wait: it sleeps only
        if no stop was asked for and every scheduler is idle with a callback to come. */
    method TestIdle()
      requires Valid() && (point.IdleCheck? || point == Asleep(true))
      modifies `point
      ensures Valid() && View() == Do(old(View()), Main(Working, false))
      ensures point == Asleep(false) ==>
        activeCount == 0 && !stop && |hooks| == |lastState|
        && forall x :: 0 <= x < |lastState| ==> lastState[x].Idle? && !hooks[x].Loose?
      ensures point == Asleep(false) || point == Stopped || point == YieldCheck
      ensures point != YieldCheck <==> forall x :: 0 <= x < |lastState| ==> lastState[x].Idle?
      ensures point == Stopped ==> stop
    {
      hide Inv;
      InvTyped(View());
      StepInv(View(), Main(Working, false));
      if activeCount == 0 {
        if stop {
          point := Stopped;
        } else {
          point := Asleep(false);
          InvTyped(View());
          forall x | 0 <= x < |lastState| ensures lastState[x].Idle? && !hooks[x].Loose? {
            NothingToDo(View(), x);
          }
        }
      } else {
        point := YieldCheck;
      }
      AllIdleIff(View());
    }

    /** The drain keeps stateLock from one wait to the next: from entry `j` on it takes
        back every waiter it can, until an entry whose callback a notifier still owes. */
    method Drain(j: nat)
      requires Valid() && point == DrainAt(j)
      modifies `point, `hooks
      ensures Valid() && View() == DrainFrom(old(View()))
      ensures point.Left? ||
        (point.DrainAsleep? && !point.woken && point.j < |idleSchedulers|
         && idleSchedulers[point.j] < |hooks| && hooks[idleSchedulers[point.j]].Claimed?)
    {
      hide Inv, DoMain, DrainFrom;
      InvTyped(View());
      DrainStops(View());
      var k := j;
      while k < |idleSchedulers|
        invariant Typed(View()) && point == DrainAt(k)
        invariant DrainFrom(View()) == DrainFrom(old(View()))
      {
        DrainUnfolds(View());
        var ss := idleSchedulers[k];
        if hooks[ss].Registered? {
          hooks := hooks[ss := Loose];
        } else if lastState[ss].Idle? {
          point := DrainAsleep(k, false);
          return;
        }
        k := k + 1;
        point := DrainAt(k);
      }
      DrainUnfolds(View());
      point := Left;
    }

    /** notifyReady of scheduler `index`: it always wakes the idle wait, and the drain
        exactly if nothing else is active or signalled. */
    method NotifyReady(index: nat)
      requires Valid() && Enabled(View(), Callback(index))
      modifies `point, `lastState, `hooks, `activeCount
      ensures Valid() && View() == Do(old(View()), Callback(index))
      ensures old(point == Asleep(false)) ==> point == Asleep(true)
      ensures old(point.DrainAsleep? && !point.woken) ==>
        Below(old(idleSchedulers), old(|lastState|)) &&
        (point == DrainAsleep(old(point.j), true) <==>
           activeSchedulers == [] && Choose(old(lastState), idleSchedulers, false) == [])
    {
      hide Inv;
      InvTyped(View());
      StepInv(View(), Callback(index));
      Awake(View());
      hooks := hooks[index := Loose];
      if activeCount == 0 {
        point := Wake(point);
      }
      activeCount := activeCount + 1;
      lastState := lastState[index := Working];
    }

    /** The callback registered on `until`: it always wakes the idle wait. */
    method UntilReady()
      requires Valid() && Enabled(View(), Until)
      modifies `point, `stop
      ensures Valid() && View() == Do(old(View()), Until) && stop
      ensures old(point == Asleep(false)) ==> point == Asleep(true)
    {
      hide Inv;
      StepInv(View(), Until);
      Awake(View());
      stop := true;
      if activeCount == 0 {
        point := Wake(point);
      }
    }
  }

  // ---- What the invariant says at these points ----

  lemma InvTyped(s: State)
    requires Inv(s)
    ensures Typed(s)
  {
  }

  lemma PollsCounted(s: State)
    requires Inv(s)
    ensures Typed(s) && (!s.pc.WentIdle? ==> s.pollingCount == PollingIn(s.last, s.active))
  {
  }

  lemma EitherList(s: State, x: nat)
    requires Inv(s)
    ensures x in s.active ==> x !in s.idle
    ensures x in s.idle ==> x !in s.active
  {
  }

  lemma NothingChosen(s: State)
    ensures Choose(s.last, [], true) == [] && Choose(s.last, [], false) == []
  {
  }

  lemma NoneSignalled(s: State)
    requires Inv(s) && Typed(s)
    ensures forall x :: x in Choose(s.last, s.idle, true) ==> x < |s.last| && s.last[x].Idle?
  {
    ChooseMembers(s.last, s.idle, true);
  }

  /** Asleep means no active scheduler; the count is zero exactly if none is active and
      none of the idle ones is signalled. */
  lemma Awake(s: State)
    requires Inv(s)
    ensures s.pc == Asleep(false) ==> s.activeCount == 0
    ensures Typed(s) && (s.activeCount == 0 <==> s.active == [] && Choose(s.last, s.idle, false) == [])
  {
  }

  lemma AllIdleIff(s: State)
    requires Inv(s)
    ensures Typed(s)
    ensures s.activeCount == 0 <==> forall x :: 0 <= x < |s.last| ==> s.last[x].Idle?
  {
    ChooseMembers(s.last, s.idle, false);
    if s.activeCount == 0 {
      forall x | 0 <= x < |s.last| ensures s.last[x].Idle? {
        assert x in s.idle && x !in Choose(s.last, s.idle, false);
      }
    } else if s.active != [] {
      SomeActive(s);
    } else if forall x :: 0 <= x < |s.last| ==> s.last[x].Idle? {
      ChooseNone(s.last, s.idle);
    }
  }

  lemma DrainUnfolds(s: State)
    requires Typed(s) && s.pc.DrainAt?
    ensures DrainFrom(s) ==
      if s.pc.j == |s.idle| then s.(pc := Left)
      else if DrainOne(s, s.pc.j).pc.DrainAt? then DrainFrom(DrainOne(s, s.pc.j))
      else DrainOne(s, s.pc.j)
  {
  }
}
