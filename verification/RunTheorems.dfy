/** What holds in every run of ContextImpl::Run. */
module RunTheorems {
  import opened Sequences
  import opened RunSpec
  import opened RunProofs

  // ---- Main results ----

  /** Wherever the main thread can be interrupted, the two lists partition the schedulers,
      activeCount is the number of active schedulers plus the idle ones already signalled,
      and pollingCount the number of active ones last seen polling (less the one whose
      change to Idle is under way). */
  lemma SchedulersAccounted(n: nat, moves: seq<Move>, x: nat)
    requires Possible(Initial(n), moves) && x < n
    ensures var s := Run(Initial(n), moves);
      && Distinct(s.active) && Distinct(s.idle) && Below(s.active, n) && Below(s.idle, n)
      && (x in s.active <==> x !in s.idle)
      && s.activeCount == |s.active| + |Choose(s.last, s.idle, false)|
      && s.pollingCount + Owed(s) == PollingIn(s.last, s.active)
      && 0 <= s.pollingCount
  {
    InitialInv(n);
    RunInv(Initial(n), moves);
    SameSize(Initial(n), moves);
    PollingCovers(Run(Initial(n), moves));
  }

  lemma {:induction false} SameSize(s: State, moves: seq<Move>)
    requires Typed(s) && Possible(s, moves)
    ensures |Run(s, moves).last| == |s.last|
    decreases |moves|
  {
    if moves == [] {
    } else {
      SameSize(Do(s, moves[0]), moves[1..]);
    }
  }

  lemma PollingCovers(s: State)
    requires Inv(s)
    ensures PollingIn(s.last, s.active) >= Owed(s)
  {
    if s.pc.WentIdle? {
      PollingAt(s.last, s.active, s.pc.i, Idle);
    }
  }

  /** While the main thread sleeps in its idle wait with no wake-up pending there is
      nothing to do: no stop was asked for, every scheduler is idle, and each has its
      waiter registered or its callback on the way. */
  lemma SleepsOnlyWithoutWork(n: nat, moves: seq<Move>, x: nat)
    requires Possible(Initial(n), moves) && x < n
    requires Run(Initial(n), moves).pc == Asleep(false)
    ensures var s := Run(Initial(n), moves);
      && s.activeCount == 0 && !s.stop
      && x < |s.last| && s.last[x].Idle? && !s.hooks[x].Loose?
  {
    InitialInv(n);
    RunInv(Initial(n), moves);
    SameSize(Initial(n), moves);
    NothingToDo(Run(Initial(n), moves), x);
  }

  lemma NothingToDo(s: State, x: nat)
    requires Inv(s) && s.pc == Asleep(false) && x < |s.last|
    ensures s.last[x].Idle? && !s.hooks[x].Loose?
  {
    ChooseMembers(s.last, s.idle, false);
    assert x in s.idle;
    assert x !in Choose(s.last, s.idle, false);
  }

  /** Any callback wakes it from there. */
  lemma IdleWaitIsWoken(n: nat, moves: seq<Move>, m: Move)
    requires Possible(Initial(n), moves) && Run(Initial(n), moves).pc == Asleep(false)
    requires Enabled(Run(Initial(n), moves), m) && (m.Callback? || m.Until?)
    ensures Do(Run(Initial(n), moves), m).pc == Asleep(true)
  {
    InitialInv(n);
    RunInv(Initial(n), moves);
  }

  // ---- The drain ----

  /** When Run leaves, no waiter of a scheduler is registered or being called, so
      destroying the SchedulerStates destroys none that is in use. */
  lemma LeavesNothingBehind(n: nat, moves: seq<Move>, x: nat)
    requires Possible(Initial(n), moves) && x < n && Run(Initial(n), moves).pc.Left?
    ensures var s := Run(Initial(n), moves);
      x < |s.hooks| && s.hooks[x].Loose?
  {
    InitialInv(n);
    RunInv(Initial(n), moves);
    SameSize(Initial(n), moves);
    assert Run(Initial(n), moves).stop;
  }

  /** The drain gives stateLock up only to leave, or to wait for a callback that a
      notifier still owes. */
  lemma {:induction false} DrainStops(s: State)
    requires Inv(s) && s.pc.DrainAt?
    ensures Typed(s)
    ensures var e := DrainFrom(s);
      && Inv(e) && Typed(e) && e.idle == s.idle && e.last == s.last
      && (e.pc.Left? || (e.pc.DrainAsleep? && !e.pc.woken && e.hooks[e.idle[e.pc.j]].Claimed?))
    decreases |s.idle| - s.pc.j
  {
    hide Inv, DoMain;
    DrainStep(s);
    if DoMain(s, Idle, false).pc.DrainAt? {
      DrainStops(DoMain(s, Idle, false));
    }
  }

  lemma DrainStep(s: State)
    requires Inv(s) && s.pc.DrainAt?
    ensures Typed(s) && s.pc.j <= |s.idle|
    ensures var e := DoMain(s, Idle, false);
      && Inv(e) && Typed(e) && e.idle == s.idle && e.last == s.last
      && (e.pc.Left? || (e.pc.DrainAt? && e.pc.j == s.pc.j + 1)
          || (e.pc.DrainAsleep? && !e.pc.woken && e.hooks[e.idle[e.pc.j]].Claimed?))
  {
    StepInv(s, Main(Idle, false));
  }

  /** The drain waits for a callback.  That callback wakes it exactly if no scheduler is
      active and no other idle one is signalled; otherwise only a spurious wake-up can. */
  lemma DrainWokenIff(s: State)
    requires Inv(s) && s.pc.DrainAsleep? && !s.pc.woken && s.hooks[s.idle[s.pc.j]].Claimed?
    ensures var s' := Do(s, Callback(s.idle[s.pc.j]));
      && (s'.pc == DrainAsleep(s.pc.j, true) <==> s.active == [] && Choose(s.last, s.idle, false) == [])
      && (s'.pc != DrainAsleep(s.pc.j, true) ==> Stranded(s'))
  {
    StepInv(s, Callback(s.idle[s.pc.j]));
  }

  /** The drain sleeps although what it waited for has happened. */
  ghost predicate Stranded(s: State) {
    && Inv(s) && s.pc.DrainAsleep? && !s.pc.woken
    && !s.last[s.idle[s.pc.j]].Idle? && s.activeCount > 0
  }

  /** Nothing but a spurious wake-up ends that. */
  lemma StrandedForEver(s: State, m: Move)
    requires Stranded(s) && Enabled(s, m) && !m.Spurious?
    ensures Stranded(Do(s, m))
  {
    StepInv(s, m);
  }

  /** It does happen: one of two schedulers is idle and already claimed when Run stops. */
  lemma DrainCanStrand()
    ensures exists moves :: Possible(Initial(2), moves) && Stranded(Run(Initial(2), moves))
  {
    var s0 := Initial(2);
    assert s0.active == [0, 1];
    var a := OneGoesIdle(s0);
    var s := Run(s0, a);
    var b := StopWhileClaimed(s);
    RunOn(s0, a, b);
    InitialInv(2);
    RunInv(s0, a + b);
    assert Stranded(Run(s0, a + b));
  }

  const GO := Main(Working, false)

  lemma OneGoesIdle(s: State) returns (moves: seq<Move>)
    requires Typed(s) && s.active == [0, 1] && s.pc.Top? && !s.stop && s.activeCount == 2
    requires s.last == [Working, Working] && s.idle == []
    ensures Possible(s, moves)
    ensures var e := Run(s, moves);
      && e.pc == Pass(0) && e.active == [1] && e.idle == [0] && e.last == [Idle, Working]
      && e.activeCount == 1 && !e.stop && e.hooks[0].Registered?
  {
    moves := [GO, GO, Main(Idle, false), Main(Idle, true)];
    var s1 := Do(s, GO);
    var s2 := Do(s1, GO);
    var s3 := Do(s2, Main(Idle, false));
    Unfold(s3, [Main(Idle, true)]);
    Unfold(s2, [Main(Idle, false), Main(Idle, true)]);
    Unfold(s1, [GO, Main(Idle, false), Main(Idle, true)]);
    Unfold(s, moves);
  }

  lemma StopWhileClaimed(s: State) returns (moves: seq<Move>)
    requires Typed(s) && s.pc == Pass(0) && s.active == [1] && s.idle == [0] && s.last == [Idle, Working]
    requires s.activeCount == 1 && !s.stop && s.hooks[0].Registered?
    ensures Possible(s, moves)
    ensures var e := Run(s, moves);
      && e.pc == DrainAsleep(0, false) && e.idle == [0] && e.last == [Working, Working] && e.activeCount == 2
  {
    var tail := [GO, GO, GO, Callback(0)];
    var s1 := Do(s, Claim(0));
    var s2 := Do(s1, Until);
    Strand(s2);
    Unfold(s1, [Until] + tail);
    moves := [Claim(0), Until] + tail;
    Unfold(s, moves);
  }

  lemma Strand(s: State)
    requires Typed(s) && s.pc == Pass(0) && s.active == [1] && s.idle == [0] && s.last == [Idle, Working]
    requires s.activeCount == 1 && s.stop && s.hooks[0].Claimed?
    ensures var moves := [GO, GO, GO, Callback(0)];
      && Possible(s, moves)
      && var e := Run(s, moves);
      && e.pc == DrainAsleep(0, false) && e.idle == [0] && e.last == [Working, Working] && e.activeCount == 2
  {
    var s1 := Do(s, GO);
    var s2 := Do(s1, GO);
    var s3 := Do(s2, GO);
    Unfold(s3, [Callback(0)]);
    Unfold(s2, [GO, Callback(0)]);
    Unfold(s1, [GO, GO, Callback(0)]);
    Unfold(s, [GO, GO, GO, Callback(0)]);
  }

  lemma Unfold(s: State, moves: seq<Move>)
    requires Typed(s) && moves != []
    ensures Possible(s, moves) <==> Enabled(s, moves[0]) && Possible(Do(s, moves[0]), moves[1..])
    ensures Possible(s, moves) ==> Run(s, moves) == Run(Do(s, moves[0]), moves[1..])
  {
  }

  lemma {:induction false} RunOn(s: State, a: seq<Move>, b: seq<Move>)
    requires Typed(s) && Possible(s, a) && Possible(Run(s, a), b)
    ensures Possible(s, a + b) && Run(s, a + b) == Run(Run(s, a), b)
    decreases |a|
  {
    if a == [] {
      assert a + b == b;
    } else {
      RunOn(Do(s, a[0]), a[1..], b);
      assert (a + b)[1..] == a[1..] + b;
    }
  }
}
