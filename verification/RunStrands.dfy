/** Exactly when the drain at the end of ContextImpl::Run can sleep on unwoken. */
module RunStrands {
  import opened RunSpec
  import opened RunProofs
  import opened RunTheorems

  ghost predicate CanStrand(s: State)
    requires Typed(s)
  {
    exists moves :: Possible(s, moves) && Stranded(Run(s, moves))
  }

  /** The waiter of scheduler `x` is registered, or its callback is on the way. */
  predicate Out(s: State, x: nat) {
    x < |s.hooks| && !s.hooks[x].Loose?
  }

  ghost predicate SomeOut(s: State) {
    exists x: nat :: Out(s, x)
  }

  // ---- Two schedulers and a waiter out: it can ----

  ghost predicate ClaimedFrom(s: State, j: nat)
    requires Typed(s)
  {
    exists k :: j <= k < |s.idle| && s.hooks[s.idle[k]].Claimed?
  }

  /** One step of the drain at an entry. */
  lemma DrainEntry(s: State)
    requires Inv(s) && s.pc.DrainAt? && ClaimedFrom(s, s.pc.j)
    ensures Typed(s) && s.pc.j < |s.idle|
    ensures var e := DoMain(s, Idle, false);
      && Inv(e) && Typed(e)
      && e.active == s.active && e.idle == s.idle && e.last == s.last && e.activeCount == s.activeCount
      && (if s.hooks[s.idle[s.pc.j]].Claimed? then e.pc == DrainAsleep(s.pc.j, false) && e.hooks == s.hooks
          else e.pc == DrainAt(s.pc.j + 1) && ClaimedFrom(e, s.pc.j + 1))
  {
    hide Choose, PollingIn, Counts;
    StepInv(s, Main(Idle, false));
    var e := DoMain(s, Idle, false);
    var k :| s.pc.j <= k < |s.idle| && s.hooks[s.idle[k]].Claimed?;
    if s.hooks[s.idle[s.pc.j]].Claimed? {
      assert s.idle[s.pc.j] in s.idle;
    } else {
      assert e.hooks[s.idle[k]].Claimed?;
    }
  }

  lemma {:induction false} SleepsAtClaimed(s: State) returns (moves: seq<Move>)
    requires Inv(s) && s.pc.DrainAt? && ClaimedFrom(s, s.pc.j)
    ensures Typed(s) && Possible(s, moves)
    ensures var e := Run(s, moves);
      && Inv(e) && Typed(e) && e.pc.DrainAsleep? && !e.pc.woken && e.hooks[e.idle[e.pc.j]].Claimed?
      && e.activeCount == s.activeCount
    decreases |s.idle| - s.pc.j
  {
    hide Inv, DoMain, ClaimedFrom;
    var go := Main(Idle, false);
    DrainEntry(s);
    var s' := DoMain(s, Idle, false);
    if s.hooks[s.idle[s.pc.j]].Claimed? {
      moves := [go];
      Unfold(s, moves);
      assert moves[1..] == [];
    } else {
      var rest := SleepsAtClaimed(s');
      moves := [go] + rest;
      assert moves[1..] == rest;
      Unfold(s, moves);
    }
  }

  /** The callback the drain waits for does not wake it when something else is active. */
  lemma CallbackStrands(s: State)
    requires Inv(s) && s.pc.DrainAsleep? && !s.pc.woken && s.hooks[s.idle[s.pc.j]].Claimed? && s.activeCount > 0
    ensures Typed(s) && Enabled(s, Callback(s.idle[s.pc.j])) && Stranded(Do(s, Callback(s.idle[s.pc.j])))
  {
    DrainWokenIff(s);
  }

  lemma StrandFrom(s: State)
    requires Inv(s) && s.pc.Stopped? && s.activeCount > 0 && exists x: nat :: Out(s, x) && s.hooks[x].Claimed?
    ensures CanStrand(s)
  {
    var x: nat :| Out(s, x) && s.hooks[x].Claimed?;
    var go := Main(Idle, false);
    var s1 := Do(s, go);
    StepInv(s, go);
    assert x in s.idle;
    ClaimedAhead(s, s1, x);
    var down := SleepsAtClaimed(s1);
    StrandAfter(s, go, down);
  }

  lemma ClaimedAhead(s: State, s1: State, x: nat)
    requires Typed(s) && Typed(s1) && x in s.idle && s.hooks[x].Claimed? && s1.idle == s.idle && s1.hooks == s.hooks
    ensures ClaimedFrom(s1, 0)
  {
    var k :| 0 <= k < |s.idle| && s.idle[k] == x;
    assert s1.hooks[s1.idle[k]].Claimed?;
  }

  lemma StrandAfter(s: State, go: Move, down: seq<Move>)
    requires Typed(s) && Enabled(s, go) && Possible(Do(s, go), down)
    requires var e := Run(Do(s, go), down);
      && Inv(e) && e.pc.DrainAsleep? && !e.pc.woken && e.hooks[e.idle[e.pc.j]].Claimed? && e.activeCount > 0
    ensures CanStrand(s)
  {
    hide Inv, Stranded, Do;
    var e := Run(Do(s, go), down);
    CallbackStrands(e);
    var last := [Callback(e.idle[e.pc.j])];
    Unfold(e, last);
    RunOn(Do(s, go), down, last);
    var moves := [go] + (down + last);
    assert moves[1..] == down + last;
    Unfold(s, moves);
    assert Stranded(Run(s, moves));
  }

  /** Moves made first do not matter. */
  lemma StrandLater(s: State, m: Move)
    requires Typed(s) && Enabled(s, m) && CanStrand(Do(s, m))
    ensures CanStrand(s)
  {
    hide Stranded, Do;
    var rest :| Possible(Do(s, m), rest) && Stranded(Run(Do(s, m), rest));
    var moves := [m] + rest;
    assert moves[1..] == rest;
    Unfold(s, moves);
    assert Stranded(Run(s, moves));
  }

  lemma StrandWithClaimed(s: State, x: nat)
    requires Inv(s) && s.pc.Stopped? && |s.last| >= 2 && Out(s, x) && s.hooks[x].Claimed?
    ensures CanStrand(s)
  {
    if s.activeCount > 0 {
      StrandFrom(s);
    } else {
      var y := if x == 0 then 1 else 0;
      AllOut(s, y);
      if s.hooks[y].Registered? {
        var s1 := Do(s, Claim(y));
        StepInv(s, Claim(y));
        SignalOther(s1, x, y);
        StrandLater(s, Claim(y));
      } else {
        SignalOther(s, x, y);
      }
    }
  }

  lemma AllOut(s: State, y: nat)
    requires Inv(s) && s.pc.Stopped? && s.activeCount == 0 && y < |s.last|
    ensures Out(s, y)
  {
    ChooseMembers(s.last, s.idle, false);
    assert y in s.idle;
    assert y !in Choose(s.last, s.idle, false);
  }

  /** The callback of `y` runs before the drain begins. */
  lemma SignalOther(s: State, x: nat, y: nat)
    requires Inv(s) && s.pc.Stopped? && x != y
    requires Out(s, x) && s.hooks[x].Claimed? && Out(s, y) && s.hooks[y].Claimed?
    ensures CanStrand(s)
  {
    var s1 := Do(s, Callback(y));
    StepInv(s, Callback(y));
    assert Out(s1, x) && s1.hooks[x].Claimed?;
    assert s1.activeCount > 0 by { PollsNonNegative(s); }
    StrandFrom(s1);
    StrandLater(s, Callback(y));
  }

  lemma PollsNonNegative(s: State)
    requires Inv(s)
    ensures s.activeCount >= 0
  {
  }

  // ---- Otherwise it cannot ----

  /** No waiter is out and nothing is left to wait for, or there is one scheduler at most
      and the drain sleeps only while its callback is due. */
  ghost predicate Safe(s: State) {
    Inv(s) && (s.pc.Stopped? || InDrain(s.pc)) && (Quiet(s) || Alone(s))
  }

  ghost predicate Quiet(s: State)
    requires Typed(s)
  {
    !SomeOut(s) && !s.pc.DrainAsleep? && forall x :: x in s.idle ==> !s.last[x].Idle?
  }

  ghost predicate Alone(s: State)
    requires Typed(s)
  {
    |s.last| <= 1 && (s.pc.DrainAsleep? && !s.pc.woken ==> s.last[s.idle[s.pc.j]].Idle?)
  }

  lemma SafeStep(s: State, m: Move)
    requires Safe(s) && Enabled(s, m)
    ensures Typed(s) && Safe(Do(s, m))
  {
    hide Do, Quiet, Alone;
    SafeTyped(s);
    StepInv(s, m);
    if Quiet(s) {
      QuietStep(s, m);
    } else {
      AloneStep(s, m);
    }
  }

  lemma AloneStep(s: State, m: Move)
    requires Inv(s) && (s.pc.Stopped? || InDrain(s.pc)) && Enabled(s, m) && Alone(s)
    ensures var e := Do(s, m); (e.pc.Stopped? || InDrain(e.pc)) && Alone(e)
  {
    if m.Callback? {
      AloneWakes(s, m.i);
    }
  }

  lemma QuietStep(s: State, m: Move)
    requires Inv(s) && (s.pc.Stopped? || InDrain(s.pc)) && Enabled(s, m)
    requires Quiet(s)
    ensures var e := Do(s, m); (e.pc.Stopped? || InDrain(e.pc)) && Quiet(e)
  {
    assert forall x :: 0 <= x < |s.hooks| ==> !Out(s, x);
  }

  lemma AloneWakes(s: State, i: nat)
    requires Inv(s) && |s.last| <= 1 && Enabled(s, Callback(i))
    ensures s.activeCount == 0
  {
    assert i in s.idle && s.last[i].Idle?;
    OnlyOne(s.active, i);
    ChooseNone(s.last, s.idle);
  }

  lemma OnlyOne(list: seq<nat>, i: nat)
    requires i !in list && forall x :: x in list ==> x == i
    ensures list == []
  {
    var first := if list == [] then i else list[0];
    assert list != [] ==> first in list;
  }

  lemma {:induction false} SafeRun(s: State, moves: seq<Move>)
    requires Safe(s) && Typed(s) && Possible(s, moves)
    ensures Safe(Run(s, moves))
    decreases |moves|
  {
    hide Safe, Do, Enabled;
    if moves == [] {
    } else {
      SafeStep(s, moves[0]);
      SafeTyped(Do(s, moves[0]));
      SafeRun(Do(s, moves[0]), moves[1..]);
    }
  }

  lemma SafeTyped(s: State)
    requires Safe(s)
    ensures Typed(s) && !Stranded(s)
  {
    if s.pc.DrainAsleep? {
      assert s.idle[s.pc.j] in s.idle;
    }
  }

  // ---- Main result ----

  /** From the moment the main loop has stopped, the drain can sleep on with nobody to wake
      it exactly if there are two schedulers or more and the waiter of an idle one is still
      registered or its callback on the way. */
  lemma StrandsIff(s: State)
    requires Inv(s) && s.pc.Stopped?
    ensures Typed(s)
    ensures CanStrand(s) <==> |s.last| >= 2 && SomeOut(s)
  {
    if |s.last| >= 2 && SomeOut(s) {
      var x: nat :| Out(s, x);
      if s.hooks[x].Registered? {
        var s1 := Do(s, Claim(x));
        StepInv(s, Claim(x));
        StrandWithClaimed(s1, x);
        StrandLater(s, Claim(x));
      } else {
        StrandWithClaimed(s, x);
      }
    } else {
      StartsSafe(s);
      forall moves | Possible(s, moves) ensures !Stranded(Run(s, moves)) {
        SafeRun(s, moves);
        SafeTyped(Run(s, moves));
      }
    }
  }

  lemma StartsSafe(s: State)
    requires Inv(s) && s.pc.Stopped? && !(|s.last| >= 2 && SomeOut(s))
    ensures Safe(s)
  {
    if !SomeOut(s) {
      forall x | x in s.idle ensures !s.last[x].Idle? {
        assert !Out(s, x);
      }
    }
  }
}
