/** Who gets a turn in ContextImpl::Run: every active scheduler in every pass, every
    signalled one in the next pass, nobody after stop. */
module RunTurns {
  import opened Sequences
  import opened RunSpec
  import opened RunProofs
  import opened RunTheorems

  // ---- One pass over the active schedulers ----

  /** The scheduler whose Run is called by a move, if any. */
  function TurnOf(s: State, m: Move): seq<nat> {
    if m.Main? && s.pc.Pass? && s.pc.i < |s.active| && !s.stop then [s.active[s.pc.i]] else []
  }

  function Turns(s: State, moves: seq<Move>): seq<nat>
    requires Typed(s) && Possible(s, moves)
    decreases |moves|
  {
    if moves == [] then [] else TurnOf(s, moves[0]) + Turns(Do(s, moves[0]), moves[1..])
  }

  /** Before each of the moves the main thread is in its loop over the active list. */
  predicate InPass(s: State, moves: seq<Move>)
    requires Typed(s) && Possible(s, moves)
    decreases |moves|
  {
    moves != [] ==> (s.pc.Pass? || s.pc.WentIdle?) && InPass(Do(s, moves[0]), moves[1..])
  }

  /** The schedulers the pass has yet to run. */
  function ToCome(s: State): seq<nat>
    requires Typed(s)
  {
    match s.pc
    case Pass(i) => s.active[i..]
    case WentIdle(i) => s.active[i + 1..]
    case _ => []
  }

  lemma TurnStep(s: State, m: Move)
    requires Typed(s) && Enabled(s, m) && (s.pc.Pass? || s.pc.WentIdle?)
    requires !Do(s, m).pc.Stopped?
    ensures TurnOf(s, m) + ToCome(Do(s, m)) == ToCome(s)
    ensures var pc := Do(s, m).pc; pc.Pass? || pc.WentIdle? || pc.AfterPass?
  {
    if m.Main? && s.pc.Pass? && s.pc.i < |s.active| {
      assert s.active[s.pc.i..] == [s.active[s.pc.i]] + s.active[s.pc.i + 1..];
    } else if m.Main? && s.pc.WentIdle? && m.added {
      assert (s.active[..s.pc.i] + s.active[s.pc.i + 1..])[s.pc.i..] == s.active[s.pc.i + 1..];
    }
  }

  lemma {:induction false} TurnsToCome(s: State, moves: seq<Move>)
    requires Typed(s) && Possible(s, moves) && InPass(s, moves) && Run(s, moves).pc.AfterPass?
    ensures Turns(s, moves) == ToCome(s)
    decreases |moves|
  {
    hide TurnOf, ToCome, DoMain, Enabled;
    if moves == [] {
      NobodyToCome(s);
    } else {
      NotStoppedYet(s, moves);
      TurnStep(s, moves[0]);
      TurnsToCome(Do(s, moves[0]), moves[1..]);
    }
  }

  lemma NobodyToCome(s: State)
    requires Typed(s) && s.pc.AfterPass?
    ensures ToCome(s) == []
  {
  }

  lemma NotStoppedYet(s: State, moves: seq<Move>)
    requires Typed(s) && Possible(s, moves) && moves != [] && InPass(s, moves) && Run(s, moves).pc.AfterPass?
    ensures !Do(s, moves[0]).pc.Stopped?
  {
    if moves[1..] == [] {
      assert Run(Do(s, moves[0]), moves[1..]) == Do(s, moves[0]);
    }
  }

  // ---- Collecting the signalled ones ----

  /** Its callback has run since it went idle. */
  predicate Signalled(s: State, x: nat)
    requires Typed(s)
  {
    x in s.idle && x < |s.last| && !s.last[x].Idle?
  }

  /** The main thread is at the start of a pass after the last move and not before. */
  predicate FirstAtPass(s: State, moves: seq<Move>)
    requires Typed(s) && Possible(s, moves)
    decreases |moves|
  {
    if moves == [] then s.pc == Pass(0)
    else s.pc != Pass(0) && FirstAtPass(Do(s, moves[0]), moves[1..])
  }

  lemma {:induction false} Collected(s: State, moves: seq<Move>, x: nat)
    requires Inv(s) && Possible(s, moves) && (s.pc.Compare? || s.pc.Collect?) && FirstAtPass(s, moves)
    requires x in s.active || Signalled(s, x)
    ensures x in Run(s, moves).active
    decreases |moves|
  {
    var s1 := Do(s, moves[0]);
    CollectStep(s, moves[0], x);
    StepInv(s, moves[0]);
    if s1.pc == Pass(0) {
      assert moves[1..] == [];
    } else {
      Collected(s1, moves[1..], x);
    }
  }

  lemma CollectStep(s: State, m: Move, x: nat)
    requires Inv(s) && Enabled(s, m) && (s.pc.Compare? || s.pc.Collect?)
    requires x in s.active || Signalled(s, x)
    ensures var s1 := Do(s, m);
      if s1.pc == Pass(0) then x in s1.active
      else (s1.pc.Compare? || s1.pc.Collect?) && (x in s1.active || Signalled(s1, x))
  {
    if m.Main? {
      ChooseMembers(s.last, s.idle, false);
    }
  }

  lemma {:induction false} StaysIdle(s: State, moves: seq<Move>, x: nat)
    requires Inv(s) && Possible(s, moves) && (s.pc.Compare? || s.pc.Collect?) && FirstAtPass(s, moves)
    requires x in s.idle && s.last[x].Idle? && Callback(x) !in moves
    ensures x in Run(s, moves).idle
    decreases |moves|
  {
    var s1 := Do(s, moves[0]);
    assert moves[0] != Callback(x);
    IdleStep(s, moves[0], x);
    StepInv(s, moves[0]);
    if s1.pc == Pass(0) {
      assert moves[1..] == [];
    } else {
      StaysIdle(s1, moves[1..], x);
    }
  }

  lemma IdleStep(s: State, m: Move, x: nat)
    requires Inv(s) && Enabled(s, m) && (s.pc.Compare? || s.pc.Collect?)
    requires x in s.idle && s.last[x].Idle? && m != Callback(x)
    ensures var s1 := Do(s, m);
      && x in s1.idle && x < |s1.last| && s1.last[x].Idle?
      && (s1.pc == Pass(0) || s1.pc.Compare? || s1.pc.Collect?)
  {
    if m.Main? {
      ChooseMembers(s.last, s.idle, true);
    }
  }

  // ---- Main results: turns ----

  /** The state of the loop after the moves of a run. */
  function Reach(n: nat, moves: seq<Move>): (s: State)
    requires Possible(Initial(n), moves)
    ensures Typed(s)
  {
    Run(Initial(n), moves)
  }

  lemma Invariant(n: nat, moves: seq<Move>)
    requires Possible(Initial(n), moves)
    ensures Inv(Reach(n, moves))
  {
    InitialInv(n);
    RunInv(Initial(n), moves);
  }

  /** A pass that is not broken off by stop calls the Run of every scheduler that was
      active at its start, once and in order. */
  lemma PassRunsAll(n: nat, moves: seq<Move>, pass: seq<Move>)
    requires Possible(Initial(n), moves) && Reach(n, moves).pc == Pass(0)
    requires Possible(Reach(n, moves), pass)
    requires InPass(Reach(n, moves), pass) && Run(Reach(n, moves), pass).pc.AfterPass?
    ensures Turns(Reach(n, moves), pass) == Reach(n, moves).active
  {
    TurnsToCome(Reach(n, moves), pass);
  }

  /** A scheduler whose callback has run when activeCount is looked at is active when the
      next pass begins; one still Idle stays idle unless its callback runs meanwhile. */
  lemma SignalledIsCollected(n: nat, moves: seq<Move>, more: seq<Move>, x: nat)
    requires Possible(Initial(n), moves) && Reach(n, moves).pc.Compare?
    requires Possible(Reach(n, moves), more) && FirstAtPass(Reach(n, moves), more)
    ensures var s := Reach(n, moves); var e := Run(s, more);
      && (x in s.active || Signalled(s, x) ==> x in e.active)
      && (x in s.idle && x < |s.last| && s.last[x].Idle? && Callback(x) !in more ==> x in e.idle)
  {
    Invariant(n, moves);
    var s := Reach(n, moves);
    if x in s.active || Signalled(s, x) {
      Collected(s, more, x);
    }
    if x in s.idle && x < |s.last| && s.last[x].Idle? && Callback(x) !in more {
      StaysIdle(s, more, x);
    }
  }

  /** So a signalled scheduler is run in the next pass, unless stop breaks it off. */
  lemma SignalledIsRun(n: nat, moves: seq<Move>, more: seq<Move>, pass: seq<Move>, x: nat)
    requires Possible(Initial(n), moves) && Reach(n, moves).pc.Compare?
    requires x in Reach(n, moves).active || Signalled(Reach(n, moves), x)
    requires Possible(Reach(n, moves), more) && FirstAtPass(Reach(n, moves), more)
    requires var e := Run(Reach(n, moves), more);
      Possible(e, pass) && InPass(e, pass) && Run(e, pass).pc.AfterPass?
    ensures x in Turns(Run(Reach(n, moves), more), pass)
  {
    SignalledIsCollected(n, moves, more, x);
    EndsAtPass(Reach(n, moves), more);
    TurnsToCome(Run(Reach(n, moves), more), pass);
  }

  lemma {:induction false} EndsAtPass(s: State, moves: seq<Move>)
    requires Typed(s) && Possible(s, moves) && FirstAtPass(s, moves)
    ensures Run(s, moves).pc == Pass(0)
    decreases |moves|
  {
    if moves == [] {
    } else {
      EndsAtPass(Do(s, moves[0]), moves[1..]);
    }
  }

  // ---- Rounds and stop ----

  function MainSteps(moves: seq<Move>): nat {
    if moves == [] then 0 else MainSteps(moves[1..]) + if moves[0].Main? then 1 else 0
  }

  /** Steps of the main thread to the end of its round: back at the top, asleep in the idle
      wait, or out of the loop. */
  function ToRoundEnd(s: State): nat
    requires Typed(s)
  {
    match s.pc
    case Compare => 2 * |s.last| + 7
    case Collect => 2 * |s.last| + 6
    case Pass(i) => 2 * (|s.active| - i) + 4
    case WentIdle(i) => 2 * (|s.active| - i) + 3
    case AfterPass => 3
    case IdleCheck => 2
    case YieldCheck => 1
    case _ => 0
  }

  predicate InRound(s: State, moves: seq<Move>)
    requires Typed(s) && Possible(s, moves)
    decreases |moves|
  {
    moves != [] ==> ToRoundEnd(s) > 0 && InRound(Do(s, moves[0]), moves[1..])
  }

  lemma RoundStep(s: State, m: Move)
    requires Inv(s) && Enabled(s, m) && ToRoundEnd(s) > 0
    ensures ToRoundEnd(Do(s, m)) + (if m.Main? then 1 else 0) <= ToRoundEnd(s)
  {
    if m.Main? && (s.pc.Collect? || s.pc.Compare?) {
      StepInv(s, m);
      Few(Do(s, m).active, |s.last|);
      CollectRound(s, m);
    } else {
      PassRound(s, m);
    }
  }

  lemma CollectRound(s: State, m: Move)
    requires Typed(s) && Enabled(s, m) && m.Main? && (s.pc.Collect? || s.pc.Compare?)
    requires |Do(s, m).active| <= |s.last|
    ensures ToRoundEnd(Do(s, m)) < ToRoundEnd(s)
  {
    hide Choose;
  }

  lemma PassRound(s: State, m: Move)
    requires Typed(s) && Enabled(s, m) && ToRoundEnd(s) > 0
    requires m.Main? ==> !s.pc.Collect? && !s.pc.Compare?
    ensures ToRoundEnd(Do(s, m)) + (if m.Main? then 1 else 0) <= ToRoundEnd(s)
  {
    hide Choose;
  }

  lemma {:induction false} RoundSteps(s: State, moves: seq<Move>)
    requires Inv(s) && Possible(s, moves) && InRound(s, moves)
    ensures MainSteps(moves) <= ToRoundEnd(s)
    decreases |moves|
  {
    hide Partition, Counts, Hooked, PointOk, Enabled, DoMain, ToRoundEnd;
    if moves == [] {
    } else {
      RoundStep(s, moves[0]);
      StepInv(s, moves[0]);
      RoundSteps(Do(s, moves[0]), moves[1..]);
    }
  }

  /** The loop always comes round: with n schedulers the main thread is back at the top, in
      the idle wait or out of the loop after at most 2n + 7 steps of its own. */
  lemma ComesRound(n: nat, moves: seq<Move>, more: seq<Move>)
    requires Possible(Initial(n), moves) && Possible(Reach(n, moves), more) && InRound(Reach(n, moves), more)
    ensures MainSteps(more) <= 2 * n + 7
  {
    Invariant(n, moves);
    var s := Reach(n, moves);
    RoundSteps(s, more);
    Few(s.active, |s.last|);
    SameSize(Initial(n), moves);
  }

  /** No callback runs. */
  predicate Quiet(moves: seq<Move>) {
    forall m :: m in moves ==> !m.Callback? && !m.Until?
  }

  predicate AllIdle(s: State) {
    !s.stop && forall x :: 0 <= x < |s.last| ==> s.last[x].Idle?
  }

  /** Where the main thread is between a pass and its idle wait. */
  function ToSleep(pc: Pc): nat {
    match pc case AfterPass => 2 case IdleCheck => 1 case _ => 0
  }

  lemma QuietStep(s: State, m: Move)
    requires Inv(s) && Enabled(s, m) && AllIdle(s) && !m.Callback? && !m.Until?
    requires s.pc.AfterPass? || s.pc.IdleCheck? || s.pc.Asleep?
    ensures var s1 := Do(s, m);
      && AllIdle(s1) && (s1.pc.AfterPass? || s1.pc.IdleCheck? || s1.pc.Asleep?)
      && (ToSleep(s.pc) > 0 ==> ToSleep(s1.pc) + (if m.Main? then 1 else 0) <= ToSleep(s.pc))
      && (ToSleep(s.pc) == 0 ==> ToSleep(s1.pc) == 0)
  {
    AllIdleMeans(s);
  }

  lemma AllIdleMeans(s: State)
    requires Inv(s) && AllIdle(s)
    ensures s.active == [] && s.activeCount == 0
  {
    ChooseNone(s.last, s.idle);
    if s.active != [] {
      SomeActive(s);
    }
  }

  lemma SomeActive(s: State)
    requires Inv(s) && s.active != []
    ensures exists x :: 0 <= x < |s.last| && !s.last[x].Idle?
  {
    var x := s.active[0];
    assert x in s.active;
  }

  lemma {:induction false} QuietSteps(s: State, moves: seq<Move>)
    requires Inv(s) && Possible(s, moves) && AllIdle(s) && Quiet(moves)
    requires s.pc.AfterPass? || s.pc.IdleCheck? || s.pc.Asleep?
    ensures var e := Run(s, moves);
      && (e.pc.AfterPass? || e.pc.IdleCheck? || e.pc.Asleep?)
      && (e.pc.Asleep? || MainSteps(moves) < ToSleep(s.pc))
    ensures s.pc.Asleep? ==> Run(s, moves).pc.Asleep?
    decreases |moves|
  {
    hide Partition, Counts, Hooked, PointOk, Enabled, DoMain, AllIdle;
    if moves == [] {
    } else {
      assert moves[0] in moves && forall m :: m in moves[1..] ==> m in moves;
      QuietStep(s, moves[0]);
      StepInv(s, moves[0]);
      QuietSteps(Do(s, moves[0]), moves[1..]);
    }
  }

  /** With every scheduler idle after a pass and neither a callback nor stop to come, the
      main thread goes to its idle wait with its next two steps and stays there, spurious
      wake-ups included. */
  lemma SleepsWhenAllIdle(n: nat, moves: seq<Move>, more: seq<Move>)
    requires Possible(Initial(n), moves) && Reach(n, moves).pc.AfterPass? && AllIdle(Reach(n, moves))
    requires Possible(Reach(n, moves), more) && Quiet(more)
    ensures MainSteps(more) >= 2 ==> Run(Reach(n, moves), more).pc.Asleep?
  {
    Invariant(n, moves);
    QuietSteps(Reach(n, moves), more);
  }

  /** Steps of the main thread until it leaves the loop once stop is set. */
  function ToStop(s: State): nat
    requires Typed(s)
  {
    match s.pc
    case Top => 1
    case Compare => 7
    case Collect => 6
    case Pass(i) => if i < |s.active| then 1 else 5
    case WentIdle(_) => 6
    case AfterPass => 4
    case IdleCheck => 3
    case Asleep(_) => 3
    case YieldCheck => 2
    case _ => 0
  }

  predicate OutOfLoop(pc: Pc) {
    pc.Stopped? || InDrain(pc)
  }

  lemma StopStep(s: State, m: Move)
    requires Inv(s) && Enabled(s, m) && s.stop
    ensures Do(s, m).stop && TurnOf(s, m) == []
    ensures OutOfLoop(s.pc) ==> OutOfLoop(Do(s, m).pc)
    ensures !OutOfLoop(s.pc) ==> ToStop(Do(s, m)) + (if m.Main? then 1 else 0) <= ToStop(s)
    ensures !OutOfLoop(s.pc) ==> ToStop(s) > 0
  {
  }

  lemma {:induction false} StopSteps(s: State, moves: seq<Move>)
    requires Inv(s) && Possible(s, moves) && s.stop
    ensures Turns(s, moves) == []
    ensures OutOfLoop(Run(s, moves).pc) || MainSteps(moves) < ToStop(s)
    decreases |moves|
  {
    hide Partition, Counts, Hooked, PointOk, Enabled, DoMain, ToStop, OutOfLoop, TurnOf;
    if moves == [] {
      NotOut(s);
    } else {
      StopStep(s, moves[0]);
      StepInv(s, moves[0]);
      StopSteps(Do(s, moves[0]), moves[1..]);
      if OutOfLoop(s.pc) {
        StaysOut(s, moves);
      }
    }
  }

  lemma NotOut(s: State)
    requires Typed(s)
    ensures OutOfLoop(s.pc) || ToStop(s) > 0
  {
  }

  lemma {:induction false} StaysOut(s: State, moves: seq<Move>)
    requires Inv(s) && Possible(s, moves) && s.stop && OutOfLoop(s.pc)
    ensures OutOfLoop(Run(s, moves).pc)
    decreases |moves|
  {
    hide Partition, Counts, Hooked, PointOk, Enabled, DoMain, OutOfLoop;
    if moves == [] {
    } else {
      StopStep(s, moves[0]);
      StepInv(s, moves[0]);
      StaysOut(Do(s, moves[0]), moves[1..]);
    }
  }

  /** Once the callback on `until` has set stop no scheduler is run any more, and the main
      thread has left the loop after at most seven steps of its own. */
  lemma StopsSoon(n: nat, moves: seq<Move>, more: seq<Move>)
    requires Possible(Initial(n), moves) && Reach(n, moves).stop && Possible(Reach(n, moves), more)
    ensures Turns(Reach(n, moves), more) == []
    ensures MainSteps(more) >= 7 ==> OutOfLoop(Run(Reach(n, moves), more).pc)
  {
    Invariant(n, moves);
    StopSteps(Reach(n, moves), more);
  }
}
