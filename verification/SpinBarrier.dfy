/** SpinBarrier: N threads meet at barrier after barrier, one shared access per step.
    `sides` barriers are used in turn: two in the benchmark, one if a single barrier is
    reused back to back. */
module SpinBarrier {
  import opened Sequences

  type Tid = nat

  const WORD: nat := 0x1_0000_0000

  /** Where a thread is in its current Wait: before the decrement, spinning, before the
      increment, or resetting the two counts as the last one through. */
  datatype Stage = Arrive | Spin | Count | ClearReady | ResetWait

  /** `phase` is the number of Waits the thread has completed. */
  datatype Loc = Loc(phase: nat, stage: Stage)

  /** mWaitCount and mReadyCount of each barrier.  `winners` records which thread
      returned true in each completed phase; no step reads it. */
  datatype State = State(wait: seq<nat>, ready: seq<nat>, locs: seq<Loc>, winners: seq<Tid>)

  function Initial(n: nat, sides: nat): State {
    State(seq(sides, i => n), seq(sides, i => 0), seq(n, i => Loc(0, Arrive)), [])
  }

  ghost predicate Shaped(n: nat, sides: nat, s: State) {
    0 < sides && 0 < n < WORD && |s.wait| == sides && |s.ready| == sides && |s.locs| == n
  }

  /** One shared access of thread `t`; counts wrap like uint32. */
  function Do(n: nat, sides: nat, s: State, t: Tid): State
    requires Shaped(n, sides, s) && t < n
  {
    var loc := s.locs[t];
    var b := loc.phase % sides;
    match loc.stage
    case Arrive =>
      s.(wait := s.wait[b := (s.wait[b] + WORD - 1) % WORD], locs := s.locs[t := loc.(stage := Spin)])
    case Spin =>
      if s.wait[b] != 0 then s else s.(locs := s.locs[t := loc.(stage := Count)])
    case Count =>
      s.(ready := s.ready[b := (s.ready[b] + 1) % WORD],
         locs := s.locs[t := if s.ready[b] == n - 1 then loc.(stage := ClearReady) else Loc(loc.phase + 1, Arrive)])
    case ClearReady =>
      s.(ready := s.ready[b := 0], locs := s.locs[t := loc.(stage := ResetWait)])
    case ResetWait =>
      s.(wait := s.wait[b := n], locs := s.locs[t := Loc(loc.phase + 1, Arrive)], winners := s.winners + [t])
  }

  /** The state after the threads in `moves` have stepped in that order. */
  ghost function Run(n: nat, sides: nat, s: State, moves: seq<Tid>): (end: State)
    requires Shaped(n, sides, s) && forall i :: 0 <= i < |moves| ==> moves[i] < n
    ensures Shaped(n, sides, end)
    decreases |moves|
  {
    if moves == [] then s else Run(n, sides, Do(n, sides, s, moves[0]), moves[1..])
  }

  function At(s: State, phase: nat, stage: Stage): nat {
    multiset(s.locs)[Loc(phase, stage)]
  }

  /** `r` is the phase not all threads have completed: everybody is in it, or has left it
      and is at most spinning in the next one, whose barrier is fresh. */
  ghost predicate Counted(n: nat, s: State) {
    && Shaped(n, 2, s)
    && var r := |s.winners|; var b, c := r % 2, (r + 1) % 2;
    && (forall t :: 0 <= t < n ==> InRound(s.locs[t], r))
    && At(s, r, Arrive) + At(s, r, Spin) + At(s, r, Count) + At(s, r, ClearReady) + At(s, r, ResetWait)
       + At(s, r + 1, Arrive) + At(s, r + 1, Spin) == n
    && Left(s, r) < n
    && s.wait[b] == At(s, r, Arrive)
    && s.ready[b] == (if At(s, r, ResetWait) > 0 then 0 else Left(s, r) + At(s, r, ClearReady))
    && (At(s, r, Arrive) > 0 ==> Left(s, r) + At(s, r, Count) + At(s, r, ClearReady) + At(s, r, ResetWait) == 0)
    && (At(s, r, ClearReady) + At(s, r, ResetWait) > 0 ==> Left(s, r) == n - 1)
    && s.wait[c] == n - At(s, r + 1, Spin)
    && s.ready[c] == 0
  }

  predicate InRound(loc: Loc, r: nat) {
    loc.phase == r || (loc.phase == r + 1 && (loc.stage.Arrive? || loc.stage.Spin?))
  }

  function Left(s: State, r: nat): nat {
    At(s, r + 1, Arrive) + At(s, r + 1, Spin)
  }

  lemma {:induction false} AllArriving(n: nat)
    ensures multiset(seq(n, i => Loc(0, Arrive)))[Loc(0, Arrive)] == n
  {
    var s := seq(n, i => Loc(0, Arrive));
    if n == 0 {
    } else {
      AllArriving(n - 1);
      assert s == seq(n - 1, i => Loc(0, Arrive)) + [Loc(0, Arrive)];
    }
  }

  lemma Absent(n: nat, x: Loc)
    requires x != Loc(0, Arrive)
    ensures multiset(seq(n, i => Loc(0, Arrive)))[x] == 0
  {
    assert x !in multiset(seq(n, i => Loc(0, Arrive)));
  }

  lemma InitialCounted(n: nat)
    requires 0 < n < WORD
    ensures Counted(n, Initial(n, 2))
  {
    AllArriving(n);
    Absent(n, Loc(0, Spin));
    Absent(n, Loc(0, Count));
    Absent(n, Loc(0, ClearReady));
    Absent(n, Loc(0, ResetWait));
    Absent(n, Loc(1, Arrive));
    Absent(n, Loc(1, Spin));
  }

  /** The counts change by thread `t`'s move only. */
  ghost predicate CountsMoved(s: State, s': State, t: Tid)
    requires t < |s.locs| && |s'.locs| == |s.locs|
  {
    && s'.locs == s.locs[t := s'.locs[t]]
    && (forall p, g :: At(s', p, g) ==
          At(s, p, g) - (if s.locs[t] == Loc(p, g) then 1 else 0) + (if s'.locs[t] == Loc(p, g) then 1 else 0))
  }

  lemma StepMoves(n: nat, sides: nat, s: State, t: Tid)
    requires Shaped(n, sides, s) && t < n
    ensures CountsMoved(s, Do(n, sides, s, t), t)
  {
    var s' := Do(n, sides, s, t);
    forall p, g ensures At(s', p, g) ==
        At(s, p, g) - (if s.locs[t] == Loc(p, g) then 1 else 0) + (if s'.locs[t] == Loc(p, g) then 1 else 0)
    {
      ReplaceCount(s.locs, t, s'.locs[t], Loc(p, g));
    }
  }

  /** A thread in some place is counted there. */
  lemma Present(s: State, t: Tid)
    requires t < |s.locs|
    ensures At(s, s.locs[t].phase, s.locs[t].stage) > 0
  {
    assert s.locs[t] in multiset(s.locs);
  }

  lemma StepCounted(n: nat, s: State, t: Tid)
    requires Counted(n, s) && t < n
    ensures Counted(n, Do(n, 2, s, t))
  {
    StepMoves(n, 2, s, t);
    Present(s, t);
    match s.locs[t].stage
    case Arrive => Arrives(n, s, t);
    case Spin => Spins(n, s, t);
    case Count => Leaves(n, s, t);
    case ClearReady => Clears(n, s, t);
    case ResetWait => RoundEnds(n, s, t);
  }

  lemma Arrives(n: nat, s: State, t: Tid)
    requires Counted(n, s) && t < n && s.locs[t].stage.Arrive? && At(s, s.locs[t].phase, Arrive) > 0
    requires CountsMoved(s, Do(n, 2, s, t), t)
    ensures Counted(n, Do(n, 2, s, t))
  {
    var r, s' := |s.winners|, Do(n, 2, s, t);
    Decremented(n, s, t);
    assert s'.winners == s.winners && s'.ready == s.ready;
    if s.locs[t].phase == r {
      ArrivesNow(n, s, s', t);
    } else {
      ArrivesNext(n, s, s', t);
    }
  }

  lemma Decremented(n: nat, s: State, t: Tid)
    requires Counted(n, s) && t < n && s.locs[t].stage.Arrive? && At(s, s.locs[t].phase, Arrive) > 0
    ensures var b := s.locs[t].phase % 2;
      0 < s.wait[b] && Do(n, 2, s, t).wait == s.wait[b := s.wait[b] - 1]
  {
    assert 0 < s.wait[s.locs[t].phase % 2] <= n;
  }

  lemma ArrivesNow(n: nat, s: State, s': State, t: Tid)
    requires Counted(n, s) && t < n && s.locs[t] == Loc(|s.winners|, Arrive)
    requires |s'.locs| == n && CountsMoved(s, s', t) && s'.locs[t] == Loc(|s.winners|, Spin)
    requires s'.winners == s.winners && s'.ready == s.ready
    requires var b := |s.winners| % 2; 0 < s.wait[b] && s'.wait == s.wait[b := s.wait[b] - 1]
    ensures Counted(n, s')
  {
  }

  lemma ArrivesNext(n: nat, s: State, s': State, t: Tid)
    requires Counted(n, s) && t < n && s.locs[t] == Loc(|s.winners| + 1, Arrive)
    requires |s'.locs| == n && CountsMoved(s, s', t) && s'.locs[t] == Loc(|s.winners| + 1, Spin)
    requires s'.winners == s.winners && s'.ready == s.ready
    requires var c := (|s.winners| + 1) % 2; 0 < s.wait[c] && s'.wait == s.wait[c := s.wait[c] - 1]
    ensures Counted(n, s')
  {
  }

  lemma Spins(n: nat, s: State, t: Tid)
    requires Counted(n, s) && t < n && s.locs[t].stage.Spin? && At(s, s.locs[t].phase, Spin) > 0
    requires CountsMoved(s, Do(n, 2, s, t), t)
    ensures Counted(n, Do(n, 2, s, t))
  {
    if s.wait[s.locs[t].phase % 2] == 0 {
      assert s.locs[t].phase == |s.winners|;
      GoesThrough(n, s, Do(n, 2, s, t), t);
    }
  }

  lemma GoesThrough(n: nat, s: State, s': State, t: Tid)
    requires Counted(n, s) && t < n && s.locs[t] == Loc(|s.winners|, Spin) && s.wait[|s.winners| % 2] == 0
    requires s' == s.(locs := s.locs[t := Loc(|s.winners|, Count)]) && CountsMoved(s, s', t)
    requires At(s, |s.winners|, Spin) > 0
    ensures Counted(n, s')
  {
  }

  lemma Leaves(n: nat, s: State, t: Tid)
    requires Counted(n, s) && t < n && s.locs[t].stage.Count? && At(s, s.locs[t].phase, Count) > 0
    requires CountsMoved(s, Do(n, 2, s, t), t)
    ensures Counted(n, Do(n, 2, s, t))
  {
    hide Counted, CountsMoved, At;
    var r := |s.winners|;
    LeavesNow(n, s, t);
    if s.ready[r % 2] == n - 1 {
      LeavesLast(n, s, Do(n, 2, s, t), t);
    } else {
      LeavesEarly(n, s, Do(n, 2, s, t), t);
    }
  }

  lemma LeavesNow(n: nat, s: State, t: Tid)
    requires Counted(n, s) && t < n && s.locs[t].stage.Count?
    ensures Shaped(n, 2, s) && s.locs[t] == Loc(|s.winners|, Count)
    ensures At(s, |s.winners|, Count) > 0 ==> s.ready[|s.winners| % 2] < n
  {
  }

  lemma LeavesLast(n: nat, s: State, s': State, t: Tid)
    requires Counted(n, s) && t < n && s.locs[t] == Loc(|s.winners|, Count) && At(s, |s.winners|, Count) > 0
    requires s.ready[|s.winners| % 2] == n - 1
    requires s' == s.(ready := s.ready[|s.winners| % 2 := n], locs := s.locs[t := Loc(|s.winners|, ClearReady)])
    requires CountsMoved(s, s', t)
    ensures Counted(n, s')
  {
  }

  lemma LeavesEarly(n: nat, s: State, s': State, t: Tid)
    requires Counted(n, s) && t < n && s.locs[t] == Loc(|s.winners|, Count) && At(s, |s.winners|, Count) > 0
    requires s.ready[|s.winners| % 2] < n - 1
    requires s' == s.(ready := s.ready[|s.winners| % 2 := s.ready[|s.winners| % 2] + 1],
                      locs := s.locs[t := Loc(|s.winners| + 1, Arrive)])
    requires CountsMoved(s, s', t)
    ensures Counted(n, s')
  {
  }

  lemma Clears(n: nat, s: State, t: Tid)
    requires Counted(n, s) && t < n && s.locs[t].stage.ClearReady? && At(s, s.locs[t].phase, ClearReady) > 0
    requires CountsMoved(s, Do(n, 2, s, t), t)
    ensures Counted(n, Do(n, 2, s, t))
  {
  }

  lemma RoundEnds(n: nat, s: State, t: Tid)
    requires Counted(n, s) && t < n && s.locs[t].stage.ResetWait? && At(s, s.locs[t].phase, ResetWait) > 0
    requires CountsMoved(s, Do(n, 2, s, t), t)
    ensures Counted(n, Do(n, 2, s, t))
  {
    var s', r := Do(n, 2, s, t), |s.winners|;
    NextRound(n, s, s', t);
    assert (r + 2) % 2 == r % 2;
    assert s.wait[(r + 1) % 2] == At(s', r + 1, Arrive);
  }

  lemma NextRound(n: nat, s: State, s': State, t: Tid)
    requires Counted(n, s) && t < n && s.locs[t] == Loc(|s.winners|, ResetWait)
    requires At(s, |s.winners|, ResetWait) > 0
    requires |s'.locs| == n && CountsMoved(s, s', t) && s'.locs[t] == Loc(|s.winners| + 1, Arrive)
    ensures var r := |s.winners| + 1;
      && (forall u :: 0 <= u < n ==> s'.locs[u].phase == r && InRound(s'.locs[u], r))
      && At(s', r, Arrive) + At(s', r, Spin) == n
      && At(s', r, Spin) == At(s, r, Spin)
      && At(s', r, Count) == 0 && At(s', r, ClearReady) == 0 && At(s', r, ResetWait) == 0
      && At(s', r + 1, Arrive) == 0 && At(s', r + 1, Spin) == 0
  {
    var r := |s.winners| + 1;
    forall u | 0 <= u < n ensures s'.locs[u].phase == r && (s'.locs[u].stage.Arrive? || s'.locs[u].stage.Spin?) {
      if u != t {
        Present(s, u);
      }
    }
    assert Loc(r, Count) !in multiset(s'.locs);
    assert Loc(r, ClearReady) !in multiset(s'.locs);
    assert Loc(r, ResetWait) !in multiset(s'.locs);
    assert Loc(r + 1, Arrive) !in multiset(s'.locs);
    assert Loc(r + 1, Spin) !in multiset(s'.locs);
  }

  lemma {:induction false} RunCounted(n: nat, s: State, moves: seq<Tid>)
    requires Counted(n, s) && forall i :: 0 <= i < |moves| ==> moves[i] < n
    ensures Counted(n, Run(n, 2, s, moves))
    decreases |moves|
  {
    if moves == [] {
    } else {
      StepCounted(n, s, moves[0]);
      RunCounted(n, Do(n, 2, s, moves[0]), moves[1..]);
    }
  }

  // ---- Main results: two barriers used in turn by n threads, any n ----

  predicate Arrived(loc: Loc, p: nat) {
    loc.phase > p || (loc.phase == p && !loc.stage.Arrive?)
  }

  predicate Passed(loc: Loc, p: nat) {
    loc.phase > p || (loc.phase == p && (loc.stage.Count? || loc.stage.ClearReady? || loc.stage.ResetWait?))
  }

  /** Nobody gets past the barrier of phase `p` before everybody has arrived there. */
  lemma NobodyPassesEarly(n: nat, moves: seq<Tid>, t: Tid, u: Tid, p: nat)
    requires 0 < n < WORD && (forall i :: 0 <= i < |moves| ==> moves[i] < n) && t < n && u < n
    requires Passed(Run(n, 2, Initial(n, 2), moves).locs[t], p)
    ensures Arrived(Run(n, 2, Initial(n, 2), moves).locs[u], p)
  {
    InitialCounted(n);
    RunCounted(n, Initial(n, 2), moves);
    PassedMeansArrived(n, Run(n, 2, Initial(n, 2), moves), t, u, p);
  }

  lemma PassedMeansArrived(n: nat, s: State, t: Tid, u: Tid, p: nat)
    requires Counted(n, s) && t < n && u < n && Passed(s.locs[t], p)
    ensures Arrived(s.locs[u], p)
  {
    Present(s, t);
    Present(s, u);
    assert InRound(s.locs[t], |s.winners|) && InRound(s.locs[u], |s.winners|);
  }

  /** A thread about to enter a barrier finds its counts reset: nobody counted through,
      and room for everyone not yet spinning in it, so no decrement underflows. */
  lemma BarrierFreshOnEntry(n: nat, moves: seq<Tid>, t: Tid)
    requires 0 < n < WORD && (forall i :: 0 <= i < |moves| ==> moves[i] < n) && t < n
    requires Run(n, 2, Initial(n, 2), moves).locs[t].stage.Arrive?
    ensures var s := Run(n, 2, Initial(n, 2), moves); var p := s.locs[t].phase;
      && s.ready[p % 2] == 0
      && s.wait[p % 2] + At(s, p, Spin) == n
      && s.wait[p % 2] > 0
  {
    InitialCounted(n);
    RunCounted(n, Initial(n, 2), moves);
    Present(Run(n, 2, Initial(n, 2), moves), t);
  }

  /** Every phase that all threads have completed has exactly one winner, and whoever is
      about to return true is the winner of the phase it is in. */
  lemma OneWinnerPerPhase(n: nat, moves: seq<Tid>, t: Tid)
    requires 0 < n < WORD && (forall i :: 0 <= i < |moves| ==> moves[i] < n) && t < n
    ensures var s := Run(n, 2, Initial(n, 2), moves);
      && |s.winners| <= s.locs[t].phase <= |s.winners| + 1
      && (exists u :: 0 <= u < n && s.locs[u].phase == |s.winners|)
      && (s.locs[t].stage.ResetWait? ==>
            s.locs[t].phase == |s.winners| && Do(n, 2, s, t).winners == s.winners + [t])
  {
    InitialCounted(n);
    RunCounted(n, Initial(n, 2), moves);
    SomeoneBehind(n, Run(n, 2, Initial(n, 2), moves));
  }

  lemma SomeoneBehind(n: nat, s: State)
    requires Counted(n, s)
    ensures exists u :: 0 <= u < n && s.locs[u].phase == |s.winners|
  {
    var r := |s.winners|;
    var g :| g in {Arrive, Spin, Count, ClearReady, ResetWait} && At(s, r, g) > 0;
    assert Loc(r, g) in multiset(s.locs);
  }

  ghost predicate CanMove(n: nat, s: State)
    requires Shaped(n, 2, s)
  {
    exists t :: 0 <= t < n && Do(n, 2, s, t) != s
  }

  /** Not everybody spins in vain: in every reachable state some thread can go on. */
  lemma NeverStuck(n: nat, moves: seq<Tid>)
    requires 0 < n < WORD && forall i :: 0 <= i < |moves| ==> moves[i] < n
    ensures CanMove(n, Run(n, 2, Initial(n, 2), moves))
  {
    InitialCounted(n);
    RunCounted(n, Initial(n, 2), moves);
    SomeoneMoves(n, Run(n, 2, Initial(n, 2), moves));
  }

  lemma SomeoneMoves(n: nat, s: State)
    requires Counted(n, s)
    ensures CanMove(n, s)
  {
    SomeoneBehind(n, s);
    var u :| 0 <= u < n && s.locs[u].phase == |s.winners|;
    var t := u;
    if s.locs[u].stage.Spin? && s.wait[s.locs[u].phase % 2] != 0 {
      assert At(s, |s.winners|, Arrive) > 0;
      assert Loc(|s.winners|, Arrive) in multiset(s.locs);
      t :| 0 <= t < n && s.locs[t] == Loc(|s.winners|, Arrive);
    }
    Changes(n, s, t);
  }

  lemma Changes(n: nat, s: State, t: Tid)
    requires Shaped(n, 2, s) && t < n
    requires s.locs[t].stage.Spin? ==> s.wait[s.locs[t].phase % 2] == 0
    ensures Do(n, 2, s, t) != s
  {
    assert Do(n, 2, s, t).locs[t] != s.locs[t];
  }

  // ---- One barrier reused back to back ----

  ghost predicate Valid(n: nat, moves: seq<Tid>) {
    forall i :: 0 <= i < |moves| ==> moves[i] < n
  }

  /** In some run a thread enters the barrier while its count is zero, so that its
      decrement wraps around. */
  ghost predicate Underflows(n: nat)
    requires 0 < n < WORD
  {
    exists moves: seq<Tid>, t: Tid :: Valid(n, moves) && t < n &&
      var s := Run(n, 1, Initial(n, 1), moves);
      s.locs[t].stage.Arrive? && s.wait[0] == 0
  }

  /** The first `k` threads have arrived. */
  ghost predicate ArrivedUpTo(n: nat, s: State, k: nat) {
    && Shaped(n, 1, s) && k <= n && s.wait[0] == n - k && s.ready[0] == 0
    && forall t :: 0 <= t < n ==> s.locs[t] == Loc(0, if t < k then Spin else Arrive)
  }

  /** The others arrive, then thread 0 passes and comes straight back. */
  lemma {:induction false} ComesBack(n: nat, s: State, k: nat) returns (moves: seq<Tid>)
    requires 2 <= n < WORD && ArrivedUpTo(n, s, k)
    ensures Valid(n, moves)
    ensures var e := Run(n, 1, s, moves); e.locs[0].stage.Arrive? && e.wait[0] == 0
    decreases n - k
  {
    if k == n {
      moves := [0, 0];
      var s1 := Do(n, 1, s, 0);
      assert Run(n, 1, s1, [0]) == Do(n, 1, s1, 0);
      assert moves[1..] == [0];
    } else {
      var rest := ComesBack(n, Do(n, 1, s, k), k + 1);
      moves := [k] + rest;
      assert moves[1..] == rest;
    }
  }

  /** A lone thread resets the counts itself before it returns. */
  ghost predicate Alone(s: State) {
    && Shaped(1, 1, s)
    && s.wait[0] == (if s.locs[0].stage.Arrive? then 1 else 0)
    && s.ready[0] == (if s.locs[0].stage.ClearReady? then 1 else 0)
  }

  lemma {:induction false} StaysAlone(s: State, moves: seq<Tid>)
    requires Alone(s) && Valid(1, moves)
    ensures Alone(Run(1, 1, s, moves))
    decreases |moves|
  {
    if moves == [] {
    } else {
      StaysAlone(Do(1, 1, s, moves[0]), moves[1..]);
    }
  }

  /** One barrier may be reused back to back exactly if it is for a single thread. */
  lemma ReuseUnderflowsIff(n: nat)
    requires 0 < n < WORD
    ensures Underflows(n) <==> n >= 2
  {
    if n >= 2 {
      var moves := ComesBack(n, Initial(n, 1), 0);
    } else {
      forall moves | Valid(n, moves) ensures Alone(Run(n, 1, Initial(n, 1), moves)) {
        StaysAlone(Initial(n, 1), moves);
      }
    }
  }
}
