/** Detail::SystemSemaphore on Darwin and Win32: an atomic count in front of a kernel
    semaphore, used by any number of threads. */
module SystemSemaphore {
  import opened Numbers
  import opened Sequences

  type Tid = nat

  datatype Pc =
    | Idle
    | Committed             // decremented a non-positive count, now in the kernel wait
    | Signalling            // incremented a negative count, about to signal the kernel object
    | TryCas(count: int)    // TryWait read a positive count

  /** `posts` and `waits` count the Post calls that incremented and the waits that got
      through; no step reads them. */
  datatype State = State(count: int, kernel: nat, pcs: seq<Pc>, posts: nat, waits: nat)

  datatype Command = CallPost | CallWait | CallTry | Advance

  datatype Move = Move(t: Tid, c: Command)

  /** The constructors give the initial count to both the atomic and the kernel object. */
  function Initial(n: nat, threads: nat): State {
    State(n, n, seq(threads, i => Idle), 0, 0)
  }

  /** A thread in the kernel wait runs only when the kernel count is positive. */
  predicate Enabled(s: State, m: Move) {
    m.t < |s.pcs| &&
    match m.c
    case Advance =>
      (match s.pcs[m.t]
       case Idle => false
       case Committed => s.kernel > 0
       case Signalling => true
       case TryCas(_) => true)
    case _ => s.pcs[m.t].Idle?
  }

  function Goto(s: State, t: Tid, pc: Pc): State
    requires t < |s.pcs|
  {
    s.(pcs := s.pcs[t := pc])
  }

  /** The head of TryWait's loop with a fresh count. */
  function TrySees(s: State, t: Tid): State
    requires t < |s.pcs|
  {
    Goto(s, t, if s.count <= 0 then Idle else TryCas(s.count))
  }

  function Do(s: State, m: Move): State
    requires Enabled(s, m)
  {
    match m.c
    case CallPost =>
      Goto(s, m.t, if s.count < 0 then Signalling else Idle).(count := s.count + 1, posts := s.posts + 1)
    case CallWait =>
      if s.count <= 0 then Goto(s, m.t, Committed).(count := s.count - 1)
      else s.(count := s.count - 1, waits := s.waits + 1)
    case CallTry => TrySees(s, m.t)
    case Advance =>
      match s.pcs[m.t]
      case Committed => Goto(s, m.t, Idle).(kernel := s.kernel - 1, waits := s.waits + 1)
      case Signalling => Goto(s, m.t, Idle).(kernel := s.kernel + 1)
      case TryCas(count) =>
        if s.count == count then Goto(s, m.t, Idle).(count := s.count - 1, waits := s.waits + 1)
        else TrySees(s, m.t)
  }

  predicate Possible(s: State, moves: seq<Move>)
    decreases |moves|
  {
    moves != [] ==> Enabled(s, moves[0]) && Possible(Do(s, moves[0]), moves[1..])
  }

  function Run(s: State, moves: seq<Move>): State
    requires Possible(s, moves)
    decreases |moves|
  {
    if moves == [] then s else Run(Do(s, moves[0]), moves[1..])
  }

  function Waiting(s: State): nat { multiset(s.pcs)[Committed] }
  function Pending(s: State): nat { multiset(s.pcs)[Signalling] }

  /** `n` is the initial count. */
  predicate Inv(n: nat, s: State) {
    && Waiting(s) + n == s.kernel + Pending(s) + Max0(-s.count)
    && s.waits + Max0(s.count) + s.kernel + Pending(s) == s.posts + 2 * n
    && (forall t :: 0 <= t < |s.pcs| && s.pcs[t].TryCas? ==> s.pcs[t].count > 0)
  }

  lemma AllIdle(threads: nat)
    ensures multiset(seq(threads, i => Idle))[Committed] == 0
    ensures multiset(seq(threads, i => Idle))[Signalling] == 0
  {
    assert Committed !in multiset(seq(threads, i => Idle));
    assert Signalling !in multiset(seq(threads, i => Idle));
  }

  lemma StepInv(n: nat, s: State, m: Move)
    requires Inv(n, s) && Enabled(s, m)
    ensures Inv(n, Do(s, m))
  {
    var pc := Do(s, m).pcs[m.t];
    ReplaceCount(s.pcs, m.t, pc, Committed);
    ReplaceCount(s.pcs, m.t, pc, Signalling);
    assert Do(s, m).pcs == s.pcs[m.t := pc];
    StepArithmetic(n, s, m);
  }

  lemma StepArithmetic(n: nat, s: State, m: Move)
    requires Inv(n, s) && Enabled(s, m)
    requires var s' := Do(s, m); var pc := s'.pcs[m.t];
      && Waiting(s') == Waiting(s) - (if s.pcs[m.t] == Committed then 1 else 0) + (if pc == Committed then 1 else 0)
      && Pending(s') == Pending(s) - (if s.pcs[m.t] == Signalling then 1 else 0) + (if pc == Signalling then 1 else 0)
    ensures Inv(n, Do(s, m))
  {
    match m.c
    case CallPost =>
    case CallWait =>
    case CallTry =>
    case Advance =>
      if s.pcs[m.t].TryCas? && s.count == s.pcs[m.t].count {
        assert s.count > 0;
      }
  }

  lemma {:induction false} RunInv(n: nat, s: State, moves: seq<Move>)
    requires Inv(n, s) && Possible(s, moves)
    ensures Inv(n, Run(s, moves))
    decreases |moves|
  {
    if moves == [] {
    } else {
      StepInv(n, s, moves[0]);
      RunInv(n, Do(s, moves[0]), moves[1..]);
    }
  }

  // ---- Main results ----

  /** In every run of any number of threads: threads committed to the kernel wait, less
      the kernel count and the signals on their way, are exactly the negative part of the
      count; so completed waits never exceed posts. */
  lemma Balanced(threads: nat, moves: seq<Move>)
    requires Possible(Initial(0, threads), moves)
    ensures var s := Run(Initial(0, threads), moves);
      && Waiting(s) - s.kernel - Pending(s) == Max0(-s.count)
      && s.posts - s.waits == Max0(s.count) + s.kernel + Pending(s)
  {
    AllIdle(threads);
    RunInv(0, Initial(0, threads), moves);
  }

  /** With no call between its two accesses, a thread is blocked in the kernel only if
      every post has already let somebody through. */
  lemma BlockedOnlyWhenConsumed(threads: nat, moves: seq<Move>, t: Tid)
    requires Possible(Initial(0, threads), moves)
    requires var s := Run(Initial(0, threads), moves);
      && t < |s.pcs| && s.pcs[t].Committed? && s.kernel == 0
      && forall u :: 0 <= u < |s.pcs| ==> s.pcs[u].Idle? || s.pcs[u].Committed?
    ensures var s := Run(Initial(0, threads), moves); s.waits == s.posts
  {
    Balanced(threads, moves);
    var s := Run(Initial(0, threads), moves);
    assert Committed in multiset(s.pcs);
    assert Signalling !in multiset(s.pcs);
  }

  /** TryWait takes a permit when its CAS sees the positive count it loaded, gives up only
      on a count that is not positive, and otherwise looks again; it changes the count only
      by the permit it takes. */
  lemma TryWaitAnswers(n: nat, threads: nat, moves: seq<Move>, m: Move)
    requires Possible(Initial(n, threads), moves) && Enabled(Run(Initial(n, threads), moves), m)
    requires m.c.CallTry? || Run(Initial(n, threads), moves).pcs[m.t].TryCas?
    ensures var s := Run(Initial(n, threads), moves); var s' := Do(s, m); var pc := s'.pcs[m.t];
      var took := s.pcs[m.t] == TryCas(s.count);
      && s'.waits == s.waits + (if took then 1 else 0) && s'.count == s.count - (if took then 1 else 0)
      && s'.posts == s.posts && s'.kernel == s.kernel
      && (took ==> s.count > 0 && pc.Idle?)
      && (!took ==> pc == if s.count > 0 then TryCas(s.count) else Idle)
  {
    AllIdle(threads);
    RunInv(n, Initial(n, threads), moves);
  }

  // ---- Calls finish ----

  /** Steps a call may still take by itself; a TryWait that lost its race starts over. */
  function Weight(pc: Pc, count: int, n: nat): nat {
    match pc
    case Idle => 0
    case Committed => 1
    case Signalling => 1
    case TryCas(c) => if c == count then n + 1 else n + 2
  }

  function Weights(pcs: seq<Pc>, count: int, n: nat): nat {
    if pcs == [] then 0
    else Weights(pcs[..|pcs| - 1], count, n) + Weight(pcs[|pcs| - 1], count, n)
  }

  lemma {:induction false} WeightsUpdate(pcs: seq<Pc>, t: Tid, pc: Pc, count: int, n: nat)
    requires t < |pcs|
    ensures Weights(pcs[t := pc], count, n) == Weights(pcs, count, n) - Weight(pcs[t], count, n) + Weight(pc, count, n)
  {
    var k := |pcs| - 1;
    if t == k {
      assert pcs[t := pc][..k] == pcs[..k];
    } else {
      assert pcs[t := pc][..k] == pcs[..k][t := pc];
      WeightsUpdate(pcs[..k], t, pc, count, n);
    }
  }

  lemma {:induction false} WeightsDrift(pcs: seq<Pc>, count: int, now: int, n: nat)
    ensures Weights(pcs, now, n) <= Weights(pcs, count, n) + |pcs|
  {
    if pcs == [] {
    } else {
      WeightsDrift(pcs[..|pcs| - 1], count, now, n);
    }
  }

  lemma {:induction false} WeightsBounded(pcs: seq<Pc>, count: int, n: nat)
    ensures Weights(pcs, count, n) <= |pcs| * (n + 2)
  {
    if pcs == [] {
    } else {
      var k := |pcs| - 1;
      WeightsBounded(pcs[..k], count, n);
      assert k * (n + 2) + (n + 2) == (k + 1) * (n + 2);
    }
  }

  lemma AdvanceLowers(s: State, m: Move)
    requires Enabled(s, m) && m.c.Advance?
    ensures var n := |s.pcs|; var s' := Do(s, m);
      |s'.pcs| == n && Weights(s'.pcs, s'.count, n) < Weights(s.pcs, s.count, n)
  {
    var s' := Do(s, m);
    WeightsUpdate(s.pcs, m.t, s'.pcs[m.t], s.count, |s.pcs|);
    assert s'.pcs == s.pcs[m.t := s'.pcs[m.t]];
    WeightsDrift(s'.pcs, s.count, s'.count, |s.pcs|);
  }

  lemma {:induction false} AdvancesRunOut(s: State, moves: seq<Move>)
    requires Possible(s, moves) && forall m :: m in moves ==> m.c.Advance?
    ensures |moves| <= Weights(s.pcs, s.count, |s.pcs|)
    decreases |moves|
  {
    if moves == [] {
    } else {
      AdvanceLowers(s, moves[0]);
      AdvancesRunOut(Do(s, moves[0]), moves[1..]);
    }
  }

  lemma {:induction false} SameThreads(s: State, moves: seq<Move>)
    requires Possible(s, moves)
    ensures |Run(s, moves).pcs| == |s.pcs|
    decreases |moves|
  {
    if moves == [] {
    } else {
      SameThreads(Do(s, moves[0]), moves[1..]);
    }
  }

  /** Without new calls the calls under way come to an end: they take boundedly many steps,
      and when none can step, all are over or blocked with every post consumed. */
  lemma CallsFinish(threads: nat, moves: seq<Move>, more: seq<Move>)
    requires Possible(Initial(0, threads), moves) && Possible(Run(Initial(0, threads), moves), more)
    requires forall m :: m in more ==> m.c.Advance?
    ensures |more| <= threads * (threads + 2)
    ensures var s := Run(Initial(0, threads), moves);
      (forall t :: !Enabled(s, Move(t, Advance))) ==>
        forall t :: 0 <= t < |s.pcs| ==> s.pcs[t].Idle? || (s.pcs[t].Committed? && s.waits == s.posts)
  {
    hide Run, Possible, Weights;
    var s := Run(Initial(0, threads), moves);
    SameThreads(Initial(0, threads), moves);
    AdvancesRunOut(s, more);
    WeightsBounded(s.pcs, s.count, |s.pcs|);
    if forall t :: !Enabled(s, Move(t, Advance)) {
      forall t | 0 <= t < |s.pcs| ensures s.pcs[t].Idle? || (s.pcs[t].Committed? && s.waits == s.posts) {
        QuietMeansServed(threads, moves, t);
      }
    }
  }

  lemma QuietMeansServed(threads: nat, moves: seq<Move>, t: Tid)
    requires Possible(Initial(0, threads), moves)
    requires forall u :: !Enabled(Run(Initial(0, threads), moves), Move(u, Advance))
    ensures var s := Run(Initial(0, threads), moves);
      t < |s.pcs| ==> s.pcs[t].Idle? || (s.pcs[t].Committed? && s.waits == s.posts)
  {
    hide Run, Possible;
    var s := Run(Initial(0, threads), moves);
    forall u | 0 <= u < |s.pcs| ensures s.pcs[u].Idle? || (s.pcs[u].Committed? && s.kernel == 0) {
      assert !Enabled(s, Move(u, Advance));
    }
    if t < |s.pcs| && s.pcs[t].Committed? {
      BlockedOnlyWhenConsumed(threads, moves, t);
    }
  }

  // ---- The initial count ----

  /** No run lets more waits through than the initial count plus the posts. */
  ghost predicate NeverOverGrants(n: nat) {
    forall threads: nat, moves ::
      Possible(Initial(n, threads), moves) ==>
        Run(Initial(n, threads), moves).waits <= n + Run(Initial(n, threads), moves).posts
  }

  /** One thread gets through `k` of the `n` units of the kernel object. */
  lemma {:induction false} DrainKernel(s: State, k: nat) returns (moves: seq<Move>)
    requires s.pcs == [Idle] && s.count <= 0 && k <= s.kernel
    ensures Possible(s, moves) && Run(s, moves).waits == s.waits + k && Run(s, moves).posts == s.posts
    decreases k
  {
    moves := [];
    if k == 0 {
    } else {
      var w, a := Move(0, CallWait), Move(0, Advance);
      var s1 := Do(s, w);
      var s2 := Do(s1, a);
      var rest := DrainKernel(s2, k - 1);
      moves := [w] + ([a] + rest);
      assert ([a] + rest)[1..] == rest && moves[1..] == [a] + rest;
      assert Possible(s1, [a] + rest);
    }
  }

  /** One thread first takes the `n` units of the atomic count, then those of the kernel. */
  lemma {:induction false} DrainBoth(s: State) returns (moves: seq<Move>)
    requires s.pcs == [Idle] && s.count >= 0
    ensures Possible(s, moves)
    ensures Run(s, moves).waits == s.waits + s.count + s.kernel && Run(s, moves).posts == s.posts
    decreases s.count
  {
    if s.count == 0 {
      moves := DrainKernel(s, s.kernel);
    } else {
      var w := Move(0, CallWait);
      var rest := DrainBoth(Do(s, w));
      moves := [w] + rest;
      assert moves[1..] == rest;
    }
  }

  /** The semaphore is sound exactly when it is created with count zero: otherwise the
      doubled initial count lets 2n waits through without a post. */
  lemma SoundIffZero(n: nat)
    ensures NeverOverGrants(n) <==> n == 0
  {
    if n == 0 {
      forall threads: nat, moves | Possible(Initial(n, threads), moves)
        ensures Run(Initial(n, threads), moves).waits <= n + Run(Initial(n, threads), moves).posts
      {
        Balanced(threads, moves);
      }
    } else {
      assert Initial(n, 1).pcs == [Idle];
      var moves := DrainBoth(Initial(n, 1));
      assert Run(Initial(n, 1), moves).waits == 2 * n;
    }
  }
}
