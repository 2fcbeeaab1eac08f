/** WaitForAllImpl: splitting the array, and why acquiring order-dependent waitables one at
    a time in address order cannot deadlock. */
module WaitForAll {
  type Address = nat
  type Tid = nat

  datatype Waitable = Waitable(address: Address, orderDependent: bool)

  // ---- Splitting the array ----

  /** The waitables of one sort, in array order. */
  function Select(ws: seq<Waitable>, ordered: bool): seq<Waitable> {
    if ws == [] then []
    else
      Select(ws[..|ws| - 1], ordered)
      + if ws[|ws| - 1].orderDependent == ordered then [ws[|ws| - 1]] else []
  }

  /** The first loop and the registration loop: `awaited` is what AddWaiter is called on
      for the unordered part, which indexes the whole array. */
  method Split(waitables: seq<Waitable>)
    returns (ordered: seq<Waitable>, unordered: seq<Waitable>, awaited: seq<Waitable>)
    ensures ordered == Select(waitables, true) && unordered == Select(waitables, false)
    ensures |unordered| <= |waitables| && awaited == waitables[..|unordered|]
  {
    ordered, unordered, awaited := [], [], [];
    for i := 0 to |waitables|
      invariant ordered == Select(waitables[..i], true) && unordered == Select(waitables[..i], false)
      invariant |unordered| <= i
    {
      assert waitables[..i + 1][..i] == waitables[..i];
      if waitables[i].orderDependent {
        ordered := ordered + [waitables[i]];
      } else {
        unordered := unordered + [waitables[i]];
      }
    }
    assert waitables[..|waitables|] == waitables;
    for i := 0 to |unordered|
      invariant awaited == waitables[..i]
    {
      awaited := awaited + [waitables[i]];
    }
  }

  lemma {:induction false} SelectSize(ws: seq<Waitable>, ordered: bool)
    ensures |Select(ws, ordered)| <= |ws|
    ensures |Select(ws, ordered)| == |ws| ==> forall i :: 0 <= i < |ws| ==> ws[i].orderDependent == ordered
    ensures (forall i :: 0 <= i < |ws| ==> ws[i].orderDependent == ordered) ==> Select(ws, ordered) == ws
    ensures forall x :: x in Select(ws, ordered) ==> x.orderDependent == ordered
  {
    if ws == [] {
    } else {
      SelectSize(ws[..|ws| - 1], ordered);
    }
  }

  /** No unordered waitable comes after an ordered one. */
  ghost predicate UnorderedFirst(ws: seq<Waitable>) {
    forall i, j :: 0 <= i < j < |ws| && ws[i].orderDependent ==> ws[j].orderDependent
  }

  /** The registration loop adds waiters to exactly the unordered waitables if and only if
      the caller's array lists them first.  Otherwise it adds a waiter to an ordered one,
      which the caller already holds, and misses an unordered one. */
  lemma {:induction false} AwaitsUnorderedIff(ws: seq<Waitable>)
    ensures |Select(ws, false)| <= |ws|
    ensures ws[..|Select(ws, false)|] == Select(ws, false) <==> UnorderedFirst(ws)
  {
    SelectSize(ws, false);
    var u := Select(ws, false);
    if UnorderedFirst(ws) {
      FirstSelected(ws);
    } else {
      var i, j :| 0 <= i < j < |ws| && ws[i].orderDependent && !ws[j].orderDependent;
      if ws[..|u|] == u {
        assert forall k :: 0 <= k < |u| ==> u[k] in Select(ws, false) && ws[k] == ws[..|u|][k];
        SelectCount(ws, |u|, j);
      }
    }
  }

  lemma {:induction false} FirstSelected(ws: seq<Waitable>)
    requires UnorderedFirst(ws)
    ensures |Select(ws, false)| <= |ws| && ws[..|Select(ws, false)|] == Select(ws, false)
  {
    if ws == [] {
    } else {
      var n := |ws| - 1;
      FirstSelected(ws[..n]);
      SelectSize(ws[..n], false);
      if !ws[n].orderDependent {
        assert Select(ws[..n], false) == ws[..n];
        assert ws == ws[..n] + [ws[n]];
      } else {
        assert ws[..n][..|Select(ws, false)|] == ws[..|Select(ws, false)|];
      }
    }
  }

  /** If the first `k` are all unordered and so is one from `k` on, more than `k` are. */
  lemma {:induction false} SelectCount(ws: seq<Waitable>, k: nat, j: nat)
    requires k <= j < |ws| && !ws[j].orderDependent
    requires forall i :: 0 <= i < k ==> !ws[i].orderDependent
    ensures |Select(ws, false)| > k
  {
    var n := |ws| - 1;
    if j < n {
      SelectCount(ws[..n], k, j);
    } else {
      SelectPrefix(ws[..n], k);
    }
  }

  lemma {:induction false} SelectPrefix(ws: seq<Waitable>, k: nat)
    requires k <= |ws| && forall i :: 0 <= i < k ==> !ws[i].orderDependent
    ensures |Select(ws, false)| >= k
  {
    if k < |ws| {
      SelectPrefix(ws[..|ws| - 1], k);
    } else {
      SelectSize(ws, false);
    }
  }

  /** Sorting an array without duplicates by address makes it strictly increasing. */
  lemma SortedIsStrict(original: seq<Address>, sorted: seq<Address>)
    requires multiset(sorted) == multiset(original)
    requires forall i, j :: 0 <= i < j < |original| ==> original[i] != original[j]
    requires forall i, j :: 0 <= i < j < |sorted| ==> sorted[i] <= sorted[j]
    ensures Increasing(sorted)
  {
    forall i, j | 0 <= i < j < |sorted| ensures sorted[i] < sorted[j] {
      if sorted[i] == sorted[j] {
        Twice(sorted, i, j);
        assert sorted[i] in multiset(original);
        var k :| 0 <= k < |original| && original[k] == sorted[i];
        Once(original, k);
      }
    }
  }

  lemma Twice(s: seq<Address>, i: nat, j: nat)
    requires i < j < |s| && s[i] == s[j]
    ensures multiset(s)[s[i]] >= 2
  {
    assert s == s[..j] + [s[j]] + s[j + 1..];
    assert s[i] in s[..j];
  }

  lemma Once(s: seq<Address>, k: nat)
    requires k < |s| && forall i, j :: 0 <= i < j < |s| ==> s[i] != s[j]
    ensures multiset(s)[s[k]] == 1
  {
    assert s == s[..k] + [s[k]] + s[k + 1..];
    assert s[k] !in s[..k] && s[k] !in s[k + 1..];
  }

  ghost predicate Increasing(s: seq<Address>) {
    forall i, j :: 0 <= i < j < |s| ==> s[i] < s[j]
  }

  // ---- Ordered acquisition ----

  /** A thread has acquired the first `k` of its waitables, holds `held`, and may have a
      waiter registered on the next one. */
  datatype Thread = Thread(k: nat, waiting: bool, held: set<Address>)

  /** `owner` maps each locked mutex to the thread it belongs to; a mutex handed over by
      Unlock belongs to the waiting thread at once. */
  datatype State = State(threads: seq<Thread>, owner: map<Address, Tid>)

  datatype Move =
    | Lock(t: Tid)                          // AddWaiter on the next waitable
    | Wake(t: Tid)                          // the wait semaphore was posted by the handover
    | Unlock(t: Tid, m: Address, heir: Tid) // in any order once all are held

  ghost predicate WellFormed(wants: seq<seq<Address>>, s: State) {
    && |s.threads| == |wants|
    && (forall t :: 0 <= t < |wants| ==> Increasing(wants[t]) && s.threads[t].k <= |wants[t]|)
  }

  ghost predicate WaitsFor(wants: seq<seq<Address>>, s: State, t: Tid, m: Address)
    requires WellFormed(wants, s)
  {
    && t < |wants| && s.threads[t].waiting
    && s.threads[t].k < |wants[t]| && wants[t][s.threads[t].k] == m
  }

  ghost predicate Enabled(wants: seq<seq<Address>>, s: State, m: Move)
    requires WellFormed(wants, s)
  {
    && m.t < |wants|
    && var th := s.threads[m.t];
    match m
    case Lock(t) => th.k < |wants[t]| && !th.waiting
    case Wake(t) =>
      th.waiting && th.k < |wants[t]| && wants[t][th.k] in s.owner && s.owner[wants[t][th.k]] == t
    case Unlock(t, a, heir) =>
      && th.k == |wants[t]| && a in th.held
      && ((exists u :: WaitsFor(wants, s, u, a)) ==> WaitsFor(wants, s, heir, a))
  }

  ghost function Do(wants: seq<seq<Address>>, s: State, m: Move): State
    requires WellFormed(wants, s) && Enabled(wants, s, m)
  {
    var th := s.threads[m.t];
    match m
    case Lock(t) =>
      var a := wants[t][th.k];
      if a !in s.owner then
        State(s.threads[t := Thread(th.k + 1, false, th.held + {a})], s.owner[a := t])
      else s.(threads := s.threads[t := th.(waiting := true)])
    case Wake(t) =>
      s.(threads := s.threads[t := Thread(th.k + 1, false, th.held + {wants[t][th.k]})])
    case Unlock(t, a, heir) =>
      State(s.threads[t := th.(held := th.held - {a})],
            if WaitsFor(wants, s, heir, a) then s.owner[a := heir] else s.owner - {a})
  }

  ghost predicate Finished(wants: seq<seq<Address>>, s: State, t: Tid)
    requires WellFormed(wants, s) && t < |wants|
  {
    s.threads[t].k == |wants[t]| && s.threads[t].held == {}
  }

  /** What a thread holds is its own and among its first `k`, and all of them until it has
      acquired the last; it waits only for a locked mutex. */
  ghost predicate ThreadFits(wants: seq<seq<Address>>, s: State, t: Tid)
    requires WellFormed(wants, s) && t < |wants|
  {
    var th := s.threads[t];
    && (forall a :: a in th.held ==> a in s.owner && s.owner[a] == t && a in wants[t][..th.k])
    && (th.waiting ==> th.k < |wants[t]| && wants[t][th.k] in s.owner)
    && (th.k < |wants[t]| ==> forall a :: a in wants[t][..th.k] ==> a in th.held)
  }

  /** A locked mutex is held by its owner or about to be picked up by it. */
  ghost predicate OwnerFits(wants: seq<seq<Address>>, s: State, a: Address)
    requires WellFormed(wants, s) && a in s.owner
  {
    var t := s.owner[a];
    t < |wants| && (a in s.threads[t].held || WaitsFor(wants, s, t, a))
  }

  ghost predicate Inv(wants: seq<seq<Address>>, s: State) {
    && WellFormed(wants, s)
    && (forall t :: 0 <= t < |wants| ==> ThreadFits(wants, s, t))
    && (forall a :: a in s.owner ==> OwnerFits(wants, s, a))
  }

  /** Every thread's array is duplicate-free and sorted. */
  ghost predicate AllIncreasing(wants: seq<seq<Address>>) {
    forall t :: 0 <= t < |wants| ==> Increasing(wants[t])
  }

  /** Nobody has or waits for anything. */
  ghost function Initial(wants: seq<seq<Address>>): (s: State)
    requires AllIncreasing(wants)
    ensures Inv(wants, s)
  {
    State(seq(|wants|, i => Thread(0, false, {})), map[])
  }

  lemma StepInv(wants: seq<seq<Address>>, s: State, m: Move)
    requires Inv(wants, s) && Enabled(wants, s, m)
    ensures Inv(wants, Do(wants, s, m))
  {
    match m
    case Lock(t) => LockInv(wants, s, m);
    case Wake(t) => WakeInv(wants, s, m);
    case Unlock(t, a, heir) => UnlockInv(wants, s, m);
  }

  /** Acquiring the next waitable extends the acquired prefix by it. */
  lemma PrefixGrows(want: seq<Address>, k: nat)
    requires k < |want|
    ensures want[..k + 1] == want[..k] + [want[k]]
  {
  }

  lemma LockInv(wants: seq<seq<Address>>, s: State, m: Move)
    requires Inv(wants, s) && Enabled(wants, s, m) && m.Lock?
    ensures Inv(wants, Do(wants, s, m))
  {
    var s' := Do(wants, s, m);
    forall t | 0 <= t < |wants| ensures ThreadFits(wants, s', t) {
      assert ThreadFits(wants, s, t);
      if t == m.t {
        PrefixGrows(wants[t], s.threads[t].k);
      }
    }
    forall a | a in s'.owner ensures OwnerFits(wants, s', a) {
      assert a in s.owner ==> OwnerFits(wants, s, a);
    }
  }

  lemma WakeInv(wants: seq<seq<Address>>, s: State, m: Move)
    requires Inv(wants, s) && Enabled(wants, s, m) && m.Wake?
    ensures Inv(wants, Do(wants, s, m))
  {
    var s' := Do(wants, s, m);
    forall t | 0 <= t < |wants| ensures ThreadFits(wants, s', t) {
      assert ThreadFits(wants, s, t);
      if t == m.t {
        PrefixGrows(wants[t], s.threads[t].k);
      }
    }
    forall a | a in s'.owner ensures OwnerFits(wants, s', a) {
      assert OwnerFits(wants, s, a);
    }
  }

  lemma UnlockInv(wants: seq<seq<Address>>, s: State, m: Move)
    requires Inv(wants, s) && Enabled(wants, s, m) && m.Unlock?
    ensures Inv(wants, Do(wants, s, m))
  {
    var s' := Do(wants, s, m);
    forall t | 0 <= t < |wants| ensures ThreadFits(wants, s', t) {
      assert ThreadFits(wants, s, t) && ThreadFits(wants, s, m.t);
      assert s.threads[t].waiting && wants[t][s.threads[t].k] == m.m ==> WaitsFor(wants, s, t, m.m);
    }
    forall a | a in s'.owner ensures OwnerFits(wants, s', a) {
      assert a in s.owner ==> OwnerFits(wants, s, a);
    }
  }

  ghost predicate Possible(wants: seq<seq<Address>>, s: State, moves: seq<Move>)
    requires Inv(wants, s)
    decreases |moves|
  {
    moves != [] ==>
      && Enabled(wants, s, moves[0])
      && (StepInv(wants, s, moves[0]); Possible(wants, Do(wants, s, moves[0]), moves[1..]))
  }

  ghost function Run(wants: seq<seq<Address>>, s: State, moves: seq<Move>): (end: State)
    requires Inv(wants, s) && Possible(wants, s, moves)
    ensures Inv(wants, end)
    decreases |moves|
  {
    if moves == [] then s
    else
      StepInv(wants, s, moves[0]);
      Run(wants, Do(wants, s, moves[0]), moves[1..])
  }

  // ---- Main results ----

  /** In every reachable state in which some thread has not finished, some thread can
      take a step: following who waits for whom leads to ever larger addresses. */
  lemma DeadlockFree(wants: seq<seq<Address>>, moves: seq<Move>, t: Tid)
    requires AllIncreasing(wants) && t < |wants|
    requires Possible(wants, Initial(wants), moves)
    requires !Finished(wants, Run(wants, Initial(wants), moves), t)
    ensures exists m :: Enabled(wants, Run(wants, Initial(wants), moves), m)
  {
    var m := Unblocked(wants, Run(wants, Initial(wants), moves), t, Above(wants));
  }

  /** An address above all those wanted. */
  function Above(wants: seq<seq<Address>>): (bound: Address)
    ensures forall u, i :: 0 <= u < |wants| && 0 <= i < |wants[u]| ==> wants[u][i] < bound
  {
    if wants == [] then 0
    else
      var bound := Above(wants[..|wants| - 1]);
      var last := AboveAll(wants[|wants| - 1]);
      if bound < last then last else bound
  }

  function AboveAll(want: seq<Address>): (bound: Address)
    ensures forall i :: 0 <= i < |want| ==> want[i] < bound
  {
    if want == [] then 0
    else
      var bound := AboveAll(want[..|want| - 1]);
      if bound <= want[|want| - 1] then want[|want| - 1] + 1 else bound
  }

  /** Follow the chain of owners from thread `t` to a thread that can move. */
  lemma {:induction false} Unblocked(wants: seq<seq<Address>>, s: State, t: Tid, bound: Address)
    returns (m: Move)
    requires Inv(wants, s) && t < |wants| && !Finished(wants, s, t)
    requires forall u, i :: 0 <= u < |wants| && 0 <= i < |wants[u]| ==> wants[u][i] < bound
    ensures Enabled(wants, s, m)
    decreases if s.threads[t].k < |wants[t]| then bound - wants[t][s.threads[t].k] else 0
  {
    var th := s.threads[t];
    if th.k == |wants[t]| {
      m := CanUnlock(wants, s, t);
    } else if !th.waiting {
      m := Lock(t);
    } else {
      assert ThreadFits(wants, s, t);
      var a := wants[t][th.k];
      var u := s.owner[a];
      assert OwnerFits(wants, s, a);
      if WaitsFor(wants, s, u, a) {
        m := Wake(u);
      } else {
        assert ThreadFits(wants, s, u);
        if s.threads[u].k < |wants[u]| {
          assert a in wants[u][..s.threads[u].k];
          assert wants[u][s.threads[u].k] > a;
        }
        m := Unblocked(wants, s, u, bound);
      }
    }
  }

  lemma CanUnlock(wants: seq<seq<Address>>, s: State, t: Tid) returns (m: Move)
    requires Inv(wants, s) && t < |wants| && !Finished(wants, s, t) && s.threads[t].k == |wants[t]|
    ensures Enabled(wants, s, m)
  {
    var a :| a in s.threads[t].held;
    if u :| WaitsFor(wants, s, u, a) {
      m := Unlock(t, a, u);
    } else {
      m := Unlock(t, a, 0);
    }
  }

  /** Steps a thread has left. */
  ghost function Left(want: seq<Address>, th: Thread): int
    requires th.k <= |want|
  {
    3 * (|want| - th.k) + (if th.waiting then 0 else 1) + |th.held|
  }

  ghost function Total(wants: seq<seq<Address>>, threads: seq<Thread>): int
    requires |threads| == |wants| && forall t :: 0 <= t < |wants| ==> threads[t].k <= |wants[t]|
    ensures Total(wants, threads) >= 0
  {
    if wants == [] then 0
    else Left(wants[0], threads[0]) + Total(wants[1..], threads[1..])
  }

  lemma {:induction false} TotalUpdate(wants: seq<seq<Address>>, threads: seq<Thread>, t: Tid, th: Thread)
    requires |threads| == |wants| && t < |wants| && th.k <= |wants[t]|
    requires forall u :: 0 <= u < |wants| ==> threads[u].k <= |wants[u]|
    ensures Total(wants, threads[t := th]) == Total(wants, threads) - Left(wants[t], threads[t]) + Left(wants[t], th)
  {
    if t == 0 {
      assert threads[t := th][1..] == threads[1..];
    } else {
      assert threads[t := th][1..] == threads[1..][t - 1 := th];
      TotalUpdate(wants[1..], threads[1..], t - 1, th);
    }
  }

  /** Every step brings the threads closer to the end, so no run goes on for ever; with
      DeadlockFree, every run that is not cut short ends with all threads finished. */
  lemma StepsRunOut(wants: seq<seq<Address>>, s: State, m: Move)
    requires Inv(wants, s) && Enabled(wants, s, m)
    ensures WellFormed(wants, Do(wants, s, m))
    ensures 0 <= Total(wants, Do(wants, s, m).threads) < Total(wants, s.threads)
  {
    StepInv(wants, s, m);
    var th := Do(wants, s, m).threads[m.t];
    TotalUpdate(wants, s.threads, m.t, th);
    assert Do(wants, s, m).threads == s.threads[m.t := th];
  }

  lemma {:induction false} MovesPaid(wants: seq<seq<Address>>, s: State, moves: seq<Move>)
    requires Inv(wants, s) && Possible(wants, s, moves)
    ensures WellFormed(wants, Run(wants, s, moves))
    ensures |moves| + Total(wants, Run(wants, s, moves).threads) <= Total(wants, s.threads)
    decreases |moves|
  {
    if moves == [] {
    } else {
      StepInv(wants, s, moves[0]);
      StepsRunOut(wants, s, moves[0]);
      MovesPaid(wants, Do(wants, s, moves[0]), moves[1..]);
    }
  }

  /** Moves a run can have: three for each waitable of each thread and one a thread. */
  function Moves(wants: seq<seq<Address>>): nat {
    if wants == [] then 0 else 3 * |wants[0]| + 1 + Moves(wants[1..])
  }

  lemma {:induction false} TotalAtStart(wants: seq<seq<Address>>, threads: seq<Thread>)
    requires |threads| == |wants| && forall t :: 0 <= t < |wants| ==> threads[t] == Thread(0, false, {})
    ensures Total(wants, threads) == Moves(wants)
  {
    if wants == [] {
    } else {
      TotalAtStart(wants[1..], threads[1..]);
    }
  }

  /** Every run is over after boundedly many moves, and it cannot go on exactly when every
      thread has acquired and released all it wanted. */
  lemma RunsFinish(wants: seq<seq<Address>>, moves: seq<Move>)
    requires AllIncreasing(wants) && Possible(wants, Initial(wants), moves)
    ensures |moves| <= Moves(wants)
    ensures var s := Run(wants, Initial(wants), moves);
      (forall m :: !Enabled(wants, s, m)) <==> (forall t :: 0 <= t < |wants| ==> Finished(wants, s, t))
  {
    TotalAtStart(wants, Initial(wants).threads);
    MovesPaid(wants, Initial(wants), moves);
    var s := Run(wants, Initial(wants), moves);
    if t :| 0 <= t < |wants| && !Finished(wants, s, t) {
      DeadlockFree(wants, moves, t);
    } else {
      forall m ensures !Enabled(wants, s, m) {
        NothingLeft(wants, s, m);
      }
    }
  }

  lemma NothingLeft(wants: seq<seq<Address>>, s: State, m: Move)
    requires Inv(wants, s) && forall t :: 0 <= t < |wants| ==> Finished(wants, s, t)
    ensures !Enabled(wants, s, m)
  {
    if m.t < |wants| {
      assert Finished(wants, s, m.t) && ThreadFits(wants, s, m.t);
    }
  }

  // ---- What a thread has when it goes on ----

  function AsSet(list: seq<Address>): set<Address> { set a | a in list }

  /** Until a thread has acquired all it wants it holds exactly the first `k`; no two
      threads ever hold the same mutex. */
  lemma HoldsWhatItPassed(wants: seq<seq<Address>>, moves: seq<Move>, t: Tid, u: Tid)
    requires AllIncreasing(wants) && Possible(wants, Initial(wants), moves) && t < |wants| && u < |wants|
    ensures var s := Run(wants, Initial(wants), moves);
      && (s.threads[t].k < |wants[t]| ==> s.threads[t].held == AsSet(wants[t][..s.threads[t].k]))
      && (t != u ==> s.threads[t].held !! s.threads[u].held)
  {
    var s := Run(wants, Initial(wants), moves);
    assert ThreadFits(wants, s, t) && ThreadFits(wants, s, u);
  }

  /** The move that takes a thread past its last waitable leaves it holding all of them. */
  lemma HoldsAllAtOnce(wants: seq<seq<Address>>, moves: seq<Move>, m: Move, t: Tid)
    requires AllIncreasing(wants) && Possible(wants, Initial(wants), moves) && t < |wants|
    requires var s := Run(wants, Initial(wants), moves);
      Enabled(wants, s, m) && s.threads[t].k < |wants[t]| == Do(wants, s, m).threads[t].k
    ensures Do(wants, Run(wants, Initial(wants), moves), m).threads[t].held == AsSet(wants[t])
  {
    LastStep(wants, Run(wants, Initial(wants), moves), m, t);
  }

  lemma LastStep(wants: seq<seq<Address>>, s: State, m: Move, t: Tid)
    requires Inv(wants, s) && Enabled(wants, s, m) && t < |wants|
    requires s.threads[t].k < |wants[t]| == Do(wants, s, m).threads[t].k
    ensures Do(wants, s, m).threads[t].held == AsSet(wants[t])
  {
    var want, k := wants[t], s.threads[t].k;
    assert ThreadFits(wants, s, t);
    assert m.t == t && k + 1 == |want| && want == want[..k] + [want[k]];
    hide Inv, ThreadFits, Increasing;
    assert Do(wants, s, m).threads[t].held == s.threads[t].held + {want[k]};
    assert forall a :: a in AsSet(want) <==> a in want[..k] || a == want[k];
  }

  /** Whether the move gives mutex `a` to thread `t`, or takes it away. */
  ghost function Gained(wants: seq<seq<Address>>, s: State, m: Move, t: Tid, a: Address): nat
    requires WellFormed(wants, s) && Enabled(wants, s, m) && t < |wants|
  {
    if a !in s.threads[t].held && a in Do(wants, s, m).threads[t].held then 1 else 0
  }

  ghost function Lost(wants: seq<seq<Address>>, s: State, m: Move, t: Tid, a: Address): nat
    requires WellFormed(wants, s) && Enabled(wants, s, m) && t < |wants|
  {
    if a in s.threads[t].held && a !in Do(wants, s, m).threads[t].held then 1 else 0
  }

  /** How often thread `t` gained and lost mutex `a`. */
  ghost function Gains(wants: seq<seq<Address>>, s: State, moves: seq<Move>, t: Tid, a: Address): nat
    requires Inv(wants, s) && Possible(wants, s, moves) && t < |wants|
    decreases |moves|
  {
    if moves == [] then 0
    else
      StepInv(wants, s, moves[0]);
      Gained(wants, s, moves[0], t, a) + Gains(wants, Do(wants, s, moves[0]), moves[1..], t, a)
  }

  ghost function Losses(wants: seq<seq<Address>>, s: State, moves: seq<Move>, t: Tid, a: Address): nat
    requires Inv(wants, s) && Possible(wants, s, moves) && t < |wants|
    decreases |moves|
  {
    if moves == [] then 0
    else
      StepInv(wants, s, moves[0]);
      Lost(wants, s, moves[0], t, a) + Losses(wants, Do(wants, s, moves[0]), moves[1..], t, a)
  }

  ghost function Passed(wants: seq<seq<Address>>, s: State, t: Tid, a: Address): nat
    requires WellFormed(wants, s) && t < |wants|
  {
    if a in wants[t][..s.threads[t].k] then 1 else 0
  }

  ghost function Having(s: State, t: Tid, a: Address): nat
    requires t < |s.threads|
  {
    if a in s.threads[t].held then 1 else 0
  }

  lemma GainStep(wants: seq<seq<Address>>, s: State, m: Move, t: Tid, a: Address)
    requires Inv(wants, s) && Enabled(wants, s, m) && t < |wants|
    ensures Inv(wants, Do(wants, s, m))
    ensures Passed(wants, Do(wants, s, m), t, a) == Passed(wants, s, t, a) + Gained(wants, s, m, t, a)
    ensures Having(Do(wants, s, m), t, a) == Having(s, t, a) + Gained(wants, s, m, t, a) - Lost(wants, s, m, t, a)
  {
    StepInv(wants, s, m);
    assert ThreadFits(wants, s, t);
    var k := s.threads[t].k;
    if m.t == t && k < |wants[t]| {
      PrefixGrows(wants[t], k);
      assert wants[t][k] !in wants[t][..k];
    }
  }

  lemma {:induction false} GainsAdd(wants: seq<seq<Address>>, s: State, moves: seq<Move>, t: Tid, a: Address)
    requires Inv(wants, s) && Possible(wants, s, moves) && t < |wants|
    ensures var e := Run(wants, s, moves);
      && Passed(wants, e, t, a) == Passed(wants, s, t, a) + Gains(wants, s, moves, t, a)
      && Having(e, t, a) == Having(s, t, a) + Gains(wants, s, moves, t, a) - Losses(wants, s, moves, t, a)
    decreases |moves|
  {
    hide Enabled, Do, Passed, Having, Gained, Lost;
    if moves == [] {
    } else {
      GainStep(wants, s, moves[0], t, a);
      GainsAdd(wants, Do(wants, s, moves[0]), moves[1..], t, a);
    }
  }

  /** A thread acquires each mutex it has passed exactly once and no other, and a finished
      one has acquired and released each mutex it wanted exactly once. */
  lemma AcquiresEachOnce(wants: seq<seq<Address>>, moves: seq<Move>, t: Tid, a: Address)
    requires AllIncreasing(wants) && Possible(wants, Initial(wants), moves) && t < |wants|
    ensures var s := Run(wants, Initial(wants), moves);
      && Gains(wants, Initial(wants), moves, t, a) == (if a in wants[t][..s.threads[t].k] then 1 else 0)
      && (Finished(wants, s, t) ==>
            Gains(wants, Initial(wants), moves, t, a) == Losses(wants, Initial(wants), moves, t, a)
              == if a in wants[t] then 1 else 0)
  {
    GainsAdd(wants, Initial(wants), moves, t, a);
  }
}
