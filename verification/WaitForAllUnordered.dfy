/** The second half of WaitForAllImpl: waiters are added to the unordered waitables, and one
    token is taken for each, while notifiers run the callbacks. */
module WaitForAllUnordered {
  import opened Sequences
  import opened CallerMoves
  import WaitForAll

  /** The waiter of one awaited waitable: not added yet, turned down because the waitable
      was ready, registered, taken by a notifier, callback done. */
  datatype Waiter = Unused | Refused | Registered | Claimed | Posted

  datatype Pc = Adding(i: nat) | Taking(i: nat) | Returned

  /** `posted` and `consumed` count the tokens put in and taken out; no step reads them. */
  datatype State = State(pc: Pc, waiters: seq<Waiter>, added: nat, tokens: nat, posted: nat, consumed: nat)

  function Initial(n: nat): State {
    State(Adding(0), seq(n, i => Unused), 0, 0, 0, 0)
  }

  predicate Enabled(s: State, m: Move) {
    match m
    case Claim(i) => i < |s.waiters| && s.waiters[i].Registered?
    case Callback(i) => i < |s.waiters| && s.waiters[i].Claimed?
    case Main(_) =>
      match s.pc
      case Adding(_) => true
      case Taking(i) => i < s.added ==> s.tokens > 0
      case Returned => false
  }

  function Do(s: State, m: Move): State
    requires Enabled(s, m)
  {
    match m
    case Claim(i) => s.(waiters := s.waiters[i := Claimed])
    case Callback(i) => s.(waiters := s.waiters[i := Posted], tokens := s.tokens + 1, posted := s.posted + 1)
    case Main(ready) =>
      match s.pc
      case Adding(i) =>
        if i >= |s.waiters| then s.(pc := Taking(0))
        else if ready then s.(pc := Adding(i + 1), waiters := s.waiters[i := Refused])
        else s.(pc := Adding(i + 1), waiters := s.waiters[i := Registered], added := s.added + 1)
      case Taking(i) =>
        if i < s.added then s.(pc := Taking(i + 1), tokens := s.tokens - 1, consumed := s.consumed + 1)
        else s.(pc := Returned)
      case Returned => s
  }

  predicate Possible(s: State, moves: seq<Move>)
    decreases |moves|
  {
    moves != [] ==> Enabled(s, moves[0]) && Possible(Do(s, moves[0]), moves[1..])
  }

  function Run(s: State, moves: seq<Move>): State
    requires Possible(s, moves)
    decreases |moves|
  {
    if moves == [] then s else Run(Do(s, moves[0]), moves[1..])
  }

  function Are(s: State, w: Waiter): nat {
    multiset(s.waiters)[w]
  }

  ghost predicate Inv(s: State) {
    && s.tokens + s.consumed == s.posted == Are(s, Posted)
    && s.added == Are(s, Registered) + Are(s, Claimed) + Are(s, Posted)
    && match s.pc
       case Adding(i) =>
         && s.consumed == 0
         && (forall k :: 0 <= k < i && k < |s.waiters| ==> !s.waiters[k].Unused?)
         && (forall k :: i <= k < |s.waiters| ==> s.waiters[k].Unused?)
       case Taking(i) => i == s.consumed <= s.added && Unused !in multiset(s.waiters)
       case Returned => s.consumed == s.added && Unused !in multiset(s.waiters)
  }

  /** A notifier moves waiter `i` on. */
  lemma NotifierInv(s: State, m: Move)
    requires Inv(s) && Enabled(s, m) && !m.Main?
    ensures Inv(Do(s, m))
  {
    SetWaiter(s.waiters, m.i, if m.Claim? then Claimed else Posted);
  }

  lemma SetWaiter(waiters: seq<Waiter>, i: nat, w: Waiter)
    requires i < |waiters|
    ensures var now := waiters[i := w];
      forall x :: x == Unused || x == Registered || x == Claimed || x == Posted ==>
        multiset(now)[x] == multiset(waiters)[x] - (if waiters[i] == x then 1 else 0) + (if w == x then 1 else 0)
  {
    ReplaceCount(waiters, i, w, Unused);
    ReplaceCount(waiters, i, w, Registered);
    ReplaceCount(waiters, i, w, Claimed);
    ReplaceCount(waiters, i, w, Posted);
  }

  lemma AddingInv(s: State, m: Move)
    requires Inv(s) && Enabled(s, m) && m.Main? && s.pc.Adding?
    ensures Inv(Do(s, m))
  {
    if s.pc.i < |s.waiters| {
      SetWaiter(s.waiters, s.pc.i, if m.ready then Refused else Registered);
    }
  }

  lemma StepInv(s: State, m: Move)
    requires Inv(s) && Enabled(s, m)
    ensures Inv(Do(s, m))
  {
    if !m.Main? {
      NotifierInv(s, m);
    } else if s.pc.Adding? {
      AddingInv(s, m);
    }
  }

  lemma {:induction false} RunInv(s: State, moves: seq<Move>)
    requires Inv(s) && Possible(s, moves)
    ensures Inv(Run(s, moves)) && |Run(s, moves).waiters| == |s.waiters|
    decreases |moves|
  {
    if moves == [] {
    } else {
      StepInv(s, moves[0]);
      RunInv(Do(s, moves[0]), moves[1..]);
    }
  }

  lemma RunFromStart(n: nat, moves: seq<Move>)
    requires Possible(Initial(n), moves)
    ensures Inv(Run(Initial(n), moves)) && |Run(Initial(n), moves).waiters| == n
  {
    assert Registered !in multiset(Initial(n).waiters);
    assert Claimed !in multiset(Initial(n).waiters);
    assert Posted !in multiset(Initial(n).waiters);
    RunInv(Initial(n), moves);
  }

  // ---- Main results ----

  /** When WaitForAll returns, every waitable it awaited was ready when asked or has
      notified, no callback is outstanding, and the semaphore is back at zero. */
  lemma ReturnsWhenAllNotified(n: nat, moves: seq<Move>)
    requires Possible(Initial(n), moves) && Run(Initial(n), moves).pc.Returned?
    ensures var s := Run(Initial(n), moves);
      && |s.waiters| == n && s.tokens == 0 && s.consumed == s.posted == s.added
      && forall k :: 0 <= k < n ==> s.waiters[k].Refused? || s.waiters[k].Posted?
  {
    RunFromStart(n, moves);
    var s := Run(Initial(n), moves);
    assert Registered !in multiset(s.waiters) && Claimed !in multiset(s.waiters);
    forall k | 0 <= k < n ensures s.waiters[k].Refused? || s.waiters[k].Posted? {
      assert s.waiters[k] in multiset(s.waiters);
    }
  }

  /** It blocks only while some waitable it awaits has yet to notify. */
  lemma BlocksOnlyForOutstanding(n: nat, moves: seq<Move>)
    requires Possible(Initial(n), moves)
    requires var s := Run(Initial(n), moves); s.pc.Taking? && s.pc.i < s.added && s.tokens == 0
    ensures var s := Run(Initial(n), moves);
      exists k :: 0 <= k < |s.waiters| && (s.waiters[k].Registered? || s.waiters[k].Claimed?)
  {
    RunFromStart(n, moves);
    var s := Run(Initial(n), moves);
    var w := if Are(s, Registered) > 0 then Registered else Claimed;
    assert w in multiset(s.waiters);
    assert w in s.waiters;
  }

  // ---- What AddWaiter answered and what notifiers did ----

  /** What the calls of AddWaiter found, in order: true for a ready waitable. */
  function Answers(s: State, moves: seq<Move>): seq<bool>
    requires Possible(s, moves)
    decreases |moves|
  {
    if moves == [] then []
    else AnswerOf(s, moves[0]) + Answers(Do(s, moves[0]), moves[1..])
  }

  /** The caller calls AddWaiter on waitable `i` at Adding(i). */
  function AnswerOf(s: State, m: Move): seq<bool> {
    if m.Main? && s.pc.Adding? && s.pc.i < |s.waiters| then [m.ready] else []
  }

  /** The waiters and the loop agree with the answers, claims and callbacks so far. */
  ghost predicate Agrees(s: State, asked: seq<bool>, claims: set<nat>, callbacks: set<nat>) {
    && |asked| <= |s.waiters|
    && (if s.pc.Adding? then s.pc.i == |asked| else |asked| == |s.waiters|)
    && (forall k :: 0 <= k < |s.waiters| ==>
          && (s.waiters[k].Unused? <==> k >= |asked|)
          && (s.waiters[k].Refused? <==> k < |asked| && asked[k]))
    && (forall k :: k in claims <==>
          0 <= k < |s.waiters| && (s.waiters[k].Claimed? || s.waiters[k].Posted?))
    && (forall k :: k in callbacks <==> 0 <= k < |s.waiters| && s.waiters[k].Posted?)
  }

  lemma AgreesStep(s: State, m: Move, asked: seq<bool>, claims: set<nat>, callbacks: set<nat>)
    requires Enabled(s, m) && Agrees(s, asked, claims, callbacks)
    ensures Agrees(Do(s, m), asked + AnswerOf(s, m), claims + Claims([m]), callbacks + Callbacks([m]))
  {
    MoveSets(m);
    if m.Main? {
      assert claims + {} == claims && callbacks + {} == callbacks;
    }
  }

  lemma {:induction false} RunAgrees(
    s: State, moves: seq<Move>, asked: seq<bool>, claims: set<nat>, callbacks: set<nat>)
    requires Possible(s, moves) && Agrees(s, asked, claims, callbacks)
    ensures Agrees(Run(s, moves), asked + Answers(s, moves), claims + Claims(moves), callbacks + Callbacks(moves))
    decreases |moves|
  {
    hide Agrees, Enabled, Do, AnswerOf, Claims, Callbacks;
    if moves == [] {
      NothingMoved();
      assert asked + [] == asked && claims + {} == claims && callbacks + {} == callbacks;
    } else {
      var m, rest := moves[0], moves[1..];
      AgreesStep(s, m, asked, claims, callbacks);
      RunAgrees(Do(s, m), rest, asked + AnswerOf(s, m), claims + Claims([m]), callbacks + Callbacks([m]));
      FirstMoved(moves);
      assert asked + (AnswerOf(s, m) + Answers(Do(s, m), rest)) == asked + AnswerOf(s, m) + Answers(Do(s, m), rest);
      assert claims + Claims([m]) + Claims(rest) == claims + Claims(moves);
      assert callbacks + Callbacks([m]) + Callbacks(rest) == callbacks + Callbacks(moves);
    }
  }

  lemma StartAgrees(n: nat, moves: seq<Move>)
    requires Possible(Initial(n), moves)
    ensures Agrees(Run(Initial(n), moves), Answers(Initial(n), moves), Claims(moves), Callbacks(moves))
  {
    hide Answers, Claims, Callbacks, Run, Possible;
    RunAgrees(Initial(n), moves, [], {}, {});
    assert [] + Answers(Initial(n), moves) == Answers(Initial(n), moves);
    assert {} + Claims(moves) == Claims(moves) && {} + Callbacks(moves) == Callbacks(moves);
  }

  /** AddWaiter is called once on each awaited waitable, in array order; exactly those it
      found not ready get a waiter, and only they can be claimed. */
  lemma AsksEveryOne(n: nat, moves: seq<Move>)
    requires Possible(Initial(n), moves)
    ensures var s := Run(Initial(n), moves); var asked := Answers(Initial(n), moves);
      && |asked| <= |s.waiters| == n
      && (s.pc.Adding? ==> s.pc.i == |asked|)
      && (!s.pc.Adding? ==> |asked| == n)
      && (forall k :: 0 <= k < |asked| ==> (s.waiters[k].Refused? <==> asked[k]))
      && (forall k :: k in Claims(moves) ==> 0 <= k < |asked| && !asked[k])
  {
    StartAgrees(n, moves);
    RunFromStart(n, moves);
  }

  /** WaitForAll returns only when every awaited waitable was found ready by AddWaiter or
      has been claimed and has run its callback. */
  lemma ReturnsWhenAllAnswered(n: nat, moves: seq<Move>, k: nat)
    requires Possible(Initial(n), moves) && Run(Initial(n), moves).pc.Returned? && k < n
    ensures var asked := Answers(Initial(n), moves);
      && |asked| == n && Claims(moves) == Callbacks(moves)
      && (!asked[k] <==> k in Callbacks(moves))
  {
    StartAgrees(n, moves);
    ReturnsWhenAllNotified(n, moves);
  }

  // ---- The caller's own steps ----

  /** How many steps of its own the caller may still take. */
  function StepsLeft(s: State): int {
    var n := |s.waiters|;
    match s.pc
    case Adding(i) => 2 * n + 2 - i
    case Taking(i) => n + 1 - i
    case Returned => 0
  }

  ghost predicate InRange(s: State) {
    && (s.pc.Adding? ==> s.added <= s.pc.i <= |s.waiters|) && s.added <= |s.waiters|
    && (s.pc.Taking? ==> s.pc.i <= s.added)
  }

  lemma {:induction false} StepsRunOut(s: State, moves: seq<Move>)
    requires InRange(s) && Possible(s, moves)
    ensures InRange(Run(s, moves)) && 0 <= StepsLeft(Run(s, moves)) <= StepsLeft(s) - OwnSteps(moves)
    decreases |moves|
  {
    if moves == [] {
    } else {
      StepsRunOut(Do(s, moves[0]), moves[1..]);
    }
  }

  /** The caller returns: whatever notifiers do, it takes boundedly many steps, and it can
      go on unless it has returned or waits for a token. */
  lemma CallerReturns(n: nat, moves: seq<Move>)
    requires Possible(Initial(n), moves)
    ensures OwnSteps(moves) <= 2 * n + 2
    ensures var s := Run(Initial(n), moves);
      Enabled(s, Main(false)) || s.pc.Returned? || (s.pc.Taking? && s.tokens == 0)
  {
    StepsRunOut(Initial(n), moves);
  }

  /** In an array without duplicates every unordered waitable is awaited if and only if
      the unordered ones come first: the registration loop indexes the whole array. */
  lemma AwaitsAllIff(ws: seq<WaitForAll.Waitable>)
    requires Distinct(ws)
    ensures |WaitForAll.Select(ws, false)| <= |ws|
    ensures (forall x :: x in ws && !x.orderDependent ==> x in ws[..|WaitForAll.Select(ws, false)|])
      <==> WaitForAll.UnorderedFirst(ws)
  {
    WaitForAll.SelectSize(ws, false);
    WaitForAll.AwaitsUnorderedIff(ws);
    var n := |WaitForAll.Select(ws, false)|;
    if WaitForAll.UnorderedFirst(ws) {
      SelectHasAll(ws, false);
    } else if forall x :: x in ws && !x.orderDependent ==> x in ws[..n] {
      AllAmongFirst(ws, n);
    }
  }

  lemma AllAmongFirst(ws: seq<WaitForAll.Waitable>, n: nat)
    requires Distinct(ws) && n == |WaitForAll.Select(ws, false)| <= |ws|
    requires forall x :: x in ws && !x.orderDependent ==> x in ws[..n]
    ensures WaitForAll.UnorderedFirst(ws)
  {
    AllOrdered(ws, n);
    assert ws == ws[..n] + ws[n..];
    SelectSplit(ws[..n], ws[n..], false);
    WaitForAll.SelectSize(ws[..n], false);
    WaitForAll.AwaitsUnorderedIff(ws);
  }

  /** If what is unordered is among the first `n`, nothing after them is. */
  lemma AllOrdered(ws: seq<WaitForAll.Waitable>, n: nat)
    requires Distinct(ws) && n <= |ws| && forall x :: x in ws && !x.orderDependent ==> x in ws[..n]
    ensures WaitForAll.Select(ws[n..], false) == []
  {
    WaitForAll.SelectSize(ws[n..], true);
    WaitForAll.SelectSize(ws[n..], false);
    forall k | 0 <= k < |ws[n..]| ensures ws[n..][k].orderDependent {
      assert ws[n..][k] == ws[n + k] && ws[n + k] in ws;
    }
    NoneSelected(ws[n..]);
  }

  lemma {:induction false} NoneSelected(ws: seq<WaitForAll.Waitable>)
    requires forall k :: 0 <= k < |ws| ==> ws[k].orderDependent
    ensures WaitForAll.Select(ws, false) == []
  {
    if ws == [] {
    } else {
      NoneSelected(ws[..|ws| - 1]);
    }
  }

  lemma {:induction false} SelectSplit(a: seq<WaitForAll.Waitable>, b: seq<WaitForAll.Waitable>, ordered: bool)
    ensures WaitForAll.Select(a + b, ordered) == WaitForAll.Select(a, ordered) + WaitForAll.Select(b, ordered)
  {
    if b == [] {
      assert a + b == a;
    } else {
      assert (a + b)[..|a + b| - 1] == a + b[..|b| - 1];
      SelectSplit(a, b[..|b| - 1], ordered);
    }
  }

  lemma {:induction false} SelectHasAll(ws: seq<WaitForAll.Waitable>, ordered: bool)
    ensures forall x :: x in ws && x.orderDependent == ordered ==> x in WaitForAll.Select(ws, ordered)
  {
    if ws == [] {
    } else {
      SelectHasAll(ws[..|ws| - 1], ordered);
      assert ws == ws[..|ws| - 1] + [ws[|ws| - 1]];
    }
  }
}
