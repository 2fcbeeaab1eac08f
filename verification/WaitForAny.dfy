/** WaitForAnyImpl racing with the callbacks of the waiters it registers. */
module WaitForAny {
  import opened CallerMoves

  /** The waiter of one waitable: not added, registered, taken off by RemoveWaiter, taken by
      a notifier whose callback has not run, callback done, destroyed in that state. */
  datatype Waiter = Unused | Registered | Removed | Claimed | Posted

  datatype Pc =
    | Adding(i: nat)
    | FirstWait
    | Removing(i: nat)
    | Draining(i: nat)
    | Destroying(i: nat)
    | Done
    | AssertFailed

  /** `tokens` is the wait semaphore.  `added` is addedCount and `signaled` the result, as
      positions in the array.  `posted` and `consumed` count the tokens put in and taken
      out; no step reads them. */
  datatype State = State(
    pc: Pc, waiters: seq<Waiter>, added: nat, signaled: seq<nat>, tokens: nat, posted: nat, consumed: nat)

  function Initial(n: nat): State {
    State(Adding(0), seq(n, i => Unused), 0, [], 0, 0, 0)
  }

  predicate Enabled(s: State, m: Move) {
    match m
    case Claim(i) => i < |s.waiters| && s.waiters[i].Registered?
    case Callback(i) => i < |s.waiters| && s.waiters[i].Claimed?
    case Main(_) =>
      (match s.pc
       case FirstWait => s.tokens > 0
       case Draining(i) => i < |s.signaled| ==> s.tokens > 0
       case Done => false
       case AssertFailed => false
       case _ => true)
  }

  function Take(s: State): State {
    s.(tokens := if s.tokens > 0 then s.tokens - 1 else 0, consumed := s.consumed + 1)
  }

  function Do(s: State, m: Move): State
    requires Enabled(s, m)
  {
    match m
    case Claim(i) => s.(waiters := s.waiters[i := Claimed])
    case Callback(i) => s.(waiters := s.waiters[i := Posted], tokens := s.tokens + 1, posted := s.posted + 1)
    case Main(ready) =>
      match s.pc
      case Adding(i) =>
        if i >= |s.waiters| then s.(pc := if s.added == |s.waiters| then FirstWait else Removing(0))
        else if ready then s.(pc := Removing(0), signaled := s.signaled + [i])
        else s.(pc := Adding(i + 1), waiters := s.waiters[i := Registered], added := s.added + 1)
      case FirstWait => Take(s).(pc := Removing(0))
      case Removing(i) =>
        if i >= s.added || i >= |s.waiters| then s.(pc := if |s.signaled| >= 1 then Draining(1) else AssertFailed)
        else if s.waiters[i].Registered? then s.(pc := Removing(i + 1), waiters := s.waiters[i := Removed])
        else s.(pc := Removing(i + 1), signaled := s.signaled + [i])
      case Draining(i) =>
        if i < |s.signaled| then Take(s).(pc := Draining(i + 1)) else s.(pc := Destroying(0))
      case Destroying(i) => s.(pc := if i < s.added then Destroying(i + 1) else Done)
      case _ => s
  }

  predicate Possible(s: State, moves: seq<Move>)
    decreases |moves|
  {
    moves != [] ==> Enabled(s, moves[0]) && Possible(Do(s, moves[0]), moves[1..])
  }

  function Run(s: State, moves: seq<Move>): State
    requires Possible(s, moves)
    decreases |moves|
  {
    if moves == [] then s else Run(Do(s, moves[0]), moves[1..])
  }

  predicate Taken(w: Waiter) {
    w.Claimed? || w.Posted?
  }

  /** The positions before `k` whose waiters a notifier took, in order. */
  function TakenBefore(waiters: seq<Waiter>, k: nat): seq<nat>
    requires k <= |waiters|
  {
    if k == 0 then []
    else TakenBefore(waiters, k - 1) + if Taken(waiters[k - 1]) then [k - 1] else []
  }

  function PostedBefore(waiters: seq<Waiter>, k: nat): nat
    requires k <= |waiters|
  {
    if k == 0 then 0
    else PostedBefore(waiters, k - 1) + if waiters[k - 1].Posted? then 1 else 0
  }

  /** The waitable found ready while adding, if the loop broke off. */
  function Ready(s: State): seq<nat> {
    if s.added < |s.waiters| then [s.added] else []
  }

  /** Tokens taken before the draining loop. */
  function First(s: State): nat {
    if s.added < |s.waiters| then 0 else 1
  }

  ghost predicate Inv(s: State) {
    && s.added <= |s.waiters|
    && s.tokens + s.consumed == s.posted == PostedBefore(s.waiters, |s.waiters|)
    && (forall k :: s.added <= k < |s.waiters| ==> s.waiters[k].Unused?)
    && (forall k :: 0 <= k < s.added ==> !s.waiters[k].Unused?)
    && match s.pc
       case Adding(i) => i == s.added && s.signaled == [] && s.consumed == 0 && NoneRemoved(s)
       case FirstWait => s.added == |s.waiters| && s.signaled == [] && s.consumed == 0 && NoneRemoved(s)
       case Removing(i) =>
         && i <= s.added && s.consumed == First(s)
         && (forall k :: 0 <= k < i ==> !s.waiters[k].Registered?)
         && (forall k :: i <= k < s.added ==> !s.waiters[k].Removed?)
         && s.signaled == Ready(s) + TakenBefore(s.waiters, i)
       case Draining(i) =>
         && 1 <= i <= |s.signaled| && s.consumed == First(s) + i - 1
         && (forall k :: 0 <= k < s.added ==> !s.waiters[k].Registered?)
         && s.signaled == Ready(s) + TakenBefore(s.waiters, s.added)
       case Destroying(_) => Finished(s)
       case Done => Finished(s)
       case AssertFailed => false
  }

  ghost predicate NoneRemoved(s: State) {
    forall k :: 0 <= k < |s.waiters| ==> !s.waiters[k].Removed?
  }

  /** The result is right, the semaphore is balanced, and no callback is outstanding. */
  ghost predicate Finished(s: State) {
    && s.added <= |s.waiters|
    && s.signaled != []
    && s.signaled == Ready(s) + TakenBefore(s.waiters, s.added)
    && s.tokens == 0 && s.consumed == s.posted
    && (forall k :: 0 <= k < s.added ==> s.waiters[k].Removed? || s.waiters[k].Posted?)
  }

  lemma {:induction false} PostedUpdate(waiters: seq<Waiter>, i: nat, w: Waiter, k: nat)
    requires i < |waiters| && k <= |waiters|
    ensures PostedBefore(waiters[i := w], k) == PostedBefore(waiters, k)
      + (if i < k then (if w.Posted? then 1 else 0) - (if waiters[i].Posted? then 1 else 0) else 0)
  {
    if k == 0 {
    } else {
      PostedUpdate(waiters, i, w, k - 1);
    }
  }

  lemma {:induction false} TakenUpdate(waiters: seq<Waiter>, i: nat, w: Waiter, k: nat)
    requires i < |waiters| && k <= |waiters| && (i < k ==> Taken(w) == Taken(waiters[i]))
    ensures TakenBefore(waiters[i := w], k) == TakenBefore(waiters, k)
  {
    if k == 0 {
    } else {
      TakenUpdate(waiters, i, w, k - 1);
    }
  }

  /** Unused waiters count for nothing. */
  lemma {:induction false} CountsStop(waiters: seq<Waiter>, added: nat, k: nat)
    requires added <= k <= |waiters| && forall j :: added <= j < |waiters| ==> waiters[j].Unused?
    ensures PostedBefore(waiters, k) == PostedBefore(waiters, added)
  {
    if k == added {
    } else {
      CountsStop(waiters, added, k - 1);
    }
  }

  /** At most every taken waiter has posted; if that many have, all of them have. */
  lemma {:induction false} PostedAmongTaken(waiters: seq<Waiter>, k: nat)
    requires k <= |waiters|
    ensures PostedBefore(waiters, k) <= |TakenBefore(waiters, k)|
    ensures PostedBefore(waiters, k) == |TakenBefore(waiters, k)| ==>
      forall j :: 0 <= j < k ==> !waiters[j].Claimed?
  {
    if k == 0 {
    } else {
      PostedAmongTaken(waiters, k - 1);
    }
  }

  lemma EnvInv(s: State, m: Move)
    requires Inv(s) && Enabled(s, m) && !m.Main?
    ensures Inv(Do(s, m))
  {
    var w := if m.Claim? then Claimed else Posted;
    PostedUpdate(s.waiters, m.i, w, |s.waiters|);
    if s.pc.Removing? || s.pc.Draining? {
      LateEnvInv(s, m);
    }
  }

  /** The same once waiters are being removed. */
  lemma LateEnvInv(s: State, m: Move)
    requires Inv(s) && Enabled(s, m) && !m.Main? && (s.pc.Removing? || s.pc.Draining?)
    ensures Inv(Do(s, m))
  {
    var w := if m.Claim? then Claimed else Posted;
    PostedUpdate(s.waiters, m.i, w, |s.waiters|);
    TakenUpdate(s.waiters, m.i, w, if s.pc.Removing? then s.pc.i else s.added);
  }

  lemma MainInv(s: State, m: Move)
    requires Inv(s) && Enabled(s, m) && m.Main?
    ensures Inv(Do(s, m))
  {
    match s.pc
    case Adding(i) => AddingInv(s, m);
    case FirstWait =>
    case Removing(i) => if i < s.added { RemovingInv(s, m); } else { RemovedInv(s, m); }
    case Draining(i) => DrainingInv(s, m);
    case Destroying(i) =>
  }

  lemma RemovingInv(s: State, m: Move)
    requires Inv(s) && Enabled(s, m) && m.Main? && s.pc.Removing? && s.pc.i < s.added
    ensures Inv(Do(s, m))
  {
    var i := s.pc.i;
    PostedUpdate(s.waiters, i, Removed, |s.waiters|);
    TakenUpdate(s.waiters, i, Removed, i);
  }

  lemma RemovedInv(s: State, m: Move)
    requires Inv(s) && Enabled(s, m) && m.Main? && s.pc.Removing? && s.pc.i >= s.added
    ensures Inv(Do(s, m))
  {
    CountsStop(s.waiters, s.added, |s.waiters|);
    PostedAmongTaken(s.waiters, s.added);
    assert |s.signaled| >= 1;
  }

  lemma DrainingInv(s: State, m: Move)
    requires Inv(s) && Enabled(s, m) && m.Main? && s.pc.Draining?
    ensures Inv(Do(s, m))
  {
    if s.pc.i >= |s.signaled| {
      CountsStop(s.waiters, s.added, |s.waiters|);
      PostedAmongTaken(s.waiters, s.added);
      assert s.consumed == |TakenBefore(s.waiters, s.added)|;
    }
  }

  lemma AddingInv(s: State, m: Move)
    requires Inv(s) && Enabled(s, m) && m.Main? && s.pc.Adding?
    ensures Inv(Do(s, m))
  {
    if s.pc.i < |s.waiters| {
      PostedUpdate(s.waiters, s.pc.i, Registered, |s.waiters|);
    }
  }

  lemma {:induction false} NothingYet(waiters: seq<Waiter>, k: nat)
    requires k <= |waiters| && forall j :: 0 <= j < k ==> waiters[j].Unused?
    ensures PostedBefore(waiters, k) == 0
  {
    if k == 0 {
    } else {
      NothingYet(waiters, k - 1);
    }
  }

  lemma StepInv(s: State, m: Move)
    requires Inv(s) && Enabled(s, m)
    ensures Inv(Do(s, m))
  {
    if m.Main? {
      MainInv(s, m);
    } else {
      EnvInv(s, m);
    }
  }

  lemma {:induction false} RunInv(s: State, moves: seq<Move>)
    requires Inv(s) && Possible(s, moves)
    ensures Inv(Run(s, moves))
    decreases |moves|
  {
    if moves == [] {
    } else {
      StepInv(s, moves[0]);
      RunInv(Do(s, moves[0]), moves[1..]);
    }
  }

  lemma RunFromStart(n: nat, moves: seq<Move>)
    requires Possible(Initial(n), moves)
    ensures Inv(Run(Initial(n), moves)) && |Run(Initial(n), moves).waiters| == n
  {
    FirstInv(n);
    RunInv(Initial(n), moves);
    SameArray(Initial(n), moves);
  }

  lemma {:induction false} SameArray(s: State, moves: seq<Move>)
    requires Possible(s, moves)
    ensures |Run(s, moves).waiters| == |s.waiters|
    decreases |moves|
  {
    if moves == [] {
    } else {
      SameArray(Do(s, moves[0]), moves[1..]);
    }
  }

  // ---- Main results ----

  /** When WaitForAny returns, in whatever way callbacks interleaved: the result is not
      empty and is exactly the waitable found ready while adding followed by those whose
      waiters were taken; every token posted was consumed; every callback has run.  The
      code's assertion never fails, and an empty array never returns. */
  lemma ReturnsExactlyTheSignaled(n: nat, moves: seq<Move>)
    requires Possible(Initial(n), moves)
    ensures var s := Run(Initial(n), moves);
      && !s.pc.AssertFailed?
      && s.tokens + s.consumed == s.posted
      && (s.pc.Destroying? || s.pc.Done? ==> Finished(s) && n > 0)
  {
    RunFromStart(n, moves);
    InvMeans(Run(Initial(n), moves));
  }

  lemma InvMeans(s: State)
    requires Inv(s)
    ensures !s.pc.AssertFailed? && s.tokens + s.consumed == s.posted
    ensures s.pc.Destroying? || s.pc.Done? ==> Finished(s) && |s.waiters| > 0
  {
    if s.waiters == [] {
      EmptyBlocks(s);
    }
  }

  lemma EmptyBlocks(s: State)
    requires Inv(s) && s.waiters == []
    ensures s.pc.Adding? || s.pc.FirstWait?
  {
    assert PostedBefore(s.waiters, 0) == 0;
  }

  /** Once the caller has begun to destroy the waiters no notifier can take or call one any
      more, now or later. */
  lemma DestroyedAfterCallback(n: nat, moves: seq<Move>, more: seq<Move>, m: Move)
    requires Possible(Initial(n), moves)
    requires var s := Run(Initial(n), moves); s.pc.Destroying? || s.pc.Done?
    requires Possible(Run(Initial(n), moves), more) && Enabled(Run(Run(Initial(n), moves), more), m)
    ensures m.Main?
  {
    RunFromStart(n, moves);
    StaysUntouched(Run(Initial(n), moves), more);
  }

  /** No waiter is registered or being called. */
  ghost predicate Untouched(s: State) {
    && Inv(s) && (s.pc.Destroying? || s.pc.Done?)
    && forall k :: 0 <= k < |s.waiters| ==> !s.waiters[k].Registered? && !s.waiters[k].Claimed?
  }

  lemma {:induction false} StaysUntouched(s: State, moves: seq<Move>)
    requires Inv(s) && (s.pc.Destroying? || s.pc.Done?) && Possible(s, moves)
    ensures Untouched(Run(s, moves))
    decreases |moves|
  {
    assert Untouched(s);
    if moves == [] {
    } else {
      MainInv(s, moves[0]);
      StaysUntouched(Do(s, moves[0]), moves[1..]);
    }
  }

  /** The draining loop blocks only while a callback it waits for is still to run. */
  lemma DrainWaitsForCallback(n: nat, moves: seq<Move>)
    requires Possible(Initial(n), moves)
    requires var s := Run(Initial(n), moves); s.pc.Draining? && s.pc.i < |s.signaled| && s.tokens == 0
    ensures var s := Run(Initial(n), moves); exists k :: 0 <= k < |s.waiters| && s.waiters[k].Claimed?
  {
    RunFromStart(n, moves);
    var s := Run(Initial(n), moves);
    CountsStop(s.waiters, s.added, |s.waiters|);
    if forall k :: 0 <= k < s.added ==> !s.waiters[k].Claimed? {
      AllTakenPosted(s.waiters, s.added);
    }
  }

  lemma {:induction false} AllTakenPosted(waiters: seq<Waiter>, k: nat)
    requires k <= |waiters| && forall j :: 0 <= j < k ==> !waiters[j].Claimed?
    ensures PostedBefore(waiters, k) == |TakenBefore(waiters, k)|
  {
    if k == 0 {
    } else {
      AllTakenPosted(waiters, k - 1);
    }
  }

  // ---- What AddWaiter answered and what notifiers did ----

  /** What the calls of AddWaiter found, in order: true for a ready waitable. */
  function Answers(s: State, moves: seq<Move>): seq<bool>
    requires Possible(s, moves)
    decreases |moves|
  {
    if moves == [] then []
    else AnswerOf(s, moves[0]) + Answers(Do(s, moves[0]), moves[1..])
  }

  /** The caller calls AddWaiter on waitable `i` at Adding(i). */
  function AnswerOf(s: State, m: Move): seq<bool> {
    if m.Main? && s.pc.Adding? && s.pc.i < |s.waiters| then [m.ready] else []
  }

  /** The last answer was a ready waitable. */
  predicate FoundReady(asked: seq<bool>) {
    asked != [] && asked[|asked| - 1]
  }

  /** The waiters, the loop and the result agree with the answers, claims and callbacks so
      far. */
  ghost predicate Agrees(s: State, asked: seq<bool>, claims: set<nat>, callbacks: set<nat>) {
    && |asked| <= |s.waiters| && (forall k :: 0 <= k < |asked| - 1 ==> !asked[k])
    && (if s.pc.Adding? then s.pc.i == |asked| && !FoundReady(asked)
        else FoundReady(asked) || |asked| == |s.waiters|)
    && s.added == |asked| - (if FoundReady(asked) then 1 else 0)
    && (forall k :: k in claims <==> 0 <= k < |s.waiters| && Taken(s.waiters[k]))
    && (forall k :: k in callbacks <==> 0 <= k < |s.waiters| && s.waiters[k].Posted?)
  }

  lemma AgreesStep(s: State, m: Move, asked: seq<bool>, claims: set<nat>, callbacks: set<nat>)
    requires Inv(s) && Enabled(s, m) && Agrees(s, asked, claims, callbacks)
    ensures Agrees(Do(s, m), asked + AnswerOf(s, m), claims + Claims([m]), callbacks + Callbacks([m]))
  {
    MoveSets(m);
    if m.Main? {
      MainAgrees(s, m, asked, claims, callbacks);
      assert claims + {} == claims && callbacks + {} == callbacks;
    }
  }

  lemma MainAgrees(s: State, m: Move, asked: seq<bool>, claims: set<nat>, callbacks: set<nat>)
    requires Inv(s) && Enabled(s, m) && m.Main? && Agrees(s, asked, claims, callbacks)
    ensures Agrees(Do(s, m), asked + AnswerOf(s, m), claims, callbacks)
  {
    hide PostedBefore, TakenBefore, Finished, Claims, Callbacks;
  }

  lemma {:induction false} RunAgrees(
    s: State, moves: seq<Move>, asked: seq<bool>, claims: set<nat>, callbacks: set<nat>)
    requires Inv(s) && Possible(s, moves) && Agrees(s, asked, claims, callbacks)
    ensures Agrees(Run(s, moves), asked + Answers(s, moves), claims + Claims(moves), callbacks + Callbacks(moves))
    decreases |moves|
  {
    hide Inv, Agrees, Enabled, Do, AnswerOf, Claims, Callbacks;
    if moves == [] {
      NothingMoved();
      assert asked + [] == asked && claims + {} == claims && callbacks + {} == callbacks;
    } else {
      var m, rest := moves[0], moves[1..];
      AgreesStep(s, m, asked, claims, callbacks);
      StepInv(s, m);
      RunAgrees(Do(s, m), rest, asked + AnswerOf(s, m), claims + Claims([m]), callbacks + Callbacks([m]));
      FirstMoved(moves);
      assert asked + (AnswerOf(s, m) + Answers(Do(s, m), rest)) == asked + AnswerOf(s, m) + Answers(Do(s, m), rest);
      assert claims + Claims([m]) + Claims(rest) == claims + Claims(moves);
      assert callbacks + Callbacks([m]) + Callbacks(rest) == callbacks + Callbacks(moves);
    }
  }

  /** AddWaiter is called on the waitables in array order until one is ready; exactly
      those it found not ready get a waiter, and only they can be claimed. */
  lemma AsksUntilReady(n: nat, moves: seq<Move>)
    requires Possible(Initial(n), moves)
    ensures var s := Run(Initial(n), moves); var asked := Answers(Initial(n), moves);
      && |asked| <= |s.waiters| == n
      && (forall k :: 0 <= k < |asked| - 1 ==> !asked[k])
      && (s.pc.Adding? ==> s.pc.i == |asked|)
      && (!s.pc.Adding? ==> FoundReady(asked) || |asked| == n)
      && (forall k :: 0 <= k < n ==> (!s.waiters[k].Unused? <==> k < |asked| && !asked[k]))
      && (forall k :: k in Claims(moves) ==> 0 <= k < |asked| && !asked[k])
  {
    StartAgrees(n, moves);
    RunFromStart(n, moves);
  }

  lemma StartAgrees(n: nat, moves: seq<Move>)
    requires Possible(Initial(n), moves)
    ensures Agrees(Run(Initial(n), moves), Answers(Initial(n), moves), Claims(moves), Callbacks(moves))
  {
    hide Agrees, Inv, Answers, Claims, Callbacks, Run, Possible;
    FirstAgrees(n);
    RunAgrees(Initial(n), moves, [], {}, {});
    assert [] + Answers(Initial(n), moves) == Answers(Initial(n), moves);
    assert {} + Claims(moves) == Claims(moves) && {} + Callbacks(moves) == Callbacks(moves);
  }

  lemma FirstAgrees(n: nat)
    ensures Inv(Initial(n)) && Agrees(Initial(n), [], {}, {})
  {
    FirstInv(n);
    hide PostedBefore, TakenBefore, Inv;
  }

  lemma FirstInv(n: nat)
    ensures Inv(Initial(n))
  {
    NothingYet(Initial(n).waiters, n);
  }

  /** WaitForAny returns exactly the waitable AddWaiter found ready and those a notifier
      claimed, the ready one first, the others in array order; every claim's callback has
      run. */
  lemma ReturnsWhatWasFound(n: nat, moves: seq<Move>, i: nat)
    requires Possible(Initial(n), moves)
    requires var s := Run(Initial(n), moves); s.pc.Destroying? || s.pc.Done?
    ensures var s := Run(Initial(n), moves); var asked := Answers(Initial(n), moves);
      && (i in s.signaled <==> (i < |asked| && asked[i]) || i in Claims(moves))
      && (FoundReady(asked) ==> s.signaled != [] && s.signaled[0] == |asked| - 1)
      && (forall p, q :: (if FoundReady(asked) then 1 else 0) <= p < q < |s.signaled| ==> s.signaled[p] < s.signaled[q])
      && Claims(moves) == Callbacks(moves)
  {
    StartAgrees(n, moves);
    RunFromStart(n, moves);
    var s := Run(Initial(n), moves);
    TakenInOrder(s.waiters, s.added);
    assert i in s.signaled <==> i in Ready(s) || i in TakenBefore(s.waiters, s.added);
  }

  lemma {:induction false} TakenInOrder(waiters: seq<Waiter>, k: nat)
    requires k <= |waiters|
    ensures forall i :: i in TakenBefore(waiters, k) <==> 0 <= i < k && Taken(waiters[i])
    ensures forall p, q :: 0 <= p < q < |TakenBefore(waiters, k)| ==>
      TakenBefore(waiters, k)[p] < TakenBefore(waiters, k)[q]
  {
    if k == 0 {
    } else {
      TakenInOrder(waiters, k - 1);
      var before := TakenBefore(waiters, k - 1);
      assert forall p :: 0 <= p < |before| ==> before[p] in before;
    }
  }

  // ---- The caller's own steps ----

  /** How many steps of its own the caller may still take. */
  function StepsLeft(s: State): int {
    var n := |s.waiters|;
    match s.pc
    case Adding(i) => 4 * n + 9 - i
    case FirstWait => 3 * n + 8
    case Removing(i) => 3 * n + 7 - i
    case Draining(i) => 2 * n + 6 - i
    case Destroying(i) => n + 1 - i
    case Done => 0
    case AssertFailed => 0
  }

  /** The loops stay within the array. */
  ghost predicate InRange(s: State) {
    && s.added <= |s.waiters| && |s.signaled| <= |s.waiters|
    && (s.pc.Adding? ==> s.pc.i <= |s.waiters|)
    && (s.pc.Removing? || s.pc.Destroying? ==> s.pc.i <= s.added)
    && (s.pc.Draining? ==> s.pc.i <= |s.signaled|)
  }

  lemma {:induction false} TakenFew(waiters: seq<Waiter>, k: nat)
    requires k <= |waiters|
    ensures |TakenBefore(waiters, k)| <= k
  {
    if k == 0 {
    } else {
      TakenFew(waiters, k - 1);
    }
  }

  lemma StaysInRange(s: State, m: Move)
    requires Inv(s) && InRange(s) && Enabled(s, m)
    ensures InRange(Do(s, m))
    ensures 0 <= StepsLeft(Do(s, m)) <= StepsLeft(s) - if m.Main? then 1 else 0
  {
    hide PostedBefore, Finished;
    if s.pc.Removing? {
      TakenFew(s.waiters, s.pc.i);
    }
  }

  lemma {:induction false} StepsRunOut(s: State, moves: seq<Move>)
    requires Inv(s) && InRange(s) && Possible(s, moves)
    ensures 0 <= StepsLeft(Run(s, moves)) <= StepsLeft(s) - OwnSteps(moves) || moves == []
    decreases |moves|
  {
    hide Inv, InRange, Enabled, Do, StepsLeft;
    if moves == [] {
    } else {
      StaysInRange(s, moves[0]);
      StepInv(s, moves[0]);
      StepsRunOut(Do(s, moves[0]), moves[1..]);
    }
  }

  /** The caller returns: whatever notifiers do, it takes boundedly many steps, and it can
      go on unless it has returned or waits for a token. */
  lemma CallerReturns(n: nat, moves: seq<Move>)
    requires Possible(Initial(n), moves)
    ensures OwnSteps(moves) <= 4 * n + 9
    ensures var s := Run(Initial(n), moves);
      Enabled(s, Main(false)) || s.pc.Done? || ((s.pc.FirstWait? || s.pc.Draining?) && s.tokens == 0)
  {
    FirstInv(n);
    StepsRunOut(Initial(n), moves);
    RunFromStart(n, moves);
  }
}
