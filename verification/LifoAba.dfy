/** How late the CAS of a pop may be: exactly one round of the tag.  A pop that stalls
    longer installs a node that is no longer on the list. */
module LifoAba {
  import opened Numbers
  import opened Chains
  import opened LifoSpec
  import opened LifoLists
  import opened LifoProofs
  import opened LifoTheorems

  const LIST: ListId := 3
  const A: Node := 1
  const B: Node := 2
  const C: Node := 3

  /** Every run whose pops are less than `w` updates late keeps to plain stacks. */
  ghost predicate AlwaysSound(tags: nat, w: nat)
    requires tags > 0
  {
    forall moves, l :: Possible(tags, w, INITIAL, moves) ==> Faithful(Run(tags, w, INITIAL, moves), l)
  }

  // ---- Composing runs ----

  lemma {:induction false} RunConcat(tags: nat, w: nat, s: State, m1: seq<Move>, m2: seq<Move>)
    requires tags > 0 && Possible(tags, w, s, m1) && Possible(tags, w, Run(tags, w, s, m1), m2)
    ensures Possible(tags, w, s, m1 + m2)
    ensures Run(tags, w, s, m1 + m2) == Run(tags, w, Run(tags, w, s, m1), m2)
    decreases |m1|
  {
    if m1 == [] {
      assert m1 + m2 == m2;
    } else {
      assert (m1 + m2)[1..] == m1[1..] + m2;
      RunConcat(tags, w, Do(tags, s, m1[0].t, m1[0].c), m1[1..], m2);
    }
  }

  lemma RunOne(tags: nat, w: nat, s: State, t: Tid, c: Command)
    requires tags > 0 && Enabled(w, s, t, c)
    ensures Possible(tags, w, s, [Move(t, c)])
    ensures Run(tags, w, s, [Move(t, c)]) == Do(tags, s, t, c)
  {
  }

  /** A call and the four steps that finish it, run without interruption. */
  function Whole(t: Tid, c: Command): seq<Move> {
    [Move(t, c)] + (Steps(t, 2) + Steps(t, 2))
  }

  function Steps(t: Tid, n: nat): seq<Move> {
    seq(n, i => Move(t, Advance(0)))
  }

  lemma RunTwo(tags: nat, w: nat, s: State, t: Tid)
    requires tags > 0 && Enabled(w, s, t, Advance(0)) && Enabled(w, Do(tags, s, t, Advance(0)), t, Advance(0))
    ensures Possible(tags, w, s, Steps(t, 2))
    ensures Run(tags, w, s, Steps(t, 2)) == Do(tags, Do(tags, s, t, Advance(0)), t, Advance(0))
  {
    var a := [Move(t, Advance(0))];
    assert Steps(t, 2) == a + a;
    RunOne(tags, w, s, t, Advance(0));
    RunOne(tags, w, Do(tags, s, t, Advance(0)), t, Advance(0));
    RunConcat(tags, w, s, a, a);
  }

  lemma RunWhole(
    tags: nat, w: nat, s: State, t: Tid, c: Command, s1: State, s2: State, s3: State, s4: State, s5: State)
    requires tags > 0
    requires Enabled(w, s, t, c) && s1 == Do(tags, s, t, c)
    requires Enabled(w, s1, t, Advance(0)) && s2 == Do(tags, s1, t, Advance(0))
    requires Enabled(w, s2, t, Advance(0)) && s3 == Do(tags, s2, t, Advance(0))
    requires Enabled(w, s3, t, Advance(0)) && s4 == Do(tags, s3, t, Advance(0))
    requires Enabled(w, s4, t, Advance(0)) && s5 == Do(tags, s4, t, Advance(0))
    ensures Possible(tags, w, s, Whole(t, c)) && Run(tags, w, s, Whole(t, c)) == s5
  {
    RunOne(tags, w, s, t, c);
    RunTwo(tags, w, s1, t);
    RunTwo(tags, w, s3, t);
    RunConcat(tags, w, s1, Steps(t, 2), Steps(t, 2));
    RunConcat(tags, w, s, [Move(t, c)], Steps(t, 2) + Steps(t, 2));
  }

  // ---- The calls of the late run ----

  /** The other threads and nodes are as they were. */
  ghost predicate Others(s: State, s': State, t: Tid, n: Node) {
    && (forall u :: u != t ==> PcOf(s', u) == PcOf(s, u))
    && (forall m :: m != n ==> PlaceOf(s'.sh, m) == PlaceOf(s.sh, m) && Next(s'.sh.next, m) == Next(s.sh.next, m))
  }

  /** Thread `t` is done with `n`; nothing else the run looks at has changed. */
  ghost predicate Same(s: State, s': State, t: Tid, n: Node) {
    PcOf(s', t).Idle? && Others(s, s', t, n)
  }

  /** The root of the list and the number of its updates. */
  ghost predicate RootAt(tags: nat, s: State, ptr: Node, bumps: nat)
    requires tags > 0
  {
    RootOf(s.sh, LIST) == Root(ptr, bumps % tags) && BumpsOf(s.sh, LIST) == bumps
  }

  lemma WholePop(tags: nat, w: nat, s: State, n: Node, k: nat) returns (s': State)
    requires tags > 0 && w > 0 && PcOf(s, 1).Idle? && n != NULL && RootAt(tags, s, n, k)
    ensures Possible(tags, w, s, Whole(1, CallPop(LIST)))
    ensures s' == Run(tags, w, s, Whole(1, CallPop(LIST)))
    ensures Same(s, s', 1, n) && PlaceOf(s'.sh, n).Live? && Next(s'.sh.next, n) == Next(s.sh.next, n)
    ensures RootAt(tags, s', Next(s.sh.next, n), k + 1)
  {
    hide Possible, Run;
    TagAdvances(k, tags);
    var s1, s2, s3 := PopReads(tags, w, s, n, k);
    var s4 := Do(tags, s3, 1, Advance(0));
    s' := Do(tags, s4, 1, Advance(0));
    RunWhole(tags, w, s, 1, CallPop(LIST), s1, s2, s3, s4, s');
  }

  /** A pop up to its CAS. */
  lemma PopReads(tags: nat, w: nat, s: State, n: Node, k: nat) returns (s1: State, s2: State, s3: State)
    requires tags > 0 && PcOf(s, 1).Idle? && n != NULL && RootAt(tags, s, n, k)
    ensures Enabled(w, s, 1, CallPop(LIST)) && s1 == Do(tags, s, 1, CallPop(LIST))
    ensures Enabled(w, s1, 1, Advance(0)) && s2 == Do(tags, s1, 1, Advance(0))
    ensures Enabled(w, s2, 1, Advance(0)) && s3 == Do(tags, s2, 1, Advance(0))
    ensures PcOf(s3, 1) == PopCas(LIST, Root(n, k % tags), Next(s.sh.next, n), k, Client)
    ensures s3.sh == s.sh && forall u :: u != 1 ==> PcOf(s3, u) == PcOf(s, u)
  {
    s1 := Do(tags, s, 1, CallPop(LIST));
    s2 := Do(tags, s1, 1, Advance(0));
    s3 := Do(tags, s2, 1, Advance(0));
  }

  lemma WholePush(tags: nat, w: nat, s: State, n: Node, top: Node, k: nat) returns (s': State)
    requires tags > 0 && PcOf(s, 1).Idle? && n != NULL && PlaceOf(s.sh, n).Live? && RootAt(tags, s, top, k)
    ensures Possible(tags, w, s, Whole(1, CallPush(LIST, n)))
    ensures s' == Run(tags, w, s, Whole(1, CallPush(LIST, n)))
    ensures Same(s, s', 1, n) && Next(s'.sh.next, n) == top && RootAt(tags, s', n, k + 1)
  {
    hide Possible, Run;
    TagAdvances(k, tags);
    var s1, s2, s3 := PushLinks(tags, w, s, n, top, k);
    var s4 := Do(tags, s3, 1, Advance(0));
    s' := Do(tags, s4, 1, Advance(0));
    RunWhole(tags, w, s, 1, CallPush(LIST, n), s1, s2, s3, s4, s');
  }

  /** A push up to its CAS. */
  lemma PushLinks(tags: nat, w: nat, s: State, n: Node, top: Node, k: nat) returns (s1: State, s2: State, s3: State)
    requires tags > 0 && PcOf(s, 1).Idle? && n != NULL && PlaceOf(s.sh, n).Live? && RootAt(tags, s, top, k)
    ensures Enabled(w, s, 1, CallPush(LIST, n)) && s1 == Do(tags, s, 1, CallPush(LIST, n))
    ensures Enabled(w, s1, 1, Advance(0)) && s2 == Do(tags, s1, 1, Advance(0))
    ensures Enabled(w, s2, 1, Advance(0)) && s3 == Do(tags, s2, 1, Advance(0))
    ensures PcOf(s3, 1) == PushCas(LIST, n, Root(top, k % tags), Client)
    ensures Others(s, s3, 1, n) && Next(s3.sh.next, n) == top && RootAt(tags, s3, top, k)
  {
    s1 := Do(tags, s, 1, CallPush(LIST, n));
    s2 := Do(tags, s1, 1, Advance(0));
    s3 := Do(tags, s2, 1, Advance(0));
  }

  lemma Born(tags: nat, w: nat, s: State, n: Node, k: nat) returns (s': State)
    requires tags > 0 && n != NULL && PlaceOf(s.sh, n).Unborn? && PcOf(s, 1).Idle? && RootAt(tags, s, NULL, k)
    ensures Possible(tags, w, s, [Move(1, Create(n))])
    ensures s' == Run(tags, w, s, [Move(1, Create(n))])
    ensures Same(s, s', 1, n) && PlaceOf(s'.sh, n).Live? && RootAt(tags, s', NULL, k)
  {
    RunOne(tags, w, s, 1, Create(n));
    s' := Do(tags, s, 1, Create(n));
  }

  /** Thread 1 creates three nodes and pushes B and then A. */
  lemma ListAB(tags: nat, w: nat) returns (moves: seq<Move>, s: State)
    requires tags > 0
    ensures Possible(tags, w, INITIAL, moves) && s == Run(tags, w, INITIAL, moves)
    ensures PcOf(s, 0).Idle? && PcOf(s, 1).Idle? && RootAt(tags, s, A, 2)
    ensures Next(s.sh.next, A) == B && Next(s.sh.next, B) == NULL && PlaceOf(s.sh, C).Live?
  {
    var nodes, s3 := ThreeNodes(tags, w);
    var s4 := WholePush(tags, w, s3, B, NULL, 0);
    s := WholePush(tags, w, s4, A, B, 1);
    hide Possible, Run;
    var pushB, pushA := Whole(1, CallPush(LIST, B)), Whole(1, CallPush(LIST, A));
    RunConcat(tags, w, s3, pushB, pushA);
    RunConcat(tags, w, INITIAL, nodes, pushB + pushA);
    moves := nodes + (pushB + pushA);
  }

  lemma ThreeNodes(tags: nat, w: nat) returns (moves: seq<Move>, s: State)
    requires tags > 0
    ensures Possible(tags, w, INITIAL, moves) && s == Run(tags, w, INITIAL, moves)
    ensures PcOf(s, 0).Idle? && PcOf(s, 1).Idle? && RootAt(tags, s, NULL, 0)
    ensures PlaceOf(s.sh, A).Live? && PlaceOf(s.sh, B).Live? && PlaceOf(s.sh, C).Live?
  {
    var s1 := Born(tags, w, INITIAL, A, 0);
    var s2 := Born(tags, w, s1, B, 0);
    s := Born(tags, w, s2, C, 0);
    hide Possible, Run;
    RunConcat(tags, w, s1, [Move(1, Create(B))], [Move(1, Create(C))]);
    RunConcat(tags, w, INITIAL, [Move(1, Create(A))], [Move(1, Create(B))] + [Move(1, Create(C))]);
    moves := [Move(1, Create(A))] + ([Move(1, Create(B))] + [Move(1, Create(C))]);
  }

  /** Thread 0 starts a pop and reads the root. */
  lemma LoadRoot(tags: nat, w: nat, s: State) returns (moves: seq<Move>, s': State)
    requires tags > 0 && PcOf(s, 0).Idle? && RootAt(tags, s, A, 2)
    ensures Possible(tags, w, s, moves) && s' == Run(tags, w, s, moves)
    ensures s'.sh == s.sh && forall u :: u != 0 ==> PcOf(s', u) == PcOf(s, u)
    ensures PcOf(s', 0) == PopRead(LIST, Root(A, 2 % tags), 2, Client)
  {
    RunOne(tags, w, s, 0, CallPop(LIST));
    var s1 := Do(tags, s, 0, CallPop(LIST));
    RunOne(tags, w, s1, 0, Advance(0));
    s' := Do(tags, s1, 0, Advance(0));
    RunConcat(tags, w, s, [Move(0, CallPop(LIST))], [Move(0, Advance(0))]);
    moves := [Move(0, CallPop(LIST))] + [Move(0, Advance(0))];
  }

  /** The list is A, B and thread 0 has read its root. */
  lemma Loaded(tags: nat, w: nat) returns (moves: seq<Move>, s: State)
    requires tags > 0
    ensures Possible(tags, w, INITIAL, moves) && s == Run(tags, w, INITIAL, moves)
    ensures PcOf(s, 0) == PopRead(LIST, Root(A, 2 % tags), 2, Client) && PcOf(s, 1).Idle?
    ensures RootAt(tags, s, A, 2) && Next(s.sh.next, A) == B && Next(s.sh.next, B) == NULL && PlaceOf(s.sh, C).Live?
  {
    hide Possible, Run;
    var list, s0 := ListAB(tags, w);
    var load;
    load, s := LoadRoot(tags, w, s0);
    RunConcat(tags, w, INITIAL, list, load);
    moves := list + load;
  }

  /** Thread 0 reads the `next` of A. */
  lemma ReadNext(tags: nat, w: nat, s: State) returns (s': State)
    requires tags > 0 && PcOf(s, 0) == PopRead(LIST, Root(A, 2 % tags), 2, Client)
    ensures Possible(tags, w, s, [Move(0, Advance(0))]) && s' == Run(tags, w, s, [Move(0, Advance(0))])
    ensures s'.sh == s.sh && forall u :: u != 0 ==> PcOf(s', u) == PcOf(s, u)
    ensures PcOf(s', 0) == PopCas(LIST, Root(A, 2 % tags), Next(s.sh.next, A), 2, Client)
  {
    RunOne(tags, w, s, 0, Advance(0));
    s' := Do(tags, s, 0, Advance(0));
  }

  /** Thread 1 writes C to the `next` of A, which it holds. */
  lemma Overwrite(tags: nat, w: nat, s: State, top: Node, k: nat) returns (s': State)
    requires tags > 0 && PcOf(s, 1).Idle? && PlaceOf(s.sh, A).Live? && RootAt(tags, s, top, k)
    ensures Possible(tags, w, s, [Move(1, Reuse(A, C))]) && s' == Run(tags, w, s, [Move(1, Reuse(A, C))])
    ensures Same(s, s', 1, A) && PlaceOf(s'.sh, A).Live? && Next(s'.sh.next, A) == C && RootAt(tags, s', top, k)
  {
    RunOne(tags, w, s, 1, Reuse(A, C));
    s' := Do(tags, s, 1, Reuse(A, C));
  }

  // ---- The late run ----

  /** Thread 0 is about to swing the root from A to a node a client holds and that does
      not follow A; it read the root after two updates, by now there were `k`. */
  ghost predicate Stalled(tags: nat, s: State, k: nat)
    requires tags > 0
  {
    && PcOf(s, 1).Idle? && RootAt(tags, s, A, k)
    && var pc := PcOf(s, 0);
    && pc.PopCas? && pc.l == LIST && pc.g.Client? && pc.root == Root(A, 2 % tags) && pc.seen == 2
    && pc.nxt != NULL && pc.nxt != A && pc.nxt != Next(s.sh.next, A) && PlaceOf(s.sh, pc.nxt).Live?
  }

  /** An even number of updates late: A is popped, overwritten, read and pushed again. */
  lemma StallEven(tags: nat, w: nat) returns (moves: seq<Move>, s: State)
    requires tags > 0 && w > 0
    ensures Possible(tags, w, INITIAL, moves) && s == Run(tags, w, INITIAL, moves) && Stalled(tags, s, 4)
  {
    hide Possible, Run;
    var start, s1 := Loaded(tags, w);
    var s2 := WholePop(tags, w, s1, A, 2);
    var s3 := Overwrite(tags, w, s2, B, 3);
    var s4 := ReadNext(tags, w, s3);
    s := WholePush(tags, w, s4, A, B, 3);
    moves := Joined(tags, w, start, s1, Whole(1, CallPop(LIST)), s2, [Move(1, Reuse(A, C))], s3,
                    [Move(0, Advance(0))], s4, Whole(1, CallPush(LIST, A)));
  }

  /** An odd number: A is read, both are popped and A is pushed again. */
  lemma StallOdd(tags: nat, w: nat) returns (moves: seq<Move>, s: State)
    requires tags > 0 && w > 0
    ensures Possible(tags, w, INITIAL, moves) && s == Run(tags, w, INITIAL, moves) && Stalled(tags, s, 5)
  {
    hide Possible, Run;
    var start, s1 := Loaded(tags, w);
    var s2 := ReadNext(tags, w, s1);
    var s3 := WholePop(tags, w, s2, A, 2);
    var s4 := WholePop(tags, w, s3, B, 3);
    s := WholePush(tags, w, s4, A, NULL, 4);
    moves := Joined(tags, w, start, s1, [Move(0, Advance(0))], s2, Whole(1, CallPop(LIST)), s3,
                    Whole(1, CallPop(LIST)), s4, Whole(1, CallPush(LIST, A)));
  }

  /** Five runs, one after the other. */
  lemma Joined(
    tags: nat, w: nat, m0: seq<Move>, s1: State, m1: seq<Move>, s2: State, m2: seq<Move>, s3: State, m3: seq<Move>,
    s4: State, m4: seq<Move>)
    returns (moves: seq<Move>)
    requires tags > 0
    requires Possible(tags, w, INITIAL, m0) && s1 == Run(tags, w, INITIAL, m0)
    requires Possible(tags, w, s1, m1) && s2 == Run(tags, w, s1, m1)
    requires Possible(tags, w, s2, m2) && s3 == Run(tags, w, s2, m2)
    requires Possible(tags, w, s3, m3) && s4 == Run(tags, w, s3, m3)
    requires Possible(tags, w, s4, m4)
    ensures Possible(tags, w, INITIAL, moves) && Run(tags, w, INITIAL, moves) == Run(tags, w, s4, m4)
  {
    hide Possible, Run;
    RunConcat(tags, w, s3, m3, m4);
    RunConcat(tags, w, s2, m2, m3 + m4);
    RunConcat(tags, w, s1, m1, m2 + (m3 + m4));
    RunConcat(tags, w, INITIAL, m0, m1 + (m2 + (m3 + m4)));
    moves := m0 + (m1 + (m2 + (m3 + m4)));
  }

  /** Thread 1 pops A and pushes it again. */
  lemma Turn(tags: nat, w: nat, s: State, k: nat) returns (moves: seq<Move>, s': State)
    requires tags > 0 && w > 0 && Stalled(tags, s, k)
    ensures Possible(tags, w, s, moves) && s' == Run(tags, w, s, moves) && Stalled(tags, s', k + 2)
  {
    hide Possible, Run;
    var s1 := WholePop(tags, w, s, A, k);
    s' := WholePush(tags, w, s1, A, Next(s.sh.next, A), k + 1);
    moves := Whole(1, CallPop(LIST)) + Whole(1, CallPush(LIST, A));
    RunConcat(tags, w, s, Whole(1, CallPop(LIST)), Whole(1, CallPush(LIST, A)));
  }

  lemma {:induction false} SpinTheTag(tags: nat, w: nat, s: State, k: nat, n: nat)
    returns (moves: seq<Move>, s': State)
    requires tags > 0 && w > 0 && Stalled(tags, s, k)
    ensures Possible(tags, w, s, moves) && s' == Run(tags, w, s, moves) && Stalled(tags, s', k + 2 * n)
    decreases n
  {
    if n == 0 {
      moves, s' := [], s;
    } else {
      hide Possible, Run, Stalled;
      var turn, s1 := Turn(tags, w, s, k);
      var rest;
      rest, s' := SpinTheTag(tags, w, s1, k + 2, n - 1);
      RunConcat(tags, w, s, turn, rest);
      moves := turn + rest;
    }
  }

  /** Thread 0 has waited exactly until the tag it read is back. */
  lemma StallRound(tags: nat, w: nat) returns (moves: seq<Move>, s: State)
    requires tags > 0 && w > 0
    ensures Possible(tags, w, INITIAL, moves) && s == Run(tags, w, INITIAL, moves)
    ensures Stalled(tags, s, 2 + Widest(tags)) && RootOf(s.sh, LIST) == PcOf(s, 0).root
  {
    hide Possible, Run;
    var late := Widest(tags);
    var m1, s1, m2;
    if late % 2 == 0 {
      m1, s1 := StallEven(tags, w);
      m2, s := SpinTheTag(tags, w, s1, 4, (late - 2) / 2);
    } else {
      m1, s1 := StallOdd(tags, w);
      m2, s := SpinTheTag(tags, w, s1, 5, (late - 3) / 2);
    }
    TagBack(tags);
    RunConcat(tags, w, INITIAL, m1, m2);
    moves := m1 + m2;
  }

  lemma TagBack(tags: nat)
    requires tags > 0
    ensures (2 + Widest(tags)) % tags == 2 % tags
  {
    if tags > 1 {
      var q, r := 2 / tags, 2 % tags;
      assert 2 + tags == (q + 1) * tags + r;
      Remainder(q + 1, r, tags);
    }
  }

  /** The late CAS swings the root to a node that is not the successor of the top. */
  lemma LateCas(tags: nat, s: State, k: nat)
    requires tags > 0 && Stalled(tags, s, k) && RootOf(s.sh, LIST) == PcOf(s, 0).root && Faithful(s, LIST)
    ensures !Faithful(Do(tags, s, 0, Advance(0)), LIST)
  {
    hide Legal, After;
    var s' := Do(tags, s, 0, Advance(0));
    var stack := StackOf(Replay(s.log), LIST);
    assert stack[0] == A && Next(s.sh.next, A) == HeadOf(stack[1..]);
    if LegalHistory(s'.log) {
      ReplayExtend(s.log, Popped(0, LIST, A, true));
      assert StackOf(Replay(s'.log), LIST) == stack[1..];
    }
  }

  // ---- Main results ----

  /** For every number of tags there is a run in which only one CAS is late, by exactly
      one round of the tag, and which ends with a client's node as the root. */
  lemma StalledPopBreaksTheList(tags: nat, w: nat) returns (moves: seq<Move>, s: State)
    requires tags > 0 && w == Widest(tags) + 1
    ensures Possible(tags, w, INITIAL, moves) && s == Run(tags, w, INITIAL, moves)
    ensures RootOf(s.sh, LIST).ptr != NULL && PlaceOf(s.sh, RootOf(s.sh, LIST).ptr).Live?
  {
    var m1, s1 := StallRound(tags, w);
    RunOne(tags, w, s1, 0, Advance(0));
    RunConcat(tags, w, INITIAL, m1, [Move(0, Advance(0))]);
    moves, s := m1 + [Move(0, Advance(0))], Do(tags, s1, 0, Advance(0));
  }

  /** The lists keep to plain stacks in every run if and only if no pop's CAS succeeds a
      whole round of the tag or more after its load. */
  lemma WindowIff(tags: nat, w: nat)
    requires tags > 0
    ensures AlwaysSound(tags, w) <==> w <= Widest(tags)
  {
    if w <= Widest(tags) {
      forall moves, l | Possible(tags, w, INITIAL, moves) ensures Faithful(Run(tags, w, INITIAL, moves), l) {
        InitialInv(tags);
        RunInv(tags, w, INITIAL, moves);
        assert ListOk(tags, Run(tags, w, INITIAL, moves).sh, l);
      }
    } else {
      var m, s := StallRound(tags, w);
      RunOne(tags, w, s, 0, Advance(0));
      RunConcat(tags, w, INITIAL, m, [Move(0, Advance(0))]);
      assert Possible(tags, w, INITIAL, m + [Move(0, Advance(0))]);
      if Faithful(s, LIST) {
        LateCas(tags, s, 2 + Widest(tags));
      }
    }
  }
}
