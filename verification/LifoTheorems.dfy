/** What holds in every run of the tagged stacks, and why the tag window matters. */
module LifoTheorems {
  import opened Sequences
  import opened Chains
  import opened Logs
  import opened LifoSpec
  import opened LifoLists
  import opened LifoProofs

  datatype Move = Move(t: Tid, c: Command)

  /** The schedule can be followed with every caller keeping the contract and every CAS of
      a pop that succeeds fewer than `w` updates after its load. */
  ghost predicate Possible(tags: nat, w: nat, s: State, moves: seq<Move>)
    requires tags > 0
    decreases |moves|
  {
    moves != [] ==>
      && Enabled(w, s, moves[0].t, moves[0].c)
      && Possible(tags, w, Do(tags, s, moves[0].t, moves[0].c), moves[1..])
  }

  ghost function Run(tags: nat, w: nat, s: State, moves: seq<Move>): State
    requires tags > 0 && Possible(tags, w, s, moves)
    decreases |moves|
  {
    if moves == [] then s else Run(tags, w, Do(tags, s, moves[0].t, moves[0].c), moves[1..])
  }

  ghost predicate Inv(tags: nat, s: State) {
    && SharedOk(tags, s.sh)
    && (forall u :: ThreadOk(tags, s.sh, u, PcOf(s, u)))
    && (forall u :: OnlyCarried(s.sh, u, PcOf(s, u)))
    && LegalHistory(s.log)
    && Describes(Replay(s.log), s.sh)
    && (forall u :: Tracks(Replay(s.log), u, PcOf(s, u)))
  }

  lemma StepSound(tags: nat, s: State, t: Tid, c: Command)
    requires Inv(tags, s) && Enabled(tags, s, t, c)
    ensures Sound(tags, s.sh, Replay(s.log), t, Decide(s.sh, t, PcOf(s, t), c))
  {
    assert Ready(tags, s.sh, Replay(s.log), t, PcOf(s, t));
    if c.Advance? {
      RunningOk(tags, s.sh, Replay(s.log), t, PcOf(s, t), c.addr);
    } else {
      CallOk(tags, s, Replay(s.log), t, c);
    }
  }

  lemma StepMemory(tags: nat, s: State, t: Tid, c: Command)
    requires Inv(tags, s) && Enabled(tags, s, t, c)
    ensures var s' := Do(tags, s, t, c);
      SharedOk(tags, s'.sh) && forall u :: ThreadOk(tags, s'.sh, u, PcOf(s', u))
  {
    StepSound(tags, s, t, c);
    var o, s' := Decide(s.sh, t, PcOf(s, t), c), Do(tags, s, t, c);
    KeepsShared(tags, s.sh, t, o.eff);
    forall u ensures ThreadOk(tags, s'.sh, u, PcOf(s', u)) {
      if u != t {
        Frame(tags, s.sh, t, o.eff, u, PcOf(s, u));
      }
    }
  }

  lemma StepCarried(tags: nat, s: State, t: Tid, c: Command)
    requires Inv(tags, s) && Enabled(tags, s, t, c)
    ensures var s' := Do(tags, s, t, c); forall u :: OnlyCarried(s'.sh, u, PcOf(s', u))
  {
    StepSound(tags, s, t, c);
    var o, s' := Decide(s.sh, t, PcOf(s, t), c), Do(tags, s, t, c);
    forall u ensures OnlyCarried(s'.sh, u, PcOf(s', u)) {
      if u == t {
        OwnCarried(tags, s.sh, t, PcOf(s, t), c);
      } else {
        OthersCarried(tags, s.sh, t, o.eff, u, PcOf(s, u));
      }
    }
  }

  lemma StepHistory(tags: nat, s: State, t: Tid, c: Command)
    requires Inv(tags, s) && Enabled(tags, s, t, c)
    ensures var s' := Do(tags, s, t, c);
      && LegalHistory(s'.log)
      && Describes(Replay(s'.log), s'.sh)
      && forall u :: Tracks(Replay(s'.log), u, PcOf(s', u))
  {
    hide Decide, Legal, Apply, Tracks, Describes, ThreadOk;
    StepSound(tags, s, t, c);
    var a, o, s' := Replay(s.log), Decide(s.sh, t, PcOf(s, t), c), Do(tags, s, t, c);
    LogGrows(s.log, o.acts);
    TracksKept(s, s', a, Replay(s'.log), t, o.acts);
  }

  lemma LogGrows(log: seq<Action>, acts: seq<Action>)
    requires LegalHistory(log) && |acts| <= 1 && (acts != [] ==> Legal(Replay(log), acts[0]))
    ensures LegalHistory(log + acts)
    ensures Replay(log + acts) == if acts == [] then Replay(log) else Apply(Replay(log), acts[0])
  {
    hide Apply, Legal;
    if acts == [] {
      assert log + acts == log;
    } else {
      assert acts == [acts[0]];
      ReplayExtend(log, acts[0]);
    }
  }

  lemma TracksKept(s: State, s': State, a: Abs, a': Abs, t: Tid, acts: seq<Action>)
    requires forall u :: Tracks(a, u, PcOf(s, u))
    requires a' == if acts == [] then a else Apply(a, acts[0])
    requires acts != [] ==> acts[0].t == t
    requires Tracks(a', t, PcOf(s', t)) && forall u :: u != t ==> PcOf(s', u) == PcOf(s, u)
    ensures forall u :: Tracks(a', u, PcOf(s', u))
  {
    forall u ensures Tracks(a', u, PcOf(s', u)) {
      assert Tracks(a, u, PcOf(s, u));
      if u != t && acts != [] {
        OthersUntouched(a, acts[0], u);
      }
    }
  }

  /** How late a pop's CAS may be: one round of the tag.  Without a tag two updates, as
      one update alone always changes the pointer. */
  function Widest(tags: nat): nat {
    if tags == 1 then 2 else tags
  }

  lemma EnabledInWindow(tags: nat, w: nat, s: State, t: Tid, c: Command)
    requires Inv(tags, s) && Enabled(w, s, t, c) && w <= Widest(tags)
    ensures Enabled(tags, s, t, c)
  {
    assert ThreadOk(tags, s.sh, t, PcOf(s, t));
  }

  lemma {:induction false} RunInv(tags: nat, w: nat, s: State, moves: seq<Move>)
    requires Inv(tags, s) && w <= Widest(tags) && Possible(tags, w, s, moves)
    ensures Inv(tags, Run(tags, w, s, moves))
    decreases |moves|
  {
    if moves == [] {
    } else {
      var t, c := moves[0].t, moves[0].c;
      EnabledInWindow(tags, w, s, t, c);
      StepMemory(tags, s, t, c);
      StepCarried(tags, s, t, c);
      StepHistory(tags, s, t, c);
      RunInv(tags, w, Do(tags, s, t, c), moves[1..]);
    }
  }

  lemma InitialInv(tags: nat)
    requires tags > 0
    ensures Inv(tags, INITIAL)
  {
  }

  /** The lists, the queue and the allocator after the moves of a run. */
  ghost function Reach(tags: nat, moves: seq<Move>): State
    requires tags > 0 && Possible(tags, tags, INITIAL, moves)
  {
    Run(tags, tags, INITIAL, moves)
  }

  lemma Invariant(tags: nat, moves: seq<Move>)
    requires tags > 0 && Possible(tags, tags, INITIAL, moves)
    ensures Inv(tags, Reach(tags, moves))
  {
    InitialInv(tags);
    RunInv(tags, tags, INITIAL, moves);
  }

  // ---- Main results ----

  /** What was done is a legal history of plain stacks, and the chain in memory of list
      `l` is the stack it leads to. */
  ghost predicate Faithful(s: State, l: ListId) {
    var stack := StackOf(Replay(s.log), l);
    && LegalHistory(s.log)
    && RootOf(s.sh, l).ptr == HeadOf(stack) && Linked(s.sh.next, stack) && Distinct(stack)
  }

  /** Every interleaving of pushes and pops, with nodes reused between lists, is a legal
      history of plain stacks, and every chain in memory is the stack it leads to. */
  lemma Linearizable(tags: nat, moves: seq<Move>, l: ListId)
    requires tags > 0 && Possible(tags, tags, INITIAL, moves)
    ensures Faithful(Reach(tags, moves), l)
  {
    Invariant(tags, moves);
    assert ListOk(tags, Reach(tags, moves).sh, l);
  }

  /** A pop about to succeed installs the node that really follows the root. */
  lemma NoStalePop(tags: nat, moves: seq<Move>, t: Tid)
    requires tags > 0 && Possible(tags, tags, INITIAL, moves)
    requires var s := Reach(tags, moves); var pc := PcOf(s, t);
      pc.PopCas? && RootOf(s.sh, pc.l) == pc.root && InWindow(tags, s.sh, pc)
    ensures var s := Reach(tags, moves); var pc := PcOf(s, t);
      var stack := StackOf(Replay(s.log), pc.l);
      stack != [] && stack[0] == pc.root.ptr && pc.nxt == HeadOf(stack[1..])
  {
    Invariant(tags, moves);
    var s := Reach(tags, moves);
    var pc := PcOf(s, t);
    assert ThreadOk(tags, s.sh, t, pc);
    PopIsFresh(tags, s.sh, pc.l, pc.root, pc.nxt, pc.seen);
  }

  // ---- Storage ----

  datatype Owner = Stack(l: ListId) | LocalList(t: Tid) | Holder | Call(t: Tid)

  /** `o` has node `n`: it is on a stack, on a thread's local free list, with a client, or
      in the hand of a running call. */
  ghost predicate Owns(s: State, o: Owner, n: Node) {
    var a := Replay(s.log);
    match o
    case Stack(l) => n in StackOf(a, l)
    case LocalList(t) => n in LocalsIn(a, t)
    case Holder => n in a.held
    case Call(t) => n != NULL && Carried(PcOf(s, t)) == n
  }

  /** The one owner of a node, as `place` records it. */
  function OwnerIn(q: Place): Owner
    requires !q.Unborn?
  {
    match q
    case Live => Holder
    case InCall(t) => Call(t)
    case On(l) => Stack(l)
    case Local(t) => LocalList(t)
  }

  lemma OwnedAsPlaced(tags: nat, s: State, o: Owner, n: Node)
    requires Inv(tags, s)
    ensures Owns(s, o, n) <==> !PlaceOf(s.sh, n).Unborn? && o == OwnerIn(PlaceOf(s.sh, n))
  {
    match o
    case Stack(l) => assert ListOk(tags, s.sh, l);
    case LocalList(t) => assert LocalOk(s.sh, t);
    case Holder =>
    case Call(t) => InHandAsPlaced(tags, s, t, n);
  }

  lemma InHandAsPlaced(tags: nat, s: State, t: Tid, n: Node)
    requires Inv(tags, s)
    ensures n != NULL && Carried(PcOf(s, t)) == n <==> PlaceOf(s.sh, n) == InCall(t)
  {
    assert ThreadOk(tags, s.sh, t, PcOf(s, t));
    assert OnlyCarried(s.sh, t, PcOf(s, t));
  }

  /** Every node that exists has exactly one owner and the others have none: so no node is
      lost, and none is in two places. */
  lemma OneOwnerPerNode(tags: nat, moves: seq<Move>, n: Node)
    requires tags > 0 && Possible(tags, tags, INITIAL, moves)
    ensures var s := Reach(tags, moves);
      && (n in Replay(s.log).born <==> exists o :: Owns(s, o, n))
      && (forall o, p :: Owns(s, o, n) && Owns(s, p, n) ==> o == p)
  {
    Invariant(tags, moves);
    var s := Reach(tags, moves);
    forall o ensures Owns(s, o, n) <==> !PlaceOf(s.sh, n).Unborn? && o == OwnerIn(PlaceOf(s.sh, n)) {
      OwnedAsPlaced(tags, s, o, n);
    }
    if n in Replay(s.log).born {
      assert Owns(s, OwnerIn(PlaceOf(s.sh, n)), n);
    }
  }

  /** A queued node holds a constructed value; one that is spare, free or with a client
      holds none. */
  lemma StorageFilled(tags: nat, moves: seq<Move>, o: Owner, n: Node)
    requires tags > 0 && Possible(tags, tags, INITIAL, moves)
    requires Owns(Reach(tags, moves), o, n) && !o.Call?
    ensures SlotOf(Reach(tags, moves).sh, n).Full? <==> o == Stack(VALUES)
  {
    Invariant(tags, moves);
    OwnedAsPlaced(tags, Reach(tags, moves), o, n);
    assert StoreOk(Reach(tags, moves).sh);
  }

  predicate HandsOut(x: Action, n: Node) {
    (x.Popped? && x.n == n && x.out) || ((x.Allocated? || x.Created? || x.TakenLocal?) && x.n == n)
  }

  predicate GivesBack(x: Action, n: Node) {
    x.Called? && (x.op.PushOp? || x.op.FreeOp?) && x.op.n == n
  }

  function CountOut(log: seq<Action>, n: Node): nat {
    Tally(log, (x: Action) => HandsOut(x, n))
  }

  function CountBack(log: seq<Action>, n: Node): nat {
    Tally(log, (x: Action) => GivesBack(x, n))
  }

  /** A node is never handed out twice without being given back in between. */
  lemma {:induction false} HandedOutOnce(log: seq<Action>, n: Node)
    requires LegalHistory(log)
    ensures CountOut(log, n) == CountBack(log, n) + if n in Replay(log).held then 1 else 0
  {
    if log == [] {
    } else {
      HandedOutOnce(log[..|log| - 1], n);
      HeldStep(Replay(log[..|log| - 1]), log[|log| - 1], n);
    }
  }

  lemma HeldStep(a: Abs, x: Action, n: Node)
    requires Legal(a, x)
    ensures HandsOut(x, n) ==> n !in a.held
    ensures GivesBack(x, n) ==> n in a.held
    ensures n in Apply(a, x).held <==> (n in a.held && !GivesBack(x, n)) || HandsOut(x, n)
  {
  }
}
