/** A 64-bit word updated as the code does stands for the machine's record in every run. */
module PackedRuns {
  import opened Chains
  import opened WaiterSpec
  import opened WaiterProtocol
  import opened WaiterInvariant
  import opened WaiterRefinement
  import opened WaiterTheorems
  import opened WordBits
  import opened PackedWord

  /** `addr` gives node `w` an address that fits and that `node` maps back. */
  ghost predicate Addressed(l: Layout, node: Bits -> nat, addr: nat -> Bits, w: Node) {
    Within(addr(w), l.ptrMask) && node(addr(w)) == w
  }

  ghost predicate AllAddressed(l: Layout, node: Bits -> nat, addr: nat -> Bits, moves: seq<Move>) {
    Addressed(l, node, addr, NULL)
    && forall i :: 0 <= i < |moves| && moves[i].c.CallAdd? ==> Addressed(l, node, addr, moves[i].c.w)
  }

  /** The update of the 64-bit word that an effect makes. */
  function UpdateFor(addr: nat -> Bits, e: Effect): seq<Update> {
    match e
    case PushHead(w) => [Point(addr(w))]
    case TakeHead(_, v, _) => [Point(addr(v))]
    case SetLock => [TakeLock]
    case ClearLock => [DropLock]
    case SetFlag => [Raise]
    case Detach => [Update.Detach]
    case ClearFlag => [Lower]
    case MakeFree => [Update.Release]
    case TakeFree => [Update.Acquire]
    case TakeFreeFor(_) => [Update.Acquire]
    case _ => []
  }

  /** The 64-bit word after the moves. */
  ghost function PackedRun(
    p: Params, l: Layout, addr: nat -> Bits, s: State, bits: Bits, moves: seq<Move>): Bits
    requires p.tags > 0 && Possible(p, s, moves)
    decreases |moves|
  {
    if moves == [] then bits
    else
      var m := moves[0];
      PackedRun(p, l, addr, Do(p, s, m.t, m.c),
                RunBits(l, bits, UpdateFor(addr, Decide(p, s.sh, m.t, PcOf(s, m.t), m.c).eff)), moves[1..])
  }

  function FirstBits(l: Layout, k: Kind, isSet: bool): Bits {
    if k.Mutex? || (k.Event? && isSet) then With(0, l.user) else 0
  }

  lemma FirstPacks(p: Params, l: Layout, node: Bits -> nat, isSet: bool, count: nat)
    requires Valid(l) && Names(node)
    ensures Packs(l, node, FirstBits(l, p.kind, isSet), Initial(p, isSet, count).sh.word)
  {
    hide Packs, Valid;
    PackZero(l, node);
    PackSet(l, node, 0, LOCKED);
  }

  /** Every waiter in the list or about to be has an address. */
  ghost predicate Known(l: Layout, node: Bits -> nat, addr: nat -> Bits, sh: Shared) {
    && Addressed(l, node, addr, NULL)
    && forall w :: StatusOf(sh, w).Adding? || StatusOf(sh, w).Listed? ==> Addressed(l, node, addr, w)
  }

  lemma StaysKnown(p: Params, l: Layout, node: Bits -> nat, addr: nat -> Bits, sh: Shared, t: Tid, e: Effect)
    requires p.tags > 0 && Known(l, node, addr, sh) && EffectOk(p, sh, t, e)
    requires e.BeginAdd? ==> Addressed(l, node, addr, e.w)
    ensures Known(l, node, addr, ApplyEffect(p, sh, t, e))
  {
    hide Addressed;
    var sh' := ApplyEffect(p, sh, t, e);
    forall w | StatusOf(sh', w).Adding? || StatusOf(sh', w).Listed? ensures Addressed(l, node, addr, w) {
      assert StatusOf(sh, w).Adding? || StatusOf(sh, w).Listed? || (e.BeginAdd? && e.w == w);
    }
  }

  /** The pointers an effect installs have addresses. */
  lemma InstallsKnown(p: Params, l: Layout, node: Bits -> nat, addr: nat -> Bits, sh: Shared, t: Tid, e: Effect)
    requires SharedOk(p, sh) && Known(l, node, addr, sh) && EffectOk(p, sh, t, e)
    ensures e.PushHead? ==> Addressed(l, node, addr, e.w)
    ensures e.TakeHead? ==> Addressed(l, node, addr, e.v)
  {
    if e.TakeHead? {
      LinkedTail(sh.next, sh.list);
      if sh.list[1..] != [] {
        assert sh.list[1] in sh.list;
      }
    }
  }

  lemma StepPacks(
    p: Params, l: Layout, node: Bits -> nat, addr: nat -> Bits, sh: Shared, t: Tid, e: Effect, bits: Bits)
    requires Valid(l) && Names(node) && p.tags == Tags(l) && Packs(l, node, bits, sh.word)
    requires SharedOk(p, sh) && Known(l, node, addr, sh) && EffectOk(p, sh, t, e)
    ensures Packs(l, node, RunBits(l, bits, UpdateFor(addr, e)), ApplyEffect(p, sh, t, e).word)
  {
    hide Packs, Valid, Names, SharedOk, Known, EffectOk, OnBits, OnWord, RunBits;
    var us := UpdateFor(addr, e);
    InstallsKnown(p, l, node, addr, sh, t, e);
    RunShort(l, bits, us);
    if us == [] {
      WordKept(p, sh, t, e, addr);
    } else {
      NullNamed(node);
      UpdatesAgree(l, node, bits, sh.word, us[0]);
      EffectsAreUpdates(p, sh, t, e, node, us[0]);
    }
  }

  lemma NullNamed(node: Bits -> nat)
    requires Names(node)
    ensures node(0) == NULL
  {
  }

  lemma RunShort(l: Layout, bits: Bits, us: seq<Update>)
    requires |us| <= 1
    ensures RunBits(l, bits, us) == if us == [] then bits else OnBits(l, bits, us[0])
  {
    if us != [] {
      assert us[..0] == [];
    }
  }

  lemma WordKept(p: Params, sh: Shared, t: Tid, e: Effect, addr: nat -> Bits)
    requires p.tags > 0 && UpdateFor(addr, e) == []
    ensures ApplyEffect(p, sh, t, e).word == sh.word
  {
  }

  lemma StepKeeps(
    p: Params, a0: Abs, l: Layout, node: Bits -> nat, addr: nat -> Bits, s: State, bits: Bits, m: Move)
    requires Valid(l) && Names(node) && p.tags == Tags(l) && Packs(l, node, bits, s.sh.word)
    requires Inv(p, a0, s) && Known(l, node, addr, s.sh) && Enabled(p, s, m.t, m.c)
    requires m.c.CallAdd? ==> Addressed(l, node, addr, m.c.w)
    ensures var e := Decide(p, s.sh, m.t, PcOf(s, m.t), m.c).eff;
      && Packs(l, node, RunBits(l, bits, UpdateFor(addr, e)), Do(p, s, m.t, m.c).sh.word)
      && Known(l, node, addr, Do(p, s, m.t, m.c).sh)
      && Inv(p, a0, Do(p, s, m.t, m.c))
  {
    hide Packs, Valid, Names, Known, Addressed;
    var e := Decide(p, s.sh, m.t, PcOf(s, m.t), m.c).eff;
    EffectFits(p, a0, s, m);
    StepPacks(p, l, node, addr, s.sh, m.t, e, bits);
    StaysKnown(p, l, node, addr, s.sh, m.t, e);
    StepInv(p, a0, s, m.t, m.c);
  }

  lemma EffectFits(p: Params, a0: Abs, s: State, m: Move)
    requires Inv(p, a0, s) && Enabled(p, s, m.t, m.c)
    ensures var e := Decide(p, s.sh, m.t, PcOf(s, m.t), m.c).eff;
      SharedOk(p, s.sh) && EffectOk(p, s.sh, m.t, e) && (e.BeginAdd? ==> m.c == CallAdd(e.w))
  {
    assert Ready(p, s.sh, View(p, a0, s), m.t, PcOf(s, m.t));
    DecideOk(p, s, View(p, a0, s), m.t, m.c);
    BeginsByCall(p, s.sh, m.t, PcOf(s, m.t), m.c);
  }

  lemma BeginsByCall(p: Params, sh: Shared, t: Tid, pc: Pc, c: Command)
    requires c.Advance? ==> !pc.Idle?
    ensures var e := Decide(p, sh, t, pc, c).eff; e.BeginAdd? ==> c == CallAdd(e.w)
  {
    hide StepRunning;
    if c.Advance? {
      StepsBeginNothing(p, sh, t, pc);
    }
  }

  lemma StepsBeginNothing(p: Params, sh: Shared, t: Tid, pc: Pc)
    requires !pc.Idle?
    ensures !StepRunning(p, sh, t, pc).eff.BeginAdd?
  {
  }

  lemma {:induction false} RunPacks(
    p: Params, a0: Abs, l: Layout, node: Bits -> nat, addr: nat -> Bits, s: State, bits: Bits, moves: seq<Move>)
    requires Valid(l) && Names(node) && p.tags == Tags(l) && Packs(l, node, bits, s.sh.word)
    requires Inv(p, a0, s) && Known(l, node, addr, s.sh) && Possible(p, s, moves)
    requires AllAddressed(l, node, addr, moves)
    ensures Packs(l, node, PackedRun(p, l, addr, s, bits, moves), Run(p, s, moves).sh.word)
    decreases |moves|
  {
    hide Packs, Valid, Names, Known, Inv, Addressed, RunBits, UpdateFor, Decide, Tags;
    if moves == [] {
    } else {
      var m := moves[0];
      StepKeeps(p, a0, l, node, addr, s, bits, m);
      RunPacks(p, a0, l, node, addr, Do(p, s, m.t, m.c),
               RunBits(l, bits, UpdateFor(addr, Decide(p, s.sh, m.t, PcOf(s, m.t), m.c).eff)), moves[1..]);
    }
  }

  // ---- Main result ----

  /** Over every run of an event, mutex or semaphore, the 64-bit word that starts as the
      constructor sets it and is updated bit by bit as the code does is at any time the
      machine's word, packed: pointer, flags and the tag modulo its window. */
  lemma PackedThroughout(
    p: Params, l: Layout, node: Bits -> nat, addr: nat -> Bits, isSet: bool, count: nat, moves: seq<Move>)
    requires Valid(l) && Names(node) && p.tags == Tags(l)
    requires Possible(p, Initial(p, isSet, count), moves) && AllAddressed(l, node, addr, moves)
    ensures Packs(l, node,
                  PackedRun(p, l, addr, Initial(p, isSet, count), FirstBits(l, p.kind, isSet), moves),
                  Run(p, Initial(p, isSet, count), moves).sh.word)
  {
    FirstPacks(p, l, node, isSet, count);
    InitialInv(p, isSet, count);
    RunPacks(p, Start(p.kind, isSet, count), l, node, addr, Initial(p, isSet, count),
             FirstBits(l, p.kind, isSet), moves);
  }
}
