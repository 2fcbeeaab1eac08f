/** WaiterList's packed word for 64-bit and for 32-bit pointers: what each update of the
    algorithms does to its bits, and that WaiterProtocol's record stands for them. */
module PackedWord {
  import Numbers
  import Chains
  import Protocol = WaiterProtocol
  import opened WordBits

  type Word = Protocol.Word

  /** USER_FLAG_BIT, LOCK_BIT, ABA_ADDEND and PTR_MASK. */
  datatype Layout = Layout(user: Bits, lock: Bits, addend: Bits, ptrMask: Bits)

  const WIDE: Layout := Layout(1, 2, 0x1_0000_0000_0000, 0xffff_ffff_fffc)
  const NARROW: Layout := Layout(0x1_0000_0000, 0x2_0000_0000, 0x4_0000_0000, 0xffff_ffff)

  /** Pointer, flags and tag are disjoint and fill the word; the tag is on top. */
  predicate Valid(l: Layout) {
    && Power(l.user) && Power(l.lock) && Power(l.addend) && l.user != 0 && l.lock != 0 && l.addend != 0
    && Disjoint(l.user, l.ptrMask) && Disjoint(l.lock, l.ptrMask) && Disjoint(l.user, l.lock)
    && Disjoint(l.ptrMask, From(l.addend)) && Disjoint(l.user, From(l.addend)) && Disjoint(l.lock, From(l.addend))
    && With(With(With(l.ptrMask, l.user), l.lock), From(l.addend)) == 0xffff_ffff_ffff_ffff
  }

  /** Both layouts are as intended, with 2^16 and 2^30 tags. */
  lemma BothValid()
    ensures Valid(WIDE) && Tags(WIDE) == 0x1_0000
    ensures Valid(NARROW) && Tags(NARROW) == 0x4000_0000
  {
    Sizes();
  }

  function Tags(l: Layout): (n: nat)
    requires Valid(l)
    ensures n > 0
  {
    Size(l.addend)
  }

  function GetPointer(l: Layout, word: Bits): Bits { Field(word, l.ptrMask) }

  function SetPointer(l: Layout, word: Bits, ptr: Bits): Bits { Put(word, ptr, l.ptrMask) }

  function Bump(l: Layout, word: Bits): Bits { Plus(word, l.addend) }

  function TagOf(l: Layout, word: Bits): nat
    requires Valid(l)
  {
    Number(word, l.addend)
  }

  /** `word` is the record `w`; `node` names the nodes that addresses point to. */
  ghost predicate Packs(l: Layout, node: Bits -> nat, word: Bits, w: Word)
    requires Valid(l)
  {
    && w.ptr == node(GetPointer(l, word))
    && w.user == (Field(word, l.user) != 0) && w.lock == (Field(word, l.lock) != 0)
    && w.tag == TagOf(l, word)
  }

  ghost predicate Names(node: Bits -> nat) {
    node(0) == Chains.NULL && forall p, q :: node(p) == node(q) ==> p == q
  }

  // ---- The single updates ----

  lemma Swap(x: Bits, y: Bits)
    requires Disjoint(x, y)
    ensures Disjoint(y, x)
  {
  }

  lemma PointerKeepsTag(l: Layout, word: Bits, ptr: Bits)
    requires Valid(l) && Within(ptr, l.ptrMask)
    ensures TagOf(l, SetPointer(l, word, ptr)) == TagOf(l, word)
  {
    Swap(l.ptrMask, From(l.addend));
    PutOther(word, ptr, l.ptrMask, From(l.addend));
    NumberIff(SetPointer(l, word, ptr), word, l.addend);
  }

  lemma PointerKeepsFlags(l: Layout, word: Bits, ptr: Bits)
    requires Valid(l) && Within(ptr, l.ptrMask)
    ensures Field(SetPointer(l, word, ptr), l.user) == Field(word, l.user)
    ensures Field(SetPointer(l, word, ptr), l.lock) == Field(word, l.lock)
  {
    PutOther(word, ptr, l.ptrMask, l.user);
    PutOther(word, ptr, l.ptrMask, l.lock);
  }

  /** SetPointer stores the pointer, which GetPointer reads back, and keeps flags and tag. */
  lemma PackPointer(l: Layout, node: Bits -> nat, word: Bits, w: Word, ptr: Bits)
    requires Valid(l) && Packs(l, node, word, w) && Within(ptr, l.ptrMask)
    ensures GetPointer(l, SetPointer(l, word, ptr)) == ptr
    ensures Packs(l, node, SetPointer(l, word, ptr), w.(ptr := node(ptr)))
  {
    PutSelf(word, ptr, l.ptrMask);
    PointerKeepsFlags(l, word, ptr);
    PointerKeepsTag(l, word, ptr);
    Repack(l, node, word, w, SetPointer(l, word, ptr), ptr, w.tag);
  }

  /** `r` has the flags of `word`. */
  lemma Repack(l: Layout, node: Bits -> nat, word: Bits, w: Word, r: Bits, ptr: Bits, tag: nat)
    requires Valid(l) && Packs(l, node, word, w)
    requires GetPointer(l, r) == ptr && TagOf(l, r) == tag
    requires Field(r, l.user) == Field(word, l.user) && Field(r, l.lock) == Field(word, l.lock)
    ensures Packs(l, node, r, w.(ptr := node(ptr), tag := tag))
  {
  }

  lemma BumpKeepsRest(l: Layout, word: Bits)
    requires Valid(l)
    ensures GetPointer(l, Bump(l, word)) == GetPointer(l, word)
    ensures Field(Bump(l, word), l.user) == Field(word, l.user)
    ensures Field(Bump(l, word), l.lock) == Field(word, l.lock)
  {
    PlusOther(word, l.addend, l.ptrMask);
    PlusOther(word, l.addend, l.user);
    PlusOther(word, l.addend, l.lock);
  }

  lemma BumpAdvancesTag(l: Layout, word: Bits)
    requires Valid(l)
    ensures TagOf(l, Bump(l, word)) == (TagOf(l, word) + 1) % Tags(l)
  {
    NumberNext(word, l.addend);
  }

  /** Adding ABA_ADDEND advances the tag and nothing else, also when it wraps. */
  lemma PackBump(l: Layout, node: Bits -> nat, word: Bits, w: Word)
    requires Valid(l) && Packs(l, node, word, w)
    ensures Packs(l, node, Bump(l, word), w.(tag := (w.tag + 1) % Tags(l)))
  {
    BumpKeepsRest(l, word);
    BumpAdvancesTag(l, word);
    Repack(l, node, word, w, Bump(l, word), GetPointer(l, word), (w.tag + 1) % Tags(l));
  }

  lemma PackLock(l: Layout, node: Bits -> nat, word: Bits, w: Word)
    requires Valid(l) && Packs(l, node, word, w)
    ensures Packs(l, node, With(word, l.lock), w.(lock := true))
  {
    WithSelf(word, l.lock);
    WithOther(word, l.lock, l.ptrMask);
    Swap(l.user, l.lock);
    WithOther(word, l.lock, l.user);
    WithOther(word, l.lock, From(l.addend));
    NumberIff(With(word, l.lock), word, l.addend);
  }

  lemma PackUnlock(l: Layout, node: Bits -> nat, word: Bits, w: Word)
    requires Valid(l) && Packs(l, node, word, w)
    ensures Packs(l, node, Less(word, l.lock), w.(lock := false))
  {
    LessSelf(word, l.lock);
    LessOther(word, l.lock, l.ptrMask);
    Swap(l.user, l.lock);
    LessOther(word, l.lock, l.user);
    LessOther(word, l.lock, From(l.addend));
    NumberIff(Less(word, l.lock), word, l.addend);
  }

  lemma PackSet(l: Layout, node: Bits -> nat, word: Bits, w: Word)
    requires Valid(l) && Packs(l, node, word, w)
    ensures Packs(l, node, With(word, l.user), w.(user := true))
  {
    WithSelf(word, l.user);
    WithOther(word, l.user, l.ptrMask);
    WithOther(word, l.user, l.lock);
    WithOther(word, l.user, From(l.addend));
    NumberIff(With(word, l.user), word, l.addend);
  }

  lemma PackReset(l: Layout, node: Bits -> nat, word: Bits, w: Word)
    requires Valid(l) && Packs(l, node, word, w)
    ensures Packs(l, node, Less(word, l.user), w.(user := false))
  {
    LessSelf(word, l.user);
    LessOther(word, l.user, l.ptrMask);
    LessOther(word, l.user, l.lock);
    LessOther(word, l.user, From(l.addend));
    NumberIff(Less(word, l.user), word, l.addend);
  }

  lemma {:induction false} NumberOfZero(a: Bits)
    requires Power(a)
    ensures Number(0, a) == 0
    decreases From(a)
  {
    if a == 0 {
    } else {
      Double(a);
      ZeroField(a);
      NumberOfZero(a << 1);
    }
  }

  lemma ZeroField(m: Bits)
    ensures Field(0, m) == 0
  {
  }

  /** Zero is a locked mutex without waiters. */
  lemma PackZero(l: Layout, node: Bits -> nat)
    requires Valid(l) && node(0) == Chains.NULL
    ensures Packs(l, node, 0, Protocol.LOCKED)
  {
    ZeroField(l.ptrMask);
    ZeroField(l.user);
    ZeroField(l.lock);
    NumberOfZero(l.addend);
  }

  // ---- All updates the algorithms make ----

  datatype Update =
    | Point(ptr: Bits)   // SetPointer(head, ptr) + ABA_ADDEND: push and pop
    | TakeLock           // (head | LOCK_BIT) + ABA_ADDEND
    | DropLock           // And(~LOCK_BIT)
    | Raise              // (head | EVENT_SET_BIT) + ABA_ADDEND
    | Detach             // ((head & ~PTR_MASK) | LOCK_BIT | EVENT_SET_BIT) + ABA_ADDEND
    | Lower              // And(~EVENT_SET_BIT)
    | Release            // MUTEX_FREE_BIT
    | Acquire            // 0

  function OnBits(l: Layout, word: Bits, u: Update): Bits {
    match u
    case Point(ptr) => Bump(l, SetPointer(l, word, ptr))
    case TakeLock => Bump(l, With(word, l.lock))
    case DropLock => Less(word, l.lock)
    case Raise => Bump(l, With(word, l.user))
    case Detach => Bump(l, With(With(SetPointer(l, word, 0), l.lock), l.user))
    case Lower => Less(word, l.user)
    case Release => With(0, l.user)
    case Acquire => 0
  }

  function Bumped(tags: nat, w: Word): Word
    requires tags > 0
  {
    w.(tag := (w.tag + 1) % tags)
  }

  function OnWord(tags: nat, node: Bits -> nat, w: Word, u: Update): Word
    requires tags > 0
  {
    match u
    case Point(ptr) => Bumped(tags, w.(ptr := node(ptr)))
    case TakeLock => Bumped(tags, w.(lock := true))
    case DropLock => w.(lock := false)
    case Raise => Bumped(tags, w.(user := true))
    case Detach => Bumped(tags, Protocol.Word(Chains.NULL, true, true, w.tag))
    case Lower => w.(user := false)
    case Release => Protocol.FREE
    case Acquire => Protocol.LOCKED
  }

  /** Which update an effect of the protocol makes on the word, if any. */
  ghost predicate Makes(e: Protocol.Effect, node: Bits -> nat, u: Update) {
    match e
    case PushHead(w) => u.Point? && node(u.ptr) == w
    case TakeHead(_, v, _) => u.Point? && node(u.ptr) == v
    case SetLock => u.TakeLock?
    case ClearLock => u.DropLock?
    case SetFlag => u.Raise?
    case Detach => u.Detach?
    case ClearFlag => u.Lower?
    case MakeFree => u.Release?
    case TakeFree => u.Acquire?
    case TakeFreeFor(_) => u.Acquire?
    case _ => false
  }

  lemma ZeroWithin(m: Bits)
    ensures Within(0, m)
  {
  }

  /** The protocol's record and the packed word go through every update together. */
  lemma UpdatesAgree(l: Layout, node: Bits -> nat, word: Bits, w: Word, u: Update)
    requires Valid(l) && node(0) == Chains.NULL && Packs(l, node, word, w)
    requires u.Point? ==> Within(u.ptr, l.ptrMask)
    ensures Packs(l, node, OnBits(l, word, u), OnWord(Tags(l), node, w, u))
  {
    hide Packs, Bump, SetPointer, Valid;
    match u
    case Point(ptr) =>
      PackPointer(l, node, word, w, ptr);
      PackBump(l, node, SetPointer(l, word, ptr), w.(ptr := node(ptr)));
    case TakeLock =>
      PackLock(l, node, word, w);
      PackBump(l, node, With(word, l.lock), w.(lock := true));
    case DropLock => PackUnlock(l, node, word, w);
    case Raise =>
      PackSet(l, node, word, w);
      PackBump(l, node, With(word, l.user), w.(user := true));
    case Detach => DetachAgrees(l, node, word, w);
    case Lower => PackReset(l, node, word, w);
    case Release =>
      PackZero(l, node);
      PackSet(l, node, 0, Protocol.LOCKED);
    case Acquire => PackZero(l, node);
  }

  lemma DetachAgrees(l: Layout, node: Bits -> nat, word: Bits, w: Word)
    requires Valid(l) && node(0) == Chains.NULL && Packs(l, node, word, w)
    ensures Packs(l, node, OnBits(l, word, Detach), OnWord(Tags(l), node, w, Detach))
  {
    ZeroWithin(l.ptrMask);
    PackPointer(l, node, word, w, 0);
    var w1 := w.(ptr := Chains.NULL);
    var x1 := SetPointer(l, word, 0);
    PackLock(l, node, x1, w1);
    PackSet(l, node, With(x1, l.lock), w1.(lock := true));
    PackBump(l, node, With(With(x1, l.lock), l.user), w1.(lock := true, user := true));
  }

  /** `OnWord` is what the protocol's effects do to its word. */
  lemma EffectsAreUpdates(
    p: Protocol.Params, sh: Protocol.Shared, t: nat, e: Protocol.Effect, node: Bits -> nat, u: Update)
    requires p.tags > 0 && Makes(e, node, u)
    ensures Protocol.ApplyEffect(p, sh, t, e).word == OnWord(p.tags, node, sh.word, u)
  {
  }

  lemma SameFlag(x: Bits, y: Bits, f: Bits)
    requires Power(f) && (Field(x, f) != 0) == (Field(y, f) != 0)
    ensures Field(x, f) == Field(y, f)
  {
    OneBit(x, f);
    OneBit(y, f);
  }

  lemma FieldsDetermine(l: Layout, x: Bits, y: Bits)
    requires Valid(l) && Field(x, l.ptrMask) == Field(y, l.ptrMask) && Field(x, l.user) == Field(y, l.user)
    requires Field(x, l.lock) == Field(y, l.lock) && Field(x, From(l.addend)) == Field(y, From(l.addend))
    ensures x == y
  {
    Union(x, y, l.ptrMask, l.user);
    Union(x, y, With(l.ptrMask, l.user), l.lock);
    Union(x, y, With(With(l.ptrMask, l.user), l.lock), From(l.addend));
    Everything(x);
    Everything(y);
  }

  /** A CAS that compares packed words succeeds exactly when one comparing the records
      would. */
  lemma SameWordIff(l: Layout, node: Bits -> nat, x: Bits, v: Word, y: Bits, w: Word)
    requires Valid(l) && Names(node) && Packs(l, node, x, v) && Packs(l, node, y, w)
    ensures x == y <==> v == w
  {
    if v == w {
      SameParts(l, node, x, y, w);
      FieldsDetermine(l, x, y);
    }
  }

  lemma SameParts(l: Layout, node: Bits -> nat, x: Bits, y: Bits, w: Word)
    requires Valid(l) && Names(node) && Packs(l, node, x, w) && Packs(l, node, y, w)
    ensures Field(x, l.ptrMask) == Field(y, l.ptrMask) && Field(x, l.user) == Field(y, l.user)
    ensures Field(x, l.lock) == Field(y, l.lock) && Field(x, From(l.addend)) == Field(y, From(l.addend))
  {
    SameName(node, GetPointer(l, x), GetPointer(l, y));
    SameFlags(l, node, x, y, w);
    NumberIff(x, y, l.addend);
  }

  lemma SameName(node: Bits -> nat, p: Bits, q: Bits)
    requires Names(node) && node(p) == node(q)
    ensures p == q
  {
  }

  lemma SameFlags(l: Layout, node: Bits -> nat, x: Bits, y: Bits, w: Word)
    requires Valid(l) && Packs(l, node, x, w) && Packs(l, node, y, w)
    ensures Field(x, l.user) == Field(y, l.user) && Field(x, l.lock) == Field(y, l.lock)
  {
    SameFlag(x, y, l.user);
    SameFlag(x, y, l.lock);
  }

  // ---- Tags between two readings ----

  function RunBits(l: Layout, word: Bits, us: seq<Update>): Bits {
    if us == [] then word else OnBits(l, RunBits(l, word, us[..|us| - 1]), us[|us| - 1])
  }

  /** How many of the updates add ABA_ADDEND. */
  function Bumps(us: seq<Update>): nat {
    if us == [] then 0
    else Bumps(us[..|us| - 1]) + match us[|us| - 1] case DropLock => 0 case Lower => 0 case _ => 1
  }

  /** Updates that keep the tag going: all but the mutex's release and acquisition, which
      set it to zero. */
  predicate KeepTag(l: Layout, us: seq<Update>) {
    forall i :: 0 <= i < |us| ==>
      !us[i].Release? && !us[i].Acquire? && (us[i].Point? ==> Within(us[i].ptr, l.ptrMask))
  }

  lemma {:induction false} TagAfter(l: Layout, word: Bits, us: seq<Update>)
    requires Valid(l) && KeepTag(l, us)
    ensures TagOf(l, RunBits(l, word, us)) == (TagOf(l, word) + Bumps(us)) % Tags(l)
  {
    if us == [] {
      NumberFits(word, l.addend);
      Numbers.Remainder(0, TagOf(l, word), Tags(l));
    } else {
      var n := |us| - 1;
      TagAfter(l, word, us[..n]);
      OneUpdate(l, RunBits(l, word, us[..n]), us[n]);
      Numbers.TagAdvances(TagOf(l, word) + Bumps(us[..n]), Tags(l));
    }
  }

  lemma OneUpdate(l: Layout, word: Bits, u: Update)
    requires Valid(l) && !u.Release? && !u.Acquire? && (u.Point? ==> Within(u.ptr, l.ptrMask))
    ensures TagOf(l, OnBits(l, word, u)) ==
      if u.DropLock? || u.Lower? then TagOf(l, word) else (TagOf(l, word) + 1) % Tags(l)
  {
    hide OnBits, OnWord, GetPointer, Valid, TagOf;
    var node: Bits -> nat := x => Chains.NULL;
    var w := Protocol.Word(Chains.NULL, Field(word, l.user) != 0, Field(word, l.lock) != 0, TagOf(l, word));
    UpdatesAgree(l, node, word, w, u);
    UpdateTag(Tags(l), node, w, u);
  }

  lemma UpdateTag(tags: nat, node: Bits -> nat, w: Word, u: Update)
    requires tags > 0 && !u.Release? && !u.Acquire?
    ensures OnWord(tags, node, w, u).tag == if u.DropLock? || u.Lower? then w.tag else (w.tag + 1) % tags
  {
  }

  /** A word that equals an older reading, with fewer bumps in between than there are
      tags and no mutex release, was not bumped at all: nothing was pushed, popped,
      locked, set or detached. */
  lemma NoHiddenUpdate(l: Layout, word: Bits, us: seq<Update>, i: nat)
    requires Valid(l) && KeepTag(l, us) && Bumps(us) < Tags(l)
    requires RunBits(l, word, us) == word && i < |us|
    ensures us[i].DropLock? || us[i].Lower?
  {
    TagAfter(l, word, us);
    NumberFits(word, l.addend);
    NoWrap(TagOf(l, word), Bumps(us), Tags(l));
    NoBumps(us, i);
  }

  lemma NoWrap(tag: nat, bumps: nat, tags: nat)
    requires tag < tags && bumps < tags && (tag + bumps) % tags == tag
    ensures bumps == 0
  {
    Numbers.Remainder(0, tag, tags);
    Numbers.SameVersion(0, tag, tag + bumps, tags);
  }

  lemma {:induction false} NoBumps(us: seq<Update>, i: nat)
    requires Bumps(us) == 0 && i < |us|
    ensures us[i].DropLock? || us[i].Lower?
  {
    if i == |us| - 1 {
    } else {
      NoBumps(us[..|us| - 1], i);
    }
  }
}
