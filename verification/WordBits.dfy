/** Bits of the tagged 64-bit words. */
module WordBits {
  import Numbers

  type Bits = bv64

  // Masks, sums and fields are functions so that the solver can use equal arguments.

  function Field(word: Bits, mask: Bits): Bits { word & mask }

  predicate Within(x: Bits, mask: Bits) { x & !mask == 0 }

  predicate Disjoint(x: Bits, y: Bits) { x & y == 0 }

  function Put(word: Bits, x: Bits, mask: Bits): Bits { (word & !mask) | x }

  function With(word: Bits, f: Bits): Bits { word | f }

  function Less(word: Bits, f: Bits): Bits { word & !f }

  function Plus(word: Bits, a: Bits): Bits { word + a }

  predicate Power(x: Bits) { x & (x - 1) == 0 }

  /** All bits from the power `a` up; none if `a` is zero. */
  function From(a: Bits): Bits { if a == 0 then 0 else !(a - 1) }

  lemma PutSelf(word: Bits, x: Bits, mask: Bits)
    requires Within(x, mask)
    ensures Field(Put(word, x, mask), mask) == x
  {
  }

  lemma PutOther(word: Bits, x: Bits, mask: Bits, f: Bits)
    requires Within(x, mask) && Disjoint(f, mask)
    ensures Field(Put(word, x, mask), f) == Field(word, f)
  {
  }

  lemma WithSelf(word: Bits, f: Bits)
    ensures Field(With(word, f), f) == f
  {
  }

  lemma WithOther(word: Bits, f: Bits, g: Bits)
    requires Disjoint(f, g)
    ensures Field(With(word, f), g) == Field(word, g)
  {
  }

  lemma LessSelf(word: Bits, f: Bits)
    ensures Field(Less(word, f), f) == 0
  {
  }

  lemma LessOther(word: Bits, f: Bits, g: Bits)
    requires Disjoint(f, g)
    ensures Field(Less(word, f), g) == Field(word, g)
  {
  }

  /** Adding a power changes nothing below it, whatever overflows. */
  lemma PlusOther(word: Bits, a: Bits, f: Bits)
    requires Power(a) && a != 0 && Disjoint(f, From(a))
    ensures Field(Plus(word, a), f) == Field(word, f)
  {
  }

  lemma OneBit(word: Bits, f: Bits)
    requires Power(f)
    ensures Field(word, f) == 0 || Field(word, f) == f
  {
  }

  lemma Union(x: Bits, y: Bits, m: Bits, n: Bits)
    requires Field(x, m) == Field(y, m) && Field(x, n) == Field(y, n)
    ensures Field(x, With(m, n)) == Field(y, With(m, n))
  {
  }

  lemma Everything(x: Bits)
    ensures Field(x, 0xffff_ffff_ffff_ffff) == x
  {
  }

  // ---- The bits from a power up, as a number ----

  lemma Double(a: Bits)
    requires Power(a) && a != 0
    ensures Power(a << 1) && From(a << 1) < From(a)
  {
  }

  function Number(x: Bits, a: Bits): nat
    requires Power(a)
    decreases From(a)
  {
    if a == 0 then 0
    else
      Double(a);
      2 * Number(x, a << 1) + if Field(x, a) != 0 then 1 else 0
  }

  /** How many such numbers there are. */
  function Size(a: Bits): (n: nat)
    requires Power(a)
    ensures n > 0
    decreases From(a)
  {
    if a == 0 then 1
    else
      Double(a);
      2 * Size(a << 1)
  }

  lemma {:induction false} NumberFits(x: Bits, a: Bits)
    requires Power(a)
    ensures Number(x, a) < Size(a)
    decreases From(a)
  {
    if a == 0 {
    } else {
      Double(a);
      NumberFits(x, a << 1);
    }
  }

  lemma Lowest(a: Bits)
    requires Power(a) && a != 0
    ensures From(a) == With(From(a << 1), a) && With(From(a), a) == From(a) && With(From(a), From(a << 1)) == From(a)
  {
  }

  lemma Part(x: Bits, y: Bits, m: Bits, n: Bits)
    requires Field(x, m) == Field(y, m) && With(m, n) == m
    ensures Field(x, n) == Field(y, n)
  {
  }

  /** The bits from `a` up determine the number, and the other way round. */
  lemma {:induction false} NumberIff(x: Bits, y: Bits, a: Bits)
    requires Power(a)
    ensures Number(x, a) == Number(y, a) <==> Field(x, From(a)) == Field(y, From(a))
    decreases From(a)
  {
    if a == 0 {
      Part(x, y, 0, 0);
    } else {
      Double(a);
      NumberIff(x, y, a << 1);
      Lowest(a);
      OneBit(x, a);
      OneBit(y, a);
      if Field(x, From(a)) == Field(y, From(a)) {
        Part(x, y, From(a), a);
        Part(x, y, From(a), From(a << 1));
      } else if Number(x, a) == Number(y, a) {
        Union(x, y, From(a << 1), a);
      }
    }
  }

  lemma FlipsLowest(x: Bits, a: Bits)
    requires Power(a) && a != 0
    ensures Field(Plus(x, a), a) == 0 <==> Field(x, a) != 0
  {
  }

  /** Adding to a clear bit sets it. */
  lemma Fills(y: Bits, a: Bits)
    requires Power(a) && a != 0 && Field(y, a) == 0
    ensures Plus(y, a) == With(y, a)
  {
  }

  lemma Below(a: Bits)
    requires Power(a) && a != 0
    ensures Power(a << 1) && Disjoint(a, From(a << 1))
  {
  }

  lemma NoCarry(x: Bits, a: Bits)
    requires Power(a) && a != 0 && Field(x, a) == 0
    ensures Field(Plus(x, a), From(a << 1)) == Field(x, From(a << 1))
  {
    Fills(x, a);
    Below(a);
    WithOther(x, a, From(a << 1));
  }

  lemma Carry(x: Bits, a: Bits)
    requires Power(a) && a != 0 && Field(x, a) != 0
    ensures Field(Plus(x, a), From(a << 1)) == Field(Plus(x, a << 1), From(a << 1))
  {
  }

  /** Adding `a` counts one up, and wraps. */
  lemma {:induction false} NumberNext(x: Bits, a: Bits)
    requires Power(a)
    ensures Number(Plus(x, a), a) == (Number(x, a) + 1) % Size(a)
    decreases From(a)
  {
    if a == 0 {
    } else {
      Double(a);
      FlipsLowest(x, a);
      NumberFits(x, a << 1);
      if Field(x, a) == 0 {
        NextEven(x, a);
      } else {
        NumberNext(x, a << 1);
        NextOdd(x, a);
      }
    }
  }

  lemma NextEven(x: Bits, a: Bits)
    requires Power(a) && a != 0 && Field(x, a) == 0 && Field(Plus(x, a), a) != 0 && Power(a << 1)
    requires Number(x, a << 1) < Size(a << 1)
    ensures Number(Plus(x, a), a) == (Number(x, a) + 1) % Size(a)
  {
    NoCarry(x, a);
    NumberIff(Plus(x, a), x, a << 1);
    CountEven(Number(x, a << 1), Size(a << 1));
  }

  lemma NextOdd(x: Bits, a: Bits)
    requires Power(a) && a != 0 && Field(x, a) != 0 && Field(Plus(x, a), a) == 0 && Power(a << 1)
    requires Number(x, a << 1) < Size(a << 1)
    requires Number(Plus(x, a << 1), a << 1) == (Number(x, a << 1) + 1) % Size(a << 1)
    ensures Number(Plus(x, a), a) == (Number(x, a) + 1) % Size(a)
  {
    Carry(x, a);
    NumberIff(Plus(x, a), Plus(x, a << 1), a << 1);
    CountOdd(Number(x, a << 1), Size(a << 1));
  }

  lemma CountEven(n: nat, size: nat)
    requires n < size
    ensures (2 * n + 1) % (2 * size) == 2 * n + 1
  {
    Numbers.Remainder(0, 2 * n + 1, 2 * size);
  }

  lemma CountOdd(n: nat, size: nat)
    requires n < size
    ensures (2 * n + 2) % (2 * size) == 2 * ((n + 1) % size)
  {
    if n + 1 == size {
      Numbers.Remainder(1, 0, 2 * size);
      Numbers.Remainder(1, 0, size);
    } else {
      Numbers.Remainder(0, 2 * n + 2, 2 * size);
      Numbers.Remainder(0, n + 1, size);
    }
  }

  /** 2^16 numbers from bit 48 up, 2^30 from bit 34 up. */
  lemma Sizes()
    ensures Size(0x1_0000_0000_0000) == 0x1_0000 && Size(0x4_0000_0000) == 0x4000_0000
  {
    FourBits(0x1000_0000_0000_0000);
    FourBits(0x100_0000_0000_0000);
    FourBits(0x10_0000_0000_0000);
    FourBits(0x1_0000_0000_0000);
    FourBits(0x1000_0000_0000);
    FourBits(0x100_0000_0000);
    FourBits(0x10_0000_0000);
    SizeDoubles(0x8_0000_0000, 0x10_0000_0000);
    SizeDoubles(0x4_0000_0000, 0x8_0000_0000);
  }

  lemma FourBits(a: Bits)
    requires Power(a) && (a << 3) != 0
    ensures Power(a << 4) && Size(a) == 16 * Size(a << 4)
  {
    Shift(a);
    SizeDoubles(a, a << 1);
    SizeDoubles(a << 1, a << 2);
    SizeDoubles(a << 2, a << 3);
    SizeDoubles(a << 3, a << 4);
  }

  lemma SizeDoubles(a: Bits, b: Bits)
    requires Power(a) && Power(b) && a != 0 && b == a << 1
    ensures Size(a) == 2 * Size(b)
  {
  }

  lemma Shift(a: Bits)
    requires Power(a) && (a << 3) != 0
    ensures a != 0 && (a << 1) != 0 && (a << 2) != 0
    ensures (a << 1) << 1 == a << 2 && (a << 2) << 1 == a << 3 && (a << 3) << 1 == a << 4
    ensures Power(a << 1) && Power(a << 2) && Power(a << 3) && Power(a << 4)
  {
  }
}
