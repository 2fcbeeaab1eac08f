/** Remainders and tags. */
module Numbers {
  function Max0(n: int): nat {
    if n > 0 then n else 0
  }

  lemma MultipleGrows(k: int, m: nat)
    requires k >= 1
    ensures k * m >= m
  {
  }

  /** The quotient and remainder of a number are unique. */
  lemma Remainder(q: int, r: nat, m: nat)
    requires r < m
    ensures (q * m + r) % m == r
  {
    var x := q * m + r;
    var k := x / m - q;
    assert k * m == (x / m) * m - q * m;
    assert x == (x / m) * m + x % m;
    if k >= 1 {
      MultipleGrows(k, m);
    } else if k <= -1 {
      MultipleGrows(-k, m);
    }
  }

  /** Two tags that agree modulo `m` belong to the same version when less than one
      tag window separates them. */
  lemma SameVersion(base: int, seen: int, now: int, m: nat)
    requires m > 0 && base <= seen <= now && now - seen < m
    requires (seen - base) % m == (now - base) % m
    ensures seen == now
  {
    var a, b := seen - base, now - base;
    var k := b / m - a / m;
    assert k * m == (b / m) * m - (a / m) * m;
    assert a == (a / m) * m + a % m && b == (b / m) * m + b % m;
    if k >= 1 {
      MultipleGrows(k, m);
    } else if k <= -1 {
      MultipleGrows(-k, m);
    }
  }

  lemma TagAdvances(a: int, m: nat)
    requires m > 0
    ensures (a % m + 1) % m == (a + 1) % m
  {
    var q := a / m;
    assert a == q * m + a % m;
    if a % m + 1 == m {
      assert a + 1 == (q + 1) * m + 0;
      Remainder(q + 1, 0, m);
      Remainder(1, 0, m);
    } else {
      assert a + 1 == q * m + (a % m + 1);
      Remainder(q, a % m + 1, m);
      Remainder(0, a % m + 1, m);
    }
  }
}
