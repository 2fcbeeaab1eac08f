/** Sequences without duplicates, and counting in them. */
module Sequences {
  ghost predicate Distinct<T>(list: seq<T>) {
    forall i, j :: 0 <= i < j < |list| ==> list[i] != list[j]
  }

  function Tail<T>(list: seq<T>): seq<T> {
    if list == [] then [] else list[1..]
  }

  /** `list` without its first occurrence of `w`. */
  function Without<T(==)>(list: seq<T>, w: T): seq<T> {
    if list == [] then []
    else if list[0] == w then list[1..]
    else [list[0]] + Without(list[1..], w)
  }

  lemma {:induction false} WithoutAt<T>(list: seq<T>, i: nat)
    requires i < |list|
    requires forall j :: 0 <= j < i ==> list[j] != list[i]
    ensures Without(list, list[i]) == list[..i] + list[i + 1..]
  {
    if i == 0 {
    } else {
      var rest := list[1..];
      assert rest[i - 1] == list[i];
      forall j | 0 <= j < i - 1 ensures rest[j] != rest[i - 1] {
        assert rest[j] == list[j + 1];
      }
      WithoutAt(rest, i - 1);
      assert list[..i] + list[i + 1..] == [list[0]] + (rest[..i - 1] + rest[i..]);
    }
  }

  lemma WithoutDistinct<T>(list: seq<T>, w: T)
    requires Distinct(list) && w in list
    ensures Distinct(Without(list, w))
    ensures |Without(list, w)| == |list| - 1
    ensures forall x :: x in Without(list, w) <==> x in list && x != w
  {
    var i :| 0 <= i < |list| && list[i] == w;
    WithoutAt(list, i);
    var r := Without(list, w);
    forall x | x in list && x != w ensures x in r {
      var k :| 0 <= k < |list| && list[k] == x;
      assert r[if k < i then k else k - 1] == x;
    }
  }

  lemma {:induction false} WithoutKeeps<T>(list: seq<T>, w: T, x: T)
    requires x in list && x != w
    ensures x in Without(list, w)
  {
    if list[0] != w && list[0] != x {
      WithoutKeeps(list[1..], w, x);
    }
  }

  lemma {:induction false} WithoutAbsent<T>(list: seq<T>, w: T)
    requires w !in list
    ensures Without(list, w) == list
  {
    if list == [] {
    } else {
      WithoutAbsent(list[1..], w);
    }
  }

  lemma TailMembers<T>(list: seq<T>)
    requires Distinct(list) && list != []
    ensures Distinct(list[1..])
    ensures forall x :: x in list[1..] <==> x in list && x != list[0]
  {
    forall x | x in list && x != list[0] ensures x in list[1..] {
      var i :| 0 <= i < |list| && list[i] == x;
      assert list[1..][i - 1] == x;
    }
  }

  /** Two sets that agree but for `t`. */
  lemma SizeMoves<T>(before: set<T>, after: set<T>, t: T)
    requires before - {t} == after - {t}
    ensures |after| == |before| - (if t in before then 1 else 0) + (if t in after then 1 else 0)
  {
    assert before == (before - {t}) + if t in before then {t} else {};
    assert after == (after - {t}) + if t in after then {t} else {};
  }

  lemma ConcatCount<T>(a: seq<T>, b: seq<T>, x: T)
    ensures multiset(a + b)[x] == multiset(a)[x] + multiset(b)[x]
  {
  }

  lemma LastCount<T>(list: seq<T>, x: T)
    requires list != []
    ensures var n := |list| - 1;
      multiset(list)[x] == multiset(list[..n])[x] + if list[n] == x then 1 else 0
  {
    var n := |list| - 1;
    assert list == list[..n] + [list[n]];
  }

  /** Replacing one element changes the count of `x` by what went and what came. */
  lemma ReplaceCount<T>(list: seq<T>, i: nat, v: T, x: T)
    requires i < |list|
    ensures multiset(list[i := v])[x] ==
      multiset(list)[x] - (if list[i] == x then 1 else 0) + (if v == x then 1 else 0)
  {
    assert list[i] in multiset(list);
  }

  function Members<T>(list: seq<T>): set<T> {
    set x | x in list
  }

  function Upto(n: nat): set<nat> {
    if n == 0 then {} else Upto(n - 1) + {n - 1}
  }

  lemma {:induction false} UptoSize(n: nat)
    ensures |Upto(n)| == n && forall k: nat :: k in Upto(n) <==> k < n
  {
    if n == 0 {
    } else {
      UptoSize(n - 1);
    }
  }

  lemma {:induction false} MembersSize<T>(list: seq<T>)
    requires Distinct(list)
    ensures |Members(list)| == |list|
  {
    if list == [] {
    } else {
      MembersSize(list[1..]);
      assert list == [list[0]] + list[1..];
      assert Members(list) == {list[0]} + Members(list[1..]);
    }
  }

  lemma {:induction false} SubsetSize<T>(a: set<T>, b: set<T>)
    requires a <= b
    ensures |a| <= |b|
  {
    if a == {} {
    } else {
      var x :| x in a;
      SubsetSize(a - {x}, b - {x});
    }
  }

  /** Numbers below `n` without duplicates are at most `n`. */
  lemma Few(list: seq<nat>, n: nat)
    requires Distinct(list) && forall k :: 0 <= k < |list| ==> list[k] < n
    ensures |list| <= n
  {
    MembersSize(list);
    UptoSize(n);
    SubsetSize(Members(list), Upto(n));
  }
}
