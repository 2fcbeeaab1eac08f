/** What a history of comings and goings says about a list: who is on it and in which
    order. */
module Rosters {
  import opened Sequences

  /** `w` came with entry `i` and did not go before entry `j`. */
  ghost predicate CameAt<X(!new), N(!new)>(
    log: seq<X>, i: nat, j: nat, w: N, comes: (X, N) -> bool, goes: (X, N) -> bool)
    requires j <= |log|
  {
    i < j && comes(log[i], w) && forall m :: i < m < j ==> !goes(log[m], w)
  }

  /** Before entry `j`, `w` has come and not gone since. */
  ghost predicate Present<X(!new), N(!new)>(log: seq<X>, j: nat, w: N, comes: (X, N) -> bool, goes: (X, N) -> bool)
    requires j <= |log|
  {
    exists i: nat :: CameAt(log, i, j, w, comes, goes)
  }

  /** One more than the number of the last entry before `j` with which `w` came, or 0. */
  function LastComing<X(!new), N(!new)>(log: seq<X>, j: nat, w: N, comes: (X, N) -> bool): nat
    requires j <= |log|
  {
    if j == 0 then 0
    else if comes(log[j - 1], w) then j
    else LastComing(log, j - 1, w, comes)
  }

  /** `list` holds exactly those present before entry `j`, the one that came last first. */
  ghost predicate Tells<X(!new), N(!new)>(
    log: seq<X>, j: nat, list: seq<N>, comes: (X, N) -> bool, goes: (X, N) -> bool)
    requires j <= |log|
  {
    && (forall w :: w in list <==> Present(log, j, w, comes, goes))
    && (forall p, q :: 0 <= p < q < |list| ==> LastComing(log, j, list[q], comes) < LastComing(log, j, list[p], comes))
  }

  lemma {:induction false} ComingPast<X(!new), N(!new)>(log: seq<X>, j: nat, w: N, comes: (X, N) -> bool)
    requires j <= |log|
    ensures LastComing(log, j, w, comes) <= j
  {
    if j == 0 {
    } else {
      ComingPast(log, j - 1, w, comes);
    }
  }

  /** How one entry changes who is present. */
  lemma PresentNext<X(!new), N(!new)>(log: seq<X>, j: nat, w: N, comes: (X, N) -> bool, goes: (X, N) -> bool)
    requires j < |log|
    ensures Present(log, j + 1, w, comes, goes) <==>
      comes(log[j], w) || (Present(log, j, w, comes, goes) && !goes(log[j], w))
  {
    if comes(log[j], w) {
      assert CameAt(log, j, j + 1, w, comes, goes);
    } else if Present(log, j + 1, w, comes, goes) {
      var i: nat :| CameAt(log, i, j + 1, w, comes, goes);
      assert CameAt(log, i, j, w, comes, goes);
    } else if Present(log, j, w, comes, goes) && !goes(log[j], w) {
      var i: nat :| CameAt(log, i, j, w, comes, goes);
      assert CameAt(log, i, j + 1, w, comes, goes);
    }
  }

  lemma TellsDistinct<X(!new), N(!new)>(
    log: seq<X>, j: nat, list: seq<N>, comes: (X, N) -> bool, goes: (X, N) -> bool)
    requires j <= |log| && Tells(log, j, list, comes, goes)
    ensures Distinct(list)
  {
    forall p, q | 0 <= p < q < |list| ensures list[p] != list[q] {
      assert LastComing(log, j, list[q], comes) < LastComing(log, j, list[p], comes);
    }
  }

  lemma FirstCameLast<X(!new), N(!new)>(
    log: seq<X>, j: nat, list: seq<N>, comes: (X, N) -> bool, goes: (X, N) -> bool)
    requires j <= |log| && Tells(log, j, list, comes, goes) && list != []
    ensures Present(log, j, list[0], comes, goes)
    ensures forall v :: Present(log, j, v, comes, goes) && v != list[0] ==>
      LastComing(log, j, v, comes) < LastComing(log, j, list[0], comes)
  {
    forall v | Present(log, j, v, comes, goes) && v != list[0]
      ensures LastComing(log, j, v, comes) < LastComing(log, j, list[0], comes)
    {
      var p :| 0 <= p < |list| && list[p] == v;
    }
    assert list[0] in list;
  }

  lemma NobodyAtFirst<X(!new), N(!new)>(log: seq<X>, comes: (X, N) -> bool, goes: (X, N) -> bool)
    ensures Tells(log, 0, [], comes, goes)
  {
  }

  lemma Adds<X(!new), N(!new)>(log: seq<X>, j: nat, list: seq<N>, w: N, comes: (X, N) -> bool, goes: (X, N) -> bool)
    requires j < |log| && Tells(log, j, list, comes, goes) && w !in list
    requires forall v :: (comes(log[j], v) <==> v == w) && !goes(log[j], v)
    ensures Tells(log, j + 1, [w] + list, comes, goes)
  {
    var longer := [w] + list;
    forall v ensures v in longer <==> Present(log, j + 1, v, comes, goes) {
      PresentNext(log, j, v, comes, goes);
    }
    forall p, q | 0 <= p < q < |longer|
      ensures LastComing(log, j + 1, longer[q], comes) < LastComing(log, j + 1, longer[p], comes)
    {
      assert longer[q] == list[q - 1] && longer[q] in list;
      ComingPast(log, j, longer[q], comes);
    }
  }

  lemma Stays<X(!new), N(!new)>(log: seq<X>, j: nat, list: seq<N>, comes: (X, N) -> bool, goes: (X, N) -> bool)
    requires j < |log| && Tells(log, j, list, comes, goes)
    requires forall v :: !comes(log[j], v) && !goes(log[j], v)
    ensures Tells(log, j + 1, list, comes, goes)
  {
    forall v ensures v in list <==> Present(log, j + 1, v, comes, goes) {
      PresentNext(log, j, v, comes, goes);
    }
  }

  lemma Clears<X(!new), N(!new)>(log: seq<X>, j: nat, list: seq<N>, comes: (X, N) -> bool, goes: (X, N) -> bool)
    requires j < |log| && Tells(log, j, list, comes, goes)
    requires forall v :: !comes(log[j], v) && (v in list ==> goes(log[j], v))
    ensures Tells(log, j + 1, [], comes, goes)
  {
    var none: seq<N> := [];
    forall v ensures v in none <==> Present(log, j + 1, v, comes, goes) {
      PresentNext(log, j, v, comes, goes);
    }
  }

  lemma Drops<X(!new), N(!new)>(log: seq<X>, j: nat, list: seq<N>, i: nat, comes: (X, N) -> bool, goes: (X, N) -> bool)
    requires j < |log| && Tells(log, j, list, comes, goes) && i < |list|
    requires forall v :: !comes(log[j], v) && (goes(log[j], v) <==> v == list[i])
    ensures Tells(log, j + 1, list[..i] + list[i + 1..], comes, goes)
  {
    TellsDistinct(log, j, list, comes, goes);
    var rest := list[..i] + list[i + 1..];
    forall v ensures v in rest <==> v in list && v != list[i] {
      if v in list && v != list[i] {
        var k :| 0 <= k < |list| && list[k] == v;
        assert rest[if k < i then k else k - 1] == v;
      }
    }
    forall v ensures v in rest <==> Present(log, j + 1, v, comes, goes) {
      PresentNext(log, j, v, comes, goes);
    }
  }

  /** `up` happened with entry `i`, and `down` not between it and entry `j`. */
  ghost predicate UpAt<X(!new)>(log: seq<X>, i: nat, j: nat, up: X -> bool, down: X -> bool)
    requires j <= |log|
  {
    i < j && up(log[i]) && forall m :: i < m < j ==> !down(log[m])
  }

  /** Before entry `j`: it was up at the start and never went down, or went up and not down
      since. */
  ghost predicate IsUp<X(!new)>(start: bool, log: seq<X>, j: nat, up: X -> bool, down: X -> bool)
    requires j <= |log|
  {
    || (start && forall m :: 0 <= m < j ==> !down(log[m]))
    || exists i: nat :: UpAt(log, i, j, up, down)
  }

  lemma UpNext<X(!new)>(start: bool, log: seq<X>, j: nat, up: X -> bool, down: X -> bool)
    requires j < |log|
    ensures IsUp(start, log, j + 1, up, down) <==>
      up(log[j]) || (IsUp(start, log, j, up, down) && !down(log[j]))
  {
    if up(log[j]) {
      assert UpAt(log, j, j + 1, up, down);
    } else {
      var n := j + 1;
      if exists i: nat :: UpAt(log, i, n, up, down) {
        var i: nat :| UpAt(log, i, n, up, down);
        assert UpAt(log, i, j, up, down);
      } else if exists i: nat :: UpAt(log, i, j, up, down) {
        var i: nat :| UpAt(log, i, j, up, down);
        assert !down(log[j]) ==> UpAt(log, i, n, up, down);
      }
    }
  }
}
