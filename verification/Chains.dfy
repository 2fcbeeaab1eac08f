/** Intrusive singly linked lists: a heap of `next` fields and the node sequences
    it represents.  Nodes are numbers, 0 is the null pointer. */
module Chains {
  import opened Sequences

  type Node = nat
  const NULL: Node := 0

  /** The `next` field of every node; a node never written to holds NULL. */
  type Heap = map<Node, Node>

  function Next(h: Heap, x: Node): Node {
    if x in h then h[x] else NULL
  }

  function HeadOf(list: seq<Node>): Node {
    if list == [] then NULL else list[0]
  }

  /** The node after position `i` of `list`, NULL after the last one. */
  function Follower(list: seq<Node>, i: nat): Node {
    if i + 1 < |list| then list[i + 1] else NULL
  }

  /** Following `next` from the first node visits exactly `list`, then NULL. */
  ghost predicate Linked(h: Heap, list: seq<Node>) {
    forall i :: 0 <= i < |list| ==> list[i] != NULL && Next(h, list[i]) == Follower(list, i)
  }

  /** Writing the predecessor's `next` takes exactly the successor out of the chain. */
  lemma UnlinkChain(h: Heap, list: seq<Node>, cur: Node, w: Node)
    requires Linked(h, list) && Distinct(list)
    requires cur in list && Next(h, cur) == w && w != NULL
    ensures w in list && w != cur
    ensures Linked(h[cur := Next(h, w)], Without(list, w))
    ensures HeadOf(Without(list, w)) == HeadOf(list)
    ensures cur in Without(list, w)
  {
    var i :| 0 <= i < |list| && list[i] == cur;
    assert list[i + 1] == w by { assert Follower(list, i) == w; }
    WithoutAt(list, i + 1);
    assert Without(list, w)[i] == cur;
    UnlinkAt(h, list, i);
  }

  lemma UnlinkAt(h: Heap, list: seq<Node>, i: nat)
    requires Linked(h, list) && Distinct(list) && i + 1 < |list|
    ensures Linked(h[list[i] := Next(h, list[i + 1])], list[..i + 1] + list[i + 2..])
  {
    var r := list[..i + 1] + list[i + 2..];
    forall k | 0 <= k < |r|
      ensures r[k] != NULL && Next(h[list[i] := Next(h, list[i + 1])], r[k]) == Follower(r, k)
    {
      UnlinkedAt(h, list, i, k);
    }
  }

  lemma UnlinkedAt(h: Heap, list: seq<Node>, i: nat, k: nat)
    requires Linked(h, list) && Distinct(list) && i + 1 < |list| && k + 1 < |list|
    ensures var r := list[..i + 1] + list[i + 2..];
      r[k] != NULL && Next(h[list[i] := Next(h, list[i + 1])], r[k]) == Follower(r, k)
  {
    var r := list[..i + 1] + list[i + 2..];
    if k < i {
      assert r[k] == list[k] && Follower(r, k) == Follower(list, k);
    } else if k == i {
      assert r[k] == list[i] && Follower(r, k) == Follower(list, i + 1);
    } else {
      assert r[k] == list[k + 1] && Follower(r, k) == Follower(list, k + 1);
    }
  }

  /** A write to a node outside the chain is invisible to it. */
  lemma LinkedFrame(h: Heap, list: seq<Node>, x: Node, v: Node)
    requires Linked(h, list) && x !in list
    ensures Linked(h[x := v], list)
  {
    forall i | 0 <= i < |list| ensures list[i] != NULL && Next(h[x := v], list[i]) == Follower(list, i) {
      assert list[i] in list;
    }
  }

  lemma LinkedPush(h: Heap, list: seq<Node>, w: Node)
    requires Linked(h, list) && w != NULL && Next(h, w) == HeadOf(list)
    ensures Linked(h, [w] + list)
  {
    var r := [w] + list;
    forall i | 0 <= i < |r| ensures r[i] != NULL && Next(h, r[i]) == Follower(r, i) {
      if i > 0 {
        assert r[i] == list[i - 1];
        assert Follower(list, i - 1) == Follower(r, i);
      }
    }
  }

  lemma LinkedTail(h: Heap, list: seq<Node>)
    requires Linked(h, list) && list != []
    ensures Linked(h, list[1..]) && Next(h, list[0]) == HeadOf(list[1..])
  {
    var r := list[1..];
    forall i | 0 <= i < |r| ensures r[i] != NULL && Next(h, r[i]) == Follower(r, i) {
      assert r[i] == list[i + 1];
      assert Follower(list, i + 1) == Follower(r, i);
    }
    assert Next(h, list[0]) == Follower(list, 0);
  }
}
