/** Singly linked chains of node objects. */
module ObjectChains {
  import opened Sequences
  import opened Storages

  class Node<T> {
    var next: Node?<T>
    var storage: Storage<T>

    constructor ()
    {
      next := null;
      storage := Vacant;
    }
  }

  ghost function First<T(!new)>(items: seq<Node<T>>): Node?<T> {
    if items == [] then null else items[0]
  }

  ghost function After<T(!new)>(items: seq<Node<T>>, i: nat): Node?<T> {
    if i + 1 < |items| then items[i + 1] else null
  }

  /** The chain from `head` is exactly `items`. */
  ghost predicate Chained<T(!new)>(head: Node?<T>, items: seq<Node<T>>)
    reads items
  {
    && head == First(items)
    && Distinct(items)
    && forall i :: 0 <= i < |items| ==> items[i].next == After(items, i)
  }

  lemma Pushed<T(!new)>(node: Node<T>, items: seq<Node<T>>)
    requires node !in items && Chained(node.next, items)
    ensures Chained(node, [node] + items)
  {
    var r := [node] + items;
    forall k | 0 <= k < |r| ensures r[k].next == After(r, k) {
      if k > 0 {
        assert r[k] == items[k - 1];
      }
    }
  }

  lemma Popped<T(!new)>(items: seq<Node<T>>)
    requires items != [] && Chained(items[0], items)
    ensures Chained(items[0].next, items[1..])
  {
    var r := items[1..];
    forall k | 0 <= k < |r| ensures r[k].next == After(r, k) {
      assert r[k] == items[k + 1];
    }
    assert items[0].next == After(items, 0);
  }
}
