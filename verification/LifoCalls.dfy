/** MPMCLifoList and MPMCLifoQueue as objects: what one call does when no other call runs
    at the same time.  The interleaved steps are in LifoLists. */
module LifoCalls {
  import opened ObjectChains
  import opened Storages

  datatype Option<T> = None | Some(value: T)

  datatype Root<T> = Root(ptr: Node?<T>, tag: nat)

  class MPMCLifoList<T(!new)> {
    const tags: nat
    var root: Root<T>
    ghost var items: seq<Node<T>>

    ghost predicate Valid()
      reads this, items
    {
      tags > 0 && root.tag < tags && Chained(root.ptr, items)
    }

    constructor (tags: nat)
      requires tags > 0
      ensures Valid() && items == []
    {
      this.tags := tags;
      root := Root(null, 0);
      items := [];
    }

    /** Returns the value the root had. */
    method CompareAndSwap(expected: Root<T>, desired: Root<T>) returns (ok: bool, seen: Root<T>)
      modifies `root
      ensures seen == old(root) && (ok <==> old(root) == expected)
      ensures root == if ok then desired else old(root)
    {
      seen := root;
      ok := root == expected;
      if ok {
        root := desired;
      }
    }

    method Push(node: Node<T>)
      requires Valid() && node !in items
      modifies this, node`next
      ensures Valid() && items == [node] + old(items)
    {
      var oldRoot := root;
      var done := false;
      while !done
        invariant !done ==> oldRoot == root && items == old(items) && Valid()
        invariant done ==> items == [node] + old(items) && Valid()
        decreases !done
      {
        node.next := oldRoot.ptr;
        var ok;
        ok, oldRoot := CompareAndSwap(oldRoot, Root(node, (oldRoot.tag + 1) % tags));
        if ok {
          Pushed(node, items);
          items := [node] + items;
          done := true;
        }
      }
    }

    method Pop() returns (node: Node?<T>)
      requires Valid()
      modifies this
      ensures Valid()
      ensures node == null <==> old(items) == []
      ensures if node == null then items == [] else [node] + items == old(items)
    {
      var oldRoot := root;
      node := null;
      while node == null
        invariant node == null ==> oldRoot == root && items == old(items) && Valid()
        invariant node != null ==> Valid() && [node] + items == old(items)
        decreases node == null
      {
        var oldRootPtr := oldRoot.ptr;
        if oldRootPtr == null {
          return null;
        }
        Popped(items);
        var ok;
        ok, oldRoot := CompareAndSwap(oldRoot, Root(oldRootPtr.next, (oldRoot.tag + 1) % tags));
        if ok {
          items := items[1..];
          node := oldRootPtr;
        }
      }
    }
  }

  /** The values stored in `nodes`, in order. */
  ghost function ValuesOf<T>(nodes: seq<Node<T>>): seq<T>
    reads nodes
    requires forall n :: n in nodes ==> n.storage.Full?
  {
    seq(|nodes|, i requires 0 <= i < |nodes| reads nodes
               requires nodes[i].storage.Full? => nodes[i].storage.value)
  }

  class MPMCLifoQueue<T(!new)> {
    const queueNodes: MPMCLifoList<T>
    const freeNodes: MPMCLifoList<T>

    /** No node is on both lists; those queued hold a value, the spare ones none. */
    ghost predicate Valid()
      reads this, queueNodes, freeNodes, queueNodes.items, freeNodes.items
    {
      && queueNodes != freeNodes && queueNodes.Valid() && freeNodes.Valid()
      && (forall n :: n in queueNodes.items ==> n.storage.Full? && n !in freeNodes.items)
      && (forall n :: n in freeNodes.items ==> n.storage.Vacant?)
    }

    ghost function Contents(): seq<T>
      requires Valid()
      reads this, queueNodes, freeNodes, queueNodes.items, freeNodes.items
    {
      ValuesOf(queueNodes.items)
    }

    constructor (tags: nat)
      requires tags > 0
      ensures Valid() && Contents() == [] && fresh(queueNodes) && fresh(freeNodes)
    {
      queueNodes := new MPMCLifoList<T>(tags);
      freeNodes := new MPMCLifoList<T>(tags);
    }

    /** A spare node if there is one, else a new one; it is on neither list. */
    method Fetch() returns (node: Node<T>)
      requires Valid()
      modifies freeNodes
      ensures Valid() && Contents() == old(Contents()) && queueNodes.items == old(queueNodes.items)
      ensures node !in queueNodes.items && node !in freeNodes.items
      ensures fresh(node) <==> old(freeNodes.items) == []
      ensures old(freeNodes.items) == [] ==> freeNodes.items == []
      ensures old(freeNodes.items) != [] ==> [node] + freeNodes.items == old(freeNodes.items)
    {
      var spare := freeNodes.Pop();
      if spare == null {
        node := new Node<T>();
      } else {
        node := spare;
        assert node == old(freeNodes.items)[0];
        assert freeNodes.items == old(freeNodes.items)[1..];
      }
    }

    /** Reuses a spare node if there is one. */
    method Push(value: T)
      requires Valid()
      modifies queueNodes, freeNodes, freeNodes.items
      ensures Valid() && Contents() == [value] + old(Contents())
      ensures fresh(queueNodes.items[0]) <==> old(freeNodes.items) == []
    {
      var node := Fetch();
      node.storage := Full(value);
      node.next := null;
      assert Valid() && Contents() == old(Contents());
      Enqueue(node);
    }

    /** Puts a filled node that is on neither list at the front of the queue. */
    method Enqueue(node: Node<T>)
      requires Valid() && node.storage.Full?
      requires node !in queueNodes.items && node !in freeNodes.items
      modifies queueNodes, node`next
      ensures Valid() && Contents() == [node.storage.value] + old(Contents())
      ensures queueNodes.items == [node] + old(queueNodes.items) && freeNodes.items == old(freeNodes.items)
    {
      queueNodes.Push(node);
      assert queueNodes.items[1..] == old(queueNodes.items);
    }

    /** Returns the newest value, or none if the queue is empty. */
    method TryPop() returns (value: Option<T>)
      requires Valid()
      modifies queueNodes, freeNodes, queueNodes.items
      ensures Valid()
      ensures value.None? <==> old(Contents()) == []
      ensures match value case None => Contents() == [] case Some(v) => [v] + Contents() == old(Contents())
    {
      var node := queueNodes.Pop();
      if node == null {
        return None;
      }
      assert node == old(queueNodes.items)[0];
      assert queueNodes.items == old(queueNodes.items)[1..];
      value := Some(node.storage.value);
      node.storage := Vacant;
      freeNodes.Push(node);
    }
  }
}
