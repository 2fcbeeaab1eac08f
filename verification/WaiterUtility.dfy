/** The walks over a chain of Waiter objects. */
module WaiterUtility {
  import opened ObjectChains
  import opened Sequences

  /** A waiter is a list node; what its callback does is not modelled. */
  type Waiter = Node<()>

  /** The order in which waiters were notified. */
  class Callbacks {
    ghost var notified: seq<Waiter>

    constructor ()
      ensures notified == []
    {
      notified := [];
    }

    /** Runs the callback of `w`.  The waiter is its own again from here on: the callback
        may free it or put it into another list, and so may those of `done`, the waiters
        notified before it. */
    method Notify(w: Waiter, ghost done: set<Waiter>)
      modifies this, w, done
      ensures notified == old(notified) + [w]
    {
      w.next := *;
      notified := notified + [w];
    }
  }

  /** Removes `waiter`, which is not the head, if it is in the list, by one write to its
      predecessor. */
  method RemoveWaiterFromListNotAtHead(head: Waiter, waiter: Waiter, ghost list: seq<Waiter>) returns (removed: bool)
    requires Chained(head, list) && head != waiter
    modifies list
    ensures removed <==> waiter in list
    ensures Chained(head, Without(list, waiter))
    ensures forall w :: w in list ==>
      w.next == if removed && old(w.next) == waiter then old(waiter.next) else old(w.next)
  {
    var current := head;
    ghost var i := 0;
    while current.next != null
      invariant i < |list| && list[i] == current
      invariant forall k :: 0 <= k <= i ==> list[k] != waiter
      invariant forall w :: w in list ==> w.next == old(w.next)
      decreases |list| - i
    {
      assert current.next == After(list, i);
      if current.next == waiter {
        assert list[i + 1] == waiter;
        WithoutAt(list, i + 1);
        current.next := waiter.next;
        Unlinked(list, i);
        return true;
      }
      current := current.next;
      i := i + 1;
    }
    assert After(list, i) == null;
    WithoutAbsent(list, waiter);
    return false;
  }

  lemma Unlinked(list: seq<Waiter>, i: nat)
    requires Distinct(list) && i + 1 < |list|
    requires forall k :: 0 <= k < |list| ==> list[k].next == if k == i then After(list, i + 1) else After(list, k)
    ensures Chained(First(list), list[..i + 1] + list[i + 2..])
  {
    var r := list[..i + 1] + list[i + 2..];
    forall k | 0 <= k < |r| ensures r[k].next == After(r, k) {
      assert r[k] == list[if k <= i then k else k + 1];
    }
  }

  /** Removes `waiter` if it is in the list; returns the new head. */
  method RemoveWaiterFromList(head: Waiter, waiter: Waiter, ghost list: seq<Waiter>) returns (newHead: Node?<()>)
    requires Chained(head, list)
    modifies list
    ensures Chained(newHead, Without(list, waiter))
  {
    if head == waiter {
      Popped(list);
      return head.next;
    }
    var _ := RemoveWaiterFromListNotAtHead(head, waiter, list);
    return head;
  }

  /** Notifies every waiter once, in list order, although each may be freed or reused as
      soon as its callback runs. */
  method NotifyAllWaiters(head: Node?<()>, callbacks: Callbacks, ghost list: seq<Waiter>)
    requires Chained(head, list)
    modifies callbacks, list
    ensures callbacks.notified == old(callbacks.notified) + list
  {
    var current := head;
    ghost var i := 0;
    while current != null
      invariant i <= |list| && current == First(list[i..])
      invariant callbacks.notified == old(callbacks.notified) + list[..i]
      invariant forall k :: i <= k < |list| ==> list[k].next == After(list, k)
      decreases |list| - i
    {
      var next := current.next;
      callbacks.Notify(current, set w | w in list[..i]);
      assert list[..i + 1] == list[..i] + [list[i]];
      current := next;
      i := i + 1;
    }
    assert list[..i] == list;
  }
}
