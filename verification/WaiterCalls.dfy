/** Event, Mutex and Semaphore as objects over Waiter objects: what one call does from
    start to end when no other call runs at the same time.  The interleaved steps are in
    WaiterProtocol. */
module WaiterCalls {
  import opened ObjectChains
  import opened Sequences
  import opened WaiterUtility

  /** The value of the packed word. */
  datatype Head = Head(ptr: Node?<()>, user: bool, lock: bool, tag: nat)

  function SetPointer(head: Head, ptr: Node?<()>): Head {
    head.(ptr := ptr)
  }

  class WaiterList {
    const tags: nat
    var word: Head
    ghost var list: seq<Waiter>

    ghost predicate Valid()
      reads this, list
    {
      tags > 0 && !word.lock && word.tag < tags && Chained(word.ptr, list)
    }

    constructor (tags: nat, user: bool)
      requires tags > 0
      ensures Valid() && list == [] && word == Head(null, user, false, 0)
    {
      this.tags := tags;
      word := Head(null, user, false, 0);
      list := [];
    }

    /** `head` plus ABA_ADDEND. */
    function Bump(head: Head): Head
      requires tags > 0
    {
      head.(tag := (head.tag + 1) % tags)
    }

    /** Returns the value the word had. */
    method CompareAndSwap(expected: Head, desired: Head) returns (ok: bool, seen: Head)
      modifies `word
      ensures seen == old(word) && (ok <==> old(word) == expected)
      ensures word == if ok then desired else old(word)
    {
      seen := word;
      ok := word == expected;
      if ok {
        word := desired;
      }
    }

    /** Ends the stretch in which this thread alone may change the chain: the list is what
        the chain from the pointer now is, so the whole list is valid for others again. */
    method Unlock()
      requires tags > 0 && word.tag < tags && Chained(word.ptr, list)
      modifies `word
      ensures Valid() && word == old(word).(lock := false)
    {
      word := word.(lock := false);
    }

    /** Takes `waiter` out, and tells whether it was there. */
    method RemoveWaiter(waiter: Waiter) returns (removed: bool)
      requires Valid()
      modifies this, list
      ensures Valid()
      ensures removed <==> waiter in old(list)
      ensures list == Without(old(list), waiter)
      ensures word.user == old(word.user) && waiter.next == old(waiter.next)
      ensures old(list) == [] ==> word == old(word)
    {
      removed := false;
      var head := word;
      var done := false;
      while !done
        invariant done ==> Valid() && (removed <==> waiter in old(list)) && list == Without(old(list), waiter)
        invariant word.user == old(word.user) && waiter.next == old(waiter.next)
        invariant old(list) == [] ==> word == old(word)
        invariant !done ==> head == word && list == old(list) && Valid() && !removed
        decreases !done
      {
        if head.ptr == null {
          return false;
        }
        if head.lock {
          head := word;
        } else {
          var headPtr := head.ptr;
          var ok;
          if headPtr == waiter {
            Popped(list);
            ok, head := CompareAndSwap(head, Bump(SetPointer(head, headPtr.next)));
            if ok {
              list := list[1..];
              done, removed := true, true;
            }
          } else {
            ok, head := CompareAndSwap(head, Bump(head.(lock := true)));
            if ok {
              removed := RemoveWaiterFromListNotAtHead(headPtr, waiter, list);
              list := Without(list, waiter);
              Unlock();
              done := true;
            }
          }
        }
      }
    }

    /** Puts `waiter` at the front: the loop shared by the three AddWaiter functions. */
    method Push(waiter: Waiter, expected: Head)
      requires Valid() && waiter !in list && expected == word
      modifies this, waiter
      ensures Valid() && list == [waiter] + old(list) && word.user == old(word.user)
    {
      var head := expected;
      var done := false;
      while !done
        invariant !done ==> head == word && list == old(list) && Valid() && word.user == old(word.user)
        invariant done ==> Valid() && list == [waiter] + old(list) && word.user == old(word.user)
        decreases !done
      {
        waiter.next := head.ptr;
        var ok;
        ok, head := CompareAndSwap(head, Bump(SetPointer(head, waiter)));
        if ok {
          Pushed(waiter, list);
          list := [waiter] + list;
          done := true;
        }
      }
    }

    /** Takes the front waiter off: the loop shared by Unlock and Post. */
    method Pop(expected: Head) returns (waiter: Waiter)
      requires Valid() && list != [] && expected == word
      modifies this
      ensures Valid() && [waiter] + list == old(list) && word.user == old(word.user)
    {
      var head := expected;
      waiter := word.ptr;
      var done := false;
      while !done
        invariant !done ==> head == word && list == old(list) && Valid() && waiter == word.ptr
        invariant done ==> Valid() && [waiter] + list == old(list)
        invariant word.user == old(word.user)
        decreases !done
      {
        if head.lock {
          head := word;
        } else {
          var headPtr := head.ptr;
          Popped(list);
          var ok;
          ok, head := CompareAndSwap(head, Bump(SetPointer(head, headPtr.next)));
          if ok {
            list := list[1..];
            done := true;
          }
        }
      }
    }
  }

  class Event {
    const waiters: WaiterList
    const callbacks: Callbacks

    /** A set event has no waiters. */
    ghost predicate Valid()
      reads this, waiters, waiters.list
    {
      waiters.Valid() && (waiters.word.user ==> waiters.list == [])
    }

    constructor (tags: nat, callbacks: Callbacks, initialState: bool)
      requires tags > 0
      ensures Valid() && fresh(waiters) && this.callbacks == callbacks
      ensures waiters.list == [] && waiters.word.user == initialState
    {
      waiters := new WaiterList(tags, initialState);
      this.callbacks := callbacks;
    }

    method AddWaiter(waiter: Waiter) returns (added: bool)
      requires Valid() && waiter !in waiters.list
      modifies waiters, waiter
      ensures Valid() && waiters.word.user == old(waiters.word.user)
      ensures added <==> !old(waiters.word.user)
      ensures waiters.list == (if added then [waiter] else []) + old(waiters.list)
    {
      var head := waiters.word;
      if head.user {
        return false;
      }
      waiters.Push(waiter, head);
      return true;
    }

    method RemoveWaiter(waiter: Waiter) returns (removed: bool)
      requires Valid()
      modifies waiters, waiters.list
      ensures Valid() && waiters.word.user == old(waiters.word.user)
      ensures removed <==> waiter in old(waiters.list)
      ensures waiters.list == Without(old(waiters.list), waiter)
    {
      removed := waiters.RemoveWaiter(waiter);
    }

    /** Sets the event and notifies every waiter, newest first. */
    method Set()
      requires Valid()
      modifies waiters, waiters.list, callbacks
      ensures Valid() && waiters.word.user && waiters.list == []
      ensures callbacks.notified == old(callbacks.notified) + old(waiters.list)
    {
      var head := waiters.word;
      var done := false;
      while !done
        invariant Valid() && (done ==> waiters.word.user)
        invariant !done ==> head == waiters.word && waiters.list == old(waiters.list)
        invariant callbacks.notified == old(callbacks.notified) + if done then old(waiters.list) else []
        decreases !done
      {
        if head.user {
          return;
        }
        if !head.lock {
          ghost var detached := waiters.list;
          var ok;
          if head.ptr == null {
            ok, head := waiters.CompareAndSwap(head, waiters.Bump(head.(user := true)));
            done := ok;
          } else {
            var chain := head.ptr;
            var lockedHead := waiters.Bump(Head(null, true, true, head.tag));
            ok, head := waiters.CompareAndSwap(head, lockedHead);
            if ok {
              waiters.list := [];
              NotifyAllWaiters(chain, callbacks, detached);
              waiters.Unlock();
              done := true;
            }
          }
        }
      }
    }

    method Reset()
      requires Valid()
      modifies waiters`word
      ensures Valid() && waiters.word == old(waiters.word).(user := false)
    {
      waiters.word := waiters.word.(user := false);
    }

    method IsSet() returns (b: bool)
      requires Valid()
      ensures b <==> waiters.word.user
      ensures b ==> waiters.list == []
    {
      b := waiters.word.user;
    }
  }

  class Mutex {
    const waiters: WaiterList
    const callbacks: Callbacks
    const spinCount: nat

    /** Free means the whole word is the free word. */
    ghost predicate Valid()
      reads this, waiters, waiters.list
    {
      waiters.Valid() && (waiters.word.user ==> waiters.word == FREE)
    }

    ghost predicate Locked()
      reads this, waiters
    {
      !waiters.word.user
    }

    constructor (tags: nat, callbacks: Callbacks, spinCount: nat)
      requires tags > 0
      ensures Valid() && !Locked() && fresh(waiters) && waiters.list == [] && this.callbacks == callbacks
    {
      waiters := new WaiterList(tags, true);
      this.callbacks := callbacks;
      this.spinCount := spinCount;
    }

    /** Lock up to the point where it would block in WaitFor. */
    method Lock() returns (acquired: bool)
      requires Valid()
      modifies waiters`word
      ensures Valid() && Locked() && (acquired <==> old(!Locked())) && waiters.list == old(waiters.list)
    {
      var head;
      acquired, head := waiters.CompareAndSwap(FREE, LOCKED);
      if acquired {
        return;
      }
      acquired := Spin();
    }

    /** The spin loop of Lock. */
    method Spin() returns (acquired: bool)
      requires Valid()
      modifies waiters`word
      ensures Valid() && waiters.list == old(waiters.list)
      ensures acquired <==> old(!Locked()) && spinCount > 0
      ensures if acquired then Locked() else waiters.word == old(waiters.word)
    {
      acquired := false;
      var spinLeft := spinCount;
      while spinLeft > 0
        invariant waiters.word == old(waiters.word) && !acquired && spinLeft <= spinCount
        invariant spinLeft < spinCount ==> Locked()
      {
        spinLeft := spinLeft - 1;
        var head := waiters.word;
        if head == FREE {
          acquired, head := waiters.CompareAndSwap(head, LOCKED);
          if acquired {
            return;
          }
        }
      }
    }

    /** Hands the mutex to the newest waiter, or frees it when there is none. */
    method Unlock()
      requires Valid() && Locked()
      modifies waiters, waiters.list, callbacks
      ensures Valid()
      ensures !Locked() <==> old(waiters.list) == []
      ensures old(waiters.list) == [] ==> waiters.list == [] && callbacks.notified == old(callbacks.notified)
      ensures old(waiters.list) != [] ==>
        && waiters.list == old(waiters.list)[1..]
        && callbacks.notified == old(callbacks.notified) + [old(waiters.list)[0]]
    {
      var ok, head := waiters.CompareAndSwap(LOCKED, FREE);
      if ok {
        return;
      }
      if head.ptr == null {
        ok, head := waiters.CompareAndSwap(head, FREE);
      } else {
        var headPtr := waiters.Pop(head);
        callbacks.Notify(headPtr, {});
      }
    }

    method IsLocked() returns (b: bool)
      requires Valid()
      ensures b <==> Locked()
    {
      b := waiters.word != FREE;
    }

    /** Takes the mutex and returns false if it is free, else queues `waiter`. */
    method AddWaiter(waiter: Waiter) returns (added: bool)
      requires Valid() && waiter !in waiters.list
      modifies waiters, waiter
      ensures Valid() && Locked() && (added <==> old(Locked()))
      ensures waiters.list == (if added then [waiter] else []) + old(waiters.list)
    {
      var ok, head := waiters.CompareAndSwap(FREE, LOCKED);
      if ok {
        return false;
      }
      waiters.Push(waiter, head);
      return true;
    }

    method RemoveWaiter(waiter: Waiter) returns (removed: bool)
      requires Valid()
      modifies waiters, waiters.list
      ensures Valid() && waiters.word.user == old(waiters.word.user)
      ensures removed <==> waiter in old(waiters.list)
      ensures waiters.list == Without(old(waiters.list), waiter)
    {
      removed := waiters.RemoveWaiter(waiter);
    }
  }

  const FREE: Head := Head(null, true, false, 0)
  const LOCKED: Head := Head(null, false, false, 0)

  class Semaphore {
    const waiters: WaiterList
    const callbacks: Callbacks
    var mCount: int

    /** As long as nobody calls RemoveWaiter, a negative count is exactly the number of
        waiters and a positive one means there are none. */
    ghost predicate Valid()
      reads this, waiters, waiters.list
    {
      waiters.Valid() && |waiters.list| == if mCount < 0 then -mCount else 0
    }

    constructor (tags: nat, callbacks: Callbacks, initialCount: nat)
      requires tags > 0
      ensures Valid() && fresh(waiters) && this.callbacks == callbacks && mCount == initialCount
    {
      waiters := new WaiterList(tags, false);
      this.callbacks := callbacks;
      mCount := initialCount;
    }

    /** Raises the count, or passes the permit to the newest waiter. */
    method Post()
      requires Valid()
      modifies this, waiters, waiters.list, callbacks
      ensures Valid() && mCount == old(mCount) + 1
      ensures old(mCount) >= 0 ==> callbacks.notified == old(callbacks.notified) && waiters.list == []
      ensures old(mCount) < 0 ==>
        && [First(old(waiters.list))] + waiters.list == old(waiters.list)
        && callbacks.notified == old(callbacks.notified) + [old(waiters.list)[0]]
    {
      var was := mCount;
      mCount := mCount + 1;
      if was < 0 {
        var head := waiters.word;
        if head.ptr == null {
          return;
        }
        var headPtr := waiters.Pop(head);
        callbacks.Notify(headPtr, {});
      }
    }

    /** Takes a permit and returns false if there is one, else queues `waiter`. */
    method AddWaiter(waiter: Waiter) returns (added: bool)
      requires Valid() && waiter !in waiters.list
      modifies this, waiters, waiter
      ensures Valid() && mCount == old(mCount) - 1
      ensures added <==> old(mCount) <= 0
      ensures waiters.list == (if added then [waiter] else []) + old(waiters.list)
    {
      var was := mCount;
      mCount := mCount - 1;
      if was > 0 {
        return false;
      }
      waiters.Push(waiter, waiters.word);
      return true;
    }

    /** RemoveWaiter leaves the count alone: a true result makes it too low by one. */
    method RemoveWaiter(waiter: Waiter) returns (removed: bool)
      requires Valid()
      modifies waiters, waiters.list
      ensures waiters.Valid() && waiters.list == Without(old(waiters.list), waiter)
      ensures removed <==> waiter in old(waiters.list)
      ensures Valid() <==> !removed
    {
      removed := waiters.RemoveWaiter(waiter);
      if removed {
        WithoutDistinct(old(waiters.list), waiter);
      } else {
        WithoutAbsent(old(waiters.list), waiter);
      }
    }
  }
}
