/** Every answer in a legal history follows from the actions before it: who is on the
    list and in which order, whether the event is set, who has the mutex, what the count
    is.  Nothing here speaks of the abstract state. */
module WaiterLaws {
  import opened Sequences
  import opened Chains
  import opened Rosters
  import opened WaiterSpec
  import opened WaiterHistories

  // ---- The list ----

  predicate Joins(x: Action, w: Node) { x.Push? && x.w == w }

  /** A RemoveWaiter or a notifier takes `w` out. */
  predicate Parts(x: Action, w: Node) {
    ((x.Remove? || x.Grant?) && x.w == w) || (x.TakeAll? && w in x.ws)
  }

  /** `w` was registered and has not been taken out. */
  ghost predicate Waits(log: seq<Action>, j: nat, w: Node)
    requires j <= |log|
  {
    Present(log, j, w, Joins, Parts)
  }

  /** `v` was last registered before `w` was. */
  ghost predicate Earlier(log: seq<Action>, j: nat, v: Node, w: Node)
    requires j <= |log|
  {
    LastComing(log, j, v, Joins) < LastComing(log, j, w, Joins)
  }

  lemma {:induction false} ListTold(k: Kind, isSet: bool, count: nat, log: seq<Action>, j: nat)
    requires LegalHistory(k, Start(k, isSet, count), log) && j <= |log|
    ensures Tells(log, j, At(k, Start(k, isSet, count), log, j).list, Joins, Parts)
  {
    hide Tells, Legal, Apply, WellFormed;
    if j == 0 {
      NobodyAtFirst(log, Joins, Parts);
    } else {
      var a0, n := Start(k, isSet, count), j - 1;
      ListTold(k, isSet, count, log, n);
      LegalAt(k, a0, log, n);
      WellFormedAt(k, isSet, count, log, n);
      ListStep(k, At(k, a0, log, n), log, n);
    }
  }

  lemma ListStep(k: Kind, a: Abs, log: seq<Action>, j: nat)
    requires j < |log| && Legal(k, a, log[j]) && WellFormed(k, a) && Tells(log, j, a.list, Joins, Parts)
    ensures Tells(log, j + 1, Apply(k, a, log[j]).list, Joins, Parts)
  {
    hide Tells;
    var x := log[j];
    if x.Push? {
      Adds(log, j, a.list, x.w, Joins, Parts);
    } else if x.TakeAll? {
      Clears(log, j, a.list, Joins, Parts);
    } else if x.Remove? || x.Grant? {
      var i :| 0 <= i < |a.list| && a.list[i] == x.w && (x.Grant? ==> i == 0);
      WithoutAt(a.list, i);
      Drops(log, j, a.list, i, Joins, Parts);
      assert x.Grant? ==> a.list[..0] + a.list[1..] == Tail(a.list);
    } else {
      Stays(log, j, a.list, Joins, Parts);
    }
  }

  /** RemoveWaiter returns true exactly for a waiter that waits, a Post that grants nobody
      and an Unlock that frees the mutex leave nobody waiting, a grant goes to the waiter
      registered last, and Set takes exactly those that wait, the last one first. */
  lemma ListAnswers(k: Kind, isSet: bool, count: nat, log: seq<Action>, j: nat)
    requires LegalHistory(k, Start(k, isSet, count), log) && j < |log|
    ensures log[j].Push? || log[j].Absent? ==> !Waits(log, j, log[j].w)
    ensures log[j].Remove? || log[j].Grant? ==> Waits(log, j, log[j].w)
    ensures log[j].Grant? ==> forall v :: Waits(log, j, v) && v != log[j].w ==> Earlier(log, j, v, log[j].w)
    ensures log[j].TakeAll? ==> Tells(log, j, log[j].ws, Joins, Parts)
    ensures log[j].PostEmpty? || log[j].Release? || log[j].Acquire? || log[j].Refuse? || log[j].AlreadySet? ==>
      forall v :: !Waits(log, j, v)
  {
    ListTold(k, isSet, count, log, j);
    LegalAt(k, Start(k, isSet, count), log, j);
    WellFormedAt(k, isSet, count, log, j);
    ListMeans(k, At(k, Start(k, isSet, count), log, j), log, j);
  }

  lemma ListMeans(k: Kind, a: Abs, log: seq<Action>, j: nat)
    requires j < |log| && Legal(k, a, log[j]) && WellFormed(k, a) && Tells(log, j, a.list, Joins, Parts)
    ensures forall v :: Waits(log, j, v) <==> v in a.list
    ensures log[j].Push? || log[j].Absent? ==> log[j].w !in a.list
    ensures log[j].Remove? || log[j].Grant? ==> log[j].w in a.list
    ensures log[j].Grant? ==> forall v :: v in a.list && v != log[j].w ==> Earlier(log, j, v, log[j].w)
    ensures log[j].TakeAll? ==> log[j].ws == a.list
    ensures log[j].PostEmpty? || log[j].Release? || log[j].Acquire? || log[j].Refuse? || log[j].AlreadySet? ==>
      a.list == []
  {
  }

  // ---- The event's flag and the mutex ----

  predicate Sets(x: Action) { x.TakeAll? }
  predicate Resets(x: Action) { x.Reset? }

  /** Set since the last Reset, or from the start. */
  ghost predicate InForce(isSet: bool, log: seq<Action>, j: nat)
    requires j <= |log|
  {
    IsUp(isSet, log, j, Sets, Resets)
  }

  lemma {:induction false} FlagTold(isSet: bool, log: seq<Action>, j: nat)
    requires LegalHistory(Event, Start(Event, isSet, 0), log) && j <= |log|
    ensures At(Event, Start(Event, isSet, 0), log, j).flag <==> InForce(isSet, log, j)
  {
    if j == 0 {
    } else {
      FlagTold(isSet, log, j - 1);
      LegalAt(Event, Start(Event, isSet, 0), log, j - 1);
      UpNext(isSet, log, j - 1, Sets, Resets);
    }
  }

  /** AddWaiter is refused and Set finds nothing to do exactly while a Set is in force;
      Reset ends it. */
  lemma EventAnswers(isSet: bool, log: seq<Action>, j: nat)
    requires LegalHistory(Event, Start(Event, isSet, 0), log) && j < |log|
    ensures log[j].Refuse? || log[j].AlreadySet? ==> InForce(isSet, log, j)
    ensures log[j].Push? || log[j].TakeAll? ==> !InForce(isSet, log, j)
  {
    FlagTold(isSet, log, j);
    LegalAt(Event, Start(Event, isSet, 0), log, j);
  }

  predicate Takes(x: Action) { x.Acquire? }
  predicate Frees(x: Action) { x.Release? }

  /** Somebody took the mutex and nobody freed it since; it may have changed hands. */
  ghost predicate Locked(log: seq<Action>, j: nat)
    requires j <= |log|
  {
    IsUp(false, log, j, Takes, Frees)
  }

  predicate Parting(x: Action) { Enters(x) || x.Release? || x.Grant? }

  /** `t` took the mutex or got it handed over, and has neither freed nor handed it on. */
  ghost predicate Holds(log: seq<Action>, j: nat, t: Tid)
    requires j <= |log|
  {
    IsUp(false, log, j, (x: Action) => Enters(x) && x.t == t, Parting)
  }

  /** A granted waiter's callback has run and its owner has yet to resume. */
  ghost predicate HandedOver(log: seq<Action>, j: nat)
    requires j <= |log|
  {
    IsUp(false, log, j, (x: Action) => x.Notify?, (x: Action) => x.TakeOver?)
  }

  lemma {:induction false} OwnerTold(log: seq<Action>, j: nat, t: Tid)
    requires LegalHistory(Mutex, Start(Mutex, false, 0), log) && j <= |log|
    ensures var a := At(Mutex, Start(Mutex, false, 0), log, j);
      && (!a.flag <==> Locked(log, j))
      && (a.owner == Holder(t) <==> Holds(log, j, t))
      && (a.owner.Woken? <==> HandedOver(log, j))
  {
    if j == 0 {
    } else {
      hide *;
      var a0, n := Start(Mutex, false, 0), j - 1;
      OwnerTold(log, n, t);
      LegalAt(Mutex, a0, log, n);
      WellFormedAt(Mutex, false, 0, log, n);
      OwnerStep(At(Mutex, a0, log, n), log[n], t);
      AtNext(Mutex, a0, log, n);
      LockedNext(log, n);
      HoldsNext(log, n, t);
      HandedOverNext(log, n);
    }
  }

  lemma AtNext(k: Kind, a0: Abs, log: seq<Action>, j: nat)
    requires j < |log|
    ensures At(k, a0, log, j + 1) == Apply(k, At(k, a0, log, j), log[j])
  {
  }

  lemma LockedNext(log: seq<Action>, j: nat)
    requires j < |log|
    ensures Locked(log, j + 1) <==> log[j].Acquire? || (Locked(log, j) && !log[j].Release?)
  {
    UpNext(false, log, j, Takes, Frees);
  }

  lemma HoldsNext(log: seq<Action>, j: nat, t: Tid)
    requires j < |log|
    ensures Holds(log, j + 1, t) <==> (Enters(log[j]) && log[j].t == t) || (Holds(log, j, t) && !Parting(log[j]))
  {
    UpNext(false, log, j, (x: Action) => Enters(x) && x.t == t, Parting);
  }

  lemma HandedOverNext(log: seq<Action>, j: nat)
    requires j < |log|
    ensures HandedOver(log, j + 1) <==> log[j].Notify? || (HandedOver(log, j) && !log[j].TakeOver?)
  {
    UpNext(false, log, j, (x: Action) => x.Notify?, (x: Action) => x.TakeOver?);
  }

  lemma OwnerStep(a: Abs, x: Action, t: Tid)
    requires WellFormed(Mutex, a) && Legal(Mutex, a, x)
    ensures var a' := Apply(Mutex, a, x);
      && (!a'.flag <==> x.Acquire? || (!a.flag && !x.Release?))
      && (a'.owner == Holder(t) <==> (Enters(x) && x.t == t) || (a.owner == Holder(t) && !Parting(x)))
      && (a'.owner.Woken? <==> x.Notify? || (a.owner.Woken? && !x.TakeOver?))
  {
  }

  /** The mutex is taken only while it is free; Lock gives up, waiters queue and Unlock
      works only while it is not, Unlock by the thread that has it; a thread resumes with
      it only after it was handed over. */
  lemma MutexAnswers(log: seq<Action>, j: nat)
    requires LegalHistory(Mutex, Start(Mutex, false, 0), log) && j < |log|
    ensures log[j].Acquire? ==> !Locked(log, j)
    ensures log[j].Busy? || log[j].Push? || log[j].Release? || log[j].Grant? ==> Locked(log, j)
    ensures log[j].Release? || log[j].Grant? ==> Holds(log, j, log[j].t)
    ensures log[j].TakeOver? ==> HandedOver(log, j)
  {
    hide *;
    OwnerTold(log, j, log[j].t);
    LegalAt(Mutex, Start(Mutex, false, 0), log, j);
    WellFormedAt(Mutex, false, 0, log, j);
    MutexMeans(At(Mutex, Start(Mutex, false, 0), log, j), log[j]);
  }

  lemma MutexMeans(a: Abs, x: Action)
    requires WellFormed(Mutex, a) && Legal(Mutex, a, x)
    ensures x.Acquire? ==> a.flag
    ensures x.Busy? || x.Push? || x.Release? || x.Grant? ==> !a.flag
    ensures x.Release? || x.Grant? ==> a.owner == Holder(x.t)
    ensures x.TakeOver? ==> a.owner.Woken?
  {
  }

  // ---- The count ----

  lemma {:induction false} CountTold(count: nat, log: seq<Action>)
    requires LegalHistory(Semaphore, Start(Semaphore, false, count), log)
    ensures Replay(Semaphore, Start(Semaphore, false, count), log).count
      == count + Count(log, Posts) - Count(log, Lowerings)
  {
    if log == [] {
    } else {
      CountTold(count, log[..|log| - 1]);
    }
  }

  /** Post and AddWaiter see the initial count plus the posts less the AddWaiters before. */
  lemma CountAnswers(count: nat, log: seq<Action>, j: nat)
    requires LegalHistory(Semaphore, Start(Semaphore, false, count), log) && j < |log|
    ensures log[j].Posted? || log[j].Lowered? ==>
      log[j].seen == count + Count(log[..j], Posts) - Count(log[..j], Lowerings)
  {
    LegalAt(Semaphore, Start(Semaphore, false, count), log, j);
    AtIsReplay(Semaphore, Start(Semaphore, false, count), log, j);
    LegalPrefix(Semaphore, Start(Semaphore, false, count), log, j);
    CountTold(count, log[..j]);
  }
}
