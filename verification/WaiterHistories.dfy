/** Properties of legal histories.  By WaiterTheorems.Linearizable they hold of every
    interleaving of the program. */
module WaiterHistories {
  import opened Numbers
  import opened Sequences
  import opened Chains
  import opened Logs
  import opened WaiterSpec

  ghost predicate WellFormed(k: Kind, a: Abs) {
    && Distinct(a.list)
    && (forall w :: w in a.list ==> w !in a.claimed)
    && (forall t :: t in a.todo ==> Distinct(a.todo[t]))
    && (forall t, w :: t in a.todo && w in a.todo[t] ==> w in a.claimed)
    && (forall t, u, w :: t in a.todo && u in a.todo && t != u && w in a.todo[t] ==> w !in a.todo[u])
    && (k.Event? && a.flag ==> a.list == [])
    && (k.Mutex? ==> (a.flag <==> a.owner.Nobody?))
    && (k.Mutex? && a.flag ==> a.list == [])
    && (k.Semaphore? ==> !a.flag)
    && (forall w :: w in a.claimed ==> Owed(a, w))
  }

  /** Some thread still has to run the callback of `w`. */
  ghost predicate Owed(a: Abs, w: Node) {
    exists t :: t in a.todo && w in a.todo[t]
  }

  lemma ApplyWellFormed(k: Kind, a: Abs, x: Action)
    requires WellFormed(k, a) && Legal(k, a, x)
    ensures WellFormed(k, Apply(k, a, x))
  {
    if x.Grant? || x.TakeAll? {
      ClaimWellFormed(k, a, x);
    } else if x.Notify? {
      NotifyWellFormed(k, a, x);
    } else {
      OtherWellFormed(k, a, x);
    }
  }

  lemma OtherWellFormed(k: Kind, a: Abs, x: Action)
    requires WellFormed(k, a) && Legal(k, a, x) && !x.Grant? && !x.TakeAll? && !x.Notify?
    ensures WellFormed(k, Apply(k, a, x))
  {
    if x.Remove? {
      WithoutDistinct(a.list, x.w);
    }
    forall w | w in a.claimed ensures Owed(Apply(k, a, x), w) {
      assert Owed(a, w);
    }
  }

  lemma ClaimWellFormed(k: Kind, a: Abs, x: Action)
    requires WellFormed(k, a) && Legal(k, a, x) && (x.Grant? || x.TakeAll?)
    ensures WellFormed(k, Apply(k, a, x))
  {
    if x.Grant? {
      assert forall w :: w in a.list[1..] ==> w in a.list && w != a.list[0];
    }
    ClaimsOwed(k, a, x);
  }

  lemma ClaimsOwed(k: Kind, a: Abs, x: Action)
    requires Legal(k, a, x) && (x.Grant? || x.TakeAll?)
    requires forall w :: w in a.claimed ==> Owed(a, w)
    ensures forall w :: w in Apply(k, a, x).claimed ==> Owed(Apply(k, a, x), w)
  {
    var a' := Apply(k, a, x);
    forall w | w in a'.claimed ensures Owed(a', w) {
      if w in a.claimed {
        var t :| t in a.todo && w in a.todo[t];
        assert t != x.t;
        assert w in a'.todo[t];
      } else {
        assert w in a'.todo[x.t];
      }
    }
  }

  lemma NotifyWellFormed(k: Kind, a: Abs, x: Action)
    requires WellFormed(k, a) && Legal(k, a, x) && x.Notify?
    ensures WellFormed(k, Apply(k, a, x))
  {
    var todo := TodoOf(a, x.t);
    assert forall w :: w in todo[1..] ==> w in todo && w != todo[0];
    RestOwed(k, a, x);
  }

  lemma RestOwed(k: Kind, a: Abs, x: Action)
    requires Legal(k, a, x) && x.Notify?
    requires forall w :: w in a.claimed ==> Owed(a, w)
    ensures forall w :: w in Apply(k, a, x).claimed ==> Owed(Apply(k, a, x), w)
  {
    var a' := Apply(k, a, x);
    forall w | w in a'.claimed ensures Owed(a', w) {
      var t :| t in a.todo && w in a.todo[t];
      if t == x.t {
        assert a.todo[t] == [x.w] + a.todo[t][1..];
      }
      assert w in a'.todo[t];
    }
  }

  lemma {:induction false} HistoryWellFormed(k: Kind, isSet: bool, count: nat, log: seq<Action>)
    requires LegalHistory(k, Start(k, isSet, count), log)
    ensures WellFormed(k, Replay(k, Start(k, isSet, count), log))
  {
    if log == [] {
    } else {
      var a0, n := Start(k, isSet, count), |log| - 1;
      HistoryWellFormed(k, isSet, count, log[..n]);
      ApplyWellFormed(k, Replay(k, a0, log[..n]), log[n]);
    }
  }

  /** Sets of actions to count. */
  datatype Sort =
    | Pushes(w: Node) | Removes(w: Node) | Claims(w: Node) | Notifies(w: Node)
    | Acquires | Releases | Grants | TakeOvers
    | Removals | Posts | EarlyPosts | LatePosts | EmptyPosts | Directs | Lowerings

  predicate Is(x: Action, c: Sort) {
    match c
    case Pushes(w) => x.Push? && x.w == w
    case Removes(w) => x.Remove? && x.w == w
    case Claims(w) => (x.Grant? && x.w == w) || (x.TakeAll? && w in x.ws)
    case Notifies(w) => x.Notify? && x.w == w
    case Acquires => x.Acquire?
    case Releases => x.Release?
    case Grants => x.Grant?
    case TakeOvers => x.TakeOver?
    case Removals => x.Remove?
    case Posts => x.Posted?
    case EarlyPosts => x.Posted? && x.seen >= 0
    case LatePosts => x.Posted? && x.seen < 0
    case EmptyPosts => x.PostEmpty?
    case Directs => x.Lowered? && x.seen > 0
    case Lowerings => x.Lowered?
  }

  /** How many actions of the history are of the given sort. */
  function Count(log: seq<Action>, c: Sort): nat {
    Tally(log, (x: Action) => Is(x, c))
  }

  /** Every successful AddWaiter is ended at most once, by one RemoveWaiter returning
      true or by one claim; every claim leads to at most one callback.  What is not yet
      ended is registered; what is claimed and not notified is among the callbacks some
      thread still has to run. */
  lemma {:induction false} EndedExactlyOnce(k: Kind, isSet: bool, count: nat, log: seq<Action>, w: Node)
    requires LegalHistory(k, Start(k, isSet, count), log)
    ensures var a := Replay(k, Start(k, isSet, count), log);
      && Count(log, Pushes(w)) ==
         Count(log, Removes(w)) + Count(log, Claims(w)) + (if w in a.list then 1 else 0)
      && Count(log, Claims(w)) ==
         Count(log, Notifies(w)) + (if w in a.claimed then 1 else 0)
      && !(w in a.list && w in a.claimed)
      && (w in a.claimed <==> exists t :: w in TodoOf(a, t))
  {
    HistoryWellFormed(k, isSet, count, log);
    ClaimedIsOwed(k, Replay(k, Start(k, isSet, count), log), w);
    if log == [] {
    } else {
      var a0, n := Start(k, isSet, count), |log| - 1;
      EndedExactlyOnce(k, isSet, count, log[..n], w);
      HistoryWellFormed(k, isSet, count, log[..n]);
      Bookkeeping(k, Replay(k, a0, log[..n]), log[n], w);
    }
  }

  lemma ClaimedIsOwed(k: Kind, a: Abs, w: Node)
    requires WellFormed(k, a)
    ensures w in a.claimed <==> exists t :: w in TodoOf(a, t)
  {
    if w in a.claimed {
      assert Owed(a, w);
      var t :| t in a.todo && w in a.todo[t];
      assert w in TodoOf(a, t);
    }
  }

  lemma Bookkeeping(k: Kind, a: Abs, x: Action, w: Node)
    requires WellFormed(k, a) && Legal(k, a, x)
    ensures var a' := Apply(k, a, x);
      && (w in a'.list <==> (w in a.list || Is(x, Pushes(w))) && !Is(x, Removes(w)) && !Is(x, Claims(w)))
      && (w in a'.claimed <==> (w in a.claimed || Is(x, Claims(w))) && !Is(x, Notifies(w)))
      && (Is(x, Pushes(w)) ==> w !in a.list && w !in a.claimed)
      && (Is(x, Removes(w)) || Is(x, Claims(w)) ==> w in a.list)
      && (Is(x, Notifies(w)) ==> w in a.claimed)
  {
    ListBooks(k, a, x, w);
    ClaimBooks(k, a, x, w);
    hide Apply, Legal, WellFormed, Is;
  }

  lemma ListBooks(k: Kind, a: Abs, x: Action, w: Node)
    requires WellFormed(k, a) && Legal(k, a, x)
    ensures var a' := Apply(k, a, x);
      && (w in a'.list <==> (w in a.list || Is(x, Pushes(w))) && !Is(x, Removes(w)) && !Is(x, Claims(w)))
      && (Is(x, Pushes(w)) ==> w !in a.list && w !in a.claimed)
      && (Is(x, Removes(w)) || Is(x, Claims(w)) ==> w in a.list)
  {
    if x.Remove? {
      WithoutDistinct(a.list, x.w);
    } else if x.Grant? {
      assert a.list == [a.list[0]] + a.list[1..];
    }
  }

  lemma ClaimBooks(k: Kind, a: Abs, x: Action, w: Node)
    requires WellFormed(k, a) && Legal(k, a, x)
    ensures var a' := Apply(k, a, x);
      && (w in a'.claimed <==> (w in a.claimed || Is(x, Claims(w))) && !Is(x, Notifies(w)))
      && (Is(x, Notifies(w)) ==> w in a.claimed)
  {
    if x.Notify? {
      assert x.w in TodoOf(a, x.t);
    }
  }

  lemma WellFormedAt(k: Kind, isSet: bool, count: nat, log: seq<Action>, m: nat)
    requires LegalHistory(k, Start(k, isSet, count), log) && m <= |log|
    ensures WellFormed(k, At(k, Start(k, isSet, count), log, m))
  {
    LegalPrefix(k, Start(k, isSet, count), log, m);
    HistoryWellFormed(k, isSet, count, log[..m]);
    AtIsReplay(k, Start(k, isSet, count), log, m);
  }

  /** RemoveWaiter returns false for a waiter that was added only if, in between, a
      notifier claimed it or another RemoveWaiter already returned true for it. */
  lemma AbsentOnlyIfEnded(k: Kind, isSet: bool, count: nat, log: seq<Action>, i: nat, j: nat, w: Node)
    requires LegalHistory(k, Start(k, isSet, count), log)
    requires i < j < |log| && Is(log[i], Pushes(w)) && log[j].Absent? && log[j].w == w
    ensures exists m :: i < m < j && (Is(log[m], Claims(w)) || Is(log[m], Removes(w)))
  {
    if forall m :: i < m < j ==> !Is(log[m], Claims(w)) && !Is(log[m], Removes(w)) {
      StaysListed(k, isSet, count, log, i, j, w);
      LegalAt(k, Start(k, isSet, count), log, j);
    }
  }

  lemma StaysListed(
    k: Kind, isSet: bool, count: nat, log: seq<Action>, i: nat, m: nat, w: Node)
    requires LegalHistory(k, Start(k, isSet, count), log)
    requires i < m <= |log| && Is(log[i], Pushes(w))
    requires forall n :: i < n < m ==> !Is(log[n], Claims(w)) && !Is(log[n], Removes(w))
    ensures w in At(k, Start(k, isSet, count), log, m).list
  {
    hide At;
    ListedStep(k, isSet, count, log, i, w);
    var n := i + 1;
    while n < m
      invariant i < n <= m && w in At(k, Start(k, isSet, count), log, n).list
    {
      ListedStep(k, isSet, count, log, n, w);
      n := n + 1;
    }
  }

  lemma ListedStep(k: Kind, isSet: bool, count: nat, log: seq<Action>, m: nat, w: Node)
    requires LegalHistory(k, Start(k, isSet, count), log) && m < |log|
    requires Is(log[m], Pushes(w)) ||
      (w in At(k, Start(k, isSet, count), log, m).list && !Is(log[m], Claims(w)) && !Is(log[m], Removes(w)))
    ensures w in At(k, Start(k, isSet, count), log, m + 1).list
  {
    var a := At(k, Start(k, isSet, count), log, m);
    if Is(log[m], Pushes(w)) {
      PushListed(k, a, log[m], w);
    } else {
      LegalAt(k, Start(k, isSet, count), log, m);
      KeepsListed(k, a, log[m], w);
    }
  }

  lemma PushListed(k: Kind, a: Abs, x: Action, w: Node)
    requires Is(x, Pushes(w))
    ensures w in Apply(k, a, x).list
  {
  }

  lemma KeepsListed(k: Kind, a: Abs, x: Action, w: Node)
    requires w in a.list && Legal(k, a, x) && !Is(x, Claims(w)) && !Is(x, Removes(w))
    ensures w in Apply(k, a, x).list
  {
    if x.Remove? {
      WithoutKeeps(a.list, x.w, w);
    } else if x.Grant? {
      assert a.list == [a.list[0]] + a.list[1..];
    }
  }

  /** Grants are last in, first out: whoever is granted while `v` is registered was
      added after `v`. */
  lemma GrantsNewest(k: Kind, isSet: bool, count: nat, log: seq<Action>, i: nat, j: nat, v: Node)
    requires LegalHistory(k, Start(k, isSet, count), log)
    requires i < j < |log| && Is(log[i], Pushes(v)) && log[j].Grant? && log[j].w != v
    requires forall n :: i < n < j ==> !Is(log[n], Claims(v)) && !Is(log[n], Removes(v))
    ensures exists n :: i < n < j && Is(log[n], Pushes(log[j].w))
  {
    NewerInFront(k, isSet, count, log, i, j, v);
    LegalAt(k, Start(k, isSet, count), log, j);
  }

  /** The waiters of `list` in front of `v`. */
  function Before(list: seq<Node>, v: Node): seq<Node> {
    if list == [] || list[0] == v then [] else [list[0]] + Before(list[1..], v)
  }

  lemma NewerInFront(
    k: Kind, isSet: bool, count: nat, log: seq<Action>, i: nat, m: nat, v: Node)
    requires LegalHistory(k, Start(k, isSet, count), log)
    requires i < m <= |log| && Is(log[i], Pushes(v))
    requires forall n :: i < n < m ==> !Is(log[n], Claims(v)) && !Is(log[n], Removes(v))
    ensures var list := At(k, Start(k, isSet, count), log, m).list;
      v in list && forall x :: x in Before(list, v) ==> exists n :: i < n < m && Is(log[n], Pushes(x))
  {
    hide At, Before;
    ListedStep(k, isSet, count, log, i, v);
    PushFront(k, isSet, count, log, i, v);
    var l := i + 1;
    while l < m
      invariant i < l <= m && v in At(k, Start(k, isSet, count), log, l).list
      invariant forall x :: x in Before(At(k, Start(k, isSet, count), log, l).list, v) ==>
        exists n :: i < n < l && Is(log[n], Pushes(x))
    {
      ListedStep(k, isSet, count, log, l, v);
      FrontStep(k, isSet, count, log, l, v);
      l := l + 1;
    }
  }

  lemma FrontStep(k: Kind, isSet: bool, count: nat, log: seq<Action>, m: nat, v: Node)
    requires LegalHistory(k, Start(k, isSet, count), log) && m < |log|
    requires v in At(k, Start(k, isSet, count), log, m).list && !Is(log[m], Claims(v)) && !Is(log[m], Removes(v))
    ensures forall y :: y in Before(At(k, Start(k, isSet, count), log, m + 1).list, v) ==>
      y in Before(At(k, Start(k, isSet, count), log, m).list, v) || Is(log[m], Pushes(y))
  {
    LegalAt(k, Start(k, isSet, count), log, m);
    FrontGrows(k, At(k, Start(k, isSet, count), log, m), log[m], v);
  }

  lemma PushFront(k: Kind, isSet: bool, count: nat, log: seq<Action>, m: nat, v: Node)
    requires m < |log| && Is(log[m], Pushes(v))
    ensures Before(At(k, Start(k, isSet, count), log, m + 1).list, v) == []
  {
  }

  lemma FrontGrows(k: Kind, a: Abs, x: Action, v: Node)
    requires v in a.list && Legal(k, a, x) && !Is(x, Claims(v)) && !Is(x, Removes(v))
    ensures forall y :: y in Before(Apply(k, a, x).list, v) ==> y in Before(a.list, v) || Is(x, Pushes(y))
  {
    if x.Push? {
      assert ([x.w] + a.list)[1..] == a.list;
    } else if x.Remove? {
      FrontWithout(a.list, x.w, v);
    }
  }

  lemma {:induction false} FrontWithout(list: seq<Node>, w: Node, v: Node)
    requires w != v
    ensures forall y :: y in Before(Without(list, w), v) ==> y in Before(list, v)
  {
    if list == [] || list[0] == v || list[0] == w {
    } else {
      FrontWithout(list[1..], w, v);
      assert Without(list, w)[1..] == Without(list[1..], w);
    }
  }

  /** The callbacks thread `t` ran among the actions from `i` up to `j`, in order. */
  function NotifiedBy(log: seq<Action>, i: nat, j: nat, t: Tid): seq<Node>
    requires j <= |log|
    decreases j
  {
    if j <= i then []
    else NotifiedBy(log, i, j - 1, t) + NotifiedOne(log[j - 1], t)
  }

  /** A Set that took the waiters `ws` runs exactly their callbacks, in list order,
      before it returns. */
  lemma SetNotifiesItsChain(isSet: bool, log: seq<Action>, i: nat, j: nat)
    requires LegalHistory(Event, Start(Event, isSet, 0), log)
    requires i < j < |log| && log[i].TakeAll? && log[j] == SetDone(log[i].t)
    requires forall m :: i < m < j ==> !(log[m].TakeAll? && log[m].t == log[i].t)
    ensures NotifiedBy(log, i + 1, j, log[i].t) == log[i].ws
  {
    NotifiedSoFar(isSet, log, i, j);
    LegalAt(Event, Start(Event, isSet, 0), log, j);
  }

  lemma {:induction false} NotifiedSoFar(isSet: bool, log: seq<Action>, i: nat, m: nat)
    requires LegalHistory(Event, Start(Event, isSet, 0), log)
    requires i < m <= |log| && log[i].TakeAll?
    requires forall n :: i < n < m ==> !(log[n].TakeAll? && log[n].t == log[i].t)
    ensures NotifiedBy(log, i + 1, m, log[i].t)
         + TodoOf(At(Event, Start(Event, isSet, 0), log, m), log[i].t) == log[i].ws
  {
    hide Legal, Apply, TodoOf, LegalHistory;
    var a0, t := Start(Event, isSet, 0), log[i].t;
    if m == i + 1 {
      JustTaken(At(Event, a0, log, i), log[i]);
    } else {
      NotifiedSoFar(isSet, log, i, m - 1);
      LegalAt(Event, a0, log, m - 1);
      TodoStep(At(Event, a0, log, m - 1), log[m - 1], t);
      Regroup(NotifiedBy(log, i + 1, m - 1, t), NotifiedOne(log[m - 1], t), TodoOf(At(Event, a0, log, m), t));
    }
  }

  function NotifiedOne(x: Action, t: Tid): seq<Node> {
    if x.Notify? && x.t == t then [x.w] else []
  }

  lemma Regroup(a: seq<Node>, b: seq<Node>, c: seq<Node>)
    ensures (a + b) + c == a + (b + c)
  {
  }

  lemma JustTaken(a: Abs, x: Action)
    requires x.TakeAll?
    ensures TodoOf(Apply(Event, a, x), x.t) == x.ws
  {
  }

  lemma TodoStep(a: Abs, x: Action, t: Tid)
    requires Legal(Event, a, x) && !(x.TakeAll? && x.t == t)
    ensures TodoOf(a, t) == NotifiedOne(x, t) + TodoOf(Apply(Event, a, x), t)
  {
    if x.Notify? && x.t == t {
      assert TodoOf(a, t) == [x.w] + TodoOf(a, t)[1..];
    }
  }

  predicate Enters(x: Action) { x.Acquire? || x.TakeOver? }
  predicate Leaves(x: Action, t: Tid) { (x.Release? || x.Grant?) && x.t == t }

  /** Between two entries into the mutex the first holder left it. */
  lemma MutualExclusion(log: seq<Action>, i: nat, j: nat)
    requires LegalHistory(Mutex, Start(Mutex, false, 0), log)
    requires i < j < |log| && Enters(log[i]) && Enters(log[j])
    ensures exists m :: i < m < j && Leaves(log[m], log[i].t)
  {
    if forall m :: i < m < j ==> !Leaves(log[m], log[i].t) {
      StaysHolder(log, i, j);
      FreeWithoutOwner(log, j);
      LegalAt(Mutex, Start(Mutex, false, 0), log, j);
    }
  }

  lemma StaysHolder(log: seq<Action>, i: nat, m: nat)
    requires LegalHistory(Mutex, Start(Mutex, false, 0), log)
    requires i < m <= |log| && Enters(log[i])
    requires forall n :: i < n < m ==> !Leaves(log[n], log[i].t)
    ensures At(Mutex, Start(Mutex, false, 0), log, m).owner == Holder(log[i].t)
  {
    hide At;
    HolderStep(log, i, log[i].t);
    var n := i + 1;
    while n < m
      invariant i < n <= m && At(Mutex, Start(Mutex, false, 0), log, n).owner == Holder(log[i].t)
    {
      HolderStep(log, n, log[i].t);
      n := n + 1;
    }
  }

  lemma HolderStep(log: seq<Action>, m: nat, t: Tid)
    requires LegalHistory(Mutex, Start(Mutex, false, 0), log) && m < |log|
    requires (Enters(log[m]) && log[m].t == t) ||
      (At(Mutex, Start(Mutex, false, 0), log, m).owner == Holder(t) && !Leaves(log[m], t))
    ensures At(Mutex, Start(Mutex, false, 0), log, m + 1).owner == Holder(t)
  {
    var a := At(Mutex, Start(Mutex, false, 0), log, m);
    if Enters(log[m]) && log[m].t == t {
      EntersHolder(a, log[m]);
    } else {
      LegalAt(Mutex, Start(Mutex, false, 0), log, m);
      FreeWithoutOwner(log, m);
      HolderKept(a, log[m], t);
    }
  }

  lemma FreeWithoutOwner(log: seq<Action>, m: nat)
    requires LegalHistory(Mutex, Start(Mutex, false, 0), log) && m <= |log|
    ensures var a := At(Mutex, Start(Mutex, false, 0), log, m); a.flag <==> a.owner.Nobody?
  {
    WellFormedAt(Mutex, false, 0, log, m);
  }

  lemma EntersHolder(a: Abs, x: Action)
    requires Enters(x)
    ensures Apply(Mutex, a, x).owner == Holder(x.t)
  {
  }

  lemma HolderKept(a: Abs, x: Action, t: Tid)
    requires Legal(Mutex, a, x) && !a.flag && a.owner == Holder(t) && !Leaves(x, t)
    ensures Apply(Mutex, a, x).owner == Holder(t)
  {
  }

  /** One owner exactly while the mutex is not free: a hold begins with Acquire, passes
      on with every Grant, and ends with Release. */
  lemma {:induction false} OneOwner(log: seq<Action>)
    requires LegalHistory(Mutex, Start(Mutex, false, 0), log)
    ensures var a := Replay(Mutex, Start(Mutex, false, 0), log);
      && Count(log, Acquires) == Count(log, Releases) + (if a.flag then 0 else 1)
      && Count(log, Grants) ==
         Count(log, TakeOvers) + (if a.owner.Granted? || a.owner.Woken? then 1 else 0)
  {
    if log == [] {
    } else {
      var n := |log| - 1;
      OneOwner(log[..n]);
      HistoryWellFormed(Mutex, false, 0, log[..n]);
      OwnerMoves(Replay(Mutex, Start(Mutex, false, 0), log[..n]), log[n]);
    }
  }

  /** One action moves the books of the owner as it moves the owner. */
  lemma OwnerMoves(a: Abs, x: Action)
    requires WellFormed(Mutex, a) && Legal(Mutex, a, x)
    ensures var a' := Apply(Mutex, a, x);
      && (if a.flag then 0 else 1) + (if Is(x, Acquires) then 1 else 0)
         == (if a'.flag then 0 else 1) + (if Is(x, Releases) then 1 else 0)
      && (if a.owner.Granted? || a.owner.Woken? then 1 else 0) + (if Is(x, Grants) then 1 else 0)
         == (if a'.owner.Granted? || a'.owner.Woken? then 1 else 0) + (if Is(x, TakeOvers) then 1 else 0)
  {
  }

  // ---- Semaphore ----

  /** The calls that changed the count and have yet to deal with the list: posts if
      `post`, else AddWaiters. */
  predicate Pending(g: Stage, post: bool) {
    g.Counted? && if post then g.op.PostOp? else g.op.AddOp?
  }

  function InFlight(calls: map<Tid, Stage>, post: bool): set<Tid> {
    set t | t in calls && Pending(calls[t], post)
  }

  lemma InFlightMoves(a: Abs, t: Tid, g: Stage, post: bool)
    ensures |InFlight(a.calls[t := g], post)| ==
      |InFlight(a.calls, post)| - (if Pending(StageOf(a, t), post) then 1 else 0) + (if Pending(g, post) then 1 else 0)
  {
    var before, after := InFlight(a.calls, post), InFlight(a.calls[t := g], post);
    forall u | u != t ensures u in before <==> u in after {
      assert u in a.calls <==> u in a.calls[t := g];
    }
    SizeMoves(before, after, t);
  }

  /** Every post that saw a non-negative count and every direct acquisition moves the
      positive part of the count; every other post grants one waiter, finds none, or is
      on its way. */
  lemma SemaphoreAccounts(count: nat, log: seq<Action>)
    requires LegalHistory(Semaphore, Start(Semaphore, false, count), log)
    ensures var a := Replay(Semaphore, Start(Semaphore, false, count), log);
      && Max0(a.count) == count + Count(log, EarlyPosts) - Count(log, Directs)
      && Count(log, LatePosts) == Count(log, Grants) + Count(log, EmptyPosts) + |InFlight(a.calls, true)|
      && Count(log, Posts) == Count(log, EarlyPosts) + Count(log, LatePosts)
  {
    EarlyAccounts(count, log);
    LateAccounts(count, log);
    AllPosts(log);
  }

  lemma {:induction false} EarlyAccounts(count: nat, log: seq<Action>)
    requires LegalHistory(Semaphore, Start(Semaphore, false, count), log)
    ensures Max0(Replay(Semaphore, Start(Semaphore, false, count), log).count)
      == count + Count(log, EarlyPosts) - Count(log, Directs)
  {
    if log == [] {
    } else {
      var n := |log| - 1;
      EarlyAccounts(count, log[..n]);
      CountStep(Replay(Semaphore, Start(Semaphore, false, count), log[..n]), log[n]);
    }
  }

  lemma {:induction false} LateAccounts(count: nat, log: seq<Action>)
    requires LegalHistory(Semaphore, Start(Semaphore, false, count), log)
    ensures Count(log, LatePosts) == Count(log, Grants) + Count(log, EmptyPosts)
      + |InFlight(Replay(Semaphore, Start(Semaphore, false, count), log).calls, true)|
  {
    if log == [] {
    } else {
      var n := |log| - 1;
      LateAccounts(count, log[..n]);
      PostStep(Replay(Semaphore, Start(Semaphore, false, count), log[..n]), log[n]);
    }
  }

  lemma {:induction false} AllPosts(log: seq<Action>)
    ensures Count(log, Posts) == Count(log, EarlyPosts) + Count(log, LatePosts)
  {
    if log == [] {
    } else {
      AllPosts(log[..|log| - 1]);
    }
  }

  lemma CountStep(a: Abs, x: Action)
    requires Legal(Semaphore, a, x)
    ensures Max0(Apply(Semaphore, a, x).count) ==
      Max0(a.count) + (if Is(x, EarlyPosts) then 1 else 0) - (if Is(x, Directs) then 1 else 0)
  {
  }

  lemma PostStep(a: Abs, x: Action)
    requires Legal(Semaphore, a, x)
    ensures |InFlight(Apply(Semaphore, a, x).calls, true)| ==
      |InFlight(a.calls, true)| + (if Is(x, LatePosts) then 1 else 0)
      - (if Is(x, Grants) || Is(x, EmptyPosts) then 1 else 0)
  {
    InFlightMoves(a, x.t, After(StageOf(a, x.t), x), true);
  }

  /** Where every waited-for permit is: the negative part of the count, plus the posts on
      their way and those that found nobody, is the waiters registered, plus the
      AddWaiters on their way, plus the waiters removed.  So a permit is lost exactly by a
      post that finds the list empty too early and by a RemoveWaiter that returns true. */
  lemma {:induction false} PermitsAccounted(count: nat, log: seq<Action>)
    requires LegalHistory(Semaphore, Start(Semaphore, false, count), log)
    ensures var a := Replay(Semaphore, Start(Semaphore, false, count), log);
      Max0(-a.count) + |InFlight(a.calls, true)| + Count(log, EmptyPosts)
        == |a.list| + |InFlight(a.calls, false)| + Count(log, Removals)
  {
    hide Legal, Apply, InFlight;
    if log == [] {
      NoneInFlight();
    } else {
      var n := |log| - 1;
      PermitsAccounted(count, log[..n]);
      HistoryWellFormed(Semaphore, false, count, log[..n]);
      PermitStep(Replay(Semaphore, Start(Semaphore, false, count), log[..n]), log[n]);
    }
  }

  lemma NoneInFlight()
    ensures InFlight(map[], true) == {} && InFlight(map[], false) == {}
  {
  }

  /** What the law weighs against each other. */
  function Surplus(a: Abs): int {
    Max0(-a.count) + |InFlight(a.calls, true)| - |a.list| - |InFlight(a.calls, false)|
  }

  lemma PermitStep(a: Abs, x: Action)
    requires Legal(Semaphore, a, x) && Distinct(a.list)
    ensures Surplus(Apply(Semaphore, a, x)) ==
      Surplus(a) + (if Is(x, Removals) then 1 else 0) - (if Is(x, EmptyPosts) then 1 else 0)
  {
    PostStep(a, x);
    AddStep(a, x);
    ListStep(a, x);
  }

  lemma AddStep(a: Abs, x: Action)
    requires Legal(Semaphore, a, x)
    ensures |InFlight(Apply(Semaphore, a, x).calls, false)| ==
      |InFlight(a.calls, false)| + (if x.Lowered? && x.seen <= 0 then 1 else 0) - (if x.Push? then 1 else 0)
  {
    InFlightMoves(a, x.t, After(StageOf(a, x.t), x), false);
  }

  lemma ListStep(a: Abs, x: Action)
    requires Legal(Semaphore, a, x) && Distinct(a.list) && !x.TakeAll?
    ensures |Apply(Semaphore, a, x).list| ==
      |a.list| + (if x.Push? then 1 else 0) - (if x.Grant? || x.Remove? then 1 else 0)
    ensures Max0(-Apply(Semaphore, a, x).count) ==
      Max0(-a.count) + (if x.Lowered? && x.seen <= 0 then 1 else 0) - (if Is(x, LatePosts) then 1 else 0)
  {
    if x.Remove? {
      WithoutDistinct(a.list, x.w);
    }
  }

  /** The semaphore never grants more than its initial count plus its posts. */
  lemma NeverOverGrants(count: nat, log: seq<Action>)
    requires LegalHistory(Semaphore, Start(Semaphore, false, count), log)
    ensures Count(log, Directs) + Count(log, Grants) <= count + Count(log, Posts)
  {
    SemaphoreAccounts(count, log);
  }
}
