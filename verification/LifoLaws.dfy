/** Every answer in a legal history of the LIFO lists, the queue and the allocator follows
    from the actions before it.  Nothing here speaks of the abstract state. */
module LifoLaws {
  import opened Sequences
  import opened Chains
  import opened Logs
  import opened Rosters
  import opened LifoSpec
  import opened LifoOutcomes

  // ---- The stacks ----

  /** A node put on list `l`. */
  function Comes(l: ListId): (Action, Node) -> bool {
    (x: Action, n: Node) => (x.Pushed? && x.l == l && x.n == n) || (x.PushedValue? && l == VALUES && x.n == n)
  }

  function Goes(l: ListId): (Action, Node) -> bool {
    (x: Action, n: Node) => (x.Popped? && x.l == l && x.n == n) || (x.PoppedValue? && l == VALUES && x.n == n)
  }

  /** A node put on the local list of thread `t`. */
  function LocalComes(t: Tid): (Action, Node) -> bool {
    (x: Action, n: Node) => x.Freed? && x.t == t && x.n == n
  }

  function LocalGoes(t: Tid): (Action, Node) -> bool {
    (x: Action, n: Node) => x.TakenLocal? && x.t == t && x.n == n
  }

  ghost predicate OnList(log: seq<Action>, j: nat, l: ListId, n: Node)
    requires j <= |log|
  {
    Present(log, j, n, Comes(l), Goes(l))
  }

  ghost predicate OnLocal(log: seq<Action>, j: nat, t: Tid, n: Node)
    requires j <= |log|
  {
    Present(log, j, n, LocalComes(t), LocalGoes(t))
  }

  lemma {:induction false} StackTold(log: seq<Action>, j: nat, l: ListId)
    requires LegalHistory(log) && j <= |log|
    ensures Tells(log, j, StackOf(At(log, j), l), Comes(l), Goes(l))
  {
    hide Tells, Legal, Apply, Comes, Goes;
    if j == 0 {
      NobodyAtFirst(log, Comes(l), Goes(l));
    } else {
      StackTold(log, j - 1, l);
      LegalAt(log, j - 1);
      StackStep(At(log, j - 1), log, j - 1, l);
    }
  }

  lemma StackStep(a: Abs, log: seq<Action>, j: nat, l: ListId)
    requires j < |log| && Legal(a, log[j]) && Tells(log, j, StackOf(a, l), Comes(l), Goes(l))
    ensures Tells(log, j + 1, StackOf(Apply(a, log[j]), l), Comes(l), Goes(l))
  {
    hide Tells, Present, LastComing;
    var x, list := log[j], StackOf(a, l);
    if (x.Pushed? && x.l == l) || (x.PushedValue? && l == VALUES) {
      Adds(log, j, list, x.n, Comes(l), Goes(l));
    } else if (x.Popped? && x.l == l) || (x.PoppedValue? && l == VALUES) {
      Drops(log, j, list, 0, Comes(l), Goes(l));
      assert list[..0] + list[1..] == Tail(list);
    } else {
      Stays(log, j, list, Comes(l), Goes(l));
    }
  }

  lemma {:induction false} LocalTold(log: seq<Action>, j: nat, t: Tid)
    requires LegalHistory(log) && j <= |log|
    ensures Tells(log, j, LocalsIn(At(log, j), t), LocalComes(t), LocalGoes(t))
  {
    hide Tells, Legal, Apply, LocalComes, LocalGoes;
    if j == 0 {
      NobodyAtFirst(log, LocalComes(t), LocalGoes(t));
    } else {
      LocalTold(log, j - 1, t);
      LegalAt(log, j - 1);
      LocalStep(At(log, j - 1), log, j - 1, t);
    }
  }

  lemma LocalStep(a: Abs, log: seq<Action>, j: nat, t: Tid)
    requires j < |log| && Legal(a, log[j]) && Tells(log, j, LocalsIn(a, t), LocalComes(t), LocalGoes(t))
    ensures Tells(log, j + 1, LocalsIn(Apply(a, log[j]), t), LocalComes(t), LocalGoes(t))
  {
    hide Tells, Present, LastComing;
    var x, list := log[j], LocalsIn(a, t);
    if x.Freed? && x.t == t {
      Adds(log, j, list, x.n, LocalComes(t), LocalGoes(t));
    } else if x.TakenLocal? && x.t == t {
      Drops(log, j, list, 0, LocalComes(t), LocalGoes(t));
      assert list[..0] + list[1..] == Tail(list);
    } else {
      Stays(log, j, list, LocalComes(t), LocalGoes(t));
    }
  }

  /** When `n` last came to list `l`, or to the local list of `t`. */
  function ListTime(log: seq<Action>, j: nat, l: ListId, n: Node): nat
    requires j <= |log|
  {
    LastComing(log, j, n, Comes(l))
  }

  function LocalTime(log: seq<Action>, j: nat, t: Tid, n: Node): nat
    requires j <= |log|
  {
    LastComing(log, j, n, LocalComes(t))
  }

  /** `n` is on list `l`, and came there after everything else that is. */
  ghost predicate Newest(log: seq<Action>, j: nat, l: ListId, n: Node)
    requires j <= |log|
  {
    && OnList(log, j, l, n)
    && forall m :: OnList(log, j, l, m) && m != n ==> ListTime(log, j, l, m) < ListTime(log, j, l, n)
  }

  ghost predicate NewestLocal(log: seq<Action>, j: nat, t: Tid, n: Node)
    requires j <= |log|
  {
    && OnLocal(log, j, t, n)
    && forall m :: OnLocal(log, j, t, m) && m != n ==> LocalTime(log, j, t, m) < LocalTime(log, j, t, n)
  }

  /** Pop and TryPop get the node that came last of those there, or nothing exactly if
      nobody is there; what is pushed was on no list. */
  lemma ListAnswers(log: seq<Action>, j: nat, l: ListId)
    requires LegalHistory(log) && j < |log|
    ensures (log[j].Popped? && log[j].l == l) || (log[j].PoppedValue? && l == VALUES) ==> Newest(log, j, l, log[j].n)
    ensures log[j].PoppedNone? && log[j].l == l ==> forall n :: !OnList(log, j, l, n)
    ensures log[j].Pushed? || log[j].PushedValue? || log[j].Freed? ==> !OnList(log, j, l, log[j].n)
  {
    hide Legal, Comes, Goes, LastComing, Present, At;
    StackTold(log, j, l);
    LegalAt(log, j);
    StackMeans(At(log, j), log[j], l);
    if StackOf(At(log, j), l) != [] {
      FirstCameLast(log, j, StackOf(At(log, j), l), Comes(l), Goes(l));
    }
  }

  lemma StackMeans(a: Abs, x: Action, l: ListId)
    requires Legal(a, x)
    ensures (x.Popped? && x.l == l) || (x.PoppedValue? && l == VALUES) ==>
      StackOf(a, l) != [] && StackOf(a, l)[0] == x.n
    ensures x.PoppedNone? && x.l == l ==> StackOf(a, l) == []
    ensures x.Pushed? || x.PushedValue? || x.Freed? ==> x.n !in StackOf(a, l)
  {
  }

  /** Allocate looks at the thread's own list first, and takes the block freed last. */
  lemma AllocateAnswers(log: seq<Action>, i: nat, j: nat)
    requires LegalHistory(log) && i < j < |log| && log[j].t == log[i].t
    requires log[i].Called? && log[i].op.AllocOp?
    requires forall n :: i < n < j && log[n].t == log[i].t ==> Inner(log[n])
    ensures log[j].TakenLocal? ==> NewestLocal(log, j, log[j].t, log[j].n)
    ensures log[j].Popped? || log[j].PoppedNone? ==> forall n :: !OnLocal(log, j, log[j].t, n)
  {
    hide Legal, LocalComes, LocalGoes, LastComing, Present, At, Achieves;
    LocalTold(log, j, log[j].t);
    LegalAt(log, j);
    CallUnderWay(log, i, j);
    LocalMeans(At(log, j), log[j]);
    if LocalsIn(At(log, j), log[j].t) != [] {
      FirstCameLast(log, j, LocalsIn(At(log, j), log[j].t), LocalComes(log[j].t), LocalGoes(log[j].t));
    }
  }

  lemma LocalMeans(a: Abs, x: Action)
    requires Legal(a, x)
    ensures x.TakenLocal? ==> LocalsIn(a, x.t) != [] && LocalsIn(a, x.t)[0] == x.n
    ensures (x.Popped? || x.PoppedNone?) && !StageOf(a, x.t).Outside? && StageOf(a, x.t).op.AllocOp? ==>
      LocalsIn(a, x.t) == []
  {
  }

  // ---- The queue's values ----

  /** The value `n` was last queued with. */
  function QueuedWith(log: seq<Action>, j: nat, n: Node): Value
    requires j <= |log|
  {
    if j == 0 then 0
    else if log[j - 1].PushedValue? && log[j - 1].n == n then log[j - 1].v
    else QueuedWith(log, j - 1, n)
  }

  ghost predicate ValuesGiven(a: Abs, log: seq<Action>, j: nat)
    requires j <= |log|
  {
    && |a.values| == |StackOf(a, VALUES)|
    && forall p :: 0 <= p < |a.values| ==> a.values[p] == QueuedWith(log, j, StackOf(a, VALUES)[p])
  }

  lemma {:induction false} ValuesTold(log: seq<Action>, j: nat)
    requires LegalHistory(log) && j <= |log|
    ensures ValuesGiven(At(log, j), log, j)
  {
    hide Legal, Apply, ValuesGiven;
    if j == 0 {
      NoValues(log);
    } else {
      ValuesTold(log, j - 1);
      LegalAt(log, j - 1);
      ValuesStep(At(log, j - 1), log, j - 1);
    }
  }

  lemma NoValues(log: seq<Action>)
    ensures ValuesGiven(NO_LISTS, log, 0)
  {
  }

  lemma ValuesStep(a: Abs, log: seq<Action>, j: nat)
    requires j < |log| && Legal(a, log[j]) && ValuesGiven(a, log, j)
    ensures ValuesGiven(Apply(a, log[j]), log, j + 1)
  {
    var x, list := log[j], StackOf(a, VALUES);
    if x.PushedValue? {
      assert forall p :: 0 <= p < |list| ==> list[p] in list;
    }
  }

  /** TryPop delivers the value its node was last queued with. */
  lemma ValueAnswers(log: seq<Action>, j: nat)
    requires LegalHistory(log) && j < |log| && log[j].PoppedValue?
    ensures log[j].v == QueuedWith(log, j, log[j].n)
  {
    ValuesTold(log, j);
    LegalAt(log, j);
  }

  /** Pushes on the queue that took effect are those whose value a TryPop took, and those
      still there; a TryPop that gets nothing finds the two equally many. */
  lemma {:induction false} QueueCounts(log: seq<Action>)
    requires LegalHistory(log)
    ensures Tally(log, (x: Action) => x.PushedValue?)
      == Tally(log, (x: Action) => x.PoppedValue?) + |StackOf(Replay(log), VALUES)|
  {
    if log == [] {
    } else {
      QueueCounts(log[..|log| - 1]);
    }
  }

  lemma QueueEmptyAnswers(log: seq<Action>, j: nat)
    requires LegalHistory(log) && j < |log| && log[j].PoppedNone? && log[j].l == VALUES
    ensures Tally(log[..j], (x: Action) => x.PushedValue?) == Tally(log[..j], (x: Action) => x.PoppedValue?)
  {
    LegalAt(log, j);
    AtIsReplay(log, j);
    LegalPrefix(log, j);
    QueueCounts(log[..j]);
  }

  // ---- Nodes ----

  predicate Births(x: Action, n: Node) { (x.Made? || x.Allocated? || x.Created?) && x.n == n }

  lemma BornStep(a: Abs, x: Action, n: Node)
    ensures n in Apply(a, x).born <==> n in a.born || Births(x, n)
  {
  }

  lemma {:induction false} BornTold(log: seq<Action>, j: nat, n: Node)
    requires LegalHistory(log) && j <= |log|
    ensures n in At(log, j).born <==> exists i :: 0 <= i < j && Births(log[i], n)
  {
    hide Apply;
    if j == 0 {
    } else {
      BornTold(log, j - 1, n);
      BornStep(At(log, j - 1), log[j - 1], n);
    }
  }

  /** The allocator makes every node once. */
  lemma BornOnce(log: seq<Action>, i: nat, j: nat, n: Node)
    requires LegalHistory(log) && i < j < |log| && Births(log[i], n)
    ensures !Births(log[j], n)
  {
    BornTold(log, j, n);
    LegalAt(log, j);
  }
}
