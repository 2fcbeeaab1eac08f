/** ContextImpl::Run keeps its lists and counters consistent in every interleaving with
    the callbacks. */
module RunProofs {
  import opened Sequences
  import opened RunSpec

  // ---- The two list functions ----

  lemma ChooseMembers(last: seq<Last>, idle: seq<nat>, isIdle: bool)
    requires Below(idle, |last|) && Distinct(idle)
    ensures forall x :: x in Choose(last, idle, isIdle) <==> x in idle && last[x].Idle? == isIdle
    ensures Distinct(Choose(last, idle, isIdle))
  {
    ChooseContains(last, idle, isIdle);
    ChooseDistinct(last, idle, isIdle);
  }

  lemma {:induction false} ChooseContains(last: seq<Last>, idle: seq<nat>, isIdle: bool)
    requires Below(idle, |last|)
    ensures forall x :: x in Choose(last, idle, isIdle) <==> x in idle && last[x].Idle? == isIdle
  {
    if idle == [] {
    } else {
      var n := |idle| - 1;
      ChooseContains(last, idle[..n], isIdle);
      assert idle == idle[..n] + [idle[n]];
    }
  }

  lemma {:induction false} ChooseDistinct(last: seq<Last>, idle: seq<nat>, isIdle: bool)
    requires Below(idle, |last|) && Distinct(idle)
    ensures Distinct(Choose(last, idle, isIdle))
  {
    if idle == [] {
    } else {
      var n := |idle| - 1;
      ChooseDistinct(last, idle[..n], isIdle);
      ChooseContains(last, idle[..n], isIdle);
    }
  }

  lemma {:induction false} ChooseFrame(last: seq<Last>, idle: seq<nat>, x: nat, v: Last, isIdle: bool)
    requires Below(idle, |last|) && x < |last| && (x !in idle || last[x].Idle? == v.Idle?)
    ensures Choose(last[x := v], idle, isIdle) == Choose(last, idle, isIdle)
  {
    if idle == [] {
    } else {
      ChooseFrame(last, idle[..|idle| - 1], x, v, isIdle);
    }
  }

  lemma {:induction false} ChooseSignal(last: seq<Last>, idle: seq<nat>, x: nat)
    requires Below(idle, |last|) && Distinct(idle) && x in idle && last[x].Idle?
    ensures |Choose(last[x := Working], idle, false)| == |Choose(last, idle, false)| + 1
  {
    var n := |idle| - 1;
    if idle[n] == x {
      assert x !in idle[..n];
      ChooseFrame(last, idle[..n], x, Working, false);
    } else {
      assert x in idle[..n] by { assert idle == idle[..n] + [idle[n]]; }
      ChooseSignal(last, idle[..n], x);
    }
  }

  lemma {:induction false} ChooseNone(last: seq<Last>, idle: seq<nat>)
    requires Below(idle, |last|) && forall x :: x in idle ==> last[x].Idle?
    ensures Choose(last, idle, false) == []
  {
    if idle == [] {
    } else {
      ChooseNone(last, idle[..|idle| - 1]);
    }
  }

  lemma {:induction false} PollingFrame(last: seq<Last>, active: seq<nat>, x: nat, v: Last)
    requires Below(active, |last|) && x < |last| && x !in active
    ensures PollingIn(last[x := v], active) == PollingIn(last, active)
  {
    if active == [] {
    } else {
      PollingFrame(last, active[..|active| - 1], x, v);
    }
  }

  function One(p: bool): nat {
    if p then 1 else 0
  }

  lemma {:induction false} PollingSplit(last: seq<Last>, a: seq<nat>, b: seq<nat>)
    requires Below(a, |last|) && Below(b, |last|)
    ensures Below(a + b, |last|) && PollingIn(last, a + b) == PollingIn(last, a) + PollingIn(last, b)
  {
    if b == [] {
      assert a + b == a;
    } else {
      var n := |b| - 1;
      PollingSplit(last, a, b[..n]);
      assert (a + b)[..|a + b| - 1] == a + b[..n];
    }
  }

  lemma {:induction false} PollingNone(last: seq<Last>, list: seq<nat>)
    requires Below(list, |last|) && forall x :: x in list ==> !last[x].Polling?
    ensures PollingIn(last, list) == 0
  {
    if list == [] {
    } else {
      PollingNone(last, list[..|list| - 1]);
    }
  }

  /** Position `i` of the active list contributes its own state only. */
  lemma PollingAt(last: seq<Last>, active: seq<nat>, i: nat, v: Last)
    requires Below(active, |last|) && Distinct(active) && i < |active|
    ensures var x := active[i]; var rest := active[..i] + active[i + 1..];
      && Below(rest, |last|)
      && PollingIn(last, active) == PollingIn(last, rest) + One(last[x].Polling?)
      && PollingIn(last[x := v], active) == PollingIn(last, rest) + One(v.Polling?)
      && PollingIn(last[x := v], rest) == PollingIn(last, rest)
  {
    var x, a, b := active[i], active[..i], active[i + 1..];
    assert active == a + ([x] + b);
    PollingSum(last, a, x, b);
    PollingSum(last[x := v], a, x, b);
    PollingFrame(last, a, x, v);
    PollingFrame(last, b, x, v);
  }

  lemma PollingSum(last: seq<Last>, a: seq<nat>, x: nat, b: seq<nat>)
    requires Below(a, |last|) && Below(b, |last|) && x < |last|
    ensures Below(a + ([x] + b), |last|) && Below(a + b, |last|)
    ensures PollingIn(last, a + ([x] + b)) == PollingIn(last, a) + One(last[x].Polling?) + PollingIn(last, b)
    ensures PollingIn(last, a + b) == PollingIn(last, a) + PollingIn(last, b)
  {
    PollingSplit(last, a, [x] + b);
    PollingSplit(last, [x], b);
    PollingSplit(last, a, b);
    assert PollingIn(last, [x]) == One(last[x].Polling?);
  }

  // ---- Preservation ----

  lemma RemoveAt(list: seq<nat>, i: nat)
    requires Distinct(list) && i < |list|
    ensures var rest := list[..i] + list[i + 1..];
      Distinct(rest) && forall x :: x in rest <==> x in list && x != list[i]
  {
    var rest := list[..i] + list[i + 1..];
    forall x | x in list && x != list[i] ensures x in rest {
      var k :| 0 <= k < |list| && list[k] == x;
      assert rest[if k < i then k else k - 1] == x;
    }
  }

  lemma CollectInv(s: State)
    requires Inv(s) && s.pc.Collect?
    ensures Inv(CollectAll(s))
  {
    CollectPartition(s);
    CollectCounts(s);
    CollectHooked(s);
  }

  lemma Joined(a: seq<nat>, b: seq<nat>)
    requires Distinct(a) && Distinct(b) && forall x :: x in a ==> x !in b
    ensures Distinct(a + b)
  {
    forall i, j | 0 <= i < j < |a + b| ensures (a + b)[i] != (a + b)[j] {
      if i < |a| <= j {
        assert (a + b)[i] in a && (a + b)[j] in b;
      }
    }
  }

  lemma CollectPartition(s: State)
    requires Inv(s) && s.pc.Collect?
    ensures Partition(CollectAll(s))
  {
    ChooseMembers(s.last, s.idle, false);
    ChooseMembers(s.last, s.idle, true);
    Joined(s.active, Choose(s.last, s.idle, false));
  }

  lemma CollectCounts(s: State)
    requires Inv(s) && s.pc.Collect?
    ensures Counts(CollectAll(s))
  {
    var signalled, rest := Choose(s.last, s.idle, false), Choose(s.last, s.idle, true);
    assert Choose(s.last, rest, false) == [] by {
      ChooseMembers(s.last, s.idle, true);
      ChooseNone(s.last, rest);
    }
    assert PollingIn(s.last, signalled) == 0 by {
      ChooseMembers(s.last, s.idle, false);
      PollingNone(s.last, signalled);
    }
    PollingSplit(s.last, s.active, signalled);
  }

  lemma CollectHooked(s: State)
    requires Inv(s) && s.pc.Collect?
    ensures Hooked(CollectAll(s))
  {
    ChooseMembers(s.last, s.idle, false);
    ChooseMembers(s.last, s.idle, true);
  }

  lemma StayActiveInv(s: State, r: Last)
    requires Inv(s) && s.pc.Pass? && s.pc.i < |s.active| && !r.Idle?
    ensures Inv(StayActive(s, s.pc.i, r))
  {
    var x := s.active[s.pc.i];
    assert x in s.active;
    PollingAt(s.last, s.active, s.pc.i, r);
    ChooseFrame(s.last, s.idle, x, r, false);
  }

  lemma GoIdleInv(s: State, added: bool)
    requires Inv(s) && s.pc.WentIdle?
    ensures Inv(GoIdle(s, s.pc.i, added))
  {
    assert s.active[s.pc.i] in s.active;
    GoIdleTyped(s, added);
    hide Partition, Counts, Hooked, GoIdle;
    GoIdleCounts(s, added);
    GoIdlePartition(s, added);
    GoIdleHooked(s, added);
  }

  lemma GoIdleTyped(s: State, added: bool)
    requires Inv(s) && s.pc.WentIdle?
    ensures Typed(GoIdle(s, s.pc.i, added)) && PointOk(GoIdle(s, s.pc.i, added))
  {
    assert s.active[s.pc.i] in s.active;
    RemoveAt(s.active, s.pc.i);
  }

  lemma GoIdlePartition(s: State, added: bool)
    requires Inv(s) && s.pc.WentIdle? && s.active[s.pc.i] in s.active
    ensures Partition(GoIdle(s, s.pc.i, added))
  {
    RemoveAt(s.active, s.pc.i);
  }

  lemma GoIdleHooked(s: State, added: bool)
    requires Inv(s) && s.pc.WentIdle? && s.active[s.pc.i] in s.active
    ensures Hooked(GoIdle(s, s.pc.i, added))
  {
    RemoveAt(s.active, s.pc.i);
  }

  lemma GoIdleCounts(s: State, added: bool)
    requires Inv(s) && s.pc.WentIdle? && s.active[s.pc.i] in s.active
    ensures Counts(GoIdle(s, s.pc.i, added))
  {
    var x := s.active[s.pc.i];
    if added {
      PollingAt(s.last, s.active, s.pc.i, Idle);
      ChooseFrame(s.last, s.idle, x, Idle, false);
      assert (s.idle + [x])[..|s.idle|] == s.idle;
    } else {
      PollingAt(s.last, s.active, s.pc.i, Working);
      ChooseFrame(s.last, s.idle, x, Working, false);
    }
  }

  lemma DrainAtInv(s: State)
    requires Inv(s) && s.pc.DrainAt?
    ensures Inv(DoMain(s, Idle, false))
  {
    if s.pc.j < |s.idle| {
      if s.hooks[s.idle[s.pc.j]].Registered? {
        DrainRemoves(s);
      } else {
        DrainWaits(s);
      }
    }
  }

  lemma DrainWaits(s: State)
    requires Inv(s) && s.pc.DrainAt? && s.pc.j < |s.idle| && !s.hooks[s.idle[s.pc.j]].Registered?
    ensures Inv(DrainOne(s, s.pc.j))
  {
    var x := s.idle[s.pc.j];
    assert s.last[x].Idle? <==> s.hooks[x].Claimed?;
  }

  lemma DrainRemoves(s: State)
    requires Inv(s) && s.pc.DrainAt? && s.pc.j < |s.idle| && s.hooks[s.idle[s.pc.j]].Registered?
    ensures Inv(DrainOne(s, s.pc.j))
  {
    var s' := DrainOne(s, s.pc.j);
    assert s'.last == s.last && s'.idle == s.idle && s'.active == s.active;
  }

  lemma DrainInv(s: State)
    requires Inv(s) && (s.pc.DrainAsleep? || s.pc.Stopped?)
    ensures Inv(DoMain(s, Idle, false))
  {
    hide Choose, PollingIn, Distinct;
    if s.pc.Stopped? {
      DrainBegins(s);
    }
  }

  lemma DrainBegins(s: State)
    requires Inv(s) && s.pc.Stopped?
    ensures Inv(DoMain(s, Idle, false))
  {
    assert forall k :: 0 <= k < |s.idle| ==> s.idle[k] in s.idle;
  }

  lemma MainInv(s: State, r: Last, added: bool)
    requires Inv(s)
    ensures Inv(DoMain(s, r, added))
  {
    match s.pc
    case Collect => CollectInv(s);
    case Pass(i) => if i < |s.active| && !s.stop && !r.Idle? { StayActiveInv(s, r); } else { PassInv(s, r); }
    case WentIdle(i) => GoIdleInv(s, added);
    case DrainAt(_) => DrainAtInv(s);
    case DrainAsleep(_, _) => DrainInv(s);
    case Stopped => DrainInv(s);
    case _ => PlainInv(s, r, added);
  }

  lemma PlainInv(s: State, r: Last, added: bool)
    requires Inv(s)
    requires
      || s.pc.Top?
      || s.pc.Compare?
      || s.pc.AfterPass?
      || s.pc.IdleCheck?
      || s.pc.Asleep?
      || s.pc.YieldCheck?
      || s.pc.Left?
    ensures Inv(DoMain(s, r, added))
  {
  }

  lemma PassInv(s: State, r: Last)
    requires Inv(s) && s.pc.Pass? && (s.pc.i == |s.active| || s.stop || r.Idle?)
    ensures Inv(DoMain(s, r, false))
  {
  }

  lemma CallbackInv(s: State, i: nat)
    requires Inv(s) && Enabled(s, Callback(i))
    ensures Inv(Ready(s, i))
  {
    CallbackCounts(s, i);
    CallbackPoint(s, i);
  }

  lemma CallbackCounts(s: State, i: nat)
    requires Inv(s) && Enabled(s, Callback(i))
    ensures Typed(Ready(s, i)) && Counts(Ready(s, i))
  {
    ChooseSignal(s.last, s.idle, i);
    PollingFrame(s.last, s.active, i, Working);
  }

  lemma CallbackPoint(s: State, i: nat)
    requires Inv(s) && Enabled(s, Callback(i)) && Typed(Ready(s, i))
    ensures PointOk(Ready(s, i))
  {
    if s.pc.DrainAsleep? {
      assert forall k :: 0 <= k < |s.idle| ==> s.idle[k] in s.idle;
    }
  }

  lemma ClaimInv(s: State, i: nat)
    requires Inv(s) && Enabled(s, Claim(i))
    ensures Inv(Do(s, Claim(i)))
  {
  }

  lemma StepInv(s: State, m: Move)
    requires Inv(s) && Enabled(s, m)
    ensures Inv(Do(s, m))
  {
    match m
    case Main(r, added) => MainInv(s, r, added);
    case Claim(i) => ClaimInv(s, i);
    case Callback(i) => CallbackInv(s, i);
    case Until => WakeInv(s, m);
    case Spurious => WakeInv(s, m);
  }

  lemma WakeInv(s: State, m: Move)
    requires Inv(s) && Enabled(s, m) && (m.Until? || m.Spurious?)
    ensures Inv(Do(s, m))
  {
    hide Choose, PollingIn, Distinct;
  }

  lemma {:induction false} RunInv(s: State, moves: seq<Move>)
    requires Inv(s) && Possible(s, moves)
    ensures Inv(Run(s, moves))
    decreases |moves|
  {
    if moves == [] {
    } else {
      StepInv(s, moves[0]);
      RunInv(Do(s, moves[0]), moves[1..]);
    }
  }

  lemma InitialInv(n: nat)
    ensures Inv(Initial(n))
  {
    PollingNone(Initial(n).last, Initial(n).active);
    forall x | 0 <= x < n ensures x in Initial(n).active {
      assert Initial(n).active[x] == x;
    }
  }
}
