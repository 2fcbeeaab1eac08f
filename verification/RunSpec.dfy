/** ContextImpl::Run as a machine: the main thread moves from one point where it can be
    interrupted to the next, and callbacks run under stateLock in between. */
module RunSpec {
  import opened Sequences

  datatype Last = Idle | Working | Polling

  /** The hasWorkWaiter of a scheduler: in no list, registered, taken by a notifier whose
      callback still has to run. */
  datatype Hook = Loose | Registered | Claimed

  datatype Pc =
    | Top                            // for (;;)
    | Compare                        // unlocked test of activeCount
    | Collect                        // move signalled schedulers, under stateLock
    | Pass(i: nat)                   // loop over activeSchedulers
    | WentIdle(i: nat)               // the scheduler reported Idle, before taking stateLock
    | AfterPass
    | IdleCheck                      // while (activeCount == 0), under stateLock
    | Asleep(woken: bool)            // stateChanged.Wait in the idle loop
    | YieldCheck
    | Stopped                        // before the drain takes stateLock
    | DrainAt(j: nat)                // in the drain, holding stateLock
    | DrainAsleep(j: nat, woken: bool)
    | Left

  /** `last`, `active`, `idle`, `activeCount`, `pollingCount` and `stop` are Run's locals;
      `hooks` is the state of each scheduler's waiter, `ended` whether the callback on
      `until` has run. */
  datatype State = State(
    pc: Pc,
    last: seq<Last>,
    active: seq<nat>,
    idle: seq<nat>,
    activeCount: int,
    pollingCount: int,
    stop: bool,
    hooks: seq<Hook>)

  /** `Main(r, added)`: `r` is what a scheduler's Run returns, `added` what AddWaiter
      returns on its condition. */
  datatype Move =
    | Main(r: Last, added: bool)
    | Claim(i: nat)
    | Callback(i: nat)
    | Until
    | Spurious

  function Numbers(n: nat): seq<nat> {
    seq(n, i => i)
  }

  function Each<T>(n: nat, x: T): seq<T> {
    seq(n, i => x)
  }

  function Initial(n: nat): State {
    State(Top, Each(n, Working), Numbers(n), [], n, 0, false, Each(n, Loose))
  }

  predicate Below(list: seq<nat>, n: nat) {
    forall k :: 0 <= k < |list| ==> list[k] < n
  }

  /** Every index is in range. */
  predicate Typed(s: State) {
    && |s.hooks| == |s.last|
    && Below(s.active, |s.last|) && Below(s.idle, |s.last|)
    && match s.pc
       case Pass(i) => i <= |s.active|
       case WentIdle(i) => i < |s.active|
       case DrainAt(j) => j <= |s.idle|
       case DrainAsleep(j, _) => j < |s.idle|
       case _ => true
  }

  /** The schedulers of `idle` last seen Idle, or those that are not, in list order. */
  function Choose(last: seq<Last>, idle: seq<nat>, isIdle: bool): (r: seq<nat>)
    requires Below(idle, |last|)
    ensures |r| <= |idle| && Below(r, |last|)
  {
    if idle == [] then []
    else
      var n := |idle| - 1;
      Choose(last, idle[..n], isIdle) + if last[idle[n]].Idle? == isIdle then [idle[n]] else []
  }

  function Wake(pc: Pc): Pc {
    match pc
    case Asleep(_) => Asleep(true)
    case DrainAsleep(j, _) => DrainAsleep(j, true)
    case _ => pc
  }

  predicate Enabled(s: State, m: Move) {
    match m
    case Main(_, _) =>
      (match s.pc case Asleep(woken) => woken case DrainAsleep(_, woken) => woken case Left => false case _ => true)
    case Claim(i) => i < |s.hooks| && s.hooks[i].Registered?
    case Callback(i) => i < |s.hooks| && s.hooks[i].Claimed? && !s.pc.DrainAt?
    case Until => !s.stop && !s.pc.DrainAt?
    case Spurious => s.pc.Asleep? || s.pc.DrainAsleep?
  }

  function CollectAll(s: State): (s': State)
    requires Typed(s)
    ensures Typed(s')
  {
    var active := s.active + Choose(s.last, s.idle, false);
    s.(pc := Pass(0), active := active, idle := Choose(s.last, s.idle, true), activeCount := |active|)
  }

  /** Scheduler `i` of the active list reported Working or Polling. */
  function StayActive(s: State, i: nat, r: Last): (s': State)
    requires Typed(s) && i < |s.active|
    ensures Typed(s')
  {
    var x := s.active[i];
    s.(pc := Pass(i + 1), last := s.last[x := r],
       pollingCount :=
         if r == s.last[x] then s.pollingCount
         else if r.Polling? then s.pollingCount + 1 else s.pollingCount - 1)
  }

  /** It reported Idle: its waiter is registered and it joins the idle list, or its
      condition was already set and it stays active. */
  function GoIdle(s: State, i: nat, added: bool): (s': State)
    requires Typed(s) && i < |s.active|
    ensures Typed(s')
  {
    var x := s.active[i];
    if added then
      s.(pc := Pass(i), last := s.last[x := Idle], hooks := s.hooks[x := Registered],
         idle := s.idle + [x], active := s.active[..i] + s.active[i + 1..],
         activeCount := s.activeCount - 1)
    else s.(pc := Pass(i + 1), last := s.last[x := Working])
  }

  /** The idle loop's test, made under stateLock and before each wait. */
  function IdleTest(s: State): State {
    s.(pc := if s.activeCount != 0 then YieldCheck else if s.stop then Stopped else Asleep(false))
  }

  function DrainOne(s: State, j: nat): State
    requires Typed(s) && j < |s.idle|
  {
    var x := s.idle[j];
    if s.hooks[x].Registered? then s.(pc := DrainAt(j + 1), hooks := s.hooks[x := Loose])
    else s.(pc := if s.last[x].Idle? then DrainAsleep(j, false) else DrainAt(j + 1))
  }

  function DoMain(s: State, r: Last, added: bool): (s': State)
    requires Typed(s)
    ensures Typed(s')
  {
    match s.pc
    case Top => s.(pc := if s.stop then Stopped else Compare)
    case Compare => s.(pc := if s.activeCount != |s.active| then Collect else Pass(0))
    case Collect => CollectAll(s)
    case Pass(i) =>
      if i == |s.active| then s.(pc := AfterPass)
      else if s.stop then s.(pc := Stopped)
      else if r.Idle? then
        s.(pc := WentIdle(i),
           pollingCount := if s.last[s.active[i]].Polling? then s.pollingCount - 1 else s.pollingCount)
      else StayActive(s, i, r)
    case WentIdle(i) => GoIdle(s, i, added)
    case AfterPass => s.(pc := if s.active == [] then IdleCheck else YieldCheck)
    case IdleCheck => IdleTest(s)
    case Asleep(_) => IdleTest(s)
    case YieldCheck => s.(pc := Top)
    case Stopped => s.(pc := DrainAt(0))
    case DrainAt(j) => if j == |s.idle| then s.(pc := Left) else DrainOne(s, j)
    case DrainAsleep(j, _) =>
      s.(pc := if s.last[s.idle[j]].Idle? then DrainAsleep(j, false) else DrainAt(j + 1))
    case Left => s
  }

  /** The drain, until it leaves or has to wait. */
  function DrainFrom(s: State): (e: State)
    requires Typed(s)
    ensures Typed(e)
    decreases if s.pc.DrainAt? then |s.idle| - s.pc.j + 1 else 0
  {
    if s.pc.DrainAt? then DrainFrom(DoMain(s, Idle, false)) else s
  }

  /** notifyReady of scheduler `i`. */
  function Ready(s: State, i: nat): State
    requires i < |s.last| && i < |s.hooks|
  {
    s.(hooks := s.hooks[i := Loose],
       pc := if s.activeCount == 0 then Wake(s.pc) else s.pc,
       activeCount := s.activeCount + 1,
       last := s.last[i := Working])
  }

  /** The callback on `until`. */
  function Stop(s: State): State {
    s.(stop := true, pc := if s.activeCount == 0 then Wake(s.pc) else s.pc)
  }

  function Do(s: State, m: Move): (s': State)
    requires Typed(s) && Enabled(s, m)
    ensures Typed(s')
  {
    match m
    case Main(r, added) => DoMain(s, r, added)
    case Claim(i) => s.(hooks := s.hooks[i := Claimed])
    case Callback(i) => Ready(s, i)
    case Until => Stop(s)
    case Spurious => s.(pc := Wake(s.pc))
  }

  predicate Possible(s: State, moves: seq<Move>)
    requires Typed(s)
    decreases |moves|
  {
    moves != [] ==> Enabled(s, moves[0]) && Possible(Do(s, moves[0]), moves[1..])
  }

  function Run(s: State, moves: seq<Move>): (end: State)
    requires Typed(s) && Possible(s, moves)
    ensures Typed(end)
    decreases |moves|
  {
    if moves == [] then s else Run(Do(s, moves[0]), moves[1..])
  }

  // ---- The invariant ----

  function PollingIn(last: seq<Last>, active: seq<nat>): nat
    requires Below(active, |last|)
  {
    if active == [] then 0
    else
      var n := |active| - 1;
      PollingIn(last, active[..n]) + if last[active[n]].Polling? then 1 else 0
  }

  predicate InDrain(pc: Pc) {
    pc.DrainAt? || pc.DrainAsleep? || pc.Left?
  }

  /** What pollingCount still owes: it is lowered before stateLock is taken. */
  function Owed(s: State): int
    requires Typed(s)
  {
    if s.pc.WentIdle? && s.last[s.active[s.pc.i]].Polling? then 1 else 0
  }

  /** The callback the drain waits for at `j` is on its way or has run, and the waiters
      after `j` have not been looked at. */
  ghost predicate DrainPending(s: State, j: nat)
    requires Typed(s) && j < |s.idle|
  {
    && (s.last[s.idle[j]].Idle? <==> s.hooks[s.idle[j]].Claimed?)
    && (forall k :: j < k < |s.idle| && s.last[s.idle[k]].Idle? ==> !s.hooks[s.idle[k]].Loose?)
  }

  /** The active and idle lists partition the schedulers. */
  ghost predicate Partition(s: State) {
    && Distinct(s.active) && Distinct(s.idle)
    && (forall x :: x in s.active ==> x !in s.idle)
    && (forall x :: 0 <= x < |s.last| ==> x in s.active || x in s.idle)
  }

  /** activeCount counts the active schedulers and the idle ones already signalled,
      pollingCount the active ones last seen polling. */
  ghost predicate Counts(s: State)
    requires Typed(s)
  {
    && s.activeCount == |s.active| + |Choose(s.last, s.idle, false)|
    && s.pollingCount + Owed(s) == PollingIn(s.last, s.active)
  }

  /** A waiter is out exactly for the idle schedulers not yet signalled. */
  ghost predicate Hooked(s: State)
    requires Typed(s)
  {
    && (forall x :: 0 <= x < |s.last| && !s.hooks[x].Loose? ==> x in s.idle && s.last[x].Idle?)
    && (forall x :: x in s.active ==> !s.last[x].Idle?)
    && (forall x :: x in s.idle ==> !s.last[x].Polling?)
    && (!InDrain(s.pc) ==> forall x :: x in s.idle && s.last[x].Idle? ==> !s.hooks[x].Loose?)
  }

  /** The first `j` idle schedulers have no waiter out. */
  ghost predicate Cleared(s: State, j: nat)
    requires Typed(s) && j <= |s.idle|
  {
    forall k :: 0 <= k < j ==> s.hooks[s.idle[k]].Loose?
  }

  ghost predicate PointOk(s: State)
    requires Typed(s)
  {
    && (s.pc.DrainAt? || s.pc.DrainAsleep? ==> Cleared(s, s.pc.j))
    && (s.pc.Left? ==> Cleared(s, |s.idle|))
    && (s.pc.DrainAt? ==> forall k :: s.pc.j <= k < |s.idle| && s.last[s.idle[k]].Idle? ==> !s.hooks[s.idle[k]].Loose?)
    && (s.pc.DrainAsleep? ==> DrainPending(s, s.pc.j))
    && (s.pc.IdleCheck? || s.pc.Asleep? ==> s.active == [])
    && (s.pc == Asleep(false) ==> s.activeCount == 0 && !s.stop)
    && (s.pc.Stopped? || InDrain(s.pc) ==> s.stop)
  }

  ghost predicate Inv(s: State) {
    Typed(s) && Partition(s) && Counts(s) && Hooked(s) && PointOk(s)
  }
}
