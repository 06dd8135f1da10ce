/** Graceful shutdown: a countdown on a timer, a signal handler and a hard stop, all on one strand.

    The web server (`server_impl`) and the worker (`application_impl`) share this machine; the
    worker also says how many seconds remain each time it arms the timer.  The clock, the order in
    which ready handlers run, and the requests of other threads are left to the environment.
 */
module Shutdown {

  import opened Wrappers

  /** Clock ticks (nanoseconds) in a second. */
  const SECOND := 1_000_000_000

  // ---------------------------------------------------------------------------
  // Duration arithmetic
  // ---------------------------------------------------------------------------

  /** Integer division that truncates toward zero. */
  function Truncate(a: int, b: int): int
    requires b > 0
  {
    if a >= 0 then a / b else -((-a) / b)
  }

  /** `ceil<seconds>`: convert by truncation, and add one if that was too small. */
  function CeilSeconds(d: int): int {
    var t := Truncate(d, SECOND);
    if t * SECOND < d then t + 1 else t
  }

  /** It is the ceiling, for negative durations too. */
  lemma CeilIsLeast(d: int, n: int)
    ensures CeilSeconds(d) <= n <==> d <= n * SECOND
  {
  }

  /** The number of ten-second waits that cover `n` seconds. */
  function Tens(n: int): int {
    if n <= 0 then 0 else (n + 9) / 10
  }

  function Min(a: int, b: int): int {
    if a < b then a else b
  }

  // ---------------------------------------------------------------------------
  // The machine
  // ---------------------------------------------------------------------------

  datatype Handler =
    | TimerDone(aborted: bool)
    | SignalDone(aborted: bool)
    | CallShutdown(cooldown: int)
    | CallStop

  /** The handlers posted to the strand that have not run: how many of each kind. */
  datatype Ready = Ready(
    fired: nat,
    firedAborted: nat,
    signalled: nat,
    signalledAborted: nat,
    shutdowns: multiset<int>,
    stops: nat)
  {
    function Count(h: Handler): nat {
      match h
      case TimerDone(aborted) => if aborted then firedAborted else fired
      case SignalDone(aborted) => if aborted then signalledAborted else signalled
      case CallShutdown(cooldown) => shutdowns[cooldown]
      case CallStop => stops
    }

    /** With `n` handlers of kind `h`. */
    function With(h: Handler, n: nat): Ready {
      match h
      case TimerDone(aborted) => if aborted then this.(firedAborted := n) else this.(fired := n)
      case SignalDone(aborted) => if aborted then this.(signalledAborted := n) else this.(signalled := n)
      case CallShutdown(cooldown) => this.(shutdowns := shutdowns[cooldown := n])
      case CallStop => this.(stops := n)
    }

    function Post(h: Handler, n: nat): Ready {
      With(h, Count(h) + n)
    }

    function Take(h: Handler): Ready
      requires Count(h) > 0
    {
      With(h, Count(h) - 1)
    }
  }

  const NOTHING_READY := Ready(0, 0, 0, 0, multiset{}, 0)

  /** The body of `stop` taking effect: at the end of a countdown that was due at `due`, with the
      timer's expiry and `gap` at that moment; or at a request or a second signal. */
  datatype StopRecord =
    | ByTimer(at: int, due: int, expiry: Option<int>, gap: int)
    | ByRequest(at: int)

  /** A call of `shutdown` on the strand: it takes effect and finds so many seconds left; or it returns at once. */
  datatype CallRecord = Taken(found: int) | Refused

  /** History: the delay, when the timer was armed, until `expires_after` read the clock again; the accepted
      cool-down; how often the timer was armed; the seconds announced; the effective stops; the number
      of signals delivered; and the calls of `shutdown`. */
  datatype Log = Log(
    gap: int,
    cooldown: int,
    arms: nat,
    notices: seq<int>,
    stops: seq<StopRecord>,
    signals: nat,
    calls: seq<CallRecord>)

  /** `expiry` and `shutdownTime` are `None` for the time point `never()`.  `ready` are the handlers
      posted to the strand; `log` is history. */
  datatype Machine = Machine(
    now: int,
    running: bool,
    expiry: Option<int>,
    shutdownTime: Option<int>,
    stop: bool,
    timerWaits: nat,
    signalWaits: nat,
    ready: Ready,
    log: Log)

  /** Successive readings of the steady clock inside one handler. */
  datatype Clock = Clock(t1: int, t2: int, t3: int)

  datatype Event =
    | Tick(t: int)                      // time passes
    | StartRun                          // run() is called
    | AskShutdown(cooldown: int)        // shutdown() is called off the strand
    | AskStop                           // stop() is called off the strand
    | TimerFires
    | SignalArrives
    | RunHandler(h: Handler, c: Clock)  // a ready handler runs on the strand

  datatype Outcome = State(m: Machine) | Impossible | Undefined

  function Initial(now: int): Machine {
    Machine(now, false, None, None, false, 0, 0, NOTHING_READY, Log(0, 0, 0, [], [], 0, []))
  }

  function DoStop(m: Machine, r: StopRecord): Machine {
    if m.stop then m
    else
      m.(stop := true, log := m.log.(stops := m.log.stops + [r]), timerWaits := 0, signalWaits := 0,
         ready := m.ready.Post(TimerDone(true), m.timerWaits).Post(SignalDone(true), m.signalWaits))
  }

  /** `expires_after` cancels any wait on the timer before `async_wait` adds one. */
  function Arm(m: Machine, remain: int, c: Clock): Machine {
    m.(expiry := Some(c.t3 + Min(remain, 10) * SECOND), timerWaits := 1,
       ready := m.ready.Post(TimerDone(true), m.timerWaits),
       log := m.log.(gap := c.t3 - c.t2, arms := m.log.arms + 1, notices := m.log.notices + [remain]))
  }

  function AfterTimer(m: Machine, c: Clock): Machine
    requires m.shutdownTime.Some?
  {
    var remain := CeilSeconds(m.shutdownTime.value - c.t2);
    if remain <= 0 then DoStop(m, ByTimer(c.t2, m.shutdownTime.value, m.expiry, m.log.gap)) else Arm(m, remain, c)
  }

  function DoShutdown(m: Machine, cooldown: int, c: Clock): Machine {
    if m.expiry.Some? then m.(log := m.log.(calls := m.log.calls + [Refused]))
    else AfterTimer(Accepted(m, cooldown, c), c)
  }

  /** The shutdown time is set; the timer handler, called next, will find the seconds recorded. */
  function Accepted(m: Machine, cooldown: int, c: Clock): Machine {
    var due := c.t1 + cooldown * SECOND;
    m.(shutdownTime := Some(due),
       log := m.log.(cooldown := cooldown, calls := m.log.calls + [Taken(CeilSeconds(due - c.t2))]))
  }

  function AfterSignal(m: Machine, c: Clock): Machine {
    var m1 := m.(log := m.log.(signals := m.log.signals + 1));
    if m.expiry.None? then DoShutdown(m1.(signalWaits := m.signalWaits + 1), 30, c)
    else DoStop(m1, ByRequest(c.t1))
  }

  function Handle(m: Machine, h: Handler, c: Clock): Outcome {
    match h
    case TimerDone(aborted) =>
      if aborted then State(m) else if m.shutdownTime.None? then Undefined else State(AfterTimer(m, c))
    case SignalDone(aborted) => State(if aborted then m else AfterSignal(m, c))
    case CallShutdown(cooldown) => State(DoShutdown(m, cooldown, c))
    case CallStop => State(DoStop(m, ByRequest(c.t1)))
  }

  /** Timers do not fire early: a wait completes only when the clock has reached its expiry. */
  function Step(m: Machine, e: Event): Outcome {
    match e
    case Tick(t) => if t < m.now then Impossible else State(m.(now := t))
    case StartRun => State(if m.running then m else m.(running := true, signalWaits := m.signalWaits + 1))
    case AskShutdown(cooldown) => State(m.(ready := m.ready.Post(CallShutdown(cooldown), 1)))
    case AskStop => State(m.(ready := m.ready.Post(CallStop, 1)))
    case TimerFires =>
      if m.timerWaits == 0 || m.expiry.None? || m.now < m.expiry.value then Impossible
      else State(m.(timerWaits := m.timerWaits - 1, ready := m.ready.Post(TimerDone(false), 1)))
    case SignalArrives =>
      if m.signalWaits == 0 then Impossible
      else State(m.(signalWaits := m.signalWaits - 1, ready := m.ready.Post(SignalDone(false), 1)))
    case RunHandler(h, c) =>
      if m.ready.Count(h) == 0 || !(m.now <= c.t1 <= c.t2 <= c.t3) then Impossible
      else Handle(m.(now := c.t3, ready := m.ready.Take(h)), h, c)
  }

  function Run(m: Machine, es: seq<Event>): Outcome
    decreases |es|
  {
    if es == [] then State(m)
    else match Step(m, es[0])
      case State(m') => Run(m', es[1..])
      case Impossible => Impossible
      case Undefined => Undefined
  }

  // ---------------------------------------------------------------------------
  // Invariants
  // ---------------------------------------------------------------------------

  /** Timer waits and completed timer waits that have not been handled. */
  function TimerTokens(m: Machine): int {
    m.timerWaits + m.ready.Count(TimerDone(false))
  }

  function SignalTokens(m: Machine): int {
    m.signalWaits + m.ready.Count(SignalDone(false))
  }

  ghost predicate TokenInv(m: Machine) {
    && TimerTokens(m) <= 1
    && SignalTokens(m) <= (if m.running then 1 else 0)
    && (TimerTokens(m) > 0 ==> m.expiry.Some?)
    && (m.ready.Count(TimerDone(false)) > 0 ==> m.expiry.Some? && m.expiry.value <= m.now)
    && (m.expiry.Some? ==> m.shutdownTime.Some?)
  }

  ghost predicate StopInv(m: Machine) {
    && |m.log.stops| == (if m.stop then 1 else 0)
    && (m.log.signals >= 1 ==> m.stop || m.expiry.Some?)
    && (m.log.signals >= 2 ==> m.stop)
  }

  /** Seconds from the timer's expiry to the shutdown time. */
  function Left(m: Machine): int
    requires m.expiry.Some? && m.shutdownTime.Some?
  {
    CeilSeconds(m.shutdownTime.value - m.expiry.value)
  }

  /** While the countdown runs: the waits already made and those still needed are within the budget of
      one per ten seconds; and the timer expires less than a second after the shutdown time. */
  ghost predicate CountdownInv(m: Machine) {
    && (m.expiry.None? ==> m.log.arms == 0)
    && (m.expiry.Some? ==> m.shutdownTime.Some?)
    && (m.expiry.Some? ==> 0 < m.log.cooldown && m.log.arms + Tens(Left(m)) <= Tens(m.log.cooldown))
    && (m.expiry.Some? ==> m.expiry.value < m.shutdownTime.value + SECOND + m.log.gap)
    && (forall i :: 0 <= i < |m.log.stops| && m.log.stops[i].ByTimer? ==> OnTime(m.log.stops[i]))
  }

  ghost predicate OnTime(r: StopRecord)
    requires r.ByTimer?
  {
    && r.due <= r.at
    && (r.expiry.Some? ==> r.expiry.value < r.due + SECOND + r.gap)
  }

  /** Announced seconds are positive, within the cool-down, and each at least ten below the last. */
  ghost predicate CountsDown(notices: seq<int>, cooldown: int) {
    && (forall i :: 0 <= i < |notices| ==> 0 < notices[i] <= cooldown - 10 * i)
    && (forall i :: 0 < i < |notices| ==> notices[i] <= notices[i - 1] - 10)
  }

  /** What the worker announces: one notice for each wait. */
  ghost predicate NoticeInv(m: Machine) {
    && |m.log.notices| == m.log.arms
    && (m.expiry.None? ==> m.log.arms == 0)
    && (m.expiry.Some? ==> m.shutdownTime.Some? && m.log.arms > 0)
    && CountsDown(m.log.notices, m.log.cooldown)
    && (m.expiry.Some? ==> Left(m) <= Max(m.log.notices[m.log.arms - 1] - 10, 0))
  }

  function Max(a: int, b: int): int {
    if a < b then b else a
  }

  ghost predicate Counting(m: Machine) {
    CountdownInv(m) && NoticeInv(m)
  }

  lemma StopKeepsTokens(m: Machine, r: StopRecord)
    requires TokenInv(m)
    ensures TokenInv(DoStop(m, r))
  {
    if !m.stop {
      assert DoStop(m, r).ready.Count(TimerDone(false)) == m.ready.Count(TimerDone(false));
      assert DoStop(m, r).ready.Count(SignalDone(false)) == m.ready.Count(SignalDone(false));
    }
  }

  lemma OnTimerKeepsTokens(m: Machine, c: Clock)
    requires TokenInv(m) && m.shutdownTime.Some? && TimerTokens(m) == 0
    ensures TokenInv(AfterTimer(m, c))
  {
    var remain := CeilSeconds(m.shutdownTime.value - c.t2);
    if remain <= 0 {
      StopKeepsTokens(m, ByTimer(c.t2, m.shutdownTime.value, m.expiry, m.log.gap));
    } else {
      assert Arm(m, remain, c).ready == m.ready;
    }
  }

  lemma SignalKeepsTokens(m: Machine, c: Clock)
    requires TokenInv(m) && m.running && SignalTokens(m) == 0
    ensures TokenInv(AfterSignal(m, c))
  {
    var m1 := m.(log := m.log.(signals := m.log.signals + 1));
    if m.expiry.None? {
      ShutdownKeepsTokens(m1.(signalWaits := m.signalWaits + 1), 30, c);
    } else {
      StopKeepsTokens(m1, ByRequest(c.t1));
    }
  }

  lemma HandleKeepsTokens(m: Machine, h: Handler, c: Clock)
    requires TokenInv(m) && m.ready.Count(h) > 0 && m.now <= c.t1 <= c.t2 <= c.t3
    ensures Step(m, RunHandler(h, c)).State? && TokenInv(Step(m, RunHandler(h, c)).m)
  {
    var m1 := m.(now := c.t3, ready := m.ready.Take(h));
    match h
    case TimerDone(aborted) => if !aborted { OnTimerKeepsTokens(m1, c); }
    case SignalDone(aborted) => if !aborted { SignalKeepsTokens(m1, c); }
    case CallShutdown(cooldown) => ShutdownKeepsTokens(m1, cooldown, c);
    case CallStop => StopKeepsTokens(m1, ByRequest(c.t1));
  }

  lemma ShutdownKeepsTokens(m: Machine, cooldown: int, c: Clock)
    requires TokenInv(m)
    ensures TokenInv(DoShutdown(m, cooldown, c))
  {
    if m.expiry.None? {
      OnTimerKeepsTokens(Accepted(m, cooldown, c), c);
    }
  }

  lemma StepKeepsTokens(m: Machine, e: Event)
    requires TokenInv(m)
    ensures Step(m, e) != Undefined
    ensures Step(m, e).State? ==> TokenInv(Step(m, e).m)
  {
    if Step(m, e) != Impossible && e.RunHandler? {
      HandleKeepsTokens(m, e.h, e.c);
    }
  }

  /** After the timer handler either the flag is set or the timer is armed. */
  lemma TimerKeepsStops(m: Machine, c: Clock)
    requires m.shutdownTime.Some? && |m.log.stops| == (if m.stop then 1 else 0) && (m.log.signals >= 2 ==> m.stop)
    ensures StopInv(AfterTimer(m, c))
  {
  }

  lemma HandleKeepsStops(m: Machine, h: Handler, c: Clock)
    requires StopInv(m)
    ensures Handle(m, h, c).State? ==> StopInv(Handle(m, h, c).m)
  {
    match h
    case TimerDone(aborted) => if !aborted && m.shutdownTime.Some? { TimerKeepsStops(m, c); }
    case SignalDone(aborted) =>
      if !aborted && m.expiry.None? {
        var m1 := m.(log := m.log.(signals := m.log.signals + 1), signalWaits := m.signalWaits + 1);
        TimerKeepsStops(Accepted(m1, 30, c), c);
        assert AfterSignal(m, c) == AfterTimer(Accepted(m1, 30, c), c);
      }
    case CallShutdown(cooldown) =>
      if m.expiry.None? { TimerKeepsStops(Accepted(m, cooldown, c), c); }
    case CallStop =>
  }

  lemma StepKeepsStops(m: Machine, e: Event)
    requires StopInv(m)
    ensures Step(m, e).State? ==> StopInv(Step(m, e).m)
  {
    if e.RunHandler? && Step(m, e).State? {
      HandleKeepsStops(m.(now := e.c.t3, ready := m.ready.Take(e.h)), e.h, e.c);
    }
  }

  /** Arming the timer with `remain` seconds to go leaves less than a second beyond the shutdown time, and
      at least `remain` seconds minus the wait are used up. */
  lemma ArmLeaves(m: Machine, remain: int, c: Clock)
    requires m.shutdownTime.Some? && remain == CeilSeconds(m.shutdownTime.value - c.t2) && remain > 0
    requires c.t2 <= c.t3
    ensures Left(Arm(m, remain, c)) <= remain - Min(remain, 10)
    ensures Tens(Left(Arm(m, remain, c))) <= Tens(remain) - 1
    ensures Arm(m, remain, c).expiry.value < m.shutdownTime.value + SECOND + Arm(m, remain, c).log.gap
  {
    CeilIsLeast(m.shutdownTime.value - c.t2, remain);
    CeilIsLeast(m.shutdownTime.value - c.t2, remain - 1);
    CeilIsLeast(m.shutdownTime.value - Arm(m, remain, c).expiry.value, remain - Min(remain, 10));
  }

  /** A firing is handled no earlier than the expiry, so it finds no more than `Left` seconds remaining. */
  lemma FiringFinds(m: Machine, t: int)
    requires m.expiry.Some? && m.shutdownTime.Some? && m.expiry.value <= t
    ensures CeilSeconds(m.shutdownTime.value - t) <= Left(m)
  {
    CeilIsLeast(m.shutdownTime.value - t, Left(m));
    CeilIsLeast(m.shutdownTime.value - m.expiry.value, Left(m));
  }

  lemma AcceptedFinds(t: int, cooldown: int, t2: int)
    requires t <= t2
    ensures CeilSeconds(t + cooldown * SECOND - t2) <= cooldown
  {
    CeilIsLeast(t + cooldown * SECOND - t2, cooldown);
  }

  /** The most seconds the next notice may announce. */
  function NextNotice(notices: seq<int>, cooldown: int): int {
    if notices == [] then cooldown else notices[|notices| - 1] - 10
  }

  lemma AnnounceCountsDown(notices: seq<int>, cooldown: int, remain: int)
    requires CountsDown(notices, cooldown) && 0 < remain <= NextNotice(notices, cooldown)
    ensures CountsDown(notices + [remain], cooldown)
  {
  }

  lemma ArmKeepsNotices(m: Machine, remain: int, c: Clock)
    requires m.shutdownTime.Some? && remain == CeilSeconds(m.shutdownTime.value - c.t2)
    requires c.t2 <= c.t3
    requires |m.log.notices| == m.log.arms && CountsDown(m.log.notices, m.log.cooldown)
    requires 0 < remain <= NextNotice(m.log.notices, m.log.cooldown)
    ensures NoticeInv(Arm(m, remain, c))
  {
    ArmLeaves(m, remain, c);
    AnnounceCountsDown(m.log.notices, m.log.cooldown, remain);
  }

  lemma StopKeepsCountdown(m: Machine, r: StopRecord)
    requires Counting(m) && (r.ByTimer? ==> OnTime(r))
    ensures Counting(DoStop(m, r))
  {
    if !m.stop {
      assert m.expiry.Some? ==> Left(DoStop(m, r)) == Left(m);
    }
  }

  lemma ArmKeepsCountdown(m: Machine, remain: int, c: Clock)
    requires m.shutdownTime.Some? && Counting(m) && c.t2 <= c.t3
    requires 0 < remain == CeilSeconds(m.shutdownTime.value - c.t2)
    requires remain <= if m.expiry.None? then m.log.cooldown else Left(m)
    ensures Counting(Arm(m, remain, c))
  {
    ArmLeaves(m, remain, c);
    ArmKeepsNotices(m, remain, c);
    assert CountdownInv(Arm(m, remain, c));
  }

  lemma TimeUpKeepsCountdown(m: Machine, c: Clock)
    requires m.shutdownTime.Some? && Counting(m) && CeilSeconds(m.shutdownTime.value - c.t2) <= 0
    ensures Counting(DoStop(m, ByTimer(c.t2, m.shutdownTime.value, m.expiry, m.log.gap)))
  {
    CeilIsLeast(m.shutdownTime.value - c.t2, 0);
    StopKeepsCountdown(m, ByTimer(c.t2, m.shutdownTime.value, m.expiry, m.log.gap));
  }

  /** A timer handler that finds `remain` seconds: no more than were left at the expiry, or, when the
      countdown has just been accepted, than the whole of it. */
  lemma TimerKeepsCountdown(m: Machine, remain: int, c: Clock)
    requires m.shutdownTime.Some? && Counting(m) && c.t2 <= c.t3
    requires remain == CeilSeconds(m.shutdownTime.value - c.t2)
    requires remain <= if m.expiry.None? then m.log.cooldown else Left(m)
    ensures Counting(AfterTimer(m, c))
  {
    if remain > 0 {
      ArmKeepsCountdown(m, remain, c);
      assert AfterTimer(m, c) == Arm(m, remain, c);
    } else {
      TimeUpKeepsCountdown(m, c);
    }
  }

  lemma AcceptKeepsCountdown(m: Machine, c: Clock)
    requires m.shutdownTime.Some? && m.expiry.None? && Counting(m)
    requires m.shutdownTime.value == c.t1 + m.log.cooldown * SECOND && c.t1 <= c.t2 <= c.t3
    ensures Counting(AfterTimer(m, c))
  {
    AcceptedFinds(c.t1, m.log.cooldown, c.t2);
    TimerKeepsCountdown(m, CeilSeconds(m.shutdownTime.value - c.t2), c);
  }

  lemma FiringKeepsCountdown(m: Machine, c: Clock)
    requires Counting(m) && c.t1 <= c.t2 <= c.t3
    requires m.expiry.Some? && m.expiry.value <= c.t2
    ensures Counting(AfterTimer(m, c))
  {
    FiringFinds(m, c.t2);
    TimerKeepsCountdown(m, CeilSeconds(m.shutdownTime.value - c.t2), c);
  }

  /** Setting the shutdown time before the timer has been armed. */
  lemma AcceptedKeepsCountdown(m: Machine, cooldown: int, c: Clock)
    requires Counting(m) && m.expiry.None?
    ensures Counting(Accepted(m, cooldown, c))
  {
    assert m.log.notices == [];
  }

  lemma ShutdownKeepsCountdown(m: Machine, cooldown: int, c: Clock)
    requires Counting(m) && c.t1 <= c.t2 <= c.t3
    ensures Counting(DoShutdown(m, cooldown, c))
  {
    if m.expiry.None? {
      AcceptedKeepsCountdown(m, cooldown, c);
      AcceptKeepsCountdown(Accepted(m, cooldown, c), c);
      assert DoShutdown(m, cooldown, c) == AfterTimer(Accepted(m, cooldown, c), c);
    } else {
      SameCountdown(m, DoShutdown(m, cooldown, c));
    }
  }

  /** The countdown's invariants do not depend on the clock, the ready handlers or the signals. */
  lemma SameCountdown(m: Machine, m': Machine)
    requires Counting(m)
    requires m'.expiry == m.expiry && m'.shutdownTime == m.shutdownTime && m'.log.gap == m.log.gap
    requires m'.log.cooldown == m.log.cooldown && m'.log.arms == m.log.arms
    requires m'.log.notices == m.log.notices && m'.log.stops == m.log.stops
    ensures Counting(m')
  {
    assert m.expiry.Some? ==> Left(m') == Left(m);
  }

  lemma FirstSignalKeepsCountdown(m: Machine, c: Clock)
    requires Counting(m) && c.t1 <= c.t2 <= c.t3 && m.expiry.None?
    ensures Counting(AfterSignal(m, c))
  {
    var m1 := m.(log := m.log.(signals := m.log.signals + 1), signalWaits := m.signalWaits + 1);
    SameCountdown(m, m1);
    ShutdownKeepsCountdown(m1, 30, c);
    assert AfterSignal(m, c) == DoShutdown(m1, 30, c);
  }

  lemma LaterSignalKeepsCountdown(m: Machine, c: Clock)
    requires Counting(m) && m.expiry.Some?
    ensures Counting(AfterSignal(m, c))
  {
    var m1 := m.(log := m.log.(signals := m.log.signals + 1));
    SameCountdown(m, m1);
    StopKeepsCountdown(m1, ByRequest(c.t1));
    assert AfterSignal(m, c) == DoStop(m1, ByRequest(c.t1));
  }

  lemma HandleKeepsCountdown(m: Machine, h: Handler, c: Clock)
    requires Counting(m) && c.t1 <= c.t2 <= c.t3
    requires h == TimerDone(false) ==> m.expiry.Some? && m.expiry.value <= c.t1
    ensures Handle(m, h, c).State? && Counting(Handle(m, h, c).m)
  {
    match h
    case TimerDone(aborted) => if !aborted { FiringKeepsCountdown(m, c); }
    case SignalDone(aborted) =>
      if !aborted {
        if m.expiry.None? { FirstSignalKeepsCountdown(m, c); } else { LaterSignalKeepsCountdown(m, c); }
      }
    case CallShutdown(cooldown) => ShutdownKeepsCountdown(m, cooldown, c);
    case CallStop => StopKeepsCountdown(m, ByRequest(c.t1));
  }

  lemma StepKeepsCountdown(m: Machine, e: Event)
    requires TokenInv(m) && Counting(m)
    ensures Step(m, e).State? ==> Counting(Step(m, e).m)
  {
    if Step(m, e).State? {
      if e.RunHandler? {
        var m1 := m.(now := e.c.t3, ready := m.ready.Take(e.h));
        SameCountdown(m, m1);
        HandleKeepsCountdown(m1, e.h, e.c);
      } else {
        SameCountdown(m, Step(m, e).m);
      }
    }
  }

  /** No recorded call found seconds left. */
  ghost predicate Spent(calls: seq<CallRecord>) {
    forall i :: 0 <= i < |calls| && calls[i].Taken? ==> calls[i].found <= 0
  }

  /** A call took effect exactly when no earlier one found seconds left; and some call found seconds left exactly
      if the timer has been armed. */
  ghost predicate CallsInv(m: Machine) {
    && (m.expiry.None? <==> Spent(m.log.calls))
    && (forall i :: 0 <= i < |m.log.calls| ==> (m.log.calls[i].Taken? <==> Spent(m.log.calls[..i])))
  }

  lemma NextCall(calls: seq<CallRecord>, r: CallRecord)
    requires forall i :: 0 <= i < |calls| ==> (calls[i].Taken? <==> Spent(calls[..i]))
    requires r.Taken? <==> Spent(calls)
    ensures var calls' := calls + [r];
      && (Spent(calls') <==> Spent(calls) && (r.Taken? ==> r.found <= 0))
      && forall i :: 0 <= i < |calls'| ==> (calls'[i].Taken? <==> Spent(calls'[..i]))
  {
    var calls' := calls + [r];
    assert calls'[|calls|] == r && forall i :: 0 <= i < |calls| ==> calls'[i] == calls[i];
    forall i | 0 <= i < |calls'|
      ensures calls'[i].Taken? <==> Spent(calls'[..i])
    {
      assert calls'[..i] == if i < |calls| then calls[..i] else calls;
    }
  }

  lemma ShutdownKeepsCalls(m: Machine, cooldown: int, c: Clock)
    requires CallsInv(m)
    ensures CallsInv(DoShutdown(m, cooldown, c))
  {
    NextCall(m.log.calls, if m.expiry.Some? then Refused else Taken(CeilSeconds(c.t1 + cooldown * SECOND - c.t2)));
  }

  lemma SameCalls(m: Machine, m': Machine)
    requires CallsInv(m) && m'.log.calls == m.log.calls && (m'.expiry.None? <==> m.expiry.None?)
    ensures CallsInv(m')
  {
  }

  lemma StepKeepsCalls(m: Machine, e: Event)
    requires TokenInv(m) && CallsInv(m) && Step(m, e).State?
    ensures CallsInv(Step(m, e).m)
  {
    if e.RunHandler? {
      var m1 := m.(now := e.c.t3, ready := m.ready.Take(e.h));
      match e.h
      case TimerDone(aborted) => SameCalls(m, Step(m, e).m);
      case SignalDone(aborted) =>
        if aborted || m.expiry.Some? {
          SameCalls(m, Step(m, e).m);
        } else {
          var m2 := m1.(log := m1.log.(signals := m1.log.signals + 1), signalWaits := m1.signalWaits + 1);
          SameCalls(m, m2);
          ShutdownKeepsCalls(m2, 30, e.c);
          assert Step(m, e).m == DoShutdown(m2, 30, e.c);
        }
      case CallShutdown(cooldown) =>
        SameCalls(m, m1);
        ShutdownKeepsCalls(m1, cooldown, e.c);
        assert Step(m, e).m == DoShutdown(m1, cooldown, e.c);
      case CallStop => SameCalls(m, Step(m, e).m);
    } else {
      SameCalls(m, Step(m, e).m);
    }
  }

  ghost predicate Inv(m: Machine) {
    TokenInv(m) && StopInv(m) && Counting(m) && CallsInv(m)
  }

  lemma {:induction false} RunKeepsInv(m: Machine, es: seq<Event>)
    requires Inv(m)
    ensures Run(m, es) != Undefined
    ensures Run(m, es).State? ==> Inv(Run(m, es).m)
    decreases |es|
  {
    if es != [] {
      StepKeepsTokens(m, es[0]);
      StepKeepsStops(m, es[0]);
      StepKeepsCountdown(m, es[0]);
      if Step(m, es[0]).State? {
        StepKeepsCalls(m, es[0]);
        RunKeepsInv(Step(m, es[0]).m, es[1..]);
      }
    }
  }

  // ---------------------------------------------------------------------------
  // Main results
  // ---------------------------------------------------------------------------

  /** For every interleaving, including firings already queued when `stop` runs: the handlers never read an
      unset shutdown time; at most one timer wait and one signal wait are outstanding; the body of
      `stop` takes effect at most once, and exactly when the flag is set; two delivered signals set it. */
  lemma ShutdownIsSafe(now: int, es: seq<Event>)
    ensures Run(Initial(now), es) != Undefined
    ensures Run(Initial(now), es).State? ==> var m := Run(Initial(now), es).m;
      && m.timerWaits <= 1 && m.signalWaits <= 1
      && |m.log.stops| == (if m.stop then 1 else 0)
      && (m.log.signals >= 2 ==> m.stop)
  {
    RunKeepsInv(Initial(now), es);
  }

  /** A countdown accepted with `cooldown` seconds arms the timer at most once for each ten seconds begun. */
  lemma WaitsAreBounded(now: int, es: seq<Event>)
    requires Run(Initial(now), es).State?
    ensures var m := Run(Initial(now), es).m;
      m.log.arms <= Tens(m.log.cooldown)
  {
    RunKeepsInv(Initial(now), es);
  }

  /** The timer path never stops before the shutdown time; and when the last firing is at most `late`
      ticks late it stops less than a second, plus `late`, plus the delay inside the handler, after it. */
  lemma TimerStopIsPrompt(now: int, es: seq<Event>, r: StopRecord, late: int)
    requires Run(Initial(now), es).State? && r in Run(Initial(now), es).m.log.stops && r.ByTimer?
    ensures r.due <= r.at
    ensures r.expiry.Some? && r.at - r.expiry.value <= late ==> r.at < r.due + SECOND + r.gap + late
  {
    RunKeepsInv(Initial(now), es);
    var m := Run(Initial(now), es).m;
    var i :| 0 <= i < |m.log.stops| && m.log.stops[i] == r;
    assert OnTime(m.log.stops[i]);
  }

  /** The worker's announcements: one for each wait, positive, within the cool-down, and each at
      least ten seconds below the one before. */
  lemma NoticesCountDown(now: int, es: seq<Event>)
    requires Run(Initial(now), es).State?
    ensures var m := Run(Initial(now), es).m;
      && |m.log.notices| == m.log.arms && CountsDown(m.log.notices, m.log.cooldown)
  {
    RunKeepsInv(Initial(now), es);
  }

  lemma ArmedIsKept(m: Machine, e: Event)
    requires m.expiry.Some? && m.shutdownTime.Some? && Step(m, e).State?
    ensures var m' := Step(m, e).m;
      m'.expiry.Some? && m'.shutdownTime == m.shutdownTime && m'.log.cooldown == m.log.cooldown
  {
  }

  /** Once the timer has been armed, nothing changes the shutdown time and no further shutdown is accepted. */
  lemma {:induction false} ArmedIsFinal(now: int, es: seq<Event>, more: seq<Event>)
    requires Run(Initial(now), es).State? && Run(Initial(now), es).m.expiry.Some?
    requires Run(Run(Initial(now), es).m, more).State?
    ensures var (m, m') := (Run(Initial(now), es).m, Run(Run(Initial(now), es).m, more).m);
      m'.expiry.Some? && m'.shutdownTime == m.shutdownTime && m'.log.cooldown == m.log.cooldown
  {
    RunKeepsInv(Initial(now), es);
    ArmedStays(Run(Initial(now), es).m, more);
  }

  lemma {:induction false} ArmedStays(m: Machine, es: seq<Event>)
    requires m.expiry.Some? && m.shutdownTime.Some? && Run(m, es).State?
    ensures var m' := Run(m, es).m;
      m'.expiry.Some? && m'.shutdownTime == m.shutdownTime && m'.log.cooldown == m.log.cooldown
    decreases |es|
  {
    if es != [] {
      ArmedIsKept(m, es[0]);
      ArmedStays(Step(m, es[0]).m, es[1..]);
    }
  }

  /** `shutdown` is meant to be callable only once.  Over every run: a call takes effect exactly when every
      earlier one found no seconds left, and the timer has been armed exactly when some call found some. */
  lemma TakenIffEarlierSpent(now: int, es: seq<Event>)
    requires Run(Initial(now), es).State?
    ensures var m := Run(Initial(now), es).m;
      && (forall i :: 0 <= i < |m.log.calls| ==> (m.log.calls[i].Taken? <==> Spent(m.log.calls[..i])))
      && (m.expiry.None? <==> Spent(m.log.calls))
  {
    RunKeepsInv(Initial(now), es);
  }

  /** A call of `shutdown` from another thread, and the posted handler. */
  lemma CallFrom(m: Machine, cooldown: int, c: Clock)
    requires m.now <= c.t1 <= c.t2 <= c.t3
    ensures Run(m, [AskShutdown(cooldown), RunHandler(CallShutdown(cooldown), c)]) ==
            State(DoShutdown(m.(now := c.t3), cooldown, c))
  {
    var m1 := m.(ready := m.ready.Post(CallShutdown(cooldown), 1));
    var e := RunHandler(CallShutdown(cooldown), c);
    PostThenTake(m.ready, cooldown);
    HandleReady(m1, CallShutdown(cooldown), c, m.ready);
    RunOne(m1, e);
    RunCons(m, AskShutdown(cooldown), [e]);
    assert [AskShutdown(cooldown)] + [e] == [AskShutdown(cooldown), e];
  }

  lemma PostThenTake(r: Ready, cooldown: int)
    ensures var h := CallShutdown(cooldown);
      r.Post(h, 1).Count(h) > 0 && r.Post(h, 1).Take(h) == r
  {
    assert r.shutdowns[cooldown := r.shutdowns[cooldown] + 1][cooldown := r.shutdowns[cooldown]] == r.shutdowns;
  }

  lemma HandleReady(m: Machine, h: Handler, c: Clock, rest: Ready)
    requires m.ready.Count(h) > 0 && m.ready.Take(h) == rest && m.now <= c.t1 <= c.t2 <= c.t3
    ensures Step(m, RunHandler(h, c)) == Handle(m.(now := c.t3, ready := rest), h, c)
  {
  }

  /** So it can be called twice: the first call stops at once, and the second arms the timer after that. */
  lemma ShutdownTwice()
    ensures var c := Clock(0, 0, 0);
      var o := Run(Initial(0), [AskShutdown(0), RunHandler(CallShutdown(0), c)]
                               + [AskShutdown(30), RunHandler(CallShutdown(30), c)]);
      o.State? && o.m.log.calls == [Taken(0), Taken(30)] && o.m.stop && o.m.timerWaits == 1
  {
    var c := Clock(0, 0, 0);
    var first := [AskShutdown(0), RunHandler(CallShutdown(0), c)];
    CallFrom(Initial(0), 0, c);
    CallFrom(Run(Initial(0), first).m, 30, c);
    RunConcat(Initial(0), first, [AskShutdown(30), RunHandler(CallShutdown(30), c)]);
  }

  lemma RunOne(m: Machine, e: Event)
    requires Step(m, e).State?
    ensures Run(m, [e]) == Step(m, e)
  {
    RunCons(m, e, []);
    assert [e] + [] == [e];
  }

  // ---------------------------------------------------------------------------
  // What goes on until stop
  // ---------------------------------------------------------------------------

  /** While the flag is clear, a running server always has one signal wait, and a countdown one timer wait: each
      either outstanding or completed and not yet handled. */
  ghost predicate Waiting(m: Machine) {
    !m.stop ==> (m.running ==> SignalTokens(m) == 1) && (m.expiry.Some? ==> TimerTokens(m) == 1)
  }

  lemma TimerKeepsWaiting(m: Machine, c: Clock)
    requires m.shutdownTime.Some? && TimerTokens(m) == 0 && (!m.stop && m.running ==> SignalTokens(m) == 1)
    ensures Waiting(AfterTimer(m, c))
  {
  }

  lemma ShutdownKeepsWaiting(m: Machine, cooldown: int, c: Clock)
    requires TokenInv(m) && Waiting(m)
    ensures Waiting(DoShutdown(m, cooldown, c))
  {
    if m.expiry.None? {
      TimerKeepsWaiting(Accepted(m, cooldown, c), c);
    }
  }

  lemma SignalKeepsWaiting(m: Machine, c: Clock)
    requires TokenInv(m) && m.running && SignalTokens(m) == 0
    requires !m.stop && m.expiry.Some? ==> TimerTokens(m) == 1
    ensures Waiting(AfterSignal(m, c))
  {
    if m.expiry.None? {
      var m1 := m.(log := m.log.(signals := m.log.signals + 1), signalWaits := m.signalWaits + 1);
      ShutdownKeepsWaiting(m1, 30, c);
      assert AfterSignal(m, c) == DoShutdown(m1, 30, c);
    }
  }

  lemma StepKeepsWaiting(m: Machine, e: Event)
    requires TokenInv(m) && Waiting(m) && Step(m, e).State?
    ensures Waiting(Step(m, e).m)
  {
    if e.RunHandler? {
      var m1 := m.(now := e.c.t3, ready := m.ready.Take(e.h));
      match e.h
      case TimerDone(aborted) => if !aborted { TimerKeepsWaiting(m1, e.c); }
      case SignalDone(aborted) => if !aborted { SignalKeepsWaiting(m1, e.c); }
      case CallShutdown(cooldown) => ShutdownKeepsWaiting(m1, cooldown, e.c);
      case CallStop =>
    }
  }

  lemma {:induction false} RunKeepsWaiting(m: Machine, es: seq<Event>)
    requires Inv(m) && Waiting(m) && Run(m, es).State?
    ensures Waiting(Run(m, es).m)
    decreases |es|
  {
    if es != [] {
      StepKeepsTokens(m, es[0]);
      StepKeepsStops(m, es[0]);
      StepKeepsCountdown(m, es[0]);
      StepKeepsCalls(m, es[0]);
      StepKeepsWaiting(m, es[0]);
      RunKeepsWaiting(Step(m, es[0]).m, es[1..]);
    }
  }

  /** Nothing gets stuck.  In every reachable state with the flag clear a running server can be signalled, or has
      a signal to handle; and a countdown has its timer waiting, or a firing to handle. */
  lemma WaitsGoOn(now: int, es: seq<Event>)
    requires Run(Initial(now), es).State? && !Run(Initial(now), es).m.stop
    ensures var m := Run(Initial(now), es).m;
      && (m.running ==> m.signalWaits + m.ready.signalled == 1)
      && (m.expiry.Some? ==> m.timerWaits + m.ready.fired == 1)
  {
    RunKeepsWaiting(Initial(now), es);
  }

  // ---------------------------------------------------------------------------
  // A punctual countdown
  // ---------------------------------------------------------------------------

  /** A handler during which the clock stands still. */
  function Instant(t: int): Clock {
    Clock(t, t, t)
  }

  /** The timer fires at `t` and the firing is handled at once. */
  function Firing(t: int): seq<Event> {
    [Tick(t), TimerFires, RunHandler(TimerDone(false), Instant(t))]
  }

  /** Firings that are never late, with `left` seconds left to `due` at the first: every ten seconds, or after what
      is left, up to the one at `due`. */
  function Firings(due: int, left: nat): seq<Event>
    decreases left
  {
    Firing(due - left * SECOND) + if left == 0 then [] else Firings(due, left - Min(left, 10))
  }

  /** The announcements of a countdown of `n` seconds: n, n - 10, and so on, while positive. */
  function Announced(n: nat): seq<int>
    decreases n
  {
    if n == 0 then [] else [n] + Announced(n - Min(n, 10))
  }

  lemma {:induction false} AnnouncedLength(n: nat)
    ensures |Announced(n)| == Tens(n)
    decreases n
  {
    if n > 0 {
      AnnouncedLength(n - Min(n, 10));
    }
  }

  lemma FireTakesOne(r: Ready)
    ensures var h := TimerDone(false);
      r.Post(h, 1).Count(h) > 0 && r.Post(h, 1).Take(h) == r
  {
  }

  lemma OneFiring(m: Machine, t: int)
    requires m.timerWaits == 1 && m.expiry == Some(t) && m.now <= t && m.shutdownTime.Some?
    ensures Run(m, Firing(t)) == State(AfterTimer(m.(now := t, timerWaits := 0), Instant(t)))
  {
    var m1 := m.(now := t);
    var m2 := m1.(timerWaits := 0, ready := m.ready.Post(TimerDone(false), 1));
    var e := RunHandler(TimerDone(false), Instant(t));
    FireTakesOne(m.ready);
    HandleReady(m2, TimerDone(false), Instant(t), m.ready);
    RunOne(m2, e);
    assert Step(m1, TimerFires) == State(m2);
    RunCons(m1, TimerFires, [e]);
    RunCons(m, Tick(t), [TimerFires, e]);
    assert [TimerFires] + [e] == [TimerFires, e] && [Tick(t)] + [TimerFires, e] == Firing(t);
  }

  /** The timer waits for its next punctual firing, `left` seconds before `due`. */
  predicate Pending(m: Machine, due: int, left: nat) {
    && !m.stop && m.timerWaits == 1 && m.shutdownTime == Some(due) && m.expiry == Some(due - left * SECOND)
    && m.now <= due - left * SECOND && m.log.gap == 0
  }

  /** A punctual firing with seconds left announces them and arms the timer for ten seconds, or for what is left. */
  lemma PunctualFiring(m: Machine, due: int, left: nat)
    requires Pending(m, due, left) && left > 0
    ensures var o := Run(m, Firing(due - left * SECOND));
      && o.State? && Pending(o.m, due, left - Min(left, 10))
      && o.m.log.notices == m.log.notices + [left] && o.m.log.stops == m.log.stops
  {
    var t := due - left * SECOND;
    OneFiring(m, t);
    CeilIsLeast(due - t, left);
    CeilIsLeast(due - t, left - 1);
    assert AfterTimer(m.(now := t, timerWaits := 0), Instant(t)) == Arm(m.(now := t, timerWaits := 0), left, Instant(t));
  }

  lemma LastFiring(m: Machine, due: int)
    requires Pending(m, due, 0)
    ensures var o := Run(m, Firing(due));
      && o.State? && o.m.stop && o.m.log.notices == m.log.notices
      && o.m.log.stops == m.log.stops + [ByTimer(due, due, Some(due), 0)]
  {
    OneFiring(m, due);
    CeilIsLeast(0, 0);
  }

  /** From `m`, the announcements `said` were made and then the timer stopped the server at `due`. */
  ghost predicate Finished(m: Machine, o: Outcome, due: int, said: seq<int>) {
    && o.State? && o.m.stop && o.m.log.notices == m.log.notices + said
    && o.m.log.stops == m.log.stops + [ByTimer(due, due, Some(due), 0)]
  }

  lemma FinishedAfter(m: Machine, m1: Machine, o: Outcome, due: int, first: int, said: seq<int>)
    requires m1.log.notices == m.log.notices + [first] && m1.log.stops == m.log.stops && Finished(m1, o, due, said)
    ensures Finished(m, o, due, [first] + said)
  {
    assert m.log.notices + [first] + said == m.log.notices + ([first] + said);
  }

  lemma {:induction false} PunctualFirings(m: Machine, due: int, left: nat)
    requires Pending(m, due, left)
    ensures Finished(m, Run(m, Firings(due, left)), due, Announced(left))
    decreases left
  {
    if left == 0 {
      LastFiring(m, due);
      assert Firings(due, 0) == Firing(due);
    } else {
      var first, rest := Firing(due - left * SECOND), Firings(due, left - Min(left, 10));
      PunctualFiring(m, due, left);
      var m1 := Run(m, first).m;
      PunctualFirings(m1, due, left - Min(left, 10));
      RunConcat(m, first, rest);
      assert Run(m, Firings(due, left)) == Run(m1, rest);
      FinishedAfter(m, m1, Run(m1, rest), due, left, Announced(left - Min(left, 10)));
    }
  }

  lemma AcceptedIsPending(m: Machine, c: nat)
    requires c > 0 && m.expiry.None? && !m.stop && m.timerWaits == 0
    ensures var m' := DoShutdown(m, c, Instant(m.now)); var due := m.now + c * SECOND;
      && Pending(m', due, c - Min(c, 10))
      && m'.log.notices == m.log.notices + [c] && m'.log.stops == m.log.stops
      && m'.signalWaits == m.signalWaits && m'.running == m.running
  {
    var a := Accepted(m, c, Instant(m.now));
    CeilIsLeast(c * SECOND, c);
    CeilIsLeast(c * SECOND, c - 1);
    assert DoShutdown(m, c, Instant(m.now)) == AfterTimer(a, Instant(m.now));
    assert AfterTimer(a, Instant(m.now)) == Arm(a, c, Instant(m.now));
  }

  /** Main result on time.  When no clock runs inside a handler and no firing is late, shutdown(c) announces c,
      c - 10, and so on, once for each of its ceil(c/10) waits, and stops exactly at the shutdown time. */
  lemma PunctualShutdown(now: int, c: nat)
    requires c > 0
    ensures var due := now + c * SECOND;
      var o := Run(Initial(now), [AskShutdown(c), RunHandler(CallShutdown(c), Instant(now))]
                                 + Firings(due, c - Min(c, 10)));
      Finished(Initial(now), o, due, Announced(c)) && |Announced(c)| == Tens(c)
  {
    var first := [AskShutdown(c), RunHandler(CallShutdown(c), Instant(now))];
    var due, left := now + c * SECOND, c - Min(c, 10);
    CountdownBegins(now, c);
    var m := Run(Initial(now), first).m;
    PunctualFirings(m, due, left);
    FinishedAfter(Initial(now), m, Run(m, Firings(due, left)), due, c, Announced(left));
    RunConcat(Initial(now), first, Firings(due, left));
    assert Run(Initial(now), first + Firings(due, left)) == Run(m, Firings(due, left));
    AnnouncedLength(c);
  }

  lemma CountdownBegins(now: int, c: nat)
    requires c > 0
    ensures var o := Run(Initial(now), [AskShutdown(c), RunHandler(CallShutdown(c), Instant(now))]);
      && o.State? && Pending(o.m, now + c * SECOND, c - Min(c, 10)) && o.m.log.notices == [c] && o.m.log.stops == []
  {
    CallFrom(Initial(now), c, Instant(now));
    AcceptedIsPending(Initial(now), c);
    assert [] + [c] == [c];
  }

  /** A signal arrives and is handled at once. */
  function Signalled(t: int): seq<Event> {
    [SignalArrives, RunHandler(SignalDone(false), Instant(t))]
  }

  lemma OneSignal(m: Machine)
    requires m.signalWaits == 1
    ensures Run(m, Signalled(m.now)) == State(AfterSignal(m.(signalWaits := 0), Instant(m.now)))
  {
    var h := SignalDone(false);
    var m1 := m.(signalWaits := 0, ready := m.ready.Post(h, 1));
    var e := RunHandler(h, Instant(m.now));
    assert m1.ready.Take(h) == m.ready;
    HandleReady(m1, h, Instant(m.now), m.ready);
    RunOne(m1, e);
    RunCons(m, SignalArrives, [e]);
    assert [SignalArrives] + [e] == Signalled(m.now);
  }

  /** A signal to a running server begins a countdown of thirty seconds, announced as such and due then, and
      waits for the next signal; and that one stops the server. */
  lemma SignalsShutDown(now: int)
    ensures var first := Run(Initial(now), [StartRun] + Signalled(now));
      && first.State? && Pending(first.m, now + 30 * SECOND, 20) && first.m.log.notices == [30]
      && first.m.signalWaits == 1
      && var second := Run(first.m, Signalled(now));
      && second.State? && second.m.stop && second.m.timerWaits == 0 && second.m.signalWaits == 0
  {
    var m := Step(Initial(now), StartRun).m;
    OneSignal(m);
    var m1 := m.(signalWaits := 1, log := m.log.(signals := 1));
    assert AfterSignal(m.(signalWaits := 0), Instant(now)) == DoShutdown(m1, 30, Instant(now));
    AcceptedIsPending(m1, 30);
    RunCons(Initial(now), StartRun, Signalled(now));
    var first := Run(Initial(now), [StartRun] + Signalled(now)).m;
    assert first.now == now && first.signalWaits == 1;
    OneSignal(first);
  }

  // ---------------------------------------------------------------------------
  // What stop does not cancel
  // ---------------------------------------------------------------------------

  /** The timer will not be armed again: it has been armed, so no call is accepted; and no firing that waits to be
      handled can find seconds left. */
  predicate Quiet(m: Machine) {
    && m.timerWaits == 0 && m.expiry.Some? && m.shutdownTime.Some?
    && (m.ready.fired > 0 ==> m.shutdownTime.value <= m.now)
  }

  lemma StepKeepsQuiet(m: Machine, e: Event)
    requires Quiet(m) && Step(m, e).State?
    ensures Quiet(Step(m, e).m)
    ensures Step(m, e).m.log.arms == m.log.arms && Step(m, e).m.log.notices == m.log.notices
  {
    if e.RunHandler? {
      CeilIsLeast(m.shutdownTime.value - e.c.t2, 0);
    }
  }

  lemma {:induction false} RunKeepsQuiet(m: Machine, es: seq<Event>)
    requires Quiet(m) && Run(m, es).State?
    ensures Quiet(Run(m, es).m)
    ensures Run(m, es).m.log.arms == m.log.arms && Run(m, es).m.log.notices == m.log.notices
    decreases |es|
  {
    if es != [] {
      StepKeepsQuiet(m, es[0]);
      RunKeepsQuiet(Step(m, es[0]).m, es[1..]);
    }
  }

  /** Events that arm the timer from a state that is not quiet. */
  lemma Rearmed(m: Machine) returns (es: seq<Event>)
    requires Inv(m) && m.timerWaits == 0 && !Quiet(m)
    ensures Run(m, es).State? && Run(m, es).m.timerWaits == 1
  {
    var c := Clock(m.now, m.now, m.now);
    if m.expiry.None? {
      var m1 := Step(m, AskShutdown(30)).m;
      var e := RunHandler(CallShutdown(30), c);
      es := [AskShutdown(30)] + [e];
      RunOne(m1, e);
      RunCons(m, AskShutdown(30), [e]);
    } else {
      CeilIsLeast(m.shutdownTime.value - m.now, 0);
      es := [RunHandler(TimerDone(false), c)];
      RunOne(m, es[0]);
    }
  }

  /** Cancelling is not for ever.  From any reachable state without a timer wait, as `stop` leaves it: no
      continuation ever has one again if and only if the state is quiet. */
  lemma NeverArmedAgainIff(m: Machine)
    requires Inv(m) && m.timerWaits == 0
    ensures (forall es :: Run(m, es).State? ==> Run(m, es).m.timerWaits == 0) <==> Quiet(m)
  {
    if Quiet(m) {
      forall es | Run(m, es).State?
        ensures Run(m, es).m.timerWaits == 0
      {
        RunKeepsQuiet(m, es);
      }
    } else {
      var es := Rearmed(m);
      assert Run(m, es).State? && Run(m, es).m.timerWaits != 0;
    }
  }

  /** Whatever sets the stop flag, a request, a second signal or the end of the countdown, leaves no wait
      outstanding: of the timer or of the signals. */
  lemma StepStopsWaiting(m: Machine, e: Event)
    requires !m.stop && Step(m, e).State? && Step(m, e).m.stop
    ensures Step(m, e).m.timerWaits == 0 && Step(m, e).m.signalWaits == 0
  {
  }

  lemma StopLeavesNoWait(now: int, es: seq<Event>, e: Event)
    requires Run(Initial(now), es).State? && !Run(Initial(now), es).m.stop
    requires Step(Run(Initial(now), es).m, e).State? && Step(Run(Initial(now), es).m, e).m.stop
    ensures Step(Run(Initial(now), es).m, e).m.timerWaits == 0 && Step(Run(Initial(now), es).m, e).m.signalWaits == 0
  {
    StepStopsWaiting(Run(Initial(now), es).m, e);
  }

  /** A `stop` that finds the flag clear cancels the waits: each of them, as many as there were, is queued as
      aborted, and none is left. */
  lemma StopCancels(m: Machine, c: Clock)
    requires !m.stop && m.ready.stops > 0 && m.now <= c.t1 <= c.t2 <= c.t3
    ensures var o := Step(m, RunHandler(CallStop, c));
      && o.State? && o.m.stop && o.m.timerWaits == 0 && o.m.signalWaits == 0
      && o.m.ready.firedAborted == m.ready.firedAborted + m.timerWaits
      && o.m.ready.signalledAborted == m.ready.signalledAborted + m.signalWaits
      && o.m.ready.fired == m.ready.fired && o.m.ready.signalled == m.ready.signalled
      && o.m.expiry == m.expiry && o.m.shutdownTime == m.shutdownTime
      && o.m.log.arms == m.log.arms && o.m.log.notices == m.log.notices
  {
  }

  /** A `stop` in the middle of a countdown, with no firing queued, ends it: in no continuation is the timer
      waited for or armed again, and nothing more is announced. */
  lemma StopEndsCountdown(now: int, es: seq<Event>, c: Clock, more: seq<Event>)
    requires Run(Initial(now), es).State?
    requires var m := Run(Initial(now), es).m;
      !m.stop && m.expiry.Some? && m.ready.fired == 0 && m.ready.stops > 0 && m.now <= c.t1 <= c.t2 <= c.t3
    requires Step(Run(Initial(now), es).m, RunHandler(CallStop, c)).State?
    requires Run(Step(Run(Initial(now), es).m, RunHandler(CallStop, c)).m, more).State?
    ensures var m := Run(Initial(now), es).m; var m' := Run(Step(m, RunHandler(CallStop, c)).m, more).m;
      m'.timerWaits == 0 && m'.log.arms == m.log.arms && m'.log.notices == m.log.notices
  {
    var m := Run(Initial(now), es).m;
    RunKeepsInv(Initial(now), es);
    StopCancels(m, c);
    RunKeepsQuiet(Step(m, RunHandler(CallStop, c)).m, more);
  }

  /** Seconds of countdown a ready handler would find if it ran with clock `c`; none if it does not reach the timer. */
  function WouldFind(m: Machine, h: Handler, c: Clock): int {
    match h
    case TimerDone(aborted) =>
      if aborted || m.shutdownTime.None? then 0 else CeilSeconds(m.shutdownTime.value - c.t2)
    case SignalDone(aborted) =>
      if aborted || m.expiry.Some? then 0 else CeilSeconds(c.t1 + 30 * SECOND - c.t2)
    case CallShutdown(cooldown) =>
      if m.expiry.Some? then 0 else CeilSeconds(c.t1 + cooldown * SECOND - c.t2)
    case CallStop => 0
  }

  /** The timer can be armed again after `stop`: a handler that was already queued does so exactly
      when it finds seconds remaining. */
  lemma ArmsAfterStopIff(m: Machine, h: Handler, c: Clock)
    requires Inv(m) && m.stop && m.timerWaits == 0 && m.ready.Count(h) > 0 && m.now <= c.t1 <= c.t2 <= c.t3
    ensures Step(m, RunHandler(h, c)).State?
    ensures Step(m, RunHandler(h, c)).m.timerWaits == 1 <==> WouldFind(m, h, c) > 0
  {
  }

  /** It does happen: whenever a firing that would find seconds remaining is already queued, a `stop`
      that runs before it leaves the timer armed afterwards. */
  lemma TimerOutlivesStop(m: Machine, c: Clock, d: Clock)
    requires Inv(m) && !m.stop && m.ready.fired > 0
    requires m.now <= c.t1 <= c.t2 <= c.t3 <= d.t1 <= d.t2 <= d.t3 && WouldFind(m, TimerDone(false), d) > 0
    ensures var o := Run(m, [AskStop, RunHandler(CallStop, c), RunHandler(TimerDone(false), d)]);
      o.State? && o.m.stop && o.m.timerWaits == 1
  {
    var last := RunHandler(TimerDone(false), d);
    var m1 := Step(m, AskStop).m;
    assert m1.ready.Take(CallStop) == m.ready;
    var m2 := Step(m1, RunHandler(CallStop, c)).m;
    assert m2 == DoStop(m.(now := c.t3), ByRequest(c.t1));
    RunCons(m2, last, []);
    RunCons(m1, RunHandler(CallStop, c), [last]);
    RunCons(m, AskStop, [RunHandler(CallStop, c), last]);
    assert [last] + [] == [last];
    assert [RunHandler(CallStop, c)] + [last] == [RunHandler(CallStop, c), last];
    assert [AskStop] + [RunHandler(CallStop, c), last] == [AskStop, RunHandler(CallStop, c), last];
  }

  lemma {:induction false} RunConcat(m: Machine, es: seq<Event>, more: seq<Event>)
    requires Run(m, es).State?
    ensures Run(m, es + more) == Run(Run(m, es).m, more)
    decreases |es|
  {
    if es == [] {
      assert es + more == more;
    } else {
      assert (es + more)[1..] == es[1..] + more;
      RunConcat(Step(m, es[0]).m, es[1..], more);
    }
  }

  /** A firing ready ten seconds into a countdown of thirty. */
  lemma FiringQueued()
    ensures var o := Run(Initial(0), [AskShutdown(30), RunHandler(CallShutdown(30), Clock(0, 0, 0))]
                                     + [Tick(10 * SECOND), TimerFires]);
      o.State? && o.m.ready.fired == 1 && !o.m.stop && o.m.shutdownTime == Some(30 * SECOND) && o.m.now == 10 * SECOND
  {
    var first := [AskShutdown(30), RunHandler(CallShutdown(30), Clock(0, 0, 0))];
    CallFrom(Initial(0), 30, Clock(0, 0, 0));
    var m := Run(Initial(0), first).m;
    RunOne(Step(m, Tick(10 * SECOND)).m, TimerFires);
    RunCons(m, Tick(10 * SECOND), [TimerFires]);
    assert [Tick(10 * SECOND)] + [TimerFires] == [Tick(10 * SECOND), TimerFires];
    RunConcat(Initial(0), first, [Tick(10 * SECOND), TimerFires]);
  }

  /** A whole run in which the timer is armed after `stop`. */
  lemma ArmedAfterStop()
    ensures var c := Clock(10 * SECOND, 10 * SECOND, 10 * SECOND);
      var o := Run(Initial(0), [AskShutdown(30), RunHandler(CallShutdown(30), Clock(0, 0, 0))]
                               + [Tick(10 * SECOND), TimerFires]
                               + [AskStop, RunHandler(CallStop, c), RunHandler(TimerDone(false), c)]);
      o.State? && o.m.stop && o.m.timerWaits == 1
  {
    var c := Clock(10 * SECOND, 10 * SECOND, 10 * SECOND);
    var es := [AskShutdown(30), RunHandler(CallShutdown(30), Clock(0, 0, 0))] + [Tick(10 * SECOND), TimerFires];
    FiringQueued();
    RunKeepsInv(Initial(0), es);
    TimerOutlivesStop(Run(Initial(0), es).m, c, c);
    RunConcat(Initial(0), es, [AskStop, RunHandler(CallStop, c), RunHandler(TimerDone(false), c)]);
  }

  lemma RunCons(m: Machine, e: Event, es: seq<Event>)
    requires Step(m, e).State?
    ensures Run(m, [e] + es) == Run(Step(m, e).m, es)
  {
    assert ([e] + es)[1..] == es;
  }

  // ---------------------------------------------------------------------------
  // The server object
  // ---------------------------------------------------------------------------

  /** The fields of `server_impl` and `application_impl` that take part in shutting down, with the waits
      and posted handlers of their timer, signal set and strand. */
  class Server {
    var running: bool
    var stopFlag: bool
    var shutdownTime: Option<int>
    var expiry: Option<int>
    var timerWaits: nat
    var signalWaits: nat
    var ready: Ready
    ghost var now: int
    ghost var log: Log

    ghost function Contents(): Machine
      reads this
    {
      Machine(now, running, expiry, shutdownTime, stopFlag, timerWaits, signalWaits, ready, log)
    }

    constructor (start: int)
      ensures Contents() == Initial(start)
    {
      running, stopFlag, shutdownTime, expiry := false, false, None, None;
      timerWaits, signalWaits, ready := 0, 0, NOTHING_READY;
      now, log := start, Log(0, 0, 0, [], [], 0, []);
    }

    /** The start of `run`; false stands for the exception thrown when the server already runs. */
    method StartRunning() returns (ok: bool)
      modifies this
      ensures ok == !old(running)
      ensures State(Contents()) == Step(old(Contents()), StartRun)
    {
      if running {
        return false;
      }
      running := true;
      signalWaits := signalWaits + 1;
      return true;
    }

    method Shutdown(onStrand: bool, seconds: int, c: Clock)
      modifies this
      ensures onStrand ==> Contents() == DoShutdown(old(Contents()), seconds, c)
      ensures !onStrand ==> State(Contents()) == Step(old(Contents()), AskShutdown(seconds))
    {
      if !onStrand {
        ready := ready.Post(CallShutdown(seconds), 1);
        return;
      }
      if expiry != None {
        log := log.(calls := log.calls + [Refused]);
        return;
      }
      shutdownTime := Some(c.t1 + seconds * SECOND);
      log := log.(cooldown := seconds, calls := log.calls + [Taken(CeilSeconds(c.t1 + seconds * SECOND - c.t2))]);
      OnTimer(false, c);
    }

    method OnTimer(aborted: bool, c: Clock)
      requires shutdownTime.Some?
      modifies this
      ensures Contents() == if aborted then old(Contents()) else AfterTimer(old(Contents()), c)
    {
      if aborted {
        return;
      }
      var remain := CeilSeconds(shutdownTime.value - c.t2);
      if remain <= 0 {
        Stop(true, ByTimer(c.t2, shutdownTime.value, expiry, log.gap));
        return;
      }
      var amount := remain;
      if amount > 10 {
        amount := 10;
      }
      log := log.(gap := c.t3 - c.t2, arms := log.arms + 1, notices := log.notices + [remain]);
      ExpiresAt(c.t3 + amount * SECOND);
      timerWaits := timerWaits + 1;
    }

    /** The timer's `expires_after`: pending waits complete with operation_aborted. */
    method ExpiresAt(t: int)
      modifies this`expiry, this`timerWaits, this`ready
      ensures expiry == Some(t) && timerWaits == 0
      ensures ready == old(ready).Post(TimerDone(true), old(timerWaits))
    {
      CancelTimer();
      expiry := Some(t);
    }

    method CancelTimer()
      modifies this`timerWaits, this`ready
      ensures timerWaits == 0
      ensures ready == old(ready).Post(TimerDone(true), old(timerWaits))
    {
      ready := ready.Post(TimerDone(true), timerWaits);
      timerWaits := 0;
    }

    method OnSignal(aborted: bool, c: Clock)
      modifies this
      ensures Contents() == if aborted then old(Contents()) else AfterSignal(old(Contents()), c)
    {
      if aborted {
        return;
      }
      log := log.(signals := log.signals + 1);
      if expiry == None {
        signalWaits := signalWaits + 1;
        Shutdown(true, 30, c);
      } else {
        Stop(true, ByRequest(c.t1));
      }
    }

    method Stop(onStrand: bool, ghost r: StopRecord)
      modifies this
      ensures onStrand ==> Contents() == DoStop(old(Contents()), r)
      ensures !onStrand ==> State(Contents()) == Step(old(Contents()), AskStop)
    {
      if !onStrand {
        ready := ready.Post(CallStop, 1);
        return;
      }
      if stopFlag {
        return;
      }
      stopFlag := true;
      log := log.(stops := log.stops + [r]);
      CancelTimer();
      ready := ready.Post(SignalDone(true), signalWaits);
      signalWaits := 0;
    }
  }
}
