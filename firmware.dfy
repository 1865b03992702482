/**
 * The main loop of main.c: a SysTick counter and four deadlines, each
 * compared with the counter and advanced by a fixed stride, dispatching the
 * control, button, display and serial tasks in a fixed order. The display
 * and serial tasks only produce output, so only their deadlines are kept.
 */
module Firmware {
  import opened CMath
  import opened Debounce
  import opened FlightMode
  import Pwm
  import Pid
  import Yaw
  import Height

  /** The task strides (the control stride is the literal 1). */
  const ControlStep: int := 1
  const ButtonTimerStep: int := 4
  const TivaDisplayStep: int := 25
  const UartTimerStep: int := 75

  /** The four deadlines: control, buttons, display, serial. */
  datatype Timers = Timers(control: int, button: int, display: int, uart: int)

  /** Their initial values. */
  const InitialTimers: Timers := Timers(1, ButtonTimerStep, TivaDisplayStep, UartTimerStep)

  /** The four tasks, in dispatch order. */
  datatype Task = Control | Buttons | Display | Uart

  /** Position of a task in the dispatch order. */
  function Rank(t: Task): nat
  {
    match t
    case Control => 0
    case Buttons => 1
    case Display => 2
    case Uart => 3
  }

  function Stride(t: Task): int
  {
    match t
    case Control => ControlStep
    case Buttons => ButtonTimerStep
    case Display => TivaDisplayStep
    case Uart => UartTimerStep
  }

  function Deadline(ts: Timers, t: Task): int
  {
    match t
    case Control => ts.control
    case Buttons => ts.button
    case Display => ts.display
    case Uart => ts.uart
  }

  /** The outcome of one pass of the loop: the new deadlines and the tasks run, in order. */
  datatype Pass = Pass(timers: Timers, ran: seq<Task>)

  /** One pass of the `while (1)` body with sample count `cnt`. */
  function Dispatch(cnt: int, ts: Timers): Pass
  {
    var c := cnt > ts.control;
    var b := cnt > ts.button;
    var d := cnt > ts.display;
    var u := cnt > ts.uart;
    Pass(
      Timers(
        if c then ts.control + ControlStep else ts.control,
        if b then ts.button + ButtonTimerStep else ts.button,
        if d then ts.display + TivaDisplayStep else ts.display,
        if u then ts.uart + UartTimerStep else ts.uart),
      RanTasks(c, b, d, u))
  }

  /** The tasks a pass runs, given which of control, buttons, display and serial are due. */
  function RanTasks(c: bool, b: bool, d: bool, u: bool): seq<Task>
  {
    When(c, Control) + When(b, Buttons) + When(d, Display) + When(u, Uart)
  }

  /** Task `t` alone if it runs, nothing otherwise. */
  function When(run: bool, t: Task): seq<Task>
  {
    if run then [t] else []
  }

  /**
   * A task runs in a pass exactly when the count is past its deadline; its
   * deadline then advances by exactly its stride, and otherwise stays.
   */
  lemma DispatchRunsDueTasks(cnt: int, ts: Timers, t: Task)
    ensures var p := Dispatch(cnt, ts);
      && (t in p.ran <==> cnt > Deadline(ts, t))
      && Deadline(p.timers, t) == (if cnt > Deadline(ts, t) then Deadline(ts, t) + Stride(t) else Deadline(ts, t))
  {
  }

  /** Tasks listed in strictly increasing dispatch order, each of rank below `bound`. */
  predicate RankedBelow(r: seq<Task>, bound: nat)
  {
    && (forall i, j :: 0 <= i < j < |r| ==> Rank(r[i]) < Rank(r[j]))
    && (forall i :: 0 <= i < |r| ==> Rank(r[i]) < bound)
  }

  /** Appending a task of higher rank, or nothing, keeps a list in dispatch order. */
  lemma {:induction false} AppendRanked(r: seq<Task>, bound: nat, t: Task, run: bool)
    requires RankedBelow(r, bound) && |r| <= bound && Rank(t) == bound
    ensures RankedBelow(r + When(run, t), bound + 1) && |r + When(run, t)| <= bound + 1
  {
    var r' := r + When(run, t);
    forall i, j | 0 <= i < j < |r'|
      ensures Rank(r'[i]) < Rank(r'[j])
    {
      assert r'[i] == r[i];
    }
    forall i | 0 <= i < |r'|
      ensures Rank(r'[i]) < bound + 1
    {
    }
  }

  /** Within a pass the tasks run in the fixed order control, buttons, display, serial, each at most once. */
  lemma {:induction false} DispatchOrder(cnt: int, ts: Timers)
    ensures var r := Dispatch(cnt, ts).ran;
      |r| <= 4 && forall i, j :: 0 <= i < j < |r| ==> Rank(r[i]) < Rank(r[j])
  {
    RanTasksOrdered(cnt > ts.control, cnt > ts.button, cnt > ts.display, cnt > ts.uart);
  }

  lemma {:induction false} RanTasksOrdered(c: bool, b: bool, d: bool, u: bool)
    ensures RankedBelow(RanTasks(c, b, d, u), 4) && |RanTasks(c, b, d, u)| <= 4
  {
    assert RankedBelow(When(c, Control), 1);
    AppendRanked(When(c, Control), 1, Buttons, b);
    AppendRanked(When(c, Control) + When(b, Buttons), 2, Display, d);
    AppendRanked(When(c, Control) + When(b, Buttons) + When(d, Display), 3, Uart, u);
  }

  /** Deadlines never move back, and a deadline that was due strictly advances. */
  lemma DeadlinesAdvance(cnt: int, ts: Timers, t: Task)
    ensures Deadline(ts, t) <= Deadline(Dispatch(cnt, ts).timers, t)
    ensures cnt > Deadline(ts, t) ==> Deadline(ts, t) < Deadline(Dispatch(cnt, ts).timers, t)
  {
  }

  /** Passes of the loop while the count stays at `cnt`. */
  function DispatchN(cnt: int, ts: Timers, n: nat): Timers
  {
    if n == 0 then ts else Dispatch(cnt, DispatchN(cnt, ts, n - 1)).timers
  }

  /**
   * A task that has fallen behind catches up one stride per pass: while the
   * count stays put, n passes advance a deadline that is at least n strides
   * behind by exactly n strides.
   */
  lemma {:induction false} CatchUp(cnt: int, ts: Timers, t: Task, n: nat)
    requires Deadline(ts, t) + (n as int) * Stride(t) <= cnt
    ensures Deadline(DispatchN(cnt, ts, n), t) == Deadline(ts, t) + (n as int) * Stride(t)
  {
    if n > 0 {
      var s := Stride(t);
      assert s > 0;
      assert (n as int) * s == (n - 1) * s + s;
      CatchUp(cnt, ts, t, n - 1);
      DispatchRunsDueTasks(cnt, DispatchN(cnt, ts, n - 1), t);
    }
  }

  /** Once the count has fallen behind a deadline, that task does not run. */
  lemma NotDueNotRun(cnt: int, ts: Timers, t: Task)
    requires cnt <= Deadline(ts, t)
    ensures t !in Dispatch(cnt, ts).ran && Deadline(Dispatch(cnt, ts).timers, t) == Deadline(ts, t)
  {
    DispatchRunsDueTasks(cnt, ts, t);
  }

  /**
   * What one pass of the loop changes, as values: the deadlines, the flight
   * state, the six debounce channels, the main and tail controller state,
   * the output switch and the two stored duties.
   */
  datatype Snapshot = Snapshot(
    timers: Timers,
    flight: Flight,
    chans: seq<Channel>,
    main: Pid.Axis,
    tail: Pid.Axis,
    pwmOn: bool,
    dutyMain: int,
    dutyTail: int)

  /** What a pass reads from the sensors: the altitude (percent), the yaw (degrees) and the reference latch. */
  datatype Sensors = Sensors(altitude: int, yaw: int, refFound: bool)

  /** A snapshot the button task can run on: a reachable flight state and all six channels. */
  ghost predicate Sane(s: Snapshot)
  {
    Inv(s.flight) && |s.chans| == NumButs
  }

  /**
   * The snapshot main.c reaches before its loop: deadlines 1, 4, 25 and 75,
   * the initial flight state, every channel settled at its idle level with
   * nothing pending, both controllers at rest, the outputs off and both
   * duties at 5.
   */
  const PowerUp: Snapshot := Snapshot(InitialTimers, Initial, Settled,
    Pid.Axis(0, 0), Pid.Axis(0, 0), false, Pwm.InitialMainDuty, Pwm.InitialTailDuty)

  /** mainControl on values: the main axis and the stored main duty take one tick on the altitude error. */
  function MainPass(s: Snapshot, m: Sensors): (r: Snapshot)
    ensures r.(main := s.main, dutyMain := s.dutyMain) == s
  {
    var mt := Pid.MainTick(s.main, s.flight.altitudeSetpoint - m.altitude);
    s.(main := mt.axis, dutyMain := mt.duty)
  }

  /** tailControl on values: the tail axis and the tail duty take one tick on the yaw error, against the stored main duty. */
  function TailPass(s: Snapshot, m: Sensors): (r: Snapshot)
    ensures r.(tail := s.tail, dutyTail := s.dutyTail) == s
  {
    var tt := Pid.TailTick(s.tail, s.flight.yawSetpoint - m.yaw, s.dutyMain);
    s.(tail := tt.axis, dutyTail := tt.duty)
  }

  /** The control task on values: mainControl, then tailControl. */
  function ControlPass(s: Snapshot, m: Sensors): (r: Snapshot)
    ensures r.timers == s.timers && r.flight == s.flight && r.chans == s.chans && r.pwmOn == s.pwmOn
  {
    TailPass(MainPass(s, m), m)
  }

  /** The event checkButton reports for channel `i` right after a poll with pin level `sample`. */
  function PolledEvent(c: Channel, i: nat, sample: bool): ButEvent
    requires i < NumButs
  {
    Check(Poll(c, sample), Normals[i]).0
  }

  /** Channel `i` after checkButState: polled, then consumed when it is a direction and the mode is "Flying". */
  function AfterPoll(c: Channel, i: nat, sample: bool, flying: bool): Channel
    requires i < NumButs
  {
    var p := Poll(c, sample);
    if flying && i < Switch then Check(p, Normals[i]).1 else p
  }

  /**
   * checkButState on values: every channel is polled with its pin; in
   * "Flying" the four direction events are consumed and move the setpoints.
   */
  function PollPass(s: Snapshot, pins: seq<bool>): (r: Snapshot)
    requires Sane(s) && |pins| == NumButs
    ensures Sane(r) && r.(flight := s.flight, chans := s.chans) == s
  {
    var flying := s.flight.mode == Flying;
    var f := if flying
      then AdjustFlying(s.flight,
        PolledEvent(s.chans[Up], Up, pins[Up]), PolledEvent(s.chans[Down], Down, pins[Down]),
        PolledEvent(s.chans[Left], Left, pins[Left]), PolledEvent(s.chans[Right], Right, pins[Right]))
      else s.flight;
    s.(flight := f,
       chans := [AfterPoll(s.chans[Up], Up, pins[Up], flying),
                 AfterPoll(s.chans[Down], Down, pins[Down], flying),
                 AfterPoll(s.chans[Left], Left, pins[Left], flying),
                 AfterPoll(s.chans[Right], Right, pins[Right], flying),
                 AfterPoll(s.chans[Switch], Switch, pins[Switch], flying),
                 AfterPoll(s.chans[Switch2], Switch2, pins[Switch2], flying)])
  }

  /** PWMtoggle on values, on the current mode and the measured altitude. */
  function TogglePass(s: Snapshot, m: Sensors): (r: Snapshot)
    ensures r.(pwmOn := s.pwmOn) == s
  {
    s.(pwmOn := Pid.Toggle(s.pwmOn, s.flight.mode, m.altitude))
  }

  /**
   * stateHandler on values: the switch event is consumed and drives the
   * flight state; the landing sequence may hold the main duty.
   */
  function HandlePass(s: Snapshot, m: Sensors): (r: Snapshot)
    requires Sane(s)
    ensures Sane(r) && r.(flight := s.flight, chans := s.chans, dutyMain := s.dutyMain) == s
  {
    var (sw, c) := Check(s.chans[Switch], Normals[Switch]);
    s.(flight := Handle(s.flight, sw, m.altitude, m.yaw, m.refFound),
       chans := s.chans[Switch := c],
       dutyMain := if HoldsMainDuty(SwitchStage(s.flight, sw), m.altitude) then InitMainDutyCycle else s.dutyMain)
  }

  /** The button task on values: checkButState, PWMtoggle, then stateHandler. */
  function ButtonPass(s: Snapshot, pins: seq<bool>, m: Sensors): (r: Snapshot)
    requires Sane(s) && |pins| == NumButs
    ensures Sane(r)
    ensures r.timers == s.timers && r.main == s.main && r.tail == s.tail && r.dutyTail == s.dutyTail
  {
    HandlePass(TogglePass(PollPass(s, pins), m), m)
  }

  /** The control slot: when the count is past the control deadline, advance it and run the control task. */
  function ControlSlotPass(cnt: int, s: Snapshot, m: Sensors): (r: Snapshot)
    ensures r.flight == s.flight && r.chans == s.chans && r.pwmOn == s.pwmOn
  {
    if cnt > s.timers.control
    then ControlPass(s.(timers := s.timers.(control := s.timers.control + ControlStep)), m)
    else s
  }

  /** The button slot: when the count is past the button deadline, advance it and run the button task. */
  function ButtonSlotPass(cnt: int, s: Snapshot, pins: seq<bool>, m: Sensors): (r: Snapshot)
    requires Sane(s) && |pins| == NumButs
    ensures Sane(r)
    ensures r.main == s.main && r.tail == s.tail && r.dutyTail == s.dutyTail
  {
    if cnt > s.timers.button
    then ButtonPass(s.(timers := s.timers.(button := s.timers.button + ButtonTimerStep)), pins, m)
    else s
  }

  /** The display and serial slots: each due deadline advances; nothing else changes. */
  function OutputSlotPass(cnt: int, s: Snapshot): Snapshot
  {
    s.(timers := s.timers.(
      display := if cnt > s.timers.display then s.timers.display + TivaDisplayStep else s.timers.display,
      uart := if cnt > s.timers.uart then s.timers.uart + UartTimerStep else s.timers.uart))
  }

  /** One pass of the `while (1)` body with sample count `cnt`: control, buttons, then display and serial. */
  function LoopPass(cnt: int, s: Snapshot, pins: seq<bool>, m: Sensors): (r: Snapshot)
    requires Sane(s) && |pins| == NumButs
    ensures Sane(r)
  {
    OutputSlotPass(cnt, ButtonSlotPass(cnt, ControlSlotPass(cnt, s, m), pins, m))
  }

  /** A pass moves the deadlines exactly as the scheduler does. */
  lemma LoopPassTimers(cnt: int, s: Snapshot, pins: seq<bool>, m: Sensors)
    requires Sane(s) && |pins| == NumButs
    ensures LoopPass(cnt, s, pins, m).timers == Dispatch(cnt, s.timers).timers
  {
  }

  /** Task `t`'s slot of the loop when it is due: its deadline advances by its stride, then it runs. */
  function RunTask(t: Task, s: Snapshot, pins: seq<bool>, m: Sensors): (r: Snapshot)
    requires Sane(s) && |pins| == NumButs
    ensures Sane(r)
    ensures Deadline(r.timers, t) == Deadline(s.timers, t) + Stride(t)
    ensures forall u :: u != t ==> Deadline(r.timers, u) == Deadline(s.timers, u)
  {
    match t
    case Control => ControlPass(s.(timers := s.timers.(control := s.timers.control + ControlStep)), m)
    case Buttons => ButtonPass(s.(timers := s.timers.(button := s.timers.button + ButtonTimerStep)), pins, m)
    case Display => s.(timers := s.timers.(display := s.timers.display + TivaDisplayStep))
    case Uart => s.(timers := s.timers.(uart := s.timers.uart + UartTimerStep))
  }

  /** The tasks `ran` run one after another, first to last. */
  function RunTasks(ran: seq<Task>, s: Snapshot, pins: seq<bool>, m: Sensors): (r: Snapshot)
    requires Sane(s) && |pins| == NumButs
    ensures Sane(r)
    decreases |ran|
  {
    if ran == [] then s else RunTasks(ran[1..], RunTask(ran[0], s, pins, m), pins, m)
  }

  /** Running two lists of tasks one after the other is running their concatenation. */
  lemma {:induction false} RunTasksAppend(a: seq<Task>, b: seq<Task>, s: Snapshot, pins: seq<bool>, m: Sensors)
    requires Sane(s) && |pins| == NumButs
    ensures RunTasks(a + b, s, pins, m) == RunTasks(b, RunTasks(a, s, pins, m), pins, m)
    decreases |a|
  {
    if a == [] {
      assert a + b == b;
    } else {
      assert (a + b)[0] == a[0];
      assert (a + b)[1..] == a[1..] + b;
      RunTasksAppend(a[1..], b, RunTask(a[0], s, pins, m), pins, m);
    }
  }

  /** A slot that may or may not run: its task alone when it runs, nothing otherwise. */
  lemma RunWhen(run: bool, t: Task, s: Snapshot, pins: seq<bool>, m: Sensors)
    requires Sane(s) && |pins| == NumButs
    ensures RunTasks(When(run, t), s, pins, m) == if run then RunTask(t, s, pins, m) else s
  {
    if run {
      assert When(run, t)[1..] == [];
    }
  }

  /** The control and button slots of a pass, then its display and serial slots, each as its task run when due. */
  lemma SlotsAreDueTasks(cnt: int, s: Snapshot, pins: seq<bool>, m: Sensors)
    requires Sane(s) && |pins| == NumButs
    ensures ControlSlotPass(cnt, s, m) == if cnt > s.timers.control then RunTask(Control, s, pins, m) else s
    ensures ButtonSlotPass(cnt, s, pins, m) == if cnt > s.timers.button then RunTask(Buttons, s, pins, m) else s
    ensures var d := if cnt > s.timers.display then RunTask(Display, s, pins, m) else s;
      OutputSlotPass(cnt, s) == if cnt > s.timers.uart then RunTask(Uart, d, pins, m) else d
  {
  }

  /**
   * A pass of the loop runs exactly the tasks Dispatch lists, in its order,
   * each after advancing its own deadline: the slot structure of the loop
   * and the scheduler's record of it agree.
   */
  lemma {:induction false} LoopPassRunsDispatchedTasks(cnt: int, s: Snapshot, pins: seq<bool>, m: Sensors)
    requires Sane(s) && |pins| == NumButs
    ensures LoopPass(cnt, s, pins, m) == RunTasks(Dispatch(cnt, s.timers).ran, s, pins, m)
  {
    var c, b, d, u := cnt > s.timers.control, cnt > s.timers.button, cnt > s.timers.display, cnt > s.timers.uart;
    var s1 := ControlSlotPass(cnt, s, m);
    SlotsAreDueTasks(cnt, s, pins, m);
    SlotsAreDueTasks(cnt, s1, pins, m);
    var s2 := ButtonSlotPass(cnt, s1, pins, m);
    SlotsAreDueTasks(cnt, s2, pins, m);
    var s3 := if d then RunTask(Display, s2, pins, m) else s2;
    RunWhen(c, Control, s, pins, m);
    RunWhen(b, Buttons, s1, pins, m);
    RunWhen(d, Display, s2, pins, m);
    RunWhen(u, Uart, s3, pins, m);
    RunTasksAppend(When(c, Control), When(b, Buttons), s, pins, m);
    RunTasksAppend(When(c, Control) + When(b, Buttons), When(d, Display), s, pins, m);
    RunTasksAppend(When(c, Control) + When(b, Buttons) + When(d, Display), When(u, Uart), s, pins, m);
  }

  /**
   * The first pass after power-up cannot take off: a single poll never
   * commits a switch event, so the flight state stays the initial one and
   * the outputs stay off, whatever the pins read.
   */
  lemma PowerUpFirstPassStaysLanded(cnt: int, pins: seq<bool>, m: Sensors)
    requires |pins| == NumButs
    ensures Sane(PowerUp)
    ensures var r := LoopPass(cnt, PowerUp, pins, m);
      r.flight == Initial && !r.pwmOn
  {
    InitialInv();
  }

  /**
   * The control task runs before the button task: when it is due, the
   * controllers and the tail duty come from the setpoints as they were
   * before the buttons were read; when it is not, they are unchanged.
   */
  lemma ControlUsesSetpointsBeforeButtons(cnt: int, s: Snapshot, pins: seq<bool>, m: Sensors)
    requires Sane(s) && |pins| == NumButs
    ensures var r := LoopPass(cnt, s, pins, m);
      var mt := Pid.MainTick(s.main, s.flight.altitudeSetpoint - m.altitude);
      var tt := Pid.TailTick(s.tail, s.flight.yawSetpoint - m.yaw, mt.duty);
      if cnt > s.timers.control then r.main == mt.axis && r.tail == tt.axis && r.dutyTail == tt.duty
      else r.main == s.main && r.tail == s.tail && r.dutyTail == s.dutyTail
  {
  }

  /** When the button task is not due, the flight state, the channels and the output switch are unchanged. */
  lemma ButtonsNotDueKeepState(cnt: int, s: Snapshot, pins: seq<bool>, m: Sensors)
    requires Sane(s) && |pins| == NumButs && cnt <= s.timers.button
    ensures var r := LoopPass(cnt, s, pins, m);
      r.flight == s.flight && r.chans == s.chans && r.pwmOn == s.pwmOn
  {
  }

  /**
   * The button task polls every channel; it consumes the switch event
   * always and the direction events only when flying. A direction event
   * committed in any other mode stays pending, to be taken the first time
   * the task runs in "Flying".
   */
  lemma {:induction false} DirectionEventsWaitForFlying(s: Snapshot, pins: seq<bool>, m: Sensors, i: nat)
    requires Sane(s) && |pins| == NumButs && i < NumButs
    ensures var c := ButtonPass(s, pins, m).chans[i];
      var p := Poll(s.chans[i], pins[i]);
      && c.state == p.state && c.count == p.count
      && (c.flag <==> p.flag && (i == Switch2 || (i < Switch && s.flight.mode != Flying)))
  {
    var q := PollPass(s, pins);
    var t := TogglePass(q, m);
    assert t.chans == q.chans;
    assert q.chans[i] == AfterPoll(s.chans[i], i, pins[i], s.flight.mode == Flying) by {
      if i == Up {} else if i == Down {} else if i == Left {} else if i == Right {} else if i == Switch {} else {}
    }
  }

  /**
   * In a pass where both tasks run during a landing above the touchdown
   * height, the tail duty is computed against the main controller's duty,
   * and then the landing sequence overwrites the stored main duty with
   * InitMainDutyCycle.
   */
  lemma {:induction false} LandingHoldOverridesControl(cnt: int, s: Snapshot, pins: seq<bool>, m: Sensors)
    requires Sane(s) && |pins| == NumButs
    requires s.flight.mode == Landing && m.altitude >= InitAltStep - ErrorMargin
    requires cnt > s.timers.control && cnt > s.timers.button
    ensures var r := LoopPass(cnt, s, pins, m);
      var mt := Pid.MainTick(s.main, s.flight.altitudeSetpoint - m.altitude);
      && r.dutyMain == InitMainDutyCycle
      && r.dutyTail == Pid.TailTick(s.tail, s.flight.yawSetpoint - m.yaw, mt.duty).duty
  {
    var s1 := ControlSlotPass(cnt, s, m);
    var s2 := s1.(timers := s1.timers.(button := s1.timers.button + ButtonTimerStep));
    var t := TogglePass(PollPass(s2, pins), m);
    assert t.flight == s.flight;
    var sw := Check(t.chans[Switch], Normals[Switch]).0;
    assert SwitchStage(t.flight, sw).landingSequence;
  }

  /** The helicopter: the main.c globals and the components they drive. */
  class Heli {
    var sampCnt: int
    var controlTimer: int
    var buttonTimer: int
    var tivaDisplay: int
    var uartTimer: int
    const deb: Debouncer
    const flight: FlightControl
    const rotors: Pwm.Rotors
    const pid: Pid.Controller
    const decoder: Yaw.Decoder
    const height: Height.Estimator

    function Deadlines(): Timers
      reads this
    {
      Timers(controlTimer, buttonTimer, tivaDisplay, uartTimer)
    }

    ghost predicate Valid()
      reads deb, deb.state, deb.count, deb.flag, deb.normal, flight, decoder, height
    {
      deb.Valid() && flight.Valid() && decoder.Valid() && height.Valid()
    }

    /** Everything a pass of the loop changes, as one value. */
    ghost function Snap(): Snapshot
      requires deb.state.Length == NumButs && deb.count.Length == NumButs && deb.flag.Length == NumButs
      reads this, deb, deb.state, deb.count, deb.flag, flight, pid, rotors
    {
      Snapshot(Deadlines(), flight.State(), deb.Chans(),
        pid.MainAxis(), pid.TailAxis(), pid.pwmOn, rotors.dutyMain, rotors.dutyTail)
    }

    /** The altitude every getAltitudePercentage call reads during one pass. */
    function MeasuredAltitude(): int
      reads height
    {
      Height.Altitude(height.groundHeight, Height.Volt(Height.RoundedMean(height.buffer)))
    }

    /** The yaw every getYaw call reads during one pass. */
    function MeasuredYaw(): int
      reads decoder
    {
      Yaw.Degrees(decoder.steps)
    }

    /** The sensor readings of one pass. */
    function Sense(): Sensors
      reads height, decoder
    {
      Sensors(MeasuredAltitude(), MeasuredYaw(), decoder.refFound)
    }

    /**
     * main up to the loop: every component in its initial state, the ADC
     * buffer holding `initial`, then the ground reference taken from the
     * buffer `settled`.
     */
    constructor (initial: seq<Height.Sample>, settled: seq<Height.Sample>)
      requires |initial| == Height.BufSize && |settled| == Height.BufSize
      ensures Valid() && sampCnt == 0 && Snap() == PowerUp
      ensures decoder.Quadrature() == Yaw.InitialQuad && !decoder.refFound
      ensures height.groundHeight == Height.Volt(Height.RoundedMean(settled))
    {
      sampCnt := 0;
      tivaDisplay := TivaDisplayStep;
      buttonTimer := ButtonTimerStep;
      uartTimer := UartTimerStep;
      controlTimer := 1;
      var d, f, r, p, q, h := InitComponents(initial, settled);
      deb, flight, rotors, pid, decoder, height := d, f, r, p, q, h;
    }

    /** The component initialisers main calls, in its order, ending with ADCheightReference. */
    static method InitComponents(initial: seq<Height.Sample>, settled: seq<Height.Sample>)
      returns (d: Debouncer, f: FlightControl, r: Pwm.Rotors, p: Pid.Controller, q: Yaw.Decoder, h: Height.Estimator)
      requires |initial| == Height.BufSize && |settled| == Height.BufSize
      ensures d.Valid() && f.Valid() && q.Valid() && h.Valid()
      ensures d.Chans() == Settled && f.State() == Initial
      ensures r.dutyMain == Pwm.InitialMainDuty && r.dutyTail == Pwm.InitialTailDuty
      ensures p.MainAxis() == Pid.Axis(0, 0) && p.TailAxis() == Pid.Axis(0, 0) && !p.pwmOn
      ensures q.Quadrature() == Yaw.InitialQuad && !q.refFound
      ensures h.groundHeight == Height.Volt(Height.RoundedMean(settled))
    {
      d := new Debouncer();
      f := new FlightControl();
      r := new Pwm.Rotors();
      p := new Pid.Controller();
      q := new Yaw.Decoder();
      h := new Height.Estimator(initial);
      h.ADCHeightReference(settled);
    }

    /** SysTickIntHandler: count one more sample (the conversion trigger is hardware). */
    method SysTickIntHandler()
      modifies this`sampCnt
      ensures sampCnt == old(sampCnt) + 1
    {
      sampCnt := sampCnt + 1;
    }

    /** mainControl as main.c calls it: the altitude setpoint against the measured altitude. */
    method MainStep()
      requires Valid()
      modifies pid`mainIntegralError, pid`mainLastError, rotors`dutyMain
      ensures Valid()
      ensures Snap() == MainPass(old(Snap()), Sense())
    {
      var altitude := height.GetAltitudePercentage();
      pid.MainControl(flight.altitudeSetpoint, altitude, rotors);
    }

    /** tailControl as main.c calls it: the yaw setpoint against the measured yaw and the stored main duty. */
    method TailStep()
      requires Valid()
      modifies pid`tailIntegralError, pid`tailLastError, rotors`dutyTail
      ensures Valid()
      ensures Snap() == TailPass(old(Snap()), Sense())
    {
      var yaw := decoder.GetYaw();
      pid.TailControl(flight.yawSetpoint, yaw, rotors);
    }

    /** The control task: mainControl, then tailControl. */
    method ControlTask()
      requires Valid()
      modifies pid`mainIntegralError, pid`mainLastError, pid`tailIntegralError, pid`tailLastError
      modifies rotors`dutyMain, rotors`dutyTail
      ensures Valid()
      ensures Snap() == ControlPass(old(Snap()), Sense())
    {
      MainStep();
      TailStep();
    }

    /** The control slot of the loop: when the count is past the control deadline, advance it and run the control task. */
    method ControlSlot()
      requires Valid()
      modifies this`controlTimer, pid`mainIntegralError, pid`mainLastError, pid`tailIntegralError, pid`tailLastError
      modifies rotors`dutyMain, rotors`dutyTail
      ensures Valid()
      ensures sampCnt == old(sampCnt)
      ensures Snap() == ControlSlotPass(sampCnt, old(Snap()), Sense())
    {
      if sampCnt > controlTimer {
        controlTimer := controlTimer + ControlStep;
        ControlTask();
      }
    }

    /** checkButState with pin levels `pins`. */
    method PollStep(pins: seq<bool>)
      requires Valid() && |pins| == NumButs
      modifies flight, deb.state, deb.count, deb.flag
      ensures Valid()
      ensures Snap() == PollPass(old(Snap()), pins)
    {
      flight.CheckButState(deb, pins);
    }

    /** PWMtoggle on the current mode and the measured altitude. */
    method ToggleStep()
      requires Valid()
      modifies pid`pwmOn
      ensures Valid()
      ensures Snap() == TogglePass(old(Snap()), Sense())
    {
      var altitude := height.GetAltitudePercentage();
      pid.PWMToggle(flight.mode, altitude);
    }

    /** stateHandler on the measured altitude and yaw and the reference latch. */
    method HandleStep()
      requires Valid()
      modifies flight, deb.flag, rotors`dutyMain
      ensures Valid()
      ensures Snap() == HandlePass(old(Snap()), Sense())
    {
      var altitude := height.GetAltitudePercentage();
      flight.StateHandler(deb, rotors, altitude, decoder.GetYaw(), decoder.refFound);
    }

    /** The button task: checkButState with pin levels `pins`, PWMtoggle, then stateHandler. */
    method ButtonTask(pins: seq<bool>)
      requires Valid() && |pins| == NumButs
      modifies flight, deb.state, deb.count, deb.flag, pid`pwmOn, rotors`dutyMain
      ensures Valid()
      ensures Snap() == ButtonPass(old(Snap()), pins, Sense())
    {
      PollStep(pins);
      ToggleStep();
      HandleStep();
    }

    /** The button slot of the loop: when the count is past the button deadline, advance it and run the button task. */
    method ButtonSlot(pins: seq<bool>)
      requires Valid() && |pins| == NumButs
      modifies this`buttonTimer, flight, deb.state, deb.count, deb.flag, pid`pwmOn, rotors`dutyMain
      ensures Valid()
      ensures sampCnt == old(sampCnt)
      ensures Snap() == ButtonSlotPass(sampCnt, old(Snap()), pins, Sense())
    {
      if sampCnt > buttonTimer {
        buttonTimer := buttonTimer + ButtonTimerStep;
        ButtonTask(pins);
      }
    }

    /** The display and serial slots: each due deadline advances by its stride; the output itself is not modelled. */
    method OutputSlots()
      requires Valid()
      modifies this`tivaDisplay, this`uartTimer
      ensures Valid()
      ensures sampCnt == old(sampCnt)
      ensures Snap() == OutputSlotPass(sampCnt, old(Snap()))
    {
      if sampCnt > tivaDisplay {
        tivaDisplay := tivaDisplay + TivaDisplayStep;
      }
      if sampCnt > uartTimer {
        uartTimer := uartTimer + UartTimerStep;
      }
    }

    /**
     * One pass of the `while (1)` body: each task whose deadline the count
     * has passed advances its deadline and runs, in the fixed order control,
     * buttons, display, serial. The display and serial tasks only produce
     * output.
     */
    method LoopBody(pins: seq<bool>)
      requires Valid() && |pins| == NumButs
      modifies this`controlTimer, this`buttonTimer, this`tivaDisplay, this`uartTimer
      modifies flight, deb.state, deb.count, deb.flag, pid, rotors`dutyMain, rotors`dutyTail
      ensures Valid()
      ensures sampCnt == old(sampCnt)
      ensures Snap() == LoopPass(sampCnt, old(Snap()), pins, Sense())
      ensures Snap() == RunTasks(Dispatch(sampCnt, old(Deadlines())).ran, old(Snap()), pins, Sense())
      ensures Deadlines() == Dispatch(sampCnt, old(Deadlines())).timers
    {
      ghost var s0 := Snap();
      ControlSlot();
      ButtonSlot(pins);
      OutputSlots();
      LoopPassTimers(sampCnt, s0, pins, Sense());
      LoopPassRunsDispatchedTasks(sampCnt, s0, pins, Sense());
    }
  }
}
