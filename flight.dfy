/**
 * The flight-mode state machine of buttons.c (checkButState and
 * stateHandler): the mode string, the sequence flags and the altitude and
 * yaw setpoints, driven by the debounced button events, the measured
 * altitude, the measured yaw and the reference latch.
 */
module FlightMode {
  import opened Debounce
  import Pwm

  /** g_state: "landed", "Flying", "landing", "Calibration". */
  datatype Mode = Landed | Flying | Landing | Calibration

  /** Setpoint steps and limits of buttons.c. */
  const YawStep: int := 15
  const AltStep: int := 10
  const CeilingHeight: int := 100
  const FloorHeight: int := 0
  const ErrorMargin: int := 2
  const InitAltStep: int := 10
  const InitMainDutyCycle: int := 15

  /**
   * The globals of buttons.c as one value: the mode, the three sequence
   * flags and the arming flag, the altitude setpoint (g_altitude_percent,
   * percent) and the yaw setpoint (g_yaw_angle, degrees).
   */
  datatype Flight = Flight(
    mode: Mode,
    flyingFromLanded: bool,
    startUpSequence: bool,
    calibrate: bool,
    landingSequence: bool,
    altitudeSetpoint: int,
    yawSetpoint: int)

  /** The initial values of those globals. */
  const Initial: Flight := Flight(Landed, false, true, false, false, 0, 0)

  /**
   * What every reachable state satisfies: the altitude setpoint is a
   * multiple of AltStep within [0, 100]; calibrating happens only during the
   * start-up sequence, never together with landing, and is exactly the
   * "Calibration" mode; the landing sequence runs after start-up only, in
   * "landing" mode, or in "Flying" when the switch went back up before
   * touchdown; nothing leaves "landed" before the switch has been seen down
   * once.
   */
  ghost predicate Inv(f: Flight)
  {
    && FloorHeight <= f.altitudeSetpoint <= CeilingHeight && f.altitudeSetpoint % AltStep == 0
    && (f.calibrate ==> f.startUpSequence && !f.landingSequence)
    && (f.mode == Calibration <==> f.calibrate)
    && (f.mode == Landing ==> f.landingSequence)
    && (f.landingSequence ==> !f.startUpSequence && (f.mode == Landing || f.mode == Flying))
    && (!f.startUpSequence ==> f.flyingFromLanded)
    && (f.mode != Landed ==> f.flyingFromLanded)
  }

  lemma InitialInv()
    ensures Inv(Initial)
  {
  }

  // ---------------------------------------------------------------------
  // checkButState, "Flying" branch
  // ---------------------------------------------------------------------

  /** UP: one step higher, unless already at the ceiling. */
  function RaiseAltitude(alt: int, ev: ButEvent): int
  {
    if ev == Pushed && alt < CeilingHeight then alt + AltStep else alt
  }

  /** DOWN: one step lower, unless already at the floor. */
  function LowerAltitude(alt: int, ev: ButEvent): int
  {
    if ev == Pushed && alt > FloorHeight then alt - AltStep else alt
  }

  /** LEFT: one step anticlockwise, without limit. */
  function TurnLeft(yaw: int, ev: ButEvent): int
  {
    if ev == Pushed then yaw - YawStep else yaw
  }

  /** RIGHT: one step clockwise, without limit. */
  function TurnRight(yaw: int, ev: ButEvent): int
  {
    if ev == Pushed then yaw + YawStep else yaw
  }

  /**
   * The setpoint changes in "Flying" for the UP, DOWN, LEFT and RIGHT
   * events, handled in that order. Altitude moves by AltStep and stays
   * within [0, 100]; yaw moves by YawStep with no limit.
   */
  function AdjustFlying(f: Flight, up: ButEvent, down: ButEvent, left: ButEvent, right: ButEvent): (r: Flight)
    requires Inv(f)
    ensures Inv(r)
    ensures r.(altitudeSetpoint := f.altitudeSetpoint, yawSetpoint := f.yawSetpoint) == f
    ensures r.yawSetpoint - f.yawSetpoint
         == (if right == Pushed then YawStep else 0) - (if left == Pushed then YawStep else 0)
    ensures up != Pushed && down != Pushed ==> r.altitudeSetpoint == f.altitudeSetpoint
  {
    var alt := LowerAltitude(RaiseAltitude(f.altitudeSetpoint, up), down);
    f.(altitudeSetpoint := alt, yawSetpoint := TurnRight(TurnLeft(f.yawSetpoint, left), right))
  }

  /** A single UP or DOWN press moves a valid setpoint by one step unless it is at the limit it moves toward. */
  lemma {:induction false} AltitudeStep(f: Flight, up: ButEvent, down: ButEvent)
    requires Inv(f)
    ensures up == Pushed && down != Pushed ==>
      AdjustFlying(f, up, down, NoChange, NoChange).altitudeSetpoint
        == (if f.altitudeSetpoint < CeilingHeight then f.altitudeSetpoint + AltStep else CeilingHeight)
    ensures down == Pushed && up != Pushed ==>
      AdjustFlying(f, up, down, NoChange, NoChange).altitudeSetpoint
        == (if f.altitudeSetpoint > FloorHeight then f.altitudeSetpoint - AltStep else FloorHeight)
  {
  }

  // ---------------------------------------------------------------------
  // stateHandler
  // ---------------------------------------------------------------------

  /** The mode-switch event, handled first. */
  function SwitchStage(f: Flight, sw: ButEvent): Flight
  {
    if f.flyingFromLanded then
      if !f.startUpSequence then
        match sw
        case Pushed => f.(mode := Flying)
        case Released => f.(mode := Landing, landingSequence := true)
        case NoChange => f
      else if sw == Pushed then f.(calibrate := true)
      else f
    else if sw == Released then f.(flyingFromLanded := true)
    else f
  }

  /** The landing sequence, given the measured altitude (percent). */
  function LandingStage(f: Flight, altitude: int): Flight
  {
    if f.landingSequence then
      if altitude < InitAltStep - ErrorMargin then
        f.(landingSequence := false, altitudeSetpoint := 0, mode := Landed)
      else
        f.(yawSetpoint := 0, altitudeSetpoint := InitAltStep)
    else f
  }

  /** Whether the landing sequence also forces the main duty to InitMainDutyCycle. */
  predicate HoldsMainDuty(f: Flight, altitude: int)
  {
    f.landingSequence && !(altitude < InitAltStep - ErrorMargin)
  }

  /** The calibration sequence, given the measured yaw (degrees) and the reference latch. */
  function CalibrationStage(f: Flight, yaw: int, refFound: bool): Flight
  {
    if f.calibrate then
      var g := f.(mode := Calibration, altitudeSetpoint := InitAltStep * 2);
      if refFound then
        g.(altitudeSetpoint := 0, startUpSequence := false, calibrate := false,
           yawSetpoint := 0, mode := Flying)
      else if yaw < g.yawSetpoint + ErrorMargin && yaw > g.yawSetpoint - ErrorMargin then
        g.(yawSetpoint := g.yawSetpoint - YawStep)
      else g
    else f
  }

  /** One stateHandler call, given the switch event it consumed. */
  function Handle(f: Flight, sw: ButEvent, altitude: int, yaw: int, refFound: bool): (r: Flight)
    requires Inv(f)
    ensures Inv(r)
    ensures r.startUpSequence ==> f.startUpSequence
    ensures f.flyingFromLanded ==> r.flyingFromLanded
  {
    CalibrationStage(LandingStage(SwitchStage(f, sw), altitude), yaw, refFound)
  }

  /** Before the switch has been seen down once, only a release does anything: it arms. */
  lemma NotArmed(f: Flight, sw: ButEvent, altitude: int, yaw: int, refFound: bool)
    requires Inv(f) && !f.flyingFromLanded
    ensures Handle(f, sw, altitude, yaw, refFound)
         == if sw == Released then f.(flyingFromLanded := true) else f
  {
  }

  /**
   * On the first flight the switch going up starts calibration: the mode
   * becomes "Calibration" with altitude setpoint 20, or, when the reference
   * has already been found, "Flying" with both setpoints zero.
   */
  lemma FirstPushCalibrates(f: Flight, altitude: int, yaw: int, refFound: bool)
    requires Inv(f) && f.flyingFromLanded && f.startUpSequence
    ensures var r := Handle(f, Pushed, altitude, yaw, refFound);
      if refFound then
        r.mode == Flying && !r.startUpSequence && !r.calibrate
        && r.altitudeSetpoint == 0 && r.yawSetpoint == 0
      else
        r.mode == Calibration && r.calibrate && r.altitudeSetpoint == InitAltStep * 2
  {
  }

  /** Once the start-up sequence is over, calibration never happens again. */
  lemma {:induction false} NoSecondCalibration(f: Flight, sw: ButEvent, altitude: int, yaw: int, refFound: bool)
    requires Inv(f) && !f.startUpSequence
    ensures Handle(f, sw, altitude, yaw, refFound).mode != Calibration
  {
  }

  /**
   * After start-up the switch going up from "landed" goes straight to
   * "Flying"; the switch going down starts the landing sequence.
   */
  lemma AfterStartUp(f: Flight, sw: ButEvent, altitude: int, yaw: int, refFound: bool)
    requires Inv(f) && !f.startUpSequence
    ensures sw == Pushed && f.mode == Landed ==> Handle(f, sw, altitude, yaw, refFound).mode == Flying
    ensures sw == Released ==>
      var r := Handle(f, sw, altitude, yaw, refFound);
      if altitude < InitAltStep - ErrorMargin then r.mode == Landed && !r.landingSequence && r.altitudeSetpoint == 0
      else r.mode == Landing && r.landingSequence && r.altitudeSetpoint == InitAltStep && r.yawSetpoint == 0
  {
  }

  /**
   * Switching back up during the landing sequence shows "Flying" but does not
   * cancel the sequence: the setpoints are still forced to the landing values
   * and the main duty is still held.
   */
  lemma PushDuringLandingKeepsLanding(f: Flight, altitude: int, yaw: int, refFound: bool)
    requires Inv(f) && f.landingSequence && altitude >= InitAltStep - ErrorMargin
    ensures var r := Handle(f, Pushed, altitude, yaw, refFound);
      r.mode == Flying && r.landingSequence && r.altitudeSetpoint == InitAltStep && r.yawSetpoint == 0
    ensures HoldsMainDuty(SwitchStage(f, Pushed), altitude)
  {
  }

  /** While calibrating without the reference, the yaw setpoint steps down only when the measured yaw has caught up with it. */
  lemma CalibrationSearch(f: Flight, altitude: int, yaw: int)
    requires Inv(f) && f.calibrate
    ensures var r := Handle(f, NoChange, altitude, yaw, false);
      r.mode == Calibration && r.altitudeSetpoint == InitAltStep * 2 &&
      r.yawSetpoint == f.yawSetpoint - (if f.yawSetpoint - ErrorMargin < yaw < f.yawSetpoint + ErrorMargin then YawStep else 0)
  {
  }

  /**
   * Once the reference has been found, a call during calibration ends it,
   * whatever the switch reports: the mode becomes "Flying", both setpoints
   * are zero and the start-up sequence is over.
   */
  lemma CalibrationCompletes(f: Flight, sw: ButEvent, altitude: int, yaw: int)
    requires Inv(f) && f.calibrate
    ensures Handle(f, sw, altitude, yaw, true)
         == f.(mode := Flying, calibrate := false, startUpSequence := false, altitudeSetpoint := 0, yawSetpoint := 0)
  {
  }

  /**
   * A call during the landing sequence with no switch event: below 8% the
   * helicopter is landed with setpoint 0 and the sequence ends; otherwise the
   * setpoints are forced to 10 and 0 and the main duty is held.
   */
  lemma LandingProgress(f: Flight, altitude: int, yaw: int, refFound: bool)
    requires Inv(f) && f.landingSequence
    ensures Handle(f, NoChange, altitude, yaw, refFound)
         == if altitude < InitAltStep - ErrorMargin then f.(landingSequence := false, altitudeSetpoint := 0, mode := Landed)
            else f.(yawSetpoint := 0, altitudeSetpoint := InitAltStep)
    ensures HoldsMainDuty(SwitchStage(f, NoChange), altitude) <==> altitude >= InitAltStep - ErrorMargin
  {
  }

  /** The whole first flight: arm, calibrate, find the reference, land, and take off again without calibrating. */
  lemma FlightCycle(yaw: int)
    ensures var armed := Handle(Initial, Released, 0, yaw, false);
      var calibrating := Handle(armed, Pushed, 0, yaw, false);
      var flying := Handle(calibrating, NoChange, 0, yaw, true);
      var landing := Handle(flying, Released, 50, yaw, true);
      var landed := Handle(landing, NoChange, 0, yaw, true);
      var again := Handle(landed, Pushed, 0, yaw, true);
      calibrating.mode == Calibration && flying.mode == Flying && landing.mode == Landing
      && landed.mode == Landed && again.mode == Flying
  {
  }

  /**
   * The buttons.c globals, updated in place by checkButState and
   * stateHandler.
   */
  class FlightControl {
    var mode: Mode
    var flyingFromLanded: bool
    var startUpSequence: bool
    var calibrate: bool
    var landingSequence: bool
    var altitudeSetpoint: int
    var yawSetpoint: int

    function State(): Flight
      reads this
    {
      Flight(mode, flyingFromLanded, startUpSequence, calibrate, landingSequence, altitudeSetpoint, yawSetpoint)
    }

    ghost predicate Valid()
      reads this
    {
      Inv(State())
    }

    constructor ()
      ensures State() == Initial && Valid()
    {
      mode := Landed;
      flyingFromLanded := false;
      startUpSequence := true;
      calibrate := false;
      landingSequence := false;
      altitudeSetpoint := 0;
      yawSetpoint := 0;
    }

    /**
     * checkButState: poll the buttons with pin levels `pins`; in "Flying",
     * consume the UP, DOWN, LEFT and RIGHT events and move the setpoints.
     * In any other mode those events stay pending.
     */
    method CheckButState(deb: Debouncer, pins: seq<bool>)
      requires Valid() && deb.Valid() && |pins| == NumButs
      modifies this, deb.state, deb.count, deb.flag
      ensures Valid() && deb.Valid()
      ensures forall i :: 0 <= i < NumButs ==>
        deb.Chan(i) == if old(mode) == Flying && i < Switch
                       then Check(Poll(old(deb.Chan(i)), pins[i]), Normals[i]).1
                       else Poll(old(deb.Chan(i)), pins[i])
      ensures State() == if old(mode) == Flying
        then AdjustFlying(old(State()),
          Check(Poll(old(deb.Chan(Up)), pins[Up]), Normals[Up]).0,
          Check(Poll(old(deb.Chan(Down)), pins[Down]), Normals[Down]).0,
          Check(Poll(old(deb.Chan(Left)), pins[Left]), Normals[Left]).0,
          Check(Poll(old(deb.Chan(Right)), pins[Right]), Normals[Right]).0)
        else old(State())
    {
      deb.UpdateButtons(pins);
      if mode == Flying {
        FlyingButtons(deb);
      }
    }

    /** The "Flying" block of checkButState: UP, DOWN, LEFT, RIGHT in that order. */
    method FlyingButtons(deb: Debouncer)
      requires Valid() && deb.Valid()
      modifies this, deb.flag
      ensures Valid() && deb.Valid()
      ensures forall i :: 0 <= i < Switch ==> deb.Chan(i) == Check(old(deb.Chan(i)), Normals[i]).1
      ensures deb.Chan(Switch) == old(deb.Chan(Switch)) && deb.Chan(Switch2) == old(deb.Chan(Switch2))
      ensures State() == AdjustFlying(old(State()),
        Check(old(deb.Chan(Up)), Normals[Up]).0, Check(old(deb.Chan(Down)), Normals[Down]).0,
        Check(old(deb.Chan(Left)), Normals[Left]).0, Check(old(deb.Chan(Right)), Normals[Right]).0)
    {
      ghost var f0 := State();
      var alt, yawSp := altitudeSetpoint, yawSetpoint;
      var up := deb.CheckButton(Up);
      alt := RaiseAltitude(alt, up);
      var down := deb.CheckButton(Down);
      alt := LowerAltitude(alt, down);
      var left := deb.CheckButton(Left);
      yawSp := TurnLeft(yawSp, left);
      var right := deb.CheckButton(Right);
      yawSp := TurnRight(yawSp, right);
      altitudeSetpoint, yawSetpoint := alt, yawSp;
      assert State() == AdjustFlying(f0, up, down, left, right);
    }

    /**
     * stateHandler: consume the mode-switch event, then run the landing and
     * calibration sequences. `altitude` is the measured altitude (percent),
     * `yaw` the measured yaw (degrees), `refFound` the reference latch. The
     * landing sequence also writes the main duty.
     */
    method StateHandler(deb: Debouncer, rotors: Pwm.Rotors, altitude: int, yaw: int, refFound: bool)
      requires Valid() && deb.Valid()
      modifies this, deb.flag, rotors`dutyMain
      ensures Valid() && deb.Valid()
      ensures var (sw, c) := Check(old(deb.Chan(Switch)), Normals[Switch]);
        && deb.Chan(Switch) == c
        && State() == Handle(old(State()), sw, altitude, yaw, refFound)
        && rotors.dutyMain == if HoldsMainDuty(SwitchStage(old(State()), sw), altitude)
                              then InitMainDutyCycle else old(rotors.dutyMain)
      ensures forall i :: 0 <= i < NumButs && i != Switch ==> deb.Chan(i) == old(deb.Chan(i))
    {
      ghost var f0 := State();
      var sw := deb.CheckButton(Switch);
      SwitchStep(sw);
      LandingStep(altitude, rotors);
      CalibrationStep(yaw, refFound);
      assert State() == Handle(f0, sw, altitude, yaw, refFound);
    }

    /** The switch-event block of stateHandler. */
    method SwitchStep(sw: ButEvent)
      modifies this
      ensures State() == SwitchStage(old(State()), sw)
    {
      if flyingFromLanded {
        if !startUpSequence {
          match sw
          case Pushed => mode := Flying;
          case Released =>
            mode := Landing;
            landingSequence := true;
          case NoChange =>
        } else if sw == Pushed {
          calibrate := true;
        }
      } else if sw == Released {
        flyingFromLanded := true;
      }
    }

    /** The landing block of stateHandler: it also writes the main duty while descending. */
    method LandingStep(altitude: int, rotors: Pwm.Rotors)
      modifies this, rotors`dutyMain
      ensures State() == LandingStage(old(State()), altitude)
      ensures rotors.dutyMain == if HoldsMainDuty(old(State()), altitude)
                                 then InitMainDutyCycle else old(rotors.dutyMain)
    {
      if landingSequence {
        if altitude < InitAltStep - ErrorMargin {
          landingSequence := false;
          altitudeSetpoint := 0;
          mode := Landed;
        } else {
          yawSetpoint := 0;
          altitudeSetpoint := InitAltStep;
          rotors.dutyMain := InitMainDutyCycle;
        }
      }
    }

    /** The calibration block of stateHandler. */
    method CalibrationStep(yaw: int, refFound: bool)
      modifies this
      ensures State() == CalibrationStage(old(State()), yaw, refFound)
    {
      if calibrate {
        mode := Calibration;
        altitudeSetpoint := InitAltStep * 2;
        if refFound {
          altitudeSetpoint := 0;
          startUpSequence := false;
          calibrate := false;
          yawSetpoint := 0;
          mode := Flying;
        } else if yaw < yawSetpoint + ErrorMargin && yaw > yawSetpoint - ErrorMargin {
          yawSetpoint := yawSetpoint - YawStep;
        }
      }
    }
  }
}
