/**
 * The two control loops of PID.c and the output gate. Errors are whole
 * numbers (setpoints and measurements are integers), so the accumulated
 * errors are whole numbers too; the gains are exact reals and every C
 * conversion to `int` is an explicit truncation toward zero.
 */
module Pid {
  import opened CMath
  import FlightMode
  import Pwm

  /** Gains and duty limits of PID.c. */
  const MainProportionalGain: real := 0.8
  const MainIntegralGain: real := 0.01
  const MainDifferentialGain: real := 0.01
  const TailProportionalGain: real := 0.8
  const TailIntegralGain: real := 0.01
  const TailDifferentialGain: real := 0.0
  const TailStabilizer: real := 0.85
  const MinCyclRng: int := 5
  const MaxCyclRng: int := 95
  const MinDtyCycl: int := 0
  const MaxDtyCycl: int := 98
  const MainOffset: int := 10

  /** One axis's persistent controller state: the accumulated error and the previous error. */
  datatype Axis = Axis(integral: int, lastError: int)

  /** The outcome of one control tick: the new axis state, the unclamped output and the duty sent to the motor. */
  datatype Tick = Tick(axis: Axis, raw: int, duty: int)

  /** The band in which the accumulator is allowed to grow (wind-up guard). */
  predicate InControlRange(raw: int)
  {
    MinCyclRng < raw < MaxCyclRng
  }

  /** The duty-cycle clamp shared by both axes. */
  function Clamp(raw: int): int
  {
    if raw < MinCyclRng then MinDtyCycl
    else if raw >= MaxCyclRng then MaxDtyCycl
    else raw
  }

  /** The unclamped main output for error `e`, the accumulator before this tick and the previous error. */
  function MainOutput(e: int, integral: int, lastError: int): int
  {
    Trunc(MainOffset as real + MainProportionalGain * e as real
          + MainIntegralGain * integral as real + MainDifferentialGain * (e - lastError) as real)
  }

  /** mainControl for error `e` (altitude setpoint minus measured altitude). */
  function MainTick(a: Axis, e: int): Tick
  {
    var raw := MainOutput(e, a.integral, a.lastError);
    var gated := if InControlRange(raw) then a.integral + e else a.integral;
    Tick(Axis(gated + e, e), raw, Clamp(raw))
  }

  /** The unclamped tail output: the stabiliser share of the main duty plus the truncated tail correction. */
  function TailOutput(e: int, integral: int, lastError: int, mainDuty: int): int
  {
    var control := Trunc(TailProportionalGain * e as real + TailIntegralGain * integral as real
                         + TailDifferentialGain * (e - lastError) as real);
    Trunc(mainDuty as real * TailStabilizer + control as real)
  }

  /** tailControl for error `e` (yaw setpoint minus measured yaw) and the main duty currently stored. */
  function TailTick(a: Axis, e: int, mainDuty: int): Tick
  {
    var raw := TailOutput(e, a.integral, a.lastError, mainDuty);
    Tick(Axis(if InControlRange(raw) then a.integral + e else a.integral, e), raw, Clamp(raw))
  }

  /** PWMtoggle: whether the outputs are enabled afterwards. */
  function Toggle(on: bool, mode: FlightMode.Mode, altitude: int): bool
  {
    var on1 := if (mode == FlightMode.Flying || mode == FlightMode.Calibration) && !on then true else on;
    if mode == FlightMode.Landed && on1 && altitude == 0 then false else on1
  }

  // ---------------------------------------------------------------------
  // The clamp
  // ---------------------------------------------------------------------

  /** Every duty sent to a motor is 0, 98 or within [5, 94]. */
  lemma ClampRange(raw: int)
    ensures var d := Clamp(raw); d == MinDtyCycl || d == MaxDtyCycl || MinCyclRng <= d < MaxCyclRng
  {
  }

  /** The clamp sends exactly the outputs below 5 to 0 and exactly those at or above 95 to 98; its fixed points are [5, 94], 0 and 98. */
  lemma ClampCases(raw: int)
    ensures Clamp(raw) == MinDtyCycl <==> raw < MinCyclRng
    ensures Clamp(raw) == MaxDtyCycl <==> raw >= MaxCyclRng
    ensures Clamp(raw) == raw <==> MinCyclRng <= raw < MaxCyclRng || raw == MinDtyCycl || raw == MaxDtyCycl
  {
  }

  /** Clamping a clamped duty changes nothing. */
  lemma ClampIdempotent(raw: int)
    ensures Clamp(Clamp(raw)) == Clamp(raw)
  {
  }

  /** A larger demand never gives a smaller duty. */
  lemma ClampMonotone(x: int, y: int)
    requires x <= y
    ensures Clamp(x) <= Clamp(y)
  {
  }

  // ---------------------------------------------------------------------
  // The main axis
  // ---------------------------------------------------------------------

  /**
   * One main tick: the previous error becomes `e`; the accumulator grows by
   * 2e when the output of this very tick is inside (5, 95) and by e
   * otherwise, so it is never frozen; the duty is the clamped output.
   */
  lemma MainTickEffect(a: Axis, e: int)
    ensures var t := MainTick(a, e);
      && t.axis.lastError == e
      && t.raw == MainOutput(e, a.integral, a.lastError)
      && t.axis.integral - a.integral == (if InControlRange(t.raw) then 2 * e else e)
      && t.duty == Clamp(t.raw)
  {
  }

  /** With no error, no history and an empty accumulator the main rotor gets its offset. */
  lemma MainIdle()
    ensures MainTick(Axis(0, 0), 0) == Tick(Axis(0, 0), MainOffset, MainOffset)
  {
    TruncOfInt(MainOffset);
  }

  /** A larger error never lowers the main output or the main duty (all main gains are positive). */
  lemma MainOutputMonotone(e1: int, e2: int, a: Axis)
    requires e1 <= e2
    ensures MainOutput(e1, a.integral, a.lastError) <= MainOutput(e2, a.integral, a.lastError)
    ensures MainTick(a, e1).duty <= MainTick(a, e2).duty
  {
    var x1 := MainOffset as real + MainProportionalGain * e1 as real
              + MainIntegralGain * a.integral as real + MainDifferentialGain * (e1 - a.lastError) as real;
    var x2 := MainOffset as real + MainProportionalGain * e2 as real
              + MainIntegralGain * a.integral as real + MainDifferentialGain * (e2 - a.lastError) as real;
    TruncMonotone(x1, x2);
    ClampMonotone(MainOutput(e1, a.integral, a.lastError), MainOutput(e2, a.integral, a.lastError));
  }

  /**
   * The wind-up guard does not hold the main accumulator: a saturating
   * error of 200 drives the output to 172, the duty to 98, and the
   * accumulator still takes the whole error.
   */
  lemma MainSaturatedStillIntegrates()
    ensures MainTick(Axis(0, 0), 200) == Tick(Axis(200, 200), 172, MaxDtyCycl)
  {
    TruncOfInt(172);
  }

  /** The main axis after a run of ticks, oldest error first. */
  function MainRun(a: Axis, errors: seq<int>): Axis
  {
    if errors == [] then a
    else MainTick(MainRun(a, errors[..|errors| - 1]), errors[|errors| - 1]).axis
  }

  /**
   * Over any run of non-negative errors the main accumulator grows by at
   * least their sum and at most twice it: every error is always taken in,
   * whatever the outputs were.
   */
  lemma {:induction false} MainIntegralTracksErrors(a: Axis, errors: seq<int>)
    requires forall i :: 0 <= i < |errors| ==> errors[i] >= 0
    ensures Sum(errors) <= MainRun(a, errors).integral - a.integral <= 2 * Sum(errors)
  {
    if errors != [] {
      var front := errors[..|errors| - 1];
      assert forall i :: 0 <= i < |front| ==> front[i] == errors[i];
      MainIntegralTracksErrors(a, front);
      MainTickEffect(MainRun(a, front), errors[|errors| - 1]);
    }
  }

  /** After a non-empty run the previous error is the last error of the run. */
  lemma {:induction false} MainRunRemembersLastError(a: Axis, errors: seq<int>)
    requires errors != []
    ensures MainRun(a, errors).lastError == errors[|errors| - 1]
  {
    MainTickEffect(MainRun(a, errors[..|errors| - 1]), errors[|errors| - 1]);
  }

  // ---------------------------------------------------------------------
  // The tail axis
  // ---------------------------------------------------------------------

  /**
   * One tail tick: the previous error becomes `e`; the accumulator grows by
   * e when the output of this tick is inside (5, 95) and is held otherwise;
   * the duty is the clamped output.
   */
  lemma TailTickEffect(a: Axis, e: int, mainDuty: int)
    ensures var t := TailTick(a, e, mainDuty);
      && t.axis.lastError == e
      && t.raw == TailOutput(e, a.integral, a.lastError, mainDuty)
      && t.axis.integral - a.integral == (if InControlRange(t.raw) then e else 0)
      && t.duty == Clamp(t.raw)
  {
  }

  /** The tail's differential gain is zero: the previous tail error has no effect on the output. */
  lemma TailIgnoresLastError(e: int, integral: int, l1: int, l2: int, mainDuty: int)
    ensures TailOutput(e, integral, l1, mainDuty) == TailOutput(e, integral, l2, mainDuty)
  {
  }

  /**
   * The tail follows the main duty actually stored, which is the clamped
   * one: with no tail error and an empty accumulator, a main output of 172
   * (stored as 98) gives a tail output of 83, not the 146 the unclamped
   * value would give.
   */
  lemma TailCouplesToClampedMain()
    ensures MainTick(Axis(0, 0), 200).duty == MaxDtyCycl
    ensures TailTick(Axis(0, 0), 0, MainTick(Axis(0, 0), 200).duty).raw == 83
    ensures TailOutput(0, 0, 0, MainTick(Axis(0, 0), 200).raw) == 146
  {
    MainSaturatedStillIntegrates();
    TruncOfInt(0);
  }

  /** A larger main duty never lowers the tail output. */
  lemma TailOutputMonotoneInMain(e: int, a: Axis, m1: int, m2: int)
    requires m1 <= m2
    ensures TailOutput(e, a.integral, a.lastError, m1) <= TailOutput(e, a.integral, a.lastError, m2)
  {
    var control := Trunc(TailProportionalGain * e as real + TailIntegralGain * a.integral as real
                         + TailDifferentialGain * (e - a.lastError) as real);
    TruncMonotone(m1 as real * TailStabilizer + control as real, m2 as real * TailStabilizer + control as real);
  }

  // ---------------------------------------------------------------------
  // The output gate
  // ---------------------------------------------------------------------

  /**
   * PWMtoggle changes the gate exactly when it is off in "Flying" or
   * "Calibration" (it turns on), or on in "landed" with the measured
   * altitude exactly 0 (it turns off).
   */
  lemma ToggleCases(on: bool, mode: FlightMode.Mode, altitude: int)
    ensures Toggle(on, mode, altitude) && !on
      <==> (mode == FlightMode.Flying || mode == FlightMode.Calibration) && !on
    ensures !Toggle(on, mode, altitude) && on <==> mode == FlightMode.Landed && on && altitude == 0
  {
  }

  /** Toggling twice with the same inputs is toggling once. */
  lemma ToggleIdempotent(on: bool, mode: FlightMode.Mode, altitude: int)
    ensures Toggle(Toggle(on, mode, altitude), mode, altitude) == Toggle(on, mode, altitude)
  {
  }

  /** In "landing" the gate is never touched, whatever the altitude. */
  lemma ToggleHoldsWhileLanding(on: bool, altitude: int)
    ensures Toggle(on, FlightMode.Landing, altitude) == on
  {
  }

  /**
   * The controller globals of PID.c: the two accumulators, the two previous
   * errors and the output gate, persisting across calls. The duties
   * themselves live in Pwm.Rotors.
   */
  class Controller {
    var mainIntegralError: int
    var mainLastError: int
    var tailIntegralError: int
    var tailLastError: int
    var pwmOn: bool

    function MainAxis(): Axis
      reads this
    {
      Axis(mainIntegralError, mainLastError)
    }

    function TailAxis(): Axis
      reads this
    {
      Axis(tailIntegralError, tailLastError)
    }

    /** Everything starts at zero and the outputs start disabled. */
    constructor ()
      ensures MainAxis() == Axis(0, 0) && TailAxis() == Axis(0, 0) && !pwmOn
    {
      mainIntegralError := 0;
      mainLastError := 0;
      tailIntegralError := 0;
      tailLastError := 0;
      pwmOn := false;
    }

    /**
     * mainControl: `setpoint` is the altitude setpoint and `altitude` the
     * measured altitude (percent). The output is stored unclamped first,
     * gates the accumulator, and is then clamped and sent to the motor.
     */
    method MainControl(setpoint: int, altitude: int, rotors: Pwm.Rotors)
      modifies this`mainIntegralError, this`mainLastError, rotors`dutyMain
      ensures var t := MainTick(old(MainAxis()), setpoint - altitude);
        MainAxis() == t.axis && rotors.dutyMain == t.duty
    {
      var mainError := setpoint - altitude;
      var differential := mainError - mainLastError;
      mainLastError := mainError;
      var control := Trunc(MainOffset as real + MainProportionalGain * mainError as real
                           + MainIntegralGain * mainIntegralError as real
                           + MainDifferentialGain * differential as real);
      rotors.dutyMain := control;
      if rotors.dutyMain > MinCyclRng && rotors.dutyMain < MaxCyclRng {
        mainIntegralError := mainIntegralError + mainError;
      }
      mainIntegralError := mainIntegralError + mainError;
      if rotors.dutyMain < MinCyclRng {
        rotors.dutyMain := MinDtyCycl;
      }
      if rotors.dutyMain >= MaxCyclRng {
        rotors.dutyMain := MaxDtyCycl;
      }
      rotors.SetMain(rotors.dutyMain);
    }

    /**
     * tailControl: `setpoint` is the yaw setpoint and `yaw` the measured yaw
     * (degrees). The main duty it adds in is whatever the rotors currently
     * hold, i.e. the clamped main duty.
     */
    method TailControl(setpoint: int, yaw: int, rotors: Pwm.Rotors)
      modifies this`tailIntegralError, this`tailLastError, rotors`dutyTail
      ensures var t := TailTick(old(TailAxis()), setpoint - yaw, rotors.dutyMain);
        TailAxis() == t.axis && rotors.dutyTail == t.duty
      ensures rotors.dutyMain == old(rotors.dutyMain)
    {
      var tailError := setpoint - yaw;
      var differential := tailError - tailLastError;
      tailLastError := tailError;
      var tailControl := Trunc(TailProportionalGain * tailError as real
                               + TailIntegralGain * tailIntegralError as real
                               + TailDifferentialGain * differential as real);
      rotors.dutyTail := Trunc(rotors.dutyMain as real * TailStabilizer + tailControl as real);
      if rotors.dutyTail > MinCyclRng && rotors.dutyTail < MaxCyclRng {
        tailIntegralError := tailIntegralError + tailError;
      }
      if rotors.dutyTail < MinCyclRng {
        rotors.dutyTail := MinDtyCycl;
      }
      if rotors.dutyTail >= MaxCyclRng {
        rotors.dutyTail := MaxDtyCycl;
      }
      rotors.SetTail(rotors.dutyTail);
    }

    /** PWMtoggle, given the current mode and the measured altitude. */
    method PWMToggle(mode: FlightMode.Mode, altitude: int)
      modifies this`pwmOn
      ensures pwmOn == Toggle(old(pwmOn), mode, altitude)
    {
      if (mode == FlightMode.Flying || mode == FlightMode.Calibration) && !pwmOn {
        pwmOn := true;
      }
      if mode == FlightMode.Landed && pwmOn && altitude == 0 {
        pwmOn := false;
      }
    }
  }
}
