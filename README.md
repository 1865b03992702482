# Tethered helicopter controller — a Dafny model

This project models the control core of a bare-metal firmware for a small
helicopter on a test stand. The helicopter has a main rotor that sets its
altitude and a tail rotor that sets its yaw. The model covers:

- the button debouncer and the flight-mode state machine of `buttons.c`;
- the altitude and yaw control loops and the output gate of `PID.c`;
- the quadrature yaw decoder and the reference latch of `yaw.c`;
- the ten-sample altitude estimator of `height.c`;
- the co-operative main loop of `main.c`: a SysTick counter and four task
  deadlines;
- the duty-cycle globals of `PWM_main.c` and `PWM_tail.c`, as the state the
  control loops write.

Each C module whose globals change in place is a Dafny class with those
globals as fields:

| class | C module | fields |
|---|---|---|
| `Debounce.Debouncer` | `buttons.c` | the four per-button arrays |
| `FlightMode.FlightControl` | `buttons.c` | the mode and the sequence flags |
| `Pid.Controller` | `PID.c` | the controller state |
| `Pwm.Rotors` | `PWM_main.c`, `PWM_tail.c` | the two duties |
| `Yaw.Decoder` | `yaw.c` | the decoder state |
| `Height.Estimator` | `height.c` | the sample buffer and the ground reference |
| `Firmware.Heli` | `main.c` | the loop counters, plus the components above |

Every method's contract gives its new state, or its result, as a pure
function of the old state and the inputs. The properties of the firmware are
lemmas about those functions:

| method | function |
|---|---|
| `Debounce.Debouncer.UpdateButtons`, `Debounce.Debouncer.CheckButton` | `Debounce.Poll`, `Debounce.Check` |
| `FlightMode.FlightControl.StateHandler` | `FlightMode.Handle` |
| `Pid.Controller.MainControl`, `Pid.Controller.TailControl` | `Pid.MainTick`, `Pid.TailTick` |
| `Yaw.Decoder.YawIntHandler` | `Yaw.YawStep` |
| the `Height.Estimator` methods | `Height.RoundedMean`, `Height.Volt`, `Height.Altitude` |
| `Firmware.Heli.MainStep`, `Firmware.Heli.TailStep`, `Firmware.Heli.ControlTask` | `Firmware.MainPass`, `Firmware.TailPass`, `Firmware.ControlPass` |
| `Firmware.Heli.PollStep`, `Firmware.Heli.ToggleStep`, `Firmware.Heli.HandleStep`, `Firmware.Heli.ButtonTask` | `Firmware.PollPass`, `Firmware.TogglePass`, `Firmware.HandlePass`, `Firmware.ButtonPass` |
| `Firmware.Heli.ControlSlot`, `Firmware.Heli.ButtonSlot`, `Firmware.Heli.OutputSlots` | `Firmware.ControlSlotPass`, `Firmware.ButtonSlotPass`, `Firmware.OutputSlotPass` |
| `Firmware.Heli.LoopBody` | `Firmware.LoopPass`, whose deadlines are those of `Firmware.Dispatch` |

A `Firmware.Snapshot` holds, as values, everything one pass of the loop
changes:
- the deadlines;
- the flight state;
- the six debounce channels;
- the two controller axes;
- the output switch;
- the two duties.

`Firmware.Heli.Snap` reads it off the objects.

Arithmetic follows the C:

- `CMath.CDiv` is C's `/`, which truncates toward zero.
- `CMath.Trunc` is the float-to-`int` conversion.
- Floating-point quantities are exact reals.
- The yaw is a whole number of quadrature steps; one step is 1.60714285714 degrees.

The model follows the code as written where the code departs from what its
own comments describe:

- The main integral is never frozen. `PID.c:136` adds the error a second time,
  outside the wind-up guard. The accumulator grows by e on every tick and by
  2e when the output is in range (`Pid.MainTickEffect`,
  `Pid.MainIntegralTracksErrors`).
- The wind-up guard tests the output of the current tick, computed from the
  accumulator before this tick's error is added.
- The tail output adds in the main duty as stored, which is the clamped one
  (`Pid.TailCouplesToClampedMain`).
- The quadrature decoder does not filter contact bounce (`Yaw.BouncesAccumulate`).
- In `getAltitudePercentage` the denominator `ground - ceiling` is always 800,
  so the altitude cannot divide by zero (`Height.AltitudeIsScaledDrop`).
- `initButtons` never sets the idle level of SWITCH_2. The header gives it
  `true`, but the C static array leaves it `false`, and the model uses
  `false` (`Debounce.Normals`).
- `main.c:51` declares `g_yaw_angle` as `float`, while `buttons.c:61` defines
  it as `int16_t`. The model keeps the integer setpoint.

## Model

| member | source | states |
|---|---|---|
| CMath.CDiv | height.c:105 | C division truncates toward zero: it is ordinary division for a non-negative dividend and gives a non-positive quotient for a negative one |
| CMath.CDivRemainder | height.c:142 | the C quotient leaves a remainder smaller than the divisor, with the sign of the dividend |
| CMath.TruncBounds | PID.c:124 | converting a float to int drops the fraction: r <= x < r+1 for x >= 0, and r-1 < x <= r below zero |
| Debounce.Poll | buttons.c:277-289 | a poll that agrees with the debounced level resets the counter; the level changes only to the sampled level, only when two mismatches were already counted, and then raises the flag with the counter reset; a set flag is never cleared by a poll |
| Debounce.Check | buttons.c:302-311 | NoChange exactly when no flag is set; Released exactly when the flag is set and the level is the idle level; Pushed exactly when the flag is set and the level differs; the flag is cleared and nothing else changes |
| Debounce.CountIsTrailingMismatches | buttons.c:275-290 | after any run of polls from a settled channel, the counter is in [0, 3), the last `count` samples all disagree with the debounced level, and the sample before them agrees with it |
| Debounce.CommitNeedsThreeAgreeingPolls | buttons.c:279-286 | a debounced level changes only after at least three polls, the last three of which all read the new level |
| Debounce.TwoMismatchesThenMatch | buttons.c:277-289 | two disagreeing polls followed by an agreeing one leave the channel exactly as it was |
| Debounce.ThreeMismatchesOneEvent | buttons.c:275-311 | three disagreeing polls commit the new level with the flag raised; the next check reports Pushed or Released by the idle polarity; the check after that reports NoChange |
| Debounce.CheckTwice | buttons.c:302-311 | checking again right after a check reports NoChange and changes nothing |
| Debounce.Debouncer.constructor | buttons.c:106-111 | every channel starts at its idle level with counter 0 and no flag (the channels are Settled); the idle levels are those of initButtons |
| Debounce.Debouncer.UpdateButtons | buttons.c:275-290 | every channel becomes Poll of its old value with its own pin sample; the arrays stay valid |
| Debounce.Debouncer.CheckButton | buttons.c:300-311 | the event and the channel afterwards are Check of the old channel; every other channel's flag is unchanged |
| FlightMode.InitialInv | buttons.c:53-60 | the initial globals satisfy the state-machine invariant |
| FlightMode.AdjustFlying | buttons.c:206-254 | keeps the invariant (altitude setpoint a multiple of 10 in [0, 100]); changes only the two setpoints; the yaw setpoint moves by +15 for RIGHT and -15 for LEFT; the altitude setpoint is unchanged without UP or DOWN |
| FlightMode.AltitudeStep | buttons.c:212-230 | a lone UP raises the setpoint by 10 unless it is at 100; a lone DOWN lowers it by 10 unless it is at 0 |
| FlightMode.Handle | buttons.c:117-195 | one stateHandler call keeps the invariant; start-up never restarts; once armed, the state stays armed |
| FlightMode.NotArmed | buttons.c:147-157 | before the switch has been seen down, only a Released event has an effect, and it arms |
| FlightMode.FirstPushCalibrates | buttons.c:138-195 | on the first flight, Pushed enters Calibration with altitude setpoint 20, or goes straight to Flying with zero setpoints when the reference is already found |
| FlightMode.NoSecondCalibration | buttons.c:175-195 | after start-up no call enters Calibration |
| FlightMode.AfterStartUp | buttons.c:122-173 | after start-up, Pushed from landed gives Flying. Released gives landed with setpoint 0 when the altitude is below 8. Otherwise it gives landing with setpoints 10 and 0 |
| FlightMode.PushDuringLandingKeepsLanding | buttons.c:126-172 | Pushed during a landing above 8% shows Flying but keeps the landing sequence, its setpoints and the held main duty |
| FlightMode.CalibrationSearch | buttons.c:175-194 | while calibrating without the reference, the yaw setpoint steps down by 15 exactly when the measured yaw is within 2 degrees of it, and the altitude setpoint stays 20 |
| FlightMode.CalibrationCompletes | buttons.c:175-195 | once the reference is found, a call during calibration ends it whatever the switch reports: Flying, both setpoints 0, start-up over, nothing else changed |
| FlightMode.LandingProgress | buttons.c:159-173 | a call during the landing sequence with no switch event: below 8% it ends landed with setpoint 0, otherwise the setpoints are forced to 10 and 0; the main duty is held exactly in the second case |
| FlightMode.FlightCycle | buttons.c:117-195 | from power-up: arm, calibrate, find the reference and fly, land, and take off again without calibrating |
| FlightMode.FlightControl.constructor | buttons.c:53-61 | the globals start as landed, in start-up, with zero setpoints |
| FlightMode.FlightControl.CheckButState | buttons.c:202-255 | every channel is polled; in Flying the UP, DOWN, LEFT and RIGHT events are consumed and applied through AdjustFlying; in any other mode they stay pending and the state is unchanged |
| FlightMode.FlightControl.FlyingButtons | buttons.c:206-254 | consumes the four direction events in order, applies them through AdjustFlying, and leaves the switch channels alone |
| FlightMode.FlightControl.StateHandler | buttons.c:117-196 | consumes the switch event and moves to Handle of the old state; the main duty becomes 15 exactly when the landing sequence is still descending; no other channel changes |
| FlightMode.FlightControl.SwitchStep | buttons.c:120-157 | the switch block moves the state to SwitchStage |
| FlightMode.FlightControl.LandingStep | buttons.c:159-173 | the landing block moves the state to LandingStage and sets the main duty to 15 exactly when HoldsMainDuty |
| FlightMode.FlightControl.CalibrationStep | buttons.c:175-195 | the calibration block moves the state to CalibrationStage |
| Pwm.Rotors.constructor | PWM_main.c:49 | both duties start at 5 |
| Pwm.Rotors.SetMain | PWM_main.c:55-61 | the main duty global becomes the commanded value |
| Pwm.Rotors.SetTail | PWM_tail.c:54-60 | the tail duty global becomes the commanded value |
| Pid.ClampRange | PID.c:138-146 | every duty sent to a motor is 0, 98 or in [5, 94] |
| Pid.ClampCases | PID.c:138-146 | the duty is 0 exactly for outputs below 5 and 98 exactly for outputs of 95 or more; the output passes through unchanged exactly on [5, 94], 0 and 98 |
| Pid.ClampIdempotent | PID.c:181-189 | clamping a clamped duty changes nothing |
| Pid.ClampMonotone | PID.c:181-189 | a larger output never gives a smaller duty |
| Pid.MainTickEffect | PID.c:110-151 | the previous error becomes e; the accumulator grows by 2e when this tick's output is in (5, 95) and by e otherwise; the duty is the clamped output |
| Pid.MainIdle | PID.c:124 | with no error and no history the main output and duty are the offset, 10 |
| Pid.MainOutputMonotone | PID.c:114-126 | a larger altitude error never lowers the main output or the main duty |
| Pid.MainSaturatedStillIntegrates | PID.c:129-136 | an error of 200 saturates the output at 172 (duty 98), and the accumulator still takes the whole error |
| Pid.MainIntegralTracksErrors | PID.c:129-136 | over any run of non-negative errors the accumulator grows by at least their sum and at most twice their sum |
| Pid.MainRunRemembersLastError | PID.c:115-116 | after a run of ticks the stored previous error is the last error of the run |
| Pid.TailTickEffect | PID.c:156-193 | the previous error becomes e; the accumulator grows by e only when this tick's output is in (5, 95); the duty is the clamped output |
| Pid.TailIgnoresLastError | PID.c:167 | the tail differential gain is 0, so the previous tail error has no effect on the output |
| Pid.TailCouplesToClampedMain | PID.c:172 | the tail adds in the stored, clamped main duty: 83 after a saturated main tick, where the unclamped 172 would give 146 |
| Pid.TailOutputMonotoneInMain | PID.c:172 | a larger main duty never lowers the tail output |
| Pid.ToggleCases | PID.c:87-105 | the gate turns on exactly when it is off in Flying or Calibration, and turns off exactly when it is on in landed at altitude 0 |
| Pid.ToggleIdempotent | PID.c:87-105 | a second PWMtoggle with the same inputs changes nothing |
| Pid.ToggleHoldsWhileLanding | PID.c:90-98 | in landing the gate is never touched |
| Pid.Controller.constructor | PID.c:66-77 | both accumulators and both previous errors start at 0 and the outputs start off |
| Pid.Controller.MainControl | PID.c:110-151 | the main axis and the stored main duty become MainTick of the old axis and the altitude error |
| Pid.Controller.TailControl | PID.c:156-193 | the tail axis and the tail duty become TailTick of the old axis, the yaw error and the stored main duty; the main duty is untouched |
| Pid.Controller.PWMToggle | PID.c:87-105 | the gate becomes Toggle of its old value, the mode and the measured altitude |
| Yaw.YawStepKeepsInv | yaw.c:126-134 | after every interrupt the "both high" flag is set exactly when both stored levels are high and the "both low" flag exactly when both are low; they are never both set |
| Yaw.Channel0Effect | yaw.c:70-97 | a PB0 edge stores its level and clears both flags; it counts one step down exactly when "both high" was pending with PB1 high, or "both low" was pending and the new level is high |
| Yaw.Channel1Effect | yaw.c:100-124 | the PB1 edge mirrors this and counts one step up |
| Yaw.NoFlagNoStep | yaw.c:64-135 | an interrupt that finds no flag set leaves the yaw unchanged |
| Yaw.AtMostOneStep | yaw.c:64-135 | one interrupt changes the yaw by at most one step, even with both channels pending |
| Yaw.ForwardTurnAddsTwo | yaw.c:64-135 | one cycle 11, 10, 00, 01, 11 from rest adds exactly two steps and returns to rest |
| Yaw.ReverseTurnSubtractsTwo | yaw.c:64-135 | the reverse cycle takes away exactly two steps and returns to rest |
| Yaw.ForwardTurnsAdd | yaw.c:64-135 | n forward cycles add exactly 2n steps |
| Yaw.ReverseTurnsSubtract | yaw.c:64-135 | n reverse cycles take away exactly 2n steps |
| Yaw.BounceCounts | yaw.c:100-128 | PB1 bouncing low and back high from rest adds one step although the shaft has not turned |
| Yaw.BouncesAccumulate | yaw.c:100-128 | n such bounces add n steps |
| Yaw.FirstEdgeCountsNothing | yaw.c:33-37 | from power-up the first edge never counts, since no flag has been raised yet |
| Yaw.ReferenceLatches | yaw.c:44-59 | the first reference zeroes the yaw; the latch is then set and later references change nothing |
| Yaw.DegreesNegate | yaw.c:199-203 | opposite step counts read opposite angles (truncation toward zero) |
| Yaw.DegreesMonotone | yaw.c:199-203 | more steps never read fewer degrees |
| Yaw.DegreesSign | yaw.c:199-203 | the reading has the sign of the step count and is zero only at zero |
| Yaw.FullRevolutionReads359 | yaw.c:25 | in the exact-real model, with the constant as written, one revolution of 224 steps reads 359 degrees; the firmware's float rounding is not modelled |
| Yaw.Decoder.constructor | yaw.c:33-39 | all decoder globals start at zero and the latch is clear |
| Yaw.Decoder.RefIntHandler | yaw.c:44-59 | with the reference interrupt pending, the yaw and the latch become Reference of their old values; otherwise nothing changes |
| Yaw.Decoder.YawIntHandler | yaw.c:64-135 | the decoder state becomes YawStep of the old state and the interrupt, and the flag invariant is kept |
| Yaw.Decoder.GetYaw | yaw.c:199-203 | the reading is the angle of the accumulated steps truncated toward zero; it is 0 exactly at 0 steps and positive exactly for positive steps |
| Height.RoundedMeanIsRoundHalfUp | height.c:95-106 | for ten non-negative samples the C expression is (sum + 5) div 10, within half a count of the true mean |
| Height.ConstantBufferMean | height.c:95-106 | ten equal samples average to that sample |
| Height.MeanWithinSamples | height.c:95-106 | the rounded mean lies between the smallest and the largest sample |
| Height.VoltMonotone | height.c:112-116 | a larger mean never reads fewer millivolts |
| Height.VoltRange | height.c:112-116 | a 12-bit mean reads between 0 and 2999 mV |
| Height.AltitudeIsScaledDrop | height.c:138-143 | the denominator is always 800 whatever the ground reference: the altitude is the C quotient of 100 * (ground - volt) by 800 |
| Height.AltitudeEndPoints | height.c:138-143 | the altitude reads 0 at the ground voltage, 100 at 800 mV below it and 50 halfway |
| Height.AltitudeAntitone | height.c:138-143 | a lower voltage, meaning a higher helicopter, never reads a lower altitude |
| Height.AltitudeSymmetric | height.c:138-143 | drops above and below the ground voltage read opposite altitudes |
| Height.AltitudeFitsInt16 | height.c:138-143 | with 12-bit voltages on both sides the result lies in [-375, 375], within the int16_t return type |
| Height.Estimator.constructor | height.c:36-37 | the buffer holds the initial ten samples and the ground reference is 0 |
| Height.Estimator.ADCIntHandler | height.c:42-55 | the new conversion replaces the oldest of the ten samples |
| Height.Estimator.GetADCValue | height.c:95-106 | the loop's sum gives RoundedMean of the buffer, which lies in [0, 4095] |
| Height.Estimator.GetADCVolt | height.c:112-116 | the result is Volt of the rounded mean, in [0, 2999] |
| Height.Estimator.ADCHeightReference | height.c:121-132 | the ground reference becomes the voltage of the buffer the settling delay leaves behind |
| Height.Estimator.GetAltitudePercentage | height.c:138-143 | the result is Altitude of the stored ground reference and the current voltage |
| Firmware.DispatchRunsDueTasks | main.c:143-166 | in one pass a task runs exactly when the count is past its deadline; its deadline then advances by exactly its stride, and otherwise stays |
| Firmware.DispatchOrder | main.c:143-166 | within a pass the tasks run at most once each, in the order control, buttons, display, UART |
| Firmware.DeadlinesAdvance | main.c:145-164 | deadlines never move back, and a due deadline strictly advances |
| Firmware.CatchUp | main.c:145-164 | a task n strides behind catches up exactly one stride per pass while the count stands still |
| Firmware.NotDueNotRun | main.c:145-164 | a task whose deadline is not passed neither runs nor moves its deadline |
| Firmware.Heli.constructor | main.c:46-141 | the snapshot is PowerUp: the counter is 0, the deadlines 1, 4, 25 and 75, the flight state the initial one, every channel settled at its idle level, both controllers at rest, the outputs off and both duties 5; the decoder is at rest with the latch clear; the ground reference is the voltage of the settled buffer |
| Firmware.Heli.InitComponents | main.c:132-141 | from the globals' static initial values, initButtons, initYaw, initPWMmain, initPWMtail and ADCheightReference leave every channel settled, the flight state initial, both duties 5, both controllers at rest with the outputs off, the decoder at rest with the latch clear, and the ground reference at the voltage of the settled buffer |
| Firmware.Heli.SysTickIntHandler | main.c:56-64 | the sample counter grows by one |
| Firmware.MainPass | PID.c:110-151 | mainControl changes only the main axis and the stored main duty |
| Firmware.TailPass | PID.c:156-193 | tailControl changes only the tail axis and the tail duty |
| Firmware.ControlPass | main.c:145-149 | the control task leaves the deadlines, the flight state, the channels and the output switch alone |
| Firmware.PollPass | buttons.c:202-255 | checkButState keeps the flight invariant and changes only the flight state and the channels |
| Firmware.TogglePass | PID.c:87-105 | PWMtoggle changes only the output switch |
| Firmware.HandlePass | buttons.c:117-196 | stateHandler keeps the flight invariant and changes only the flight state, the channels and the main duty |
| Firmware.ButtonPass | main.c:151-156 | the button task keeps the flight invariant and leaves the deadlines, both controller axes and the tail duty alone |
| Firmware.ControlSlotPass | main.c:145-149 | the control slot never touches the flight state, the channels or the output switch |
| Firmware.ButtonSlotPass | main.c:151-156 | the button slot keeps the flight invariant and never touches the controllers or the tail duty |
| Firmware.LoopPass | main.c:143-166 | a pass of the loop keeps the flight invariant |
| Firmware.LoopPassTimers | main.c:143-166 | a pass moves the deadlines exactly as Dispatch does |
| Firmware.RunTask | main.c:145-166 | a due task's slot advances exactly its own deadline by its stride, leaves the other deadlines alone and keeps the flight invariant |
| Firmware.LoopPassRunsDispatchedTasks | main.c:143-166 | a pass of the loop is exactly the tasks Dispatch lists, run one after another in its order |
| Firmware.PowerUpFirstPassStaysLanded | main.c:143-156 | the first pass after power-up keeps the initial flight state and the outputs off, whatever the pins read |
| Firmware.ControlUsesSetpointsBeforeButtons | main.c:145-156 | when control is due, the controllers and the tail duty come from the setpoints as they were before the buttons were read, and the tail tick sees the main duty of this pass; otherwise they are unchanged |
| Firmware.ButtonsNotDueKeepState | main.c:151-156 | when the button deadline has not passed, the flight state, all six channels and the output switch are unchanged |
| Firmware.DirectionEventsWaitForFlying | buttons.c:202-255 | every channel is polled; the switch event is always consumed, SWITCH_2's never, and a direction event stays pending exactly when the mode is not Flying |
| Firmware.LandingHoldOverridesControl | main.c:145-156 | during a landing above 8%, with both tasks due, the stored main duty ends at 15 while the tail duty was computed against the controller's main duty |
| Firmware.Heli.MainStep | PID.c:110-151 | the snapshot becomes MainPass of the old one on the measured altitude |
| Firmware.Heli.TailStep | PID.c:156-193 | the snapshot becomes TailPass of the old one on the measured yaw |
| Firmware.Heli.ControlTask | main.c:147-148 | the snapshot becomes ControlPass of the old one: mainControl, then tailControl against the main duty just stored |
| Firmware.Heli.ControlSlot | main.c:145-149 | the snapshot becomes ControlSlotPass: when due, the control deadline advances by 1 and the control task runs; otherwise nothing changes |
| Firmware.Heli.PollStep | main.c:153 | the snapshot becomes PollPass of the old one and the pin levels |
| Firmware.Heli.ToggleStep | main.c:154 | the snapshot becomes TogglePass of the old one on the current mode and the measured altitude |
| Firmware.Heli.HandleStep | main.c:155 | the snapshot becomes HandlePass of the old one: the switch event is consumed, the other channels are unchanged |
| Firmware.Heli.ButtonTask | main.c:153-155 | the snapshot becomes ButtonPass of the old one: checkButState, PWMtoggle on the mode before stateHandler, then stateHandler |
| Firmware.Heli.ButtonSlot | main.c:151-156 | the snapshot becomes ButtonSlotPass: when due, the button deadline advances by 4 and the button task runs; otherwise the channels and everything else are unchanged |
| Firmware.Heli.OutputSlots | main.c:158-166 | the snapshot becomes OutputSlotPass: each due display or UART deadline advances by 25 or 75, and nothing else changes |
| Firmware.Heli.LoopBody | main.c:143-166 | the snapshot becomes LoopPass of the old snapshot, the pins and the measurements, which is the tasks Dispatch lists run in its order; the deadlines are Dispatch of the old count and deadlines; the counter is unchanged |

## Left out

- Peripheral setup is not modelled: clocks, GPIO, ADC, PWM and UART
  configuration, and interrupt registration. Neither are the busy-waits
  (`SysCtlDelay`, the settling loop in `ADCheightReference`), which only
  spend time.
- Display output (`displayYaw`, `displayHeight`, `updateDisplayPWM*`) and
  serial output (`UARTmessage`, `sendUART`) are not modelled: they only write
  to hardware. Only the deadlines of the display and UART tasks are kept.
- The PWM pulse-width register writes in `setPWMmain` and `setPWMtail` are
  hardware output. Only the stored duty is modelled.
- Pin levels, conversion results and interrupt-pending bits are parameters
  of the methods that read them (`pins`, `value`, `Edge`, `pending`).
- The circular buffer library is not part of this model. Its buffer is seen
  as the sequence of its ten entries, oldest first, with each write replacing
  the oldest.
- Interrupt preemption is not modelled. Each handler is one atomic step
  between loop passes. Within a pass, every call to `getAltitudePercentage`
  and `getYaw` sees the same measurement (`Firmware.Heli.MeasuredAltitude`,
  `Firmware.Heli.MeasuredYaw`).
- Floating-point rounding is not modelled: float arithmetic is exact real
  arithmetic, and only the conversions to `int` are truncated.
- Yaw.FullRevolutionReads359: the 359-degree reading after 224 steps is a
  fact of the exact-real model. The firmware adds the step to a float
  accumulator one interrupt at a time, and at this boundary its reading
  depends on that rounding, which is not modelled.
- Yaw.Decoder.YawIntHandler: the model keeps `g_yaw` as a step count times
  1.60714285714 degrees, not as a float that accumulates rounding error
  step by step.
- Fixed-width wrap-around is not modelled:
  - `g_ulSampCnt` and the deadlines (`uint32_t`);
  - `g_altitude_percent` (`int8_t`) and `g_yaw_angle` (`int16_t`). The
    altitude setpoint provably stays in [0, 100]; the yaw setpoint is an
    unbounded integer.
  - the `uint8_t` return of `checkButton`;
  - the `uint16_t` return of `getADCvalue`.
- The globals `g_main_intgrl`, `g_main_dfrntl`, `g_tail_intgrl`,
  `g_tail_dfrntl` and the two `*_differential_error` globals are not kept as
  fields. They are written on every tick and read only within it, so the
  model uses locals.
- The `g_state` string is the `Mode` datatype. `strcmp` against the four
  literals is a comparison of `Mode` values.
- Height.Estimator.ADCIntHandler: conversion results are 12-bit values in
  [0, 4095], not the full `uint32_t` the handler receives.
