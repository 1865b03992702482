/**
 * The duty-cycle globals of PWM_main.c and PWM_tail.c. Only the stored
 * percentage is modelled; the pulse-width register write that accompanies
 * it is hardware output.
 */
module Pwm {

  /** Initial main duty (G_DUTY_CYCLE_MAIN_SIZE) and initial tail duty. */
  const InitialMainDuty: int := 5
  const InitialTailDuty: int := 5

  class Rotors {
    /** g_duty_cycle_main */
    var dutyMain: int
    /** g_duty_cycle_tail */
    var dutyTail: int

    constructor ()
      ensures dutyMain == InitialMainDuty && dutyTail == InitialTailDuty
    {
      dutyMain := InitialMainDuty;
      dutyTail := InitialTailDuty;
    }

    /** setPWMmain: record the commanded main duty. */
    method SetMain(pwm: int)
      modifies this`dutyMain
      ensures dutyMain == pwm
    {
      dutyMain := pwm;
    }

    /** setPWMtail: record the commanded tail duty. */
    method SetTail(pwm: int)
      modifies this`dutyTail
      ensures dutyTail == pwm
    {
      dutyTail := pwm;
    }
  }
}
