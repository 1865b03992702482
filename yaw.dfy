/**
 * The quadrature yaw decoder and the reference latch of yaw.c. The two
 * interrupt handlers are modelled as atomic steps whose inputs are the
 * pending-interrupt bits and the pin levels read. The accumulated yaw is
 * kept as a whole number of quadrature steps; one step is YAW_STEP degrees.
 */
module Yaw {
  import opened CMath

  /** Degrees per quadrature step (360 / (2 * 112)), as written in yaw.c. */
  const YawStepDegrees: real := 1.60714285714

  /**
   * The decoder globals: the stored level of each channel, the two one-shot
   * flags that record "both high" and "both low", and the accumulated yaw in
   * steps.
   */
  datatype Quad = Quad(pin0: bool, pin1: bool, state11: bool, state00: bool, steps: int)

  /** All globals start at zero. */
  const InitialQuad: Quad := Quad(false, false, false, false, 0)

  /** The flags only ever describe the stored levels. */
  predicate QuadInv(q: Quad)
  {
    (q.state11 ==> q.pin0 && q.pin1) && (q.state00 ==> !q.pin0 && !q.pin1)
  }

  /** An edge on channel 0 (PB0) that reads `level`: consume the flags, counting one step down. */
  function Channel0(q: Quad, level: bool): Quad
  {
    var a := q.(pin0 := level);
    var b := if a.state11 then a.(state11 := false, steps := if a.pin1 then a.steps - 1 else a.steps) else a;
    if b.state00 then b.(state00 := false, steps := if b.pin0 then b.steps - 1 else b.steps) else b
  }

  /** An edge on channel 1 (PB1) that reads `level`: consume the flags, counting one step up. */
  function Channel1(q: Quad, level: bool): Quad
  {
    var a := q.(pin1 := level);
    var b := if a.state11 then a.(state11 := false, steps := if a.pin0 then a.steps + 1 else a.steps) else a;
    if b.state00 then b.(state00 := false, steps := if b.pin1 then b.steps + 1 else b.steps) else b
  }

  /** The closing block: raise the flag matching the stored levels. */
  function Refresh(q: Quad): Quad
  {
    var a := if q.pin0 && q.pin1 then q.(state11 := true) else q;
    if !a.pin0 && !a.pin1 then a.(state00 := true) else a
  }

  /** One interrupt: which channels are pending, and the level each pending channel reads. */
  datatype Edge = Edge(int0: bool, level0: bool, int1: bool, level1: bool)

  /** yawIntHandler. */
  function YawStep(q: Quad, e: Edge): Quad
  {
    var a := if e.int0 then Channel0(q, e.level0) else q;
    var b := if e.int1 then Channel1(a, e.level1) else a;
    Refresh(b)
  }

  /** The decoder after a run of interrupts, oldest first. */
  function Run(q: Quad, edges: seq<Edge>): Quad
  {
    if edges == [] then q else YawStep(Run(q, edges[..|edges| - 1]), edges[|edges| - 1])
  }

  /** A lone edge on one channel. */
  function Edge0(level: bool): Edge { Edge(true, level, false, false) }
  function Edge1(level: bool): Edge { Edge(false, false, true, level) }

  /** getYaw: the accumulated angle in degrees, truncated toward zero, with no wrap. */
  function Degrees(steps: int): int
  {
    Trunc(steps as real * YawStepDegrees)
  }

  // ---------------------------------------------------------------------
  // One interrupt
  // ---------------------------------------------------------------------

  /**
   * Every interrupt keeps the flags consistent with the stored levels, and
   * they are never both set. Afterwards the flags match the levels exactly:
   * "both high" is set exactly when both stored levels are high, and "both
   * low" exactly when both are low.
   */
  lemma YawStepKeepsInv(q: Quad, e: Edge)
    requires QuadInv(q)
    ensures QuadInv(YawStep(q, e))
    ensures !(YawStep(q, e).state11 && YawStep(q, e).state00)
    ensures var r := YawStep(q, e);
      (r.state11 <==> r.pin0 && r.pin1) && (r.state00 <==> !r.pin0 && !r.pin1)
  {
  }

  /**
   * A channel-0 edge stores the new level and clears both flags; it counts
   * one step down exactly when "both high" was pending with channel 1 high,
   * or "both low" was pending and the new level is high.
   */
  lemma Channel0Effect(q: Quad, level: bool)
    requires QuadInv(q)
    ensures var r := Channel0(q, level);
      && r.pin0 == level && r.pin1 == q.pin1 && !r.state11 && !r.state00
      && r.steps == (if (q.state11 && q.pin1) || (q.state00 && level) then q.steps - 1 else q.steps)
  {
  }

  /** The channel-1 edge is the mirror image and counts one step up. */
  lemma Channel1Effect(q: Quad, level: bool)
    requires QuadInv(q)
    ensures var r := Channel1(q, level);
      && r.pin1 == level && r.pin0 == q.pin0 && !r.state11 && !r.state00
      && r.steps == (if (q.state11 && q.pin0) || (q.state00 && level) then q.steps + 1 else q.steps)
  {
  }

  /** An interrupt that finds neither flag set leaves the yaw where it was. */
  lemma NoFlagNoStep(q: Quad, e: Edge)
    requires !q.state11 && !q.state00
    ensures YawStep(q, e).steps == q.steps
  {
  }

  /** One interrupt moves the yaw by at most one step, even with both channels pending. */
  lemma {:induction false} AtMostOneStep(q: Quad, e: Edge)
    requires QuadInv(q)
    ensures -1 <= YawStep(q, e).steps - q.steps <= 1
  {
    var a := if e.int0 then Channel0(q, e.level0) else q;
    if e.int0 {
      Channel0Effect(q, e.level0);
    }
    if e.int1 {
      assert e.int0 ==> !a.state11 && !a.state00;
      Channel1Effect(a, e.level1);
    }
  }

  // ---------------------------------------------------------------------
  // Runs of interrupts
  // ---------------------------------------------------------------------

  /** Running two runs back to back is running their concatenation. */
  lemma {:induction false} RunAppend(q: Quad, xs: seq<Edge>, ys: seq<Edge>)
    ensures Run(q, xs + ys) == Run(Run(q, xs), ys)
  {
    if ys != [] {
      var zs := xs + ys;
      assert zs[..|zs| - 1] == xs + ys[..|ys| - 1];
      assert zs[|zs| - 1] == ys[|ys| - 1];
      RunAppend(q, xs, ys[..|ys| - 1]);
    } else {
      assert xs + ys == xs;
    }
  }

  /** A run of two interrupts is the two steps in order. */
  lemma RunTwo(q: Quad, a: Edge, b: Edge)
    ensures Run(q, [a, b]) == YawStep(YawStep(q, a), b)
  {
    assert [a, b][..1] == [a];
    assert [a][..0] == [];
    assert Run(q, [a]) == YawStep(Run(q, []), a);
  }

  /** A run of four interrupts is the four steps in order. */
  lemma RunFour(q: Quad, a: Edge, b: Edge, c: Edge, d: Edge)
    ensures Run(q, [a, b, c, d]) == YawStep(YawStep(YawStep(YawStep(q, a), b), c), d)
  {
    assert [a, b, c, d][..3] == [a, b, c];
    assert [a, b, c][..2] == [a, b];
    RunTwo(q, a, b);
  }

  /** A decoder resting at "both high" with that flag pending. */
  predicate AtRest11(q: Quad)
  {
    q.pin0 && q.pin1 && q.state11 && !q.state00
  }

  /** One turn through the four quadrature states in the counting-up order: 11, 10, 00, 01, back to 11. */
  const ForwardTurn: seq<Edge> := [Edge1(false), Edge0(false), Edge1(true), Edge0(true)]

  /** The opposite order: 11, 01, 00, 10, back to 11. */
  const ReverseTurn: seq<Edge> := [Edge0(false), Edge1(false), Edge0(true), Edge1(true)]

  /** A forward turn adds exactly two steps and comes back to rest. */
  lemma ForwardTurnAddsTwo(q: Quad)
    requires AtRest11(q)
    ensures Run(q, ForwardTurn) == q.(steps := q.steps + 2)
  {
    RunFour(q, Edge1(false), Edge0(false), Edge1(true), Edge0(true));
  }

  /** A reverse turn takes away exactly two steps and comes back to rest. */
  lemma ReverseTurnSubtractsTwo(q: Quad)
    requires AtRest11(q)
    ensures Run(q, ReverseTurn) == q.(steps := q.steps - 2)
  {
    RunFour(q, Edge0(false), Edge1(false), Edge0(true), Edge1(true));
  }

  /** `n` copies of a run of edges. */
  function Repeat(t: seq<Edge>, n: nat): seq<Edge>
  {
    if n == 0 then [] else Repeat(t, n - 1) + t
  }

  /** `n` forward turns from rest add exactly 2n steps. */
  lemma {:induction false} ForwardTurnsAdd(q: Quad, n: nat)
    requires AtRest11(q)
    ensures Run(q, Repeat(ForwardTurn, n)) == q.(steps := q.steps + 2 * n)
  {
    if n > 0 {
      ForwardTurnsAdd(q, n - 1);
      RunAppend(q, Repeat(ForwardTurn, n - 1), ForwardTurn);
      ForwardTurnAddsTwo(q.(steps := q.steps + 2 * (n - 1)));
    }
  }

  /** `n` reverse turns from rest take away exactly 2n steps. */
  lemma {:induction false} ReverseTurnsSubtract(q: Quad, n: nat)
    requires AtRest11(q)
    ensures Run(q, Repeat(ReverseTurn, n)) == q.(steps := q.steps - 2 * n)
  {
    if n > 0 {
      ReverseTurnsSubtract(q, n - 1);
      RunAppend(q, Repeat(ReverseTurn, n - 1), ReverseTurn);
      ReverseTurnSubtractsTwo(q.(steps := q.steps - 2 * (n - 1)));
    }
  }

  /** Channel 1 bouncing 11, 10, 11 from rest: the decoder counts a step and is back at rest. */
  const Bounce1: seq<Edge> := [Edge1(false), Edge1(true)]

  /** Bounce is not filtered: each bounce on channel 1 adds a step. */
  lemma BounceCounts(q: Quad)
    requires AtRest11(q)
    ensures Run(q, Bounce1) == q.(steps := q.steps + 1)
  {
    RunTwo(q, Edge1(false), Edge1(true));
  }

  /** `n` bounces add `n` steps although the shaft has not moved. */
  lemma {:induction false} BouncesAccumulate(q: Quad, n: nat)
    requires AtRest11(q)
    ensures Run(q, Repeat(Bounce1, n)) == q.(steps := q.steps + n)
  {
    if n > 0 {
      BouncesAccumulate(q, n - 1);
      RunAppend(q, Repeat(Bounce1, n - 1), Bounce1);
      BounceCounts(q.(steps := q.steps + (n - 1)));
    }
  }

  /** From power-up the first edge counts nothing: no flag has been raised yet. */
  lemma FirstEdgeCountsNothing(e: Edge)
    ensures YawStep(InitialQuad, e).steps == 0
  {
  }

  // ---------------------------------------------------------------------
  // The reference latch
  // ---------------------------------------------------------------------

  /** refIntHandler with the reference pin pending: the yaw and the latch afterwards. */
  function Reference(steps: int, refFound: bool): (int, bool)
  {
    if refFound then (steps, true) else (0, true)
  }

  /** The first reference zeroes the yaw; later ones change nothing; the latch stays set. */
  lemma ReferenceLatches(steps: int, refFound: bool)
    ensures Reference(steps, refFound).1
    ensures Reference(steps, refFound).0 == if refFound then steps else 0
    ensures Reference(Reference(steps, refFound).0, true) == Reference(steps, refFound)
  {
  }

  // ---------------------------------------------------------------------
  // getYaw
  // ---------------------------------------------------------------------

  /** The reading is symmetric: turning the other way reads the negated angle. */
  lemma DegreesNegate(steps: int)
    ensures Degrees(-steps) == -Degrees(steps)
  {
    TruncNegate(steps as real * YawStepDegrees);
    assert (-steps) as real * YawStepDegrees == -(steps as real * YawStepDegrees);
  }

  /** More steps never read fewer degrees. */
  lemma DegreesMonotone(s1: int, s2: int)
    requires s1 <= s2
    ensures Degrees(s1) <= Degrees(s2)
  {
    TruncMonotone(s1 as real * YawStepDegrees, s2 as real * YawStepDegrees);
  }

  /** The reading has the sign of the step count, and is zero only at zero. */
  lemma DegreesSign(steps: int)
    ensures Degrees(steps) == 0 <==> steps == 0
    ensures Degrees(steps) > 0 <==> steps > 0
  {
    if steps >= 1 {
      TruncMonotone(1.0, steps as real * YawStepDegrees);
      TruncOfInt(1);
    } else if steps <= -1 {
      TruncMonotone(steps as real * YawStepDegrees, -1.0);
      TruncOfInt(-1);
    }
  }

  /**
   * In this exact-real model, one full revolution (224 steps) reads 359
   * degrees: 224 * 1.60714285714 falls just short of 360. This is a fact
   * of the model's exact arithmetic only: the firmware adds the step to a
   * float one interrupt at a time, and that rounding, which decides the
   * reading this close to 360, is not modelled.
   */
  lemma FullRevolutionReads359()
    ensures Degrees(224) == 359
  {
  }

  /** The yaw.c globals, updated in place by the two interrupt handlers. */
  class Decoder {
    var pin0State: bool
    var pin1State: bool
    var state11: bool
    var state00: bool
    var steps: int
    var refFound: bool

    function Quadrature(): Quad
      reads this
    {
      Quad(pin0State, pin1State, state11, state00, steps)
    }

    ghost predicate Valid()
      reads this
    {
      QuadInv(Quadrature())
    }

    constructor ()
      ensures Quadrature() == InitialQuad && !refFound && Valid()
    {
      pin0State, pin1State, state11, state00, steps := false, false, false, false, 0;
      refFound := false;
    }

    /** refIntHandler: `pending` is the reference pin's interrupt bit. */
    method RefIntHandler(pending: bool)
      modifies this`steps, this`refFound
      ensures (steps, refFound) == if pending then Reference(old(steps), old(refFound)) else old((steps, refFound))
    {
      if pending {
        if !refFound {
          steps := 0;
          refFound := true;
        }
      }
    }

    /** yawIntHandler: the pending bits and the levels read from the pending channels. */
    method YawIntHandler(e: Edge)
      requires Valid()
      modifies this`pin0State, this`pin1State, this`state11, this`state00, this`steps
      ensures Valid()
      ensures Quadrature() == YawStep(old(Quadrature()), e)
    {
      ghost var q0 := Quadrature();
      if e.int0 {
        pin0State := e.level0;
        if state11 {
          state11 := false;
          if pin1State {
            steps := steps - 1;
          }
        }
        if state00 {
          state00 := false;
          if pin0State {
            steps := steps - 1;
          }
        }
      }
      ghost var q1 := Quadrature();
      assert q1 == if e.int0 then Channel0(q0, e.level0) else q0;
      if e.int1 {
        pin1State := e.level1;
        if state11 {
          state11 := false;
          if pin0State {
            steps := steps + 1;
          }
        }
        if state00 {
          state00 := false;
          if pin1State {
            steps := steps + 1;
          }
        }
      }
      assert Quadrature() == if e.int1 then Channel1(q1, e.level1) else q1;
      if pin0State && pin1State {
        state11 := true;
      }
      if !pin0State && !pin1State {
        state00 := true;
      }
      YawStepKeepsInv(q0, e);
    }

    /** getYaw: the float accumulator converted to int; it reads zero only at zero steps and has their sign. */
    function GetYaw(): (deg: int)
      reads this
      ensures deg == Degrees(steps)
      ensures deg == 0 <==> steps == 0
      ensures deg > 0 <==> steps > 0
    {
      DegreesSign(steps);
      Trunc(steps as real * YawStepDegrees)
    }
  }
}
