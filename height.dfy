/**
 * The altitude estimator of height.c: a ten-sample buffer filled by the
 * conversion interrupt, its rounded mean, the conversion to millivolts and
 * the altitude as a percentage of the 800 mV range below the ground
 * reference. The circular buffer is seen as the sequence of its ten
 * entries, oldest first.
 */
module Height {
  import opened CMath

  const BufSize: nat := 10
  /** HELI_ALT_RANGE: the altitude range in millivolts. */
  const HeliAltRange: int := 800
  const MillivoltsPerAdcStep: real := 0.7324
  /** Largest value of a 12-bit conversion. */
  const MaxSample: int := 4095

  /** One conversion result. */
  type Sample = x: int | 0 <= x <= MaxSample

  /** getADCvalue on buffer contents `buf`, with the C expression's truncating divisions. */
  function RoundedMean(buf: seq<int>): int
  {
    CDiv(CDiv(2 * Sum(buf) + BufSize, 2), BufSize)
  }

  /** getADCVolt: the mean converted to millivolts, truncated. */
  function Volt(mean: int): int
  {
    Trunc(mean as real * MillivoltsPerAdcStep)
  }

  /** getAltitudePercentage for ground reference `ground` and measured voltage `volt` (both mV). */
  function Altitude(ground: int, volt: int): int
  {
    var ceiling := ground - HeliAltRange;
    CDiv(100 * (ground - volt), ground - ceiling)
  }

  // ---------------------------------------------------------------------
  // The rounded mean
  // ---------------------------------------------------------------------

  /**
   * For ten non-negative samples the C expression (2s + 10) / 2 / 10 is
   * (s + 5) div 10: the mean rounded half up, within half a count of the
   * exact mean s / 10.
   */
  lemma {:induction false} RoundedMeanIsRoundHalfUp(buf: seq<int>)
    requires |buf| == BufSize && forall i :: 0 <= i < |buf| ==> buf[i] >= 0
    ensures RoundedMean(buf) == (Sum(buf) + 5) / 10
    ensures 10 * RoundedMean(buf) - 5 <= Sum(buf) < 10 * RoundedMean(buf) + 5
  {
    SumAtLeast(buf, 0);
    var s := Sum(buf);
    assert CDiv(2 * s + 10, 2) == s + 5;
  }

  /** Ten equal samples average to that sample exactly. */
  lemma {:induction false} ConstantBufferMean(buf: seq<int>, v: int)
    requires |buf| == BufSize && v >= 0 && forall i :: 0 <= i < |buf| ==> buf[i] == v
    ensures RoundedMean(buf) == v
  {
    SumBounds(buf, v, v);
    RoundedMeanIsRoundHalfUp(buf);
  }

  /** The rounded mean lies between the smallest and the largest sample. */
  lemma {:induction false} MeanWithinSamples(buf: seq<int>, lo: int, hi: int)
    requires |buf| == BufSize && 0 <= lo && forall i :: 0 <= i < |buf| ==> lo <= buf[i] <= hi
    ensures lo <= RoundedMean(buf) <= hi
  {
    SumBounds(buf, lo, hi);
    RoundedMeanIsRoundHalfUp(buf);
    DivMonotone(10 * lo + 5, Sum(buf) + 5, 10);
    DivMonotone(Sum(buf) + 5, 10 * hi + 5, 10);
  }

  // ---------------------------------------------------------------------
  // Millivolts and altitude
  // ---------------------------------------------------------------------

  /** A larger mean never reads fewer millivolts. */
  lemma VoltMonotone(m1: int, m2: int)
    requires m1 <= m2
    ensures Volt(m1) <= Volt(m2)
  {
    TruncMonotone(m1 as real * MillivoltsPerAdcStep, m2 as real * MillivoltsPerAdcStep);
  }

  /** A 12-bit mean reads between 0 and 2999 mV. */
  lemma VoltRange(mean: int)
    requires 0 <= mean <= MaxSample
    ensures 0 <= Volt(mean) <= 2999
  {
    VoltMonotone(mean, MaxSample);
    VoltMonotone(0, mean);
  }

  /**
   * The denominator ground - (ground - 800) is always 800, whatever the
   * ground reference: the altitude is the drop below the ground scaled by
   * 100 / 800, and no division by zero can occur.
   */
  lemma AltitudeIsScaledDrop(ground: int, volt: int)
    ensures Altitude(ground, volt) == CDiv(100 * (ground - volt), HeliAltRange)
  {
  }

  /** At the ground reference the altitude reads 0; 800 mV below it, 100; halfway, 50. */
  lemma AltitudeEndPoints(ground: int)
    ensures Altitude(ground, ground) == 0
    ensures Altitude(ground, ground - HeliAltRange) == 100
    ensures Altitude(ground, ground - HeliAltRange / 2) == 50
  {
  }

  /** A lower voltage (a higher helicopter) never reads a lower altitude. */
  lemma AltitudeAntitone(ground: int, v1: int, v2: int)
    requires v1 <= v2
    ensures Altitude(ground, v2) <= Altitude(ground, v1)
  {
    CDivMonotone(100 * (ground - v2), 100 * (ground - v1), HeliAltRange);
  }

  /** Altitudes above and below the ground are read symmetrically (truncation toward zero). */
  lemma AltitudeSymmetric(ground: int, d: int)
    ensures Altitude(ground, ground + d) == -Altitude(ground, ground - d)
  {
    CDivNegate(100 * d, HeliAltRange);
  }

  /** With 12-bit readings on both sides the result fits the int16_t it is returned in. */
  lemma AltitudeFitsInt16(ground: int, volt: int)
    requires 0 <= ground <= 2999 && 0 <= volt <= 2999
    ensures -375 <= Altitude(ground, volt) <= 375
  {
    AltitudeAntitone(ground, volt, 2999 + ground);
    AltitudeAntitone(ground, ground - 2999, volt);
    AltitudeSymmetric(ground, 2999);
    assert Altitude(ground, ground - 2999) == CDiv(299900, 800);
  }

  /** The buffer and the ground reference of height.c. */
  class Estimator {
    var buffer: seq<Sample>
    var groundHeight: int

    ghost predicate Valid()
      reads this
    {
      |buffer| == BufSize
    }

    /** The buffer holding the ten conversions `initial`, oldest first; no ground reference yet. */
    constructor (initial: seq<Sample>)
      requires |initial| == BufSize
      ensures Valid() && buffer == initial && groundHeight == 0
    {
      buffer := initial;
      groundHeight := 0;
    }

    /** ADCIntHandler: the conversion result `value` replaces the oldest sample. */
    method ADCIntHandler(value: Sample)
      requires Valid()
      modifies this`buffer
      ensures Valid() && buffer == old(buffer)[1..] + [value]
    {
      buffer := buffer[1..] + [value];
    }

    /** getADCvalue: add up the ten samples and round the mean. */
    method GetADCValue() returns (mean: int)
      requires Valid()
      ensures mean == RoundedMean(buffer)
      ensures 0 <= mean <= MaxSample
    {
      var sum := 0;
      for i := 0 to BufSize
        invariant sum == Sum(buffer[..i])
      {
        assert buffer[..i + 1][..i] == buffer[..i];
        sum := sum + buffer[i];
      }
      assert buffer[..BufSize] == buffer;
      mean := CDiv(CDiv(2 * sum + BufSize, 2), BufSize);
      MeanWithinSamples(buffer, 0, MaxSample);
    }

    /** getADCVolt. */
    method GetADCVolt() returns (mv: int)
      requires Valid()
      ensures mv == Volt(RoundedMean(buffer))
      ensures 0 <= mv <= 2999
    {
      var mean := GetADCValue();
      mv := Trunc(mean as real * MillivoltsPerAdcStep);
      VoltRange(mean);
    }

    /**
     * ADCheightReference: the buffer is re-initialised and refilled during
     * the delay; `settled` is what it holds when the delay ends. The ground
     * reference is the voltage of that buffer.
     */
    method ADCHeightReference(settled: seq<Sample>)
      requires |settled| == BufSize
      modifies this
      ensures Valid() && buffer == settled
      ensures groundHeight == Volt(RoundedMean(settled))
    {
      buffer := settled;
      groundHeight := GetADCVolt();
    }

    /** getAltitudePercentage against the stored ground reference. */
    method GetAltitudePercentage() returns (pct: int)
      requires Valid()
      ensures pct == Altitude(groundHeight, Volt(RoundedMean(buffer)))
    {
      var ceiling := groundHeight - HeliAltRange;
      var volt := GetADCVolt();
      pct := CDiv(100 * (groundHeight - volt), groundHeight - ceiling);
    }
  }
}
