/** The numeric conversions the driver applies to its arguments: Python's
    truncating int() on a step count, the angle-to-steps formula, and the
    speed-percentage-to-dwell formula. */
module Conversions {
  import opened Phases

  function Abs(x: real): real {
    if x < 0.0 then -x else x
  }

  /** int(x) on a Python float: truncation toward zero. */
  function Truncate(x: real): (r: int)
    ensures 0.0 <= x ==> 0 <= r && r as real <= x < r as real + 1.0
    ensures x < 0.0 ==> r <= 0 && r as real - 1.0 < x <= r as real
  {
    if x >= 0.0 then x.Floor else -((-x).Floor)
  }

  /** Truncation toward zero is symmetric about zero. */
  lemma TruncateNegate(x: real)
    ensures Truncate(-x) == -Truncate(x)
  {
  }

  /** The direction a signed count or angle selects: Reverse exactly when it is
      negative. */
  function DirectionOf(x: real): (r: int)
    ensures r == Reverse <==> x < 0.0
    ensures r == Forward <==> x >= 0.0
  {
    if x < 0.0 then Reverse else Forward
  }

  /** abs(int(n)): the number of single steps a step count asks for. */
  function StepCountOf(n: real): (r: nat)
    ensures r as real <= Abs(n) < r as real + 1.0
  {
    var t := Truncate(n);
    if t < 0 then -t else t
  }

  /** int(|angle| * StepsPerRevolution / 360): the steps an angle in degrees
      asks for, truncated rather than rounded. */
  function AngleSteps(angle: real): (r: nat)
    ensures r as real * 360.0 <= Abs(angle) * StepsPerRevolution as real < (r as real + 1.0) * 360.0
  {
    Truncate(Abs(angle) * StepsPerRevolution as real / 360.0)
  }

  /** A full turn is StepsPerRevolution steps; half a turn in reverse is half
      as many. */
  lemma AngleExamples()
    ensures AngleSteps(360.0) == StepsPerRevolution
    ensures AngleSteps(-180.0) == StepsPerRevolution / 2 && DirectionOf(-180.0) == Reverse
    ensures AngleSteps(1.0) == 5
  {
  }

  /** A step count n followed by -n returns to the starting phase. */
  lemma StepNRoundTrip(p: int, len: int, n: real)
    requires len > 0 && 0 <= p < len
    ensures Advance(Advance(p, len, DirectionOf(n), StepCountOf(n)), len, DirectionOf(-n), StepCountOf(-n)) == p
  {
    TruncateNegate(n);
    var k := StepCountOf(n);
    assert StepCountOf(-n) == k;
    RoundTrip(p, len, Reverse, k);
  }

  function MinReal(a: real, b: real): real {
    if a <= b then a else b
  }

  /** The dwell a positive speed percentage selects: inversely proportional to
      the percentage, with percentages above 100 clamped to 100. Percentages
      below 1 give dwells longer than 100 * StepDwell. */
  function SpeedDwell(percent: real): (r: real)
    requires percent > 0.0
    ensures r >= StepDwell
    ensures r * MinReal(100.0, percent) == StepDwell * 100.0
    ensures percent >= 100.0 ==> r == StepDwell
  {
    StepDwell * 100.0 / MinReal(100.0, percent)
  }

  /** A higher percentage never gives a longer dwell. */
  lemma SpeedDwellAntitone(p: real, q: real)
    requires 0.0 < p <= q
    ensures SpeedDwell(q) <= SpeedDwell(p)
  {
    QuotientAntitone(StepDwell * 100.0, MinReal(100.0, p), MinReal(100.0, q));
  }

  lemma QuotientAntitone(c: real, a: real, b: real)
    requires c > 0.0 && 0.0 < a <= b
    ensures c / b <= c / a
  {
  }

  /** 200% is clamped to full speed, 25% holds each step four times as long, and
      half a percent holds it 200 times as long. */
  lemma SpeedExamples()
    ensures SpeedDwell(200.0) == SpeedDwell(100.0) == StepDwell
    ensures SpeedDwell(25.0) == 4.0 * StepDwell
    ensures SpeedDwell(0.5) == 200.0 * StepDwell
  {
  }

  /** What a call to set the speed does: None for a stop, otherwise the new
      dwell. Every percentage at or below zero stops the motor. */
  function SpeedSetting(percent: real): (r: Option<real>)
    ensures r.None? <==> percent <= 0.0
    ensures r.Some? ==> r.value >= StepDwell && r.value * MinReal(100.0, percent) == StepDwell * 100.0
  {
    if percent <= 0.0 then None else Some(SpeedDwell(percent))
  }

  /** The speed setting as the source computes it: only exactly 0 stops, and a
      negative percentage is divided by as it is. */
  function SpeedSettingAsWritten(percent: real): (r: Option<real>)
    ensures r.None? <==> percent == 0.0
    ensures percent > 0.0 ==> r == SpeedSetting(percent)
    ensures percent < 0.0 ==> r.Some? && r.value < 0.0
  {
    if percent == 0.0 then None else Some(StepDwell * 100.0 / MinReal(100.0, percent))
  }

  /** A negative percentage gives a negative dwell as written, and a stop in the
      corrected setting. */
  lemma NegativePercent()
    ensures SpeedSettingAsWritten(-50.0) == Some(-0.0038)
    ensures SpeedSetting(-50.0) == None
  {
  }
}
