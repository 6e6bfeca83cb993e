/** The driver of one 28BYJ-48 stepper motor: four coil lines sequenced through
    the phase table of the selected mode, one row per step, each step held for
    the current dwell. */
module StepperLib {
  import opened Phases
  import opened Conversions

  /** n copies of the dwell x, one per step waited. */
  function Repeat(x: real, n: nat): (r: seq<real>)
    ensures |r| == n && forall i :: 0 <= i < n ==> r[i] == x
  {
    seq(n, _ => x)
  }

  class Stepper {
    // The coil lines IN1..IN4 in pin order; 1 energises a coil, 0 releases it.
    const pins: array<int>
    // The phase table the mode selected, and its length.
    const phases: seq<seq<int>>
    const lenPhases: int
    // Index of the row the next step writes.
    var lastPhase: int
    // Seconds each pattern is held before the next step.
    var stepDwell: real
    // Every pattern written to the coil lines, oldest first.
    ghost var trace: seq<seq<int>>
    // Every dwell waited after a step, oldest first.
    ghost var waits: seq<real>

    ghost predicate Valid()
      reads this, pins
      ensures Valid() ==> 0 <= lastPhase < |phases| && pins.Length == 4 && IsPattern(pins[..])
    {
      pins.Length == 4 &&
      IsTable(phases) && lenPhases == |phases| &&
      0 <= lastPhase < lenPhases &&
      StepDwell <= stepDwell &&
      IsPattern(pins[..]) &&
      pins[..] == (if trace == [] then Off else trace[|trace| - 1])
    }

    /** A driver in the given mode, coils released, at phase 0 and full speed. */
    constructor (mode: int)
      requires ValidMode(mode)
      ensures Valid() && fresh(pins)
      ensures Some(phases) == TableFor(mode)
      ensures lastPhase == 0 && stepDwell == StepDwell
      ensures pins[..] == Off && trace == [] && waits == []
    {
      var table := TableFor(mode).value;
      pins := new int[4](_ => 0);
      phases := table;
      lenPhases := |table|;
      lastPhase := 0;
      stepDwell := StepDwell;
      trace := [];
      waits := [];
      new;
      assert pins[..] == Off;
    }

    /** Sets the speed as a percentage of the maximum. A percentage at or below
        zero stops the motor and keeps the dwell; otherwise the dwell becomes
        inversely proportional to the percentage, clamped at 100. */
    method SetSpeed(percent: real := 100.0)
      requires Valid()
      modifies pins, this`trace, this`stepDwell
      ensures Valid()
      ensures percent <= 0.0 ==> pins[..] == Off && trace == old(trace) + [Off] && stepDwell == old(stepDwell)
      ensures percent > 0.0 ==> stepDwell == SpeedDwell(percent) && pins[..] == old(pins[..]) && trace == old(trace)
    {
      match SpeedSetting(percent)
      case None =>
        Stop();
      case Some(dwell) =>
        stepDwell := dwell;
    }

    /** Holds the current pattern for the current dwell. */
    method StepWait()
      modifies this`waits
      ensures waits == old(waits) + [stepDwell]
    {
      waits := waits + [stepDwell];
    }

    /** Writes the first four values to IN1..IN4, in pin order. */
    method SetPins(values: seq<int>)
      requires pins.Length == 4 && |values| >= 4
      modifies pins, this`trace
      ensures pins[..] == values[..4]
      ensures trace == old(trace) + [values[..4]]
    {
      for i := 0 to 4
        invariant pins[..i] == values[..i]
        invariant trace == old(trace)
      {
        pins[i] := values[i];
      }
      assert pins[..] == pins[..4];
      trace := trace + [values[..4]];
    }

    /** Writes the row at the current phase, then moves the phase one place
        forward (Forward) or back (any other direction), wrapping around the
        table, and waits for the dwell. */
    method OneStep(direction: int := Forward)
      requires Valid()
      modifies this, pins
      ensures Valid()
      ensures pins[..] == phases[old(lastPhase)]
      ensures lastPhase == NextPhase(old(lastPhase), lenPhases, direction)
      ensures trace == old(trace) + [phases[old(lastPhase)]]
      ensures waits == old(waits) + [stepDwell]
      ensures stepDwell == old(stepDwell)
    {
      assert phases[lastPhase][..4] == phases[lastPhase];
      if direction == Forward {
        SetPins(phases[lastPhase]);
        lastPhase := (lastPhase + 1) % lenPhases;
      } else {
        SetPins(phases[lastPhase]);
        lastPhase := (lastPhase - 1) % lenPhases;
      }
      StepWait();
    }

    /** Takes `count` single steps in one direction. */
    method StepCount(count: nat, direction: int)
      requires Valid()
      modifies this, pins
      ensures Valid()
      ensures lastPhase == Advance(old(lastPhase), lenPhases, direction, count)
      ensures trace == old(trace) + Rows(phases, old(lastPhase), direction, count)
      ensures waits == old(waits) + Repeat(stepDwell, count)
      ensures stepDwell == old(stepDwell)
      ensures count == 0 ==> pins[..] == old(pins[..])
    {
      ghost var p, dwell, before, waited := lastPhase, stepDwell, trace, waits;
      for i := 0 to count
        invariant Valid()
        invariant lastPhase == Advance(p, lenPhases, direction, i)
        invariant trace == before + Rows(phases, p, direction, i)
        invariant waits == waited + Repeat(dwell, i)
        invariant stepDwell == dwell
        invariant i == 0 ==> pins[..] == old(pins[..])
      {
        OneStep(direction);
        assert lastPhase == Advance(p, lenPhases, direction, i + 1) by {
          AdvanceLast(p, lenPhases, direction, i);
        }
        assert trace == before + Rows(phases, p, direction, i + 1) by {
          RowsLast(phases, p, direction, i);
        }
        assert waits == waited + Repeat(dwell, i + 1) by {
          assert Repeat(dwell, i + 1) == Repeat(dwell, i) + [dwell];
        }
      }
    }

    /** Takes abs(int(n)) single steps, in reverse exactly when n is negative.
        The phase carries over from the previous move. */
    method StepN(n: real)
      requires Valid()
      modifies this, pins
      ensures Valid()
      ensures lastPhase == Advance(old(lastPhase), lenPhases, DirectionOf(n), StepCountOf(n))
      ensures trace == old(trace) + Rows(phases, old(lastPhase), DirectionOf(n), StepCountOf(n))
      ensures waits == old(waits) + Repeat(stepDwell, StepCountOf(n))
      ensures stepDwell == old(stepDwell)
    {
      var direction := if n < 0.0 then Reverse else Forward;
      StepCount(StepCountOf(n), direction);
    }

    /** Turns the shaft by an angle in degrees (reverse when negative), then
        releases the coils. */
    method StepAng(angle: real)
      requires Valid()
      modifies this, pins
      ensures Valid()
      ensures pins[..] == Off
      ensures lastPhase == Advance(old(lastPhase), lenPhases, DirectionOf(angle), AngleSteps(angle))
      ensures trace == old(trace) + Rows(phases, old(lastPhase), DirectionOf(angle), AngleSteps(angle)) + [Off]
      ensures waits == old(waits) + Repeat(stepDwell, AngleSteps(angle))
      ensures stepDwell == old(stepDwell)
    {
      var direction := if angle < 0.0 then Reverse else Forward;
      StepCount(AngleSteps(angle), direction);
      Stop();
    }

    /** Releases all four coils. Nothing else changes, so a second call leaves
        the coil lines as the first left them. */
    method Stop()
      requires Valid()
      modifies pins, this`trace
      ensures Valid()
      ensures pins[..] == Off
      ensures trace == old(trace) + [Off]
    {
      SetPins(Off);
    }
  }

  /** A driver for a mode, or None when the mode is not one of the three. */
  method Create(mode: int) returns (r: Option<Stepper>)
    ensures r.None? <==> !ValidMode(mode)
    ensures r.Some? ==> fresh(r.value) && fresh(r.value.pins) && r.value.Valid()
    ensures r.Some? ==> Some(r.value.phases) == TableFor(mode)
    ensures r.Some? ==> r.value.lastPhase == 0 && r.value.stepDwell == StepDwell && r.value.pins[..] == Off
    ensures r.Some? ==> r.value.trace == [] && r.value.waits == []
  {
    if ValidMode(mode) {
      var s := new Stepper(mode);
      r := Some(s);
    } else {
      r := None;
    }
  }

  /** High torque, four steps from a new driver: the four double-phase rows are
      written in order, the last one stays on the coils, and the phase is back
      at 0. */
  method HighTorqueDemo() returns (held: seq<int>, phase: int)
    ensures held == [0, 0, 1, 1] && phase == 0
  {
    var s := new Stepper(HighTorque);
    s.StepN(4.0);
    HighTorqueFourSteps();
    assert s.trace == DoublePhases;
    held := s.pins[..];
    phase := s.lastPhase;
  }

  /** Half step, one reverse step from a new driver: row 0 is written and the
      phase wraps to the last row, 5. */
  method HalfStepReverseDemo() returns (held: seq<int>, phase: int)
    ensures held == [1, 0, 0, 0] && phase == 5
  {
    var s := new Stepper(HalfStep);
    s.OneStep(Reverse);
    held := s.pins[..];
    phase := s.lastPhase;
  }

  /** A step count followed by its negation leaves the phase where it was. */
  method StepNAndBack(s: Stepper, n: real)
    requires s.Valid()
    modifies s, s.pins
    ensures s.Valid() && s.lastPhase == old(s.lastPhase)
  {
    ghost var p := s.lastPhase;
    s.StepN(n);
    s.StepN(-n);
    StepNRoundTrip(p, s.lenPhases, n);
  }
}
