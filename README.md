# 28BYJ-48 stepper driver, modelled in Dafny

This project models `StepperLib.py`, a driver for a 28BYJ-48 unipolar stepper motor.
The driver moves the motor by writing a repeating sequence of on/off patterns to four coil lines (IN1..IN4).

- A drive mode picks one of three fixed phase tables:
  - high torque (double phase, 4 rows);
  - low torque (single phase, 4 rows);
  - half step (6 rows).
- The driver keeps the index of the next row to write (`lastPhase`) and the time to hold each pattern (`stepDwell`).
- One step writes the row at `lastPhase` to the four lines, moves the index one place forward or back with wrap-around, and waits for the dwell.
- Step counts and angles are repeated single steps.
- A speed percentage sets the dwell in inverse proportion.
- `stop` releases all four coils.

Files:

- `phases.dfy` (module `Phases`) holds the constants and the three tables. It also has the mode-to-table selection and the phase-index arithmetic. `Advance` gives the index after k steps and `Rows` gives the rows written by k steps. The lemmas about them are here too: wrap-around in both directions, the closed forms `(p + k) % len` and `(p - k) % len`, the forward/reverse round trip, a full cycle, and which row each step writes.
- `conversions.dfy` (module `Conversions`) models Python's truncating `int()`, the angle-to-steps formula and the percentage-to-dwell formula, with their lemmas.
- `stepper.dfy` (module `StepperLib`) is the `Stepper` class:
  - the four coil lines are an `array<int>` of length 4;
  - `lastPhase` and `stepDwell` are mutable fields;
  - the selected table is a constant field;
  - a ghost `trace` records every pattern written, in order;
  - a ghost `waits` records every dwell waited, in order;
  - `Valid()` keeps the invariants: `0 <= lastPhase < lenPhases`, the dwell at least `StepDwell`, every line 0 or 1, and the lines showing the last pattern written.
  
  Each method states its new state in terms of `Phases.Advance`, `Phases.Rows` and the conversion functions. The lemmas about those functions carry the properties.

The speed percentage is a real number, because Python accepts any number there: `setSpeed(12.5)` is modelled, and so is `setSpeed(0.5)`, whose dwell is 200 times StepDwell.

Direction is an integer, as in the source. `Forward` is 1. Every other value takes the reverse branch.

## Model

| member | source | states |
|---|---|---|
| Phases.TableFor | StepperLib.py:55-63 | modes 3, 2 and 1 select a table and every other mode fails; every row of every table has four entries, each 0 or 1; the half-step table has 6 rows and the others 4 |
| Phases.NextPhase | StepperLib.py:100-108 | one step stays in 0..len-1; forward goes from the last row back to 0 and otherwise adds 1; any other direction goes from 0 to len-1 and otherwise subtracts 1 |
| Phases.Rows | StepperLib.py:104-108 | the patterns k steps write, one per step, so exactly k of them; which row each one is follows in RowsAt |
| Phases.Advance | StepperLib.py:105-108 | any number of steps keeps the phase index in 0..len-1 |
| Phases.AdvanceLast | StepperLib.py:119-120 | k+1 steps are one more step after the first k |
| Phases.AdvanceForward | StepperLib.py:105 | k forward steps from p leave the index at (p + k) mod len; from 0 that is k mod len |
| Phases.AdvanceReverse | StepperLib.py:106-108 | k steps in any other direction from p leave the index at (p - k) mod len |
| Phases.ForwardThenBack | StepperLib.py:102-108 | k forward steps then k reverse steps restore the index |
| Phases.BackThenForward | StepperLib.py:102-108 | k reverse steps then k forward steps restore the index |
| Phases.RoundTrip | StepperLib.py:102-108 | both orders of k steps out and k steps back restore the index |
| Phases.FullCycle | StepperLib.py:105-108 | len steps in either direction return to the starting index |
| Phases.RowsAt | StepperLib.py:104-108 | the i-th row written is the table row at the index reached after i steps, because each step writes before it moves |
| Phases.RowsLast | StepperLib.py:119-120 | one more step appends the row at the index reached so far |
| Phases.RowsArePatterns | StepperLib.py:36-39 | every row a run of steps writes has four entries, each 0 or 1 |
| Phases.RowsForward | StepperLib.py:104-105 | going forward from p, the i-th row written is table[(p + i) mod len] |
| Phases.HighTorqueFourSteps | StepperLib.py:112-120 | four forward high-torque steps from 0 write the four double-phase rows in table order and return to 0 |
| Phases.HalfStepOneReverse | StepperLib.py:106-108 | one reverse half step from 0 writes row 0 and wraps the index to 5 |
| Conversions.Truncate | StepperLib.py:119 | int() truncates toward zero: the result is at most one unit closer to zero than the argument, on the same side of zero |
| Conversions.DirectionOf | StepperLib.py:115-117 | a count or angle selects Reverse exactly when it is negative, and Forward otherwise |
| Conversions.StepCountOf | StepperLib.py:119 | abs(int(N)) is the whole part of abs(N) |
| Conversions.AngleSteps | StepperLib.py:125-130 | the step count for an angle is the whole part of abs(angle) * 2048 / 360, truncated rather than rounded |
| Conversions.AngleExamples | StepperLib.py:130 | 360 degrees is 2048 steps; -180 degrees is 1024 steps in reverse; 1 degree is 5 steps |
| Conversions.StepNRoundTrip | StepperLib.py:112-120 | a step count N followed by -N returns the phase index to its start, for every N including fractions and 0 |
| Conversions.SpeedDwell | StepperLib.py:78-80 | for any positive percentage p, whole or fractional, the dwell times min(100, p) is StepDwell * 100; above 100 the dwell is StepDwell; the dwell is never below StepDwell |
| Conversions.SpeedDwellAntitone | StepperLib.py:71-80 | a higher percentage never gives a longer dwell |
| Conversions.SpeedExamples | StepperLib.py:78-80 | 200% gives the same dwell as 100%, which is StepDwell; 25% gives 4 * StepDwell; 0.5% gives 200 * StepDwell |
| Conversions.SpeedSetting | StepperLib.py:75-80 | a percentage at or below 0 is a stop; any other percentage gives a dwell of at least StepDwell, in inverse proportion to the clamped percentage |
| Conversions.SpeedSettingAsWritten | StepperLib.py:75-80 | as written only 0 stops; positive percentages agree with SpeedSetting; a negative percentage gives a negative dwell |
| Conversions.NegativePercent | StepperLib.py:75-80 | setting the speed to -50 gives a dwell of -0.0038 as written, and a stop once corrected |
| StepperLib.Stepper.Valid | StepperLib.py:52-63 | the driver invariant: the index stays in 0..LEN_PHASES-1 (lines 105 and 108), the table fixed at construction has rows of four 0/1 entries, the dwell is at least StepDwell, and the four lines hold the last pattern written (lines 97-98), or all 0 before any write |
| StepperLib.Stepper.constructor | StepperLib.py:43-63 | a new driver holds the table its mode selects, with the coils released, lastPhase 0 and stepDwell equal to StepDwell |
| StepperLib.Create | StepperLib.py:55-62 | construction fails exactly when the mode is not 1, 2 or 3; otherwise it gives a valid new driver at phase 0 and full speed, with the coils released and nothing written or waited yet |
| StepperLib.Stepper.SetSpeed | StepperLib.py:71-80 | a percentage at or below 0 releases the coils and keeps the dwell; otherwise the dwell becomes SpeedDwell(percent) and the coils stay as they were |
| StepperLib.Stepper.StepWait | StepperLib.py:83-91 | each wait lasts the current dwell |
| StepperLib.Stepper.SetPins | StepperLib.py:94-98 | the first four values reach IN1..IN4 in pin order, as one pattern written |
| StepperLib.Stepper.OneStep | StepperLib.py:100-110 | writes the row at the old index, moves the index by NextPhase, then waits one dwell; the dwell is unchanged and the invariants are kept |
| StepperLib.Stepper.StepCount | StepperLib.py:119-120 | count single steps move the index to Advance(old index, count), write Rows(old index, count) in order, and wait count dwells |
| StepperLib.Stepper.StepN | StepperLib.py:112-120 | takes StepCountOf(N) steps in DirectionOf(N), continuing from the current index; N = 0 changes nothing |
| StepperLib.Stepper.StepAng | StepperLib.py:122-131 | takes AngleSteps(angle) steps in DirectionOf(angle), then releases the coils |
| StepperLib.Stepper.Stop | StepperLib.py:133-136 | all four lines go to 0 whatever they were; the index, the dwell and the table do not change, so a second call leaves the lines as they are |
| StepperLib.HighTorqueDemo | StepperLib.py:112-120 | a new high-torque driver that steps 4 is back at index 0 and holds the last double-phase row |
| StepperLib.HalfStepReverseDemo | StepperLib.py:100-108 | a new half-step driver that takes one reverse step holds row 0 and is at index 5 |
| StepperLib.StepNAndBack | StepperLib.py:112-120 | on any valid driver, stepping N then -N restores lastPhase |

## Findings

| source | as written | input that shows it | evidently intended | confidence | as-written member | corrected member |
|---|---|---|---|---|---|---|
| StepperLib.py:75-80 | only a percentage of exactly 0 stops; any other percentage, negative included, divides `StepDwell * 100` by `min(100, percent)` | `setSpeed(-50)` sets the dwell to -0.0038 s, so the busy-wait ends at once and the motor steps with no pacing | a negative percentage has no meaning as a speed and is treated as a stop, like 0, so the dwell stays positive | medium (not executed) | Conversions.SpeedSettingAsWritten | Conversions.SpeedSetting |

`Conversions.NegativePercent` gives the concrete input for the as-written member. `Stepper.SetSpeed` uses the corrected `SpeedSetting`. That keeps the invariant `StepDwell <= stepDwell`.

## Where the source cannot run as written

The model follows what the code evidently means in these places:

- Lines 74-78 mix tabs and spaces, and line 117 (`else direction=FORWARD`) is not valid Python. The model treats `stepN` as: REVERSE when N < 0, FORWARD otherwise.
- Line 130 calls `stepN` with two arguments, but `stepN` takes one (line 112). The model takes this to mean "AngleSteps(angle) steps in the chosen direction". `Stepper.StepCount` models the loop at lines 119-120 for a given direction. Both `StepN` and `StepAng` call it.
- Line 62 raises a string, which in Python 3 is itself an error. Either way construction fails. The model shows this as `Create` returning `None`, and as the constructor requiring a valid mode.

In two places the code does something other than what a reader might expect. The model follows the code:

- It truncates the angle-to-steps result rather than rounding it.
- A reverse step writes the row at the index it starts from (row 0 from index 0), not the row it lands on.

## Left out

- Pin acquisition through gpiozero `OutputDevice` (lines 14 and 45-48) is foreign code, so the pin numbers are not modelled. The four lines are a plain array that starts at 0. Acquisition errors and write errors are not modelled.
- The construction order is not modelled: the source acquires the pins before it checks the mode (lines 45-62). In the model, a bad mode fails before any driver exists.
- StepperLib.Stepper.StepWait: the busy-wait on `time.time()` (lines 88-91) is not modelled, because it needs a wall clock. The model only records, in the ghost `waits` log, that a dwell of the current length took place.
- Floating point: dwells and angles are exact `real` numbers, so IEEE rounding of `StepDwell*100/percent` and `ang*2048/360` is not modelled.
- The `__del__` finalizer and its exception printing (lines 65-69) are about garbage collection and I/O, so they are left out.
- The `__main__` hardware demonstration (lines 138-152) is left out.
