/** Configuration constants, the three phase tables of the 28BYJ-48 driver,
    the selection of a table by drive mode, and the arithmetic of the phase
    index that the driver advances one step at a time. */
module Phases {

  datatype Option<T> = None | Some(value: T)

  // Drive modes, as the integers the driver is configured with.
  const HighTorque: int := 3
  const LowTorque: int := 2
  const HalfStep: int := 1

  // Empirically tuned dwell per step at full speed, in seconds.
  const StepDwell: real := 0.0019
  // Steps of the geared output shaft per revolution.
  const StepsPerRevolution: int := 2048

  // Step directions. Any value other than Forward steps in reverse.
  const Forward: int := 1
  const Reverse: int := -1

  // Single phase: one coil energised at a time (low torque).
  const SinglePhases: seq<seq<int>> := [[1, 0, 0, 0], [0, 1, 0, 0], [0, 0, 1, 0], [0, 0, 0, 1]]
  // Double phase: two adjacent coils energised at a time (higher torque).
  const DoublePhases: seq<seq<int>> := [[1, 0, 0, 1], [1, 1, 0, 0], [0, 1, 1, 0], [0, 0, 1, 1]]
  // Half step: single and double phases interleaved.
  const HalfSteps: seq<seq<int>> := [[1, 0, 0, 0], [1, 1, 0, 0], [0, 1, 0, 0], [0, 1, 1, 0], [0, 0, 1, 0], [0, 0, 1, 1]]

  // The pattern that de-energises all four coil lines.
  const Off: seq<int> := [0, 0, 0, 0]

  /** A pattern for the four coil lines IN1..IN4: each entry is 0 or 1. */
  predicate IsPattern(row: seq<int>) {
    |row| == 4 && forall i :: 0 <= i < 4 ==> row[i] == 0 || row[i] == 1
  }

  /** A usable phase table: at least one row, every row a pattern. */
  predicate IsTable(table: seq<seq<int>>) {
    |table| > 0 && forall i :: 0 <= i < |table| ==> IsPattern(table[i])
  }

  predicate ValidMode(mode: int) {
    mode == HighTorque || mode == LowTorque || mode == HalfStep
  }

  /** The phase table a mode selects; None for a mode the driver refuses. */
  function TableFor(mode: int): (r: Option<seq<seq<int>>>)
    ensures r.Some? <==> ValidMode(mode)
    ensures r.Some? ==> IsTable(r.value)
    ensures r.Some? ==> |r.value| == (if mode == HalfStep then 6 else 4)
    ensures r.Some? ==> r.value[0] == (if mode == HighTorque then [1, 0, 0, 1] else [1, 0, 0, 0])
  {
    if mode == HighTorque then Some(DoublePhases)
    else if mode == LowTorque then Some(SinglePhases)
    else if mode == HalfStep then Some(HalfSteps)
    else None
  }

  /** The phase index after one step from `p` in a table of `len` rows. */
  function NextPhase(p: int, len: int, direction: int): (r: int)
    requires len > 0
    ensures 0 <= r < len
    ensures 0 <= p < len && direction == Forward ==> r == if p == len - 1 then 0 else p + 1
    ensures 0 <= p < len && direction != Forward ==> r == if p == 0 then len - 1 else p - 1
  {
    if direction == Forward then (p + 1) % len else (p - 1) % len
  }

  /** The phase index after `k` steps from `p` in one direction. */
  function Advance(p: int, len: int, direction: int, k: nat): (r: int)
    requires len > 0 && 0 <= p < len
    ensures 0 <= r < len
    decreases k
  {
    if k == 0 then p else Advance(NextPhase(p, len, direction), len, direction, k - 1)
  }

  /** The rows written to the coil lines by `k` steps from phase `p`, in order. */
  function Rows(table: seq<seq<int>>, p: int, direction: int, k: nat): (r: seq<seq<int>>)
    requires |table| > 0 && 0 <= p < |table|
    ensures |r| == k
    decreases k
  {
    if k == 0 then [] else [table[p]] + Rows(table, NextPhase(p, |table|, direction), direction, k - 1)
  }

  /** Taking a remainder before adding does not change the remainder of the sum. */
  lemma ModOfSum(a: int, b: int, m: int)
    requires m > 0
    ensures (a % m + b) % m == (a + b) % m
  {
    var q := a / m;
    assert a == q * m + a % m;
    assert a % m + b == (a + b) - q * m;
    ModShift(a + b, -q, m);
  }

  /** Adding whole multiples of m does not change the remainder. */
  lemma ModShift(x: int, q: int, m: int)
    requires m > 0
    ensures (x + q * m) % m == x % m
  {
    var d := x / m;
    assert x + q * m == (d + q) * m + x % m;
    ModUnique(x + q * m, d + q, x % m, m);
  }

  /** A quotient and remainder in range are the ones Dafny's division gives. */
  lemma ModUnique(y: int, a: int, r: int, m: int)
    requires m > 0 && 0 <= r < m && y == a * m + r
    ensures y % m == r
  {
    var a', r' := y / m, y % m;
    assert (a - a') * m == r' - r;
    if a - a' >= 1 {
      MulAtLeast(a - a', m);
    } else if a' - a >= 1 {
      MulAtLeast(a' - a, m);
    }
  }

  lemma MulAtLeast(c: int, m: int)
    requires c >= 1 && m > 0
    ensures c * m >= m
  {
  }

  /** Stepping one more time is one NextPhase after the first k steps. */
  lemma {:induction false} AdvanceLast(p: int, len: int, direction: int, k: nat)
    requires len > 0 && 0 <= p < len
    ensures Advance(p, len, direction, k + 1) == NextPhase(Advance(p, len, direction, k), len, direction)
    decreases k
  {
    if k > 0 {
      AdvanceLast(NextPhase(p, len, direction), len, direction, k - 1);
    }
  }

  /** k forward steps from p land on (p + k) mod len. */
  lemma {:induction false} AdvanceForward(p: int, len: int, k: nat)
    requires len > 0 && 0 <= p < len
    ensures Advance(p, len, Forward, k) == (p + k) % len
    decreases k
  {
    if k > 0 {
      var q := NextPhase(p, len, Forward);
      AdvanceForward(q, len, k - 1);
      ModOfSum(p + 1, k - 1, len);
    }
  }

  /** k steps in any direction other than Forward land on (p - k) mod len. */
  lemma {:induction false} AdvanceReverse(p: int, len: int, direction: int, k: nat)
    requires len > 0 && 0 <= p < len && direction != Forward
    ensures Advance(p, len, direction, k) == (p - k) % len
    decreases k
  {
    if k > 0 {
      var q := NextPhase(p, len, direction);
      AdvanceReverse(q, len, direction, k - 1);
      ModOfSum(p - 1, -(k - 1), len);
    }
  }

  /** k forward steps followed by k reverse steps restore the phase, and the
      other way round. */
  lemma RoundTrip(p: int, len: int, direction: int, k: nat)
    requires len > 0 && 0 <= p < len && direction != Forward
    ensures Advance(Advance(p, len, Forward, k), len, direction, k) == p
    ensures Advance(Advance(p, len, direction, k), len, Forward, k) == p
  {
    ForwardThenBack(p, len, direction, k);
    BackThenForward(p, len, direction, k);
  }

  lemma ForwardThenBack(p: int, len: int, direction: int, k: nat)
    requires len > 0 && 0 <= p < len && direction != Forward
    ensures Advance(Advance(p, len, Forward, k), len, direction, k) == p
  {
    var f := Advance(p, len, Forward, k);
    AdvanceForward(p, len, k);
    assert f == (p + k) % len;
    AdvanceReverse(f, len, direction, k);
    assert Advance(f, len, direction, k) == (f - k) % len;
    ModOfSum(p + k, 0 - k, len);
    assert (f - k) % len == p % len;
    ModUnique(p, 0, p, len);
  }

  lemma BackThenForward(p: int, len: int, direction: int, k: nat)
    requires len > 0 && 0 <= p < len && direction != Forward
    ensures Advance(Advance(p, len, direction, k), len, Forward, k) == p
  {
    var b := Advance(p, len, direction, k);
    AdvanceReverse(p, len, direction, k);
    assert b == (p - k) % len;
    AdvanceForward(b, len, k);
    assert Advance(b, len, Forward, k) == (b + k) % len;
    ModOfSum(p - k, k, len);
    assert (b + k) % len == p % len;
    ModUnique(p, 0, p, len);
  }

  /** Whole turns of the table: len steps in either direction change nothing. */
  lemma FullCycle(p: int, len: int, direction: int)
    requires len > 0 && 0 <= p < len
    ensures Advance(p, len, direction, len) == p
  {
    ModUnique(p, 0, p, len);
    if direction == Forward {
      AdvanceForward(p, len, len);
      ModShift(p, 1, len);
      assert p + 1 * len == p + len;
    } else {
      AdvanceReverse(p, len, direction, len);
      ModShift(p, -1, len);
      assert p + -1 * len == p - len;
    }
  }

  /** The i-th row written is the table row at the phase reached after i steps:
      each step writes the row at the phase it starts from. */
  lemma {:induction false} RowsAt(table: seq<seq<int>>, p: int, direction: int, k: nat, i: nat)
    requires |table| > 0 && 0 <= p < |table| && i < k
    ensures Rows(table, p, direction, k)[i] == table[Advance(p, |table|, direction, i)]
    decreases k
  {
    if i > 0 {
      RowsAt(table, NextPhase(p, |table|, direction), direction, k - 1, i - 1);
    }
  }

  /** One more step appends the row at the phase reached so far. */
  lemma RowsLast(table: seq<seq<int>>, p: int, direction: int, k: nat)
    requires |table| > 0 && 0 <= p < |table|
    ensures Rows(table, p, direction, k + 1) == Rows(table, p, direction, k) + [table[Advance(p, |table|, direction, k)]]
  {
    var longer := Rows(table, p, direction, k + 1);
    var shorter := Rows(table, p, direction, k);
    forall i | 0 <= i < k + 1
      ensures longer[i] == (shorter + [table[Advance(p, |table|, direction, k)]])[i]
    {
      RowsAt(table, p, direction, k + 1, i);
      if i < k {
        RowsAt(table, p, direction, k, i);
      }
    }
  }

  /** Every row written is a pattern of the table. */
  lemma RowsArePatterns(table: seq<seq<int>>, p: int, direction: int, k: nat)
    requires IsTable(table) && 0 <= p < |table|
    ensures forall i :: 0 <= i < k ==> IsPattern(Rows(table, p, direction, k)[i])
  {
    forall i | 0 <= i < k
      ensures IsPattern(Rows(table, p, direction, k)[i])
    {
      RowsAt(table, p, direction, k, i);
    }
  }

  /** Forward from phase p, the i-th row written is table[(p + i) mod len]. */
  lemma RowsForward(table: seq<seq<int>>, p: int, k: nat, i: nat)
    requires |table| > 0 && 0 <= p < |table| && i < k
    ensures Rows(table, p, Forward, k)[i] == table[(p + i) % |table|]
  {
    RowsAt(table, p, Forward, k, i);
    AdvanceForward(p, |table|, i);
  }

  /** High torque, four forward steps from phase 0: the four double-phase rows
      in table order, and the phase is back at 0. */
  lemma HighTorqueFourSteps()
    ensures Rows(DoublePhases, 0, Forward, 4) == DoublePhases
    ensures Advance(0, 4, Forward, 4) == 0
  {
  }

  /** Half step, one reverse step from phase 0: row 0 is written and the phase
      wraps to 5. */
  lemma HalfStepOneReverse()
    ensures Rows(HalfSteps, 0, Reverse, 1) == [[1, 0, 0, 0]]
    ensures Advance(0, 6, Reverse, 1) == 5
  {
  }
}
