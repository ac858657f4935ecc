/**
 * The settle rule of a die: every tick each rotation axis eases towards the
 * resting orientation of the die's shape, with a floor on the step size, and
 * snaps onto it once the next step would reach or pass it.
 *
 * Angles are real numbers: floating-point rounding is not modelled.
 */
module Rotation {

  /** The rotation axes x, y and z, by position, in the order a die visits them. */
  const AxisCount: nat := 3

  /** One angle per axis: x, y, z. */
  type Angles = s: seq<real> | |s| == AxisCount witness [0.0, 0.0, 0.0]

  /** The shape kinds: the number of faces of the polyhedron. */
  predicate IsShapeKind(k: int) {
    k == 4 || k == 6 || k == 8 || k == 10 || k == 12 || k == 20
  }

  type Kind = k: int | IsShapeKind(k) witness 6

  /** The divisor of the distance to the target that gives one step. */
  const DecayDivisor: real := 75.0

  /** The smallest step an axis takes. */
  const MinStep: real := 0.005

  /** The resting orientation of each shape kind (the `finalStates` table). */
  function FinalStates(kind: Kind): (r: Angles)
    ensures forall a :: 0 <= a < AxisCount ==> -1.9 <= r[a] <= 1.0
  {
    if kind == 4 then [0.9, -0.8, -0.2]
    else if kind == 6 then [0.0, 0.0, 0.0]
    else if kind == 8 then [0.5, 0.8, 0.0]
    else if kind == 10 then [-0.6, -1.9, 0.0]
    else if kind == 12 then [1.0, 0.7, 0.3]
    else [0.18, -0.12, -0.085]
  }

  function Max(a: real, b: real): (r: real)
    ensures a <= r && b <= r && (r == a || r == b)
  {
    if a < b then b else a
  }

  /**
   * The `difference` of one step: a 75th of the signed distance to the
   * target, raised to MinStep when it is smaller. For an axis at or below
   * its target this is MinStep, not a step of the distance's magnitude.
   */
  function Decrement(axis: real, target: real): (r: real)
    ensures MinStep <= r
  {
    Max((axis - target) / DecayDivisor, MinStep)
  }

  /** One tick of the settle rule on one axis. */
  function StepAxis(axis: real, target: real): (r: real)
    // never below the target afterwards, whichever side the axis started on
    ensures target <= r
    // the axis snaps exactly when it is within MinStep above the target, or at or below it
    ensures r == target <==> axis - target <= MinStep
    // otherwise it moves down by the step, which is at least MinStep
    ensures r != target ==> r == axis - Decrement(axis, target) && r <= axis - MinStep
    // the distance to the target never grows
    ensures r - target <= Max(axis - target, 0.0)
  {
    var difference := Decrement(axis, target);
    if axis - difference > target then axis - difference else target
  }

  /** Whether every axis is at the resting orientation of `kind`. */
  predicate Settled(kind: Kind, angles: Angles) {
    forall a :: 0 <= a < AxisCount ==> angles[a] == FinalStates(kind)[a]
  }

  /** One tick of the settle rule on all three axes. */
  function StepAll(kind: Kind, angles: Angles): (r: Angles)
    ensures forall a :: 0 <= a < AxisCount ==> r[a] == StepAxis(angles[a], FinalStates(kind)[a])
    // no axis ends below its target
    ensures forall a :: 0 <= a < AxisCount ==> FinalStates(kind)[a] <= r[a]
  {
    var targets := FinalStates(kind);
    seq(AxisCount, a requires 0 <= a < AxisCount => StepAxis(angles[a], targets[a]))
  }

  /**
   * One tick settles a die exactly when every axis starts at most MinStep
   * above its target (at or below the target included).
   */
  lemma SettlesInOneTick(kind: Kind, angles: Angles)
    ensures Settled(kind, StepAll(kind, angles))
        <==> forall a :: 0 <= a < AxisCount ==> angles[a] - FinalStates(kind)[a] <= MinStep
  {
    var r := StepAll(kind, angles);
    forall a | 0 <= a < AxisCount
      ensures r[a] == FinalStates(kind)[a] <==> angles[a] - FinalStates(kind)[a] <= MinStep
    {
    }
  }

  /** The die after `n` further ticks of the settle rule. */
  function Iterate(kind: Kind, angles: Angles, n: nat): (r: Angles)
    decreases n
  {
    if n == 0 then angles else Iterate(kind, StepAll(kind, angles), n - 1)
  }

  /**
   * A cube (target 0, 0, 0) started at 5, 5, 5: the first tick moves each
   * axis down by a 75th of its distance. Near the target an axis within
   * MinStep snaps onto it, one whose 75th is below MinStep moves by MinStep,
   * and one further out moves by its 75th.
   */
  lemma CubeTicks()
    ensures StepAll(6, [5.0, 5.0, 5.0]) == [5.0 - 5.0 / 75.0, 5.0 - 5.0 / 75.0, 5.0 - 5.0 / 75.0]
    ensures StepAll(6, [0.004, 0.3, 3.0]) == [0.0, 0.3 - MinStep, 3.0 - 3.0 / 75.0]
  {
  }

  /** An upper bound on the ticks one axis needs to reach its target. */
  function AxisTicks(axis: real, target: real): (r: nat)
    ensures r == 0 <==> axis == target
  {
    if axis == target then 0
    else if axis < target then 1
    else ((axis - target) / MinStep).Floor + 1
  }

  /**
   * An upper bound on the ticks a die needs to settle: the axes step in the
   * same tick, so the die needs as many ticks as its slowest axis.
   */
  function Ticks(kind: Kind, angles: Angles): (r: nat)
    ensures forall a :: 0 <= a < AxisCount ==> AxisTicks(angles[a], FinalStates(kind)[a]) <= r
  {
    var t := FinalStates(kind);
    var x, y, z := AxisTicks(angles[0], t[0]), AxisTicks(angles[1], t[1]), AxisTicks(angles[2], t[2]);
    var xy := if x < y then y else x;
    if xy < z then z else xy
  }

  /** An axis that is not at its target gets strictly closer to it in ticks. */
  lemma AxisTicksDecrease(axis: real, target: real)
    ensures AxisTicks(StepAxis(axis, target), target) <= AxisTicks(axis, target)
    ensures axis != target ==> AxisTicks(StepAxis(axis, target), target) < AxisTicks(axis, target)
  {
    var r := StepAxis(axis, target);
    if r != target {
      assert target < r <= axis - MinStep;
      var before := (axis - target) / MinStep;
      var after := (r - target) / MinStep;
      assert after <= before - 1.0 by {
        assert r - target <= (axis - target) - MinStep;
      }
      assert after.Floor <= before.Floor - 1;
    }
  }

  /** A settled die is a fixed point of the settle rule. */
  lemma SettledIsFixedPoint(kind: Kind, angles: Angles)
    requires Settled(kind, angles)
    ensures StepAll(kind, angles) == angles
    ensures Settled(kind, StepAll(kind, angles))
  {
    var r := StepAll(kind, angles);
    forall a | 0 <= a < AxisCount
      ensures r[a] == angles[a]
    {
      assert angles[a] == FinalStates(kind)[a];
    }
  }

  /** Only a settled die needs no ticks. */
  lemma TicksZeroIffSettled(kind: Kind, angles: Angles)
    ensures Ticks(kind, angles) == 0 <==> Settled(kind, angles)
  {
    if Ticks(kind, angles) == 0 {
      forall a | 0 <= a < AxisCount
        ensures angles[a] == FinalStates(kind)[a]
      {
        assert a == 0 || a == 1 || a == 2;
      }
    }
  }

  /** Every tick of a die that has not settled uses up at least one tick of the bound. */
  lemma TicksDecrease(kind: Kind, angles: Angles)
    requires !Settled(kind, angles)
    ensures Ticks(kind, StepAll(kind, angles)) < Ticks(kind, angles)
  {
    var t := FinalStates(kind);
    AxisTicksDecrease(angles[0], t[0]);
    AxisTicksDecrease(angles[1], t[1]);
    AxisTicksDecrease(angles[2], t[2]);
    var a :| 0 <= a < AxisCount && angles[a] != t[a];
    assert a == 0 || a == 1 || a == 2;
  }

  /** Once settled, a die stays where it is for any number of further ticks. */
  lemma {:induction false} StaysSettled(kind: Kind, angles: Angles, n: nat)
    requires Settled(kind, angles)
    ensures Iterate(kind, angles, n) == angles
    decreases n
  {
    if n > 0 {
      SettledIsFixedPoint(kind, angles);
      StaysSettled(kind, angles, n - 1);
    }
  }

  /**
   * One axis reaches its target within its own tick bound, and stays there,
   * whatever the other axes do.
   */
  lemma {:induction false} AxisSettlesWithin(kind: Kind, angles: Angles, n: nat, a: nat)
    requires a < AxisCount
    requires AxisTicks(angles[a], FinalStates(kind)[a]) <= n
    ensures Iterate(kind, angles, n)[a] == FinalStates(kind)[a]
    decreases n
  {
    if n > 0 {
      AxisTicksDecrease(angles[a], FinalStates(kind)[a]);
      AxisSettlesWithin(kind, StepAll(kind, angles), n - 1, a);
    }
  }

  /** Termination: Ticks(kind, angles) ticks, or more, settle the die. */
  lemma {:induction false} SettlesWithin(kind: Kind, angles: Angles, n: nat)
    requires Ticks(kind, angles) <= n
    ensures Settled(kind, Iterate(kind, angles, n))
    decreases n
  {
    if Settled(kind, angles) {
      StaysSettled(kind, angles, n);
    } else {
      TicksZeroIffSettled(kind, angles);
      TicksDecrease(kind, angles);
      SettlesWithin(kind, StepAll(kind, angles), n - 1);
    }
  }

  /** The largest number of ticks one axis needs from a start angle in [0, 10). */
  const MaxAxisTicks: nat := 2380

  /** An axis starting in [0, 10) needs at most MaxAxisTicks ticks. */
  lemma InitialAxisTicks(axis: real, target: real)
    requires 0.0 <= axis < 10.0 && -1.9 <= target
    ensures AxisTicks(axis, target) <= MaxAxisTicks
  {
    if axis > target {
      var q := (axis - target) / MinStep;
      assert q < 2380.0 by {
        assert axis - target < 11.9;
      }
      assert q.Floor <= 2379;
    }
  }

  /**
   * A die whose axes start in [0, 10), as a freshly constructed die's do,
   * settles within MaxAxisTicks ticks and stays settled afterwards.
   */
  lemma SettlesFromStart(kind: Kind, angles: Angles, n: nat)
    requires forall a :: 0 <= a < AxisCount ==> 0.0 <= angles[a] < 10.0
    requires MaxAxisTicks <= n
    ensures Settled(kind, Iterate(kind, angles, n))
  {
    forall a | 0 <= a < AxisCount
      ensures Iterate(kind, angles, n)[a] == FinalStates(kind)[a]
    {
      InitialAxisTicks(angles[a], FinalStates(kind)[a]);
      AxisSettlesWithin(kind, angles, n, a);
    }
  }
}
