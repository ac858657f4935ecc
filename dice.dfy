/** A die: its shape kind, its three rotation axes and its two flags. */
module Dice {
  import opened Rotation

  class Dice {
    /** The shape kind, which selects the resting orientation. */
    const kind: Kind
    /** True while the die has been asked to spin and has not settled. */
    var spin: bool
    /** True once the last tick left every axis at its target. */
    var showAnswer: bool
    /** The current rotation: x, y, z. */
    var axes: Angles
    /** The rotation of the die's mesh, as last copied from `axes`. */
    ghost var elementRotation: Angles

    /**
     * A die of the given kind at rest. The start angles are the three
     * pseudo-random draws, each in [0, 10); the mesh starts unrotated.
     */
    constructor (kind: Kind, startX: real, startY: real, startZ: real)
      requires 0.0 <= startX < 10.0 && 0.0 <= startY < 10.0 && 0.0 <= startZ < 10.0
      ensures this.kind == kind && !spin && !showAnswer
      ensures axes == [startX, startY, startZ]
      ensures forall a :: 0 <= a < AxisCount ==> 0.0 <= axes[a] < 10.0
      ensures elementRotation == [0.0, 0.0, 0.0]
    {
      this.kind := kind;
      spin := false;
      showAnswer := false;
      axes := [startX, startY, startZ];
      elementRotation := [0.0, 0.0, 0.0];
    }

    /** Copies every axis onto the mesh's rotation. */
    method UpdateElementRotation()
      modifies this`elementRotation
      ensures elementRotation == axes
    {
      for a := 0 to AxisCount
        invariant forall j :: 0 <= j < a ==> elementRotation[j] == axes[j]
      {
        elementRotation := elementRotation[a := axes[a]];
      }
    }

    /**
     * One tick of the settle rule: every axis takes StepAxis towards its
     * target, the mesh is updated, and the flags record whether the die
     * has settled. The `speed` argument of the source is never read.
     */
    method ReduceRotationAllAxes()
      modifies this`axes, this`elementRotation, this`spin, this`showAnswer
      ensures axes == StepAll(kind, old(axes))
      ensures elementRotation == axes
      ensures showAnswer == Settled(kind, axes)
      ensures spin == !showAnswer
    {
      var stopSpinning := true;
      var targets := FinalStates(kind);
      for a := 0 to AxisCount
        invariant forall j :: 0 <= j < a ==> axes[j] == StepAxis(old(axes)[j], targets[j])
        invariant forall j :: a <= j < AxisCount ==> axes[j] == old(axes)[j]
        invariant stopSpinning <==> forall j :: 0 <= j < a ==> axes[j] == targets[j]
      {
        var axis := axes[a];
        var finalState := targets[a];
        var difference := (axis - finalState) / DecayDivisor;
        if difference < MinStep {
          difference := MinStep;
        }
        if axis - difference > finalState {
          axes := axes[a := axis - difference];
        } else {
          axes := axes[a := finalState];
        }
        if axes[a] != finalState {
          stopSpinning := false;
        }
      }
      UpdateElementRotation();
      spin := !stopSpinning;
      showAnswer := stopSpinning;
    }
  }
}
