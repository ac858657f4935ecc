/**
 * A scene: one die and its result label. Each animation frame runs one
 * `Render` tick; `StartRolling` sets every scene's die spinning.
 */
module Scenes {
  import opened Rotation
  import Dice

  /** The label class that makes the result visible. */
  const ShowResultClass: string := "show-result"

  /** The label class naming the die's shape kind. */
  function KindClass(kind: Kind): (r: string)
    ensures r != ShowResultClass && r != "text-result"
  {
    if kind == 4 then "d4"
    else if kind == 6 then "d6"
    else if kind == 8 then "d8"
    else if kind == 10 then "d10"
    else if kind == 12 then "d12"
    else "d20"
  }

  class DiceScene {
    const id: int
    const kind: Kind
    /** The value the scene reports. */
    var result: int
    /** The value the result label displays. */
    var labelText: int
    /** The class list of the result label, in order. */
    var labelClasses: seq<string>
    const dice: Dice.Dice

    ghost predicate Valid()
      reads this
    {
      dice.kind == kind
    }

    /**
     * A scene for a die of `kind`, whose label shows `result` and is hidden.
     * The die's start angles are the three pseudo-random draws.
     */
    constructor (kind: Kind, startX: real, startY: real, startZ: real, result: int := 1, id: int := 0)
      requires 0.0 <= startX < 10.0 && 0.0 <= startY < 10.0 && 0.0 <= startZ < 10.0
      ensures Valid() && fresh(dice)
      ensures this.kind == kind && this.result == result && this.id == id
      ensures labelText == result
      ensures labelClasses == ["text-result", KindClass(kind)]
      ensures ShowResultClass !in labelClasses
      ensures !dice.spin && !dice.showAnswer && dice.axes == [startX, startY, startZ]
    {
      this.id := id;
      this.result := result;
      this.kind := kind;
      labelText := result;
      labelClasses := ["text-result", KindClass(kind)];
      dice := new Dice.Dice(kind, startX, startY, startZ);
    }

    /** Records a new result and shows it on the label. */
    method SetResult(result: int)
      modifies this`result, this`labelText
      ensures this.result == result && labelText == result
    {
      this.result := result;
      labelText := this.result;
    }

    /** Makes the result label visible; a label already visible is left alone. */
    method ShowResult()
      modifies this`labelClasses
      ensures ShowResultClass in labelClasses
      ensures old(ShowResultClass in labelClasses) ==> labelClasses == old(labelClasses)
      ensures old(ShowResultClass !in labelClasses) ==> labelClasses == old(labelClasses) + [ShowResultClass]
    {
      if ShowResultClass !in labelClasses {
        labelClasses := labelClasses + [ShowResultClass];
      }
    }

    /**
     * One animation frame (drawing is left out): a spinning die takes one
     * tick of the settle rule; a die at rest that has settled reveals the
     * result; otherwise nothing changes.
     */
    method Render()
      requires Valid()
      modifies this`labelClasses, dice`axes, dice`elementRotation, dice`spin, dice`showAnswer
      ensures Valid()
      ensures old(dice.spin) ==>
        && dice.axes == StepAll(kind, old(dice.axes))
        && dice.elementRotation == dice.axes
        && dice.showAnswer == Settled(kind, dice.axes)
        && dice.spin == !dice.showAnswer
        && labelClasses == old(labelClasses)
      ensures !old(dice.spin) ==>
        && dice.axes == old(dice.axes)
        && dice.elementRotation == old(dice.elementRotation)
        && !dice.spin && dice.showAnswer == old(dice.showAnswer)
      ensures !old(dice.spin) && old(dice.showAnswer) ==>
        && ShowResultClass in labelClasses
        && (old(ShowResultClass in labelClasses) ==> labelClasses == old(labelClasses))
        && (old(ShowResultClass !in labelClasses) ==> labelClasses == old(labelClasses) + [ShowResultClass])
      ensures !old(dice.spin) && !old(dice.showAnswer) ==> labelClasses == old(labelClasses)
    {
      if dice.spin {
        dice.ReduceRotationAllAxes();
      } else {
        if dice.showAnswer {
          ShowResult();
        }
      }
    }
  }

  /** The dice of `scenes`. */
  ghost function DiceOf(scenes: seq<DiceScene>): (r: set<Dice.Dice>)
    ensures forall i :: 0 <= i < |scenes| ==> scenes[i].dice in r
  {
    set i | 0 <= i < |scenes| :: scenes[i].dice
  }

  /**
   * Sets every scene's die spinning, whatever state it is in; nothing else
   * about the dice changes.
   */
  method StartRolling(scenes: seq<DiceScene>)
    modifies DiceOf(scenes)
    ensures forall i :: 0 <= i < |scenes| ==> scenes[i].dice.spin
    ensures forall d :: d in DiceOf(scenes) ==>
      && d.axes == old(d.axes)
      && d.showAnswer == old(d.showAnswer)
      && d.elementRotation == old(d.elementRotation)
  {
    for i := 0 to |scenes|
      invariant forall j :: 0 <= j < i ==> scenes[j].dice.spin
      invariant forall d :: d in DiceOf(scenes) ==>
        && d.axes == old(d.axes)
        && d.showAnswer == old(d.showAnswer)
        && d.elementRotation == old(d.elementRotation)
    {
      scenes[i].dice.spin := true;
    }
  }
}
