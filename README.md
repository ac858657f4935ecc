# Dice simulator: the settle rule and its state machine, in Dafny

The dice simulator shows six polyhedral dice (4, 6, 8, 10, 12 and 20 faces).
When the user starts a roll, each die spins and then settles into a fixed
resting orientation for its shape.
The only original logic is the per-axis settle rule of
`Dice.reduceRotationAllAxes`, run once per animation frame.
This project models that rule, plus the flags and the per-frame tick around it:

- `Rotation` (`rotation.dfy`) holds the rule as functions on three angles.
  `StepAxis` is one axis, `StepAll` all three, and `Iterate` repeats the tick `n` times.
  It also holds the `finalStates` table and the lemmas about the rule:
  no undershoot, exact snapping, the settled state as a fixed point, and termination.
  The termination bound is `Ticks`, the largest of the three per-axis bounds, because
  the axes step in the same tick: at most 2380 ticks from a start angle in [0, 10).
- `Dice` (`dice.dfy`) is the `Dice` class with its fields `spin`, `showAnswer`
  and `axes`. Its `ReduceRotationAllAxes` method has the source's loop over the axes
  and is proved equal to `StepAll`.
- `Scenes` (`scene.dfy`) holds `DiceScene`: the result label, `SetResult`, the
  idempotent `ShowResult` and one frame of `render`. It also holds `StartRolling`.
- `D10` (`d10.dfy`) is the topology of the hand-built ten-sided die.
  It has 12 vertices in a list built by a loop, and the source's face list.
  The face list is proved to be two fans of ten triangles, with every index
  naming a vertex and no triangle repeating one.

Angles are Dafny `real`s. The axes x, y, z are the positions 0, 1, 2 of a
three-element sequence, visited in that order as the source's `for … in` does.

The minimum step is not a clamp on the magnitude of the step. The source raises
the signed `difference` itself to 0.005. So an axis at or below its target gets
the step 0.005 and the overshoot test sends it straight onto the target in one
tick. An axis above its target moves down by `max((axis - target) / 75, 0.005)`,
unless that would reach or pass the target, in which case it snaps onto it.
The model follows the code. `StepAxis` states the consequence: an axis snaps
exactly when it is at most 0.005 above its target (at or below it included).

## Model

| member | source | states |
|---|---|---|
| Rotation.FinalStates | main.js:24-55 | the resting orientation of each of the six shape kinds; every target angle lies in [-1.9, 1] |
| Rotation.StepAxis | main.js:92-100 | after one tick an axis is never below its target; it snaps onto the target exactly when it started at most 0.005 above it (or at or below it); otherwise it moves down by max((axis - target)/75, 0.005), so by at least 0.005; its distance to the target never grows |
| Rotation.StepAll | main.js:91-100 | each axis independently takes the one-axis step towards the target of the die's kind, and no axis ends below its target |
| Rotation.SettlesInOneTick | main.js:94-101 | one tick leaves every axis at its target exactly when every axis started at most 0.005 above its target |
| Rotation.CubeTicks | main.js:92-100 | a cube at (5, 5, 5) moves each axis by 5/75; near the target, an axis snaps, takes the minimum step 0.005, or takes a 75th of its distance, as its distance dictates |
| Rotation.AxisTicksDecrease | main.js:94-100 | every tick of an axis not at its target lowers its tick bound by at least one, because each non-snapping step removes at least 0.005; the bound never rises |
| Rotation.SettledIsFixedPoint | main.js:94-105 | a die with every axis at its target is left unchanged by a tick and is still settled |
| Rotation.TicksZeroIffSettled | main.js:101 | the tick bound is zero exactly when every axis is at its target |
| Rotation.TicksDecrease | main.js:91-101 | a tick of a die that has not settled lowers the die's tick bound |
| Rotation.StaysSettled | main.js:94-105 | once settled, any number of further ticks leaves the die where it is |
| Rotation.AxisSettlesWithin | main.js:91-100 | each axis reaches its target within its own tick bound, and is there at every later tick, whatever the other axes do |
| Rotation.SettlesWithin | main.js:89-106 | termination: after Ticks(kind, axes) ticks (the largest per-axis bound), or any number beyond, every axis is at its target |
| Rotation.InitialAxisTicks | main.js:8-10 | an axis starting in [0, 10) needs at most 2380 ticks, for every target in the table |
| Rotation.SettlesFromStart | main.js:7-11 | a die whose axes start in [0, 10), as after construction, is settled after 2380 ticks and at every later tick |
| Dice.Dice.constructor | main.js:2-11 | a new die has the given kind, spin = false, showAnswer = false, each axis in [0, 10) as drawn, and an unrotated mesh |
| Dice.Dice.UpdateElementRotation | main.js:83-87 | the mesh rotation equals the die's axes afterwards |
| Dice.Dice.ReduceRotationAllAxes | main.js:89-106 | the new axes are StepAll of the old axes; the mesh rotation is updated; showAnswer is true exactly when all three axes equal their targets, and spin is its negation |
| Scenes.DiceScene.constructor | main.js:140-165 | a new scene holds a fresh die at rest of its kind; its label shows the result and has the classes "text-result" and the kind's class, without "show-result" |
| Scenes.DiceScene.SetResult | main.js:190-193 | the stored result and the label text both become the new value |
| Scenes.DiceScene.ShowResult | main.js:195-200 | afterwards the label has the "show-result" class; already there, the class list is unchanged (idempotent); otherwise the class is appended once |
| Scenes.DiceScene.Render | main.js:202-210 | a spinning die takes exactly one tick of the settle rule and the label is untouched; a die at rest that has settled reveals the result without changing the die; otherwise nothing changes |
| Scenes.StartRolling | main.js:224-228 | every scene's die has spin = true afterwards, whatever its state; no die's axes, showAnswer or mesh rotation change |
| D10.TopFanShape | main.js:129 | the first line of faces joins ring vertices t + 1 and the next one round the ring to the top apex 11, for t = 0 … 9 |
| D10.BottomFanShape | main.js:130 | the second line of faces does the same with the bottom apex 0 |
| D10.FanWellFormed | main.js:128-131 | such a fan round either apex holds whole triangles, every index below the vertex count 12, no triangle repeating a vertex |
| D10.AppendWellFormed | main.js:128-131 | two well-formed face lists over the same vertices join into a well-formed list |
| D10.FacesWellFormed | main.js:128-131 | the face list has 60 indices (20 triangles), all below 12, with no degenerate triangle |
| D10.CreateVertices | main.js:120-126 | the vertex list has 12 vertices: the apex at height -1, ten ring vertices in order alternating at heights -0.105 and +0.105 (odd steps above), the apex at height +1 |
| D10.CreateD10 | main.js:119-134 | the geometry has the 12 vertices of the vertex list (bottom apex at -1, the ring in order at alternating heights, top apex at +1); its 60 face indices are the fan round the top apex followed by the fan round the bottom apex, a well-formed list of 20 triangles over those vertices; radius 500 and detail 0 |

## Left out

- All THREE.js work is left out: the `shapes` constructor table, `createGeometry`, `createDice`, `createCanvas`, `createScene`, `createCamera`, `createRenderer` and the `renderer.render` call. These are calls into a library whose code is not part of this model.
- The die's `color` is left out: it only feeds the mesh material.
- DOM work is left out: creating the canvas box and heading, ids, and appending to the parent. The result label is modelled only by the number it displays (`labelText`) and its class list (`labelClasses`).
- The `requestAnimationFrame` self-rescheduling in `render` is left out. `Render` is one frame, and repeated frames are reasoned about through `Iterate`.
- `Math.random` is left out. The three start angles are constructor parameters, required to lie in [0, 10).
- The cosine and sine of the ten-sided die's ring vertices are left out. A ring vertex records its position round the ring and its height. The source's flat array of 36 coordinates is a list of 12 vertices here.
- The mesh the die rotates is a ghost field, `elementRotation`, that `UpdateElementRotation` copies the axes into.
- IEEE floating-point rounding is left out: the angles are exact reals.
- The unused `speed` parameter of `reduceRotationAllAxes` is left out; the caller never passes it.
- The top-level script that builds the six scenes and starts their frame loops is left out. `StartRolling` takes the list of scenes as a parameter.
- `ShowResult` tests whether "show-result" is one of the label's classes. The source searches the whole class string for it as a substring, so a class such as "show-results" would also count there. The program never gives a label such a class, and the model does not capture that difference.
- `WellFormed` checks index ranges and non-degenerate triangles only. It does not check that the surface is closed or consistently wound. Both fans list each ring edge in the same direction (t + 1, then the next ring vertex), so the bottom fan's triangles wind the opposite way to the top fan's as seen from outside. The double-sided material hides this, and the model does not state it.
