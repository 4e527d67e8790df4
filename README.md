# Wheel-picker knot tables and the directional modal transition

This project models two small pieces of animation logic from the react-native-uiw widget library. Both are written in Dafny and proved.

- **Wheel-picker item** (`packages/core/src/Picker/components/WheelPicker/WheelPickerItem.tsx`, module `WheelPickerItem`). Each item of a wheel picker builds one input knot array and three output arrays: opacity, scale and rotation in degrees. It builds them before it interpolates its distance from the selected index. Each array starts from a centre element. A loop then unshifts one value and pushes one value per step, for `i = 1 .. visibleRest + 1`. The model has:
  - the three curve functions, on exact `real`s;
  - the recursive functions `Knots` and `Table`, which give the arrays after `n` steps;
  - the loop methods, each proved equal to one of those functions;
  - lemmas giving the element formulas, monotonicity, palindromes, centre values and the degenerate case.

  The `memo` comparator is modelled as a function. `MemoizedItem` is the memoised item, which keeps the props it last rendered with.
- **Modal** (`packages/core/src/Modal/index.tsx`, module `Modal`). The overlay slides in from one edge, chosen by its `placement`. The model has:
  - `TransformSize` (`getTransformSize`) and the axis tests;
  - the visibility effect on values: `PlanEffect` picks the branch and `ApplyTransition` applies it to the two channels;
  - a write-once layout capture, `Capture`.

  The class `ModalState` holds what one mounted instance keeps: the two layout extents, the translation and opacity channels (current value and target) and the dependencies the effect last ran with. Its methods are the `onLayout` handler, the effect body and a render commit. The commit runs the effect only when a dependency changed. There is also one animation frame. The spring and timing animations are abstracted as "set the target". The frame is a step toward the target by at most a given rate that never passes it. This is how a spring with `overshootClamping: true` behaves.

  `BottomSheetScenario` is a worked example: a bottom sheet 300 high is measured, opened, settled, measured again (the second measurement is ignored), closed and settled.

Notes on behaviour that the model follows from the code:

- The rotation table is symmetric (`[40, 20, 0, 20, 40]` degrees for `visibleRest = 1`). `rotationFunction` keeps the sign of its argument, but the loop passes it the positive `x` and inserts the same `y` on both sides. `RotationTableSymmetric` proves that every element left of the centre is the negation of `rotationFunction` at its knot.
- A negative `visibleRest` is not clamped to 0. For `visibleRest <= -1` no loop iterates and every array is its centre element alone (`NoNeighbours`). For `visibleRest = 0` there are three knots.
- Every open snaps the translation to the offset, not only the first one. A re-open that happens while a close is still animating also jumps back to the off-screen offset (`EffectBranches`).
- For ten or more knots per side (`visibleRest >= 9`), the outermost scale knots are zero or negative (`ScaleTablePositiveIff`).

## Model

| member | source | states |
|---|---|---|
| `WheelPickerItem.OpacityOf` | packages/core/src/Picker/components/WheelPicker/WheelPickerItem.tsx:7 | opacity lies in (0, 1] and is 1 exactly at distance 0 |
| `WheelPickerItem.ScaleOf` | packages/core/src/Picker/components/WheelPicker/WheelPickerItem.tsx:8 | scale is at most 1 and is 1 exactly at distance 0 |
| `WheelPickerItem.RotationOf` | packages/core/src/Picker/components/WheelPicker/WheelPickerItem.tsx:9 | rotation has the sign of its argument |
| `WheelPickerItem.Centre` | packages/core/src/Picker/components/WheelPicker/WheelPickerItem.tsx:21-35 | the literal each output array starts from equals its curve at distance 0 |
| `WheelPickerItem.Iterations` | packages/core/src/Picker/components/WheelPicker/WheelPickerItem.tsx:16 | the loop guard `i <= visibleRest + 1` holds at the last step taken (when there is one) and fails at the step after it |
| `WheelPickerItem.Knots` | packages/core/src/Picker/components/WheelPicker/WheelPickerItem.tsx:15-19 | after n loop steps the input range has 2n+1 knots |
| `WheelPickerItem.Table` | packages/core/src/Picker/components/WheelPicker/WheelPickerItem.tsx:21-40 | after n loop steps an output range has 2n+1 elements |
| `WheelPickerItem.KnotAt` | packages/core/src/Picker/components/WheelPicker/WheelPickerItem.tsx:15-19 | knot k of the input range is k - n |
| `WheelPickerItem.TableAt` | packages/core/src/Picker/components/WheelPicker/WheelPickerItem.tsx:21-40 | element k of an output range is the curve at abs(k - n) |
| `WheelPickerItem.KnotsShape` | packages/core/src/Picker/components/WheelPicker/WheelPickerItem.tsx:15-19 | the input range is exactly -n .. n: strictly increasing, first -n, last n, symmetric about 0 |
| `WheelPickerItem.TableMatchesKnots` | packages/core/src/Picker/components/WheelPicker/WheelPickerItem.tsx:15-40 | every output range is as long as the input range, and each knot's output is the curve at the knot's absolute value |
| `WheelPickerItem.TablePalindrome` | packages/core/src/Picker/components/WheelPicker/WheelPickerItem.tsx:21-40 | every output range is a palindrome whose middle element is the centre literal |
| `WheelPickerItem.CentreValues` | packages/core/src/Picker/components/WheelPicker/WheelPickerItem.tsx:21-35 | the middle elements are opacity 1, scale 1.0 and rotation 0 |
| `WheelPickerItem.OpacityFalls` | packages/core/src/Picker/components/WheelPicker/WheelPickerItem.tsx:7 | opacity falls strictly as the distance grows |
| `WheelPickerItem.OpacityTableFades` | packages/core/src/Picker/components/WheelPicker/WheelPickerItem.tsx:7-26 | the opacity range lies in (0, 1] and falls strictly from the centre outward on both sides |
| `WheelPickerItem.ScaleTableShrinks` | packages/core/src/Picker/components/WheelPicker/WheelPickerItem.tsx:8-33 | element k of the scale range is 1 - 0.1 times the knot's absolute value, falling strictly from the centre outward |
| `WheelPickerItem.ScaleTablePositiveIff` | packages/core/src/Picker/components/WheelPicker/WheelPickerItem.tsx:8-33 | every scale knot is positive if and only if fewer than ten knots lie on each side |
| `WheelPickerItem.RotationTableSymmetric` | packages/core/src/Picker/components/WheelPicker/WheelPickerItem.tsx:9-40 | element k of the rotation range is 20 times the knot's absolute value; left of the centre that is minus the rotation function of the knot |
| `WheelPickerItem.NoNeighbours` | packages/core/src/Picker/components/WheelPicker/WheelPickerItem.tsx:15-40 | for visibleRest <= -1 every range is its single centre element |
| `WheelPickerItem.OneNeighbourTables` | packages/core/src/Picker/components/WheelPicker/WheelPickerItem.tsx:15-40 | for visibleRest = 1 the ranges are [-2..2], [1/3, 1/2, 1, 1/2, 1/3], [0.8, 0.9, 1, 0.9, 0.8] and [40, 20, 0, 20, 40] |
| `WheelPickerItem.BuildInputRange` | packages/core/src/Picker/components/WheelPicker/WheelPickerItem.tsx:15-19 | the unshift/push loop yields the knots -n .. n, with n = max(0, visibleRest + 1) |
| `WheelPickerItem.BuildOutputRange` | packages/core/src/Picker/components/WheelPicker/WheelPickerItem.tsx:21-40 | each output loop yields the table whose element k is the curve at abs(k - n) |
| `WheelPickerItem.BuildRanges` | packages/core/src/Picker/components/WheelPicker/WheelPickerItem.tsx:15-40 | the four ranges have one common length 2n+1, the input range strictly increases, and each output is its curve at the knot's absolute value |
| `WheelPickerItem.PropsAreEqual` | packages/core/src/Picker/components/WheelPicker/WheelPickerItem.tsx:52-54 | the re-render is skipped exactly when the next props differ from the previous ones at most in index, current index, visibleRest, height, style and textStyle |
| `WheelPickerItem.MemoKeyIsOption` | packages/core/src/Picker/components/WheelPicker/WheelPickerItem.tsx:52-54 | the re-render is skipped exactly when the option is the same object; index, current index, visibleRest, height, style and textStyle never matter |
| `WheelPickerItem.MemoizedItem.constructor` | packages/core/src/Picker/components/WheelPicker/WheelPickerItem.tsx:52 | a fresh item has rendered once, with its initial props |
| `WheelPickerItem.MemoizedItem.Receive` | packages/core/src/Picker/components/WheelPicker/WheelPickerItem.tsx:52-54 | equal props keep the old rendering and render count; different props re-render once; either way the rendered option is the latest option |
| `Modal.PlacementOrDefault` | packages/core/src/Modal/index.tsx:17 | the placement is 'bottom' when not given |
| `Modal.DefaultPlacementIsBottom` | packages/core/src/Modal/index.tsx:17-41 | without a placement the overlay is vertical, not horizontal, its offset is +height and the translation is bound to translateY alone |
| `Modal.IsVertical` | packages/core/src/Modal/index.tsx:23 | the anchored pattern accepts exactly 'top' and 'bottom', so a vertical placement is never left or right |
| `Modal.IsHorizontal` | packages/core/src/Modal/index.tsx:24 | the anchored pattern accepts exactly 'left' and 'right', so a horizontal placement is never top or bottom |
| `Modal.AxisIsExclusive` | packages/core/src/Modal/index.tsx:23-24 | exactly one axis test holds for each of the four placements; neither holds for any other string |
| `Modal.BindTranslate` | packages/core/src/Modal/index.tsx:75-84 | the translation is bound to translateY exactly for top/bottom and to translateX exactly for left/right, never both |
| `Modal.TransformSize` | packages/core/src/Modal/index.tsx:27-41 | top gives -height, bottom height, left -width, right width, anything else 0; its magnitude is the extent of the placement's axis |
| `Modal.PlanEffect` | packages/core/src/Modal/index.tsx:42-72 | the effect skips exactly when the axis extent is 0; otherwise exactly one of open (visible) and close (not visible) runs, with the offset |
| `Modal.ApplyTransition` | packages/core/src/Modal/index.tsx:44-71 | the effect never writes the opacity value, only its target; skip changes nothing; open snaps the translation to the offset and targets 0 and opacity 1; close keeps the translation and targets the offset and opacity 0 |
| `Modal.UnmeasuredEffectIsNoOp` | packages/core/src/Modal/index.tsx:42-43 | before any extent is measured, the effect changes neither channel |
| `Modal.EffectBranches` | packages/core/src/Modal/index.tsx:44-71 | open snaps the translation to the offset and targets translation 0 and opacity 1; close leaves the translation and targets the offset and opacity 0 |
| `Modal.LatestIntentWins` | packages/core/src/Modal/index.tsx:44-73 | a later effect run retargets both channels regardless of the earlier one |
| `Modal.EffectKeepsChannelsWithin` | packages/core/src/Modal/index.tsx:42-72 | the effect keeps the opacity in [0, 1], its target 0 or 1, and the translation and its target within the measured extents |
| `Modal.StepToward` | packages/core/src/Modal/index.tsx:52-65 | one animation step stays between the value and the target, and shrinks the distance by the rate or to zero |
| `Modal.FrameStep` | packages/core/src/Modal/index.tsx:46-71 | one frame moves each channel toward its target without passing it and leaves the targets alone |
| `Modal.AnimateNeverOvershoots` | packages/core/src/Modal/index.tsx:52-65 | over any number of frames neither channel leaves the segment from its start to its target |
| `Modal.AnimateSettles` | packages/core/src/Modal/index.tsx:46-71 | enough frames at positive rates bring both channels exactly to their targets |
| `Modal.TransitionEndStates` | packages/core/src/Modal/index.tsx:44-71 | a settled open is at translation 0 and opacity 1; a settled close is at the offset and opacity 0 |
| `Modal.Capture` | packages/core/src/Modal/index.tsx:94-99 | a layout report changes an extent only while the extent is 0 and the axis matches, and then sets it to the report |
| `Modal.FirstNonZeroReportWins` | packages/core/src/Modal/index.tsx:94-99 | over a series of reports on the placement's axis, the captured extent is the first non-zero report |
| `Modal.CapturedExtentIsFinal` | packages/core/src/Modal/index.tsx:94-99 | once non-zero, or on the other axis, an extent is never changed by later reports |
| `Modal.ModalState.constructor` | packages/core/src/Modal/index.tsx:19-22 | on mount both extents and both animated values are 0 |
| `Modal.ModalState.OnLayout` | packages/core/src/Modal/index.tsx:92-100 | each extent is captured write-once and only for the matching axis; the channel invariant is kept |
| `Modal.ModalState.Effect` | packages/core/src/Modal/index.tsx:26-72 | the channels become the planned transition applied to the old channels |
| `Modal.ModalState.Commit` | packages/core/src/Modal/index.tsx:26-73 | the effect runs exactly when visible, the extents or the placement differ from the last run |
| `Modal.ModalState.Frame` | packages/core/src/Modal/index.tsx:46-71 | one animation frame of both channels, keeping the channel invariant |

## Left out

- The evaluation of `Animated.interpolate` (WheelPickerItem.tsx:42-44) is a call into the host animation library. The model builds the knot tables but does not evaluate the piecewise-linear interpolation or any extrapolation.
- Spring physics, timing durations and the frame clock are host-library numerics. A frame is modelled as an abstract step of a given rate that never passes the target. The opacity animation has duration 0 and settles in practice at once. The model allows any non-negative rate for it.
- `onClosed` is only forwarded to the backdrop layer as its dismiss callback. It is not tied to the end of the close animation, and the backdrop layer is not part of this model.
- The JSX tree, `StyleSheet`, `Dimensions`, theme colours, the item's label text and the `useMemo` dependency list of the modal's child are rendering details. They are left out.
- The `${y}deg` strings of the rotation range are modelled as numbers of degrees.
- JavaScript floating point is left out. The divisions and `0.1 * |x|` are exact `real` arithmetic.
- `visibleRest` is modelled as an integer. A fractional `visibleRest` would run `max(0, floor(visibleRest + 1))` steps, and that case is not modelled.
- A `NaN` extent or offset is left out. JavaScript treats `NaN` as falsy, so the write-once test and the skip test would both treat it like 0.
- React state updates are applied at once in the model. In React, the `onLayout` closure sees the extents of the last render, so two layout events before a re-render both see 0 and the later one wins.
- `MemoizedItem.Receive` compares only the props, as the comparator does. React's handling of `ref` and context changes is not modelled.
- The `visible` prop may be `undefined`. The model takes a boolean, and `undefined` takes the close branch like `false`.
