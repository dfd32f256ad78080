# RSScrollView scrolling geometry, in Dafny

RSScrollView is a hand-rolled scroll view for UIKit. The user drags the content, and the
content follows the finger. Past an edge, the overshoot is damped by a rubber-band factor
of 0.3. On release, the content coasts with the fling velocity. If it leaves the valid
range, a spring pulls it back to the nearest valid origin. The spring is removed once the
content is within 2 points of that origin, and the bounds land exactly on it.

This project models that core:

- `Geometry`: points and sizes with `CGFloat` as `real`. It holds `constrainValue` (clamp
  into `[0, dimension - bound]`), `rubberValue` / `rubberOrigin` (clamp plus 0.3 of the
  overshoot) and `constraintXValue` / `constraintYValue`.
- `Spring`: `calculateSpring`, which decides whether the simulated item is out of range and
  where to anchor the spring, and `needToStopOscillation`, the distance test that ends the
  snap.
- `ScrollViews`: the view as the class `ScrollView`. Its fields are the content size, the bounds size and
  origin, the two-bit scroll-axis mask (a `UInt8`, here `bv8`), the drag-start snapshot, the
  simulated item's centre, whether a spring attachment exists, and which animator
  behaviours are installed. The `contentSize` setter, `updateByState` and the `onTap`
  phases are methods. The physics engine's two action closures are `CoastTick` and
  `SnapTick`. Each receives the item position the engine produced as an argument.

## Notes on the code's behaviour

- During a drag the code rubber-bands first and masks disabled axes second
  (RSScrollView.swift:90-91). `MaskCommutesWithRubber` shows that masking first gives the
  same origin whenever the mask agrees with the sizes.
- A release always installs the coasting behaviour, even with zero velocity
  (RSScrollView.swift:93-130). There is no shortcut straight to idle.
- The axis mask is recomputed only by the `contentSize` setter (RSScrollView.swift:23-38).
  A later change of the viewport size by layout leaves it as it was.
- The spring resolver measures the item relative to the middle of the range, with half-bound
  `max((d - b)/2, 0)` (RSScrollView.swift:166-171). Over the reals its anchor is exactly the
  per-axis clamp of the item's position into `[0, d - b]`, which `CalculateSpring` states.

## Model

| member | source | states |
|---|---|---|
| Geometry.ConstrainValue | RSScrollView/RSScrollView/RSScrollView.swift:150-152 | The result lies in `[0, max(0, d - b)]` for every input. It is the identity on the valid range. It is 0 when `d <= b` or the value is negative, and the upper edge when the value is past it. |
| Geometry.RubberValue | RSScrollView/RSScrollView/RSScrollView.swift:158-162 | The identity inside the range. Outside, the result lies strictly between the raw value and its clamp. It clamps to the same edge as the raw value. |
| Geometry.RubberScalesOvershoot | RSScrollView/RSScrollView/RSScrollView.swift:158-162 | The rubber-banded value's distance from the valid range is exactly 0.3 times the raw value's distance. |
| Geometry.RubberMonotone | RSScrollView/RSScrollView/RSScrollView.swift:158-162 | Rubber-banding is strictly increasing in the raw value. |
| Geometry.ConstrainOrigin | RSScrollView/RSScrollView/RSScrollView.swift:142-148 | Pairs `ConstraintXValue` and `ConstraintYValue` (`constraintXValue` / `constraintYValue`). Each axis, clamped against the content and viewport extents on that axis, lies in that axis's valid range. |
| Geometry.RubberOrigin | RSScrollView/RSScrollView/RSScrollView.swift:154-156 | Rubber-banding both axes leaves a valid origin unchanged. It never changes which valid origin the point clamps to. |
| Spring.HalfBound | RSScrollView/RSScrollView/RSScrollView.swift:166-167 | The half-bound is non-negative. Twice it is the length of the valid range. |
| Spring.CalculateSpring | RSScrollView/RSScrollView/RSScrollView.swift:165-177 | Reports "no snap" exactly when `0 <= c <= 2h` on both axes, and then returns the zero point. Otherwise the anchor is the per-axis clamp of the centre. |
| Spring.SpringInBoundsIffValid | RSScrollView/RSScrollView/RSScrollView.swift:171-173 | "No snap" holds exactly for points that clamping leaves in place. |
| Spring.AnchorIsAtRest | RSScrollView/RSScrollView/RSScrollView.swift:174-176 | Resolving an anchor again reports that no snap is needed. |
| Spring.AnchorIsNearest | RSScrollView/RSScrollView/RSScrollView.swift:174-176 | No valid origin is closer to the centre, on either axis, than the anchor. |
| Spring.NeedToStopOscillation | RSScrollView/RSScrollView/RSScrollView.swift:137-139 | Stopping implies both axis distances are below 2. Both axis distances at most 1 implies stopping. |
| Spring.StopMatchesEuclideanDistance | RSScrollView/RSScrollView/RSScrollView.swift:137-139 | The squared-distance test agrees with the test on the non-negative square root, `sqrt(dx² + dy²) < 2`. |
| ScrollViews.ScrollView.constructor | RSScrollView/RSScrollView/RSScrollView.swift:22-45 | Every field starts at its declared initial value: zero content size, empty mask, zero origins, no attachment, no simulation. For a non-negative frame the mask is consistent with the sizes. |
| ScrollViews.ScrollView.SetContentSize | RSScrollView/RSScrollView/RSScrollView.swift:23-38 | The getter then returns the new size. The horizontal bit is set iff width exceeds the viewport width, the vertical bit iff height exceeds the viewport height, and no other bit is set. Bounds, snapshot, item, attachment and simulation are unchanged, so the anchor invariant `Valid()` is kept. |
| ScrollViews.ScrollView.UpdateByState | RSScrollView/RSScrollView/RSScrollView.swift:68-75 | `x` becomes 0 iff the horizontal bit is clear, `y` iff the vertical bit is clear. Every other component is kept. The result equals `Masked`, the mask that the drag and fling contracts use. |
| ScrollViews.ScrollView.DragBegan | RSScrollView/RSScrollView/RSScrollView.swift:83-86 | The snapshot becomes the bounds origin and the bounds are unchanged. The simulation is cancelled and the attachment cleared. |
| ScrollViews.ScrollView.DragChanged | RSScrollView/RSScrollView/RSScrollView.swift:87-92 | The bounds origin becomes the masked rubber-banded `origin - translation`, so a disabled axis ends at 0. The bounds size and the snapshot are unchanged. |
| ScrollViews.ScrollView.DragEnded | RSScrollView/RSScrollView/RSScrollView.swift:93-101 | The item starts at the bounds origin. It coasts with the negated gesture velocity, disabled axes zeroed. The bounds are unchanged. |
| ScrollViews.ScrollView.CoastTick | RSScrollView/RSScrollView/RSScrollView.swift:103-129 | The first out-of-range tick attaches a spring at the anchor, which is the clamp of the item centre, with push `centre - anchor`; the bounds stay. Every other tick moves the bounds to the item centre. |
| ScrollViews.ScrollView.SnapTick | RSScrollView/RSScrollView/RSScrollView.swift:114-121 | The bounds follow the item. Once it is within the oscillation limit of the anchor, the simulation is removed and the bounds equal the anchor, a non-negative origin. |
| ScrollViews.MaskCommutesWithRubber | RSScrollView/RSScrollView/RSScrollView.swift:87-92 | With a mask consistent with the sizes, masking after rubber-banding equals masking before it. |
| ScrollViews.DragFollowsFinger | RSScrollView/RSScrollView/RSScrollView.swift:87-92 | On each enabled axis, horizontal and vertical, a larger translation on that axis gives a strictly smaller bounds origin on it, even past an edge. |

## Left out

- The physics engine (`UIDynamicAnimator`): the coasting resistance of 1.5, the attachment spring (length 0, frequency 2.0, damping 1.0) and the push impulse's dynamics are a foreign, frame-driven numeric integration. The model takes each position the engine produces as the `center` argument of `CoastTick` and `SnapTick`.
- SnapTick: does not prove that the snap converges, which depends on the engine's integration.
- CoastTick: requires the coasting behaviour to be installed, and SnapTick the spring, because the animator only runs the action of an installed behaviour.
- DragEnded: replaces whatever simulation was installed. In the view, a release always follows a pan begin, which has already removed every behaviour.
- Gesture-recognizer plumbing and the initializers (`initializeView`, `init(frame:)`, `init(coder:)`). The constructor only sets the declared initial field values and the frame's size.
- The `default` branch of the gesture switch: other recognizer states change nothing and have no method.
- The `contentSize` getter is the `contentSize` field itself.
- `RSScrollOriginItem`'s `bounds` and `transform`: only its `center` is modelled.
- `sqrt` and `pow`: the distance test compares squared distance with `2.0 * 2.0`. `StopMatchesEuclideanDistance` relates it to the square root.
- IEEE `CGFloat` rounding, infinities and NaN: coordinates are mathematical reals.
- Changes of the viewport size by layout: no method changes `boundsSize`, because the code only writes the bounds origin.
- The demo controller `RSScrollViewTest/RSScrollViewTest/ViewController.swift` is UI glue and is not part of this model.
