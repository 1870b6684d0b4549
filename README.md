# Canvas controls of the strange-attractors viewer

This project models the interaction core of `js/canvas-control.js`: the code
that turns pointer, wheel and touch events on the page into pan, pinch-zoom and
twist updates of the 3-D view.

- **Pointer tracker.** The module-level state (`activePointers`,
  `pointerPositions`, the current and `last` mean pointer, spread and end-to-end
  vector, `skip1Frame`, `shouldRedraw`) is the class `CanvasControl.Controls`.
  The handlers `pointerdown`, `pointermove` and `pointerup` and the per-frame
  `panAndZoom` are methods that update its fields in place.
- **Gates.** The predicates that decide whether a press, a wheel step or a touch
  belongs to the page or to the canvas are pure functions in `Gating`. So is the
  wheel clamp `max(-0.2, deltaY / 600)`.
- **Aggregates.** The helpers `getMeanPointer`, `getPositionDiffs` and
  `getEndToEnd` are pure functions in `Gestures`. Beside them is a model of
  the order in which `Object.values` lists the stored positions. For the ids
  the model allows, that is ascending numeric id order.
- **View and model.** The view position `uViewPos` is modelled exactly: each
  zoom scales it by `1 + zoomAmount`. The model matrix is not computed. Each
  processed frame appends one `ModelRotation` to a log. The entry holds the pan
  axis and the two end-to-end vectors whose turn gives the twist angle.
- **DOM facts as inputs.** Facts the handlers read from the DOM are boolean
  parameters: the target lies inside `#ui-scroll`, the target is an
  `input`/`button`, or the geometry is under the pointer.
- **Spread and normalisation.** `getPointerSpread` and `v3norm` need square
  roots. The host passes them in as the functions `spreadOf` and `normalise`,
  which the class keeps as constants.

Numbers are exact reals and vectors are `Vectors.Vec3`.

`pointerdown` pushes the id onto `activePointers` unconditionally
(js/canvas-control.js:60). A second press of an id that is already active
therefore lists it twice, and `pointerup` removes both copies. `PressAndLift`
and `AddThenRemoveRestores` therefore require the id not to be active.

## Model

| member | source | states |
|---|---|---|
| Gating.PointerDownIgnored | js/canvas-control.js:51-52 | a press is left to the page exactly when its target is in the scrollable UI or is a control, the geometry is not under it, and no gesture is in progress; a press outside the UI and controls is never ignored |
| Gating.WheelZooms | js/canvas-control.js:136-146 | a wheel step is left to the page exactly when it is inside the scrollable UI and not over the geometry |
| Gating.TouchSuppressesDefault | js/canvas-control.js:161-164 | the touch default is suppressed exactly when a pointer-down under the same conditions would not be ignored |
| Gating.ZoomAmount | js/canvas-control.js:149 | the zoom amount is the larger of -0.2 and deltaY/600: at least both, and equal to one of them |
| Gating.ZoomFactor | js/canvas-control.js:149-152 | the scale factor is never below 0.8; it is 0.8 for deltaY at or below -120 and 1 + deltaY/600 above it |
| Gating.ZoomDirection | js/canvas-control.js:149-152 | positive deltaY moves the view away from the origin, negative moves it closer by at most a factor of 0.8, zero leaves it |
| Gestures.MeanPointerIsAverage | js/canvas-control.js:5 | the fold of v3add over the scaled positions is the sum of the positions divided by their count; an empty list gives the zero vector |
| Gestures.EndToEndTelescopes | js/canvas-control.js:7-8 | the summed consecutive differences telescope to last minus first; fewer than two positions give the zero vector |
| Gestures.DiffsTelescope | js/canvas-control.js:7-8 | folding the consecutive differences of a non-empty list onto any start adds last minus first to it |
| Gestures.SumFromShift | js/canvas-control.js:8 | a v3add fold from any start is that start plus the fold from v3zero |
| Gestures.ScaledSumFromIsScaledSum | js/canvas-control.js:5 | folding scaled vectors onto a start adds the scaled sum of the vectors |
| Gestures.AscendingKeys | js/canvas-control.js:38 | the listing of the stored ids has one entry per id |
| Gestures.AscendingKeysMembers | js/canvas-control.js:38 | the listing holds exactly the stored ids |
| Gestures.AscendingKeysSorted | js/canvas-control.js:38 | the listing is strictly ascending, as `Object.values` orders integer keys |
| Gestures.LeastExists | js/canvas-control.js:38 | every non-empty set of ids has a least element, so the ascending listing is well defined |
| Gestures.ObjectValues | js/canvas-control.js:38 | `Object.values(pointerPositions)` lists one position per stored pointer |
| Gestures.SortedEnds | js/canvas-control.js:38 | in a strictly ascending id listing containing the least id lo and the greatest id hi, lo comes first and hi comes last |
| Gestures.EndToEndOfObjectValues | js/canvas-control.js:38-43 | the end-to-end vector of the stored positions runs from the pointer with the lowest id to the one with the highest id, whatever the press order |
| Gestures.Without | js/canvas-control.js:84 | filtering out an id keeps exactly the other ids |
| Gestures.WithoutCounts | js/canvas-control.js:84 | the filter removes every copy of the id and keeps every other id as often as before |
| Gestures.WithoutConcat | js/canvas-control.js:84 | filtering distributes over concatenation |
| Gestures.WithoutAbsent | js/canvas-control.js:83-84 | filtering out an id that is absent changes nothing |
| Gestures.AddThenRemoveRestores | js/canvas-control.js:59-60 | pushing an absent id with a position and then filtering and deleting it restores both the list and the map |
| CanvasControl.PanAxis | js/canvas-control.js:107-108 | the pan axis lies in the screen plane |
| CanvasControl.PanAxisIsCross | js/canvas-control.js:108 | the pan axis is the cross product of (0,0,1) with the centroid's movement, perpendicular to it and as long as its in-plane part |
| CanvasControl.SpinAmountProperties | js/canvas-control.js:118 | the twist is zero when the end-to-end vector keeps its direction and changes sign when the two vectors swap |
| CanvasControl.PinchZoomDirection | js/canvas-control.js:115 | spreading the fingers zooms in (factor below 1), closing them zooms out (factor above 1) |
| CanvasControl.ZoomStaysOnRay | js/canvas-control.js:148-152 | one zoom step scales the view position by a positive factor and keeps at least 0.8 of its distance from the origin |
| CanvasControl.Controls.constructor | js/canvas-control.js:11-20 | the initial state: no pointers, zero signals, no skip, no redraw |
| CanvasControl.Controls.SetPointerMeanAndSpread | js/canvas-control.js:35-44 | the mean, spread and normalised end-to-end vector become those of the stored positions in `Object.values` order |
| CanvasControl.Controls.PointerDown | js/canvas-control.js:47-68 | a press is handled exactly when the gate does not ignore it; a press on the UI or a control, away from the geometry, with no active pointer is not handled and changes nothing; a handled one stores (pageX, -pageY, 0), appends the id, refreshes the aggregates and sets the skip flag; stored ids stay those of the active list |
| CanvasControl.Controls.PointerMove | js/canvas-control.js:70-78 | only an active pointer's position is overwritten; nothing else changes |
| CanvasControl.Controls.PointerUp | js/canvas-control.js:80-90 | every copy of the id leaves the active list, its position is deleted, and the skip flag is set even when the id was not active |
| CanvasControl.Controls.Wheel | js/canvas-control.js:133-157 | the step zooms exactly when the gate lets it; then the view position is scaled by the clamped factor and a redraw is requested; otherwise nothing changes |
| CanvasControl.Controls.TouchMove | js/canvas-control.js:159-165 | the default is suppressed exactly when a press there would not be ignored |
| CanvasControl.Controls.PanAndZoom | js/canvas-control.js:92-131 | with no active pointer nothing changes; otherwise the aggregates are refreshed and rolled into the `last` ones and the skip flag cleared; a skipped frame leaves view, model and redraw flag; a processed frame zooms by the spread change times 2.4, logs the pan axis and twist, and requests a redraw |
| CanvasControl.Controls.ApplyGesture | js/canvas-control.js:101-124 | a processed frame: synthetic wheel zoom by (lastSpread - spread) * 2.4, one model rotation logged, redraw requested |
| CanvasControl.Controls.RollSignals | js/canvas-control.js:126-130 | the current signals become the `last` ones and the skip flag is cleared |
| CanvasControl.PressAndLift | js/canvas-control.js:47-90 | pressing and lifting a pointer that was not active restores the active list and the positions, leaves the view, model and redraw flag, and leaves the next frame skipped |
| CanvasControl.TapOnIdleCanvas | js/canvas-control.js:47-95 | a tap on an idle canvas followed by a frame leaves no pointer tracked and neither moves the view nor rotates the model |

## Left out

- DOM plumbing: registering the listeners, `preventDefault`, `document.activeElement.blur()`. The handlers instead return whether the default is suppressed. `pointerleave` is bound to the same handler as `pointerup` and `touchstart` to `touchmove`.
- `getAlphaAtLocation`, `dpr`, `uiScrollElement.contains` and `interactiveUIElements.includes`: these are reads of the rendered canvas and the document, so each is a boolean parameter of the handler. This includes the point `touches[0]` at which `touchOverGeometry` samples the canvas, which is `TouchMove`'s `overGeometry` parameter.
- `getPointerSpread` and `v3norm`: they need square roots, so they are the host-supplied functions `spreadOf` and `normalise`. The model ties the stored signals to them but proves nothing about their values.
- The matrix library (`mat4.transpose`, `vec3.transformMat4`, `mat4.rotate`, `mat4.lookAt`): the model does not compute `uModelMatrix` or `uViewMatrix`. Each processed frame appends its pan axis and twist vectors to `modelRotations`. The rotation angles, `|axis|/150` and `Spin()`, are not applied to any matrix.
- Floating point: all arithmetic is on exact reals, so rounding in the mean, the division by 600 and the scaling is not modelled.
- Negative pointer ids: a JavaScript object lists them in insertion order after the integer keys. `PointerId` admits only the non-negative 32-bit ids, for which the order is ascending.
- Clearing `shouldRedraw` and calling `panAndZoom` every frame belong to the render loop, which is not part of this model.
- `furthestLeft`, `clipSpaceBBox` and `clipSpaceBpoints` (js/canvas-control.js:22-24) are declared but unused here.
