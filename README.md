# ScalableContainer in Dafny

`ScalableContainer` is a pinch-zoom and pan engine for a content element inside a
fixed frame. One mutable record holds the scale, the translate, the transform
origin, the last contact sample, the double-tap and wheel timing, and the zoom
animation's state. The handlers for touch, mouse, wheel and animation frames
update that record in place. Some of them end by clamping the placement:
content that fits the frame is centred, and content larger than the frame is
pushed back so that no gap shows at an edge. The clamp runs at construction, on
every touchmove against a baseline (and so on mouse drags), on every animation
frame after the first, and when a gesture settles from below `minScale`. The
wheel and touchstart handlers, a touchend with contacts left, the mouse release
and the first animation frame do not clamp.

The project has these modules:

- `Basics`: `Option`, `Min`, `Max` (the source's `Math.min` and `Math.max`).
- `Geometry`: contact distance, midpoint, the viewport-to-content mapping of
  `getTransformOrigin`, the rendered edge under a CSS `translate(..) scale(..)` with
  a transform origin, and the `adjustTranslates` compensation.
- `PointerTracker`: the pan delta of `moveDistance` and the pinch ratio of `moveScale`,
  plus lemmas about runs of events.
- `GestureClassifier`: double-tap detection, the zoom targets for double tap and
  wheel, and wheel throttling.
- `ZoomAnimator`: the per-frame interpolation of `runScaleAnimation` and its
  convergence over a run of frames.
- `BoundaryClamp`: the drawn-scale clamp of `render` and the per-axis clamp of
  `finishRender`.
- `Container`: the class `ScalableContainer`. Its fields are the source's fields
  and its methods are the handlers. Each method is specified against the
  functions above, and the class invariant `Valid` is kept by every method.
- `Scenarios`: worked interactions (construction options, initial centring, wheel zoom and
  throttling, double-tap timing, a complete animation, the settle after a gesture). Each one
  is derived from the handlers' contracts alone.

Page reads become parameters:
- `ContentRect` is the content's bounding rectangle that `getTransformOrigin` and
  `adjustTranslates` read.
- `Layout` is the frame rectangle and content offset that `finishRender` reads.
- `now` stands for `Date.now()`, and `t` for an animation-frame timestamp.
- `dist` stands for a contact distance, constrained by `IsDistance`: it is
  non-negative and its square is the squared distance.

The pending animation-frame callback is represented by the field
`scaleAnimationRunning` (pending exactly while it holds) and by `animationTarget`,
the target the callback captured. The environment delivers the frame by calling
`RunScaleAnimation`.

Where the code and its intended design differ, the model follows the code:
- A wheel event with `deltaY == 0` is not a no-op. It requests a zoom to scale 1.
- `finishRender` centres fitting content using the natural size, with the
  origin at the content's centre. `CenteredPlacementIsCentered` proves that this
  centres the drawn content at every scale.
- `render` clamps the scale only for its first style write. `finishRender` then
  rewrites the transform with the stored, unclamped scale. So the final drawn
  scale is not clamped. The stored scale is raised to `minScale` only by
  `renderAfterTouchend`, and capped at `maxScale` only by the animation frames
  of `runScaleAnimation`; a pinch can take it outside both bounds.
- `moveScale` does not guard against a stored contact distance of 0. The model
  requires it to be non-zero on the pinch branch.
- `adjustTranslates` uses the height ratio on both axes. On the vertical axis
  this keeps the content in place (`CompensationKeepsTopEdge`). On the horizontal
  axis it does so only when the origin did not move horizontally, the scale is 1,
  or the content is square (`CompensationKeepsLeftEdgeIff`).
- A mouse press is routed through `handleTouchmove`, not `handleTouchstart`.
  A mouse release goes through `handleTouchend` with one contact, so a mouse
  drag never settles a scale below `minScale` (`Scenarios.SettleBelowMinimum`).

## Model

| member | source | states |
|---|---|---|
| Geometry.SquaredDistance | src/scalable-container.ts:138-141 | the value under `Math.sqrt` is the sum of the squared coordinate differences and is non-negative |
| Geometry.DistanceUnique | src/scalable-container.ts:138-141 | any two values that satisfy `IsDistance` for the same contacts are equal, so `dist` determines one contact distance |
| Geometry.DistanceZeroIff | src/scalable-container.ts:138-141 | the contact distance is 0 exactly when the two contacts coincide |
| Geometry.MidPoint | src/scalable-container.ts:144-149 | the midpoint is equally far from both contacts, at half their distance |
| Geometry.ToContentOrigin | src/scalable-container.ts:151-157 | the content-space origin computed for a viewport point maps back to that viewport point under the current scale and content position |
| Geometry.CompensationKeepsTopEdge | src/scalable-container.ts:178-183 | after moving the origin and adding the vertical compensation, the content's top edge is drawn where it was |
| Geometry.CompensationKeepsLeftEdgeIff | src/scalable-container.ts:178-183 | after the horizontal compensation the left edge is drawn where it was if and only if the origin did not move horizontally, the scale is 1, or width equals height |
| PointerTracker.PanDeltaOfRigidMove | src/scalable-container.ts:119-136 | when every contact moves by the same vector, with one contact or several, the pan delta is exactly that vector |
| PointerTracker.PanDeltaAntisymmetric | src/scalable-container.ts:119-136 | the pan from sample a to b and from b back to a cancel on both axes |
| PointerTracker.PinchScalePositive | src/scalable-container.ts:169-176 | a pinch step with positive distances keeps the scale positive |
| PointerTracker.PinchRunTelescopes | src/scalable-container.ts:169-176 | a run of pinch events scales by the ratio of the last contact distance to the first, whatever the intermediate distances |
| GestureClassifier.ZoomInTargetBounds | src/scalable-container.ts:199-200 | the zoom-in target lies between the scale and `maxScale` and is either twice the scale or `maxScale` |
| GestureClassifier.ZoomOutUndoesZoomIn | src/scalable-container.ts:199-203 | zooming out after a zoom in that was not capped returns the original scale |
| GestureClassifier.ZoomInUndoesZoomOut | src/scalable-container.ts:199-203 | zooming in after a zoom out that was not floored returns the original scale |
| GestureClassifier.WheelTargetWithinBounds | src/scalable-container.ts:197-203 | for a non-zero `deltaY` the wheel target lies within `[minScale, maxScale]`; scrolling up does not shrink and scrolling down does not grow |
| GestureClassifier.HonouredWheelEventsSpaced | src/scalable-container.ts:186-207 | the first honoured wheel event is at least the throttling time after the last effect, and consecutive honoured events are at least that far apart |
| GestureClassifier.CloseWheelEventsHonourAtMostOne | src/scalable-container.ts:186-207 | of two wheel events closer than the throttling time, at most one takes effect |
| ZoomAnimator.AnimationStepBounds | src/scalable-container.ts:392-393 | a frame's scale never exceeds `maxScale`, and when the target is within `maxScale` it lies between the current scale and the target |
| ZoomAnimator.AnimationStepPositive | src/scalable-container.ts:392-393 | a frame keeps the scale positive when scale, target and `maxScale` are positive |
| ZoomAnimator.AnimationStepCompletes | src/scalable-container.ts:392-399 | the frame that completes the duration lands exactly on the target capped by `maxScale` |
| ZoomAnimator.AnimationRunConverges | src/scalable-container.ts:383-405 | a run of frames that reaches the end of the duration ends on the target capped by `maxScale` |
| ZoomAnimator.AnimationRunStaysBetween | src/scalable-container.ts:383-405 | with a target within `maxScale`, zooming in or out, a run of frames ends between the start scale and the target |
| BoundaryClamp.DisplayScaleWithinBounds | src/scalable-container.ts:329 | the scale `render` draws first lies within `[minScale, maxScale]` and equals the scale when the scale is already within them |
| BoundaryClamp.ClampAxisCentersFittingContent | src/scalable-container.ts:343-345 | content that fits the measured frame gets the same centred placement whatever its previous placement and offset |
| BoundaryClamp.CenteredPlacementIsCentered | src/scalable-container.ts:343-345 | the centred placement puts the drawn content's near edge at half the difference of frame and drawn size |
| BoundaryClamp.ClampAxisLeavesNoGap | src/scalable-container.ts:346-354 | for content larger than the frame the clamp keeps the origin and moves the near edge to between `frame - size` and 0 |
| BoundaryClamp.ClampAxisKeepsFlushPlacement | src/scalable-container.ts:346-354 | content larger than the frame that already leaves no gap, including an edge exactly on the frame's edge, is not moved |
| BoundaryClamp.ClampAxisIdempotent | src/scalable-container.ts:337-367 | re-clamping a placement the clamp just produced changes nothing |
| Container.ScalableContainer.constructor | src/scalable-container.ts:56-82 | sizes are recorded; each of `minScale`, `maxScale` and `initScale` is the option when present and non-zero, else the default (`Scenarios.DemoOptions`, `Scenarios.ZeroOptionsKeepDefaults`); the origin starts at the centre and `init` leaves the content centred and clamped |
| Container.ScalableContainer.Init | src/scalable-container.ts:84-96 | `initPosition` then `render`: the centred translate, clamped |
| Container.ScalableContainer.InitPosition | src/scalable-container.ts:110-113 | the translate is half the difference of frame and content size on each axis |
| Container.ScalableContainer.MoveDistance | src/scalable-container.ts:119-136 | the translate grows by `PanDelta` of the sample against the baseline |
| Container.ScalableContainer.MoveScale | src/scalable-container.ts:169-176 | on the pinch branch the scale becomes `PinchScale` and the distance and midpoint are replaced; otherwise nothing changes; the scale stays positive |
| Container.ScalableContainer.AdjustTranslates | src/scalable-container.ts:178-183 | the translate grows by `OriginShiftCompensation` of the origin move |
| Container.ScalableContainer.HandleWheel | src/scalable-container.ts:185-208 | a throttled event changes nothing; an honoured one moves the origin under the cursor with compensation, requests the `WheelTarget` zoom and records its time |
| Container.ScalableContainer.HandleTouchstart | src/scalable-container.ts:210-242 | the sample becomes the baseline; a double tap moves the origin under the contact and requests a zoom in; several contacts record distance and midpoint and move the origin under the midpoint |
| Container.ScalableContainer.HandleTouchmove | src/scalable-container.ts:244-259 | without a baseline only the sample is stored; otherwise pan, pinch and clamp as `TouchMoved` states |
| Container.ScalableContainer.HandleTouchend | src/scalable-container.ts:261-267 | the baseline is dropped; with no contacts left the gesture settles, otherwise scale and placement are kept |
| Container.ScalableContainer.HandleTouchcancel | src/scalable-container.ts:269-271 | the gesture settles and the baseline is kept |
| Container.ScalableContainer.HandleMousedown | src/scalable-container.ts:290-293 | the drag becomes active and the pointer is handled as a one-contact touchmove |
| Container.ScalableContainer.HandleMousemove | src/scalable-container.ts:295-298 | without an active drag nothing changes; otherwise a one-contact touchmove |
| Container.ScalableContainer.HandleMouseup | src/scalable-container.ts:300-303 | the drag ends and the baseline is dropped, but scale and placement are kept |
| Container.ScalableContainer.RenderAfterTouchend | src/scalable-container.ts:309-314 | a scale below `minScale` becomes `minScale` and is rendered; any other state is untouched |
| Container.ScalableContainer.Render | src/scalable-container.ts:322-335 | the first drawn scale is the clamped `DisplayScale`, and the placement is then clamped by `finishRender` |
| Container.ScalableContainer.FinishRender | src/scalable-container.ts:337-372 | each axis is placed by `ClampAxis` from the old placement, the stored scale and the page reads |
| Container.ScalableContainer.AnimateToScale | src/scalable-container.ts:374-381 | a running animation keeps its target; otherwise an animation towards the target starts |
| Container.ScalableContainer.RunScaleAnimation | src/scalable-container.ts:383-405 | the first frame records the start only; later frames apply `AnimationStep` and clamp; the completing frame stops the animation and clears the start |
| Scenarios.DemoOptions | index.ts:9-14 | the demo page's options `initScale: .5, maxScale: 10` give scale 0.5, maximum 10 and the default minimum 0.3 |
| Scenarios.ZeroOptionsKeepDefaults | src/scalable-container.ts:77-79 | options given as 0 are falsy and keep the defaults 1, 0.3 and 3 |
| Scenarios.InitialCentering | src/scalable-container.ts:110-113 | an 800 x 600 content in a 400 x 300 frame starts at translate (-200, -150) |
| Scenarios.WheelZoomIn | src/scalable-container.ts:185-208 | an upward wheel event at scale 1 requests scale 2, and an event 100 ms later is throttled |
| Scenarios.SettleBelowMinimum | src/scalable-container.ts:261-314 | a touch gesture ending at 0.2 with `minScale` 0.3 settles at 0.3; a mouse drag ending there stays at 0.2 |
| Scenarios.DoubleTapTiming | src/scalable-container.ts:214-230 | taps 200 ms apart request a zoom to scale 2; taps 300 ms apart request nothing |
| Scenarios.WheelAnimation | src/scalable-container.ts:383-405 | frames at the start, halfway and end of the duration take the scale from 1 through 1.5 to exactly 2, after which the animator is idle |

## Left out

- Listener wiring in `init` and all of `unload`: they attach and detach browser
  handlers, which the model replaces by direct method calls.
- Element lookup and the style writes (`position`, `top`, `left`, the `transform`
  string and the `transformOrigin` string): they are DOM output. The model specifies
  the numbers those strings carry.
- `frameRatio` and `contentRatio`: they are computed at construction and never read.
- `getContentRect`, `getContentOffset` and the bounding-rectangle reads: these
  are page reads and become the parameters `ContentRect` and `Layout`.
- `Math.sqrt` in `getPointsDistance`: it is replaced by the `dist` parameter,
  constrained by `IsDistance`.
- `covertMouseEventToTouchEvent`: it is modelled as the one-contact sample `[p]`.
  The synthetic event's other fields are never read.
- `handleTransitionend`, `handleContentTransitionEnd` and `render`'s `animation`
  option: they only manage a CSS transition, and nothing in the class passes
  the option.
- `stopPropagation`, `preventDefault` and the `false` return values: these are
  browser event control.
- `requestAnimationFrame` scheduling: it becomes explicit calls of `RunScaleAnimation`.
- `wheelThrottlingTime` and `scaleSpeed`: they are fields in the source that
  nothing reassigns. The model uses them as the constants `WheelThrottlingTime`
  and `ScaleSpeed`.
- Floating point: the model uses exact reals, so rounding, NaN and Infinity are
  not modelled.
- The demo page `index.ts` builds one container with `initScale: .5` and
  `maxScale: 10` (modelled by `Scenarios.DemoOptions`). Its click loggers on
  `.node` elements are page code, not part of this model. `vite.config.js`
  (build configuration) is not part of this model.
- Container.ScalableContainer.MoveScale: requires a non-zero stored distance on
  the pinch branch. The source divides by it unguarded and would produce
  Infinity or NaN. It also requires the first two contacts of a multi-contact
  sample to differ (`DistinctContacts`), because coincident contacts would set
  the scale to 0 and break `Valid`'s positive scale.
- Container.ScalableContainer.HandleTouchmove: requires the first two contacts
  of a multi-contact sample to differ (`DistinctContacts`). A zero distance would
  set the scale to 0 and the next pinch would divide by it. It also requires the
  sample to have a contact whenever a baseline exists, because the source would
  throw on reading a missing contact.
- Container.ScalableContainer.RunScaleAnimation: requires frame timestamps not
  to precede the animation start, as animation-frame timestamps never do.
- Container.ScalableContainer.constructor: requires positive measured sizes and
  non-negative `initScale` and `maxScale` options. The source accepts any number.
  The reason is `Valid`: it needs positive sizes, a positive scale and a positive
  `maxScale`, which the handlers' proofs rely on.
