/** The pinch-zoom and pan engine `ScalableContainer`: one mutable record of scale,
    translate, transform origin, the last contact sample and the double-tap, wheel
    and animation bookkeeping, updated in place by each event handler.

    Reads of the page become parameters: the rendered content rectangle
    (`ContentRect`) where the source calls `getBoundingClientRect` on the content,
    and the frame size and content offset (`Layout`) that `finishRender` reads.
    `Date.now()` becomes `now`, an animation-frame timestamp becomes `t`, and a
    contact distance (`Math.sqrt`) becomes `dist`, constrained by `IsDistance`.
    The animation-frame callback the source schedules is pending exactly while
    `scaleAnimationRunning` holds; the caller delivers it by calling
    `RunScaleAnimation`. */
module Container {
  import opened Basics
  import opened Geometry
  import opened PointerTracker
  import opened GestureClassifier
  import opened ZoomAnimator
  import opened BoundaryClamp

  /** `left`, `top` and `height` of the rendered content's bounding rectangle. */
  datatype ContentRect = ContentRect(left: real, top: real, height: real)

  /** What `finishRender` reads from the page: the frame rectangle's width and
      height and the content's offset from the frame (`getContentOffset`). */
  datatype Layout = Layout(frameRectWidth: real, frameRectHeight: real, offsetX: real, offsetY: real)

  const DefaultMinScale: real := 0.3
  const DefaultMaxScale: real := 3.0
  const DefaultScale: real := 1.0

  /** `if (options.x) this.x = options.x`: an absent or zero option keeps the default. */
  function OptionOr(option: Option<real>, default: real): real
  {
    if option.Some? && option.value != 0.0 then option.value else default
  }

  /** A sample with a baseline worth diffing against: present and not empty. */
  predicate HasBaseline(last: Option<seq<Point>>)
  {
    last.Some? && |last.value| > 0
  }

  /** The first two contacts of a multi-contact sample are at different positions. */
  predicate DistinctContacts(touches: seq<Point>)
  {
    |touches| >= 2 ==> touches[0] != touches[1]
  }

  class ScalableContainer {
    const minScale: real
    const maxScale: real
    /** Frame and content sizes, measured once at construction. */
    const frameWidth: real
    const frameHeight: real
    const contentWidth: real
    const contentHeight: real

    var lastTouchPoints: Option<seq<Point>>
    var midPoint: Point
    var lastPointsDistance: real
    var translateX: real
    var translateY: real
    var scale: real
    var transformOrigin: Point
    var lastSingleTouchstartTime: real
    var lastWheelEffectTime: real
    var scaleAnimationTime: real
    var scaleAnimationRunning: bool
    var mouseInvoked: bool
    /** The target scale carried by the pending animation-frame callback. */
    var animationTarget: real

    /** Sizes are positive, the scale stays positive, a stored contact distance is
        non-negative, a running animation heads for a positive target, and an idle
        animator has no start time recorded. */
    ghost predicate Valid()
      reads this
    {
      frameWidth > 0.0 && frameHeight > 0.0 && contentWidth > 0.0 && contentHeight > 0.0 &&
      maxScale > 0.0 && scale > 0.0 && lastPointsDistance >= 0.0 &&
      (scaleAnimationRunning ==> animationTarget > 0.0) &&
      (!scaleAnimationRunning ==> scaleAnimationTime == 0.0)
    }

    ghost function XPlacement(): AxisPlacement
      reads this
    {
      AxisPlacement(transformOrigin.x, translateX)
    }

    ghost function YPlacement(): AxisPlacement
      reads this
    {
      AxisPlacement(transformOrigin.y, translateY)
    }

    /** Both axes were clamped by `finishRender` from the placement (`x`, `y`) with
        the current scale and the page reads in `layout`. */
    ghost predicate ClampedFrom(x: AxisPlacement, y: AxisPlacement, layout: Layout)
      reads this
    {
      XPlacement() == ClampAxis(contentWidth, scale, layout.frameRectWidth, frameWidth, layout.offsetX, x) &&
      YPlacement() == ClampAxis(contentHeight, scale, layout.frameRectHeight, frameHeight, layout.offsetY, y)
    }

    /** The transform origin moved to `c` and the translate received the
        `adjustTranslates` compensation for the move. */
    twostate predicate OriginMovedTo(c: Point, rect: ContentRect)
      reads this
    {
      contentWidth > 0.0 && contentHeight > 0.0 &&
      var d := OriginShiftCompensation(c, old(transformOrigin), rect.height, contentWidth, contentHeight);
      transformOrigin == c && translateX == old(translateX) + d.x && translateY == old(translateY) + d.y
    }

    /** `animateToScale(target)` took effect: an animation is running, heading for
        `target` unless one was already running, whose target is kept. */
    twostate predicate AnimationRequested(target: real)
      reads this
    {
      scaleAnimationRunning &&
      animationTarget == (if old(scaleAnimationRunning) then old(animationTarget) else target)
    }

    /** The effect of `handleTouchmove` with sample `touches`: without a baseline
        the sample is only stored; otherwise the content pans by `PanDelta`, pinches
        by `PinchScale` when both samples have several contacts, and is clamped. */
    twostate predicate TouchMoved(touches: seq<Point>, dist: real, layout: Layout)
      reads this
    {
      lastTouchPoints == Some(touches) &&
      if !HasBaseline(old(lastTouchPoints)) then
        scale == old(scale) && translateX == old(translateX) && translateY == old(translateY) &&
        transformOrigin == old(transformOrigin) && lastPointsDistance == old(lastPointsDistance) &&
        midPoint == old(midPoint)
      else
        PanReadable(old(lastTouchPoints), touches) &&
        var pan := PanDelta(old(lastTouchPoints), touches);
        if PinchApplies(old(lastTouchPoints), touches) then
          old(lastPointsDistance) != 0.0 &&
          scale == PinchScale(old(scale), old(lastPointsDistance), dist) &&
          lastPointsDistance == dist && midPoint == MidPoint(touches[0], touches[1]) &&
          ClampedFrom(AxisPlacement(old(transformOrigin.x), old(translateX) + pan.x),
                      AxisPlacement(old(transformOrigin.y), old(translateY) + pan.y), layout)
        else
          scale == old(scale) && lastPointsDistance == old(lastPointsDistance) && midPoint == old(midPoint) &&
          ClampedFrom(AxisPlacement(old(transformOrigin.x), old(translateX) + pan.x),
                      AxisPlacement(old(transformOrigin.y), old(translateY) + pan.y), layout)
    }

    /** Construction with the measured frame and content sizes and the options,
        followed by `init`'s positioning and first render. */
    constructor (frameRectWidth: real, frameRectHeight: real, contentRectWidth: real, contentRectHeight: real,
                 initScale: Option<real>, minScaleOption: Option<real>, maxScaleOption: Option<real>,
                 layout: Layout)
      requires frameRectWidth > 0.0 && frameRectHeight > 0.0
      requires contentRectWidth > 0.0 && contentRectHeight > 0.0
      requires initScale.Some? ==> initScale.value >= 0.0
      requires maxScaleOption.Some? ==> maxScaleOption.value >= 0.0
      ensures Valid()
      ensures frameWidth == frameRectWidth && frameHeight == frameRectHeight
      ensures contentWidth == contentRectWidth && contentHeight == contentRectHeight
      ensures minScale == OptionOr(minScaleOption, DefaultMinScale)
      ensures maxScale == OptionOr(maxScaleOption, DefaultMaxScale)
      ensures scale == OptionOr(initScale, DefaultScale)
      ensures lastTouchPoints == None && lastPointsDistance == 0.0 && midPoint == Point(0.0, 0.0)
      ensures lastSingleTouchstartTime == 0.0 && lastWheelEffectTime == 0.0
      ensures !scaleAnimationRunning && scaleAnimationTime == 0.0 && !mouseInvoked
      ensures ClampedFrom(AxisPlacement(contentWidth / 2.0, (frameWidth - contentWidth) / 2.0),
                          AxisPlacement(contentHeight / 2.0, (frameHeight - contentHeight) / 2.0), layout)
    {
      frameWidth, frameHeight := frameRectWidth, frameRectHeight;
      contentWidth, contentHeight := contentRectWidth, contentRectHeight;
      transformOrigin := Point(contentRectWidth / 2.0, contentRectHeight / 2.0);
      minScale := OptionOr(minScaleOption, DefaultMinScale);
      maxScale := OptionOr(maxScaleOption, DefaultMaxScale);
      scale := OptionOr(initScale, DefaultScale);
      lastTouchPoints := None;
      midPoint := Point(0.0, 0.0);
      lastPointsDistance := 0.0;
      translateX, translateY := 0.0, 0.0;
      lastSingleTouchstartTime := 0.0;
      lastWheelEffectTime := 0.0;
      scaleAnimationTime := 0.0;
      scaleAnimationRunning := false;
      mouseInvoked := false;
      animationTarget := 0.0;
      new;
      Init(layout);
    }

    /** `init` without the listener wiring: position, then render. */
    method Init(layout: Layout)
      requires Valid()
      modifies this`translateX, this`translateY, this`transformOrigin
      ensures Valid()
      ensures ClampedFrom(AxisPlacement(old(transformOrigin.x), (frameWidth - contentWidth) / 2.0),
                          AxisPlacement(old(transformOrigin.y), (frameHeight - contentHeight) / 2.0), layout)
    {
      InitPosition();
      var _ := Render(layout);
    }

    /** `initPosition`: the translate that centres the content at its natural size
        with the origin at its centre (the argument of `finishRender`'s centring). */
    method InitPosition()
      modifies this`translateX, this`translateY
      ensures translateX == (frameWidth - contentWidth) / 2.0
      ensures translateY == (frameHeight - contentHeight) / 2.0
    {
      translateX := -(contentWidth - frameWidth) / 2.0;
      translateY := -(contentHeight - frameHeight) / 2.0;
    }

    /** `moveDistance`: the translate grows by the pan delta of `touches` against the baseline. */
    method MoveDistance(touches: seq<Point>)
      requires PanReadable(lastTouchPoints, touches)
      modifies this`translateX, this`translateY
      ensures translateX == old(translateX) + PanDelta(lastTouchPoints, touches).x
      ensures translateY == old(translateY) + PanDelta(lastTouchPoints, touches).y
    {
      var distanceX, distanceY := 0.0, 0.0;
      if lastTouchPoints.Some? {
        var last := lastTouchPoints.value;
        if |last| == 1 || |touches| == 1 {
          distanceX := touches[0].x - last[0].x;
          distanceY := touches[0].y - last[0].y;
        } else if |last| > 1 {
          distanceX := (touches[0].x - last[0].x + touches[1].x - last[1].x) / 2.0;
          distanceY := (touches[0].y - last[0].y + touches[1].y - last[1].y) / 2.0;
        }
      }
      translateX := translateX + distanceX;
      translateY := translateY + distanceY;
    }

    /** `moveScale`: when both samples have several contacts, the scale is
        multiplied by the ratio of the new to the stored distance, which is then
        replaced, and the midpoint is recorded; otherwise nothing changes. The
        source does not guard against a stored distance of 0. */
    method MoveScale(touches: seq<Point>, dist: real)
      requires Valid() && DistinctContacts(touches)
      requires PinchApplies(lastTouchPoints, touches) ==>
                 IsDistance(dist, touches[0], touches[1]) && lastPointsDistance != 0.0
      modifies this`scale, this`lastPointsDistance, this`midPoint
      ensures Valid()
      ensures PinchApplies(lastTouchPoints, touches) ==>
                scale == PinchScale(old(scale), old(lastPointsDistance), dist) &&
                lastPointsDistance == dist && midPoint == MidPoint(touches[0], touches[1])
      ensures !PinchApplies(lastTouchPoints, touches) ==>
                scale == old(scale) && lastPointsDistance == old(lastPointsDistance) && midPoint == old(midPoint)
    {
      if lastTouchPoints.Some? && |lastTouchPoints.value| > 1 && |touches| > 1 {
        DistanceZeroIff(dist, touches[0], touches[1]);
        PinchScalePositive(scale, lastPointsDistance, dist);
        scale := scale * dist / lastPointsDistance;
        lastPointsDistance := dist;
        midPoint := MidPoint(touches[0], touches[1]);
      }
    }

    /** `adjustTranslates`: compensate the translate for the move of the transform
        origin away from `lastTransformOrigin`. */
    method AdjustTranslates(lastTransformOrigin: Point, rect: ContentRect)
      requires Valid()
      modifies this`translateX, this`translateY
      ensures Valid()
      ensures var d := OriginShiftCompensation(transformOrigin, lastTransformOrigin, rect.height,
                                               contentWidth, contentHeight);
              translateX == old(translateX) + d.x && translateY == old(translateY) + d.y
    {
      translateX := translateX + (transformOrigin.x - lastTransformOrigin.x) * (rect.height - contentHeight) / contentWidth;
      translateY := translateY + (transformOrigin.y - lastTransformOrigin.y) * (rect.height - contentHeight) / contentHeight;
    }

    /** `handleWheel`: an event within the throttling time of the last honoured one
        changes nothing; otherwise the origin moves under the cursor (with its
        translate compensation), a zoom towards `WheelTarget` is requested and the
        event's time is recorded. */
    method HandleWheel(now: real, cursor: Point, deltaY: real, rect: ContentRect)
      requires Valid()
      modifies this`transformOrigin, this`translateX, this`translateY, this`scaleAnimationRunning,
               this`animationTarget, this`lastWheelEffectTime
      ensures Valid()
      ensures !WheelHonoured(now, old(lastWheelEffectTime)) ==> unchanged(this)
      ensures WheelHonoured(now, old(lastWheelEffectTime)) ==>
                lastWheelEffectTime == now &&
                OriginMovedTo(ToContentOrigin(cursor, rect.left, rect.top, scale), rect) &&
                AnimationRequested(WheelTarget(deltaY, scale, minScale, maxScale))
    {
      if now - lastWheelEffectTime >= WheelThrottlingTime {
        var lastTransformOrigin := transformOrigin;
        transformOrigin := ToContentOrigin(cursor, rect.left, rect.top, scale);
        AdjustTranslates(lastTransformOrigin, rect);
        var target := 1.0;
        if deltaY < 0.0 {
          target := Min(scale * 2.0, maxScale);
        } else if deltaY > 0.0 {
          target := Max(scale * 0.5, minScale);
        }
        AnimateToScale(target);
        lastWheelEffectTime := now;
      }
    }

    /** `handleTouchstart`: the sample becomes the baseline. A single contact
        records its time and, when it completes a double tap, moves the origin under
        the contact and requests a zoom in; several contacts record their distance
        and midpoint and move the origin under the midpoint. */
    method HandleTouchstart(touches: seq<Point>, now: real, rect: ContentRect, dist: real)
      requires Valid()
      requires |touches| >= 2 ==> IsDistance(dist, touches[0], touches[1])
      modifies this`lastTouchPoints, this`transformOrigin, this`translateX, this`translateY,
               this`lastSingleTouchstartTime, this`scaleAnimationRunning, this`animationTarget,
               this`lastPointsDistance, this`midPoint
      ensures Valid()
      ensures lastTouchPoints == Some(touches)
      ensures lastSingleTouchstartTime == if |touches| == 1 then now else old(lastSingleTouchstartTime)
      ensures |touches| == 1 && DoubleTap(old(lastSingleTouchstartTime), now) ==>
                OriginMovedTo(ToContentOrigin(touches[0], rect.left, rect.top, scale), rect) &&
                AnimationRequested(ZoomInTarget(scale, maxScale))
      ensures (|touches| == 0 || (|touches| == 1 && !DoubleTap(old(lastSingleTouchstartTime), now))) ==>
                transformOrigin == old(transformOrigin) && translateX == old(translateX) &&
                translateY == old(translateY) && scaleAnimationRunning == old(scaleAnimationRunning) &&
                animationTarget == old(animationTarget)
      ensures |touches| <= 1 ==> lastPointsDistance == old(lastPointsDistance) && midPoint == old(midPoint)
      ensures |touches| >= 2 ==>
                lastPointsDistance == dist && midPoint == MidPoint(touches[0], touches[1]) &&
                OriginMovedTo(ToContentOrigin(midPoint, rect.left, rect.top, scale), rect) &&
                scaleAnimationRunning == old(scaleAnimationRunning) && animationTarget == old(animationTarget)
    {
      lastTouchPoints := Some(touches);
      var lastTransformOrigin := transformOrigin;
      if |touches| == 1 {
        if lastSingleTouchstartTime == 0.0 {
          lastSingleTouchstartTime := now;
        } else {
          if now - lastSingleTouchstartTime < DoubleTapWindow {
            transformOrigin := ToContentOrigin(touches[0], rect.left, rect.top, scale);
            AdjustTranslates(lastTransformOrigin, rect);
            AnimateToScale(Min(scale * 2.0, maxScale));
          }
          lastSingleTouchstartTime := now;
        }
      } else if |touches| > 1 {
        lastPointsDistance := dist;
        midPoint := MidPoint(touches[0], touches[1]);
        transformOrigin := ToContentOrigin(midPoint, rect.left, rect.top, scale);
        AdjustTranslates(lastTransformOrigin, rect);
      }
    }

    /** `handleTouchmove`: see `TouchMoved`. */
    method HandleTouchmove(touches: seq<Point>, dist: real, layout: Layout)
      requires Valid() && DistinctContacts(touches)
      requires HasBaseline(lastTouchPoints) ==> |touches| >= 1
      requires PinchApplies(lastTouchPoints, touches) ==>
                 IsDistance(dist, touches[0], touches[1]) && lastPointsDistance != 0.0
      modifies this`lastTouchPoints, this`translateX, this`translateY, this`scale,
               this`lastPointsDistance, this`midPoint, this`transformOrigin
      ensures Valid()
      ensures TouchMoved(touches, dist, layout)
    {
      if !(lastTouchPoints.Some? && |lastTouchPoints.value| != 0) {
        lastTouchPoints := Some(touches);
        return;
      }
      MoveDistance(touches);
      MoveScale(touches, dist);
      lastTouchPoints := Some(touches);
      var _ := Render(layout);
    }

    /** `handleTouchend`: when no contact remains the gesture settles; the baseline
        is dropped in every case. */
    method HandleTouchend(touches: seq<Point>, layout: Layout)
      requires Valid()
      modifies this`lastTouchPoints, this`scale, this`translateX, this`translateY, this`transformOrigin
      ensures Valid()
      ensures lastTouchPoints == None
      ensures |touches| == 0 ==> Settled(layout)
      ensures |touches| != 0 ==>
                scale == old(scale) && translateX == old(translateX) && translateY == old(translateY) &&
                transformOrigin == old(transformOrigin)
    {
      if |touches| == 0 {
        RenderAfterTouchend(layout);
      }
      lastTouchPoints := None;
    }

    /** `handleTouchcancel`: the gesture settles; the baseline is kept. */
    method HandleTouchcancel(layout: Layout)
      requires Valid()
      modifies this`scale, this`translateX, this`translateY, this`transformOrigin
      ensures Valid()
      ensures Settled(layout)
    {
      RenderAfterTouchend(layout);
    }

    /** `handleMousedown`: the drag becomes active and the pointer position is fed
        to `handleTouchmove` as a one-contact sample. */
    method HandleMousedown(p: Point, layout: Layout)
      requires Valid()
      modifies this`mouseInvoked, this`lastTouchPoints, this`translateX, this`translateY, this`scale,
               this`lastPointsDistance, this`midPoint, this`transformOrigin
      ensures Valid()
      ensures mouseInvoked
      ensures TouchMoved([p], 0.0, layout)
    {
      mouseInvoked := true;
      HandleTouchmove([p], 0.0, layout);
    }

    /** `handleMousemove`: ignored unless a drag is active; otherwise a one-contact
        `handleTouchmove`. */
    method HandleMousemove(p: Point, layout: Layout)
      requires Valid()
      modifies this`lastTouchPoints, this`translateX, this`translateY, this`scale,
               this`lastPointsDistance, this`midPoint, this`transformOrigin
      ensures Valid()
      ensures !mouseInvoked ==> unchanged(this)
      ensures mouseInvoked ==> TouchMoved([p], 0.0, layout)
    {
      if mouseInvoked == false {
        return;
      }
      HandleTouchmove([p], 0.0, layout);
    }

    /** `handleMouseup`: the drag ends and a one-contact `handleTouchend` runs, so
        the baseline is dropped but the gesture never settles. */
    method HandleMouseup(p: Point, layout: Layout)
      requires Valid()
      modifies this`mouseInvoked, this`lastTouchPoints, this`scale, this`translateX, this`translateY,
               this`transformOrigin
      ensures Valid()
      ensures !mouseInvoked && lastTouchPoints == None
      ensures scale == old(scale) && translateX == old(translateX) && translateY == old(translateY)
      ensures transformOrigin == old(transformOrigin)
    {
      mouseInvoked := false;
      HandleTouchend([p], layout);
    }

    /** The post-gesture settle took place: a scale below `minScale` was raised to
        exactly `minScale` and rendered, any other scale and placement is untouched. */
    twostate predicate Settled(layout: Layout)
      reads this
    {
      scale == Max(old(scale), minScale) &&
      if old(scale) < minScale then
        ClampedFrom(old(XPlacement()), old(YPlacement()), layout)
      else
        translateX == old(translateX) && translateY == old(translateY) && transformOrigin == old(transformOrigin)
    }

    /** `renderAfterTouchend`. */
    method RenderAfterTouchend(layout: Layout)
      requires Valid()
      modifies this`scale, this`translateX, this`translateY, this`transformOrigin
      ensures Valid()
      ensures Settled(layout)
    {
      if scale < minScale {
        scale := minScale;
        var _ := Render(layout);
      }
    }

    /** The numeric part of `render`: the clamped scale it draws first, then
        `finishRender`. */
    method Render(layout: Layout) returns (drawnScale: real)
      requires Valid()
      modifies this`translateX, this`translateY, this`transformOrigin
      ensures Valid()
      ensures drawnScale == DisplayScale(scale, minScale, maxScale)
      ensures minScale <= maxScale ==> minScale <= drawnScale <= maxScale
      ensures ClampedFrom(old(XPlacement()), old(YPlacement()), layout)
    {
      drawnScale := Min(maxScale, Max(minScale, scale));
      if minScale <= maxScale {
        DisplayScaleWithinBounds(scale, minScale, maxScale);
      }
      FinishRender(layout);
    }

    /** `finishRender`: each axis is clamped by `ClampAxis`, using the stored
        (unclamped) scale. */
    method FinishRender(layout: Layout)
      requires Valid()
      modifies this`translateX, this`translateY, this`transformOrigin
      ensures Valid()
      ensures ClampedFrom(old(XPlacement()), old(YPlacement()), layout)
    {
      var contentW := contentWidth * scale;
      var contentH := contentHeight * scale;
      var originX, originY := transformOrigin.x, transformOrigin.y;
      var tx, ty := translateX, translateY;

      if contentW <= layout.frameRectWidth {
        originX := contentWidth / 2.0;
        tx := (frameWidth - contentWidth) / 2.0;
      } else {
        var targetOffsetX := layout.offsetX;
        if targetOffsetX >= 0.0 {
          tx := tx - targetOffsetX;
        } else if frameWidth - targetOffsetX > contentW {
          tx := tx + (frameWidth - targetOffsetX - contentW);
        }
      }
      assert AxisPlacement(originX, tx)
          == ClampAxis(contentWidth, scale, layout.frameRectWidth, frameWidth, layout.offsetX, XPlacement());

      if contentH <= layout.frameRectHeight {
        originY := contentHeight / 2.0;
        ty := (frameHeight - contentHeight) / 2.0;
      } else {
        var targetOffsetY := layout.offsetY;
        if targetOffsetY >= 0.0 {
          ty := ty - targetOffsetY;
        } else if frameHeight - targetOffsetY > contentH {
          ty := ty + (frameHeight - targetOffsetY - contentH);
        }
      }
      assert AxisPlacement(originY, ty)
          == ClampAxis(contentHeight, scale, layout.frameRectHeight, frameHeight, layout.offsetY, YPlacement());

      transformOrigin := Point(originX, originY);
      translateX, translateY := tx, ty;
    }

    /** `animateToScale`: dropped while an animation runs; otherwise an animation
        towards `target` starts and its first frame is scheduled. */
    method AnimateToScale(target: real)
      requires Valid() && target > 0.0
      modifies this`scaleAnimationRunning, this`animationTarget
      ensures Valid()
      ensures AnimationRequested(target)
    {
      if scaleAnimationRunning == true {
        return;
      }
      scaleAnimationRunning := true;
      animationTarget := target;
    }

    /** `runScaleAnimation`, one animation frame at time `t`. The first frame only
        records `t` as the start. Later frames move the scale by `AnimationStep` and
        render; the frame that completes the duration stops the animation and
        clears the start time, any other frame schedules the next one. */
    method RunScaleAnimation(t: real, layout: Layout)
      requires Valid() && scaleAnimationRunning
      requires scaleAnimationTime != 0.0 ==> scaleAnimationTime <= t
      modifies this`scale, this`scaleAnimationTime, this`scaleAnimationRunning,
               this`translateX, this`translateY, this`transformOrigin
      ensures Valid()
      ensures old(scaleAnimationTime) == 0.0 ==>
                scaleAnimationTime == t && scaleAnimationRunning && scale == old(scale) &&
                XPlacement() == old(XPlacement()) && YPlacement() == old(YPlacement())
      ensures old(scaleAnimationTime) != 0.0 ==>
                scale == AnimationStep(old(scale), animationTarget, maxScale, t, old(scaleAnimationTime)) &&
                ClampedFrom(old(XPlacement()), old(YPlacement()), layout) &&
                (AnimationComplete(t, old(scaleAnimationTime)) ==> !scaleAnimationRunning && scaleAnimationTime == 0.0) &&
                (!AnimationComplete(t, old(scaleAnimationTime)) ==>
                   scaleAnimationRunning && scaleAnimationTime == old(scaleAnimationTime))
    {
      if scaleAnimationTime == 0.0 {
        scaleAnimationTime := t;
        return;
      }
      var escapedTime := Min(ScaleSpeed, t - scaleAnimationTime);
      AnimationStepPositive(scale, animationTarget, maxScale, t, scaleAnimationTime);
      scale := Min(scale + escapedTime / ScaleSpeed * (animationTarget - scale), maxScale);
      var _ := Render(layout);
      if escapedTime >= ScaleSpeed {
        scaleAnimationTime := 0.0;
        scaleAnimationRunning := false;
      }
    }
  }
}
