/** Discrete zoom requests: double-tap detection on single-contact touch starts, and
    the throttled wheel zoom with its direction-dependent target scale. */
module GestureClassifier {
  import opened Basics

  /** Two single-contact touch starts closer together than this (ms) form a double tap. */
  const DoubleTapWindow: real := 300.0

  /** Minimum time (ms) between two honoured wheel events (`wheelThrottlingTime`). */
  const WheelThrottlingTime: real := 300.0

  /** A single-contact touch start at `now` completes a double tap when a previous
      single-contact start was recorded (0 means none) less than the window ago. */
  predicate DoubleTap(lastSingleTouchstartTime: real, now: real)
  {
    lastSingleTouchstartTime != 0.0 && now - lastSingleTouchstartTime < DoubleTapWindow
  }

  /** Target of a zoom-in request (double tap, wheel up): twice the scale, capped. */
  function ZoomInTarget(scale: real, maxScale: real): real
  {
    Min(scale * 2.0, maxScale)
  }

  /** Target of a zoom-out request (wheel down): half the scale, floored. */
  function ZoomOutTarget(scale: real, minScale: real): real
  {
    Max(scale * 0.5, minScale)
  }

  /** The target scale a wheel event requests. A zero `deltaY` requests scale 1. */
  function WheelTarget(deltaY: real, scale: real, minScale: real, maxScale: real): real
  {
    if deltaY < 0.0 then ZoomInTarget(scale, maxScale)
    else if deltaY > 0.0 then ZoomOutTarget(scale, minScale)
    else 1.0
  }

  /** A wheel event at `now` is honoured when the throttling time has passed since
      the last honoured one. */
  predicate WheelHonoured(now: real, lastWheelEffectTime: real)
  {
    now - lastWheelEffectTime >= WheelThrottlingTime
  }

  /** Zooming in never requests more than `maxScale`, and for a scale already within
      it, never less than the scale: the target is in [scale, maxScale]. */
  lemma ZoomInTargetBounds(scale: real, maxScale: real)
    requires 0.0 < scale <= maxScale
    ensures scale <= ZoomInTarget(scale, maxScale) <= maxScale
    ensures ZoomInTarget(scale, maxScale) == maxScale || ZoomInTarget(scale, maxScale) == 2.0 * scale
  {
  }

  /** Zooming out is the inverse of zooming in while neither bound interferes... */
  lemma ZoomOutUndoesZoomIn(scale: real, minScale: real, maxScale: real)
    requires minScale <= scale && 2.0 * scale <= maxScale
    ensures ZoomOutTarget(ZoomInTarget(scale, maxScale), minScale) == scale
  {
  }

  /** ... and zooming in is the inverse of zooming out. */
  lemma ZoomInUndoesZoomOut(scale: real, minScale: real, maxScale: real)
    requires minScale <= scale * 0.5 && scale <= maxScale
    ensures ZoomInTarget(ZoomOutTarget(scale, minScale), maxScale) == scale
  {
  }

  /** A non-zero wheel delta from a scale within [minScale, maxScale] requests a
      target within the same bounds, in the direction of the delta. */
  lemma WheelTargetWithinBounds(deltaY: real, scale: real, minScale: real, maxScale: real)
    requires 0.0 < minScale <= scale <= maxScale && deltaY != 0.0
    ensures minScale <= WheelTarget(deltaY, scale, minScale, maxScale) <= maxScale
    ensures deltaY < 0.0 ==> WheelTarget(deltaY, scale, minScale, maxScale) >= scale
    ensures deltaY > 0.0 ==> WheelTarget(deltaY, scale, minScale, maxScale) <= scale
  {
  }

  /** The time stamps of the honoured events among wheel events at `ts`, when the
      last honoured event was at `last`. */
  function HonouredWheelEvents(last: real, ts: seq<real>): seq<real>
    decreases |ts|
  {
    if ts == [] then []
    else if WheelHonoured(ts[0], last) then [ts[0]] + HonouredWheelEvents(ts[0], ts[1..])
    else HonouredWheelEvents(last, ts[1..])
  }

  /** Every honoured event is at least the throttling time after `last`, and
      consecutive honoured events are at least the throttling time apart. */
  lemma {:induction false} HonouredWheelEventsSpaced(last: real, ts: seq<real>)
    ensures forall i :: 0 <= i < |HonouredWheelEvents(last, ts)| ==>
              HonouredWheelEvents(last, ts)[i] - last >= WheelThrottlingTime
    ensures forall i :: 0 <= i < |HonouredWheelEvents(last, ts)| - 1 ==>
              HonouredWheelEvents(last, ts)[i + 1] - HonouredWheelEvents(last, ts)[i] >= WheelThrottlingTime
    decreases |ts|
  {
    if ts != [] {
      var rest := ts[1..];
      if WheelHonoured(ts[0], last) {
        HonouredWheelEventsSpaced(ts[0], rest);
        var h, h' := HonouredWheelEvents(last, ts), HonouredWheelEvents(ts[0], rest);
        assert h == [ts[0]] + h';
        assert forall i :: 0 < i < |h| ==> h[i] == h'[i - 1];
        forall i | 0 <= i < |h| ensures h[i] - last >= WheelThrottlingTime {
          if i > 0 {
            assert h'[i - 1] - ts[0] >= WheelThrottlingTime;
          }
        }
        forall i | 0 <= i < |h| - 1 ensures h[i + 1] - h[i] >= WheelThrottlingTime {
          if i > 0 {
            assert h[i + 1] - h[i] == h'[i] - h'[i - 1];
            assert h'[i] - h'[i - 1] >= WheelThrottlingTime;
          } else {
            assert h[1] == h'[0];
          }
        }
      } else {
        HonouredWheelEventsSpaced(last, rest);
        assert HonouredWheelEvents(last, ts) == HonouredWheelEvents(last, rest);
      }
    }
  }

  /** Two wheel events less than the throttling time apart lead to at most one
      honoured event, hence at most one zoom request. */
  lemma CloseWheelEventsHonourAtMostOne(last: real, t0: real, t1: real)
    requires t1 - t0 < WheelThrottlingTime
    ensures |HonouredWheelEvents(last, [t0, t1])| <= 1
  {
    assert [t0, t1][1..] == [t1];
    assert [t1][1..] == [];
    if WheelHonoured(t0, last) {
      assert !WheelHonoured(t1, t0);
      assert HonouredWheelEvents(last, [t0, t1]) == [t0] + HonouredWheelEvents(t0, [t1]);
    } else {
      assert HonouredWheelEvents(last, [t0, t1]) == HonouredWheelEvents(last, [t1]);
    }
  }
}
