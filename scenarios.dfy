/** Worked interactions with one container, each stated as what a caller of the
    class can conclude from the handlers' contracts alone. */
module Scenarios {
  import opened Basics
  import opened Geometry
  import opened Container

  /** Frame 400 x 300, content 800 x 600 at scale 1: the content starts centred,
      translated by (-200, -150), and the first render keeps it there. */
  method InitialCentering() returns (tx: real, ty: real)
    ensures tx == -200.0 && ty == -150.0
  {
    // At scale 1 the content's near edges are drawn at the translate itself.
    var layout := Layout(400.0, 300.0, -200.0, -150.0);
    var c := new ScalableContainer(400.0, 300.0, 800.0, 600.0, None, None, None, layout);
    tx, ty := c.translateX, c.translateY;
  }

  /** The demo page's options (`initScale: .5, maxScale: 10`): the scale starts at
      0.5, the maximum becomes 10 and the minimum keeps its default 0.3. */
  method DemoOptions() returns (scale: real, minScale: real, maxScale: real)
    ensures scale == 0.5 && minScale == 0.3 && maxScale == 10.0
  {
    var layout := Layout(400.0, 300.0, 0.0, 0.0);
    var c := new ScalableContainer(400.0, 300.0, 800.0, 600.0, Some(0.5), None, Some(10.0), layout);
    scale, minScale, maxScale := c.scale, c.minScale, c.maxScale;
  }

  /** Options given as 0 are falsy and keep their defaults: scale 1, minimum 0.3
      and maximum 3. */
  method ZeroOptionsKeepDefaults() returns (scale: real, minScale: real, maxScale: real)
    ensures scale == 1.0 && minScale == 0.3 && maxScale == 3.0
  {
    var layout := Layout(400.0, 300.0, -200.0, -150.0);
    var c := new ScalableContainer(400.0, 300.0, 800.0, 600.0, Some(0.0), Some(0.0), Some(0.0), layout);
    scale, minScale, maxScale := c.scale, c.minScale, c.maxScale;
  }

  /** A wheel event scrolling up at scale 1 with `maxScale` 10 requests scale 2; a
      second event 100 ms later is throttled and changes nothing. */
  method WheelZoomIn() returns (target: real, lastEffect: real, running: bool)
    ensures target == 2.0 && lastEffect == 1000.0 && running
  {
    var layout := Layout(400.0, 300.0, -200.0, -150.0);
    var c := new ScalableContainer(400.0, 300.0, 800.0, 600.0, None, None, Some(10.0), layout);
    var rect := ContentRect(-200.0, -150.0, 600.0);
    c.HandleWheel(1000.0, Point(100.0, 100.0), -120.0, rect);
    c.HandleWheel(1100.0, Point(100.0, 100.0), 120.0, rect);
    target, lastEffect, running := c.animationTarget, c.lastWheelEffectTime, c.scaleAnimationRunning;
  }

  /** With `minScale` 0.3, a gesture that ends at scale 0.2 settles at 0.3, while a
      mouse drag ending at the same scale does not settle. */
  method SettleBelowMinimum() returns (touchScale: real, mouseScale: real)
    ensures touchScale == 0.3 && mouseScale == 0.2
  {
    // 800 x 0.2 and 600 x 0.2 fit the frame, so every render centres the content.
    var layout := Layout(400.0, 300.0, 0.0, 0.0);
    var c := new ScalableContainer(400.0, 300.0, 800.0, 600.0, Some(0.2), Some(0.3), None, layout);
    c.HandleTouchend([], layout);
    touchScale := c.scale;
    var m := new ScalableContainer(400.0, 300.0, 800.0, 600.0, Some(0.2), Some(0.3), None, layout);
    m.HandleMousedown(Point(10.0, 10.0), layout);
    m.HandleMouseup(Point(10.0, 10.0), layout);
    mouseScale := m.scale;
  }

  /** Two single-contact starts 200 ms apart request a zoom to twice the scale; two
      starts 300 ms apart request nothing. */
  method DoubleTapTiming() returns (quickRuns: bool, quickTarget: real, slowRuns: bool)
    ensures quickRuns && quickTarget == 2.0 && !slowRuns
  {
    var layout := Layout(400.0, 300.0, -200.0, -150.0);
    var rect := ContentRect(-200.0, -150.0, 600.0);
    var tap := [Point(50.0, 50.0)];
    var quick := new ScalableContainer(400.0, 300.0, 800.0, 600.0, None, None, None, layout);
    quick.HandleTouchstart(tap, 1000.0, rect, 0.0);
    quick.HandleTouchend([], layout);
    quick.HandleTouchstart(tap, 1200.0, rect, 0.0);
    quickRuns, quickTarget := quick.scaleAnimationRunning, quick.animationTarget;
    var slow := new ScalableContainer(400.0, 300.0, 800.0, 600.0, None, None, None, layout);
    slow.HandleTouchstart(tap, 1000.0, rect, 0.0);
    slow.HandleTouchend([], layout);
    slow.HandleTouchstart(tap, 1300.0, rect, 0.0);
    slowRuns := slow.scaleAnimationRunning;
  }

  /** A wheel zoom from scale 1 to 2 driven by frames at 2000 (start), 2150 and
      2300 ms passes through 1.5 and ends exactly on 2, after which the animator is idle. */
  method WheelAnimation() returns (halfway: real, final: real, running: bool)
    ensures halfway == 1.5 && final == 2.0 && !running
  {
    var layout := Layout(400.0, 300.0, -200.0, -150.0);
    var c := new ScalableContainer(400.0, 300.0, 800.0, 600.0, None, None, None, layout);
    c.HandleWheel(1000.0, Point(400.0, 300.0), -1.0, ContentRect(-200.0, -150.0, 600.0));
    c.RunScaleAnimation(2000.0, layout);
    c.RunScaleAnimation(2150.0, layout);
    halfway := c.scale;
    c.RunScaleAnimation(2300.0, layout);
    final, running := c.scale, c.scaleAnimationRunning;
  }
}
