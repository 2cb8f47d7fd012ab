/** Boundary clamping after every render (`finishRender`), per axis, and the scale
    clamp `render` applies to the value it draws first. */
module BoundaryClamp {
  import opened Basics
  import opened Geometry

  /** The scale `render` writes before `finishRender` runs:
      `Math.min(maxScale, Math.max(minScale, scale))`. */
  function DisplayScale(scale: real, minScale: real, maxScale: real): real
  {
    Min(maxScale, Max(minScale, scale))
  }

  /** With consistent bounds the drawn scale lies within them, and a scale already
      within them is drawn unchanged. */
  lemma DisplayScaleWithinBounds(scale: real, minScale: real, maxScale: real)
    requires minScale <= maxScale
    ensures minScale <= DisplayScale(scale, minScale, maxScale) <= maxScale
    ensures minScale <= scale <= maxScale ==> DisplayScale(scale, minScale, maxScale) == scale
  {
  }

  /** Transform origin and translate of the content on one axis. */
  datatype AxisPlacement = AxisPlacement(origin: real, translate: real)

  /** One axis of `finishRender`. `natural` is the content's natural size on the
      axis, `scale` the stored scale, `measuredFrame` the frame size read from the
      frame's rectangle now, `frame` the size measured at construction, and `offset`
      the distance from the frame's near edge to the rendered content's near edge.
      Content that fits is centred using its natural size; otherwise a gap at the
      near edge is closed, else a gap at the far edge is closed. */
  function ClampAxis(natural: real, scale: real, measuredFrame: real, frame: real,
                     offset: real, p: AxisPlacement): AxisPlacement
  {
    var size := natural * scale;
    if size <= measuredFrame then AxisPlacement(natural / 2.0, (frame - natural) / 2.0)
    else if offset >= 0.0 then AxisPlacement(p.origin, p.translate - offset)
    else if frame - offset > size then AxisPlacement(p.origin, p.translate + (frame - offset - size))
    else p
  }

  /** Content that fits the frame is placed the same way whatever its previous
      placement and measured offset: origin at its centre, translate by half the
      difference of frame and natural size. */
  lemma ClampAxisCentersFittingContent(natural: real, scale: real, measuredFrame: real, frame: real,
                                       offset1: real, p1: AxisPlacement, offset2: real, p2: AxisPlacement)
    requires natural * scale <= measuredFrame
    ensures ClampAxis(natural, scale, measuredFrame, frame, offset1, p1)
         == ClampAxis(natural, scale, measuredFrame, frame, offset2, p2)
         == AxisPlacement(natural / 2.0, (frame - natural) / 2.0)
  {
  }

  /** Centring with the natural size does centre the drawn content: with the origin
      at its centre, content drawn at scale `s` has its near edge at half the
      difference of frame and drawn size. */
  lemma CenteredPlacementIsCentered(natural: real, s: real, frame: real)
    ensures RenderedEdge((frame - natural) / 2.0, natural / 2.0, s) == (frame - natural * s) / 2.0
  {
    assert natural / 2.0 * (1.0 - s) == (natural - natural * s) / 2.0;
  }

  /** For content larger than the frame, the clamp changes only the translate, and
      it moves the near edge so that no gap remains: the new offset
      (`offset` plus the translate change) lies between `frame - size` and 0. */
  lemma ClampAxisLeavesNoGap(natural: real, scale: real, frame: real, offset: real, p: AxisPlacement)
    requires natural * scale > frame
    ensures var r := ClampAxis(natural, scale, frame, frame, offset, p);
            var offset' := offset + (r.translate - p.translate);
            r.origin == p.origin &&
            frame - natural * scale <= offset' <= 0.0
  {
  }

  /** A placement is flush on an axis when content larger than the frame leaves no gap. */
  predicate Flush(size: real, frame: real, offset: real)
  {
    frame - size <= offset <= 0.0
  }

  /** Content larger than the frame that already leaves no gap is not moved. */
  lemma ClampAxisKeepsFlushPlacement(natural: real, scale: real, frame: real, offset: real, p: AxisPlacement)
    requires natural * scale > frame && Flush(natural * scale, frame, offset)
    ensures ClampAxis(natural, scale, frame, frame, offset, p) == p
  {
  }

  /** Clamping twice is clamping once: when the offset is what the browser measures
      for the placement (near edge at `RenderedEdge` under the measuring scale `m`)
      and the frame size is unchanged, a second pass after the first changes nothing. */
  lemma {:induction false} ClampAxisIdempotent(natural: real, scale: real, frame: real, m: real, p: AxisPlacement)
    ensures var r := ClampAxis(natural, scale, frame, frame, RenderedEdge(p.translate, p.origin, m), p);
            ClampAxis(natural, scale, frame, frame, RenderedEdge(r.translate, r.origin, m), r) == r
  {
    var size := natural * scale;
    var offset := RenderedEdge(p.translate, p.origin, m);
    var r := ClampAxis(natural, scale, frame, frame, offset, p);
    if size > frame {
      ClampAxisLeavesNoGap(natural, scale, frame, offset, p);
      var offset' := RenderedEdge(r.translate, r.origin, m);
      assert offset' == offset + (r.translate - p.translate);
      ClampAxisKeepsFlushPlacement(natural, scale, frame, offset', r);
    }
  }
}
