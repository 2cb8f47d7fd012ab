/** Coordinate arithmetic of the container: contact distance and midpoint, the
    conversion of a viewport point into a content-local transform origin, and the
    translate compensation applied when the transform origin moves.

    Placement convention (the CSS box model the source relies on): the content box
    sits at the frame's top-left corner and is drawn with
    `translate(t) scale(s)` around the transform origin `o`, so content-local
    coordinate `q` lands at frame coordinate `o + t + s * (q - o)` on each axis. */
module Geometry {

  /** A position in viewport coordinates: a contact's `clientX` and `clientY`, or the
      `left` and `top` of a bounding rectangle. */
  datatype Point = Point(x: real, y: real)

  function Abs(v: real): (r: real)
    ensures r >= 0.0 && r * r == v * v
  {
    if v < 0.0 then -v else v
  }

  /** The radicand of `getPointsDistance`: `|dx| * |dx| + |dy| * |dy|`. */
  function SquaredDistance(p: Point, q: Point): (r: real)
    ensures r == (p.x - q.x) * (p.x - q.x) + (p.y - q.y) * (p.y - q.y)
    ensures r >= 0.0
  {
    var dx := Abs(p.x - q.x);
    var dy := Abs(p.y - q.y);
    dx * dx + dy * dy
  }

  /** `d` is what `Math.sqrt` returns for the two contacts: the non-negative root
      of their squared distance. Dafny has no square root, so callers supply `d`. */
  predicate IsDistance(d: real, p: Point, q: Point)
  {
    d >= 0.0 && d * d == SquaredDistance(p, q)
  }

  /** The distance is determined by the two points: whatever root is supplied, it is the one. */
  lemma DistanceUnique(d1: real, d2: real, p: Point, q: Point)
    requires IsDistance(d1, p, q) && IsDistance(d2, p, q)
    ensures d1 == d2
  {
    if d1 < d2 {
      SquareStrictlyMonotone(d1, d2);
    } else if d2 < d1 {
      SquareStrictlyMonotone(d2, d1);
    }
  }

  lemma SquareStrictlyMonotone(a: real, b: real)
    requires 0.0 <= a < b
    ensures a * a < b * b
  {
    calc {
      a * a;
    <=  { assert a * (b - a) >= 0.0; }
      a * b;
    <   { assert (b - a) * b > 0.0; }
      b * b;
    }
  }

  lemma ProductZero(a: real, b: real)
    requires a * b == 0.0
    ensures a == 0.0 || b == 0.0
  {
    if a != 0.0 {
      assert b == (a * b) / a;
    }
  }

  /** Two contacts are at distance zero exactly when they coincide. */
  lemma DistanceZeroIff(d: real, p: Point, q: Point)
    requires IsDistance(d, p, q)
    ensures d == 0.0 <==> p == q
  {
    var dx, dy := p.x - q.x, p.y - q.y;
    assert dx * dx == Abs(dx) * Abs(dx) && dy * dy == Abs(dy) * Abs(dy);
    if d == 0.0 {
      if dx != 0.0 {
        SquareStrictlyMonotone(0.0, Abs(dx));
      }
      if dy != 0.0 {
        SquareStrictlyMonotone(0.0, Abs(dy));
      }
    } else if p == q {
      ProductZero(d, d);
    }
  }

  /** The midpoint of two contacts (`getMidPoint`): equidistant from both and at
      half their distance. */
  function MidPoint(p: Point, q: Point): (m: Point)
    ensures SquaredDistance(m, p) == SquaredDistance(m, q)
    ensures 4.0 * SquaredDistance(m, p) == SquaredDistance(p, q)
  {
    Point((p.x + q.x) / 2.0, (p.y + q.y) / 2.0)
  }

  /** Viewport position of content-local point `c` when the rendered content box has
      its top-left corner at viewport position (`left`, `top`) and is drawn at scale `s`. */
  function ToViewportPoint(c: Point, left: real, top: real, s: real): Point
  {
    Point(left + s * c.x, top + s * c.y)
  }

  /** `getTransformOrigin`: the content-local, pre-scale coordinates of viewport point
      `p`, given the rendered content rectangle's viewport `left` and `top` and the current
      scale. It is the content point drawn under `p`. */
  function ToContentOrigin(p: Point, left: real, top: real, s: real): (c: Point)
    requires s != 0.0
    ensures ToViewportPoint(c, left, top, s) == p
  {
    var c := Point((p.x - left) / s, (p.y - top) / s);
    DivisionUndone(p.x - left, s, c.x);
    DivisionUndone(p.y - top, s, c.y);
    assert ToViewportPoint(c, left, top, s) == Point(left + (p.x - left), top + (p.y - top));
    c
  }

  lemma DivisionUndone(a: real, s: real, q: real)
    requires s != 0.0 && q == a / s
    ensures s * q == a
  {
  }

  /** Frame coordinate of the content box's near edge on one axis under
      `translate(t) scale(s)` with transform origin `o`. */
  function RenderedEdge(t: real, o: real, s: real): real
  {
    t + o * (1.0 - s)
  }

  /** `adjustTranslates`: the translate change applied when the transform origin
      moves from `oldOrigin` to `newOrigin`. Both axes use the ratio of the rendered
      content height to the natural height, as the source does. */
  function OriginShiftCompensation(newOrigin: Point, oldOrigin: Point, renderedHeight: real,
                                   naturalWidth: real, naturalHeight: real): Point
    requires naturalWidth > 0.0 && naturalHeight > 0.0
  {
    Point((newOrigin.x - oldOrigin.x) * (renderedHeight - naturalHeight) / naturalWidth,
          (newOrigin.y - oldOrigin.y) * (renderedHeight - naturalHeight) / naturalHeight)
  }

  /** On the vertical axis the compensation keeps the content where it was: when
      the rendered height is the natural height times the drawn scale, moving the
      origin and adding the compensation leaves the top edge in place. */
  lemma CompensationKeepsTopEdge(t: real, newOrigin: Point, oldOrigin: Point, s: real,
                                 naturalWidth: real, naturalHeight: real)
    requires naturalWidth > 0.0 && naturalHeight > 0.0
    ensures var d := OriginShiftCompensation(newOrigin, oldOrigin, naturalHeight * s, naturalWidth, naturalHeight);
            RenderedEdge(t + d.y, newOrigin.y, s) == RenderedEdge(t, oldOrigin.y, s)
  {
    var dy := newOrigin.y - oldOrigin.y;
    assert dy * (naturalHeight * s - naturalHeight) / naturalHeight == dy * (s - 1.0);
  }

  /** On the horizontal axis the height ratio is used as well, so the left edge
      stays in place only when the origin did not move horizontally, the drawn
      scale is 1, or the content is square. */
  lemma CompensationKeepsLeftEdgeIff(t: real, newOrigin: Point, oldOrigin: Point, s: real,
                                     naturalWidth: real, naturalHeight: real)
    requires naturalWidth > 0.0 && naturalHeight > 0.0
    ensures var d := OriginShiftCompensation(newOrigin, oldOrigin, naturalHeight * s, naturalWidth, naturalHeight);
            RenderedEdge(t + d.x, newOrigin.x, s) == RenderedEdge(t, oldOrigin.x, s)
            <==> (newOrigin.x == oldOrigin.x || s == 1.0 || naturalWidth == naturalHeight)
  {
    var dx := newOrigin.x - oldOrigin.x;
    var d := OriginShiftCompensation(newOrigin, oldOrigin, naturalHeight * s, naturalWidth, naturalHeight);
    assert d.x == dx * (s - 1.0) * naturalHeight / naturalWidth;
    var gap := RenderedEdge(t + d.x, newOrigin.x, s) - RenderedEdge(t, oldOrigin.x, s);
    assert gap == d.x + dx * (1.0 - s);
    assert gap * naturalWidth == dx * (s - 1.0) * (naturalHeight - naturalWidth);
    if gap == 0.0 {
      ProductZero(dx * (s - 1.0), naturalHeight - naturalWidth);
      if dx * (s - 1.0) == 0.0 {
        ProductZero(dx, s - 1.0);
      }
    }
  }
}
