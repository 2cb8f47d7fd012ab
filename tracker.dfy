/** Pointer tracking: the pan delta `moveDistance` derives from two consecutive
    contact samples, and the incremental pinch ratio `moveScale` applies. */
module PointerTracker {
  import opened Basics
  import opened Geometry

  /** `moveDistance` reads only contacts that exist: with a baseline present, the
      single-contact branch reads contact 0 of both samples and the two-contact
      branch reads contacts 0 and 1 of both (an absent contact throws in the source). */
  predicate PanReadable(last: Option<seq<Point>>, touches: seq<Point>)
  {
    last.Some? ==>
      if |last.value| == 1 || |touches| == 1 then |last.value| >= 1 && |touches| >= 1
      else |last.value| > 1 ==> |touches| >= 2
  }

  /** The translate increment of `moveDistance`: nothing without a baseline, the
      contact-0 displacement when either sample has one contact, and the mean of the
      contact-0 and contact-1 displacements when both have several. */
  function PanDelta(last: Option<seq<Point>>, touches: seq<Point>): Point
    requires PanReadable(last, touches)
  {
    match last
    case None => Point(0.0, 0.0)
    case Some(prev) =>
      if |prev| == 1 || |touches| == 1 then
        Point(touches[0].x - prev[0].x, touches[0].y - prev[0].y)
      else if |prev| > 1 then
        Point((touches[0].x - prev[0].x + touches[1].x - prev[1].x) / 2.0,
              (touches[0].y - prev[0].y + touches[1].y - prev[1].y) / 2.0)
      else
        Point(0.0, 0.0)
  }

  /** `touches` is `prev` with every contact moved by `v`. */
  predicate Shifted(prev: seq<Point>, touches: seq<Point>, v: Point)
  {
    |touches| == |prev| &&
    forall i :: 0 <= i < |prev| ==> touches[i] == Point(prev[i].x + v.x, prev[i].y + v.y)
  }

  /** A rigid move of all contacts pans the content by exactly that move, whether
      one or several contacts are down. */
  lemma PanDeltaOfRigidMove(prev: seq<Point>, touches: seq<Point>, v: Point)
    requires |prev| >= 1 && Shifted(prev, touches, v)
    ensures PanReadable(Some(prev), touches)
    ensures PanDelta(Some(prev), touches) == v
  {
    assert touches[0] == Point(prev[0].x + v.x, prev[0].y + v.y);
    if |prev| > 1 {
      assert touches[1] == Point(prev[1].x + v.x, prev[1].y + v.y);
    }
  }

  /** Moving from one sample to another and back pans by opposite amounts, so a
      gesture that returns its contacts to where they were returns the content. */
  lemma PanDeltaAntisymmetric(a: seq<Point>, b: seq<Point>)
    requires |a| >= 1 && |b| >= 1
    ensures PanReadable(Some(a), b) && PanReadable(Some(b), a)
    ensures PanDelta(Some(a), b).x + PanDelta(Some(b), a).x == 0.0
    ensures PanDelta(Some(a), b).y + PanDelta(Some(b), a).y == 0.0
  {
  }

  /** `moveScale` runs only when both the baseline and the new sample have more
      than one contact. */
  predicate PinchApplies(last: Option<seq<Point>>, touches: seq<Point>)
  {
    last.Some? && |last.value| > 1 && |touches| > 1
  }

  /** The scale after one pinch step from contact distance `lastDistance` to `currentDistance`. */
  function PinchScale(scale: real, lastDistance: real, currentDistance: real): real
    requires lastDistance != 0.0
  {
    scale * currentDistance / lastDistance
  }

  /** A pinch step keeps the scale positive. */
  lemma PinchScalePositive(scale: real, lastDistance: real, currentDistance: real)
    requires scale > 0.0 && lastDistance > 0.0 && currentDistance > 0.0
    ensures PinchScale(scale, lastDistance, currentDistance) > 0.0
  {
    assert scale * currentDistance > 0.0;
  }

  /** Every entry of `ds` is a positive contact distance. */
  predicate AllPositive(ds: seq<real>)
  {
    forall i :: 0 <= i < |ds| ==> ds[i] > 0.0
  }

  /** The scale after a run of touchmove events whose contact distances are `ds`,
      starting from distance `d0`: each event applies one `PinchScale` step and its
      distance becomes the next baseline. */
  function PinchRun(scale: real, d0: real, ds: seq<real>): real
    requires d0 > 0.0 && AllPositive(ds)
    decreases |ds|
  {
    if ds == [] then scale else PinchRun(PinchScale(scale, d0, ds[0]), ds[0], ds[1..])
  }

  function LastDistance(d0: real, ds: seq<real>): real
  {
    if ds == [] then d0 else ds[|ds| - 1]
  }

  /** The incremental per-event ratios compose: a run of pinch events scales by the
      ratio of the final contact distance to the distance at the start of the run. */
  lemma {:induction false} PinchRunTelescopes(scale: real, d0: real, ds: seq<real>)
    requires d0 > 0.0 && AllPositive(ds)
    ensures PinchRun(scale, d0, ds) == PinchScale(scale, d0, LastDistance(d0, ds))
    decreases |ds|
  {
    if ds != [] {
      var d1, rest, l := ds[0], ds[1..], LastDistance(d0, ds);
      TailFacts(d0, ds);
      var next := PinchScale(scale, d0, d1);
      PinchRunUnfold(scale, d0, ds);
      PinchRunTelescopes(next, d1, rest);
      RatiosCancel(scale, d0, d1, l, next);
    }
  }

  lemma PinchRunUnfold(scale: real, d0: real, ds: seq<real>)
    requires d0 > 0.0 && ds != [] && AllPositive(ds) && AllPositive(ds[1..])
    ensures PinchRun(scale, d0, ds) == PinchRun(PinchScale(scale, d0, ds[0]), ds[0], ds[1..])
  {
  }

  lemma TailFacts(d0: real, ds: seq<real>)
    requires ds != [] && AllPositive(ds)
    ensures AllPositive(ds[1..]) && ds[0] > 0.0
    ensures LastDistance(ds[0], ds[1..]) == LastDistance(d0, ds)
  {
    forall i | 0 <= i < |ds| - 1 ensures ds[1..][i] > 0.0 { assert ds[1..][i] == ds[i + 1]; }
  }

  lemma RatiosCancel(a: real, d0: real, d1: real, l: real, next: real)
    requires d0 > 0.0 && d1 > 0.0 && next == PinchScale(a, d0, d1)
    ensures PinchScale(next, d1, l) == PinchScale(a, d0, l)
  {
    assert next * d0 == a * d1;
    var y := next * l / d1;
    assert y * d1 == next * l;
    assert (y * d0) * d1 == (next * d0) * l;
    assert (y * d0) * d1 == (a * l) * d1;
    assert y * d0 == a * l;
  }
}
