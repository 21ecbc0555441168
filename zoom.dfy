/** Zooming: the acceptance test and offset arithmetic of zoomBy, and the
    scale limits and update rule of the pinch gesture. */
module Zoom {
  import opened Numeric

  /** zoomBy takes a factor only when the resulting zoom lies strictly
      between the global minimum and maximum zoom. */
  predicate Accepts(zoom: real, factor: real, minZoom: real, maxZoom: real) {
    minZoom < zoom * factor < maxZoom
  }

  /** The new offset on one axis when zooming by `factor` about the view
      point `c`: the document point under `c`, scaled by the factor, is under
      `c` again. */
  function ZoomedOffset(o: real, c: real, factor: real): (r: real)
    ensures r + c == factor * (o + c)
  {
    -((factor * -o) + (1.0 - factor) * c)
  }

  /** The new integer offset, rounded as QPointF::toPoint rounds. */
  function ZoomedPoint(offset: Point, center: Point, factor: real): (p: Point)
    ensures factor == 1.0 ==> p == offset
    ensures -0.5 < p.x as real + center.x as real - factor * (offset.x + center.x) as real <= 0.5
    ensures -0.5 < p.y as real + center.y as real - factor * (offset.y + center.y) as real <= 0.5
  {
    Point(Round(ZoomedOffset(offset.x as real, center.x as real, factor)),
          Round(ZoomedOffset(offset.y as real, center.y as real, factor)))
  }

  /** Zooming by `f` and then by `g` with `f * g == 1` about the same centre
      returns to the original offset whenever the first zoom needed no
      rounding. */
  lemma ZoomRoundTrip(offset: Point, center: Point, f: real, g: real)
    requires f * g == 1.0
    requires ToVec(ZoomedPoint(offset, center, f)) ==
             Vec(ZoomedOffset(offset.x as real, center.x as real, f),
                 ZoomedOffset(offset.y as real, center.y as real, f))
    ensures ZoomedPoint(ZoomedPoint(offset, center, f), center, g) == offset
  {
    var mid := ZoomedPoint(offset, center, f);
    AxisRoundTrip(offset.x as real, center.x as real, mid.x as real, f, g);
    AxisRoundTrip(offset.y as real, center.y as real, mid.y as real, f, g);
  }

  lemma AxisRoundTrip(o: real, c: real, m: real, f: real, g: real)
    requires f * g == 1.0 && m == ZoomedOffset(o, c, f)
    ensures ZoomedOffset(m, c, g) == o
  {
    calc {
      ZoomedOffset(m, c, g) + c;
      g * (m + c);
      g * (f * (o + c));
      (g * f) * (o + c);
      o + c;
    }
  }

  /** The pinch gesture's scale limits, taken at its start from the zoom
      handler's zoom `z0`. */
  datatype Limits = Limits(lo: real, hi: real)

  /** The lower limit maps exactly onto the global minimum zoom; the upper
      limit misses the global maximum by (z0 - 1) * (maxZoom - z0), so it
      overshoots it when 1 < z0 < maxZoom and falls short when z0 < 1. */
  function PinchLimits(z0: real, minZoom: real, maxZoom: real): (l: Limits)
    requires z0 > 0.0
    ensures z0 * l.lo == minZoom
    ensures z0 * l.hi == maxZoom + (z0 - 1.0) * (maxZoom - z0)
  {
    Limits(minZoom / z0, 1.0 + (maxZoom - z0))
  }

  /** The initial scale 1 lies inside the limits exactly when the zoom at the
      start lies inside the global zoom range. */
  lemma PinchStartsInside(z0: real, minZoom: real, maxZoom: real)
    requires z0 > 0.0
    ensures var l := PinchLimits(z0, minZoom, maxZoom);
      (l.lo <= 1.0 <= l.hi) <==> (minZoom <= z0 <= maxZoom)
  {
    var l := PinchLimits(z0, minZoom, maxZoom);
    assert l.lo <= 1.0 <==> z0 * l.lo <= z0 * 1.0;
  }

  /** A pinch that starts at zoom 2 with a maximum zoom of 4 may grow the
      preview to scale 2.5, which zoomBy then refuses. */
  lemma PinchPreviewBeyondMaximum()
    ensures var l := PinchLimits(2.0, 0.5, 4.0);
      PinchStep(1.0, l, 1.5) == 2.5 && !Accepts(2.0, 2.5, 0.5, 4.0)
  {
  }

  /** One pinch update by `delta` (scaleFactor - lastScaleFactor): an update
      that would grow the scale past the upper limit, or shrink it below the
      lower one, is dropped; any other is applied. */
  function PinchStep(scale: real, l: Limits, delta: real): (r: real)
    ensures r == scale || r == scale + delta
    ensures l.lo <= scale + delta <= l.hi ==> r == scale + delta
    ensures (0.0 <= delta ==> scale <= r) && (delta <= 0.0 ==> r <= scale)
    ensures l.lo <= scale <= l.hi ==> l.lo <= r <= l.hi
    ensures (scale < scale + delta && l.hi < scale + delta) || (scale + delta < scale && scale + delta < l.lo)
      ==> r == scale
    ensures !((scale < scale + delta && l.hi < scale + delta) || (scale + delta < scale && scale + delta < l.lo))
      ==> r == scale + delta
  {
    var newScale := scale + delta;
    if newScale > scale && newScale > l.hi then scale
    else if newScale < scale && newScale < l.lo then scale
    else newScale
  }

  /** A sequence of pinch updates. */
  function PinchSweep(scale: real, l: Limits, deltas: seq<real>): (r: real)
    ensures l.lo <= scale <= l.hi ==> l.lo <= r <= l.hi
    ensures (forall i :: 0 <= i < |deltas| ==> 0.0 <= deltas[i]) ==> scale <= r
    decreases |deltas|
  {
    if deltas == [] then scale else PinchSweep(PinchStep(scale, l, deltas[0]), l, deltas[1..])
  }
}
