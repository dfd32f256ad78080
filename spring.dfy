/**
 * The spring resolver (where to snap back to after an overshoot) and the test that
 * ends the snap oscillation.
 */
module Spring {
  import opened Geometry

  /** Distance below which the snap is considered settled. */
  const OscillationLimit: real := 2.0

  /** Half of the scroll range on one axis, never negative. */
  function HalfBound(dimension: real, bound: real): (h: real)
    ensures h >= 0.0
    ensures h + h == Max(0.0, dimension - bound)
  {
    Max((dimension - bound) / 2.0, 0.0)
  }

  /**
   * calculateSpring: measures the centre relative to the middle of the scroll range.
   * Returns (false, Zero) when the centre lies in the range on both axes; otherwise
   * (true, anchor) where the anchor is the per-axis clamp of the centre.
   */
  function CalculateSpring(content: Size, bounds: Size, center: Point): (r: (bool, Point))
    ensures var hx := HalfBound(content.width, bounds.width);
            var hy := HalfBound(content.height, bounds.height);
      !r.0 <==> (0.0 <= center.x <= hx + hx && 0.0 <= center.y <= hy + hy)
    ensures !r.0 ==> r.1 == Zero
    ensures r.0 ==> r.1 == ConstrainOrigin(content, bounds, center)
  {
    var hboundX := HalfBound(content.width, bounds.width);
    var hboundY := HalfBound(content.height, bounds.height);
    var offsetX := center.x - hboundX;
    var offsetY := center.y - hboundY;
    if Abs(offsetX) <= hboundX && Abs(offsetY) <= hboundY then
      (false, Zero)
    else
      var x := (if Abs(offsetX) > hboundX then (if offsetX > 0.0 then hboundX else -hboundX) else offsetX) + hboundX;
      var y := (if Abs(offsetY) > hboundY then (if offsetY > 0.0 then hboundY else -hboundY) else offsetY) + hboundY;
      (true, Point(x, y))
  }

  /** The resolver reports "no snap needed" exactly for valid scroll origins. */
  lemma SpringInBoundsIffValid(content: Size, bounds: Size, center: Point)
    ensures !CalculateSpring(content, bounds, center).0
        <==> ConstrainOrigin(content, bounds, center) == center
  {
  }

  /** An anchor is a resting position: resolving it again asks for no further snap. */
  lemma AnchorIsAtRest(content: Size, bounds: Size, center: Point)
    requires CalculateSpring(content, bounds, center).0
    ensures !CalculateSpring(content, bounds, CalculateSpring(content, bounds, center).1).0
  {
  }

  /** No valid scroll origin is closer to the centre, on either axis, than the anchor. */
  lemma AnchorIsNearest(content: Size, bounds: Size, center: Point, p: Point)
    requires CalculateSpring(content, bounds, center).0
    requires ConstrainOrigin(content, bounds, p) == p
    ensures var a := CalculateSpring(content, bounds, center).1;
      Abs(a.x - center.x) <= Abs(p.x - center.x) && Abs(a.y - center.y) <= Abs(p.y - center.y)
  {
  }

  function SquaredDistance(p: Point, q: Point): (d: real)
    ensures d >= 0.0
  {
    (p.x - q.x) * (p.x - q.x) + (p.y - q.y) * (p.y - q.y)
  }

  /**
   * needToStopOscillation: the Euclidean distance between the centre and the anchor is
   * below OscillationLimit, compared on squares to avoid the square root.
   */
  function NeedToStopOscillation(current: Point, anchor: Point): (stop: bool)
    ensures stop ==>
      Abs(current.x - anchor.x) < OscillationLimit && Abs(current.y - anchor.y) < OscillationLimit
    ensures Abs(current.x - anchor.x) <= 1.0 && Abs(current.y - anchor.y) <= 1.0 ==> stop
  {
    SquareMonotone(Abs(current.x - anchor.x), OscillationLimit);
    SquareMonotone(Abs(current.y - anchor.y), OscillationLimit);
    SquareMonotone(1.0, Abs(current.x - anchor.x));
    SquareMonotone(1.0, Abs(current.y - anchor.y));
    SquaredDistance(current, anchor) < OscillationLimit * OscillationLimit
  }

  /** On non-negative reals, squaring preserves and reflects strict order. */
  lemma SquareMonotone(a: real, b: real)
    requires 0.0 <= a && 0.0 <= b
    ensures a < b <==> a * a < b * b
  {
    var lo, hi := Min(a, b), Max(a, b);
    var d := hi - lo;
    assert hi * hi == (lo + d) * (lo + d) == lo * lo + 2.0 * lo * d + d * d;
    assert lo * d >= 0.0;
  }

  /** Comparing squares agrees with comparing the non-negative square root. */
  lemma StopMatchesEuclideanDistance(current: Point, anchor: Point, dist: real)
    requires dist >= 0.0 && dist * dist == SquaredDistance(current, anchor)
    ensures NeedToStopOscillation(current, anchor) <==> dist < OscillationLimit
  {
    SquareMonotone(dist, OscillationLimit);
  }
}
