/**
 * Points, sizes and the clamping / rubber-banding arithmetic of the scroll view.
 * CGFloat coordinates are modelled as mathematical reals.
 */
module Geometry {

  datatype Point = Point(x: real, y: real)
  datatype Size = Size(width: real, height: real)

  const Zero: Point := Point(0.0, 0.0)
  const ZeroSize: Size := Size(0.0, 0.0)

  /** Fraction of an overshoot past the valid range that a drag still moves the content. */
  const RubberResistance: real := 0.3

  function Max(a: real, b: real): real { if a < b then b else a }
  function Min(a: real, b: real): real { if a < b then a else b }
  function Abs(a: real): real { if a < 0.0 then -a else a }

  /** Component-wise difference `p - q`. */
  function Sub(p: Point, q: Point): Point { Point(p.x - q.x, p.y - q.y) }

  function Negate(p: Point): Point { Point(-p.x, -p.y) }

  /**
   * constrainValue: the nearest point of the scroll range [0, dimension - bound];
   * when the content is not larger than the viewport the range collapses to 0.
   */
  function ConstrainValue(value: real, dimension: real, bound: real): (r: real)
    ensures 0.0 <= r <= Max(0.0, dimension - bound)
    ensures 0.0 <= value <= dimension - bound ==> r == value
    ensures dimension <= bound ==> r == 0.0
    ensures value < 0.0 ==> r == 0.0
    ensures value > dimension - bound ==> r == Max(0.0, dimension - bound)
  {
    Max(0.0, Min(dimension - bound, value))
  }

  /** A coordinate is a valid resting position when clamping leaves it where it is. */
  predicate InRange(value: real, dimension: real, bound: real)
  {
    ConstrainValue(value, dimension, bound) == value
  }

  /**
   * rubberValue: the clamped value plus the overshoot scaled by RubberResistance.
   * Inside the range it is the identity; outside it lies strictly between the edge
   * and the raw value, so it stays pinned to the same edge.
   */
  function RubberValue(value: real, dimension: real, bound: real): (r: real)
    ensures InRange(value, dimension, bound) ==> r == value
    ensures value < ConstrainValue(value, dimension, bound) ==>
      value < r < ConstrainValue(value, dimension, bound)
    ensures value > ConstrainValue(value, dimension, bound) ==>
      ConstrainValue(value, dimension, bound) < r < value
    ensures ConstrainValue(r, dimension, bound) == ConstrainValue(value, dimension, bound)
  {
    var constrained := ConstrainValue(value, dimension, bound);
    var offset := value - constrained;
    constrained + offset * RubberResistance
  }

  /** constraintXValue: clamp against the content width and the viewport width. */
  function ConstraintXValue(content: Size, bounds: Size, value: real): real
  {
    ConstrainValue(value, content.width, bounds.width)
  }

  /** constraintYValue: clamp against the content height and the viewport height. */
  function ConstraintYValue(content: Size, bounds: Size, value: real): real
  {
    ConstrainValue(value, content.height, bounds.height)
  }

  /** Both axes clamped: the nearest valid scroll origin. */
  function ConstrainOrigin(content: Size, bounds: Size, p: Point): (r: Point)
    ensures 0.0 <= r.x <= Max(0.0, content.width - bounds.width)
    ensures 0.0 <= r.y <= Max(0.0, content.height - bounds.height)
  {
    Point(ConstraintXValue(content, bounds, p.x), ConstraintYValue(content, bounds, p.y))
  }

  /** rubberOrigin: rubber-band each axis independently. */
  function RubberOrigin(content: Size, bounds: Size, p: Point): (r: Point)
    ensures ConstrainOrigin(content, bounds, r) == ConstrainOrigin(content, bounds, p)
    ensures ConstrainOrigin(content, bounds, p) == p ==> r == p
  {
    Point(RubberValue(p.x, content.width, bounds.width),
          RubberValue(p.y, content.height, bounds.height))
  }

  /** Dragging further never moves the rubber-banded coordinate back. */
  lemma RubberMonotone(v1: real, v2: real, dimension: real, bound: real)
    requires v1 < v2
    ensures RubberValue(v1, dimension, bound) < RubberValue(v2, dimension, bound)
  {
  }

  /** The distance to the valid range is cut to RubberResistance of the raw overshoot. */
  lemma RubberScalesOvershoot(value: real, dimension: real, bound: real)
    ensures var r := RubberValue(value, dimension, bound);
      Abs(r - ConstrainValue(r, dimension, bound))
        == RubberResistance * Abs(value - ConstrainValue(value, dimension, bound))
  {
  }
}
