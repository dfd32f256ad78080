/**
 * The scroll view itself: the content-size property with its scroll-axis mask, the
 * masking of disabled axes, and the pan-gesture and simulation callbacks as methods
 * on the view's fields. The physics engine is external: the positions it produces
 * for the simulated item arrive as method arguments.
 */
module ScrollViews {
  import opened Geometry
  import opened Spring

  /** The scroll-axis mask (a UInt8 in the view): one bit per scrollable axis. */
  const NoScrolling: bv8 := 0
  const Horizontal: bv8 := 1 << 0
  const Vertical: bv8 := 1 << 1

  /** The point with every component on a disabled axis replaced by 0. */
  function Masked(state: bv8, p: Point): Point
  {
    Point(if state & Horizontal == 0 then 0.0 else p.x,
          if state & Vertical == 0 then 0.0 else p.y)
  }

  /** Which behaviours the dynamic animator currently holds for the simulated item. */
  datatype Simulation =
    | Idle
      // free deceleration seeded with a release velocity
    | Coasting(velocity: Point)
      // spring attached at `anchor`, plus a push of `push` = centre - anchor, which
      // carries the item's motion on past the edge before the spring pulls it back
    | Snapping(anchor: Point, push: Point)

  class ScrollView {
    var contentSize: Size     // _contentSize, read back by the getter
    var boundsSize: Size      // bounds.size, set by the layout system
    var boundsOrigin: Point   // bounds.origin: the visible scroll position
    var state: bv8            // scroll-axis mask
    var origin: Point         // bounds origin snapshotted when a drag begins
    var itemCenter: Point     // centre of the simulated item
    var attached: bool        // whether a spring attachment has been created
    var simulation: Simulation

    /** The mask agrees with the content and viewport sizes; no bit but the two axis bits. */
    predicate Consistent()
      reads this
    {
      (state & Horizontal != 0 <==> contentSize.width > boundsSize.width) &&
      (state & Vertical != 0 <==> contentSize.height > boundsSize.height) &&
      state & !(Horizontal | Vertical) == 0
    }

    /** A spring anchor is always a non-negative resting position. */
    predicate Valid()
      reads this
    {
      simulation.Snapping? ==> simulation.anchor.x >= 0.0 && simulation.anchor.y >= 0.0
    }

    /** A view laid out with the given frame size; every other field at its initial value. */
    constructor (frame: Size)
      ensures Valid()
      ensures frame.width >= 0.0 && frame.height >= 0.0 ==> Consistent()
      ensures boundsSize == frame && boundsOrigin == Zero
      ensures contentSize == ZeroSize && state == NoScrolling
      ensures origin == Zero && itemCenter == Zero && !attached && simulation == Idle
    {
      boundsSize := frame;
      boundsOrigin := Zero;
      contentSize := ZeroSize;
      state := NoScrolling;
      origin := Zero;
      itemCenter := Zero;
      attached := false;
      simulation := Idle;
    }

    /**
     * The contentSize setter: recomputes the axis mask against the current viewport and
     * stores the size; nothing else changes and no simulation starts.
     */
    method SetContentSize(newValue: Size)
      requires Valid()
      modifies this
      ensures Valid()
      ensures contentSize == newValue && Consistent()
      ensures state & Horizontal != 0 <==> newValue.width > boundsSize.width
      ensures state & Vertical != 0 <==> newValue.height > boundsSize.height
      ensures boundsSize == old(boundsSize) && boundsOrigin == old(boundsOrigin)
      ensures origin == old(origin) && itemCenter == old(itemCenter)
      ensures attached == old(attached) && simulation == old(simulation)
    {
      var scrollState := NoScrolling;
      if newValue.width > boundsSize.width {
        scrollState := scrollState | Horizontal;
      }
      if newValue.height > boundsSize.height {
        scrollState := scrollState | Vertical;
      }
      state := scrollState;
      contentSize := newValue;
    }

    /** updateByState: zero each component whose axis bit is clear, keep the others. */
    method UpdateByState(point: Point) returns (updated: Point)
      ensures updated.x == 0.0 <== state & Horizontal == 0
      ensures updated.x == point.x <== state & Horizontal != 0
      ensures updated.y == 0.0 <== state & Vertical == 0
      ensures updated.y == point.y <== state & Vertical != 0
      ensures updated == Masked(state, point)
    {
      updated := point;
      if state & Horizontal == 0 {
        updated := updated.(x := 0.0);
      }
      if state & Vertical == 0 {
        updated := updated.(y := 0.0);
      }
    }

    /** Pan began: snapshot the bounds origin and cancel any running simulation. */
    method DragBegan()
      requires Valid()
      modifies this
      ensures Valid()
      ensures origin == boundsOrigin == old(boundsOrigin)
      ensures !attached && simulation == Idle
      ensures contentSize == old(contentSize) && boundsSize == old(boundsSize)
      ensures state == old(state) && itemCenter == old(itemCenter)
    {
      origin := boundsOrigin;
      simulation := Idle;
      attached := false;
    }

    /**
     * Pan changed with the cumulative translation since it began: the snapshot minus the
     * translation, rubber-banded, then masked, becomes the bounds origin.
     */
    method DragChanged(translation: Point)
      requires Valid()
      modifies this
      ensures Valid()
      ensures boundsOrigin == Masked(state, RubberOrigin(contentSize, boundsSize, Sub(origin, translation)))
      ensures state & Horizontal == 0 ==> boundsOrigin.x == 0.0
      ensures state & Vertical == 0 ==> boundsOrigin.y == 0.0
      ensures boundsSize == old(boundsSize) && contentSize == old(contentSize)
      ensures state == old(state) && origin == old(origin) && itemCenter == old(itemCenter)
      ensures attached == old(attached) && simulation == old(simulation)
    {
      var potentialOrigin := Point(origin.x - translation.x, origin.y - translation.y);
      var recalculatedOrigin := RubberOrigin(contentSize, boundsSize, potentialOrigin);
      recalculatedOrigin := UpdateByState(recalculatedOrigin);
      boundsOrigin := recalculatedOrigin;
    }

    /**
     * Pan ended with the gesture's velocity: the simulated item starts at the bounds
     * origin and coasts with the negated velocity, disabled axes zeroed.
     */
    method DragEnded(velocity: Point)
      requires Valid()
      modifies this
      ensures Valid()
      ensures itemCenter == boundsOrigin
      ensures simulation == Coasting(Masked(state, Negate(velocity)))
      ensures state & Horizontal == 0 ==> simulation.velocity.x == 0.0
      ensures state & Vertical == 0 ==> simulation.velocity.y == 0.0
      ensures boundsOrigin == old(boundsOrigin) && boundsSize == old(boundsSize)
      ensures contentSize == old(contentSize) && state == old(state)
      ensures origin == old(origin) && attached == old(attached)
    {
      var v := velocity;
      v := v.(x := -v.x);
      v := v.(y := -v.y);
      v := UpdateByState(v);
      itemCenter := boundsOrigin;
      simulation := Coasting(v);
    }

    /**
     * One tick of the coasting simulation, after the engine moved the item to `center`.
     * The first time the item is out of range a spring to the anchor replaces the
     * coasting; otherwise the bounds follow the item.
     */
    method CoastTick(center: Point)
      requires Valid() && simulation.Coasting?
      modifies this
      ensures Valid()
      ensures itemCenter == center
      ensures var (needSnap, anchor) := CalculateSpring(contentSize, boundsSize, center);
        if needSnap && !old(attached) then
          attached && simulation == Snapping(anchor, Sub(center, anchor))
          && anchor == ConstrainOrigin(contentSize, boundsSize, center)
          && boundsOrigin == old(boundsOrigin)
        else
          attached == old(attached) && simulation == old(simulation) && boundsOrigin == center
      ensures boundsSize == old(boundsSize) && contentSize == old(contentSize)
      ensures state == old(state) && origin == old(origin)
    {
      itemCenter := center;
      var (needSnap, anchor) := CalculateSpring(contentSize, boundsSize, itemCenter);
      if needSnap && !attached {
        attached := true;
        var pushVelocity := Point(itemCenter.x - anchor.x, itemCenter.y - anchor.y);
        simulation := Snapping(anchor, pushVelocity);
      } else {
        boundsOrigin := itemCenter;
      }
    }

    /**
     * One tick of the snap, after the engine moved the item to `center`: the bounds follow
     * the item, and once it is within OscillationLimit of the anchor the spring is removed
     * and the bounds land exactly on the anchor.
     */
    method SnapTick(center: Point)
      requires Valid() && simulation.Snapping?
      modifies this
      ensures Valid()
      ensures itemCenter == center
      ensures var anchor := old(simulation).anchor;
        if NeedToStopOscillation(center, anchor) then
          boundsOrigin == anchor && simulation == Idle
          && boundsOrigin.x >= 0.0 && boundsOrigin.y >= 0.0
        else
          boundsOrigin == center && simulation == old(simulation)
      ensures boundsSize == old(boundsSize) && contentSize == old(contentSize)
      ensures state == old(state) && origin == old(origin) && attached == old(attached)
    {
      itemCenter := center;
      var anchor := simulation.anchor;
      boundsOrigin := itemCenter;
      if NeedToStopOscillation(itemCenter, anchor) {
        simulation := Idle;
        boundsOrigin := anchor;
      }
    }
  }

  /**
   * Masking before rubber-banding gives the same origin as rubber-banding before masking
   * whenever the mask agrees with the sizes: a disabled axis has an empty range.
   */
  lemma MaskCommutesWithRubber(state: bv8, content: Size, bounds: Size, p: Point)
    requires state & Horizontal != 0 <==> content.width > bounds.width
    requires state & Vertical != 0 <==> content.height > bounds.height
    ensures Masked(state, RubberOrigin(content, bounds, p))
         == RubberOrigin(content, bounds, Masked(state, p))
  {
  }

  /**
   * On an enabled axis the content follows the finger: a larger translation always gives a
   * strictly smaller bounds origin, also while rubber-banding past an edge.
   */
  lemma DragFollowsFinger(state: bv8, content: Size, bounds: Size, origin: Point, t1: Point, t2: Point)
    ensures t1.x < t2.x && state & Horizontal != 0 ==>
      Masked(state, RubberOrigin(content, bounds, Sub(origin, t2))).x
        < Masked(state, RubberOrigin(content, bounds, Sub(origin, t1))).x
    ensures t1.y < t2.y && state & Vertical != 0 ==>
      Masked(state, RubberOrigin(content, bounds, Sub(origin, t2))).y
        < Masked(state, RubberOrigin(content, bounds, Sub(origin, t1))).y
  {
    if t1.x < t2.x {
      RubberMonotone(origin.x - t2.x, origin.x - t1.x, content.width, bounds.width);
    }
    if t1.y < t2.y {
      RubberMonotone(origin.y - t2.y, origin.y - t1.y, content.height, bounds.height);
    }
  }
}
