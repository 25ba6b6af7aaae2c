/** Drag bounds of the two overlays, derived from the shirt's measured box
    (src/App.jsx, lines 122-133). Coordinates are offsets from the shirt's centre. */
module Geometry {
  import opened Wrappers

  /** The width and height of the shirt element's bounding client rectangle. */
  datatype Rect = Rect(width: real, height: real)

  /** The `dragConstraints` object: either the empty object `{}`, which leaves a
      drag unconstrained, or the four edges of a box. */
  datatype Bounds = Unconstrained | Box(left: real, right: real, top: real, bottom: real)

  /** An overlay's stored offset, as in `{ x, y }`. */
  datatype Position = Position(x: real, y: real)

  /** Both overlays start at the shirt's centre. */
  const Origin := Position(0.0, 0.0)

  /** `getShirtBounds`: `shirt` is the measurement of `shirtBoundsRef.current`,
      absent while the element is not mounted. */
  function GetShirtBounds(shirt: Option<Rect>): (b: Bounds)
    ensures shirt.None? <==> b.Unconstrained?
    ensures b.Box? ==> b.left == -b.right && b.top == -b.bottom
    ensures b.Box? ==> b.right - b.left == shirt.value.width && b.bottom - b.top == shirt.value.height
  {
    match shirt
    case None => Unconstrained
    case Some(rect) =>
      Box(-rect.width / 2.0, rect.width / 2.0, -rect.height / 2.0, rect.height / 2.0)
  }

  /** Whether a position lies inside the bounds (every position lies inside `{}`). */
  predicate Within(b: Bounds, p: Position)
  {
    match b
    case Unconstrained => true
    case Box(l, r, t, bt) => l <= p.x <= r && t <= p.y <= bt
  }

  /** The overlays' initial position lies inside the bounds of any measured shirt,
      and inside the unconstrained bounds of an unmounted one. */
  lemma OriginWithinShirtBounds(shirt: Option<Rect>)
    requires shirt.Some? ==> shirt.value.width >= 0.0 && shirt.value.height >= 0.0
    ensures Within(GetShirtBounds(shirt), Origin)
  {
  }

  /** A position lies inside the bounds of a measured `w` by `h` shirt exactly when
      its distance from the centre is at most half the size on each axis. */
  lemma WithinShirtBounds(w: real, h: real, p: Position)
    ensures Within(GetShirtBounds(Some(Rect(w, h))), p) <==>
      (-w / 2.0 <= p.x <= w / 2.0 && -h / 2.0 <= p.y <= h / 2.0)
  {
  }
}
