/**
 * Axis ranges and clamping for cube positions (src/components/CubesEditor.tsx:12-20).
 * Coordinates are modelled as reals; IEEE details such as NaN and -0 are not.
 */
module Geometry {

  function Min(a: real, b: real): real { if a <= b then a else b }

  function Max(a: real, b: real): real { if a >= b then a else b }

  /** A closed interval `[lo, hi]` of one axis. */
  datatype Range = Range(lo: real, hi: real)

  predicate Within(v: real, range: Range) { range.lo <= v <= range.hi }

  /**
   * What clamping `v` into `range` must give: a value of the range, `v` itself
   * when it already lies inside, and the edge it overshot otherwise.
   */
  predicate IsClampOf(r: real, v: real, range: Range)
  {
    Within(r, range) &&
    (Within(v, range) ==> r == v) &&
    (v < range.lo ==> r == range.lo) &&
    (range.hi < v ==> r == range.hi)
  }

  /** `clamp(value, min, max)`, written as `Math.min(Math.max(value, min), max)`. */
  function Clamp(v: real, lo: real, hi: real): (r: real)
    ensures lo <= hi ==> IsClampOf(r, v, Range(lo, hi))
    ensures hi <= v ==> r == hi
    ensures hi < lo ==> r == hi
  {
    Min(Max(v, lo), hi)
  }

  /** `POSITION_LIMITS`, one range per axis. */
  const XLimits := Range(-5.0, 5.0)
  const YLimits := Range(0.0, 5.0)
  const ZLimits := Range(-5.0, 5.0)

  /** A cube's `position: [x, y, z]`. */
  datatype Position = Position(x: real, y: real, z: real)

  predicate InBounds(p: Position)
  {
    Within(p.x, XLimits) && Within(p.y, YLimits) && Within(p.z, ZLimits)
  }

  /** The drag-end `map`: each coordinate clamped to the limits of its own axis. */
  function ClampPosition(p: Position): (r: Position)
    ensures InBounds(r)
    ensures InBounds(p) ==> r == p
    ensures IsClampOf(r.x, p.x, XLimits)
    ensures IsClampOf(r.y, p.y, YLimits)
    ensures IsClampOf(r.z, p.z, ZLimits)
  {
    Position(Clamp(p.x, XLimits.lo, XLimits.hi),
             Clamp(p.y, YLimits.lo, YLimits.hi),
             Clamp(p.z, ZLimits.lo, ZLimits.hi))
  }

  /** The drag-end `some`: does any coordinate of `a` differ from that of `b`? */
  function PositionChanged(a: Position, b: Position): (r: bool)
    ensures r <==> a != b
  {
    a.x != b.x || a.y != b.y || a.z != b.z
  }
}
