/**
 * The cube entity and the pure parts of the per-cube handlers
 * (src/components/CubesEditor.tsx:10, 54-67, 95-104, 198-210, 266-279, 341-377).
 * `Math.random()` draws are parameters of the functions that use them.
 */
module Cubes {
  import opened Wrappers
  import opened Geometry

  /** One entry of `cubeDimensions`; also the shape of the edit draft. */
  datatype Cube = Cube(width: real, height: real, depth: real, color: string, position: Position)

  /** `initialColors`, the six-colour palette. */
  const Palette: seq<string> := ["#ff0000", "#00ff00", "#0000ff", "#ffff00", "#ff00ff", "#00ffff"]

  predicate IsUnitCube(c: Cube) { c.width == 1.0 && c.height == 1.0 && c.depth == 1.0 }

  predicate AllInBounds(cubes: seq<Cube>)
  {
    forall i :: 0 <= i < |cubes| ==> InBounds(cubes[i].position)
  }

  /** `Math.floor(u * initialColors.length)` for a draw `u` of `Math.random()`. */
  function PaletteIndex(u: real): (k: nat)
    requires 0.0 <= u < 1.0
    ensures k < |Palette|
    ensures k as real <= u * |Palette| as real < k as real + 1.0
  {
    (u * |Palette| as real).Floor
  }

  /** Every palette entry is reachable: the draw `k / 6` picks entry `k`. */
  lemma PaletteIndexOnto(k: nat)
    requires k < |Palette|
    ensures 0.0 <= k as real / |Palette| as real < 1.0
    ensures PaletteIndex(k as real / |Palette| as real) == k
  {
  }

  /** `initialColors[Math.floor(Math.random() * initialColors.length)]`. */
  function RandomColor(u: real): (color: string)
    requires 0.0 <= u < 1.0
    ensures color in Palette
  {
    Palette[PaletteIndex(u)]
  }

  /** Cube number `index` of the initial layout: a unit cube on a 3 x 2 grid, resting at y = 0.5. */
  function InitialCube(color: string, index: nat): Cube
  {
    Cube(1.0, 1.0, 1.0, color,
         Position(((index % 3) * 2 - 2) as real, 0.5, ((index / 3) * 2 - 1) as real))
  }

  /** The initial `cubeDimensions`: `initialColors.map(...)`. */
  function InitialLayout(): (r: seq<Cube>)
    ensures |r| == |Palette|
    ensures AllInBounds(r)
    ensures forall i :: 0 <= i < |r| ==> r[i].color == Palette[i] && IsUnitCube(r[i])
  {
    seq(|Palette|, i requires 0 <= i < |Palette| => InitialCube(Palette[i], i))
  }

  /** No two cubes of the initial layout share a position. */
  lemma InitialLayoutDistinct(i: nat, j: nat)
    requires i < j < |InitialLayout()|
    ensures InitialLayout()[i].position != InitialLayout()[j].position
  {
  }

  /** The non-debug click (lines 100-103): the cube gets a random palette colour. */
  function Recolored(c: Cube, u: real): (r: Cube)
    requires 0.0 <= u < 1.0
    ensures r.color in Palette
    ensures r.width == c.width && r.height == c.height && r.depth == c.depth
    ensures r.position == c.position
  {
    c.(color := RandomColor(u))
  }

  /**
   * What drag-end commits for cube `c` whose mesh was released at `raw`: nothing
   * when the clamped position equals the committed one, otherwise `c` moved
   * to the clamped position with every other field kept.
   */
  function DragEndCommit(c: Cube, raw: Position): (r: Option<Cube>)
    ensures r.None? <==> ClampPosition(raw) == c.position
    ensures r.Some? ==> r.value.width == c.width && r.value.height == c.height
                        && r.value.depth == c.depth && r.value.color == c.color
    ensures r.Some? ==> InBounds(r.value.position) && r.value.position == ClampPosition(raw)
    ensures InBounds(raw) && raw != c.position ==> r == Some(c.(position := raw))
  {
    var p := ClampPosition(raw);
    if PositionChanged(p, c.position) then Some(c.(position := p)) else None
  }

  /**
   * Where the dragged mesh is left after drag-end AS WRITTEN (lines 62-63):
   * it is moved to the clamped position only when a commit happens, and stays
   * where it was released otherwise.
   */
  function MeshAfterDragEndAsWritten(committed: Position, raw: Position): (r: Position)
    ensures r == ClampPosition(raw) || r == raw
    ensures !InBounds(r) <==> !InBounds(raw) && ClampPosition(raw) == committed
  {
    var p := ClampPosition(raw);
    if PositionChanged(p, committed) then p else raw
  }

  /**
   * A cube already at x = 5 and dragged out to x = 9 commits nothing, and as
   * written its mesh is left outside the board, away from its committed position.
   */
  lemma MeshLeftOutOfBounds()
    ensures var c := Cube(1.0, 1.0, 1.0, "#ff0000", Position(5.0, 0.5, -1.0));
            var raw := Position(9.0, 0.5, -1.0);
            DragEndCommit(c, raw) == None &&
            !InBounds(MeshAfterDragEndAsWritten(c.position, raw)) &&
            MeshAfterDragEndAsWritten(c.position, raw) != c.position
  {
  }

  /** Where the dragged mesh is left after drag-end, corrected: always snapped back into the limits. */
  function MeshAfterDragEnd(raw: Position): (r: Position)
    ensures InBounds(r)
    ensures InBounds(raw) ==> r == raw
  {
    ClampPosition(raw)
  }

  /** With the correction the mesh always shows the position the cube has after drag-end. */
  lemma MeshShowsCommitted(c: Cube, raw: Position)
    ensures MeshAfterDragEnd(raw) == (match DragEndCommit(c, raw)
                                      case Some(moved) => moved.position
                                      case None => c.position)
  {
  }

  /** The three dimension fields of the edit panel. */
  datatype Dimension = Width | Height | Depth

  function DimensionOf(c: Cube, field: Dimension): real
  {
    match field
    case Width => c.width
    case Height => c.height
    case Depth => c.depth
  }

  /**
   * `parseFloat(text) || 1`, where `parsed` is `None` when `parseFloat` yields
   * NaN: an unparseable or zero entry becomes 1; anything else, negative
   * numbers included, is kept.
   */
  function DimensionInput(parsed: Option<real>): (r: real)
    ensures r != 0.0
    ensures parsed.Some? && parsed.value != 0.0 ==> r == parsed.value
    ensures parsed.None? || parsed == Some(0.0) ==> r == 1.0
  {
    match parsed
    case Some(v) => if v != 0.0 then v else 1.0
    case None => 1.0
  }

  /** A dimension field's `onChange`: that field of the draft takes the entry, nothing else changes. */
  function EditedDimension(d: Cube, field: Dimension, parsed: Option<real>): (r: Cube)
    ensures DimensionOf(r, field) == DimensionInput(parsed)
    ensures forall f :: f != field ==> DimensionOf(r, f) == DimensionOf(d, f)
    ensures r.color == d.color && r.position == d.position
  {
    var v := DimensionInput(parsed);
    match field
    case Width => d.(width := v)
    case Height => d.(height := v)
    case Depth => d.(depth := v)
  }

  /** `Math.random() * (max - min) + min` for a draw `u`. */
  function RandomIn(u: real, range: Range): real
  {
    u * (range.hi - range.lo) + range.lo
  }

  /**
   * The cube `handleAddCube` appends, for draws `colorDraw`, `xDraw`, `zDraw`
   * of `Math.random()`: unit size, a palette colour, y = 0.5, and x and z
   * spread over their ranges (clamped, so in bounds whatever the draws).
   */
  function NewCube(colorDraw: real, xDraw: real, zDraw: real): (c: Cube)
    requires 0.0 <= colorDraw < 1.0
    ensures IsUnitCube(c) && c.color in Palette
    ensures InBounds(c.position) && c.position.y == 0.5
    ensures 0.0 <= xDraw < 1.0 ==> c.position.x == 10.0 * xDraw - 5.0
    ensures 0.0 <= zDraw < 1.0 ==> c.position.z == 10.0 * zDraw - 5.0
  {
    Cube(1.0, 1.0, 1.0, RandomColor(colorDraw),
         Position(Clamp(RandomIn(xDraw, XLimits), XLimits.lo, XLimits.hi),
                  Clamp(0.5, YLimits.lo, YLimits.hi),
                  Clamp(RandomIn(zDraw, ZLimits), ZLimits.lo, ZLimits.hi)))
  }
}
