# Cubes editor — a Dafny model

This project models the editor state machine of the `CubesEditor` React
component (`src/components/CubesEditor.tsx`): an ordered list of cubes, each
with width, height, depth, a colour string and an `[x, y, z]` position; the
selection (`selectedCube`, null or an index); the edit panel's draft
(`editDimensions`); and the `debugMode` and `rotationLocked` flags. The
handlers that change this state are modelled together with the per-cube
handlers that feed them: drag-end commit, the click that selects or recolours,
the per-index replace callback, select, the field edits, apply, add, delete,
the debug checkbox and the Space key.

Layout:

- `geometry.dfy` (`Geometry`): `clamp`, `POSITION_LIMITS`, positions.
- `sequences.dfy` (`Sequences`): copy-and-replace at an index, and the
  index filter used by delete.
- `cubes.dfy` (`Cubes`): the cube record, the palette, the initial layout,
  and the pure parts of the handlers. These are the random recolour, the
  drag-end commit, the `|| 1` field fallback and the cube that add appends.
- `editor.dfy` (`Editor`): class `CubesEditor`. Its fields are the
  component's state and its methods are the handlers. `Valid()` is the
  invariant they all keep.
- `scenarios.dfy` (`Scenarios`): short interaction sequences checked only
  against the class's contracts.
- `wrappers.dfy` (`Wrappers`): `Option`.

Modelling choices:

- Coordinates and dimensions are `real`. NaN and `-0` are not modelled.
- Every `Math.random()` draw is a `real` parameter. Draws that index the
  palette must lie in `[0, 1)`, as `Math.random()` promises. The x and z draws
  of add may be any real, because add clamps them anyway.
- `parseFloat` is an `Option<real>` input. `None` stands for NaN.
- The effect at lines 222-226 copies `cubeDimensions[selectedCube]` into the
  draft. It runs synchronously at the end of a handler, but only when that
  handler gave `cubeDimensions` a new array or `selectedCube` a new value.
  React only re-runs the effect in those cases. The model follows from this:
  - Selecting the cube that is already selected keeps the draft's unapplied
    edits.
  - Add and a committing drag-end, with a cube selected, reset the draft to
    the committed cube.
- A drag-end can only come from the selected cube in debug mode. Only that
  cube gets a `TransformControls` handle (line 71). `DragEnd` therefore
  acts on the selected cube.

Behaviour of the code that the model keeps:

- The edit panel has no position fields (lines 341-377). While a cube is
  selected, the draft's position is that cube's committed position (part of
  `Valid()`), so apply cannot move a cube out of bounds.
- `parseFloat(...) || 1` replaces only NaN and 0, so a typed negative
  dimension is kept (`Cubes.DimensionInput`).
- The mesh is moved back to the clamped position only when a commit happens
  (see Findings).

## Model

| member | source | states |
|---|---|---|
| `Geometry.Clamp` | src/components/CubesEditor.tsx:20 | When min ≤ max: the result lies in [min, max], equals the value when it is already in range, and otherwise equals the edge it overshot. When max < min: the result is max. |
| `Geometry.ClampPosition` | src/components/CubesEditor.tsx:13-17 | Each axis is clamped to its own limits: x to [-5,5], y to [0,5], z to [-5,5]. The result is in bounds. An in-bounds position is returned unchanged. |
| `Geometry.PositionChanged` | src/components/CubesEditor.tsx:61 | The per-coordinate `some(... !== ...)` test holds exactly when the two positions differ. |
| `Sequences.ReplaceAt` | src/components/CubesEditor.tsx:181-185 | The per-index callback's copy keeps the length, holds the new cube at index i, and leaves every other index unchanged. |
| `Sequences.FilterIndexDropsOne` | src/components/CubesEditor.tsx:284 | Filtering out an index inside the array drops exactly that element. The elements before and after it keep their order. |
| `Sequences.FilterIndexKeepsAll` | src/components/CubesEditor.tsx:284 | Filtering out an index outside the array leaves the array unchanged. |
| `Sequences.RemoveAt` | src/components/CubesEditor.tsx:284 | For a valid index: the result is the array without that element, one shorter. Earlier entries stay in place and later ones shift down by one. For any other index: the array is unchanged. |
| `Cubes.PaletteIndex` | src/components/CubesEditor.tsx:102 | `Math.floor(u * 6)` for a draw u in [0,1) is a valid palette index. It is the floor of u·6. |
| `Cubes.PaletteIndexOnto` | src/components/CubesEditor.tsx:102 | Every one of the six palette indices is picked by some draw in [0,1). |
| `Cubes.RandomColor` | src/components/CubesEditor.tsx:10 | A random draw always yields one of the six `initialColors`. |
| `Cubes.InitialLayout` | src/components/CubesEditor.tsx:198-210 | The initial list has six cubes. Every one is 1×1×1 and in bounds, and cube i has palette colour i. |
| `Cubes.InitialLayoutDistinct` | src/components/CubesEditor.tsx:204-208 | No two cubes of the initial grid share a position. |
| `Cubes.Recolored` | src/components/CubesEditor.tsx:100-103 | The non-debug click gives the cube a palette colour. Width, height, depth and position are kept. |
| `Cubes.DragEndCommit` | src/components/CubesEditor.tsx:54-65 | Drag-end commits nothing exactly when the clamped position equals the committed one. Otherwise it commits the cube at the clamped, in-bounds position with the other four fields kept. An in-bounds release at a new place is committed as is. |
| `Cubes.MeshAfterDragEndAsWritten` | src/components/CubesEditor.tsx:62-63 | As written, the mesh is left either at the clamped position or at the release point. For every input it ends up out of bounds exactly when the release point was out of bounds and clamping it gives back the committed position. |
| `Cubes.MeshLeftOutOfBounds` | src/components/CubesEditor.tsx:60-65 | A cube at x = 5 released at x = 9 commits nothing. As written, its mesh is then left out of bounds and away from the committed position. |
| `Cubes.MeshAfterDragEnd` | src/components/CubesEditor.tsx:62-63 | Corrected snap-back: the mesh is always left in bounds, and unchanged when the release point was in bounds. |
| `Cubes.MeshShowsCommitted` | src/components/CubesEditor.tsx:54-65 | With the correction, the mesh always shows the cube's committed position after drag-end, whether or not a commit happened. |
| `Cubes.DimensionInput` | src/components/CubesEditor.tsx:347 | `parseFloat(...) \|\| 1` is never 0. NaN and 0 become 1, and every other number is kept. |
| `Cubes.EditedDimension` | src/components/CubesEditor.tsx:344-366 | A width, height or depth edit sets that one field to the fallback-applied entry. The other two dimensions, the colour and the position are unchanged. |
| `Cubes.NewCube` | src/components/CubesEditor.tsx:266-277 | The added cube is 1×1×1 with a palette colour, y = 0.5 and an in-bounds position. For draws in [0,1), x and z are 10·draw − 5, so the clamp never alters them. |
| `Editor.CubesEditor.constructor` | src/components/CubesEditor.tsx:196-218 | The initial state: the default layout, no selection, the white default draft, debug off, rotation unlocked. `Valid()` holds. |
| `Editor.CubesEditor.Select` | src/components/CubesEditor.tsx:163-165 | Selecting i makes `selected` equal i. A newly selected cube's draft is an exact copy of `cubes[i]`. Re-selecting the current cube keeps the draft. Nothing else changes. |
| `Editor.CubesEditor.Click` | src/components/CubesEditor.tsx:95-104 | In debug mode a click selects. Otherwise it changes only `cubes[i].color`, to a palette colour. The length, every other entry, the selection and the draft are unchanged. |
| `Editor.CubesEditor.DragEnd` | src/components/CubesEditor.tsx:54-67 | Without a commit nothing changes. With one, only the selected index is replaced, and the draft is re-synced to it. The mesh is left in bounds at the committed position. |
| `Editor.CubesEditor.EditDimension` | src/components/CubesEditor.tsx:344-366 | Only the draft changes, by `EditedDimension`. The list, the selection and the flags are unchanged. |
| `Editor.CubesEditor.EditColor` | src/components/CubesEditor.tsx:374 | Only the draft's colour changes. |
| `Editor.CubesEditor.Apply` | src/components/CubesEditor.tsx:244-250 | With a selection the draft is written verbatim to `cubes[sel]` and no other index changes. With no selection nothing happens. The positions stay in bounds. |
| `Editor.CubesEditor.Add` | src/components/CubesEditor.tsx:266-279 | The list becomes the old list plus `NewCube` at the end, and the selection is unchanged. A selected cube's draft is re-synced. |
| `Editor.CubesEditor.Delete` | src/components/CubesEditor.tsx:282-288 | With a selection exactly that index is removed and the order is kept. With or without one, the selection is null afterwards. |
| `Editor.CubesEditor.SetDebugMode` | src/components/CubesEditor.tsx:310-313 | The flag takes the checkbox value. Unchecking clears the selection, and nothing else changes. |
| `Editor.CubesEditor.KeyDown` | src/components/CubesEditor.tsx:230-235 | Space flips only `rotationLocked` and reports its default action suppressed. Any other key changes nothing. |
| `Scenarios.UnparseableWidthFallsBack` | src/components/CubesEditor.tsx:347 | Debug on, select cube 2, type width 3, then an unparseable width: the draft's width is 1. |
| `Scenarios.DragPastEdgeCommitsBoundary` | src/components/CubesEditor.tsx:54-65 | Cube 0 at (-2, 0.5, -1) released at (8, 0.5, -1) commits (5, 0.5, -1), and the mesh shows it. |
| `Scenarios.SwitchingSelectionResetsDraft` | src/components/CubesEditor.tsx:222-226 | Select i, edit, then select j ≠ i: the draft is exactly `cubes[j]`, with no leakage of the edit. |
| `Scenarios.SpaceTwiceRestores` | src/components/CubesEditor.tsx:230-235 | Two Space presses restore `rotationLocked` and change nothing else. |
| `Scenarios.DebugOffDisablesEditing` | src/components/CubesEditor.tsx:310-313 | After debug is turned off the selection is null, so a following apply and delete leave the list unchanged. |

Every method of `Editor.CubesEditor` requires and ensures `Valid()`, so three
things hold after any sequence of handlers from the constructor on. Every
cube's position is in bounds. The selection is null or an index below
`|cubes|`. The selection is null whenever debug mode is off.

## Findings

| source | as written | input that shows it | evidently intended | confidence | as-written member | corrected member |
|---|---|---|---|---|---|---|
| src/components/CubesEditor.tsx:62-63 | The mesh is moved back to the clamped position only inside `if (hasChanged)`. | A cube already at (5, 0.5, -1) is dragged to (9, 0.5, -1). The clamped position equals the committed one, so nothing is set, and the mesh stays at x = 9, off the board. | After every drag-end the mesh snaps back to the clamped position, which is then the committed one. | medium, not executed | `Cubes.MeshAfterDragEndAsWritten` (`Cubes.MeshLeftOutOfBounds`) | `Cubes.MeshAfterDragEnd` (`Cubes.MeshShowsCommitted`, used by `Editor.CubesEditor.DragEnd`) |

## Left out

- Rendering is not modelled, being calls into the scene-graph engine. This
  covers the meshes and lights, the `Base` plane, the mesh scale sync
  (lines 47-51), the `AxesHelper` add/remove (lines 145-153) and the
  OrbitControls `enableRotate` switch (lines 156-160, 189).
- Live dragging through `TransformControls`, with its 0.1 snap (lines 72-78),
  is engine behaviour. `DragEnd` takes only the raw release position.
- Save (lines 253-263) is left out. It needs `JSON.stringify`, Blob/URL and a
  DOM download.
- Registering and removing the window `keydown` listener (lines 237-240) is
  host plumbing. Only the key rule is modelled.
- The instructions toggle and the JSX layout are UI only.
- Click propagation (`stopPropagation`) is host event plumbing.
- `Cubes.NewCube`: states that x and z land in their ranges, not that they
  are uniformly distributed, because the draws are parameters.
- `Editor.CubesEditor.DragEnd`: returns the corrected mesh position
  (`Cubes.MeshAfterDragEnd`), not the as-written one. The difference is
  recorded under Findings.
- IEEE doubles (NaN, `-0`, rounding) are not modelled, because coordinates
  are `real`. `parseFloat`'s string parsing is replaced by its parsed result.
