/**
 * The `CubesEditor` component's state and handlers
 * (src/components/CubesEditor.tsx:163-165, 181-185, 195-288, 310-313, 341-377).
 *
 * React state setters become field assignments. The effect that copies the
 * selected cube into the draft (lines 222-226) is run at the end of every
 * handler that gives `cubeDimensions` a new array or `selectedCube` a new
 * value, and only then.
 */
module Editor {
  import opened Wrappers
  import opened Geometry
  import opened Sequences
  import opened Cubes

  /** The draft before any cube has been selected (lines 211-217). */
  const InitialDraft := Cube(1.0, 1.0, 1.0, "#ffffff", Position(0.0, 0.0, 0.0))

  class CubesEditor {
    /** `cubeDimensions`: the authoritative cube list, addressed by index. */
    var cubes: seq<Cube>
    /** `selectedCube`: `None` for null. */
    var selected: Option<nat>
    /** `editDimensions`: the edit panel's working copy. */
    var draft: Cube
    var debugMode: bool
    var rotationLocked: bool

    /**
     * Every cube is within the position limits; the selection is a valid
     * index and exists only in debug mode; and while a cube is selected the
     * draft has its position (the panel has no position field).
     */
    ghost predicate Valid()
      reads this
    {
      AllInBounds(cubes) &&
      (selected.Some? ==>
         selected.value < |cubes| && debugMode &&
         draft.position == cubes[selected.value].position)
    }

    /** The component's initial state (lines 196-218). */
    constructor ()
      ensures Valid()
      ensures cubes == InitialLayout() && selected == None && draft == InitialDraft
      ensures !debugMode && !rotationLocked
    {
      cubes := InitialLayout();
      selected := None;
      draft := InitialDraft;
      debugMode := false;
      rotationLocked := false;
    }

    /**
     * `handleSelectCube` (lines 163-165) followed by the draft sync. Choosing
     * the cube that is already selected leaves the state as it is, so the
     * draft keeps its unapplied edits.
     */
    method Select(i: nat)
      requires Valid() && debugMode && i < |cubes|
      modifies this
      ensures Valid()
      ensures selected == Some(i)
      ensures draft == if old(selected) == Some(i) then old(draft) else cubes[i]
      ensures cubes == old(cubes)
      ensures debugMode == old(debugMode) && rotationLocked == old(rotationLocked)
    {
      if selected != Some(i) {
        selected := Some(i);
        draft := cubes[i];
      }
    }

    /**
     * A click on cube `i` (lines 82-85, 95-104); `draw` is the click's
     * `Math.random()`. In debug mode it selects the cube; otherwise it gives
     * only that cube a palette colour, through the per-index callback
     * (lines 181-185).
     */
    method Click(i: nat, draw: real)
      requires Valid() && i < |cubes| && 0.0 <= draw < 1.0
      modifies this
      ensures Valid()
      ensures debugMode == old(debugMode) && rotationLocked == old(rotationLocked)
      ensures old(debugMode) ==>
                selected == Some(i) && cubes == old(cubes) &&
                draft == (if old(selected) == Some(i) then old(draft) else cubes[i])
      ensures !old(debugMode) ==>
                selected == None && draft == old(draft) &&
                cubes == ReplaceAt(old(cubes), i, Recolored(old(cubes)[i], draw))
      ensures !old(debugMode) ==>
                |cubes| == |old(cubes)| && cubes[i].color in Palette &&
                cubes[i] == old(cubes)[i].(color := cubes[i].color) &&
                forall j :: 0 <= j < |cubes| && j != i ==> cubes[j] == old(cubes)[j]
    {
      if debugMode {
        Select(i);
      } else {
        cubes := ReplaceAt(cubes, i, Recolored(cubes[i], draw));
      }
    }

    /**
     * `handleDragEnd` (lines 54-67) for the selected cube, the only one with a
     * drag handle (line 71); `raw` is where the mesh was released. Returns
     * where the mesh is left, using the corrected snap-back.
     */
    method DragEnd(raw: Position) returns (meshAt: Position)
      requires Valid() && debugMode && selected.Some?
      modifies this
      ensures Valid()
      ensures selected == old(selected) && debugMode == old(debugMode)
      ensures rotationLocked == old(rotationLocked)
      ensures DragEndCommit(old(cubes)[selected.value], raw).None? ==>
                cubes == old(cubes) && draft == old(draft)
      ensures DragEndCommit(old(cubes)[selected.value], raw).Some? ==>
                cubes == ReplaceAt(old(cubes), selected.value,
                                   DragEndCommit(old(cubes)[selected.value], raw).value) &&
                draft == cubes[selected.value]
      ensures InBounds(meshAt) && meshAt == cubes[selected.value].position
    {
      var i := selected.value;
      meshAt := MeshAfterDragEnd(raw);
      MeshShowsCommitted(cubes[i], raw);
      var commit := DragEndCommit(cubes[i], raw);
      if commit.Some? {
        cubes := ReplaceAt(cubes, i, commit.value);
        draft := cubes[i];
      }
    }

    /** A width, height or depth field's `onChange` (lines 347, 356, 365). */
    method EditDimension(field: Dimension, parsed: Option<real>)
      requires Valid()
      modifies this
      ensures Valid()
      ensures draft == EditedDimension(old(draft), field, parsed)
      ensures cubes == old(cubes) && selected == old(selected)
      ensures debugMode == old(debugMode) && rotationLocked == old(rotationLocked)
    {
      draft := EditedDimension(draft, field, parsed);
    }

    /** The colour field's `onChange` (line 374): the draft's colour is replaced. */
    method EditColor(color: string)
      requires Valid()
      modifies this
      ensures Valid()
      ensures draft == old(draft).(color := color)
      ensures cubes == old(cubes) && selected == old(selected)
      ensures debugMode == old(debugMode) && rotationLocked == old(rotationLocked)
    {
      draft := draft.(color := color);
    }

    /**
     * `handleApplyDimensions` (lines 244-250): with a selection the draft
     * replaces the selected cube and nothing else; without one nothing
     * happens.
     */
    method Apply()
      requires Valid()
      modifies this
      ensures Valid()
      ensures old(selected).Some? ==>
                cubes == ReplaceAt(old(cubes), old(selected).value, old(draft))
      ensures old(selected).None? ==> cubes == old(cubes)
      ensures draft == old(draft) && selected == old(selected)
      ensures debugMode == old(debugMode) && rotationLocked == old(rotationLocked)
    {
      if selected.Some? {
        cubes := ReplaceAt(cubes, selected.value, draft);
        draft := cubes[selected.value];
      }
    }

    /**
     * `handleAddCube` (lines 266-279) for the draws `colorDraw`, `xDraw`,
     * `zDraw` of `Math.random()`. The new array re-runs the draft sync, so a
     * selected cube's draft is reset to the committed cube.
     */
    method Add(colorDraw: real, xDraw: real, zDraw: real)
      requires Valid() && 0.0 <= colorDraw < 1.0
      modifies this
      ensures Valid()
      ensures cubes == old(cubes) + [NewCube(colorDraw, xDraw, zDraw)]
      ensures selected == old(selected)
      ensures draft == if selected.Some? then cubes[selected.value] else old(draft)
      ensures debugMode == old(debugMode) && rotationLocked == old(rotationLocked)
    {
      cubes := cubes + [NewCube(colorDraw, xDraw, zDraw)];
      if selected.Some? {
        draft := cubes[selected.value];
      }
    }

    /**
     * `handleDeleteCube` (lines 282-288): with a selection that cube is
     * removed, the later ones shift down, and the selection is cleared;
     * without one nothing happens.
     */
    method Delete()
      requires Valid()
      modifies this
      ensures Valid()
      ensures old(selected).Some? ==> cubes == RemoveAt(old(cubes), old(selected).value)
      ensures old(selected).None? ==> cubes == old(cubes)
      ensures selected == None && draft == old(draft)
      ensures debugMode == old(debugMode) && rotationLocked == old(rotationLocked)
    {
      if selected.Some? {
        cubes := RemoveAt(cubes, selected.value);
        selected := None;
      }
    }

    /** The debug checkbox's `onChange` (lines 310-313); unchecking clears the selection. */
    method SetDebugMode(checked: bool)
      requires Valid()
      modifies this
      ensures Valid()
      ensures debugMode == checked
      ensures selected == if checked then old(selected) else None
      ensures cubes == old(cubes) && draft == old(draft)
      ensures rotationLocked == old(rotationLocked)
    {
      debugMode := checked;
      if !checked {
        selected := None;
      }
    }

    /**
     * The window `keydown` handler (lines 230-235) for a key with `code`:
     * Space flips the rotation lock and has its default action suppressed;
     * any other key changes nothing.
     */
    method KeyDown(code: string) returns (preventDefault: bool)
      requires Valid()
      modifies this
      ensures Valid()
      ensures preventDefault <==> code == "Space"
      ensures rotationLocked == (if code == "Space" then !old(rotationLocked) else old(rotationLocked))
      ensures cubes == old(cubes) && selected == old(selected) && draft == old(draft)
      ensures debugMode == old(debugMode)
    {
      preventDefault := code == "Space";
      if preventDefault {
        rotationLocked := !rotationLocked;
      }
    }
  }
}
