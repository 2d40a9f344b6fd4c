/** Interaction sequences verified against the editor's contracts alone. */
module Scenarios {
  import opened Wrappers
  import opened Geometry
  import opened Cubes
  import opened Editor

  /** Six default cubes, debug on, cube 2 selected, width 3 typed and then "abc": the draft width is 1. */
  method UnparseableWidthFallsBack() returns (width: real)
    ensures width == 1.0
  {
    var e := new CubesEditor();
    e.SetDebugMode(true);
    e.Click(2, 0.0);
    e.EditDimension(Width, Some(3.0));
    e.EditDimension(Width, None);
    width := e.draft.width;
  }

  /** Cube 0 starts at (-2, 0.5, -1); released at (8, 0.5, -1) it commits (5, 0.5, -1). */
  method DragPastEdgeCommitsBoundary() returns (committed: Position, meshAt: Position)
    ensures committed == Position(5.0, 0.5, -1.0)
    ensures meshAt == committed
  {
    var e := new CubesEditor();
    e.SetDebugMode(true);
    e.Click(0, 0.0);
    meshAt := e.DragEnd(Position(8.0, 0.5, -1.0));
    committed := e.cubes[0].position;
  }

  /** Selecting another cube discards the unapplied edits made to the previous one. */
  method SwitchingSelectionResetsDraft(e: CubesEditor, i: nat, j: nat, parsed: Option<real>)
    requires e.Valid() && e.debugMode && i < |e.cubes| && j < |e.cubes| && i != j
    modifies e
    ensures e.Valid() && e.cubes == old(e.cubes)
    ensures e.selected == Some(j) && e.draft == e.cubes[j]
  {
    e.Select(i);
    e.EditDimension(Width, parsed);
    e.Select(j);
  }

  /** Two Space presses restore the rotation lock and leave everything else as it was. */
  method SpaceTwiceRestores(e: CubesEditor)
    requires e.Valid()
    modifies e
    ensures e.Valid() && e.rotationLocked == old(e.rotationLocked)
    ensures e.cubes == old(e.cubes) && e.selected == old(e.selected) && e.draft == old(e.draft)
    ensures e.debugMode == old(e.debugMode)
  {
    var _ := e.KeyDown("Space");
    var _ := e.KeyDown("Space");
  }

  /** Turning debug mode off always clears the selection, and a later apply or delete then does nothing. */
  method DebugOffDisablesEditing(e: CubesEditor)
    requires e.Valid()
    modifies e
    ensures e.Valid() && e.selected == None && !e.debugMode
    ensures e.cubes == old(e.cubes)
  {
    e.SetDebugMode(false);
    e.Apply();
    e.Delete();
  }
}
