/** Convention-to-convention renaming of the bones of one armature
    (`ARMATURE_OT_rename_bones.rename_bones`). The armature's bones are an
    array of names; a rename overwrites one element in place. */
module Rename {
  import opened Wrappers
  import opened Tables

  /** Why a rename run stops: a convention key that the key-to-slot dictionary
      does not know, or a slot index past the end of a row. */
  datatype RenameError = UnknownFormat(key: string) | SlotOutOfRange(slot: nat, arity: nat)

  /** The state of a run after some rows: the bone names, the number of renames
      made so far, and the error that stopped the run, if any. */
  datatype Run = Run(names: seq<string>, count: nat, error: Option<RenameError>)

  /** The position of the bone that a lookup by name finds: the first bone with that name. */
  function FirstIndex(names: seq<string>, name: string): (i: nat)
    requires name in names
    ensures i < |names| && names[i] == name
    ensures forall j :: 0 <= j < i ==> names[j] != name
  {
    if names[0] == name then 0 else 1 + FirstIndex(names[1..], name)
  }

  /** Gives the bone that a lookup by `source` finds the name `target`. */
  function RenameBone(names: seq<string>, source: string, target: string): (r: seq<string>)
    requires source in names
    ensures |r| == |names| && target in r
    ensures forall j :: 0 <= j < |names| && names[j] != source ==> r[j] == names[j]
    ensures source == target ==> r == names
  {
    var k := FirstIndex(names, source);
    assert names[k := target][k] == target;
    names[k := target]
  }

  /** The guard of one row: both slots are filled and a bone has the source name. */
  predicate Applies(row: seq<string>, s: nat, t: nat, names: seq<string>)
    requires s < |row| && t < |row|
    ensures row[s] != "" && row[t] != "" ==>
      (Applies(row, s, t, names) <==> exists i :: 0 <= i < |names| && names[i] == row[s])
    ensures Applies(row, s, t, names) ==> |row[s]| > 0 && |row[t]| > 0
  {
    row[s] != "" && row[t] != "" && row[s] in names
  }

  /** One row of the table: reading a slot past the end of the row stops the run
      with an error; otherwise the row renames when its guard holds. A run that
      has stopped stays as it is. */
  function RowStep(run: Run, row: seq<string>, s: nat, t: nat): (r: Run)
    ensures |r.names| == |run.names|
    ensures run.count <= r.count <= run.count + 1
    ensures run.error.Some? ==> r == run
    ensures r.error.Some? <==> run.error.Some? || s >= |row| || t >= |row|
  {
    if run.error.Some? then run
    else if s >= |row| then run.(error := Some(SlotOutOfRange(s, |row|)))
    else if t >= |row| then run.(error := Some(SlotOutOfRange(t, |row|)))
    else if Applies(row, s, t, run.names) then Run(RenameBone(run.names, row[s], row[t]), run.count + 1, None)
    else run
  }

  /** The rows of a table, one after the other in table order. */
  function RunRows(start: Run, rows: seq<seq<string>>, s: nat, t: nat): (r: Run)
    ensures |r.names| == |start.names|
    ensures start.count <= r.count
    decreases |rows|
  {
    if rows == [] then start
    else RowStep(RunRows(start, rows[..|rows| - 1], s, t), rows[|rows| - 1], s, t)
  }

  /** A whole rename: both keys are looked up first (source, then target); then
      the core rows run, then the finger rows when they are asked for. */
  function RenameRun(names: seq<string>, sourceFormat: string, targetFormat: string, includeFingers: bool): (r: Run)
    ensures |r.names| == |names|
    ensures r.error.None? ==> sourceFormat in FormatMapping && targetFormat in FormatMapping
    ensures sourceFormat !in FormatMapping ==> r == Run(names, 0, Some(UnknownFormat(sourceFormat)))
  {
    if sourceFormat !in FormatMapping then Run(names, 0, Some(UnknownFormat(sourceFormat)))
    else if targetFormat !in FormatMapping then Run(names, 0, Some(UnknownFormat(targetFormat)))
    else
      var s, t := FormatMapping[sourceFormat], FormatMapping[targetFormat];
      var core := RunRows(Run(names, 0, None), CoreRows, s, t);
      if includeFingers then RunRows(core, FingerRows, s, t) else core
  }

  /** What the caller sees of a run: the number of renames, or the error. */
  function Outcome(run: Run): (r: Result<nat, RenameError>)
    ensures r.Success? <==> run.error.None?
    ensures r.Success? ==> r.value == run.count
    ensures r.Failure? ==> run.error == Some(r.error)
  {
    if run.error.Some? then Failure(run.error.value) else Success(run.count)
  }

  /** The number of rows whose source slot exists, is filled and names a bone in `names`. */
  function PresentRows(rows: seq<seq<string>>, names: seq<string>, s: nat): nat
    decreases |rows|
  {
    if rows == [] then 0
    else
      var row := rows[|rows| - 1];
      PresentRows(rows[..|rows| - 1], names, s) + (if s < |row| && row[s] != "" && row[s] in names then 1 else 0)
  }

  // ---------------------------------------------------------------------------
  // One row

  /** A row renames exactly when its guard holds, and then only the bone that the
      lookup by the source name finds changes, to the target name; every other
      bone keeps its name. */
  lemma RowStepRenamesOnlySource(run: Run, row: seq<string>, s: nat, t: nat)
    requires run.error.None? && s < |row| && t < |row|
    ensures var r := RowStep(run, row, s, t);
      && r.error.None?
      && |r.names| == |run.names|
      && (r.count == run.count + 1 <==> Applies(row, s, t, run.names))
      && (r.count == run.count <==> !Applies(row, s, t, run.names))
      && (Applies(row, s, t, run.names) ==> r.names[FirstIndex(run.names, row[s])] == row[t])
      && (forall j :: 0 <= j < |run.names| && r.names[j] != run.names[j] ==> run.names[j] == row[s] && r.names[j] == row[t])
      && (forall j :: 0 <= j < |run.names| && run.names[j] != row[s] ==> r.names[j] == run.names[j])
      && (!Applies(row, s, t, run.names) ==> r == run)
      && (Applies(row, s, t, run.names) ==>
            forall j :: 0 <= j < |run.names| && j != FirstIndex(run.names, row[s]) ==> r.names[j] == run.names[j])
  {
  }

  /** Running a row backwards undoes it, provided the target name was not already
      taken by another bone. */
  lemma RowStepRoundTrip(names: seq<string>, count: nat, row: seq<string>, s: nat, t: nat)
    requires s < |row| && t < |row| && Applies(row, s, t, names) && row[t] !in names
    ensures var there := RowStep(Run(names, count, None), row, s, t);
      RowStep(there, row, t, s) == Run(names, count + 2, None)
  {
    var i := FirstIndex(names, row[s]);
    var there := RenameBone(names, row[s], row[t]);
    assert there[i] == row[t];
    assert Applies(row, t, s, there);
    assert FirstIndex(there, row[t]) == i;
    assert there[i := row[s]] == names;
  }

  // ---------------------------------------------------------------------------
  // A table of rows

  /** A run never changes the number of bones and makes at most one rename per row. */
  lemma {:induction false} RunRowsBounds(start: Run, rows: seq<seq<string>>, s: nat, t: nat)
    ensures var r := RunRows(start, rows, s, t);
      |r.names| == |start.names| && start.count <= r.count <= start.count + |rows|
  {
    if rows != [] {
      RunRowsBounds(start, rows[..|rows| - 1], s, t);
    }
  }

  /** Once a run has stopped, no further row changes it. */
  lemma {:induction false} RunRowsAfterError(start: Run, rows: seq<seq<string>>, s: nat, t: nat)
    requires start.error.Some?
    ensures RunRows(start, rows, s, t) == start
  {
    if rows != [] {
      RunRowsAfterError(start, rows[..|rows| - 1], s, t);
    }
  }

  /** Running two tables one after the other is running their concatenation:
      every row of the first is visited before any row of the second. */
  lemma {:induction false} RunRowsAppend(start: Run, a: seq<seq<string>>, b: seq<seq<string>>, s: nat, t: nat)
    ensures RunRows(start, a + b, s, t) == RunRows(RunRows(start, a, s, t), b, s, t)
    decreases |b|
  {
    if b == [] {
      assert a + b == a;
    } else {
      assert (a + b)[..|a + b| - 1] == a + b[..|b| - 1];
      RunRowsAppend(start, a, b[..|b| - 1], s, t);
    }
  }

  /** When a run stops at row `i`, the rows after it change nothing. */
  lemma RunRowsStopsAt(start: Run, rows: seq<seq<string>>, i: nat, s: nat, t: nat)
    requires i < |rows| && RunRows(start, rows[..i + 1], s, t).error.Some?
    ensures RunRows(start, rows, s, t) == RunRows(start, rows[..i + 1], s, t)
  {
    var done, rest := rows[..i + 1], rows[i + 1..];
    assert rows == done + rest;
    RunRowsAppend(start, done, rest, s, t);
    RunRowsAfterError(RunRows(start, done, s, t), rest, s, t);
  }

  /** A table whose first row is too short for a slot fails there, before any rename. */
  lemma RunRowsFailsAtFirstRow(start: Run, rows: seq<seq<string>>, s: nat, t: nat)
    requires start.error.None? && |rows| > 0 && (s >= |rows[0]| || t >= |rows[0]|)
    ensures RunRows(start, rows, s, t)
      == start.(error := Some(SlotOutOfRange(if s >= |rows[0]| then s else t, |rows[0]|)))
  {
    assert rows[..1] == [rows[0]];
    assert RunRows(start, rows[..0], s, t) == start by { assert rows[..0] == []; }
    RunRowsStopsAt(start, rows, 0, s, t);
  }

  /** A run over rows long enough for both slots never stops with an error. */
  lemma {:induction false} RunRowsWithinArity(start: Run, rows: seq<seq<string>>, s: nat, t: nat)
    requires start.error.None?
    requires forall i :: 0 <= i < |rows| ==> s < |rows[i]| && t < |rows[i]|
    ensures RunRows(start, rows, s, t).error.None?
  {
    if rows != [] {
      RunRowsWithinArity(start, rows[..|rows| - 1], s, t);
    }
  }

  /** Renaming a convention to itself leaves every name as it is, yet still counts
      each row whose source bone is present. */
  lemma {:induction false} RunRowsSameSlot(start: Run, rows: seq<seq<string>>, s: nat)
    requires start.error.None?
    requires forall i :: 0 <= i < |rows| ==> s < |rows[i]|
    ensures var r := RunRows(start, rows, s, s);
      r.error.None? && r.names == start.names && r.count == start.count + PresentRows(rows, start.names, s)
  {
    if rows != [] {
      RunRowsSameSlot(start, rows[..|rows| - 1], s);
      var before := RunRows(start, rows[..|rows| - 1], s, s);
      var row := rows[|rows| - 1];
      if Applies(row, s, s, before.names) {
        var i := FirstIndex(before.names, row[s]);
        assert before.names[i := row[s]] == before.names;
      }
    }
  }

  // ---------------------------------------------------------------------------
  // A whole rename

  /** A key missing from the key-to-slot dictionary fails the call before any bone is renamed. */
  lemma UnknownFormatRenamesNothing(names: seq<string>, sourceFormat: string, targetFormat: string, includeFingers: bool)
    requires sourceFormat !in FormatMapping || targetFormat !in FormatMapping
    ensures var r := RenameRun(names, sourceFormat, targetFormat, includeFingers);
      r.names == names && r.count == 0
      && r.error == Some(UnknownFormat(if sourceFormat !in FormatMapping then sourceFormat else targetFormat))
  {
  }

  /** With both keys known, a rename visits the core rows in table order, then,
      only when fingers are asked for, the finger rows in table order. */
  lemma FingersFollowCore(names: seq<string>, sourceFormat: string, targetFormat: string, includeFingers: bool)
    requires sourceFormat in FormatMapping && targetFormat in FormatMapping
    ensures var s, t := FormatMapping[sourceFormat], FormatMapping[targetFormat];
      RenameRun(names, sourceFormat, targetFormat, includeFingers)
        == RunRows(Run(names, 0, None), if includeFingers then CoreRows + FingerRows else CoreRows, s, t)
  {
    var s, t := FormatMapping[sourceFormat], FormatMapping[targetFormat];
    if includeFingers {
      RunRowsAppend(Run(names, 0, None), CoreRows, FingerRows, s, t);
    }
  }

  /** A rename keeps the number of bones, and its count is at most the number of rows visited. */
  lemma RenameRunBounds(names: seq<string>, sourceFormat: string, targetFormat: string, includeFingers: bool)
    ensures var r := RenameRun(names, sourceFormat, targetFormat, includeFingers);
      |r.names| == |names| && r.count <= |CoreRows| + (if includeFingers then |FingerRows| else 0)
  {
    if sourceFormat in FormatMapping && targetFormat in FormatMapping {
      var s, t := FormatMapping[sourceFormat], FormatMapping[targetFormat];
      FingersFollowCore(names, sourceFormat, targetFormat, includeFingers);
      RunRowsBounds(Run(names, 0, None), if includeFingers then CoreRows + FingerRows else CoreRows, s, t);
    }
  }

  /** Renaming a convention to itself changes no name and succeeds, yet counts
      every row whose source bone is present (the slot must exist in every row
      visited). */
  lemma SameFormatKeepsNames(names: seq<string>, format: string, includeFingers: bool)
    requires format in FormatMapping
    requires FormatMapping[format] < 10 || (FormatMapping[format] == 10 && !includeFingers)
    ensures var s := FormatMapping[format];
      var r := RenameRun(names, format, format, includeFingers);
      r.error.None? && r.names == names
      && r.count == PresentRows(CoreRows, names, s) + (if includeFingers then PresentRows(FingerRows, names, s) else 0)
  {
    var s := FormatMapping[format];
    CoreRowsHaveElevenSlots();
    FingerRowsHaveTenSlots();
    RunRowsSameSlot(Run(names, 0, None), CoreRows, s);
    if includeFingers {
      var core := RunRows(Run(names, 0, None), CoreRows, s, s);
      RunRowsSameSlot(core, FingerRows, s);
    }
  }

  /** The `unknown` convention maps to slot 11, past the end of every row: a
      rename from or to it fails at the first core row, before any bone is renamed. */
  lemma UnknownColumnFailsFirst(names: seq<string>, sourceFormat: string, targetFormat: string, includeFingers: bool)
    requires sourceFormat in FormatMapping && targetFormat in FormatMapping
    requires sourceFormat == "unknown" || targetFormat == "unknown"
    ensures var r := RenameRun(names, sourceFormat, targetFormat, includeFingers);
      r.error == Some(SlotOutOfRange(11, 11)) && r.names == names && r.count == 0
  {
    var s, t := FormatMapping[sourceFormat], FormatMapping[targetFormat];
    var start := Run(names, 0, None);
    FormatMappingFollowsBoneMaps();
    assert s <= 11 && t <= 11 && (s == 11 || t == 11);
    assert |CoreRows[0]| == 11;
    RunRowsFailsAtFirstRow(start, CoreRows, s, t);
    if includeFingers {
      RunRowsAfterError(RunRows(start, CoreRows, s, t), FingerRows, s, t);
    }
  }

  /** The `mmd_japaneseLR` convention maps to slot 10, which core rows have and
      finger rows lack: with fingers, the rename applies every core-row rename and
      then fails at the first finger row, leaving those renames in place. */
  lemma JapaneseLRFailsAtFingers(names: seq<string>, sourceFormat: string, targetFormat: string)
    requires sourceFormat in FormatMapping && targetFormat in FormatMapping
    requires sourceFormat == "mmd_japaneseLR" || targetFormat == "mmd_japaneseLR"
    requires sourceFormat != "unknown" && targetFormat != "unknown"
    ensures var coreOnly := RenameRun(names, sourceFormat, targetFormat, false);
      var r := RenameRun(names, sourceFormat, targetFormat, true);
      coreOnly.error.None? && r.error == Some(SlotOutOfRange(10, 10)) && r.names == coreOnly.names
  {
    var s, t := FormatMapping[sourceFormat], FormatMapping[targetFormat];
    var core := RunRows(Run(names, 0, None), CoreRows, s, t);
    CoreRowsHaveElevenSlots();
    FingerRowsHaveTenSlots();
    RunRowsWithinArity(Run(names, 0, None), CoreRows, s, t);
    RunRowsFailsAtFirstRow(core, FingerRows, s, t);
  }

  // ---------------------------------------------------------------------------
  // Name collisions

  /** No two bones share a name, as Blender keeps it for the bones of one armature. */
  predicate Distinct(names: seq<string>)
  {
    forall i, j :: 0 <= i < j < |names| ==> names[i] != names[j]
  }

  /** A row does not collide in the state it meets: when it renames, its target
      name equals its source name or is not taken by any bone. */
  predicate RowFree(run: Run, row: seq<string>, s: nat, t: nat)
  {
    run.error.Some? || s >= |row| || t >= |row| || !Applies(row, s, t, run.names)
    || row[t] == row[s] || row[t] !in run.names
  }

  /** No row of the table collides in the state the rows before it leave. Only
      under this condition does a rename by plain assignment agree with Blender,
      which would otherwise give the renamed bone a numbered suffix. */
  predicate NoCollisions(start: Run, rows: seq<seq<string>>, s: nat, t: nat)
    decreases |rows|
  {
    rows == [] ||
    (NoCollisions(start, rows[..|rows| - 1], s, t) && RowFree(RunRows(start, rows[..|rows| - 1], s, t), rows[|rows| - 1], s, t))
  }

  /** With distinct names, the bone that `FirstIndex` finds is the only bone with
      that name, so it is the bone that Blender's lookup by name returns. */
  lemma DistinctLookupIsOnlyMatch(names: seq<string>, name: string)
    requires Distinct(names) && name in names
    ensures forall j :: 0 <= j < |names| && names[j] == name ==> j == FirstIndex(names, name)
  {
  }

  /** A row that does not collide keeps distinct names distinct. */
  lemma RowStepKeepsDistinct(run: Run, row: seq<string>, s: nat, t: nat)
    requires Distinct(run.names) && RowFree(run, row, s, t)
    ensures Distinct(RowStep(run, row, s, t).names)
  {
    if run.error.None? && s < |row| && t < |row| && Applies(row, s, t, run.names) {
      var names := run.names;
      var k := FirstIndex(names, row[s]);
      var r := RenameBone(names, row[s], row[t]);
      forall i, j | 0 <= i < j < |r| ensures r[i] != r[j] {
        if i == k || j == k {
          var other := if i == k then j else i;
          assert r[other] == names[other];
        }
      }
    }
  }

  /** A table in which no row collides keeps distinct names distinct, so every
      lookup by name along the run finds the one bone with that name. */
  lemma {:induction false} RunRowsKeepsDistinct(start: Run, rows: seq<seq<string>>, s: nat, t: nat)
    requires Distinct(start.names) && NoCollisions(start, rows, s, t)
    ensures Distinct(RunRows(start, rows, s, t).names)
    decreases |rows|
  {
    if rows != [] {
      var init := rows[..|rows| - 1];
      RunRowsKeepsDistinct(start, init, s, t);
      RowStepKeepsDistinct(RunRows(start, init, s, t), rows[|rows| - 1], s, t);
    }
  }

  /** A whole rename of an armature with distinct bone names keeps them distinct
      when no visited row collides. */
  lemma RenameRunKeepsDistinct(names: seq<string>, sourceFormat: string, targetFormat: string, includeFingers: bool)
    requires sourceFormat in FormatMapping && targetFormat in FormatMapping && Distinct(names)
    requires NoCollisions(Run(names, 0, None), if includeFingers then CoreRows + FingerRows else CoreRows,
                          FormatMapping[sourceFormat], FormatMapping[targetFormat])
    ensures Distinct(RenameRun(names, sourceFormat, targetFormat, includeFingers).names)
  {
    var s, t := FormatMapping[sourceFormat], FormatMapping[targetFormat];
    FingersFollowCore(names, sourceFormat, targetFormat, includeFingers);
    RunRowsKeepsDistinct(Run(names, 0, None), if includeFingers then CoreRows + FingerRows else CoreRows, s, t);
  }

  /** The tables do collide on ordinary input: from `3ds_max` to `motion_builder`,
      the left-shoulder row renames `LeftCollar` to `LeftShoulder` while the upper
      arm still has that name. Plain assignment then leaves two bones named
      `LeftShoulder`. */
  lemma CollarMeetsArmName()
    ensures FormatMapping["3ds_max"] == 6 && FormatMapping["motion_builder"] == 5
    ensures var before := Run(["LeftCollar", "LeftShoulder"], 0, None);
      !RowFree(before, CoreRows[7], 6, 5)
      && RowStep(before, CoreRows[7], 6, 5) == Run(["LeftShoulder", "LeftShoulder"], 1, None)
      && !Distinct(RowStep(before, CoreRows[7], 6, 5).names)
  {
    var names := ["LeftCollar", "LeftShoulder"];
    assert FirstIndex(names, "LeftCollar") == 0;
    assert names[0 := "LeftShoulder"] == ["LeftShoulder", "LeftShoulder"];
    var after := RowStep(Run(names, 0, None), CoreRows[7], 6, 5).names;
    assert after[0] == after[1];
  }

  /** After that collision the run goes on under plain assignment: the arm row's
      lookup of `LeftShoulder` finds the renamed collar, which becomes `LeftUpArm`,
      while the real upper arm keeps `LeftShoulder`. In Blender the collar would be
      `LeftShoulder.001` and the arm row would rename the upper arm instead. */
  lemma CollarTakesArmRename()
    ensures RenameRun(["LeftCollar", "LeftShoulder"], "3ds_max", "motion_builder", false)
      == Run(["LeftUpArm", "LeftShoulder"], 2, None)
  {
    assert FormatMapping["3ds_max"] == 6 && FormatMapping["motion_builder"] == 5;
    FingersFollowCore(["LeftCollar", "LeftShoulder"], "3ds_max", "motion_builder", false);
    CollarCoreRun();
  }

  /** The core rows, from slot 6 to slot 5, on the collar and the upper arm. */
  lemma CollarCoreRun()
    ensures RunRows(Run(["LeftCollar", "LeftShoulder"], 0, None), CoreRows, 6, 5)
      == Run(["LeftUpArm", "LeftShoulder"], 2, None)
  {
    CollarMeetsArmName();
    ArmRowRenamesCollar();
    CollarRowsBeforeMiss();
    CollarRowsAfterMiss();
    RunRowsThroughPair(Run(["LeftCollar", "LeftShoulder"], 0, None), CoreRows, 7, 6, 5,
      Run(["LeftShoulder", "LeftShoulder"], 1, None), Run(["LeftUpArm", "LeftShoulder"], 2, None));
  }

  /** The core rows before the left-shoulder row read no `3ds_max` name of the collision example. */
  lemma CollarRowsBeforeMiss()
    ensures |CoreRows| == 25
    ensures forall i :: 0 <= i < 7 ==>
      6 < |CoreRows[i]| && 5 < |CoreRows[i]| && CoreRows[i][6] !in ["LeftCollar", "LeftShoulder"]
  {
  }

  /** The core rows after the left upper-arm row read no name the collision example leaves. */
  lemma CollarRowsAfterMiss()
    ensures forall i :: 9 <= i < |CoreRows| ==>
      6 < |CoreRows[i]| && 5 < |CoreRows[i]| && CoreRows[i][6] !in ["LeftUpArm", "LeftShoulder"]
  {
  }

  /** The upper-arm row, from `3ds_max` to `motion_builder`, finds the collar that
      already took the name `LeftShoulder` and renames it `LeftUpArm`. */
  lemma ArmRowRenamesCollar()
    ensures RowStep(Run(["LeftShoulder", "LeftShoulder"], 1, None), CoreRows[8], 6, 5)
      == Run(["LeftUpArm", "LeftShoulder"], 2, None)
  {
    var names := ["LeftShoulder", "LeftShoulder"];
    assert FirstIndex(names, "LeftShoulder") == 0;
    assert names[0 := "LeftUpArm"] == ["LeftUpArm", "LeftShoulder"];
  }

  /** A table in which only rows `j` and `j + 1` find their source bone runs as
      those two row steps. */
  lemma RunRowsThroughPair(start: Run, rows: seq<seq<string>>, j: nat, s: nat, t: nat, mid: Run, end: Run)
    requires j + 2 <= |rows| && start.error.None? && end.error.None?
    requires forall i :: 0 <= i < j ==> s < |rows[i]| && t < |rows[i]| && rows[i][s] !in start.names
    requires RowStep(start, rows[j], s, t) == mid && RowStep(mid, rows[j + 1], s, t) == end
    requires forall i :: j + 2 <= i < |rows| ==> s < |rows[i]| && t < |rows[i]| && rows[i][s] !in end.names
    ensures RunRows(start, rows, s, t) == end
  {
    var before, pair, after := rows[..j], rows[j..j + 2], rows[j + 2..];
    RunRowsSplit(start, rows, j, j + 2, s, t);
    RunRowsNoSource(start, before, s, t);
    RunRowsPair(start, pair, s, t);
    RunRowsNoSource(end, after, s, t);
  }

  /** A table runs as its first `j` rows, then the rows up to `k`, then the rest. */
  lemma RunRowsSplit(start: Run, rows: seq<seq<string>>, j: nat, k: nat, s: nat, t: nat)
    requires j <= k <= |rows|
    ensures RunRows(start, rows, s, t)
      == RunRows(RunRows(RunRows(start, rows[..j], s, t), rows[j..k], s, t), rows[k..], s, t)
  {
    assert rows == rows[..j] + rows[j..k] + rows[k..];
    RunRowsAppend(start, rows[..j] + rows[j..k], rows[k..], s, t);
    RunRowsAppend(start, rows[..j], rows[j..k], s, t);
  }

  /** A table of two rows is those two row steps. */
  lemma RunRowsPair(start: Run, rows: seq<seq<string>>, s: nat, t: nat)
    requires |rows| == 2
    ensures RunRows(start, rows, s, t) == RowStep(RowStep(start, rows[0], s, t), rows[1], s, t)
  {
    var first := rows[..1];
    assert first[..0] == [] && first[0] == rows[0];
    assert RunRows(start, first, s, t) == RowStep(start, rows[0], s, t);
  }

  /** Rows whose source name no bone has change nothing. */
  lemma {:induction false} RunRowsNoSource(start: Run, rows: seq<seq<string>>, s: nat, t: nat)
    requires start.error.None?
    requires forall i :: 0 <= i < |rows| ==> s < |rows[i]| && t < |rows[i]| && rows[i][s] !in start.names
    ensures RunRows(start, rows, s, t) == start
    decreases |rows|
  {
    if rows != [] {
      RunRowsNoSource(start, rows[..|rows| - 1], s, t);
    }
  }

  // ---------------------------------------------------------------------------
  // The imperative operation

  /** The inner loop of `rename_bones` over one table: for each row, in order,
      read the source slot and the target slot (failing when a slot is past the
      end of the row) and rename the bone when the guard holds. */
  method RenameRows(bones: array<string>, rows: seq<seq<string>>, s: nat, t: nat, count: nat)
    returns (newCount: nat, error: Option<RenameError>)
    modifies bones
    ensures var run := RunRows(Run(old(bones[..]), count, None), rows, s, t);
      bones[..] == run.names && newCount == run.count && error == run.error
  {
    ghost var start := Run(bones[..], count, None);
    newCount := count;
    for i := 0 to |rows|
      invariant var run := RunRows(start, rows[..i], s, t);
        bones[..] == run.names && newCount == run.count && run.error.None?
    {
      assert rows[..i + 1][..i] == rows[..i];
      var row := rows[i];
      if s >= |row| {
        RunRowsStopsAt(start, rows, i, s, t);
        return newCount, Some(SlotOutOfRange(s, |row|));
      }
      var sourceName := row[s];
      if t >= |row| {
        RunRowsStopsAt(start, rows, i, s, t);
        return newCount, Some(SlotOutOfRange(t, |row|));
      }
      var targetName := row[t];
      if sourceName != "" && targetName != "" && sourceName in bones[..] {
        bones[FirstIndex(bones[..], sourceName)] := targetName;
        newCount := newCount + 1;
      }
    }
    assert rows[..|rows|] == rows;
    error := None;
  }

  /** `rename_bones`: look up both keys, then rename over the core rows and, when
      fingers are included, over the finger rows. On an error the renames already
      made stay in place and the error is returned instead of the count.
      A rename is a plain assignment, so the method matches the program only
      when `NoCollisions` holds for the rows it visits (see `RenameRunKeepsDistinct`);
      when a target name is taken, Blender suffixes the new name and later lookups
      find other bones. */
  method RenameBones(bones: array<string>, sourceFormat: string, targetFormat: string, includeFingers: bool)
    returns (r: Result<nat, RenameError>)
    modifies bones
    ensures var run := RenameRun(old(bones[..]), sourceFormat, targetFormat, includeFingers);
      bones[..] == run.names && r == Outcome(run)
  {
    if sourceFormat !in FormatMapping {
      return Failure(UnknownFormat(sourceFormat));
    }
    if targetFormat !in FormatMapping {
      return Failure(UnknownFormat(targetFormat));
    }
    var s := FormatMapping[sourceFormat];
    var t := FormatMapping[targetFormat];
    ghost var core := RunRows(Run(bones[..], 0, None), CoreRows, s, t);
    var count, error := RenameRows(bones, CoreRows, s, t, 0);
    if error.Some? {
      if includeFingers {
        RunRowsAfterError(core, FingerRows, s, t);
      }
      return Failure(error.value);
    }
    if includeFingers {
      count, error := RenameRows(bones, FingerRows, s, t, count);
      if error.Some? {
        return Failure(error.value);
      }
    }
    r := Success(count);
  }
}
