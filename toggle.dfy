/** The bone-name display toggle (`ARMATURE_OT_toggle_names.execute`). The
    scene's objects are an array of records; only armatures carry a meaningful
    display flag. */
module Toggle {
  import opened Wrappers

  /** An object of the scene: whether it is an armature, and the bone-name
      display flag of its armature data. */
  datatype SceneObject = SceneObject(isArmature: bool, showNames: bool)

  /** The position of the first armature in the scene, if there is one. */
  function FirstArmature(objects: seq<SceneObject>): (r: Option<nat>)
    ensures r.Some? ==> r.value < |objects| && objects[r.value].isArmature
    ensures r.Some? ==> forall j :: 0 <= j < r.value ==> !objects[j].isArmature
    ensures r.None? ==> forall j :: 0 <= j < |objects| ==> !objects[j].isArmature
    decreases |objects|
  {
    if objects == [] then None
    else if objects[0].isArmature then Some(0)
    else
      var rest := FirstArmature(objects[1..]);
      if rest.None? then None else Some(rest.value + 1)
  }

  /** The value the toggle writes: the negation of the first armature's flag. */
  function NewShowNames(objects: seq<SceneObject>): (r: Option<bool>)
    ensures r.None? <==> forall j :: 0 <= j < |objects| ==> !objects[j].isArmature
    ensures r.Some? ==> exists j :: 0 <= j < |objects| && objects[j].isArmature && r.value != objects[j].showNames
  {
    match FirstArmature(objects)
    case None => None
    case Some(f) => Some(!objects[f].showNames)
  }

  /** The scene after the toggle: every armature's flag is the new value, every
      other object is as it was. */
  function Toggled(objects: seq<SceneObject>): (r: seq<SceneObject>)
    ensures |r| == |objects|
    ensures forall i :: 0 <= i < |r| ==> r[i].isArmature == objects[i].isArmature
    ensures forall i :: 0 <= i < |r| && !objects[i].isArmature ==> r[i] == objects[i]
  {
    match NewShowNames(objects)
    case None => objects
    case Some(v) =>
      seq(|objects|, i requires 0 <= i < |objects| =>
        if objects[i].isArmature then objects[i].(showNames := v) else objects[i])
  }

  /** The number of armatures in the scene. */
  function Armatures(objects: seq<SceneObject>): (r: nat)
    ensures r <= |objects|
    decreases |objects|
  {
    if objects == [] then 0
    else Armatures(objects[..|objects| - 1]) + (if objects[|objects| - 1].isArmature then 1 else 0)
  }

  /** True when every armature shows bone names the same way. */
  predicate Uniform(objects: seq<SceneObject>)
  {
    forall i, j :: 0 <= i < |objects| && 0 <= j < |objects| && objects[i].isArmature && objects[j].isArmature
      ==> objects[i].showNames == objects[j].showNames
  }

  /** After the toggle every armature's flag is the negation of the first
      armature's original flag; non-armature objects and the kind of every
      object are untouched. */
  lemma ToggleSetsEveryArmature(objects: seq<SceneObject>)
    ensures var r := Toggled(objects);
      && |r| == |objects|
      && (forall i :: 0 <= i < |objects| ==> r[i].isArmature == objects[i].isArmature)
      && (forall i :: 0 <= i < |objects| && !objects[i].isArmature ==> r[i] == objects[i])
      && (forall i :: 0 <= i < |objects| && objects[i].isArmature ==>
            FirstArmature(objects).Some? && r[i].showNames == !objects[FirstArmature(objects).value].showNames)
  {
  }

  /** The toggle leaves every armature showing names the same way. */
  lemma ToggleMakesUniform(objects: seq<SceneObject>)
    ensures Uniform(Toggled(objects))
  {
    ToggleSetsEveryArmature(objects);
  }

  /** Toggling twice restores the scene exactly when all armatures agreed before:
      otherwise every armature ends with the first armature's original flag. */
  lemma ToggleTwiceRestoresIffUniform(objects: seq<SceneObject>)
    ensures Toggled(Toggled(objects)) == objects <==> Uniform(objects)
  {
    var once := Toggled(objects);
    ToggleSetsEveryArmature(objects);
    ToggleSetsEveryArmature(once);
    var f := FirstArmature(objects);
    if f.Some? {
      var g := FirstArmature(once);
      assert g == f by {
        assert once[f.value].isArmature;
      }
      var twice := Toggled(once);
      if Uniform(objects) {
        assert forall i :: 0 <= i < |objects| ==> twice[i] == objects[i];
      }
      if twice == objects {
        forall i, j | 0 <= i < |objects| && 0 <= j < |objects| && objects[i].isArmature && objects[j].isArmature
          ensures objects[i].showNames == objects[j].showNames
        {
          assert twice[i].showNames == objects[f.value].showNames;
          assert twice[j].showNames == objects[f.value].showNames;
        }
      }
    }
  }

  /** The count of armatures is at most the number of objects, and zero exactly
      when the scene has no armature. */
  lemma {:induction false} ArmaturesBounds(objects: seq<SceneObject>)
    ensures Armatures(objects) <= |objects|
    ensures Armatures(objects) == 0 <==> FirstArmature(objects).None?
    decreases |objects|
  {
    if objects != [] {
      var init := objects[..|objects| - 1];
      ArmaturesBounds(init);
      assert forall j :: 0 <= j < |init| ==> init[j] == objects[j];
      if FirstArmature(init).Some? {
        assert objects[FirstArmature(init).value].isArmature;
      }
    }
  }

  /** The toggle operator: the first armature met fixes the new value, the
      negation of its flag; every armature, in order, gets that value and is
      counted. Returns the count and the value written (none when the scene has
      no armature). */
  method ToggleNames(objects: array<SceneObject>) returns (count: nat, shown: Option<bool>)
    modifies objects
    ensures objects[..] == Toggled(old(objects[..]))
    ensures count == Armatures(old(objects[..]))
    ensures shown == NewShowNames(old(objects[..]))
  {
    ghost var original := objects[..];
    shown := None;
    count := 0;
    for i := 0 to objects.Length
      invariant shown.None? ==> forall j :: 0 <= j < i ==> !original[j].isArmature
      invariant shown.Some? ==> shown == NewShowNames(original)
      invariant forall j :: 0 <= j < i ==> objects[j] == Toggled(original)[j]
      invariant forall j :: i <= j < objects.Length ==> objects[j] == original[j]
      invariant count == Armatures(original[..i])
    {
      assert original[..i + 1][..i] == original[..i];
      var obj := objects[i];
      if obj.isArmature {
        if shown.None? {
          shown := Some(!obj.showNames);
        }
        objects[i] := obj.(showNames := shown.value);
        count := count + 1;
      }
    }
    assert original[..objects.Length] == original;
    if shown.None? {
      assert FirstArmature(original).None?;
    }
  }
}
