/** Japanese-to-English bone-name substitution (`ARMATURE_OT_translate_jp_bones.execute`).
    Each bone takes the first dictionary entry, in declaration order, whose key
    occurs in its name; every occurrence of that key is replaced and no further
    entry is tried. */
module Translate {
  import opened Wrappers
  import opened Tables
  import opened PyStrings

  /** A token dictionary: Japanese key and English replacement, in order. */
  type Dictionary = seq<(string, string)>

  // ---------------------------------------------------------------------------
  // The substitution of one name

  /** The inner loop over the dictionary from entry `k` on: the first entry whose
      key occurs and whose replacement changes the name gives the new name; when
      no entry does, the name stays. */
  function TranslateFrom(dict: Dictionary, name: string, k: nat): (r: string)
    requires k <= |dict|
    ensures (forall i :: k <= i < |dict| ==> !Contains(name, dict[i].0)) ==> r == name
    decreases |dict| - k
  {
    if k == |dict| then name
    else
      var jp := dict[k].0;
      var en := dict[k].1;
      if Contains(name, jp) && Replace(name, jp, en) != name then Replace(name, jp, en)
      else TranslateFrom(dict, name, k + 1)
  }

  /** The name a bone has after the translator has visited it. */
  function Translate(dict: Dictionary, name: string): (r: string)
    ensures !HasKey(dict, name) ==> r == name
  {
    TranslateFrom(dict, name, 0)
  }

  /** The first entry, at `k` or later, whose key occurs in the name. */
  function FirstKey(dict: Dictionary, name: string, k: nat): (r: Option<nat>)
    requires k <= |dict|
    ensures r.Some? ==> k <= r.value < |dict| && Contains(name, dict[r.value].0)
    ensures r.Some? ==> forall j :: k <= j < r.value ==> !Contains(name, dict[j].0)
    ensures r.None? ==> forall j :: k <= j < |dict| ==> !Contains(name, dict[j].0)
    decreases |dict| - k
  {
    if k == |dict| then None
    else if Contains(name, dict[k].0) then Some(k)
    else FirstKey(dict, name, k + 1)
  }

  /** True when some dictionary key occurs in the name. */
  predicate HasKey(dict: Dictionary, name: string)
  {
    exists k :: 0 <= k < |dict| && Contains(name, dict[k].0)
  }

  /** True when every entry has a non-empty key that differs from its replacement. */
  predicate EntriesRename(dict: Dictionary)
  {
    forall k :: 0 <= k < |dict| ==> Renames(dict[k])
  }

  /** Because every key differs from its replacement, the loop's "name changed"
      test never skips a matching entry: a bone takes exactly the first entry
      whose key occurs in its name, with every occurrence of that key replaced. */
  lemma {:induction false} TranslateFromIsFirstKey(dict: Dictionary, name: string, k: nat)
    requires k <= |dict| && EntriesRename(dict)
    ensures TranslateFrom(dict, name, k) == match FirstKey(dict, name, k)
      case None => name
      case Some(i) => Replace(name, dict[i].0, dict[i].1)
    decreases |dict| - k
  {
    if k < |dict| {
      assert Renames(dict[k]);
      if Contains(name, dict[k].0) {
        ReplaceChanges(name, dict[k].0, dict[k].1);
      } else {
        TranslateFromIsFirstKey(dict, name, k + 1);
      }
    }
  }

  /** A name changes exactly when some key occurs in it; a name without any key is kept. */
  lemma TranslateChangesIffKey(dict: Dictionary, name: string)
    requires EntriesRename(dict)
    ensures Translate(dict, name) != name <==> HasKey(dict, name)
    ensures !HasKey(dict, name) ==> Translate(dict, name) == name
  {
    TranslateFromIsFirstKey(dict, name, 0);
    var first := FirstKey(dict, name, 0);
    if first.Some? {
      assert Renames(dict[first.value]);
      ReplaceChanges(name, dict[first.value].0, dict[first.value].1);
    }
  }

  /** The only strings that occur in `左肩`. */
  lemma SubstringsOfLeftShoulder(p: string)
    requires Contains("左肩", p)
    ensures p == "" || p == "左" || p == "肩" || p == "左肩"
  {
    ContainsIsSubstring("左肩", p);
    var i :| OccursAt("左肩", p, i);
    assert p == "左肩"[i..i + |p|];
  }

  /** None of the first 42 keys is one of the strings that occur in `左肩`. */
  lemma EarlyKeysAvoidLeftShoulder()
    ensures forall j :: 0 <= j < 42 ==> JpToEn[j].0 !in {"", "左", "肩", "左肩"}
  {
    assert forall j :: 0 <= j < 30 ==> JpGroup1[j].0 !in {"", "左", "肩", "左肩"};
    assert forall j :: 0 <= j < 12 ==> JpGroup2[j].0 !in {"", "左", "肩", "左肩"};
    forall j | 0 <= j < 42 ensures JpToEn[j].0 !in {"", "左", "肩", "左肩"} {
      if j < 30 {
        assert JpToEn[j] == JpGroup1[j];
      } else {
        assert JpToEn[j] == JpGroup2[j - 30];
      }
    }
  }

  /** Replacing `肩` in `左肩` gives `左Shoulder`. */
  lemma ReplaceShoulder()
    ensures Replace("左肩", "肩", "Shoulder") == "左Shoulder"
  {
    assert Replace("", "肩", "Shoulder") == "";
    assert Replace("肩", "肩", "Shoulder") == "Shoulder";
  }

  /** The entry that `FirstKey` finds is determined by the keys that occur. */
  lemma FirstKeyIs(dict: Dictionary, name: string, i: nat)
    requires i < |dict| && Contains(name, dict[i].0)
    requires forall j :: 0 <= j < i ==> !Contains(name, dict[j].0)
    ensures FirstKey(dict, name, 0) == Some(i)
  {
  }

  /** No key before entry 42 occurs in `左肩`. */
  lemma EarlyKeysMissLeftShoulder()
    ensures forall j :: 0 <= j < 42 ==> !Contains("左肩", JpToEn[j].0)
  {
    var name := "左肩";
    EarlyKeysAvoidLeftShoulder();
    forall j | 0 <= j < 42 ensures !Contains(name, JpToEn[j].0) {
      if Contains(name, JpToEn[j].0) {
        SubstringsOfLeftShoulder(JpToEn[j].0);
      }
    }
  }

  /** The entry chosen is the first in declaration order, not the longest or the
      last match: in `左肩` both `肩` (entry 42) and `左` (entry 100) occur, and `肩`
      wins, so the left-side marker stays in Japanese. */
  lemma FirstEntryWinsOverLaterMatch()
    ensures JpToEn[42] == ("肩", "Shoulder") && JpToEn[100] == ("左", "Left")
    ensures Contains("左肩", JpToEn[100].0)
    ensures FirstKey(JpToEn, "左肩", 0) == Some(42)
    ensures Translate(JpToEn, "左肩") == "左Shoulder"
  {
    assert JpToEn[42] == JpGroup2[12];
    assert JpToEn[100] == JpGroup4[10];
    assert OccursAt("左肩", "左", 0);
    ContainsIsSubstring("左肩", "左");
    assert OccursAt("左肩", "肩", 1);
    ContainsIsSubstring("左肩", "肩");
    EarlyKeysMissLeftShoulder();
    FirstKeyIs(JpToEn, "左肩", 42);
    EveryEntryRenames();
    TranslateFromIsFirstKey(JpToEn, "左肩", 0);
    ReplaceShoulder();
  }

  // ---------------------------------------------------------------------------
  // The loop over all bones

  /** The number of names that the translator changes. */
  function Renamed(dict: Dictionary, names: seq<string>): (r: nat)
    ensures r <= |names|
    ensures r > 0 ==> exists i :: 0 <= i < |names| && Translate(dict, names[i]) != names[i]
    decreases |names|
  {
    if names == [] then 0
    else
      var last := names[|names| - 1];
      Renamed(dict, names[..|names| - 1]) + (if Translate(dict, last) != last then 1 else 0)
  }

  /** The translated count is at most the number of bones, and it is zero exactly
      when no bone name contains any dictionary key. */
  lemma {:induction false} RenamedBounds(dict: Dictionary, names: seq<string>)
    requires EntriesRename(dict)
    ensures Renamed(dict, names) <= |names|
    ensures Renamed(dict, names) == 0 <==> forall i :: 0 <= i < |names| ==> !HasKey(dict, names[i])
    decreases |names|
  {
    if names != [] {
      var init, last := names[..|names| - 1], names[|names| - 1];
      RenamedBounds(dict, init);
      TranslateChangesIffKey(dict, last);
      assert forall i :: 0 <= i < |init| ==> init[i] == names[i];
    }
  }

  /** The body of the translate operator's loop for bone `i`: scan the
      dictionary in declaration order; at the first key that occurs in the name,
      replace every occurrence of it and, when the name changed, rename the bone
      and stop scanning. */
  method TranslateBone(bones: array<string>, i: nat) returns (renamed: bool)
    requires i < bones.Length
    modifies bones
    ensures bones[..] == old(bones[..])[i := Translate(JpToEn, old(bones[i]))]
    ensures renamed <==> Translate(JpToEn, old(bones[i])) != old(bones[i])
  {
    var name := bones[i];
    renamed := false;
    for k := 0 to |JpToEn|
      invariant bones[..] == old(bones[..]) && !renamed
      invariant Translate(JpToEn, name) == TranslateFrom(JpToEn, name, k)
    {
      var jp, en := JpToEn[k].0, JpToEn[k].1;
      if Contains(name, jp) {
        var newName := Replace(name, jp, en);
        if newName != name {
          bones[i] := newName;
          renamed := true;
          break;
        }
      }
    }
  }

  /** The translate operator: every bone, in order, gets the first dictionary
      entry whose key occurs in its name; each bone whose name changed is
      counted. */
  method TranslateBones(bones: array<string>) returns (count: nat)
    modifies bones
    ensures forall i :: 0 <= i < bones.Length ==> bones[i] == Translate(JpToEn, old(bones[i]))
    ensures count == Renamed(JpToEn, old(bones[..]))
  {
    ghost var original := bones[..];
    count := 0;
    for i := 0 to bones.Length
      invariant forall j :: 0 <= j < i ==> bones[j] == Translate(JpToEn, original[j])
      invariant forall j :: i <= j < bones.Length ==> bones[j] == original[j]
      invariant count == Renamed(JpToEn, original[..i])
    {
      assert original[..i + 1][..i] == original[..i];
      var renamed := TranslateBone(bones, i);
      if renamed {
        count := count + 1;
      }
    }
    assert original[..bones.Length] == original;
  }
}
