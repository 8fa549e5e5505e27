# BoneRenamer core, modelled in Dafny

The Blender add-on `BoneRenamer_v1.2.py` renames the bones of a character
armature. Under its Blender glue it runs three loops over fixed tables:

- **Convention-to-convention renaming** (`ARMATURE_OT_rename_bones.rename_bones`).
  The format keys go through a fixed key-to-slot dictionary. The loop then walks
  the core rows (`BONE_NAMES`) and, when fingers are included, the finger rows
  (`FINGER_BONES`). For each row it renames the bone named in the source slot to
  the name in the target slot, when both slots are filled and that bone exists,
  and counts the rename. Renames happen in place, so a later row sees the names
  that earlier rows wrote.
- **Japanese-to-English substitution** (`ARMATURE_OT_translate_jp_bones.execute`).
  Each bone takes the first `JP_TO_EN_MAPPING` entry, in declaration order, whose
  key occurs in its name. Every occurrence of that key is replaced, the bone is
  renamed and counted, and no further entry is tried.
- **Bone-name display toggle** (`ARMATURE_OT_toggle_names.execute`). Every
  armature in the scene gets the negation of the first armature's `show_names`,
  and the armatures are counted.

Files:

- `wrappers.dfy`: `Option` and `Result`.
- `tables.dfy` (module `Tables`): the four tables, verbatim, and facts about them.
  These include the row arities and the fact that every dictionary key is
  non-empty and differs from its replacement.
- `rename.dfy` (module `Rename`): the rename as a specification over sequences
  (`RowStep`, `RunRows`, `RenameRun`), the lemmas about it, and the in-place
  method `RenameBones` over an `array<string>` of bone names, proved equal to it.
- `strings.dfy` (module `PyStrings`): Python's `in` and `str.replace` on strings,
  with their declarative meaning.
- `translate.dfy` (module `Translate`): the per-name substitution, stated for any
  token dictionary and used with `JP_TO_EN_MAPPING`, and the in-place methods
  `TranslateBone` and `TranslateBones`.
- `toggle.dfy` (module `Toggle`): scene objects as records
  `SceneObject(isArmature, showNames)` and the in-place method `ToggleNames`.

Behaviour the model makes explicit:

- **Row arity.** Core rows have eleven slots and finger rows have ten.
  - `unknown` maps to slot 11, so a rename from or to it fails at the first core
    row, before any bone is renamed (`Rename.UnknownColumnFailsFirst`).
  - `mmd_japaneseLR` maps to slot 10. With fingers included, a rename from or to
    it applies every core-row rename and then fails at the first finger row. The
    core renames stay in place (`Rename.JapaneseLRFailsAtFingers`).
  - Both failures return an error result (`SlotOutOfRange`) together with the
    partially renamed bones.
  - The missing finger column is `type_x`, not the last one. With fingers
    included, a rename from `bepu` therefore looks for finger names such as
    `左親指１`, and one from `mmd_japanese` for names such as `親指１.L`
    (`Tables.FingerColumnsShifted`).
- **Same source and target format.** No name changes. Every present mapped bone
  is still counted (`Rename.SameFormatKeepsNames`). The exceptions are `unknown`,
  and `mmd_japaneseLR` with fingers: these fail as above and return no count.
- **Name collisions.** A rename is a plain assignment. It agrees with Blender only
  while no row renames a bone to a name another bone still has (`Rename.NoCollisions`).
  Under that condition distinct bone names stay distinct, so every lookup finds
  the one bone with that name (`Rename.RenameRunKeepsDistinct`). The tables break
  the condition on ordinary rigs (`Rename.CollarMeetsArmName`).
- **Dictionary order.** The first matching entry wins, not the longest one: `左肩`
  becomes `左Shoulder` (`Translate.FirstEntryWinsOverLaterMatch`).

What the code does not do, and the model therefore does not either:

- The translator tries entries in declaration order, not longest match first.
- It makes one pass per bone, not repeated passes.
- There is no left/right suffix handling and no identifier sanitising.
- There is no online translator and no cache.
- The rename does not skip bones whose source and target names are equal.

## Model

| member | source | states |
|---|---|---|
| `Tables.CoreRowsHaveElevenSlots` | BoneRenamer_v1.2.py:11-42 | every core row has one slot for each of the eleven conventions in the column list |
| `Tables.FingerRowsHaveTenSlots` | BoneRenamer_v1.2.py:44-75 | every finger row has only ten slots |
| `Tables.FingerColumnsShifted` | BoneRenamer_v1.2.py:43-75 | the finger rows lack the `type_x` column, so the `bepu` slot of a finger row holds its MMD Japanese name and the `mmd_japanese` slot its L/R-suffixed name, unlike the core rows |
| `Tables.FormatMappingFollowsBoneMaps` | BoneRenamer_v1.2.py:281-294 | the key-to-slot dictionary maps each supported convention to its position in `BONE_MAPS` and knows no other key |
| `Tables.EveryEntryRenames` | BoneRenamer_v1.2.py:77-196 | the dictionary has 118 entries; every key is non-empty and differs from its replacement |
| `Rename.FirstIndex` | BoneRenamer_v1.2.py:313 | a lookup by name finds a bone with that name, and no earlier bone has it |
| `Rename.Applies` | BoneRenamer_v1.2.py:312 | with both slots filled, a row applies exactly when some bone has the source name; an applying row has non-empty names in both slots |
| `Rename.RenameBone` | BoneRenamer_v1.2.py:313 | the rename keeps the number of bones, gives some bone the target name, leaves every bone with another name as it was, and changes nothing when source and target are equal |
| `Rename.Outcome` | BoneRenamer_v1.2.py:266-277 | the caller gets the count exactly when the run did not fail, and otherwise the run's error |
| `Rename.RowStep` | BoneRenamer_v1.2.py:309-314 | one row keeps the number of bones, adds at most one rename, fails exactly when the source or target slot is missing, and leaves a stopped run as it is |
| `Rename.RunRows` | BoneRenamer_v1.2.py:308-316 | a table of rows keeps the number of bones and never lowers the count |
| `Rename.RenameRun` | BoneRenamer_v1.2.py:279-316 | a whole rename keeps the number of bones, succeeds only when both keys are known, and fails with the source key, before any rename, when that key is unknown |
| `Rename.RowStepRenamesOnlySource` | BoneRenamer_v1.2.py:309-314 | a row renames and counts exactly when both slots are filled and the source bone exists; only the bone the lookup finds changes, to the target name; all other bones keep their names |
| `Rename.RowStepRoundTrip` | BoneRenamer_v1.2.py:312-313 | running a row from target to source undoes it, when the target name was not already taken |
| `Rename.RunRowsBounds` | BoneRenamer_v1.2.py:308-316 | a run keeps the number of bones and adds at most one to the count per visited row |
| `Rename.RunRowsAfterError` | BoneRenamer_v1.2.py:308-310 | once a slot read has failed (the `IndexError` that leaves both loops and reaches the caller's handler at lines 266-277), later rows change nothing |
| `Rename.RunRowsAppend` | BoneRenamer_v1.2.py:303-308 | running two tables one after the other equals running their concatenation in order |
| `Rename.RunRowsStopsAt` | BoneRenamer_v1.2.py:308-310 | when the run fails at row `i`, the whole run's result is its state after row `i` |
| `Rename.RunRowsFailsAtFirstRow` | BoneRenamer_v1.2.py:308-310 | a table whose first row lacks the source or target slot fails there with that slot, before any rename |
| `Rename.RunRowsWithinArity` | BoneRenamer_v1.2.py:309-310 | rows that have both slots never cause an error |
| `Rename.RunRowsSameSlot` | BoneRenamer_v1.2.py:309-316 | with equal source and target slot no name changes, and the count grows by the number of rows whose source bone is present |
| `Rename.UnknownFormatRenamesNothing` | BoneRenamer_v1.2.py:281-297 | a source or target key missing from the dictionary fails with that key before any bone is renamed |
| `Rename.FingersFollowCore` | BoneRenamer_v1.2.py:303-308 | a rename is the run over the core rows followed by the finger rows exactly when fingers are included, each in table order |
| `Rename.RenameRunBounds` | BoneRenamer_v1.2.py:299-316 | the number of bones is kept, and the count is at most the number of rows visited |
| `Rename.SameFormatKeepsNames` | BoneRenamer_v1.2.py:309-316 | renaming a convention to itself, except `unknown` and `mmd_japaneseLR` with fingers, succeeds and changes no name, yet counts every present mapped bone |
| `Rename.UnknownColumnFailsFirst` | BoneRenamer_v1.2.py:293-310 | a rename from or to `unknown` fails at the first core row with slot 11 out of range, with no bone renamed |
| `Rename.JapaneseLRFailsAtFingers` | BoneRenamer_v1.2.py:292-310 | with fingers, a rename from or to `mmd_japaneseLR` fails at the first finger row after applying every core-row rename, which stay in place |
| `Rename.RunRowsNoSource` | BoneRenamer_v1.2.py:308-314 | rows whose source name no bone has change nothing |
| `Rename.DistinctLookupIsOnlyMatch` | BoneRenamer_v1.2.py:313 | with distinct bone names, the bone a lookup finds is the only bone with that name |
| `Rename.RowStepKeepsDistinct` | BoneRenamer_v1.2.py:309-314 | a row whose target name is free or equal to its source name keeps distinct names distinct |
| `Rename.RunRowsKeepsDistinct` | BoneRenamer_v1.2.py:308-316 | a table in which no row collides keeps distinct names distinct |
| `Rename.RenameRunKeepsDistinct` | BoneRenamer_v1.2.py:279-316 | a whole rename of an armature with distinct names keeps them distinct when no visited row collides |
| `Rename.CollarMeetsArmName` | BoneRenamer_v1.2.py:23-24 | from `3ds_max` to `motion_builder`, the left-shoulder row renames `LeftCollar` to `LeftShoulder` while the upper arm has that name, leaving two bones named `LeftShoulder` |
| `Rename.CollarTakesArmRename` | BoneRenamer_v1.2.py:279-316 | on the bones `LeftCollar` and `LeftShoulder`, that rename ends with `LeftUpArm` on the collar and `LeftShoulder` on the upper arm |
| `Rename.RenameRows` | BoneRenamer_v1.2.py:308-314 | the inner loop leaves the bones and the count as the specification run over the table says, and returns its error |
| `Rename.RenameBones` | BoneRenamer_v1.2.py:279-316 | the method leaves the bones as `RenameRun` says and returns its count, or its error after partial renaming |
| `PyStrings.Contains` | BoneRenamer_v1.2.py:391 | the empty key occurs in every name, and a key that occurs is no longer than the name |
| `PyStrings.Replace` | BoneRenamer_v1.2.py:392 | replacing a key by itself gives back the name |
| `PyStrings.ContainsIsSubstring` | BoneRenamer_v1.2.py:391 | Python's `jp in name` holds exactly when `jp` occurs at some position of `name` |
| `PyStrings.ReplaceLength` | BoneRenamer_v1.2.py:392 | `str.replace` changes the length by the key-to-replacement difference once per replaced occurrence |
| `PyStrings.ContainsHasOccurrence` | BoneRenamer_v1.2.py:391-392 | a name that contains the key has an occurrence to replace |
| `PyStrings.ReplaceWithoutKey` | BoneRenamer_v1.2.py:392 | a name without the key is returned unchanged |
| `PyStrings.ReplaceChangesLength` | BoneRenamer_v1.2.py:392-393 | replacing a key that occurs by a string of another length changes the name's length |
| `PyStrings.ReplaceChanges` | BoneRenamer_v1.2.py:392-393 | replacing a key that occurs by a different string always changes the name |
| `Translate.TranslateFrom` | BoneRenamer_v1.2.py:390-396 | the scan from entry `k` on keeps the name when no key from `k` on occurs in it |
| `Translate.Translate` | BoneRenamer_v1.2.py:389-396 | a name in which no dictionary key occurs keeps its name |
| `Translate.FirstKey` | BoneRenamer_v1.2.py:390-391 | finds the first entry in declaration order whose key occurs in the name, or reports that none does |
| `Translate.TranslateFromIsFirstKey` | BoneRenamer_v1.2.py:390-396 | for any dictionary whose keys are non-empty and differ from their replacements (true of `JP_TO_EN_MAPPING`), a bone gets exactly the first matching entry, with every occurrence of its key replaced; with no match it keeps its name |
| `Translate.TranslateChangesIffKey` | BoneRenamer_v1.2.py:390-396 | for such a dictionary, a name changes exactly when some key occurs in it |
| `Translate.FirstEntryWinsOverLaterMatch` | BoneRenamer_v1.2.py:390-396 | for `左肩` both `肩` (entry 42) and `左` (entry 100) match, the earlier `肩` is chosen, and the result is `左Shoulder` |
| `Translate.Renamed` | BoneRenamer_v1.2.py:386-395 | the translated count is at most the number of bones, and a positive count means some bone's name changes |
| `Translate.RenamedBounds` | BoneRenamer_v1.2.py:386-401 | for such a dictionary, the translated count is at most the number of bones and is zero exactly when no bone name contains any key |
| `Translate.TranslateBone` | BoneRenamer_v1.2.py:389-396 | the dictionary scan for one bone gives it its translated name, touches no other bone, and reports a rename exactly when the name changed |
| `Translate.TranslateBones` | BoneRenamer_v1.2.py:385-396 | every bone ends with its translated name, and the count is the number of bones whose name changed |
| `Toggle.FirstArmature` | BoneRenamer_v1.2.py:345-349 | finds the first armature of the scene, or reports that there is none |
| `Toggle.NewShowNames` | BoneRenamer_v1.2.py:345-349 | there is a value to write exactly when the scene has an armature, and it flips the flag of some armature |
| `Toggle.Toggled` | BoneRenamer_v1.2.py:345-352 | the toggle keeps the number and kind of objects and leaves every non-armature object as it was |
| `Toggle.ToggleSetsEveryArmature` | BoneRenamer_v1.2.py:342-352 | after the toggle every armature's flag is the negation of the first armature's original flag; other objects are untouched |
| `Toggle.ToggleMakesUniform` | BoneRenamer_v1.2.py:345-352 | after the toggle all armatures show bone names the same way |
| `Toggle.ToggleTwiceRestoresIffUniform` | BoneRenamer_v1.2.py:341-352 | toggling twice restores the scene exactly when all armatures agreed beforehand |
| `Toggle.Armatures` | BoneRenamer_v1.2.py:343-352 | the armature count is at most the number of objects |
| `Toggle.ArmaturesBounds` | BoneRenamer_v1.2.py:352-358 | the armature count is at most the number of objects and is zero exactly when there is no armature |
| `Toggle.ToggleNames` | BoneRenamer_v1.2.py:341-360 | the method leaves the scene as `Toggled` says, returns the number of armatures and the value written |

## Left out

- Blender registration, the panel, the property group and the message popups
  (`register`, `unregister`, `VIEW3D_PT_bone_renamer.draw`, `BoneRenamerProperties`,
  `show_message`). They are host UI with no logic.
- Looking up the selected armature, the object-type checks, the switch to object
  mode and `PICK_OT_armature`. These are calls into Blender. The methods receive
  the armature's bones directly.
- Turning the caught exception into a popup message. The rename returns the
  error as a `Failure` result instead.
- Python's `IndexError` and `KeyError` text. The model records which key or slot
  failed.
- Rename.RenameBones: renames by plain assignment, and matches the program only
  while `Rename.NoCollisions` holds. Blender adds a `.001`-style suffix when the
  new name is already taken by another bone, and the model does not capture that.
  The core tables break the condition on a complete rig in four conversions:
  `motion_builder` to `daz_poser`, `blender_rigify` or `bepu` (the row for upper
  body 2 renames `Spine2` to `chest` while the upper-body bone is still `chest`),
  and `3ds_max` to `motion_builder` (the shoulder rows rename `LeftCollar` and
  `RightCollar` to `LeftShoulder` and `RightShoulder` while the upper arms still
  have those names). The consequence is not just a missing suffix. In Blender the
  collar becomes `LeftShoulder.001` and the arm row's lookup renames the upper
  arm. In the model the lookup finds the collar instead, so it is the collar
  that becomes `LeftUpArm` (`Rename.CollarTakesArmRename`).
  `Rename.RowStepRoundTrip` also assumes the target name is free.
- Translate.TranslateBones: same plain-assignment caveat for colliding names. It
  also does not model Blender's truncation of names longer than 63 bytes.
- Toggle.ToggleNames: objects are values, so two armature objects sharing one
  armature data block are not modelled. This does not change the result: the
  first armature's flag is read before any write, and every write stores the
  same value.
- The anatomical meaning of individual table entries, and the swapped slots of
  the `toe_R` row. The tables are copied verbatim and only their shape is proved.
