/** The constant data of the add-on: the convention-to-convention synonym rows
    (one slot per naming convention), the Japanese-to-English token dictionary,
    the list of supported conventions and the key-to-slot dictionary used by the
    renamer. */
module Tables {

  /** One supported naming convention: its key, its display name and its description. */
  datatype Format = Format(key: string, name: string, description: string)

  /** Rows of the core skeleton. Slot order: MMD English, XNALara, DAZ/Poser,
      Blender Rigify, Sims 2, Motion Builder, 3ds Max, Unknown, BEPu, MMD Japanese,
      MMD Japanese L/R. Every core row has eleven slots; an empty slot means the
      convention has no such bone. */
  const CoreRows: seq<seq<string>> := [
    ["root", "root ground", "", "root", "auskel", "", "", "", "", "全ての親", "全ての親"],
    ["neck", "head neck lower", "neck", "neck", "neck", "Neck", "Neck", "Neck", "neck", "首", "首"],
    ["head", "head neck upper", "head", "head", "head", "Head", "Head", "Head", "head", "頭", "頭"],
    ["center", "root hips", "hip", "hips", "root_rot", "Hips", "Hips", "Hip", "", "センター", "センター"],
    ["upper body 2", "spine upper", "chest", "chest", "spine2", "Spine2", "Chest3", "", "chest", "上半身2", "上半身2"],
    ["upper body", "spine lower", "abdomen", "spine", "spine0", "chest", "Chest", "Chest1", "spine", "上半身", "上半身"],
    ["lower body", "pelvis", "", "", "", "", "", "", "hips", "下半身", "下半身"],
    ["shoulder_L", "arm left shoulder 1", "lCollar", "shoulder.L", "l_clavicle", "LeftShoulder", "LeftCollar", "Left Collar", "shoulder.L", "左肩", "肩.L"],
    ["arm_L", "arm left shoulder 2", "lShldr", "upper_arm.L", "l_upperarm", "LeftUpArm", "LeftShoulder", "Left Shoulder", "uparm.L", "左腕", "腕.L"],
    ["elbow_L", "arm left elbow", "lForeArm", "forearm.L", "l_forearm", "LeftLowArm", "LeftElbow", "Left Forearm", "loarm.L", "左ひじ", "ひじ.L"],
    ["wrist_L", "arm left wrist", "lHand", "hand.L", "l_hand", "LeftHand", "LeftWrist", "Left Hand", "finger3-1.L", "左手首", "手首.L"],
    ["shoulder_R", "arm right shoulder 1", "rCollar", "shoulder.R", "r_clavicle", "RightShoulder", "RightCollar", "Right Collar", "shoulder.R", "右肩", "肩.R"],
    ["arm_R", "arm right shoulder 2", "rShldr", "upper_arm.R", "r_upperarm", "RightUpArm", "RightShoulder", "Right Shoulder", "uparm.R", "右腕", "腕.R"],
    ["elbow_R", "arm right elbow", "rForeArm", "forearm.R", "r_forearm", "RightLowArm", "RightElbow", "Right Forearm", "loarm.R", "右ひじ", "ひじ.R"],
    ["wrist_R", "arm right wrist", "rHand", "hand.R", "r_hand", "RightHand", "RightWrist", "Right Hand", "finger3-1.R", "右手首", "手首.R"],
    ["leg_L", "leg left thigh", "lThigh", "thigh.L", "l_thigh", "LeftUpLeg", "LeftHip", "Left Thigh", "upleg.L", "左足", "足.L"],
    ["knee_L", "leg left knee", "lShin", "shin.L", "l_calf", "LeftLowLeg", "LeftKnee", "Left Shin", "loleg.L", "左ひざ", "ひざ.L"],
    ["ankle_L", "leg left ankle", "lFoot", "foot.L", "l_foot", "LeftFoot", "LeftAnkle", "Left Foot", "foot.L", "左足首", "足首.L"],
    ["leg_R", "leg right thigh", "rThigh", "thigh.R", "r_thigh", "RightUpLeg", "RightHip", "Right Thigh", "upleg.R", "右足", "足.R"],
    ["knee_R", "leg right knee", "rShin", "shin.R", "r_calf", "RightLowLeg", "RightKnee", "Right Shin", "loleg.R", "右ひざ", "ひざ.R"],
    ["ankle_R", "leg right ankle", "rFoot", "foot.R", "r_foot", "RightFoot", "RightAnkle", "Right Foot", "foot.R", "右足首", "足首.R"],
    ["toe_L", "leg left toes", "lToe", "toe.L", "l_toe", "LeftToeBase", "LeftToe", "Left Toe", "toe1-1.L", "左つま先", "つま先.L"],
    ["toe_R", "leg right toes", "rToe", "toe.R", "r_toe", "RightToeBase", "RightToe", "toe1-1.R", "Right Toe", "右つま先", "つま先.R"],
    ["eye_L", "head eyeball left", "leftEye", "eye.L", "l_eye", "LeftEye", "LeftEye", "Left Eye", "eye.L", "左目", "目.L"],
    ["eye_R", "head eyeball right", "rightEye", "eye.R", "r_eye", "RightEye", "RightEye", "Right Eye", "eye.R", "右目", "目.R"]
  ]

  /** Rows of the finger bones. Every finger row has only ten slots: the eighth
      convention of the core rows (`type_x`) has no column here, so slots 7, 8
      and 9 of a finger row hold the BEPu, MMD Japanese and MMD Japanese L/R
      names, while `FormatMapping` still reads them as `type_x`, `bepu` and
      `mmd_japanese`. */
  const FingerRows: seq<seq<string>> := [
    ["thumb1_L", "arm left finger 1b", "lThumb2", "thumb.02.L", "l_thumb1", "LeftHandThumb2", "LeftFinger01", "finger1-3.L", "左親指１", "親指１.L"],
    ["thumb2_L", "arm left finger 1c", "lThumb3", "thumb.03.L", "l_thumb2", "LeftHandThumb3", "LeftFinger02", "finger1-4.L", "左親指２", "親指２.L"],
    ["fore1_L", "arm left finger 2a", "lIndex1", "f_index.01.L", "l_index0", "LeftHandIndex1", "LeftFinger1", "finger2-2.L", "左人指１", "人指１.L"],
    ["fore2_L", "arm left finger 2b", "lIndex2", "f_index.02.L", "l_index1", "LeftHandIndex2", "LeftFinger11", "finger2-3.L", "左人指２", "人指２.L"],
    ["fore3_L", "arm left finger 2c", "lIndex3", "f_index.03.L", "l_index2", "LeftHandIndex3", "LeftFinger12", "finger2-4.L", "左人指３", "人指３.L"],
    ["middle1_L", "arm left finger 3a", "lMid1", "f_middle.01.L", "l_mid0", "LeftHandMiddle1", "LeftFinger2", "finger3-2.L", "左中指１", "中指１.L"],
    ["middle2_L", "arm left finger 3b", "lMid2", "f_middle.02.L", "l_mid1", "LeftHandMiddle2", "LeftFinger21", "finger3-3.L", "左中指２", "中指２.L"],
    ["middle3_L", "arm left finger 3c", "lMid3", "f_middle.03.L", "l_mid2", "LeftHandMiddle3", "LeftFinger22", "finger3-4.L", "左中指３", "中指３.L"],
    ["third1_L", "arm left finger 4a", "lRing1", "f_ring.01.L", "l_ring0", "LeftHandRing1", "LeftFinger3", "finger4-2.L", "左薬指１", "薬指１.L"],
    ["third2_L", "arm left finger 4b", "lRing2", "f_ring.02.L", "l_ring1", "LeftHandRing2", "LeftFinger31", "finger4-3.L", "左薬指２", "薬指２.L"],
    ["third3_L", "arm left finger 4c", "lRing3", "f_ring.03.L", "l_ring2", "LeftHandRing3", "LeftFinger32", "finger4-4.L", "左薬指３", "薬指３.L"],
    ["little1_L", "arm left finger 5a", "lPinky1", "f_pinky.01.L", "l_pinky0", "LeftHandPinky1", "LeftFinger4", "finger5-2.L", "左小指１", "小指１.L"],
    ["little2_L", "arm left finger 5b", "lPinky2", "f_pinky.02.L", "l_pinky1", "LeftHandPinky2", "LeftFinger41", "finger5-3.L", "左小指２", "小指２.L"],
    ["little3_L", "arm left finger 5c", "lPinky3", "f_pinky.03.L", "l_pinky2", "LeftHandPinky3", "LeftFinger42", "finger5-4.L", "左小指３", "小指３.L"],
    ["thumb1_R", "arm right finger 1b", "rThumb2", "thumb.02.R", "r_thumb1", "RightHandThumb2", "RightFinger01", "finger1-3.R", "右親指１", "親指１.R"],
    ["thumb2_R", "arm right finger 1c", "rThumb3", "thumb.03.R", "r_thumb2", "RightHandThumb3", "RightFinger02", "finger1-4.R", "右親指２", "親指２.R"],
    ["fore1_R", "arm right finger 2a", "rIndex1", "f_index.01.R", "r_index0", "RightHandIndex1", "RightFinger1", "finger2-2.R", "右人指１", "人指１.R"],
    ["fore2_R", "arm right finger 2b", "rIndex2", "f_index.02.R", "r_index1", "RightHandIndex2", "RightFinger11", "finger2-3.R", "右人指２", "人指２.R"],
    ["fore3_R", "arm right finger 2c", "rIndex3", "f_index.03.R", "r_index2", "RightHandIndex3", "RightFinger12", "finger2-4.R", "右人指３", "人指３.R"],
    ["middle1_R", "arm right finger 3a", "rMid1", "f_middle.01.R", "r_mid0", "RightHandMiddle1", "RightFinger2", "finger3-2.R", "右中指１", "中指１.R"],
    ["middle2_R", "arm right finger 3b", "rMid2", "f_middle.02.R", "r_mid1", "RightHandMiddle2", "RightFinger21", "finger3-3.R", "右中指２", "中指２.R"],
    ["middle3_R", "arm right finger 3c", "rMid3", "f_middle.03.R", "r_mid2", "RightHandMiddle3", "RightFinger22", "finger3-4.R", "右中指３", "中指３.R"],
    ["third1_R", "arm right finger 4a", "rRing1", "f_ring.01.R", "r_ring0", "RightHandRing1", "RightFinger3", "finger4-2.R", "右薬指１", "薬指１.R"],
    ["third2_R", "arm right finger 4b", "rRing2", "f_ring.02.R", "r_ring1", "RightHandRing2", "RightFinger31", "finger4-3.R", "右薬指２", "薬指２.R"],
    ["third3_R", "arm right finger 4c", "rRing3", "f_ring.03.R", "r_ring2", "RightHandRing3", "RightFinger32", "finger4-4.R", "右薬指３", "薬指３.R"],
    ["little1_R", "arm right finger 5a", "rPinky1", "f_pinky.01.R", "r_pinky0", "RightHandPinky1", "RightFinger4", "finger5-2.R", "右小指１", "小指１.R"],
    ["little2_R", "arm right finger 5b", "rPinky2", "f_pinky.02.R", "r_pinky1", "RightHandPinky2", "RightFinger41", "finger5-3.R", "右小指２", "小指２.R"],
    ["little3_R", "arm right finger 5c", "rPinky3", "f_pinky.03.R", "r_pinky2", "RightHandPinky3", "RightFinger42", "finger5-4.R", "右小指３", "小指３.R"],
    ["thumb0_L", "arm left finger 1a", "lThumb1", "thumb.01.L", "l_thumb0", "LeftHandThumb1", "LeftFinger0", "finger1-2.L", "左親指0", "親指0.L"],
    ["thumb0_R", "arm right finger 1a", "rThumb1", "thumb.01.R", "r_thumb0", "RightHandThumb1", "RightFinger0", "finger1-2.R", "右親指0", "親指0.R"]
  ]

  /** Japanese token to English replacement, in declaration order. The
      translator applies the first entry whose key occurs in a name. The
      dictionary is written as four consecutive groups of at most thirty
      entries each so that facts about it can be checked group by group. */
  const JpToEn: seq<(string, string)> := JpGroup1 + JpGroup2 + JpGroup3 + JpGroup4

  /** Dictionary entries 0 to 29 (declared at BoneRenamer_v1.2.py:78-107). */
  const JpGroup1: seq<(string, string)> := [
    ("全ての親", "ParentNode"),
    ("操作中心", "ControlNode"),
    ("センター", "Center"),
    ("ｾﾝﾀｰ", "Center"),
    ("グループ", "Group"),
    ("グルーブ", "Groove"),
    ("キャンセル", "Cancel"),
    ("上半身", "UpperBody"),
    ("下半身", "LowerBody"),
    ("手首", "Wrist"),
    ("足首", "Ankle"),
    ("首", "Neck"),
    ("頭", "Head"),
    ("顔", "Face"),
    ("下顎", "Chin"),
    ("下あご", "Chin"),
    ("あご", "Jaw"),
    ("顎", "Jaw"),
    ("両目", "Eyes"),
    ("目", "Eye"),
    ("眉", "Eyebrow"),
    ("舌", "Tongue"),
    ("涙", "Tears"),
    ("泣き", "Cry"),
    ("歯", "Teeth"),
    ("照れ", "Blush"),
    ("青ざめ", "Pale"),
    ("ガーン", "Gloom"),
    ("汗", "Sweat"),
    ("怒", "Anger")
  ]

  /** Dictionary entries 30 to 59 (declared at BoneRenamer_v1.2.py:108-137). */
  const JpGroup2: seq<(string, string)> := [
    ("感情", "Emotion"),
    ("符", "Marks"),
    ("暗い", "Dark"),
    ("腰", "Waist"),
    ("髪", "Hair"),
    ("三つ編み", "Braid"),
    ("胸", "Breast"),
    ("乳", "Boob"),
    ("おっぱい", "Tits"),
    ("筋", "Muscle"),
    ("腹", "Belly"),
    ("鎖骨", "Clavicle"),
    ("肩", "Shoulder"),
    ("腕", "Arm"),
    ("うで", "Arm"),
    ("ひじ", "Elbow"),
    ("肘", "Elbow"),
    ("手", "Hand"),
    ("親指", "Thumb"),
    ("人指", "IndexFinger"),
    ("人差指", "IndexFinger"),
    ("中指", "MiddleFinger"),
    ("薬指", "RingFinger"),
    ("小指", "LittleFinger"),
    ("足", "Leg"),
    ("ひざ", "Knee"),
    ("つま", "Toe"),
    ("袖", "Sleeve"),
    ("新規", "New"),
    ("ボーン", "Bone")
  ]

  /** Dictionary entries 60 to 89 (declared at BoneRenamer_v1.2.py:138-167). */
  const JpGroup3: seq<(string, string)> := [
    ("捩", "Twist"),
    ("回転", "Rotation"),
    ("軸", "Axis"),
    ("ﾈｸﾀｲ", "Necktie"),
    ("ネクタイ", "Necktie"),
    ("ヘッドセット", "Headset"),
    ("飾り", "Accessory"),
    ("リボン", "Ribbon"),
    ("襟", "Collar"),
    ("紐", "String"),
    ("コード", "Cord"),
    ("イヤリング", "Earring"),
    ("メガネ", "Eyeglasses"),
    ("眼鏡", "Glasses"),
    ("帽子", "Hat"),
    ("ｽｶｰﾄ", "Skirt"),
    ("スカート", "Skirt"),
    ("パンツ", "Pantsu"),
    ("シャツ", "Shirt"),
    ("フリル", "Frill"),
    ("マフラー", "Muffler"),
    ("ﾏﾌﾗｰ", "Muffler"),
    ("服", "Clothes"),
    ("ブーツ", "Boots"),
    ("ねこみみ", "CatEars"),
    ("ジップ", "Zip"),
    ("ｼﾞｯﾌﾟ", "Zip"),
    ("ダミー", "Dummy"),
    ("ﾀﾞﾐｰ", "Dummy"),
    ("基", "Category")
  ]

  /** Dictionary entries 90 to 117 (declared at BoneRenamer_v1.2.py:168-195). */
  const JpGroup4: seq<(string, string)> := [
    ("あほ毛", "Antenna"),
    ("アホ毛", "Antenna"),
    ("モミアゲ", "Sideburn"),
    ("もみあげ", "Sideburn"),
    ("ツインテ", "Twintail"),
    ("おさげ", "Pigtail"),
    ("ひらひら", "Flutter"),
    ("調整", "Adjustment"),
    ("補助", "Aux"),
    ("右", "Right"),
    ("左", "Left"),
    ("前", "Front"),
    ("後ろ", "Behind"),
    ("後", "Back"),
    ("横", "Side"),
    ("中", "Middle"),
    ("上", "Upper"),
    ("下", "Lower"),
    ("親", "Parent"),
    ("先", "Tip"),
    ("パーツ", "Part"),
    ("光", "Light"),
    ("戻", "Return"),
    ("羽", "Wing"),
    ("根", "Base"),
    ("毛", "Strand"),
    ("尾", "Tail"),
    ("尻", "Butt")
  ]

  /** The supported conventions, in the order the user interface offers them. */
  const BoneMaps: seq<Format> := [
    Format("mmd_english", "MMD English", "MikuMikuDance English bone names"),
    Format("xna_lara", "XNALara", "XNALara bone names"),
    Format("daz_poser", "DAZ/Poser", "DAZ Studio and Poser bone names"),
    Format("blender_rigify", "Rigify", "Blender Rigify bone names"),
    Format("sims_2", "Sims 2", "The Sims 2 bone names"),
    Format("motion_builder", "Motion Builder", "Motion Builder bone names"),
    Format("3ds_max", "3ds Max", "3ds Max bone names"),
    Format("type_x", "Type X", "Type X bone names"),
    Format("bepu", "BEPu", "BEPu bone names"),
    Format("mmd_japanese", "MMD Japanese", "MikuMikuDance Japanese bone names"),
    Format("mmd_japaneseLR", "MMD Japanese L/R", "MikuMikuDance Japanese bone names with L/R suffixes"),
    Format("unknown", "Unknown", "Unknown bone format")
  ]

  /** The renamer's dictionary from convention key to row slot. */
  const FormatMapping: map<string, nat> := map[
    "mmd_english" := 0,
    "xna_lara" := 1,
    "daz_poser" := 2,
    "blender_rigify" := 3,
    "sims_2" := 4,
    "motion_builder" := 5,
    "3ds_max" := 6,
    "type_x" := 7,
    "bepu" := 8,
    "mmd_japanese" := 9,
    "mmd_japaneseLR" := 10,
    "unknown" := 11
  ]

  /** Every core row has a slot for each of the eleven conventions of the column list. */
  lemma CoreRowsHaveElevenSlots()
    ensures forall i :: 0 <= i < |CoreRows| ==> |CoreRows[i]| == 11
  {
  }

  /** Every finger row has ten slots, one fewer than a core row. */
  lemma FingerRowsHaveTenSlots()
    ensures forall i :: 0 <= i < |FingerRows| ==> |FingerRows[i]| == 10
  {
  }

  /** The missing `type_x` column shifts the last conventions of the finger rows:
      the slot that `bepu` reads holds a finger's MMD Japanese name, and the slot
      that `mmd_japanese` reads holds its L/R-suffixed name, whereas in the core
      rows those slots hold the BEPu and MMD Japanese names. */
  lemma FingerColumnsShifted()
    ensures FormatMapping["bepu"] == 8 && FormatMapping["mmd_japanese"] == 9
    ensures CoreRows[1][8] == "neck" && CoreRows[1][9] == "首"
    ensures forall i :: 0 <= i < |FingerRows| ==> JapaneseSlotsShifted(FingerRows[i])
  {
    LeftFingerColumnsShifted();
    RightFingerColumnsShifted();
  }

  /** Slot 9 of a finger row holds an L/R-suffixed name, and slot 8 the same name
      with the side written as a `左`/`右` prefix instead. */
  predicate JapaneseSlotsShifted(row: seq<string>)
  {
    |row| == 10 &&
    var lr := row[9];
    |lr| >= 3 && lr[|lr| - 2] == '.' && lr[|lr| - 1] in {'L', 'R'}
    && row[8] == [if lr[|lr| - 1] == 'L' then '左' else '右'] + lr[..|lr| - 2]
  }

  /** The left-hand finger rows have their Japanese names shifted. */
  lemma LeftFingerColumnsShifted()
    ensures forall i :: 0 <= i < 15 <= |FingerRows| ==> JapaneseSlotsShifted(FingerRows[i])
  {
  }

  /** The right-hand finger rows have their Japanese names shifted. */
  lemma RightFingerColumnsShifted()
    ensures forall i :: 15 <= i < |FingerRows| ==> JapaneseSlotsShifted(FingerRows[i])
  {
  }

  /** The renamer's key-to-slot dictionary gives each supported convention its
      position in the list of conventions, and knows no other key. */
  lemma FormatMappingFollowsBoneMaps()
    ensures forall i :: 0 <= i < |BoneMaps| ==> BoneMaps[i].key in FormatMapping && FormatMapping[BoneMaps[i].key] == i
    ensures forall k :: k in FormatMapping ==> FormatMapping[k] < |BoneMaps| && BoneMaps[FormatMapping[k]].key == k
  {
  }

  /** True when a dictionary entry has a non-empty key that differs from its replacement. */
  predicate Renames(entry: (string, string))
  {
    entry.0 != "" && entry.0 != entry.1
  }

  lemma GroupsRename()
    ensures forall k :: 0 <= k < |JpGroup1| ==> Renames(JpGroup1[k])
    ensures forall k :: 0 <= k < |JpGroup2| ==> Renames(JpGroup2[k])
    ensures forall k :: 0 <= k < |JpGroup3| ==> Renames(JpGroup3[k])
    ensures forall k :: 0 <= k < |JpGroup4| ==> Renames(JpGroup4[k])
  {
  }

  /** Every dictionary key is non-empty and differs from its English replacement. */
  lemma EveryEntryRenames()
    ensures |JpToEn| == 118
    ensures forall k :: 0 <= k < |JpToEn| ==> Renames(JpToEn[k])
  {
    GroupsRename();
    forall k | 0 <= k < |JpToEn| ensures Renames(JpToEn[k]) {
      if k < 30 {
        assert JpToEn[k] == JpGroup1[k];
      } else if k < 60 {
        assert JpToEn[k] == JpGroup2[k - 30];
      } else if k < 90 {
        assert JpToEn[k] == JpGroup3[k - 60];
      } else {
        assert JpToEn[k] == JpGroup4[k - 90];
      }
    }
  }
}
