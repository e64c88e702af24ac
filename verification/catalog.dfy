/** The landmark catalog: the fixed tables that name the detector's 33 body
    landmarks, the four "major" landmarks that are alignment-checked and the
    landmarks left out of the subtle full-body guide. */
module Catalog {

  /** The landmarks used for alignment feedback, in the order they are checked. */
  const MajorKeys: seq<string> := ["left_shoulder", "right_shoulder", "left_hip", "right_hip"]

  /** Landmark name to the detector's landmark index. */
  const KeyToIndex: map<string, nat> := map[
    "nose" := 0,
    "left_eye_inner" := 1,
    "left_eye" := 2,
    "left_eye_outer" := 3,
    "right_eye_inner" := 4,
    "right_eye" := 5,
    "right_eye_outer" := 6,
    "left_ear" := 7,
    "right_ear" := 8,
    "mouth_left" := 9,
    "mouth_right" := 10,
    "left_shoulder" := 11,
    "right_shoulder" := 12,
    "left_elbow" := 13,
    "right_elbow" := 14,
    "left_wrist" := 15,
    "right_wrist" := 16,
    "left_pinky" := 17,
    "right_pinky" := 18,
    "left_index" := 19,
    "right_index" := 20,
    "left_thumb" := 21,
    "right_thumb" := 22,
    "left_hip" := 23,
    "right_hip" := 24,
    "left_knee" := 25,
    "right_knee" := 26,
    "left_ankle" := 27,
    "right_ankle" := 28,
    "left_heel" := 29,
    "right_heel" := 30,
    "left_foot_index" := 31,
    "right_foot_index" := 32
  ]

  /** Face and finger landmarks, which the subtle guide does not draw. */
  const ExcludeKeys: set<string> := {
    "nose",
    "left_eye_inner",
    "left_eye",
    "left_eye_outer",
    "right_eye_inner",
    "right_eye",
    "right_eye_outer",
    "left_ear",
    "right_ear",
    "mouth_left",
    "mouth_right",
    "left_pinky",
    "right_pinky",
    "left_index",
    "right_index",
    "left_thumb",
    "right_thumb"
  }

  /** The number of landmarks the detector reports. */
  const LandmarkCount: nat := 33

  /** The landmark names in index order: the catalog read backwards. */
  const LandmarkNames: seq<string> := [
    "nose", "left_eye_inner", "left_eye", "left_eye_outer", "right_eye_inner",
    "right_eye", "right_eye_outer", "left_ear", "right_ear", "mouth_left",
    "mouth_right", "left_shoulder", "right_shoulder", "left_elbow", "right_elbow",
    "left_wrist", "right_wrist", "left_pinky", "right_pinky", "left_index",
    "right_index", "left_thumb", "right_thumb", "left_hip", "right_hip",
    "left_knee", "right_knee", "left_ankle", "right_ankle", "left_heel",
    "right_heel", "left_foot_index", "right_foot_index"
  ]

  /** The name of landmark index i. */
  function NameOf(i: nat): (name: string)
    requires i < LandmarkCount
    ensures name in KeyToIndex && KeyToIndex[name] == i
  {
    LandmarkNames[i]
  }

  /** Every catalogued name is the name of its own index. */
  lemma NameOfIndex(key: string)
    requires key in KeyToIndex
    ensures KeyToIndex[key] < LandmarkCount && NameOf(KeyToIndex[key]) == key
  {
    assert key in LandmarkNames;
    var i :| 0 <= i < |LandmarkNames| && LandmarkNames[i] == key;
    assert KeyToIndex[NameOf(i)] == i;
  }

  /** No two landmark names share an index. */
  lemma KeyToIndexInjective(a: string, b: string)
    requires a in KeyToIndex && b in KeyToIndex
    ensures KeyToIndex[a] == KeyToIndex[b] <==> a == b
  {
    NameOfIndex(a);
    NameOfIndex(b);
  }

  /** The indices in use are exactly 0..32. */
  lemma KeyToIndexRange()
    ensures forall i: nat :: i in KeyToIndex.Values <==> i < LandmarkCount
  {
    forall i: nat | i < LandmarkCount ensures i in KeyToIndex.Values {
      var name := NameOf(i);
      assert KeyToIndex[name] == i;
    }
    forall i | i in KeyToIndex.Values ensures i < LandmarkCount {
      var name :| name in KeyToIndex && KeyToIndex[name] == i;
      NameOfIndex(name);
    }
  }

  /** Each major landmark is catalogued and is not excluded from the guide. */
  lemma MajorKeysCatalogued(k: nat)
    requires k < |MajorKeys|
    ensures MajorKeys[k] in KeyToIndex && MajorKeys[k] !in ExcludeKeys
    ensures KeyToIndex[MajorKeys[k]] == [11, 12, 23, 24][k]
  {
  }

  /** No major landmark is listed twice. */
  lemma MajorKeysDistinct()
    ensures forall i, j :: 0 <= i < j < |MajorKeys| ==> MajorKeys[i] != MajorKeys[j]
  {
  }

  /** Excluded names are all catalogued landmarks. */
  lemma ExcludeKeysCatalogued()
    ensures ExcludeKeys <= KeyToIndex.Keys
  {
  }
}
