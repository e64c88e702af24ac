/** What one frame draws, stated against the draw-command list: which guide
    keypoints get a marker, what is drawn for each major key, how the line
    and glyph are coloured, in which order the alignment checks happen, and
    that every detected landmark is overlaid. */
module FrameProperties {
  import opened Catalog
  import opened Mapping
  import opened Distance
  import opened Frame

  // ---------------------------------------------------------------------
  // Views of a command list

  /** The commands drawn for one major key, in drawing order. */
  function ForKey(cmds: seq<DrawCmd>, key: string): seq<DrawCmd>
  {
    if |cmds| == 0 then []
    else
      var last := cmds[|cmds| - 1];
      ForKey(cmds[..|cmds| - 1], key) + (if Tagged(last) && last.key == key then [last] else [])
  }

  /** The keys of the connecting lines, in drawing order: one per alignment
      check. */
  function LineKeys(cmds: seq<DrawCmd>): seq<string>
  {
    if |cmds| == 0 then []
    else
      var last := cmds[|cmds| - 1];
      LineKeys(cmds[..|cmds| - 1]) + (if last.Line? then [last.key] else [])
  }

  /** The positions of the overlay markers, in drawing order. */
  function Overlays(cmds: seq<DrawCmd>): seq<Pixel>
  {
    if |cmds| == 0 then []
    else
      var last := cmds[|cmds| - 1];
      Overlays(cmds[..|cmds| - 1]) + (if last.Overlay? then [last.at] else [])
  }

  /** The positions of the subtle guide markers, in drawing order. */
  function GuideDots(cmds: seq<DrawCmd>): seq<Pixel>
  {
    if |cmds| == 0 then []
    else
      var last := cmds[|cmds| - 1];
      GuideDots(cmds[..|cmds| - 1]) + (if last.GuideDot? then [last.at] else [])
  }

  // ---------------------------------------------------------------------
  // Reference selections

  /** The guide keypoints that are not excluded, in order. */
  function Kept(keypoints: seq<Entry>): (r: seq<Entry>)
    ensures |r| <= |keypoints|
    ensures forall e :: e in r <==> e in keypoints && e.name !in ExcludeKeys
  {
    if |keypoints| == 0 then []
    else
      var init, last := keypoints[..|keypoints| - 1], keypoints[|keypoints| - 1];
      assert keypoints == init + [last];
      Kept(init) + (if last.name in ExcludeKeys then [] else [last])
  }

  /** The landmarks the detector reported, in order, holes skipped. */
  function Present(landmarks: seq<Option<Point>>): (r: seq<Point>)
    ensures |r| <= |landmarks|
    ensures forall p :: p in r <==> Some(p) in landmarks
  {
    if |landmarks| == 0 then []
    else
      var init, last := landmarks[..|landmarks| - 1], landmarks[|landmarks| - 1];
      assert landmarks == init + [last];
      Present(init) + (if last.Some? then [last.value] else [])
  }

  /** The keys, in order, that can be alignment-checked in this frame. */
  function Checked(keys: seq<string>, keypoints: seq<Entry>, landmarks: seq<Option<Point>>): (r: seq<string>)
    ensures |r| <= |keys|
    ensures forall k :: k in r <==> k in keys && Checkable(k, keypoints, landmarks)
  {
    if |keys| == 0 then []
    else
      var init, last := keys[..|keys| - 1], keys[|keys| - 1];
      assert keys == init + [last];
      Checked(init, keypoints, landmarks) + (if Checkable(last, keypoints, landmarks) then [last] else [])
  }

  // ---------------------------------------------------------------------
  // The views distribute over concatenation

  lemma {:induction false} ForKeyAppend(a: seq<DrawCmd>, b: seq<DrawCmd>, key: string)
    ensures ForKey(a + b, key) == ForKey(a, key) + ForKey(b, key)
  {
    if |b| > 0 {
      var init := b[..|b| - 1];
      assert (a + b)[..|a + b| - 1] == a + init;
      ForKeyAppend(a, init, key);
    } else {
      assert a + b == a;
    }
  }

  lemma {:induction false} LineKeysAppend(a: seq<DrawCmd>, b: seq<DrawCmd>)
    ensures LineKeys(a + b) == LineKeys(a) + LineKeys(b)
  {
    if |b| > 0 {
      var init := b[..|b| - 1];
      assert (a + b)[..|a + b| - 1] == a + init;
      LineKeysAppend(a, init);
    } else {
      assert a + b == a;
    }
  }

  lemma {:induction false} OverlaysAppend(a: seq<DrawCmd>, b: seq<DrawCmd>)
    ensures Overlays(a + b) == Overlays(a) + Overlays(b)
  {
    if |b| > 0 {
      var init := b[..|b| - 1];
      assert (a + b)[..|a + b| - 1] == a + init;
      OverlaysAppend(a, init);
    } else {
      assert a + b == a;
    }
  }

  lemma {:induction false} GuideDotsAppend(a: seq<DrawCmd>, b: seq<DrawCmd>)
    ensures GuideDots(a + b) == GuideDots(a) + GuideDots(b)
  {
    if |b| > 0 {
      var init := b[..|b| - 1];
      assert (a + b)[..|a + b| - 1] == a + init;
      GuideDotsAppend(a, init);
    } else {
      assert a + b == a;
    }
  }

  // ---------------------------------------------------------------------
  // The parts of a frame

  /** The subtle guide is one mirrored marker per kept keypoint, in order,
      and nothing else. */
  lemma {:induction false} GuidePartIsKept(keypoints: seq<Entry>, m: Mappers)
    ensures var g, k := GuidePart(keypoints, m), Kept(keypoints);
      |g| == |k| &&
      forall i :: 0 <= i < |k| ==> g[i] == GuideDot(MapGuide(m, k[i].coords.x, k[i].coords.y, true))
  {
    if |keypoints| > 0 {
      GuidePartIsKept(keypoints[..|keypoints| - 1], m);
    }
  }

  /** The subtle guide holds guide markers only. */
  lemma GuidePartOnlyDots(keypoints: seq<Entry>, m: Mappers)
    ensures forall c :: c in GuidePart(keypoints, m) ==> c.GuideDot?
  {
    GuidePartIsKept(keypoints, m);
  }

  /** The overlay is one unmirrored marker per reported landmark, in order,
      and nothing else. */
  lemma {:induction false} OverlayPartIsPresent(landmarks: seq<Option<Point>>, m: Mappers)
    ensures var o, p := OverlayPart(landmarks, m), Present(landmarks);
      |o| == |p| &&
      forall i :: 0 <= i < |p| ==> o[i] == Overlay(MapDetected(m, p[i].x, p[i].y))
  {
    if |landmarks| > 0 {
      OverlayPartIsPresent(landmarks[..|landmarks| - 1], m);
    }
  }

  /** Every command of a major key's step is tagged with that key. */
  lemma MajorStepTagged(key: string, keypoints: seq<Entry>, landmarks: seq<Option<Point>>, m: Mappers)
    ensures forall c :: c in MajorStep(key, keypoints, landmarks, m) ==> Tagged(c) && c.key == key
    ensures forall c :: c in MajorStep(key, keypoints, landmarks, m) ==> !c.Overlay? && !c.GuideDot?
  {
  }

  /** A command list whose commands are all tagged with one key. */
  lemma {:induction false} ForKeyUniform(cmds: seq<DrawCmd>, owner: string, key: string)
    requires forall c :: c in cmds ==> Tagged(c) && c.key == owner
    ensures ForKey(cmds, key) == if key == owner then cmds else []
  {
    if |cmds| > 0 {
      var init, last := cmds[..|cmds| - 1], cmds[|cmds| - 1];
      assert cmds == init + [last];
      assert last in cmds;
      assert forall c :: c in init ==> c in cmds;
      ForKeyUniform(init, owner, key);
    }
  }

  /** Among the major keys' commands, those of one key are exactly its own
      step, provided no key is listed twice. */
  lemma {:induction false} ForKeyMajors(keys: seq<string>, keypoints: seq<Entry>, landmarks: seq<Option<Point>>,
                                        m: Mappers, key: string)
    requires forall i, j :: 0 <= i < j < |keys| ==> keys[i] != keys[j]
    ensures ForKey(MajorsPart(keys, keypoints, landmarks, m), key)
         == if key in keys then MajorStep(key, keypoints, landmarks, m) else []
  {
    if |keys| > 0 {
      var init, last := keys[..|keys| - 1], keys[|keys| - 1];
      assert keys == init + [last];
      ForKeyMajors(init, keypoints, landmarks, m, key);
      ForKeyAppend(MajorsPart(init, keypoints, landmarks, m), MajorStep(last, keypoints, landmarks, m), key);
      MajorStepTagged(last, keypoints, landmarks, m);
      ForKeyUniform(MajorStep(last, keypoints, landmarks, m), last, key);
      if key == last {
        assert key !in init;
      }
    }
  }

  /** A major key's step draws one line when the key is checkable and none
      otherwise. */
  lemma LineKeysStep(key: string, keypoints: seq<Entry>, landmarks: seq<Option<Point>>, m: Mappers)
    ensures LineKeys(MajorStep(key, keypoints, landmarks, m))
         == if Checkable(key, keypoints, landmarks) then [key] else []
  {
    var step := MajorStep(key, keypoints, landmarks, m);
    if Checkable(key, keypoints, landmarks) {
      assert step == step[..3] + [step[3]] + step[4..];
      LineKeysAppend(step[..3] + [step[3]], step[4..]);
      LineKeysAppend(step[..3], [step[3]]);
      NoLines(step[..3]);
      NoLines(step[4..]);
      assert [step[3]][..0] == [];
    } else {
      NoLines(step);
    }
  }

  lemma {:induction false} NoLines(cmds: seq<DrawCmd>)
    requires forall c :: c in cmds ==> !c.Line?
    ensures LineKeys(cmds) == []
  {
    if |cmds| > 0 {
      var init := cmds[..|cmds| - 1];
      assert forall c :: c in init ==> c in cmds;
      assert cmds[|cmds| - 1] in cmds;
      NoLines(init);
    }
  }

  lemma {:induction false} NoTagged(cmds: seq<DrawCmd>, key: string)
    requires forall c :: c in cmds ==> !Tagged(c)
    ensures ForKey(cmds, key) == []
  {
    if |cmds| > 0 {
      var init := cmds[..|cmds| - 1];
      assert forall c :: c in init ==> c in cmds;
      assert cmds[|cmds| - 1] in cmds;
      NoTagged(init, key);
    }
  }

  /** The major keys' lines are drawn in key order, one per checkable key. */
  lemma {:induction false} LineKeysMajors(keys: seq<string>, keypoints: seq<Entry>, landmarks: seq<Option<Point>>, m: Mappers)
    ensures LineKeys(MajorsPart(keys, keypoints, landmarks, m)) == Checked(keys, keypoints, landmarks)
  {
    if |keys| > 0 {
      var init, last := keys[..|keys| - 1], keys[|keys| - 1];
      LineKeysMajors(init, keypoints, landmarks, m);
      LineKeysAppend(MajorsPart(init, keypoints, landmarks, m), MajorStep(last, keypoints, landmarks, m));
      LineKeysStep(last, keypoints, landmarks, m);
    }
  }

  /** Every major-key command is tagged with one of the keys. */
  lemma {:induction false} MajorsPartTagged(keys: seq<string>, keypoints: seq<Entry>, landmarks: seq<Option<Point>>, m: Mappers)
    ensures forall c :: c in MajorsPart(keys, keypoints, landmarks, m) ==> Tagged(c) && c.key in keys
  {
    if |keys| > 0 {
      var init, last := keys[..|keys| - 1], keys[|keys| - 1];
      MajorsPartTagged(init, keypoints, landmarks, m);
      MajorStepTagged(last, keypoints, landmarks, m);
      assert forall k :: k in init ==> k in keys;
    }
  }

  /** The overlay holds overlay markers only. */
  lemma OverlayPartOnlyOverlays(landmarks: seq<Option<Point>>, m: Mappers)
    ensures forall c :: c in OverlayPart(landmarks, m) ==> c.Overlay?
  {
    OverlayPartIsPresent(landmarks, m);
  }

  lemma {:induction false} NoOverlays(cmds: seq<DrawCmd>)
    requires forall c :: c in cmds ==> !c.Overlay?
    ensures Overlays(cmds) == []
  {
    if |cmds| > 0 {
      var init := cmds[..|cmds| - 1];
      assert forall c :: c in init ==> c in cmds;
      assert cmds[|cmds| - 1] in cmds;
      NoOverlays(init);
    }
  }

  lemma {:induction false} NoGuideDots(cmds: seq<DrawCmd>)
    requires forall c :: c in cmds ==> !c.GuideDot?
    ensures GuideDots(cmds) == []
  {
    if |cmds| > 0 {
      var init := cmds[..|cmds| - 1];
      assert forall c :: c in init ==> c in cmds;
      assert cmds[|cmds| - 1] in cmds;
      NoGuideDots(init);
    }
  }

  /** Every tagged command is among the commands of its own key. */
  lemma {:induction false} ForKeyMember(cmds: seq<DrawCmd>, c: DrawCmd)
    requires c in cmds && Tagged(c)
    ensures c in ForKey(cmds, c.key)
  {
    var init, last := cmds[..|cmds| - 1], cmds[|cmds| - 1];
    assert cmds == init + [last];
    if c != last {
      ForKeyMember(init, c);
    }
  }

  /** A key is among the line keys exactly when a line is drawn for it. */
  lemma {:induction false} LineKeysMember(cmds: seq<DrawCmd>, key: string)
    ensures key in LineKeys(cmds) <==> exists c :: c in cmds && c.Line? && c.key == key
  {
    if |cmds| > 0 {
      var init, last := cmds[..|cmds| - 1], cmds[|cmds| - 1];
      assert cmds == init + [last];
      LineKeysMember(init, key);
      if key in LineKeys(init) {
        var c :| c in init && c.Line? && c.key == key;
        assert c in cmds;
      }
    }
  }

  /** The line of a major key joins its mirrored guide point to its detected
      point and is green exactly when the two are aligned. */
  lemma StepLine(key: string, keypoints: seq<Entry>, landmarks: seq<Option<Point>>, m: Mappers, c: DrawCmd)
    requires c in MajorStep(key, keypoints, landmarks, m) && c.Line?
    ensures Checkable(key, keypoints, landmarks)
    ensures var g, d := Lookup(keypoints, key).value, DetectedAt(landmarks, KeyToIndex[key]).value;
      && c.key == key
      && c.from == MapGuide(m, g.x, g.y, true)
      && c.to == MapDetected(m, d.x, d.y)
      && (c.colour == Green <==> Aligned(d, g))
  {
  }

  /** The status glyph of a major key sits at its detected point; it is a
      green check mark when aligned and a red cross otherwise. */
  lemma StepGlyph(key: string, keypoints: seq<Entry>, landmarks: seq<Option<Point>>, m: Mappers, c: DrawCmd)
    requires c in MajorStep(key, keypoints, landmarks, m) && c.Glyph?
    ensures Checkable(key, keypoints, landmarks)
    ensures var g, d := Lookup(keypoints, key).value, DetectedAt(landmarks, KeyToIndex[key]).value;
      && c.key == key
      && c.at == MapDetected(m, d.x, d.y)
      && (c.symbol == Check <==> Aligned(d, g))
      && (c.colour == Green <==> Aligned(d, g))
  {
  }

  /** The major keys' commands hold no overlay and no guide marker. */
  lemma MajorsPartUntagged(keys: seq<string>, keypoints: seq<Entry>, landmarks: seq<Option<Point>>, m: Mappers)
    ensures Overlays(MajorsPart(keys, keypoints, landmarks, m)) == []
    ensures GuideDots(MajorsPart(keys, keypoints, landmarks, m)) == []
  {
    MajorsPartTagged(keys, keypoints, landmarks, m);
    NoOverlays(MajorsPart(keys, keypoints, landmarks, m));
    NoGuideDots(MajorsPart(keys, keypoints, landmarks, m));
  }

  /** The guide markers of a list of guide markers are their positions. */
  lemma {:induction false} GuideDotsOfDots(cmds: seq<DrawCmd>)
    requires forall c :: c in cmds ==> c.GuideDot?
    ensures |GuideDots(cmds)| == |cmds|
    ensures forall i :: 0 <= i < |cmds| ==> GuideDots(cmds)[i] == cmds[i].at
  {
    if |cmds| > 0 {
      var init := cmds[..|cmds| - 1];
      assert forall c :: c in init ==> c in cmds;
      assert cmds[|cmds| - 1] in cmds;
      GuideDotsOfDots(init);
    }
  }

  /** The overlay markers of a list of overlay markers are their positions. */
  lemma {:induction false} OverlaysOfOverlays(cmds: seq<DrawCmd>)
    requires forall c :: c in cmds ==> c.Overlay?
    ensures |Overlays(cmds)| == |cmds|
    ensures forall i :: 0 <= i < |cmds| ==> Overlays(cmds)[i] == cmds[i].at
  {
    if |cmds| > 0 {
      var init := cmds[..|cmds| - 1];
      assert forall c :: c in init ==> c in cmds;
      assert cmds[|cmds| - 1] in cmds;
      OverlaysOfOverlays(init);
    }
  }
}
