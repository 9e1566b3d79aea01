/** The pixel-displacement check of the terrain blend-paint inspector's GUI:
    with pixel displacement, every layer that has a height map must use the
    same base UV mapping, and the inspector shows a warning otherwise. The
    inspector tracks "no value seen yet" with the sentinel -1.0; the model
    keeps that version (`ScanAsWritten`) beside one that tracks it with an
    option (`ScanCorrected`), which the warning uses. */
module DisplacementCheck {
  import opened Host
  import opened Names
  import opened Materials
  import opened Enums
  import opened LitNames

  /** What the check reads for one layer slot: whether `_HeightMap<i>` holds
      a texture, and the raw float of `_UVBase<i>`. */
  datatype Slot = Slot(hasHeightMap: bool, uvBase: real)

  function ReadSlot(m: Material, i: nat): Slot
  {
    Slot(HasTexture(m, Suffixed(HeightMapName, i)), GetFloat(m, Suffixed(UVBaseName, i)))
  }

  /** The four layer slots, in order. */
  function ReadSlots(m: Material): (s: seq<Slot>)
    ensures |s| == MaxLayerCount
    ensures forall i :: 0 <= i < |s| ==> s[i] == ReadSlot(m, i)
  {
    seq(MaxLayerCount, (i: int) requires 0 <= i => ReadSlot(m, i))
  }

  /** All slots with a height map use the same UV mapping value. */
  ghost predicate Agree(slots: seq<Slot>)
  {
    forall a, b :: 0 <= a < |slots| && 0 <= b < |slots| && slots[a].hasHeightMap && slots[b].hasHeightMap ==>
      slots[a].uvBase == slots[b].uvBase
  }

  /** All slots with a height map use the UV mapping value v. */
  ghost predicate AgreeWith(slots: seq<Slot>, v: real)
  {
    forall a :: 0 <= a < |slots| && slots[a].hasHeightMap ==> slots[a].uvBase == v
  }

  /** The check as the inspector writes it: `compare` is -1.0 until a slot
      with a height map is seen. */
  function ScanAsWritten(slots: seq<Slot>, compare: real, matched: bool): bool
    decreases |slots|
  {
    if |slots| == 0 then matched
    else
      var s := slots[0];
      if !s.hasHeightMap then ScanAsWritten(slots[1..], compare, matched)
      else if compare == -1.0 then ScanAsWritten(slots[1..], s.uvBase, matched)
      else ScanAsWritten(slots[1..], compare, matched && compare == s.uvBase)
  }

  /** The check with "no value seen yet" kept apart from every float. */
  function ScanCorrected(slots: seq<Slot>, first: Option<real>, matched: bool): bool
    decreases |slots|
  {
    if |slots| == 0 then matched
    else
      var s := slots[0];
      if !s.hasHeightMap then ScanCorrected(slots[1..], first, matched)
      else match first
        case None => ScanCorrected(slots[1..], Some(s.uvBase), matched)
        case Some(v) => ScanCorrected(slots[1..], first, matched && v == s.uvBase)
  }

  /** The corrected scan reports a match exactly when the slots with a height
      map agree with each other and with the value seen so far. */
  lemma {:induction false} ScanCorrectedAgrees(slots: seq<Slot>, first: Option<real>, matched: bool)
    decreases |slots|
    ensures ScanCorrected(slots, first, matched) <==>
      matched && match first
        case None => Agree(slots)
        case Some(v) => AgreeWith(slots, v)
  {
    if |slots| > 0 {
      var s := slots[0];
      var rest := slots[1..];
      assert forall a :: 0 <= a < |rest| ==> rest[a] == slots[a + 1];
      if !s.hasHeightMap {
        ScanCorrectedAgrees(rest, first, matched);
        match first
        case None =>
          if Agree(rest) {
            forall a, b | 0 <= a < |slots| && 0 <= b < |slots| && slots[a].hasHeightMap && slots[b].hasHeightMap
              ensures slots[a].uvBase == slots[b].uvBase
            {
              assert slots[a] == rest[a - 1] && slots[b] == rest[b - 1];
            }
          }
        case Some(v) =>
          if AgreeWith(rest, v) {
            forall a | 0 <= a < |slots| && slots[a].hasHeightMap
              ensures slots[a].uvBase == v
            {
              assert slots[a] == rest[a - 1];
            }
          }
      } else {
        match first
        case None =>
          ScanCorrectedAgrees(rest, Some(s.uvBase), matched);
          if AgreeWith(rest, s.uvBase) {
            forall a, b | 0 <= a < |slots| && 0 <= b < |slots| && slots[a].hasHeightMap && slots[b].hasHeightMap
              ensures slots[a].uvBase == slots[b].uvBase
            {
              if a > 0 { assert slots[a] == rest[a - 1]; }
              if b > 0 { assert slots[b] == rest[b - 1]; }
            }
          }
        case Some(v) =>
          ScanCorrectedAgrees(rest, first, matched && v == s.uvBase);
          if v == s.uvBase && AgreeWith(rest, v) {
            forall a | 0 <= a < |slots| && slots[a].hasHeightMap
              ensures slots[a].uvBase == v
            {
              if a > 0 { assert slots[a] == rest[a - 1]; }
            }
          }
      }
    }
  }

  /** No slot with a height map holds the sentinel value. */
  ghost predicate NoSentinel(slots: seq<Slot>)
  {
    forall a :: 0 <= a < |slots| && slots[a].hasHeightMap ==> slots[a].uvBase != -1.0
  }

  /** The sentinel stands for "no value seen yet" exactly when no height-mapped
      slot holds -1.0: then the two scans agree. */
  lemma {:induction false} ScanAsWrittenIsCorrected(slots: seq<Slot>, compare: real, first: Option<real>, matched: bool)
    decreases |slots|
    requires NoSentinel(slots)
    requires first.None? <==> compare == -1.0
    requires first.Some? ==> first.value == compare
    ensures ScanAsWritten(slots, compare, matched) == ScanCorrected(slots, first, matched)
  {
    if |slots| > 0 {
      var s := slots[0];
      var rest := slots[1..];
      assert NoSentinel(rest) by {
        forall a | 0 <= a < |rest| && rest[a].hasHeightMap
          ensures rest[a].uvBase != -1.0
        {
          assert rest[a] == slots[a + 1];
        }
      }
      if !s.hasHeightMap {
        ScanAsWrittenIsCorrected(rest, compare, first, matched);
      } else if compare == -1.0 {
        ScanAsWrittenIsCorrected(rest, s.uvBase, Some(s.uvBase), matched);
      } else {
        ScanAsWrittenIsCorrected(rest, compare, first, matched && compare == s.uvBase);
      }
    }
  }

  /** `(DisplacementMode)_DisplacementMode == DisplacementMode.Pixel`. */
  predicate PixelDisplacementMode(m: Material)
  {
    DisplacementModeOf(GetFloat(m, DisplacementModeName)).PixelDisplacement?
  }

  /** The warning as the inspector computes it. */
  predicate ShowsLayerMappingWarningAsWritten(m: Material)
  {
    PixelDisplacementMode(m) && !ScanAsWritten(ReadSlots(m), -1.0, true)
  }

  /** The warning with the sentinel replaced by an option. */
  predicate ShowsLayerMappingWarning(m: Material)
  {
    PixelDisplacementMode(m) && !ScanCorrected(ReadSlots(m), None, true)
  }

  /** Two layer slots that both have a height map use different UV mappings. */
  ghost predicate HeightMappedLayersDisagree(m: Material)
  {
    exists a, b :: 0 <= a < MaxLayerCount && 0 <= b < MaxLayerCount
      && HasTexture(m, Suffixed(HeightMapName, a)) && HasTexture(m, Suffixed(HeightMapName, b))
      && GetFloat(m, Suffixed(UVBaseName, a)) != GetFloat(m, Suffixed(UVBaseName, b))
  }

  /** The warning shows exactly in pixel displacement mode when two layers
      with a height map use different base UV mappings. */
  lemma ShowsLayerMappingWarningMeaning(m: Material)
    ensures ShowsLayerMappingWarning(m) <==> PixelDisplacementMode(m) && HeightMappedLayersDisagree(m)
  {
    var slots := ReadSlots(m);
    ScanCorrectedAgrees(slots, None, true);
    if !Agree(slots) {
      var a, b :| 0 <= a < |slots| && 0 <= b < |slots| && slots[a].hasHeightMap && slots[b].hasHeightMap
        && slots[a].uvBase != slots[b].uvBase;
      assert slots[a] == ReadSlot(m, a) && slots[b] == ReadSlot(m, b);
    }
    if HeightMappedLayersDisagree(m) {
      var a, b :| 0 <= a < MaxLayerCount && 0 <= b < MaxLayerCount
        && HasTexture(m, Suffixed(HeightMapName, a)) && HasTexture(m, Suffixed(HeightMapName, b))
        && GetFloat(m, Suffixed(UVBaseName, a)) != GetFloat(m, Suffixed(UVBaseName, b));
      assert slots[a] == ReadSlot(m, a) && slots[b] == ReadSlot(m, b);
    }
  }

  /** Without the sentinel value on a height-mapped layer, the inspector's
      warning is the corrected one. */
  lemma ShowsLayerMappingWarningAsWrittenAgrees(m: Material)
    requires forall i :: 0 <= i < MaxLayerCount && HasTexture(m, Suffixed(HeightMapName, i)) ==>
               GetFloat(m, Suffixed(UVBaseName, i)) != -1.0
    ensures ShowsLayerMappingWarningAsWritten(m) == ShowsLayerMappingWarning(m)
  {
    var slots := ReadSlots(m);
    assert NoSentinel(slots) by {
      forall a | 0 <= a < |slots| && slots[a].hasHeightMap
        ensures slots[a].uvBase != -1.0
      {
        assert slots[a] == ReadSlot(m, a);
      }
    }
    ScanAsWrittenIsCorrected(slots, -1.0, None, true);
  }

  /** Layer 0 has a height map and the UV base value -1.0, layer 1 a height
      map and the value 2.0 (UV2; any value other than -1.0 serves):
      the inspector takes -1.0 for "not seen yet" and reports no mismatch,
      although the two layers disagree. */
  lemma SentinelHidesMismatch()
    ensures var slots := [Slot(true, -1.0), Slot(true, 2.0), Slot(false, 0.0), Slot(false, 0.0)];
      ScanAsWritten(slots, -1.0, true) && !ScanCorrected(slots, None, true)
  {
    var slots := [Slot(true, -1.0), Slot(true, 2.0), Slot(false, 0.0), Slot(false, 0.0)];
    assert slots[1..] == [Slot(true, 2.0), Slot(false, 0.0), Slot(false, 0.0)];
    assert slots[1..][1..] == [Slot(false, 0.0), Slot(false, 0.0)];
    assert slots[1..][1..][1..] == [Slot(false, 0.0)];
  }

  /** A material in pixel displacement mode whose first two layers have a
      height map, with `_UVBase0` = -1.0 and `_UVBase1` = 2.0. */
  function SentinelMaterial(): Material
  {
    var heightMap := TextureValue(Some(TexRef(1)), Vec2(0.0, 0.0), Vec2(1.0, 1.0));
    Material([], map[Suffixed(HeightMapName, 0) := heightMap, Suffixed(HeightMapName, 1) := heightMap,
                     Suffixed(UVBaseName, 0) := FloatValue(-1.0), Suffixed(UVBaseName, 1) := FloatValue(2.0),
                     DisplacementModeName := FloatValue(2.0)], {})
  }

  /** On that material the inspector shows no warning, though the corrected
      check does: the two height-mapped layers use different UV mappings. */
  lemma SentinelMaterialHidesMismatch()
    ensures !ShowsLayerMappingWarningAsWritten(SentinelMaterial())
    ensures ShowsLayerMappingWarning(SentinelMaterial())
    ensures HeightMappedLayersDisagree(SentinelMaterial())
  {
    var m := SentinelMaterial();
    assert ReadSlots(m) == [Slot(true, -1.0), Slot(true, 2.0), Slot(false, 0.0), Slot(false, 0.0)];
    SentinelHidesMismatch();
    ShowsLayerMappingWarningMeaning(m);
  }
}
