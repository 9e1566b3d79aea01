/** Shader keywords toggled by the terrain layered-material inspector.
    A keyword is a global family, a per-layer family with its layer index, or
    a keyword this inspector never toggles (those of the base Lit setup, for
    one); `Name` gives the string the shader compiler sees. */
module Keywords {
  import opened Names

  /** Keywords that exist once per material. */
  datatype GlobalKeyword =
    | TilingCoupledWithObjectScale
    | MappingPlanarBlendMask
    | MappingTriplanarBlendMask
    | LayeredLit4Layers
    | LayeredLit3Layers
    | RequireUV2
    | RequireUV3
    | EmissiveMappingPlanar
    | EmissiveMappingTriplanar
    | EmissiveColorMap
    | EnableSpecularOcclusion
    | LayerMaskVertexColorMul
    | LayerMaskVertexColorAdd
    | DensityMode
    | FeatureSubsurfaceScattering
    | FeatureTransmission

  /** Keywords that exist once per layer, spelled with the layer index appended. */
  datatype LayerFamily =
    | MappingPlanar
    | MappingTriplanar
    | NormalMapTangentSpace
    | NormalMap
    | BentNormalMap
    | MaskMap
    | DetailMap
    | HeightMap
    | SubsurfaceMaskMap
    | ThicknessMap

  datatype Keyword =
    | Global(g: GlobalKeyword)
    | PerLayer(family: LayerFamily, layer: nat)
    | Other(name: string)

  function GlobalName(g: GlobalKeyword): string
  {
    match g
    case TilingCoupledWithObjectScale => "_LAYER_TILING_COUPLED_WITH_UNIFORM_OBJECT_SCALE"
    case MappingPlanarBlendMask => "_LAYER_MAPPING_PLANAR_BLENDMASK"
    case MappingTriplanarBlendMask => "_LAYER_MAPPING_TRIPLANAR_BLENDMASK"
    case LayeredLit4Layers => "_LAYEREDLIT_4_LAYERS"
    case LayeredLit3Layers => "_LAYEREDLIT_3_LAYERS"
    case RequireUV2 => "_REQUIRE_UV2"
    case RequireUV3 => "_REQUIRE_UV3"
    case EmissiveMappingPlanar => "_EMISSIVE_MAPPING_PLANAR"
    case EmissiveMappingTriplanar => "_EMISSIVE_MAPPING_TRIPLANAR"
    case EmissiveColorMap => "_EMISSIVE_COLOR_MAP"
    case EnableSpecularOcclusion => "_ENABLESPECULAROCCLUSION"
    case LayerMaskVertexColorMul => "_LAYER_MASK_VERTEX_COLOR_MUL"
    case LayerMaskVertexColorAdd => "_LAYER_MASK_VERTEX_COLOR_ADD"
    case DensityMode => "_DENSITY_MODE"
    case FeatureSubsurfaceScattering => "_MATERIAL_FEATURE_SUBSURFACE_SCATTERING"
    case FeatureTransmission => "_MATERIAL_FEATURE_TRANSMISSION"
  }

  /** The spelling of a per-layer family before the layer index. */
  function FamilyPrefix(f: LayerFamily): string
  {
    match f
    case MappingPlanar => "_LAYER_MAPPING_PLANAR"
    case MappingTriplanar => "_LAYER_MAPPING_TRIPLANAR"
    case NormalMapTangentSpace => "_NORMALMAP_TANGENT_SPACE"
    case NormalMap => "_NORMALMAP"
    case BentNormalMap => "_BENTNORMALMAP"
    case MaskMap => "_MASKMAP"
    case DetailMap => "_DETAIL_MAP"
    case HeightMap => "_HEIGHTMAP"
    case SubsurfaceMaskMap => "_SUBSURFACE_MASK_MAP"
    case ThicknessMap => "_THICKNESSMAP"
  }

  /** The keyword's spelling in the shader. */
  function Name(k: Keyword): string
  {
    match k
    case Global(g) => GlobalName(g)
    case PerLayer(f, i) => Suffixed(FamilyPrefix(f), i)
    case Other(name) => name
  }

  /** The second character of a family's spelling, just after the underscore. */
  function Initial(f: LayerFamily): char
  {
    match f
    case MappingPlanar => 'L'
    case MappingTriplanar => 'L'
    case NormalMapTangentSpace => 'N'
    case NormalMap => 'N'
    case BentNormalMap => 'B'
    case MaskMap => 'M'
    case DetailMap => 'D'
    case HeightMap => 'H'
    case SubsurfaceMaskMap => 'S'
    case ThicknessMap => 'T'
  }

  lemma PrefixInitial(f: LayerFamily)
    ensures 1 < |FamilyPrefix(f)| && FamilyPrefix(f)[1] == Initial(f)
  {
  }

  /** Every global keyword but the two `_REQUIRE_UV` ones ends in a letter. */
  lemma GlobalNameEnd(g: GlobalKeyword)
    ensures var n := GlobalName(g); 1 < |n| && (g == RequireUV2 || g == RequireUV3 || !IsDigit(n[|n| - 1]))
  {
  }

  // Global keywords have distinct spellings, checked a group at a time.

  lemma ObjectScaleNamesDistinct(a: GlobalKeyword, b: GlobalKeyword)
    requires a == TilingCoupledWithObjectScale || a == MappingPlanarBlendMask || a == MappingTriplanarBlendMask
    ensures GlobalName(a) == GlobalName(b) ==> a == b
  {
  }

  lemma LayerSetNamesDistinct(a: GlobalKeyword, b: GlobalKeyword)
    requires a == LayeredLit4Layers || a == LayeredLit3Layers || a == RequireUV2 || a == RequireUV3
    ensures GlobalName(a) == GlobalName(b) ==> a == b
  {
  }

  lemma EmissiveNamesDistinct(a: GlobalKeyword, b: GlobalKeyword)
    requires a == EmissiveMappingPlanar || a == EmissiveMappingTriplanar || a == EmissiveColorMap || a == EnableSpecularOcclusion
    ensures GlobalName(a) == GlobalName(b) ==> a == b
  {
  }

  lemma SurfaceNamesDistinct(a: GlobalKeyword, b: GlobalKeyword)
    requires a == LayerMaskVertexColorMul || a == LayerMaskVertexColorAdd || a == DensityMode
          || a == FeatureSubsurfaceScattering || a == FeatureTransmission
    ensures GlobalName(a) == GlobalName(b) ==> a == b
  {
  }

  /** Global keywords have distinct spellings. */
  lemma GlobalNameInjective(a: GlobalKeyword, b: GlobalKeyword)
    ensures GlobalName(a) == GlobalName(b) ==> a == b
  {
    match a
    case TilingCoupledWithObjectScale | MappingPlanarBlendMask | MappingTriplanarBlendMask =>
      ObjectScaleNamesDistinct(a, b);
    case LayeredLit4Layers | LayeredLit3Layers | RequireUV2 | RequireUV3 =>
      LayerSetNamesDistinct(a, b);
    case EmissiveMappingPlanar | EmissiveMappingTriplanar | EmissiveColorMap | EnableSpecularOcclusion =>
      EmissiveNamesDistinct(a, b);
    case _ =>
      SurfaceNamesDistinct(a, b);
  }

  /** No global keyword is spelled like a per-layer one. */
  lemma GlobalNotPerLayer(g: GlobalKeyword, f: LayerFamily, i: nat)
    ensures GlobalName(g) != Suffixed(FamilyPrefix(f), i)
  {
    var p := FamilyPrefix(f);
    if g == RequireUV2 || g == RequireUV3 {
      PrefixInitial(f);
      SuffixedAt(p, i, 1);
      assert GlobalName(g)[1] == 'R';
    } else {
      GlobalNameEnd(g);
      SuffixedEndsInDigit(p, i);
    }
  }

  /** Per-layer keywords are spelled alike only for the same family and layer:
      the families differ early in their spelling, except that `_NORMALMAP` is
      followed by a digit where `_NORMALMAP_TANGENT_SPACE` continues with `_`. */
  lemma PerLayerNameInjective(f1: LayerFamily, i: nat, f2: LayerFamily, j: nat)
    ensures Suffixed(FamilyPrefix(f1), i) == Suffixed(FamilyPrefix(f2), j) ==> f1 == f2 && i == j
  {
    var a, b := FamilyPrefix(f1), FamilyPrefix(f2);
    if f1 == f2 {
      if Suffixed(a, i) == Suffixed(b, j) {
        SuffixedInjective(a, i, j);
      }
    } else {
      PrefixInitial(f1);
      PrefixInitial(f2);
      SuffixedAt(a, i, 1);
      SuffixedAt(b, j, 1);
      if Initial(f1) == Initial(f2) {
        if Initial(f1) == 'L' {
          assert FamilyPrefix(MappingPlanar)[15] != FamilyPrefix(MappingTriplanar)[15];
          SuffixedAt(a, i, 15);
          SuffixedAt(b, j, 15);
        } else {
          assert |FamilyPrefix(NormalMap)| == 10 && FamilyPrefix(NormalMapTangentSpace)[10] == '_';
          if f1 == NormalMap {
            SuffixedDigitAfter(a, i);
            SuffixedAt(b, j, 10);
          } else {
            SuffixedDigitAfter(b, j);
            SuffixedAt(a, i, 10);
          }
        }
      }
    }
  }

  /** The inspector's own keywords name distinct shader keywords. */
  lemma NameInjective(a: Keyword, b: Keyword)
    requires !a.Other? && !b.Other?
    ensures Name(a) == Name(b) <==> a == b
  {
    match (a, b)
    case (Global(g1), Global(g2)) => GlobalNameInjective(g1, g2);
    case (Global(g), PerLayer(f, i)) => GlobalNotPerLayer(g, f, i);
    case (PerLayer(f, i), Global(g)) => GlobalNotPerLayer(g, f, i);
    case (PerLayer(f1, i), PerLayer(f2, j)) => PerLayerNameInjective(f1, i, f2, j);
  }

  /** A shader keyword name the inspector sets through `Global` or `PerLayer`. */
  ghost predicate InspectorName(n: string)
  {
    (exists g :: GlobalName(g) == n) || (exists f, i :: Suffixed(FamilyPrefix(f), i) == n)
  }

  /** A keyword set in canonical form: a keyword the inspector sets is held as
      its `Global` or `PerLayer` value, never as an `Other` of the same spelling. */
  ghost predicate Canonical(kw: set<Keyword>)
  {
    forall k :: k in kw && k.Other? ==> !InspectorName(k.name)
  }

  /** The shader keyword spelled n is enabled. */
  ghost predicate NameOn(kw: set<Keyword>, n: string)
  {
    exists k :: k in kw && Name(k) == n
  }

  /** In a canonical set, the shader keyword of an inspector keyword is on
      exactly when that keyword is in the set... */
  lemma NameOnCanonical(kw: set<Keyword>, k: Keyword)
    requires Canonical(kw) && !k.Other?
    ensures NameOn(kw, Name(k)) <==> k in kw
  {
    if NameOn(kw, Name(k)) {
      var k' :| k' in kw && Name(k') == Name(k);
      if !k'.Other? {
        NameInjective(k', k);
      }
    }
  }

  /** ...and any other shader keyword is on exactly when it is held as `Other`. */
  lemma NameOnOther(kw: set<Keyword>, n: string)
    requires Canonical(kw) && !InspectorName(n)
    ensures NameOn(kw, n) <==> Other(n) in kw
  {
    if NameOn(kw, n) {
      var k :| k in kw && Name(k) == n;
    }
  }

  /** An update that keeps the `Other` keywords of a canonical set gives a
      canonical set, in which the inspector's keywords are read by their names
      and every other shader keyword keeps its state. */
  lemma OtherKeptNames(kw: set<Keyword>, r: set<Keyword>)
    requires Canonical(kw)
    requires forall n :: Other(n) in r <==> Other(n) in kw
    ensures Canonical(r)
    ensures forall k: Keyword :: !k.Other? ==> (NameOn(r, Name(k)) <==> k in r)
    ensures forall n :: !InspectorName(n) ==> (NameOn(r, n) <==> NameOn(kw, n))
  {
    assert Canonical(r) by {
      forall k | k in r && k.Other?
        ensures !InspectorName(k.name)
      {
        assert Other(k.name) in kw;
      }
    }
    forall k: Keyword | !k.Other?
      ensures NameOn(r, Name(k)) <==> k in r
    {
      NameOnCanonical(r, k);
    }
    forall n | !InspectorName(n)
      ensures NameOn(r, n) <==> NameOn(kw, n)
    {
      NameOnOther(r, n);
      NameOnOther(kw, n);
    }
  }

  /** `CoreUtils.SetKeyword`, `Material.EnableKeyword` and `DisableKeyword`:
      the keyword is present afterwards exactly when `on`, and no other keyword moves. */
  function SetKeyword(kw: set<Keyword>, k: Keyword, on: bool): (r: set<Keyword>)
    ensures k in r <==> on
    ensures forall k' :: k' != k ==> (k' in r <==> k' in kw)
    ensures Canonical(kw) && !k.Other? ==> Canonical(r)
  {
    if on then kw + {k} else kw - {k}
  }

  /** A run of `SetKeyword` calls, one for each keyword of `owned`, where
      keyword k is set to `on(k)`; the calls touch distinct keywords, so
      their order does not matter. */
  function SetKeywords(kw: set<Keyword>, owned: set<Keyword>, on: Keyword -> bool): (r: set<Keyword>)
    ensures forall k :: k in r <==> if k in owned then on(k) else k in kw
    ensures Canonical(kw) && (forall k :: k in owned ==> !k.Other?) ==> Canonical(r)
  {
    (kw - owned) + (set k | k in owned && on(k))
  }

  /** One `SetKeyword(k, on)` call. */
  datatype KeywordCall = KeywordCall(k: Keyword, on: bool)

  /** `SetKeyword` calls issued in order. */
  function ApplyCalls(kw: set<Keyword>, calls: seq<KeywordCall>): set<Keyword>
    decreases |calls|
  {
    if |calls| == 0 then kw else ApplyCalls(SetKeyword(kw, calls[0].k, calls[0].on), calls[1..])
  }

  /** A keyword no call names keeps its state. */
  lemma {:induction false} ApplyCallsUntouched(kw: set<Keyword>, calls: seq<KeywordCall>, k: Keyword)
    decreases |calls|
    requires forall j :: 0 <= j < |calls| ==> calls[j].k != k
    ensures k in ApplyCalls(kw, calls) <==> k in kw
  {
    if |calls| > 0 {
      ApplyCallsUntouched(SetKeyword(kw, calls[0].k, calls[0].on), calls[1..], k);
    }
  }

  /** A keyword exactly one call names ends in the state that call gives it. */
  lemma {:induction false} ApplyCallsOnce(kw: set<Keyword>, calls: seq<KeywordCall>, j: nat, k: Keyword)
    decreases |calls|
    requires j < |calls| && calls[j].k == k
    requires forall l :: 0 <= l < |calls| && l != j ==> calls[l].k != k
    ensures k in ApplyCalls(kw, calls) <==> calls[j].on
  {
    var kw1 := SetKeyword(kw, calls[0].k, calls[0].on);
    if j == 0 {
      ApplyCallsUntouched(kw1, calls[1..], k);
    } else {
      ApplyCallsOnce(kw1, calls[1..], j - 1, k);
    }
  }

  /** The calls name each keyword of `owned` once, set it to `on(k)`, and name
      no other keyword. */
  ghost predicate CallsFor(calls: seq<KeywordCall>, owned: set<Keyword>, on: Keyword -> bool)
  {
    CallsWithin(calls, owned, on) && CallsDistinct(calls) && CallsCover(calls, owned)
  }

  /** Every call names an owned keyword and sets it to the state `on` gives it. */
  ghost predicate CallsWithin(calls: seq<KeywordCall>, owned: set<Keyword>, on: Keyword -> bool)
  {
    forall j :: 0 <= j < |calls| ==> calls[j].k in owned && calls[j].on == on(calls[j].k)
  }

  /** No keyword is named by two calls. */
  ghost predicate CallsDistinct(calls: seq<KeywordCall>)
  {
    forall j, l :: 0 <= j < l < |calls| ==> calls[j].k != calls[l].k
  }

  /** Every owned keyword is named by some call. */
  ghost predicate CallsCover(calls: seq<KeywordCall>, owned: set<Keyword>)
  {
    forall k :: k in owned ==> exists j :: 0 <= j < |calls| && calls[j].k == k
  }

  /** Calls on distinct keywords, in any order, give the same set as updating
      those keywords at once. */
  lemma CallsAgree(kw: set<Keyword>, calls: seq<KeywordCall>, owned: set<Keyword>, on: Keyword -> bool, r: set<Keyword>)
    requires CallsFor(calls, owned, on)
    requires forall k :: k in r <==> if k in owned then on(k) else k in kw
    ensures r == ApplyCalls(kw, calls)
  {
    forall k
      ensures k in r <==> k in ApplyCalls(kw, calls)
    {
      if k in owned {
        var j :| 0 <= j < |calls| && calls[j].k == k;
        ApplyCallsOnce(kw, calls, j, k);
      } else {
        ApplyCallsUntouched(kw, calls, k);
      }
    }
  }
}
