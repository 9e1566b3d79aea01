/** `SetupLayersMappingKeywords` of the terrain blend-paint inspector: the
    keywords selecting the layer count, per-layer planar/triplanar mapping and
    the extra UV sets the layers need. */
module LayerMapping {
  import opened Names
  import opened Keywords
  import opened Materials
  import opened Enums
  import opened LitNames

  /** `(int)material.GetFloat(kLayerCount)`. */
  function LayerCount(m: Material): int
  {
    GetInt(m, LayerCountName)
  }

  function LayerUVBase(m: Material, i: nat): UVBaseMapping
  {
    UVBaseOf(GetFloat(m, Suffixed(UVBaseName, i)))
  }

  function LayerUVDetail(m: Material, i: nat): UVDetailMapping
  {
    UVDetailOf(GetFloat(m, Suffixed(UVDetailName, i)))
  }

  /** Layer i maps its base or its detail with the third UV set. */
  predicate UsesUV2(m: Material, i: nat)
  {
    LayerUVDetail(m, i) == DetailUV2 || LayerUVBase(m, i) == BaseUV2
  }

  /** Layer i maps its base or its detail with the fourth UV set. */
  predicate UsesUV3(m: Material, i: nat)
  {
    LayerUVDetail(m, i) == DetailUV3 || LayerUVBase(m, i) == BaseUV3
  }

  /** The layer loop, started at layer i and bounded by n, reaches layer j:
      it stops right after the first layer that needs the fourth UV set. */
  ghost predicate ReachedFrom(m: Material, i: nat, n: int, j: nat)
  {
    i <= j < n && forall l :: i <= l < j ==> !UsesUV3(m, l)
  }

  predicate IsMappingKeyword(k: Keyword)
  {
    k.PerLayer? && (k.family == MappingPlanar || k.family == MappingTriplanar)
  }

  /** The base mapping that turns a mapping keyword family on. */
  function MappingFor(f: LayerFamily): UVBaseMapping
  {
    if f == MappingPlanar then Planar else Triplanar
  }

  /** State of the layer loop: keywords so far and the two flags. */
  datatype Scan = Scan(kw: set<Keyword>, needUV2: bool, needUV3: bool)

  /** The mapping keywords one iteration sets for layer i: planar and
      triplanar each on exactly when the base mapping selects it. */
  function MappingStep(kw: set<Keyword>, i: nat, base: UVBaseMapping): (r: set<Keyword>)
    ensures forall k :: k in r <==>
      if IsMappingKeyword(k) && k.layer == i then base == MappingFor(k.family) else k in kw
  {
    SetKeyword(SetKeyword(kw, PerLayer(MappingPlanar, i), base == Planar), PerLayer(MappingTriplanar, i), base == Triplanar)
  }

  /** The layer loop from layer i on, with `break` at the first layer needing
      the fourth UV set: the flags say whether some layer up to n needs the
      fourth set and, when none does, whether some layer needs the third. */
  function ScanLayers(m: Material, kw: set<Keyword>, i: nat, n: int, needUV2: bool): (r: Scan)
    decreases n - i
    ensures r.needUV3 <==> exists j :: i <= j < n && UsesUV3(m, j)
    ensures !r.needUV3 ==> (r.needUV2 <==> needUV2 || exists j :: i <= j < n && UsesUV2(m, j))
    ensures forall k: Keyword :: !k.PerLayer? ==> (k in r.kw <==> k in kw)
  {
    if n <= i then Scan(kw, needUV2, false)
    else
      var kw1 := MappingStep(kw, i, LayerUVBase(m, i));
      var uv2 := needUV2 || UsesUV2(m, i);
      if UsesUV3(m, i) then Scan(kw1, uv2, true)
      else ScanLayers(m, kw1, i + 1, n, uv2)
  }

  /** Past a layer that does not need the fourth UV set, the loop reaches
      the same later layers from the next one. */
  lemma ReachedFromNext(m: Material, i: nat, n: int, j: nat)
    requires i < j && !UsesUV3(m, i)
    ensures ReachedFrom(m, i, n, j) <==> ReachedFrom(m, i + 1, n, j)
  {
  }

  /** The keywords after the layer loop: the mapping keyword of a layer the
      loop reaches is on exactly when the layer's base mapping selects it, and
      every other keyword keeps its state. */
  lemma {:induction false} ScanLayersKeyword(m: Material, kw: set<Keyword>, i: nat, n: int, needUV2: bool, k: Keyword)
    decreases n - i
    ensures k in ScanLayers(m, kw, i, n, needUV2).kw <==>
      if IsMappingKeyword(k) && ReachedFrom(m, i, n, k.layer) then LayerUVBase(m, k.layer) == MappingFor(k.family)
      else k in kw
  {
    if i < n {
      var kw1 := MappingStep(kw, i, LayerUVBase(m, i));
      var uv2 := needUV2 || UsesUV2(m, i);
      if !UsesUV3(m, i) {
        ScanLayersKeyword(m, kw1, i + 1, n, uv2, k);
        if IsMappingKeyword(k) && i < k.layer {
          ReachedFromNext(m, i, n, k.layer);
        }
      } else if IsMappingKeyword(k) && i < k.layer {
        assert !ReachedFrom(m, i, n, k.layer);
      }
    }
  }

  /** The layer-count keywords: at most one is on, and only for three or four layers. */
  ghost predicate LayerCountKeywords(m: Material, r: set<Keyword>)
  {
    && (Global(LayeredLit4Layers) in r <==> LayerCount(m) == 4)
    && (Global(LayeredLit3Layers) in r <==> LayerCount(m) == 3)
  }

  /** The UV-set keywords: the fourth set wins over the third, and neither is
      on when no layer below the layer count asks for it. */
  ghost predicate UVSetKeywords(m: Material, r: set<Keyword>)
  {
    var n := LayerCount(m);
    && (Global(RequireUV3) in r <==> exists j :: 0 <= j < n && UsesUV3(m, j))
    && (Global(RequireUV2) in r <==> (forall j :: 0 <= j < n ==> !UsesUV3(m, j)) && exists j :: 0 <= j < n && UsesUV2(m, j))
    && !(Global(RequireUV2) in r && Global(RequireUV3) in r)
  }

  /** The per-layer mapping keywords: a layer the loop reaches gets planar or
      triplanar exactly as its base mapping says (never both); every other
      layer keeps the keywords it had in `before`. */
  ghost predicate LayerMappingKeywords(m: Material, before: set<Keyword>, r: set<Keyword>)
  {
    var n := LayerCount(m);
    && (forall j: nat :: PerLayer(MappingPlanar, j) in r <==>
          if ReachedFrom(m, 0, n, j) then LayerUVBase(m, j) == Planar else PerLayer(MappingPlanar, j) in before)
    && (forall j: nat :: PerLayer(MappingTriplanar, j) in r <==>
          if ReachedFrom(m, 0, n, j) then LayerUVBase(m, j) == Triplanar else PerLayer(MappingTriplanar, j) in before)
    && (forall j: nat :: ReachedFrom(m, 0, n, j) ==> !(PerLayer(MappingPlanar, j) in r && PerLayer(MappingTriplanar, j) in r))
  }

  /** The global keywords `SetupLayersMappingKeywords` sets. */
  const MappingGlobals: set<GlobalKeyword> :=
    {TilingCoupledWithObjectScale, MappingPlanarBlendMask, MappingTriplanarBlendMask,
     LayeredLit4Layers, LayeredLit3Layers, RequireUV2, RequireUV3}

  /** Keywords this function may change. */
  predicate SetByMapping(k: Keyword)
  {
    || (k.Global? && k.g in MappingGlobals)
    || IsMappingKeyword(k)
  }

  /** The layer-count branch: four and three layers each get their own keyword. */
  function LayerCountStep(kw: set<Keyword>, n: int): (r: set<Keyword>)
    ensures Global(LayeredLit4Layers) in r <==> n == 4
    ensures Global(LayeredLit3Layers) in r <==> n == 3
    ensures forall k :: k != Global(LayeredLit4Layers) && k != Global(LayeredLit3Layers) ==> (k in r <==> k in kw)
  {
    if n == 4 then SetKeyword(SetKeyword(kw, Global(LayeredLit4Layers), true), Global(LayeredLit3Layers), false)
    else if n == 3 then SetKeyword(SetKeyword(kw, Global(LayeredLit4Layers), false), Global(LayeredLit3Layers), true)
    else SetKeyword(SetKeyword(kw, Global(LayeredLit4Layers), false), Global(LayeredLit3Layers), false)
  }

  /** The UV-set branch after the loop: the fourth set wins over the third. */
  function UVSetStep(kw: set<Keyword>, needUV2: bool, needUV3: bool): (r: set<Keyword>)
    ensures Global(RequireUV3) in r <==> needUV3
    ensures Global(RequireUV2) in r <==> !needUV3 && needUV2
    ensures forall k :: k != Global(RequireUV2) && k != Global(RequireUV3) ==> (k in r <==> k in kw)
  {
    if needUV3 then SetKeyword(SetKeyword(kw, Global(RequireUV2), false), Global(RequireUV3), true)
    else if needUV2 then SetKeyword(SetKeyword(kw, Global(RequireUV2), true), Global(RequireUV3), false)
    else SetKeyword(SetKeyword(kw, Global(RequireUV2), false), Global(RequireUV3), false)
  }

  /** The unconditional keywords set before the layer count is read. */
  function ObjectScaleStep(m: Material): (r: set<Keyword>)
    ensures Global(TilingCoupledWithObjectScale) in r <==> GetFloat(m, ObjectScaleAffectTileName) > 0.0
    ensures Global(MappingPlanarBlendMask) !in r && Global(MappingTriplanarBlendMask) !in r
    ensures forall k :: k != Global(TilingCoupledWithObjectScale) && k != Global(MappingPlanarBlendMask) && k != Global(MappingTriplanarBlendMask)
              ==> (k in r <==> k in m.keywords)
  {
    var kw1 := SetKeyword(m.keywords, Global(TilingCoupledWithObjectScale), GetFloat(m, ObjectScaleAffectTileName) > 0.0);
    SetKeyword(SetKeyword(kw1, Global(MappingPlanarBlendMask), false), Global(MappingTriplanarBlendMask), false)
  }

  /** `SetupLayersMappingKeywords`: the material's keyword set afterwards. */
  function SetupLayersMappingKeywords(m: Material): (r: set<Keyword>)
    ensures Global(TilingCoupledWithObjectScale) in r <==> GetFloat(m, ObjectScaleAffectTileName) > 0.0
    ensures Global(MappingPlanarBlendMask) !in r && Global(MappingTriplanarBlendMask) !in r
    ensures LayerCountKeywords(m, r)
    ensures UVSetKeywords(m, r)
  {
    var n := LayerCount(m);
    var kw3 := LayerCountStep(ObjectScaleStep(m), n);
    var s := ScanLayers(m, kw3, 0, n, false);
    UVSetStep(s.kw, s.needUV2, s.needUV3)
  }

  /** One keyword after `SetupLayersMappingKeywords`: a per-layer mapping
      keyword follows its layer's base mapping when the loop reaches the
      layer, and a keyword the function does not set keeps its state. */
  lemma SetupLayersMappingKeyword(m: Material, k: Keyword)
    requires IsMappingKeyword(k) || !SetByMapping(k)
    ensures k in SetupLayersMappingKeywords(m) <==>
      if IsMappingKeyword(k) && ReachedFrom(m, 0, LayerCount(m), k.layer)
      then LayerUVBase(m, k.layer) == MappingFor(k.family)
      else k in m.keywords
  {
    var n := LayerCount(m);
    var kw3 := LayerCountStep(ObjectScaleStep(m), n);
    var s := ScanLayers(m, kw3, 0, n, false);
    ScanLayersKeyword(m, kw3, 0, n, false, k);
    assert SetupLayersMappingKeywords(m) == UVSetStep(s.kw, s.needUV2, s.needUV3);
  }

  /** The per-layer mapping keywords of `SetupLayersMappingKeywords`. */
  lemma SetupLayersMappingKeywordsLayers(m: Material)
    ensures LayerMappingKeywords(m, m.keywords, SetupLayersMappingKeywords(m))
  {
    forall j: nat
      ensures PerLayer(MappingPlanar, j) in SetupLayersMappingKeywords(m) <==>
        if ReachedFrom(m, 0, LayerCount(m), j) then LayerUVBase(m, j) == Planar else PerLayer(MappingPlanar, j) in m.keywords
      ensures PerLayer(MappingTriplanar, j) in SetupLayersMappingKeywords(m) <==>
        if ReachedFrom(m, 0, LayerCount(m), j) then LayerUVBase(m, j) == Triplanar else PerLayer(MappingTriplanar, j) in m.keywords
    {
      SetupLayersMappingKeyword(m, PerLayer(MappingPlanar, j));
      SetupLayersMappingKeyword(m, PerLayer(MappingTriplanar, j));
    }
  }

  /** Every keyword `SetupLayersMappingKeywords` does not set keeps its previous state. */
  lemma SetupLayersMappingKeywordsFrame(m: Material)
    ensures forall k :: !SetByMapping(k) ==> (k in SetupLayersMappingKeywords(m) <==> k in m.keywords)
  {
    forall k | !SetByMapping(k) {
      SetupLayersMappingKeyword(m, k);
    }
  }

  /** Read by shader keyword name, from a keyword set in canonical form: the
      result is canonical, each keyword the inspector sets is on by name exactly
      when its keyword value is in the result (so `_REQUIRE_UV2`, say, is on
      exactly as `UVSetKeywords` states), and every shader keyword the inspector
      does not set keeps its state. */
  lemma SetupLayersMappingKeywordsNames(m: Material)
    requires Canonical(m.keywords)
    ensures Canonical(SetupLayersMappingKeywords(m))
    ensures forall k: Keyword :: !k.Other? ==> (NameOn(SetupLayersMappingKeywords(m), Name(k)) <==> k in SetupLayersMappingKeywords(m))
    ensures forall n :: !InspectorName(n) ==> (NameOn(SetupLayersMappingKeywords(m), n) <==> NameOn(m.keywords, n))
  {
    SetupLayersMappingKeywordsFrame(m);
    forall n
      ensures Other(n) in SetupLayersMappingKeywords(m) <==> Other(n) in m.keywords
    {
      assert !SetByMapping(Other(n));
    }
    OtherKeptNames(m.keywords, SetupLayersMappingKeywords(m));
  }
}
