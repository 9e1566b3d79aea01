/** The keyword part of `SetupMaterialKeywordsAndPass` of the terrain
    blend-paint inspector: the mapping keywords, then per-layer texture
    keywords for every layer slot, then emissive, density and material-feature
    keywords. The base Lit keyword and pass setup that runs first is not part
    of this model: the input keyword set is the one it leaves. */
module MaterialKeywords {
  import opened Names
  import opened Keywords
  import opened Materials
  import opened Enums
  import opened LitNames
  import opened LayerMapping

  function LayerNormalSpace(m: Material, i: nat): NormalMapSpace
  {
    NormalMapSpaceOf(GetFloat(m, Suffixed(NormalMapSpaceName, i)))
  }

  /** Layer i has a texture bound under the per-layer property `name + i`. */
  predicate LayerHas(m: Material, name: string, i: nat)
  {
    HasTexture(m, Suffixed(name, i))
  }

  /** What the per-layer loop reads for one layer slot. */
  datatype LayerTextures = LayerTextures(
    tangentSpace: bool, normalMap: bool, normalMapOS: bool, bentNormalMap: bool, bentNormalMapOS: bool,
    maskMap: bool, detailMap: bool, heightMap: bool, subsurfaceMaskMap: bool, thicknessMap: bool)

  function ReadLayerTextures(m: Material, i: nat): LayerTextures
  {
    LayerTextures(
      LayerNormalSpace(m, i) == TangentSpace,
      LayerHas(m, NormalMapName, i), LayerHas(m, NormalMapOSName, i),
      LayerHas(m, BentNormalMapName, i), LayerHas(m, BentNormalMapOSName, i),
      LayerHas(m, MaskMapName, i), LayerHas(m, DetailMapName, i), LayerHas(m, HeightMapName, i),
      LayerHas(m, SubsurfaceMaskMapName, i), LayerHas(m, ThicknessMapName, i))
  }

  predicate IsTextureFamily(f: LayerFamily)
  {
    f != MappingPlanar && f != MappingTriplanar
  }

  /** The texture keywords of layer slot i. */
  function TextureKeywordsOf(i: nat): (r: set<Keyword>)
    ensures forall k :: k in r <==> k.PerLayer? && k.layer == i && IsTextureFamily(k.family)
  {
    {PerLayer(NormalMapTangentSpace, i), PerLayer(NormalMap, i), PerLayer(BentNormalMap, i), PerLayer(MaskMap, i),
     PerLayer(DetailMap, i), PerLayer(HeightMap, i), PerLayer(SubsurfaceMaskMap, i), PerLayer(ThicknessMap, i)}
  }

  /** The state one iteration gives a texture keyword family of its layer:
      tangent space selects which normal and bent-normal maps count, and a
      detail map alone also turns the normal-map keyword on. */
  predicate TextureOn(t: LayerTextures, f: LayerFamily)
  {
    match f
    case NormalMapTangentSpace => t.tangentSpace
    case NormalMap => (if t.tangentSpace then t.normalMap else t.normalMapOS) || t.detailMap
    case BentNormalMap => if t.tangentSpace then t.bentNormalMap else t.bentNormalMapOS
    case MaskMap => t.maskMap
    case DetailMap => t.detailMap
    case HeightMap => t.heightMap
    case SubsurfaceMaskMap => t.subsurfaceMaskMap
    case ThicknessMap => t.thicknessMap
    case _ => false
  }

  /** One iteration of the per-layer loop: the texture keywords of layer i
      take the state the layer's textures give them, and no other keyword moves. */
  function LayerTextureStep(t: LayerTextures, kw: set<Keyword>, i: nat): (r: set<Keyword>)
    ensures forall k :: k in r <==>
      if k.PerLayer? && k.layer == i && IsTextureFamily(k.family) then TextureOn(t, k.family) else k in kw
  {
    SetKeywords(kw, TextureKeywordsOf(i), (k: Keyword) => k.PerLayer? && TextureOn(t, k.family))
  }

  /** One iteration as the source issues it: eight `SetKeyword` calls in order,
      the normal and bent-normal ones reading the maps of the layer's normal-map space. */
  function LayerTextureCalls(t: LayerTextures, i: nat): (calls: seq<KeywordCall>)
    ensures |calls| == 8
  {
    [ KeywordCall(PerLayer(NormalMapTangentSpace, i), t.tangentSpace),
      KeywordCall(PerLayer(NormalMap, i), if t.tangentSpace then t.normalMap || t.detailMap else t.normalMapOS || t.detailMap),
      KeywordCall(PerLayer(BentNormalMap, i), if t.tangentSpace then t.bentNormalMap else t.bentNormalMapOS),
      KeywordCall(PerLayer(MaskMap, i), t.maskMap),
      KeywordCall(PerLayer(DetailMap, i), t.detailMap),
      KeywordCall(PerLayer(HeightMap, i), t.heightMap),
      KeywordCall(PerLayer(SubsurfaceMaskMap, i), t.subsurfaceMaskMap),
      KeywordCall(PerLayer(ThicknessMap, i), t.thicknessMap) ]
  }

  /** The texture families in the order the iteration sets them. */
  const LayerTextureFamilies: seq<LayerFamily> :=
    [NormalMapTangentSpace, NormalMap, BentNormalMap, MaskMap, DetailMap, HeightMap, SubsurfaceMaskMap, ThicknessMap]

  /** Where the call for a texture family sits in the iteration. */
  function TextureCallIndex(f: LayerFamily): nat
  {
    match f
    case NormalMapTangentSpace => 0
    case NormalMap => 1
    case BentNormalMap => 2
    case MaskMap => 3
    case DetailMap => 4
    case HeightMap => 5
    case SubsurfaceMaskMap => 6
    case ThicknessMap => 7
    case _ => 8
  }

  /** What the per-layer loop reads, for each of the layer slots in order. */
  function ReadAllLayerTextures(m: Material): (ts: seq<LayerTextures>)
    ensures |ts| == MaxLayerCount
    ensures forall i :: 0 <= i < |ts| ==> ts[i] == ReadLayerTextures(m, i)
  {
    seq(MaxLayerCount, (i: int) requires 0 <= i => ReadLayerTextures(m, i))
  }

  /** The per-layer loop from layer slot i to the last slot (it runs over all
      slots, whatever the layer count); ts holds what it reads per slot. */
  function TextureKeywordsFrom(ts: seq<LayerTextures>, kw: set<Keyword>, i: nat): set<Keyword>
    decreases |ts| - i
  {
    if |ts| <= i then kw
    else TextureKeywordsFrom(ts, LayerTextureStep(ts[i], kw, i), i + 1)
  }

  /** A texture keyword of a slot the loop visits. */
  predicate IsSlotTextureKeyword(k: Keyword, i: nat)
  {
    k.PerLayer? && IsTextureFamily(k.family) && i <= k.layer < MaxLayerCount
  }

  /** After the loop from slot i, a texture keyword of a visited slot has the
      state its layer's textures give it, and every other keyword is as before. */
  lemma {:induction false} TextureKeywordsFromMember(ts: seq<LayerTextures>, kw: set<Keyword>, i: nat, k: Keyword)
    decreases |ts| - i
    ensures k in TextureKeywordsFrom(ts, kw, i) <==>
      if k.PerLayer? && IsTextureFamily(k.family) && i <= k.layer < |ts| then TextureOn(ts[k.layer], k.family)
      else k in kw
  {
    if i < |ts| {
      var kw1 := LayerTextureStep(ts[i], kw, i);
      TextureKeywordsFromMember(ts, kw1, i + 1, k);
    }
  }

  /** The density loop: some layer below n, from i on, uses its opacity as density. */
  function AnyOpacityAsDensity(m: Material, i: nat, n: int, acc: bool): (r: bool)
    decreases n - i
    ensures r <==> acc || exists j :: i <= j < n && GetFloat(m, Suffixed(OpacityAsDensityName, j)) != 0.0
  {
    if n <= i then acc
    else AnyOpacityAsDensity(m, i + 1, n, acc || GetFloat(m, Suffixed(OpacityAsDensityName, i)) != 0.0)
  }

  /** The global keywords set after the per-layer loop. */
  const SurfaceGlobals: set<GlobalKeyword> :=
    {EmissiveMappingPlanar, EmissiveMappingTriplanar, EmissiveColorMap, EnableSpecularOcclusion,
     LayerMaskVertexColorMul, LayerMaskVertexColorAdd, DensityMode,
     FeatureSubsurfaceScattering, FeatureTransmission}

  /** What the statements after the per-layer loop read from the material. */
  datatype SurfaceInputs = SurfaceInputs(
    emissiveMapping: UVBaseMapping, emissiveColorMap: bool, specularOcclusion: bool,
    anyOpacityAsDensity: bool, materialId: MaterialId, transmissionEnable: bool)

  function ReadSurfaceInputs(m: Material): SurfaceInputs
  {
    SurfaceInputs(
      UVBaseOf(GetFloat(m, UVEmissiveName)),
      HasTexture(m, EmissiveColorMapName),
      GetFloat(m, EnableSpecularOcclusionName) > 0.0,
      AnyOpacityAsDensity(m, 0, GetInt(m, LayerCountName), false),
      MaterialIdOf(GetFloat(m, MaterialIdName)),
      GetFloat(m, TransmissionEnableName) > 0.0)
  }

  /** The state the statements after the loop give their keywords: emissive
      mapping only with an emissive color map, vertex-color masking always
      off, subsurface scattering for the SSS material and transmission for the
      translucent one or for SSS with transmission enabled. */
  predicate SurfaceOn(s: SurfaceInputs, g: GlobalKeyword)
  {
    match g
    case EmissiveMappingPlanar => s.emissiveMapping == Planar && s.emissiveColorMap
    case EmissiveMappingTriplanar => s.emissiveMapping == Triplanar && s.emissiveColorMap
    case EmissiveColorMap => s.emissiveColorMap
    case EnableSpecularOcclusion => s.specularOcclusion
    case DensityMode => s.anyOpacityAsDensity
    case FeatureSubsurfaceScattering => s.materialId == LitSSS
    case FeatureTransmission => s.materialId == LitTranslucent || (s.materialId == LitSSS && s.transmissionEnable)
    case _ => false
  }

  /** The statements after the per-layer loop: each keyword they set takes
      the state the surface inputs give it, and no other keyword moves. */
  function SurfaceStep(s: SurfaceInputs, kw: set<Keyword>): (r: set<Keyword>)
    ensures forall k :: k in r <==> if k.Global? && k.g in SurfaceGlobals then SurfaceOn(s, k.g) else k in kw
  {
    SetKeywords(kw, set g | g in SurfaceGlobals :: Global(g), (k: Keyword) => k.Global? && SurfaceOn(s, k.g))
  }

  /** The statements after the loop as the source issues them: nine
      `SetKeyword` calls in order. */
  function SurfaceCalls(s: SurfaceInputs): (calls: seq<KeywordCall>)
    ensures |calls| == 9
  {
    [ KeywordCall(Global(EmissiveMappingPlanar), s.emissiveMapping == Planar && s.emissiveColorMap),
      KeywordCall(Global(EmissiveMappingTriplanar), s.emissiveMapping == Triplanar && s.emissiveColorMap),
      KeywordCall(Global(EmissiveColorMap), s.emissiveColorMap),
      KeywordCall(Global(EnableSpecularOcclusion), s.specularOcclusion),
      KeywordCall(Global(LayerMaskVertexColorMul), false),
      KeywordCall(Global(LayerMaskVertexColorAdd), false),
      KeywordCall(Global(DensityMode), s.anyOpacityAsDensity),
      KeywordCall(Global(FeatureSubsurfaceScattering), s.materialId == LitSSS),
      KeywordCall(Global(FeatureTransmission),
                  s.materialId == LitTranslucent || (s.materialId == LitSSS && s.transmissionEnable)) ]
  }

  /** Where the call for a surface keyword sits after the loop. */
  function SurfaceCallIndex(g: GlobalKeyword): nat
  {
    match g
    case EmissiveMappingPlanar => 0
    case EmissiveMappingTriplanar => 1
    case EmissiveColorMap => 2
    case EnableSpecularOcclusion => 3
    case LayerMaskVertexColorMul => 4
    case LayerMaskVertexColorAdd => 5
    case DensityMode => 6
    case FeatureSubsurfaceScattering => 7
    case FeatureTransmission => 8
    case _ => 9
  }

  /** The keyword part of `SetupMaterialKeywordsAndPass`. */
  function SetupMaterialKeywords(m: Material): set<Keyword>
  {
    SurfaceStep(ReadSurfaceInputs(m), TextureKeywordsFrom(ReadAllLayerTextures(m), SetupLayersMappingKeywords(m), 0))
  }

  /** Each keyword after `SetupMaterialKeywordsAndPass`: texture keywords of
      the four slots follow their layer, the keywords set after the loop follow
      the surface inputs, and the rest are as `SetupLayersMappingKeywords` left them. */
  lemma SetupMaterialKeywordsMember(m: Material, k: Keyword)
    ensures k in SetupMaterialKeywords(m) <==>
      if IsSlotTextureKeyword(k, 0) then TextureOn(ReadLayerTextures(m, k.layer), k.family)
      else if k.Global? && k.g in SurfaceGlobals then SurfaceOn(ReadSurfaceInputs(m), k.g)
      else k in SetupLayersMappingKeywords(m)
  {
    TextureKeywordsFromMember(ReadAllLayerTextures(m), SetupLayersMappingKeywords(m), 0, k);
  }

  /** The keywords set after the loop hold the state the surface inputs give them. */
  ghost predicate SurfaceKeywords(s: SurfaceInputs, r: set<Keyword>)
  {
    forall g :: g in SurfaceGlobals ==> (Global(g) in r <==> SurfaceOn(s, g))
  }

  /** The texture keywords of every slot hold the state the slot's textures give them. */
  ghost predicate TexturesFollow(m: Material, r: set<Keyword>)
  {
    forall k :: IsSlotTextureKeyword(k, 0) ==> (k in r <==> TextureOn(ReadLayerTextures(m, k.layer), k.family))
  }

  /** Keywords that neither the per-layer loop nor the statements after it
      set are as in `before`. */
  ghost predicate AgreesOutside(r: set<Keyword>, before: set<Keyword>)
  {
    forall k :: !IsSlotTextureKeyword(k, 0) && !(k.Global? && k.g in SurfaceGlobals) ==> (k in r <==> k in before)
  }

  /** The keywords set after the per-layer loop follow the surface inputs. */
  lemma SetupMaterialKeywordsSurface(m: Material)
    ensures SurfaceKeywords(ReadSurfaceInputs(m), SetupMaterialKeywords(m))
  {
    forall g | g in SurfaceGlobals
      ensures Global(g) in SetupMaterialKeywords(m) <==> SurfaceOn(ReadSurfaceInputs(m), g)
    {
      SetupMaterialKeywordsMember(m, Global(g));
    }
  }

  /** The texture keywords of every layer slot follow that slot's textures,
      whatever the layer count. */
  lemma SetupMaterialKeywordsFollow(m: Material)
    ensures TexturesFollow(m, SetupMaterialKeywords(m))
  {
    forall k | IsSlotTextureKeyword(k, 0)
      ensures k in SetupMaterialKeywords(m) <==> TextureOn(ReadLayerTextures(m, k.layer), k.family)
    {
      SetupMaterialKeywordsMember(m, k);
    }
  }

  /** Keywords that neither the per-layer loop nor the statements after it
      set keep the state `SetupLayersMappingKeywords` gave them. */
  lemma SetupMaterialKeywordsKeeps(m: Material)
    ensures AgreesOutside(SetupMaterialKeywords(m), SetupLayersMappingKeywords(m))
  {
    forall k | !IsSlotTextureKeyword(k, 0) && !(k.Global? && k.g in SurfaceGlobals)
      ensures k in SetupMaterialKeywords(m) <==> k in SetupLayersMappingKeywords(m)
    {
      SetupMaterialKeywordsMember(m, k);
    }
  }

  /** The texture keywords of layer j, in terms of the layer's properties. */
  ghost predicate LayerTextureKeywords(m: Material, r: set<Keyword>, j: nat)
  {
    var tangent := LayerNormalSpace(m, j) == TangentSpace;
    && (PerLayer(NormalMapTangentSpace, j) in r <==> tangent)
    && (PerLayer(NormalMap, j) in r <==>
          (if tangent then LayerHas(m, NormalMapName, j) else LayerHas(m, NormalMapOSName, j))
          || LayerHas(m, DetailMapName, j))
    && (PerLayer(BentNormalMap, j) in r <==>
          if tangent then LayerHas(m, BentNormalMapName, j) else LayerHas(m, BentNormalMapOSName, j))
    && (PerLayer(MaskMap, j) in r <==> LayerHas(m, MaskMapName, j))
    && (PerLayer(DetailMap, j) in r <==> LayerHas(m, DetailMapName, j))
    && (PerLayer(HeightMap, j) in r <==> LayerHas(m, HeightMapName, j))
    && (PerLayer(SubsurfaceMaskMap, j) in r <==> LayerHas(m, SubsurfaceMaskMapName, j))
    && (PerLayer(ThicknessMap, j) in r <==> LayerHas(m, ThicknessMapName, j))
  }

  /** The texture keywords of slot j, field by field, when each follows its family. */
  lemma TextureFieldsOf(t: LayerTextures, r: set<Keyword>, j: nat)
    requires forall f :: IsTextureFamily(f) ==> (PerLayer(f, j) in r <==> TextureOn(t, f))
    ensures PerLayer(NormalMapTangentSpace, j) in r <==> t.tangentSpace
    ensures PerLayer(NormalMap, j) in r <==> (if t.tangentSpace then t.normalMap else t.normalMapOS) || t.detailMap
    ensures PerLayer(BentNormalMap, j) in r <==> if t.tangentSpace then t.bentNormalMap else t.bentNormalMapOS
    ensures PerLayer(MaskMap, j) in r <==> t.maskMap
    ensures PerLayer(DetailMap, j) in r <==> t.detailMap
    ensures PerLayer(HeightMap, j) in r <==> t.heightMap
    ensures PerLayer(SubsurfaceMaskMap, j) in r <==> t.subsurfaceMaskMap
    ensures PerLayer(ThicknessMap, j) in r <==> t.thicknessMap
  {
    assert PerLayer(NormalMapTangentSpace, j) in r <==> TextureOn(t, NormalMapTangentSpace);
    assert PerLayer(NormalMap, j) in r <==> TextureOn(t, NormalMap);
    assert PerLayer(BentNormalMap, j) in r <==> TextureOn(t, BentNormalMap);
    assert PerLayer(MaskMap, j) in r <==> TextureOn(t, MaskMap);
    assert PerLayer(DetailMap, j) in r <==> TextureOn(t, DetailMap);
    assert PerLayer(HeightMap, j) in r <==> TextureOn(t, HeightMap);
    assert PerLayer(SubsurfaceMaskMap, j) in r <==> TextureOn(t, SubsurfaceMaskMap);
    assert PerLayer(ThicknessMap, j) in r <==> TextureOn(t, ThicknessMap);
  }

  lemma LayerTextureKeywordsOf(m: Material, r: set<Keyword>, j: nat)
    requires j < MaxLayerCount && TexturesFollow(m, r)
    ensures LayerTextureKeywords(m, r, j)
  {
    var t := ReadLayerTextures(m, j);
    forall f | IsTextureFamily(f)
      ensures PerLayer(f, j) in r <==> TextureOn(t, f)
    {
      assert IsSlotTextureKeyword(PerLayer(f, j), 0);
    }
    TextureFieldsOf(t, r, j);
  }

  /** Per-layer texture keywords after `SetupMaterialKeywordsAndPass`, for
      every layer slot whatever the layer count. */
  lemma SetupMaterialKeywordsTextures(m: Material, j: nat)
    requires j < MaxLayerCount
    ensures LayerTextureKeywords(m, SetupMaterialKeywords(m), j)
  {
    SetupMaterialKeywordsFollow(m);
    LayerTextureKeywordsOf(m, SetupMaterialKeywords(m), j);
  }

  /** Texture keywords of slots past the last are left as they were. */
  lemma SetupMaterialKeywordsPastLastSlot(m: Material, j: nat, f: LayerFamily)
    requires MaxLayerCount <= j && IsTextureFamily(f)
    ensures PerLayer(f, j) in SetupMaterialKeywords(m) <==> PerLayer(f, j) in m.keywords
  {
    SetupMaterialKeywordsMember(m, PerLayer(f, j));
    SetupLayersMappingKeyword(m, PerLayer(f, j));
  }

  /** Emissive mapping needs an emissive color map, and planar and triplanar
      emissive mapping exclude each other. */
  ghost predicate EmissiveKeywords(m: Material, r: set<Keyword>)
  {
    var mapping := UVBaseOf(GetFloat(m, UVEmissiveName));
    var tex := HasTexture(m, EmissiveColorMapName);
    && (Global(EmissiveMappingPlanar) in r <==> mapping == Planar && tex)
    && (Global(EmissiveMappingTriplanar) in r <==> mapping == Triplanar && tex)
    && (Global(EmissiveColorMap) in r <==> tex)
    && !(Global(EmissiveMappingPlanar) in r && Global(EmissiveMappingTriplanar) in r)
  }

  /** Density mode is on exactly when some layer below the layer count uses
      its opacity as density; vertex-color masking is off; specular occlusion
      follows its toggle. */
  ghost predicate DensityKeywords(m: Material, r: set<Keyword>)
  {
    && (Global(DensityMode) in r <==>
          exists j :: 0 <= j < GetInt(m, LayerCountName) && GetFloat(m, Suffixed(OpacityAsDensityName, j)) != 0.0)
    && Global(LayerMaskVertexColorMul) !in r && Global(LayerMaskVertexColorAdd) !in r
    && (Global(EnableSpecularOcclusion) in r <==> GetFloat(m, EnableSpecularOcclusionName) > 0.0)
  }

  /** Subsurface scattering exactly for the SSS material; transmission for the
      translucent material, or for SSS with transmission enabled. */
  ghost predicate FeatureKeywords(m: Material, r: set<Keyword>)
  {
    var id := MaterialIdOf(GetFloat(m, MaterialIdName));
    && (Global(FeatureSubsurfaceScattering) in r <==> id == LitSSS)
    && (Global(FeatureTransmission) in r <==>
          id == LitTranslucent || (id == LitSSS && GetFloat(m, TransmissionEnableName) > 0.0))
  }

  /** The keywords set after the loop, field by field, when each follows the surface inputs. */
  lemma SurfaceFieldsOf(s: SurfaceInputs, r: set<Keyword>)
    requires SurfaceKeywords(s, r)
    ensures Global(EmissiveMappingPlanar) in r <==> s.emissiveMapping == Planar && s.emissiveColorMap
    ensures Global(EmissiveMappingTriplanar) in r <==> s.emissiveMapping == Triplanar && s.emissiveColorMap
    ensures Global(EmissiveColorMap) in r <==> s.emissiveColorMap
    ensures Global(EnableSpecularOcclusion) in r <==> s.specularOcclusion
    ensures Global(DensityMode) in r <==> s.anyOpacityAsDensity
    ensures Global(LayerMaskVertexColorMul) !in r && Global(LayerMaskVertexColorAdd) !in r
    ensures Global(FeatureSubsurfaceScattering) in r <==> s.materialId == LitSSS
    ensures Global(FeatureTransmission) in r <==>
      s.materialId == LitTranslucent || (s.materialId == LitSSS && s.transmissionEnable)
  {
    assert Global(EmissiveMappingPlanar) in r <==> SurfaceOn(s, EmissiveMappingPlanar);
    assert Global(EmissiveMappingTriplanar) in r <==> SurfaceOn(s, EmissiveMappingTriplanar);
    assert Global(EmissiveColorMap) in r <==> SurfaceOn(s, EmissiveColorMap);
    assert Global(EnableSpecularOcclusion) in r <==> SurfaceOn(s, EnableSpecularOcclusion);
    assert Global(DensityMode) in r <==> SurfaceOn(s, DensityMode);
    assert Global(LayerMaskVertexColorMul) in r <==> SurfaceOn(s, LayerMaskVertexColorMul);
    assert Global(LayerMaskVertexColorAdd) in r <==> SurfaceOn(s, LayerMaskVertexColorAdd);
    assert Global(FeatureSubsurfaceScattering) in r <==> SurfaceOn(s, FeatureSubsurfaceScattering);
    assert Global(FeatureTransmission) in r <==> SurfaceOn(s, FeatureTransmission);
  }

  lemma SurfaceKeywordsMeaning(m: Material, r: set<Keyword>)
    requires SurfaceKeywords(ReadSurfaceInputs(m), r)
    ensures EmissiveKeywords(m, r) && DensityKeywords(m, r) && FeatureKeywords(m, r)
  {
    SurfaceFieldsOf(ReadSurfaceInputs(m), r);
  }

  /** The emissive, density, specular-occlusion and material-feature keywords
      after `SetupMaterialKeywordsAndPass`, in terms of the material's properties. */
  lemma SetupMaterialKeywordsSurfaceMeaning(m: Material)
    ensures EmissiveKeywords(m, SetupMaterialKeywords(m))
    ensures DensityKeywords(m, SetupMaterialKeywords(m))
    ensures FeatureKeywords(m, SetupMaterialKeywords(m))
  {
    SetupMaterialKeywordsSurface(m);
    SurfaceKeywordsMeaning(m, SetupMaterialKeywords(m));
  }

  /** The global keywords `SetupLayersMappingKeywords` sets before the layer loop. */
  ghost predicate MappingGlobalKeywords(m: Material, r: set<Keyword>)
  {
    && (Global(TilingCoupledWithObjectScale) in r <==> GetFloat(m, ObjectScaleAffectTileName) > 0.0)
    && Global(MappingPlanarBlendMask) !in r && Global(MappingTriplanarBlendMask) !in r
    && LayerCountKeywords(m, r)
  }

  /** The mapping keywords of `SetupLayersMappingKeywords`, carried over to any
      keyword set that agrees with it on those keywords and on the others. */
  ghost predicate MappingKeywords(m: Material, r: set<Keyword>)
  {
    && MappingGlobalKeywords(m, r)
    && UVSetKeywords(m, r)
    && LayerMappingKeywords(m, m.keywords, r)
    && (forall name :: Other(name) in r <==> Other(name) in m.keywords)
  }

  lemma MappingGlobalsKept(m: Material, r: set<Keyword>, before: set<Keyword>)
    requires AgreesOutside(r, before) && MappingGlobalKeywords(m, before)
    ensures MappingGlobalKeywords(m, r)
  {
    assert Global(TilingCoupledWithObjectScale) in r <==> Global(TilingCoupledWithObjectScale) in before;
    assert Global(MappingPlanarBlendMask) in r <==> Global(MappingPlanarBlendMask) in before;
    assert Global(MappingTriplanarBlendMask) in r <==> Global(MappingTriplanarBlendMask) in before;
    assert Global(LayeredLit4Layers) in r <==> Global(LayeredLit4Layers) in before;
    assert Global(LayeredLit3Layers) in r <==> Global(LayeredLit3Layers) in before;
  }

  lemma UVSetKept(m: Material, r: set<Keyword>, before: set<Keyword>)
    requires AgreesOutside(r, before) && UVSetKeywords(m, before)
    ensures UVSetKeywords(m, r)
  {
    assert Global(RequireUV2) in r <==> Global(RequireUV2) in before;
    assert Global(RequireUV3) in r <==> Global(RequireUV3) in before;
  }

  lemma LayerMappingKept(m: Material, r: set<Keyword>, before: set<Keyword>)
    requires AgreesOutside(r, before) && LayerMappingKeywords(m, m.keywords, before)
    requires forall k :: !SetByMapping(k) ==> (k in before <==> k in m.keywords)
    ensures LayerMappingKeywords(m, m.keywords, r)
    ensures forall name :: Other(name) in r <==> Other(name) in m.keywords
  {
    forall j: nat
      ensures PerLayer(MappingPlanar, j) in r <==> PerLayer(MappingPlanar, j) in before
      ensures PerLayer(MappingTriplanar, j) in r <==> PerLayer(MappingTriplanar, j) in before
    {
    }
    forall name
      ensures Other(name) in r <==> Other(name) in m.keywords
    {
      assert !SetByMapping(Other(name));
    }
  }

  lemma MappingKeywordsKept(m: Material, r: set<Keyword>)
    requires AgreesOutside(r, SetupLayersMappingKeywords(m))
    ensures MappingKeywords(m, r)
  {
    var before := SetupLayersMappingKeywords(m);
    SetupLayersMappingKeywordsLayers(m);
    SetupLayersMappingKeywordsFrame(m);
    MappingGlobalsKept(m, r, before);
    UVSetKept(m, r, before);
    LayerMappingKept(m, r, before);
  }

  /** The later steps of `SetupMaterialKeywordsAndPass` leave the mapping
      keywords as `SetupLayersMappingKeywords` set them, and keywords the
      inspector does not own keep their previous state. */
  lemma SetupMaterialKeywordsKeepsMapping(m: Material)
    ensures MappingKeywords(m, SetupMaterialKeywords(m))
  {
    SetupMaterialKeywordsKeeps(m);
    MappingKeywordsKept(m, SetupMaterialKeywords(m));
  }

  /** `Other` keywords pass unchanged through the mapping step and the later steps. */
  lemma OtherKeptThrough(kw: set<Keyword>, before: set<Keyword>, r: set<Keyword>)
    requires forall k :: !SetByMapping(k) ==> (k in before <==> k in kw)
    requires AgreesOutside(r, before)
    ensures forall n :: Other(n) in r <==> Other(n) in kw
  {
    forall n
      ensures Other(n) in r <==> Other(n) in kw
    {
      assert !SetByMapping(Other(n)) && !IsSlotTextureKeyword(Other(n), 0);
    }
  }

  /** Read by shader keyword name, from a keyword set in canonical form: the
      keyword set after `SetupMaterialKeywordsAndPass` is canonical, each keyword
      the inspector sets is on by name exactly when its keyword value is in it,
      and every shader keyword the inspector does not set keeps its state. */
  lemma SetupMaterialKeywordsNames(m: Material)
    requires Canonical(m.keywords)
    ensures Canonical(SetupMaterialKeywords(m))
    ensures forall k: Keyword :: !k.Other? ==> (NameOn(SetupMaterialKeywords(m), Name(k)) <==> k in SetupMaterialKeywords(m))
    ensures forall n :: !InspectorName(n) ==> (NameOn(SetupMaterialKeywords(m), n) <==> NameOn(m.keywords, n))
  {
    SetupMaterialKeywordsKeeps(m);
    SetupLayersMappingKeywordsFrame(m);
    OtherKeptThrough(m.keywords, SetupLayersMappingKeywords(m), SetupMaterialKeywords(m));
    OtherKeptNames(m.keywords, SetupMaterialKeywords(m));
  }
}
