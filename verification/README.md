# Terrain blend-paint material rules and atmospheric fog parameters

A Dafny model of two HDRP scripts.

**Terrain blend-paint material inspector.** These are the decision rules the inspector applies to a layered terrain material:

- the shader keywords `SetupLayersMappingKeywords` derives;
- the keyword part of `SetupMaterialKeywordsAndPass`;
- the per-layer property copy of `SynchronizeLayerProperties` and `SynchronizeAllLayers`;
- the pixel-displacement check in `OnGUI`, which warns when the layers that have a height map disagree on their base UV mapping.

**Atmospheric-scattering volume component.** This covers:

- the global shader parameters it pushes (`PushNeutralShaderParameters`, `PushShaderParametersCommon`);
- the state rule for its cached gradient texture (`OnEnable`, `OnValidate`);
- the sampling schedule of `MakeTextureFromGradient`.

## How the model is built

**Materials and keywords.** A material is a value: its shader's property declarations, a map from property name to value, and a set of enabled keywords (`Materials.Material`).

- A keyword is a datatype (`Keywords.Keyword`):
  - a global keyword;
  - a per-layer family with a layer index;
  - any other keyword, by name.

  `Keywords.Name` spells each one as the shader does.
- `CoreUtils.SetKeyword`, `EnableKeyword` and `DisableKeyword` add a keyword to the set or remove it (`Keywords.SetKeyword`).
- The shader only sees keyword names. A set of `Keyword` values stands for the names they spell (`Keywords.NameOn`). Every name the inspector sets is spelled by exactly one `Global` or `PerLayer` value (`Keywords.NameInjective`). A set is canonical when it never holds such a name as a plain `Other` name (`Keywords.Canonical`); every set of names has exactly one canonical representation. The operations keep a set canonical. On canonical sets, a statement about `Keyword` membership is the same statement about enabled names (`Keywords.NameOnCanonical`, `Keywords.NameOnOther`, `LayerMapping.SetupLayersMappingKeywordsNames`, `MaterialKeywords.SetupMaterialKeywordsNames`).
- The source issues one `SetKeyword` call at a time. The model sets a group of distinct keywords in one step (`Keywords.SetKeywords`). The call sequences in source order (`MaterialKeywords.LayerTextureCalls`, `MaterialKeywords.SurfaceCalls`) are proved to give the same set (`KeywordCalls`).
- Per-layer property and keyword names are `name + i`. The index is spelled in decimal (`Names.Suffixed`), and the lemmas in `Names` say when two such names can coincide.

**Reading properties.** Reading a property the material does not have, or has with another type, gives the host's default:

- 0 for a float;
- a zero color or vector;
- no texture;
- offset (0,0) and scale (1,1).

A C# enum cast of a float property truncates toward zero (`Host.Truncate`) and keeps unnamed codes as a separate case (`Enums`).

**Outcomes.** Each operation is a pure function, and its contract states the outcome. Lemmas relate each operation to an independent statement of what it should do:

- a keyword is on exactly when a condition on the material holds, and nothing else moves;
- a property lands in `name + i`, and excluded names are never written;
- the warning shows exactly when two height-mapped layers disagree;
- state transitions are idempotent;
- a parameter name ends up with the value of its last set.

## Model

All sources are under `ScriptableRenderPipeline/HDRenderPipeline/HDRP/`.

| member | source | states |
|---|---|---|
| Host.Truncate | ScriptableRenderPipeline/HDRenderPipeline/HDRP/Editor/Material/TerrainBlendPaint/TerrainBlendPaintUI.cs:811 | the C# cast `(int)f` rounds toward zero: the result is within one of the float, on the side of zero |
| Enums.UVBaseOf | ScriptableRenderPipeline/HDRenderPipeline/HDRP/Editor/Material/TerrainBlendPaint/TerrainBlendPaintUI.cs:840 | `(UVBaseMapping)f`: the result's code is the truncated float; an unnamed case exactly for codes outside the six declared ones |
| Enums.UVDetailOf | ScriptableRenderPipeline/HDRenderPipeline/HDRP/Editor/Material/TerrainBlendPaint/TerrainBlendPaintUI.cs:849 | `(UVDetailMapping)f`: the result's code is the truncated float; an unnamed case exactly outside the four declared ones |
| Enums.NormalMapSpaceOf | ScriptableRenderPipeline/HDRenderPipeline/HDRP/Editor/Material/TerrainBlendPaint/TerrainBlendPaintUI.cs:887 | `(NormalMapSpace)f`: the result's code is the truncated float; an unnamed case exactly outside tangent and object space |
| Enums.MaterialIdOf | ScriptableRenderPipeline/HDRenderPipeline/HDRP/Editor/Material/TerrainBlendPaint/TerrainBlendPaintUI.cs:934 | `(BaseLitGUI.MaterialId)f`: the result's code is the truncated float; an unnamed case exactly outside the six declared ids |
| Enums.DisplacementModeOf | ScriptableRenderPipeline/HDRenderPipeline/HDRP/Editor/Material/TerrainBlendPaint/TerrainBlendPaintUI.cs:970 | `(DisplacementMode)f`: the result's code is the truncated float; an unnamed case exactly outside the four declared modes |
| Materials.GetFloat | ScriptableRenderPipeline/HDRenderPipeline/HDRP/Editor/Material/TerrainBlendPaint/TerrainBlendPaintUI.cs:256 | a float property's value, or 0 when the property is missing or not a float |
| Materials.GetColor | ScriptableRenderPipeline/HDRenderPipeline/HDRP/Editor/Material/TerrainBlendPaint/TerrainBlendPaintUI.cs:250 | a color property's value, or a zero color when missing or of another type |
| Materials.GetVector | ScriptableRenderPipeline/HDRenderPipeline/HDRP/Editor/Material/TerrainBlendPaint/TerrainBlendPaintUI.cs:261 | a vector property's value, or a zero vector when missing or of another type |
| Materials.GetTexture | ScriptableRenderPipeline/HDRenderPipeline/HDRP/Editor/Material/TerrainBlendPaint/TerrainBlendPaintUI.cs:266 | a texture property's reference, or none when missing or of another type |
| Materials.GetTextureOffset | ScriptableRenderPipeline/HDRenderPipeline/HDRP/Editor/Material/TerrainBlendPaint/TerrainBlendPaintUI.cs:269 | a texture property's offset, or (0,0) when missing or of another type |
| Materials.GetTextureScale | ScriptableRenderPipeline/HDRenderPipeline/HDRP/Editor/Material/TerrainBlendPaint/TerrainBlendPaintUI.cs:270 | a texture property's scale, or (1,1) when missing or of another type |
| Materials.GetInt | ScriptableRenderPipeline/HDRenderPipeline/HDRP/Editor/Material/TerrainBlendPaint/TerrainBlendPaintUI.cs:928 | `Material.GetInt`: the float value truncated toward zero |
| Names.SuffixedInjective | ScriptableRenderPipeline/HDRenderPipeline/HDRP/Editor/Material/TerrainBlendPaint/TerrainBlendPaintUI.cs:839-847 | two layer indices give the same per-layer name only when they are equal |
| Names.SuffixedSameLayer | ScriptableRenderPipeline/HDRenderPipeline/HDRP/Editor/Material/TerrainBlendPaint/TerrainBlendPaintUI.cs:235 | for one layer index, two base names give the same layer property name only when they are equal |
| Names.SuffixedNonDigitEnd | ScriptableRenderPipeline/HDRenderPipeline/HDRP/Editor/Material/TerrainBlendPaint/TerrainBlendPaintUI.cs:229-235 | a base name not ending in a digit, suffixed with a layer below ten, cannot be produced by any other base name and layer |
| Names.SuffixedAt | ScriptableRenderPipeline/HDRenderPipeline/HDRP/Editor/Material/TerrainBlendPaint/TerrainBlendPaintUI.cs:839-847 | appending the layer index keeps every character of the base name in place |
| Names.SuffixedEndsInDigit | ScriptableRenderPipeline/HDRenderPipeline/HDRP/Editor/Material/TerrainBlendPaint/TerrainBlendPaintUI.cs:839-847 | a per-layer name always ends in a decimal digit |
| Names.SuffixedDigitAfter | ScriptableRenderPipeline/HDRenderPipeline/HDRP/Editor/Material/TerrainBlendPaint/TerrainBlendPaintUI.cs:839-847 | the character right after the base name is a digit |
| Keywords.PrefixInitial | ScriptableRenderPipeline/HDRenderPipeline/HDRP/Editor/Material/TerrainBlendPaint/TerrainBlendPaintUI.cs:830-909 | the second character of each per-layer keyword prefix identifies its family group |
| Keywords.GlobalNameEnd | ScriptableRenderPipeline/HDRenderPipeline/HDRP/Editor/Material/TerrainBlendPaint/TerrainBlendPaintUI.cs:804-936 | every global keyword except `_REQUIRE_UV2`/`_REQUIRE_UV3` ends in a non-digit |
| Keywords.ObjectScaleNamesDistinct | ScriptableRenderPipeline/HDRenderPipeline/HDRP/Editor/Material/TerrainBlendPaint/TerrainBlendPaintUI.cs:804-809 | the object-scale and blend-mask keyword names differ from each other and from every other global name |
| Keywords.LayerSetNamesDistinct | ScriptableRenderPipeline/HDRenderPipeline/HDRP/Editor/Material/TerrainBlendPaint/TerrainBlendPaintUI.cs:814-875 | the layer-count and UV-set keyword names differ from every other global name |
| Keywords.EmissiveNamesDistinct | ScriptableRenderPipeline/HDRenderPipeline/HDRP/Editor/Material/TerrainBlendPaint/TerrainBlendPaintUI.cs:914-917 | the emissive and specular-occlusion keyword names differ from every other global name |
| Keywords.SurfaceNamesDistinct | ScriptableRenderPipeline/HDRenderPipeline/HDRP/Editor/Material/TerrainBlendPaint/TerrainBlendPaintUI.cs:921-936 | the vertex-color, density and material-feature keyword names differ from every other global name |
| Keywords.GlobalNameInjective | ScriptableRenderPipeline/HDRenderPipeline/HDRP/Editor/Material/TerrainBlendPaint/TerrainBlendPaintUI.cs:804-936 | two global keywords have the same shader name only when they are the same keyword |
| Keywords.GlobalNotPerLayer | ScriptableRenderPipeline/HDRenderPipeline/HDRP/Editor/Material/TerrainBlendPaint/TerrainBlendPaintUI.cs:804-909 | no global keyword name is spelled like a per-layer keyword of any family and layer |
| Keywords.PerLayerNameInjective | ScriptableRenderPipeline/HDRenderPipeline/HDRP/Editor/Material/TerrainBlendPaint/TerrainBlendPaintUI.cs:837-909 | two per-layer keywords have the same shader name only when family and layer are the same |
| Keywords.NameInjective | ScriptableRenderPipeline/HDRenderPipeline/HDRP/Editor/Material/TerrainBlendPaint/TerrainBlendPaintUI.cs:804-936 | two keywords the inspector sets have the same shader name exactly when they are the same keyword, so the datatype and the by-name keyword set agree |
| Keywords.NameOnCanonical | ScriptableRenderPipeline/HDRenderPipeline/HDRP/Editor/Material/TerrainBlendPaint/TerrainBlendPaintUI.cs:804-936 | in a set with no inspector-owned name held as a plain name, an inspector keyword's name is enabled exactly when the keyword is in the set |
| Keywords.NameOnOther | ScriptableRenderPipeline/HDRenderPipeline/HDRP/Editor/Material/TerrainBlendPaint/TerrainBlendPaintUI.cs:804-936 | a name no keyword the inspector sets can spell is enabled exactly when it is held as a plain name |
| Keywords.OtherKeptNames | ScriptableRenderPipeline/HDRenderPipeline/HDRP/Editor/Material/TerrainBlendPaint/TerrainBlendPaintUI.cs:801-937 | a step that keeps every plain-name keyword keeps the set free of aliases, tracks inspector keywords by name, and leaves every other name as it was |
| Keywords.SetKeyword | ScriptableRenderPipeline/HDRenderPipeline/HDRP/Editor/Material/TerrainBlendPaint/TerrainBlendPaintUI.cs:804 | after `SetKeyword(k, on)` the keyword k is present exactly when `on`, and every other keyword keeps its state |
| Keywords.SetKeywords | ScriptableRenderPipeline/HDRenderPipeline/HDRP/Editor/Material/TerrainBlendPaint/TerrainBlendPaintUI.cs:889-909 | updating several keywords at once sets each to its state and leaves every other keyword as it was; it keeps the set free of aliases |
| Keywords.ApplyCallsUntouched | ScriptableRenderPipeline/HDRenderPipeline/HDRP/Editor/Material/TerrainBlendPaint/TerrainBlendPaintUI.cs:889-936 | a keyword that no call in a run of `SetKeyword` calls names keeps its state |
| Keywords.ApplyCallsOnce | ScriptableRenderPipeline/HDRenderPipeline/HDRP/Editor/Material/TerrainBlendPaint/TerrainBlendPaintUI.cs:889-936 | a keyword named by exactly one call of a run ends in the state that call gives it |
| Keywords.CallsAgree | ScriptableRenderPipeline/HDRenderPipeline/HDRP/Editor/Material/TerrainBlendPaint/TerrainBlendPaintUI.cs:889-936 | a run of `SetKeyword` calls on distinct keywords, covering a set, gives the same keyword set as updating the set at once, so the order of the calls does not matter |
| LayerMapping.ObjectScaleStep | ScriptableRenderPipeline/HDRenderPipeline/HDRP/Editor/Material/TerrainBlendPaint/TerrainBlendPaintUI.cs:803-809 | tiling coupled with object scale is on exactly when `_ObjectScaleAffectTile` > 0; both blend-mask mapping keywords are off; nothing else changes |
| LayerMapping.LayerCountStep | ScriptableRenderPipeline/HDRenderPipeline/HDRP/Editor/Material/TerrainBlendPaint/TerrainBlendPaintUI.cs:811-828 | the four-layer keyword is on exactly for a count of 4, the three-layer keyword exactly for 3, so at most one is on; no other keyword changes |
| LayerMapping.MappingStep | ScriptableRenderPipeline/HDRenderPipeline/HDRP/Editor/Material/TerrainBlendPaint/TerrainBlendPaintUI.cs:839-844 | for layer i, planar mapping is on exactly when the base mapping is Planar and triplanar exactly when it is Triplanar; no other keyword changes |
| LayerMapping.ScanLayers | ScriptableRenderPipeline/HDRenderPipeline/HDRP/Editor/Material/TerrainBlendPaint/TerrainBlendPaintUI.cs:833-859 | the loop reports UV3 exactly when some layer below the count uses UV3 in its base or detail mapping; when none does, it reports UV2 exactly when some layer uses UV2; only per-layer keywords change |
| LayerMapping.ScanLayersKeyword | ScriptableRenderPipeline/HDRenderPipeline/HDRP/Editor/Material/TerrainBlendPaint/TerrainBlendPaintUI.cs:837-858 | a layer's planar/triplanar keyword follows its base mapping when the loop reaches the layer (no earlier layer uses UV3, because of the `break`); every other keyword keeps its previous state |
| LayerMapping.UVSetStep | ScriptableRenderPipeline/HDRenderPipeline/HDRP/Editor/Material/TerrainBlendPaint/TerrainBlendPaintUI.cs:861-875 | UV3 is required exactly when needed; UV2 is required exactly when needed and UV3 is not; no other keyword changes |
| LayerMapping.SetupLayersMappingKeywords | ScriptableRenderPipeline/HDRenderPipeline/HDRP/Editor/Material/TerrainBlendPaint/TerrainBlendPaintUI.cs:801-876 | object-scale tiling follows its toggle; blend masks are off; the layer-count keywords are exclusive and follow the count; `_REQUIRE_UV2`/`_REQUIRE_UV3` follow the layers below the count and are never both on |
| LayerMapping.SetupLayersMappingKeyword | ScriptableRenderPipeline/HDRenderPipeline/HDRP/Editor/Material/TerrainBlendPaint/TerrainBlendPaintUI.cs:801-876 | after the whole function, a mapping keyword of a layer the loop reaches follows that layer's base mapping, and any keyword the function does not set is as it was in the material |
| LayerMapping.SetupLayersMappingKeywordsLayers | ScriptableRenderPipeline/HDRenderPipeline/HDRP/Editor/Material/TerrainBlendPaint/TerrainBlendPaintUI.cs:837-858 | for every layer index: planar and triplanar follow the base mapping for reached layers and are never both on; unreached layers keep their keywords |
| LayerMapping.SetupLayersMappingKeywordsFrame | ScriptableRenderPipeline/HDRenderPipeline/HDRP/Editor/Material/TerrainBlendPaint/TerrainBlendPaintUI.cs:801-876 | every keyword the function does not set keeps its state |
| LayerMapping.SetupLayersMappingKeywordsNames | ScriptableRenderPipeline/HDRenderPipeline/HDRP/Editor/Material/TerrainBlendPaint/TerrainBlendPaintUI.cs:801-876 | stated on shader keyword names: each name the function sets is enabled exactly as the function decides, and every other name keeps its state |
| MaterialKeywords.LayerTextureStep | ScriptableRenderPipeline/HDRenderPipeline/HDRP/Editor/Material/TerrainBlendPaint/TerrainBlendPaintUI.cs:887-909 | one iteration sets exactly the eight texture keywords of layer i, each to the state the layer's textures and normal-map space give it |
| MaterialKeywords.LayerTextureCalls | ScriptableRenderPipeline/HDRenderPipeline/HDRP/Editor/Material/TerrainBlendPaint/TerrainBlendPaintUI.cs:889-909 | the eight `SetKeyword` calls of one iteration, in source order |
| KeywordCalls.LayerTextureCallsFor | ScriptableRenderPipeline/HDRenderPipeline/HDRP/Editor/Material/TerrainBlendPaint/TerrainBlendPaintUI.cs:889-909 | the calls of one iteration name each texture keyword of the layer exactly once, with the state its textures give it, and nothing else |
| KeywordCalls.LayerTextureCallsWithin | ScriptableRenderPipeline/HDRenderPipeline/HDRP/Editor/Material/TerrainBlendPaint/TerrainBlendPaintUI.cs:889-909 | each call of an iteration names a texture keyword of the layer and sets it to the state the layer's textures give it |
| KeywordCalls.LayerTextureCallsOwned | ScriptableRenderPipeline/HDRenderPipeline/HDRP/Editor/Material/TerrainBlendPaint/TerrainBlendPaintUI.cs:889-909 | each call of an iteration names a texture keyword of that layer |
| KeywordCalls.LayerTextureCallsValues | ScriptableRenderPipeline/HDRenderPipeline/HDRP/Editor/Material/TerrainBlendPaint/TerrainBlendPaintUI.cs:889-909 | each call of an iteration sets its keyword as the layer's textures and normal-map space say |
| KeywordCalls.LayerTextureCallsDistinct | ScriptableRenderPipeline/HDRenderPipeline/HDRP/Editor/Material/TerrainBlendPaint/TerrainBlendPaintUI.cs:889-909 | no two calls of an iteration name the same keyword |
| KeywordCalls.LayerTextureCallsCover | ScriptableRenderPipeline/HDRenderPipeline/HDRP/Editor/Material/TerrainBlendPaint/TerrainBlendPaintUI.cs:889-909 | every texture keyword of the layer is named by some call of the iteration |
| KeywordCalls.LayerTextureStepIsCalls | ScriptableRenderPipeline/HDRenderPipeline/HDRP/Editor/Material/TerrainBlendPaint/TerrainBlendPaintUI.cs:887-909 | the iteration's eight calls in source order give the same keyword set as the model's one-step update |
| MaterialKeywords.TextureKeywordsOf | ScriptableRenderPipeline/HDRenderPipeline/HDRP/Editor/Material/TerrainBlendPaint/TerrainBlendPaintUI.cs:889-909 | the texture keywords of a layer slot are exactly its per-layer keywords of the eight texture families |
| MaterialKeywords.ReadAllLayerTextures | ScriptableRenderPipeline/HDRenderPipeline/HDRP/Editor/Material/TerrainBlendPaint/TerrainBlendPaintUI.cs:885-887 | the loop reads the textures of each of the four slots in order |
| MaterialKeywords.TextureKeywordsFrom | ScriptableRenderPipeline/HDRenderPipeline/HDRP/Editor/Material/TerrainBlendPaint/TerrainBlendPaintUI.cs:885-910 | the texture-keyword loop over the slots from a given one on; its meaning is stated by `TextureKeywordsFromMember` |
| MaterialKeywords.TextureKeywordsFromMember | ScriptableRenderPipeline/HDRenderPipeline/HDRP/Editor/Material/TerrainBlendPaint/TerrainBlendPaintUI.cs:885-910 | after the loop, a texture keyword of a visited slot has the state its own slot gives it (later slots do not overwrite it); every other keyword is unchanged |
| MaterialKeywords.AnyOpacityAsDensity | ScriptableRenderPipeline/HDRenderPipeline/HDRP/Editor/Material/TerrainBlendPaint/TerrainBlendPaintUI.cs:927-931 | the density flag is set exactly when some layer j below the layer count has `_OpacityAsDensity<j>` different from 0 |
| MaterialKeywords.SurfaceStep | ScriptableRenderPipeline/HDRenderPipeline/HDRP/Editor/Material/TerrainBlendPaint/TerrainBlendPaintUI.cs:914-936 | the emissive, specular-occlusion, vertex-color, density and feature keywords take the state their inputs give; no other keyword moves |
| MaterialKeywords.SurfaceCalls | ScriptableRenderPipeline/HDRenderPipeline/HDRP/Editor/Material/TerrainBlendPaint/TerrainBlendPaintUI.cs:914-936 | the nine `SetKeyword` calls after the loop, in source order |
| KeywordCalls.SurfaceCallsFor | ScriptableRenderPipeline/HDRenderPipeline/HDRP/Editor/Material/TerrainBlendPaint/TerrainBlendPaintUI.cs:914-936 | the calls after the loop name each surface keyword exactly once, with the state the surface inputs give it, and nothing else |
| KeywordCalls.SurfaceCallsWithin | ScriptableRenderPipeline/HDRenderPipeline/HDRP/Editor/Material/TerrainBlendPaint/TerrainBlendPaintUI.cs:914-936 | each call after the loop names a surface keyword and sets it to the state the surface inputs give it |
| KeywordCalls.SurfaceCallsDistinct | ScriptableRenderPipeline/HDRenderPipeline/HDRP/Editor/Material/TerrainBlendPaint/TerrainBlendPaintUI.cs:914-936 | no two calls after the loop name the same keyword |
| KeywordCalls.SurfaceCallsCover | ScriptableRenderPipeline/HDRenderPipeline/HDRP/Editor/Material/TerrainBlendPaint/TerrainBlendPaintUI.cs:914-936 | every surface keyword is named by some call after the loop |
| KeywordCalls.SurfaceStepIsCalls | ScriptableRenderPipeline/HDRenderPipeline/HDRP/Editor/Material/TerrainBlendPaint/TerrainBlendPaintUI.cs:914-936 | the nine calls in source order give the same keyword set as the model's one-step update |
| MaterialKeywords.SetupMaterialKeywords | ScriptableRenderPipeline/HDRenderPipeline/HDRP/Editor/Material/TerrainBlendPaint/TerrainBlendPaintUI.cs:879-937 | the keyword part of `SetupMaterialKeywordsAndPass`: mapping keywords, then the texture loop over all four slots, then the surface statements; its meaning is stated by the `SetupMaterialKeywords*` lemmas |
| MaterialKeywords.SetupMaterialKeywordsMember | ScriptableRenderPipeline/HDRenderPipeline/HDRP/Editor/Material/TerrainBlendPaint/TerrainBlendPaintUI.cs:879-937 | each keyword after the keyword setup: slot texture keywords follow their slot, surface keywords follow the surface inputs, and all others are as the mapping step left them |
| MaterialKeywords.SetupMaterialKeywordsFollow | ScriptableRenderPipeline/HDRenderPipeline/HDRP/Editor/Material/TerrainBlendPaint/TerrainBlendPaintUI.cs:885-910 | the texture keywords of all four slots follow that slot's textures, whatever the layer count |
| MaterialKeywords.SetupMaterialKeywordsSurface | ScriptableRenderPipeline/HDRenderPipeline/HDRP/Editor/Material/TerrainBlendPaint/TerrainBlendPaintUI.cs:914-936 | every keyword set after the loop holds the state the surface inputs give it |
| MaterialKeywords.SetupMaterialKeywordsKeeps | ScriptableRenderPipeline/HDRenderPipeline/HDRP/Editor/Material/TerrainBlendPaint/TerrainBlendPaintUI.cs:879-937 | keywords that neither the texture loop nor the later statements set are as `SetupLayersMappingKeywords` left them |
| MaterialKeywords.TextureFieldsOf | ScriptableRenderPipeline/HDRenderPipeline/HDRP/Editor/Material/TerrainBlendPaint/TerrainBlendPaintUI.cs:887-909 | the eight keywords of one slot, read field by field: the normal-map keyword is on with a normal map of the current space or a detail map; the bent-normal map depends on the space; the rest follow their texture |
| MaterialKeywords.LayerTextureKeywordsOf | ScriptableRenderPipeline/HDRenderPipeline/HDRP/Editor/Material/TerrainBlendPaint/TerrainBlendPaintUI.cs:887-909 | when the slot keywords follow the slot's textures, each is on exactly as the layer's `_NormalMapSpace<j>` and texture properties say |
| MaterialKeywords.SetupMaterialKeywordsTextures | ScriptableRenderPipeline/HDRenderPipeline/HDRP/Editor/Material/TerrainBlendPaint/TerrainBlendPaintUI.cs:885-910 | the per-layer texture keywords of each of the four slots after the keyword setup, in terms of the layer's properties |
| MaterialKeywords.SetupMaterialKeywordsPastLastSlot | ScriptableRenderPipeline/HDRenderPipeline/HDRP/Editor/Material/TerrainBlendPaint/TerrainBlendPaintUI.cs:885 | texture keywords of slots from the fifth on keep the material's previous state |
| MaterialKeywords.SurfaceFieldsOf | ScriptableRenderPipeline/HDRenderPipeline/HDRP/Editor/Material/TerrainBlendPaint/TerrainBlendPaintUI.cs:914-936 | emissive mapping needs the emissive color map; both vertex-color keywords are off; SSS exactly for LitSSS; transmission for LitTranslucent, or for LitSSS with transmission enabled |
| MaterialKeywords.SurfaceKeywordsMeaning | ScriptableRenderPipeline/HDRenderPipeline/HDRP/Editor/Material/TerrainBlendPaint/TerrainBlendPaintUI.cs:914-936 | the same, stated on the material's properties: the emissive keywords, density mode (some layer below the count uses opacity as density), specular occlusion and the two material features |
| MaterialKeywords.SetupMaterialKeywordsSurfaceMeaning | ScriptableRenderPipeline/HDRenderPipeline/HDRP/Editor/Material/TerrainBlendPaint/TerrainBlendPaintUI.cs:914-936 | after the keyword setup, the emissive, density, specular-occlusion and feature keywords are on exactly when the material's properties say so, and planar and triplanar emissive are never both on |
| MaterialKeywords.MappingGlobalsKept | ScriptableRenderPipeline/HDRenderPipeline/HDRP/Editor/Material/TerrainBlendPaint/TerrainBlendPaintUI.cs:803-828 | the object-scale, blend-mask and layer-count keywords survive any later step that does not set them |
| MaterialKeywords.UVSetKept | ScriptableRenderPipeline/HDRenderPipeline/HDRP/Editor/Material/TerrainBlendPaint/TerrainBlendPaintUI.cs:861-875 | the UV-set keywords survive any later step that does not set them |
| MaterialKeywords.LayerMappingKept | ScriptableRenderPipeline/HDRenderPipeline/HDRP/Editor/Material/TerrainBlendPaint/TerrainBlendPaintUI.cs:837-858 | the per-layer mapping keywords, and every keyword the inspector does not own, survive any later step that does not set them |
| MaterialKeywords.MappingKeywordsKept | ScriptableRenderPipeline/HDRenderPipeline/HDRP/Editor/Material/TerrainBlendPaint/TerrainBlendPaintUI.cs:801-876 | all mapping keyword properties of `SetupLayersMappingKeywords` hold in any set that agrees with its result outside the texture and surface keywords |
| MaterialKeywords.SetupMaterialKeywordsKeepsMapping | ScriptableRenderPipeline/HDRenderPipeline/HDRP/Editor/Material/TerrainBlendPaint/TerrainBlendPaintUI.cs:879-937 | after the whole keyword setup, the mapping keywords still hold as `SetupLayersMappingKeywords` set them, and keywords the inspector does not own are unchanged |
| MaterialKeywords.OtherKeptThrough | ScriptableRenderPipeline/HDRenderPipeline/HDRP/Editor/Material/TerrainBlendPaint/TerrainBlendPaintUI.cs:879-937 | the whole keyword setup keeps every keyword held as a plain name |
| MaterialKeywords.SetupMaterialKeywordsNames | ScriptableRenderPipeline/HDRenderPipeline/HDRP/Editor/Material/TerrainBlendPaint/TerrainBlendPaintUI.cs:879-937 | stated on shader keyword names: after the keyword setup each inspector keyword is enabled exactly when it is in the modelled set, and every other name keeps its state |
| LayerSync.Copied | ScriptableRenderPipeline/HDRenderPipeline/HDRP/Editor/Material/TerrainBlendPaint/TerrainBlendPaintUI.cs:246-273 | the value written matches the declared property type (color, float or range, vector, texture) and is the layer material's own value of that property; a texture's offset and scale come from the layer material only when UV mapping is not excluded, and are kept otherwise |
| LayerSync.CopyProperty | ScriptableRenderPipeline/HDRenderPipeline/HDRP/Editor/Material/TerrainBlendPaint/TerrainBlendPaintUI.cs:238-276 | a selected declaration whose key `name + layerIndex` the material has writes that key with the converted value; no other key changes, no key is added, and shader and keywords are untouched |
| LayerSync.SyncFrom | ScriptableRenderPipeline/HDRenderPipeline/HDRP/Editor/Material/TerrainBlendPaint/TerrainBlendPaintUI.cs:236-277 | the property loop adds or removes no key, and a key that no selected declaration maps to keeps its value |
| LayerSync.SyncFromCopies | ScriptableRenderPipeline/HDRenderPipeline/HDRP/Editor/Material/TerrainBlendPaint/TerrainBlendPaintUI.cs:236-277 | with unique property names, each selected property's key ends the loop holding the value its own iteration copied |
| LayerSync.SynchronizeLayerProperties | ScriptableRenderPipeline/HDRenderPipeline/HDRP/Editor/Material/TerrainBlendPaint/TerrainBlendPaintUI.cs:227-279 | an index outside the layer array faults and changes nothing; a null layer material changes nothing; otherwise only keys written by a selected declaration can change, and no key is added |
| LayerSync.SynchronizeLayerCopies | ScriptableRenderPipeline/HDRenderPipeline/HDRP/Editor/Material/TerrainBlendPaint/TerrainBlendPaintUI.cs:240-273 | every selected property of the layer material that the layered material has lands, converted by its type, in `name + layerIndex` (with the flag off this includes the five UV names) |
| LayerSync.SynchronizeLayerKeepsExcluded | ScriptableRenderPipeline/HDRenderPipeline/HDRP/Editor/Material/TerrainBlendPaint/TerrainBlendPaintUI.cs:230-242 | with UV mapping excluded, the five excluded properties of layer slots below ten keep their values |
| LayerSync.SyncLayers | ScriptableRenderPipeline/HDRenderPipeline/HDRP/Editor/Material/TerrainBlendPaint/TerrainBlendPaintUI.cs:208-211 | the layer loop faults exactly when it runs past the layer array, and never adds or removes a property |
| LayerSync.SyncLayersKeeps | ScriptableRenderPipeline/HDRenderPipeline/HDRP/Editor/Material/TerrainBlendPaint/TerrainBlendPaintUI.cs:208-211 | a key that no layer in the loop writes keeps its value |
| LayerSync.SyncLayersCopies | ScriptableRenderPipeline/HDRenderPipeline/HDRP/Editor/Material/TerrainBlendPaint/TerrainBlendPaintUI.cs:208-211 | a selected property of layer l that the material has holds, after the loop, the value layer l copied, unless a later layer writes the same key |
| LayerSync.SyncLayersKeepsExcluded | ScriptableRenderPipeline/HDRenderPipeline/HDRP/Editor/Material/TerrainBlendPaint/TerrainBlendPaintUI.cs:208-211 | the layer loop never changes an excluded UV property of the first ten slots |
| LayerSync.SynchronizeAllLayers | ScriptableRenderPipeline/HDRenderPipeline/HDRP/Editor/Material/TerrainBlendPaint/TerrainBlendPaintUI.cs:198-214 | no loaded layers means no change; it faults exactly when the layer count exceeds the number of layer materials; no property is added or removed |
| LayerSync.SynchronizeAllLayersKeepsExcluded | ScriptableRenderPipeline/HDRenderPipeline/HDRP/Editor/Material/TerrainBlendPaint/TerrainBlendPaintUI.cs:198-214 | synchronizing all layers never changes the excluded UV properties of the first ten slots |
| LayerSync.SynchronizeAllLayersCopies | ScriptableRenderPipeline/HDRenderPipeline/HDRP/Editor/Material/TerrainBlendPaint/TerrainBlendPaintUI.cs:198-214 | for a layer below the count, each selected property the material has ends holding what that layer copied, unless a later layer writes the same key |
| LayerSync.SynchronizeAllLayersCopiesOnce | ScriptableRenderPipeline/HDRenderPipeline/HDRP/Editor/Material/TerrainBlendPaint/TerrainBlendPaintUI.cs:198-214 | when no other layer below the count writes the key, it ends holding the layer material's value converted by type, from the material's value before the call |
| DisplacementCheck.ScanCorrectedAgrees | ScriptableRenderPipeline/HDRenderPipeline/HDRP/Editor/Material/TerrainBlendPaint/TerrainBlendPaintUI.cs:972-999 | the scan (with "nothing seen yet" kept apart) matches exactly when all height-mapped slots share one UV base value, equal to the first one seen |
| DisplacementCheck.ReadSlots | ScriptableRenderPipeline/HDRenderPipeline/HDRP/Editor/Material/TerrainBlendPaint/TerrainBlendPaintUI.cs:975-998 | the check reads, for each of the four slots in order, whether it has a height map and its `_UVBase` value |
| DisplacementCheck.ScanAsWritten | ScriptableRenderPipeline/HDRenderPipeline/HDRP/Editor/Material/TerrainBlendPaint/TerrainBlendPaintUI.cs:972-999 | the scan as written, with -1.0 as "nothing seen yet"; its meaning is stated by `ScanAsWrittenIsCorrected` and `SentinelHidesMismatch` |
| DisplacementCheck.ScanCorrected | ScriptableRenderPipeline/HDRenderPipeline/HDRP/Editor/Material/TerrainBlendPaint/TerrainBlendPaintUI.cs:972-999 | the scan with "nothing seen yet" as an absent value; its meaning is stated by `ScanCorrectedAgrees` |
| DisplacementCheck.ScanAsWrittenIsCorrected | ScriptableRenderPipeline/HDRenderPipeline/HDRP/Editor/Material/TerrainBlendPaint/TerrainBlendPaintUI.cs:972-999 | when no height-mapped slot holds -1.0, the scan with the -1.0 sentinel gives the same answer as the corrected scan |
| DisplacementCheck.ShowsLayerMappingWarningMeaning | ScriptableRenderPipeline/HDRenderPipeline/HDRP/Editor/Material/TerrainBlendPaint/TerrainBlendPaintUI.cs:970-1005 | the warning shows exactly in pixel displacement mode when two of the four layers that have a height map use different `_UVBase` values, whatever the layer count |
| DisplacementCheck.ShowsLayerMappingWarningAsWrittenAgrees | ScriptableRenderPipeline/HDRenderPipeline/HDRP/Editor/Material/TerrainBlendPaint/TerrainBlendPaintUI.cs:970-1005 | the inspector's own check equals the corrected one unless a height-mapped layer has `_UVBase` = -1.0 |
| DisplacementCheck.ShowsLayerMappingWarningAsWritten | ScriptableRenderPipeline/HDRenderPipeline/HDRP/Editor/Material/TerrainBlendPaint/TerrainBlendPaintUI.cs:970-1005 | the warning as the inspector computes it; related to the corrected warning by `ShowsLayerMappingWarningAsWrittenAgrees` |
| DisplacementCheck.ShowsLayerMappingWarning | ScriptableRenderPipeline/HDRenderPipeline/HDRP/Editor/Material/TerrainBlendPaint/TerrainBlendPaintUI.cs:970-1005 | the corrected warning; its meaning is stated by `ShowsLayerMappingWarningMeaning` |
| DisplacementCheck.SentinelHidesMismatch | ScriptableRenderPipeline/HDRenderPipeline/HDRP/Editor/Material/TerrainBlendPaint/TerrainBlendPaintUI.cs:972-999 | slots (height map, -1.0) and (height map, 2.0): the sentinel scan matches, the corrected scan does not |
| DisplacementCheck.SentinelMaterialHidesMismatch | ScriptableRenderPipeline/HDRenderPipeline/HDRP/Editor/Material/TerrainBlendPaint/TerrainBlendPaintUI.cs:970-1005 | a concrete material whose height-mapped layers disagree on which the inspector shows no warning |
| AtmosphericScattering.PushNeutralShaderParameters | ScriptableRenderPipeline/HDRenderPipeline/HDRP/Sky/AtmosphericScattering/AtmosphericScattering.cs:37-40 | the neutral push sets only the fog type, to None |
| AtmosphericScattering.FogTypeCodeInjective | ScriptableRenderPipeline/HDRenderPipeline/HDRP/Sky/AtmosphericScattering/AtmosphericScattering.cs:106-111 | two fog types push the same float exactly when they are the same type |
| AtmosphericScattering.PushShaderParametersCommon | ScriptableRenderPipeline/HDRenderPipeline/HDRP/Sky/AtmosphericScattering/AtmosphericScattering.cs:42-54 | the five global sets of the common push, in order; their effect is stated by `PushShaderParametersCommonGlobals` |
| AtmosphericScattering.Globals | ScriptableRenderPipeline/HDRenderPipeline/HDRP/Sky/AtmosphericScattering/AtmosphericScattering.cs:42-54 | running global sets in order; characterized by `GlobalsLastWrite` and `GlobalsUnset` |
| AtmosphericScattering.GlobalsSnoc | ScriptableRenderPipeline/HDRenderPipeline/HDRP/Sky/AtmosphericScattering/AtmosphericScattering.cs:42-54 | one more set writes its name and keeps every other value |
| AtmosphericScattering.PushShaderParametersCommonGlobals | ScriptableRenderPipeline/HDRenderPipeline/HDRP/Sky/AtmosphericScattering/AtmosphericScattering.cs:42-54 | after the common push: the fog type is the requested one when scattering is enabled and None otherwise; the packing is (r, g, b, density) and (near, far, maxMip, 0); exactly five parameters are set |
| AtmosphericScattering.PushDisabledIsNeutralType | ScriptableRenderPipeline/HDRenderPipeline/HDRP/Sky/AtmosphericScattering/AtmosphericScattering.cs:37-47 | with scattering disabled, the pushed fog type is the neutral push's, whatever type was requested |
| AtmosphericScattering.PushedFogOff | ScriptableRenderPipeline/HDRenderPipeline/HDRP/Sky/AtmosphericScattering/AtmosphericScattering.cs:37-47 | the pushed fog type equals the neutral push's exactly when scattering is disabled or the requested type is None |
| AtmosphericScattering.OnEnable | ScriptableRenderPipeline/HDRenderPipeline/HDRP/Sky/AtmosphericScattering/AtmosphericScattering.cs:56-63 | it bakes the gradient into the cached texture exactly when there is a gradient and no cached texture; in every other case the state is unchanged |
| AtmosphericScattering.OnEnableIdempotent | ScriptableRenderPipeline/HDRenderPipeline/HDRP/Sky/AtmosphericScattering/AtmosphericScattering.cs:56-63 | enabling twice is enabling once |
| AtmosphericScattering.OnValidate | ScriptableRenderPipeline/HDRenderPipeline/HDRP/Sky/AtmosphericScattering/AtmosphericScattering.cs:65-83 | the override flag is set exactly in Gradient mode; outside it the texture is untouched; in it the texture is a fresh bake when there is a gradient and null otherwise; nothing else changes |
| AtmosphericScattering.OnValidateIdempotent | ScriptableRenderPipeline/HDRenderPipeline/HDRP/Sky/AtmosphericScattering/AtmosphericScattering.cs:65-83 | validating twice is validating once |
| AtmosphericScattering.OnEnableAfterValidate | ScriptableRenderPipeline/HDRenderPipeline/HDRP/Sky/AtmosphericScattering/AtmosphericScattering.cs:56-83 | in Gradient mode, enabling after validating changes nothing |
| AtmosphericScattering.OnValidateAfterEnable | ScriptableRenderPipeline/HDRenderPipeline/HDRP/Sky/AtmosphericScattering/AtmosphericScattering.cs:56-83 | in Gradient mode, validating after enabling gives the same state as validating alone |
| AtmosphericScattering.SampleTimeOf | ScriptableRenderPipeline/HDRenderPipeline/HDRP/Sky/AtmosphericScattering/AtmosphericScattering.cs:94 | a sample position lies in [0, 1], and it is not a number exactly for a one-pixel texture |
| AtmosphericScattering.SampleTimesSpan | ScriptableRenderPipeline/HDRenderPipeline/HDRP/Sky/AtmosphericScattering/AtmosphericScattering.cs:92-96 | with two pixels or more, the first sample is at 0 and the last at 1 |
| AtmosphericScattering.SampleTimesEvenlySpaced | ScriptableRenderPipeline/HDRenderPipeline/HDRP/Sky/AtmosphericScattering/AtmosphericScattering.cs:92-96 | consecutive samples are 1/(resolution - 1) apart and strictly increasing |
| AtmosphericScattering.MakeTextureFromGradient | ScriptableRenderPipeline/HDRenderPipeline/HDRP/Sky/AtmosphericScattering/AtmosphericScattering.cs:85-102 | the baked texture is `resolution` by 1 with one pixel per sample, no mip chain, clamped, alpha as transparency |
| AtmosphericScattering.FillGradientPixels | ScriptableRenderPipeline/HDRenderPipeline/HDRP/Sky/AtmosphericScattering/AtmosphericScattering.cs:91-96 | the pixel loop fills pixel i with the gradient evaluated at sample i, for every i |
| AtmosphericScattering.MakeTextureFromGradientEnds | ScriptableRenderPipeline/HDRenderPipeline/HDRP/Sky/AtmosphericScattering/AtmosphericScattering.cs:85-102 | with two pixels or more, the texture starts with the gradient's color at 0 and ends with its color at 1 |
| AtmosphericScattering.GlobalsLastWrite | ScriptableRenderPipeline/HDRenderPipeline/HDRP/Sky/AtmosphericScattering/AtmosphericScattering.cs:44-53 | after a sequence of global sets, a parameter holds the value of the last set of its name |
| AtmosphericScattering.GlobalsUnset | ScriptableRenderPipeline/HDRenderPipeline/HDRP/Sky/AtmosphericScattering/AtmosphericScattering.cs:44-53 | a parameter that no command sets has no value afterwards |

## Left out

- The IMGUI drawing of both scripts is not modelled: foldouts, property fields, layer GUIs, and every part of `OnGUI` except the displacement check. It is presentation only.
- `InitializeMaterialLayers`, `SaveMaterialLayers`, `Undo`, `AssetDatabase`, `AssetImporter.userData` and the JSON layer references are not modelled. `SynchronizeAllLayers` takes the layer materials they would load as a parameter: `None` stands for no user data.
- `SetupBaseLitKeywords` and `SetupBaseLitMaterialPass` are not part of this model. The keyword setup starts from the set they leave.
- The instance method `SynchronizeAllLayersProperties` is not modelled separately. It is the same loop as `SyncLayers`, bounded by the GUI's layer count, with the exclusion flag as a parameter.
- The `InvTilingScale` precompute is float arithmetic in GUI handlers and is not modelled.
- Floats are exact reals. Float rounding in the sample positions and in comparisons is not modelled, and neither is overflow of the int cast.
- `Texture2D` creation, `SetPixels`/`Apply`, and `Gradient.Evaluate` are host calls. The gradient evaluator is a function parameter, and a texture is a record of its settings and pixels.
- `MakeTextureFromGradient` with a one-pixel texture computes 0/0. This is modelled as a `NaN` sample position that is handed to the evaluator. What the host does with it is not modelled.
- Volume blending, parameter clamping (`ClampedFloatParameter`, `MinFloatParameter`), `FogGradientParameter.Interp` (commented out in the source) and the per-fog-type subclasses that call the push functions are not modelled.
- The numeric codes of `UVBaseMapping`, `UVDetailMapping`, `NormalMapSpace`, `BaseLitGUI.MaterialId` and `DisplacementMode` are declared outside these files. The model uses the HDRP declaration order.
- `GetFloat`, `GetTexture` and friends on a missing or mistyped property return the host defaults listed above. The host's error logging is not modelled.
- `SetTexture` in the sync keeps the destination's offset and scale. When the destination held no texture, it gets the defaults (0,0) and (1,1).
- A layer material that is the layered material itself is not modelled. Sync reads the layer material as it was before the copy.
- SynchronizeLayerKeepsExcluded: stated only for layer slots below ten. A per-layer name such as `_UVBase10` can also be spelled as a non-excluded `_UVBase1` plus layer 0, so for higher slots the claim does not hold in general.
- SyncLayersKeepsExcluded: only layer slots below ten, for the same reason.
- SynchronizeAllLayersKeepsExcluded: only layer slots below ten, for the same reason.
- LayerMapping.SetupLayersMappingKeywordsNames: stated for canonical keyword sets only. A set that holds an inspector name as a plain `Other` name is a second spelling of a canonical set, not a different material state.
- MaterialKeywords.SetupMaterialKeywordsNames: canonical keyword sets only, for the same reason.
- SynchronizeLayerCopies: assumes the layer shader declares each property name once. With a repeated name, the last declaration's copy wins.

## Findings

| source | as written | input that shows it | evidently intended | confidence | as-written member | corrected member |
|---|---|---|---|---|---|---|
| ScriptableRenderPipeline/HDRenderPipeline/HDRP/Editor/Material/TerrainBlendPaint/TerrainBlendPaintUI.cs:972-999 | the value -1.0 means "no height-mapped layer seen yet", so a layer whose `_UVBase` really holds -1.0 is taken as unseen and the next height-mapped layer's value is adopted without comparison | pixel displacement; layers 0 and 1 have height maps; `_UVBase0` = -1.0, `_UVBase1` = 2.0; no warning, though the layers disagree | warn whenever two height-mapped layers use different UV base values | low, not executed: -1.0 is not a valid mapping code, so only a script or hand-edited asset can store it | DisplacementCheck.SentinelMaterialHidesMismatch | DisplacementCheck.ShowsLayerMappingWarningMeaning |
