/** `SynchronizeLayerProperties` and `SynchronizeAllLayers` of the terrain
    blend-paint inspector: each layer of the layered material copies the
    properties of the Lit material referenced for it, property `name` of the
    layer material landing in `name + layerIndex` of the layered one. */
module LayerSync {
  import opened Host
  import opened Names
  import opened Keywords
  import opened Materials
  import opened LitNames

  /** Properties that stay per-layer when UV mapping properties are excluded. */
  const ExclusionList: seq<string> := [TexWorldScaleName, UVBaseName, UVMappingMaskName, UVDetailName, UVDetailsMappingMaskName]

  /** `!exclusionList.Contains(propertyName) || !excludeUVMappingProperties`. */
  predicate Selected(d: PropDecl, exclude: bool)
  {
    d.name !in ExclusionList || !exclude
  }

  /** Offset and scale a `SetTexture` call leaves in place: the destination's
      own, or the host defaults when the destination holds no texture. */
  function KeptOffset(v: Value): Vec2
  {
    if v.TextureValue? then v.offset else Vec2(0.0, 0.0)
  }

  function KeptScale(v: Value): Vec2
  {
    if v.TextureValue? then v.scale else Vec2(1.0, 1.0)
  }

  /** The value the switch on the property type writes over `prev`: the layer
      material's value of the declared kind, with a texture's offset and scale
      taken from the layer material only when UV mapping is not excluded. */
  function Copied(prev: Value, src: Material, d: PropDecl, exclude: bool): (v: Value)
    ensures d.kind == ColorKind <==> v.ColorValue?
    ensures d.kind == FloatKind || d.kind == RangeKind <==> v.FloatValue?
    ensures d.kind == VectorKind <==> v.VectorValue?
    ensures d.kind == TexEnvKind <==> v.TextureValue?
    ensures v.ColorValue? ==> v.c == GetColor(src, d.name)
    ensures v.FloatValue? ==> v.x == GetFloat(src, d.name)
    ensures v.VectorValue? ==> v.v == GetVector(src, d.name)
    ensures v.TextureValue? ==> v.tex == GetTexture(src, d.name)
    ensures v.TextureValue? && exclude ==> v.offset == KeptOffset(prev) && v.scale == KeptScale(prev)
    ensures v.TextureValue? && !exclude ==>
              v.offset == GetTextureOffset(src, d.name) && v.scale == GetTextureScale(src, d.name)
  {
    match d.kind
    case ColorKind => ColorValue(GetColor(src, d.name))
    case FloatKind => FloatValue(GetFloat(src, d.name))
    case RangeKind => FloatValue(GetFloat(src, d.name))
    case VectorKind => VectorValue(GetVector(src, d.name))
    case TexEnvKind =>
      if exclude then TextureValue(GetTexture(src, d.name), KeptOffset(prev), KeptScale(prev))
      else TextureValue(GetTexture(src, d.name), GetTextureOffset(src, d.name), GetTextureScale(src, d.name))
  }

  /** Same shader, same keywords, same property names. */
  predicate SameShape(a: Material, b: Material)
  {
    a.shader == b.shader && a.keywords == b.keywords && a.props.Keys == b.props.Keys
  }

  /** One iteration of the property loop: only the key `d.name + layerIndex`
      can change, and only when the property is selected and the layered
      material has that key. */
  function CopyProperty(dst: Material, src: Material, d: PropDecl, layerIndex: nat, exclude: bool): (r: Material)
    ensures SameShape(r, dst)
    ensures Selected(d, exclude) && HasProperty(dst, Suffixed(d.name, layerIndex)) ==>
              r.props[Suffixed(d.name, layerIndex)] == Copied(dst.props[Suffixed(d.name, layerIndex)], src, d, exclude)
    ensures forall key :: key in dst.props && (key != Suffixed(d.name, layerIndex) || !Selected(d, exclude)) ==>
              r.props[key] == dst.props[key]
  {
    var key := Suffixed(d.name, layerIndex);
    if Selected(d, exclude) && HasProperty(dst, key) then
      dst.(props := dst.props[key := Copied(dst.props[key], src, d, exclude)])
    else dst
  }

  /** Some selected declaration of `decls` writes `key` for this layer. */
  predicate WrittenBy(decls: seq<PropDecl>, layerIndex: nat, exclude: bool, key: string)
  {
    exists d :: d in decls && Selected(d, exclude) && key == Suffixed(d.name, layerIndex)
  }

  /** The property loop over the declarations of the layer material's shader,
      in order: no key is added or removed, and a key no selected declaration
      maps to keeps its value. */
  function SyncFrom(dst: Material, src: Material, decls: seq<PropDecl>, layerIndex: nat, exclude: bool): (r: Material)
    decreases |decls|
    ensures SameShape(r, dst)
    ensures forall key :: key in dst.props && !WrittenBy(decls, layerIndex, exclude, key) ==>
              r.props[key] == dst.props[key]
  {
    if |decls| == 0 then dst
    else SyncFrom(CopyProperty(dst, src, decls[0], layerIndex, exclude), src, decls[1..], layerIndex, exclude)
  }

  /** The shader declares each property name once. */
  predicate UniqueNames(decls: seq<PropDecl>)
  {
    forall a, b :: 0 <= a < b < |decls| ==> decls[a].name != decls[b].name
  }

  /** With unique names, a selected declaration's key ends up holding the
      value its own iteration copied: no later iteration writes it again. */
  lemma {:induction false} SyncFromCopies(dst: Material, src: Material, decls: seq<PropDecl>, layerIndex: nat,
                                          exclude: bool, j: nat)
    decreases |decls|
    requires j < |decls| && UniqueNames(decls)
    requires Selected(decls[j], exclude) && Suffixed(decls[j].name, layerIndex) in dst.props
    ensures var key := Suffixed(decls[j].name, layerIndex);
      SyncFrom(dst, src, decls, layerIndex, exclude).props[key] == Copied(dst.props[key], src, decls[j], exclude)
  {
    var key := Suffixed(decls[j].name, layerIndex);
    var next := CopyProperty(dst, src, decls[0], layerIndex, exclude);
    var rest := decls[1..];
    if j == 0 {
      assert next.props[key] == Copied(dst.props[key], src, decls[0], exclude);
      forall d | d in rest && Selected(d, exclude)
        ensures key != Suffixed(d.name, layerIndex)
      {
        if key == Suffixed(d.name, layerIndex) {
          SuffixedSameLayer(decls[0].name, d.name, layerIndex);
        }
      }
    } else {
      if key == Suffixed(decls[0].name, layerIndex) {
        SuffixedSameLayer(decls[j].name, decls[0].name, layerIndex);
        assert false;
      }
      assert next.props[key] == dst.props[key];
      assert rest[j - 1] == decls[j];
      assert UniqueNames(rest) by {
        forall a, b | 0 <= a < b < |rest|
          ensures rest[a].name != rest[b].name
        {
          assert rest[a] == decls[a + 1] && rest[b] == decls[b + 1];
        }
      }
      SyncFromCopies(next, src, rest, layerIndex, exclude, j - 1);
    }
  }

  /** Outcome of a synchronization: the layered material afterwards, and
      whether a layer index fell outside the layer array (C# throws
      `IndexOutOfRangeException`; writes made before it stay). */
  datatype SyncResult = Synced(material: Material) | OutOfRange(material: Material)

  /** `SynchronizeLayerProperties(material, layers, layerIndex, exclude)`:
      a missing layer material (null) changes nothing. */
  function SynchronizeLayerProperties(material: Material, layers: seq<Option<Material>>, layerIndex: int,
                                      exclude: bool): (r: SyncResult)
    ensures r.OutOfRange? <==> !(0 <= layerIndex < |layers|)
    ensures r.OutOfRange? ==> r.material == material
    ensures SameShape(r.material, material)
    ensures 0 <= layerIndex < |layers| && layers[layerIndex].None? ==> r.material == material
    ensures 0 <= layerIndex < |layers| && layers[layerIndex].Some? ==>
              forall key :: key in material.props && !WrittenBy(layers[layerIndex].value.shader, layerIndex, exclude, key)
                ==> r.material.props[key] == material.props[key]
  {
    if !(0 <= layerIndex < |layers|) then OutOfRange(material)
    else match layers[layerIndex]
      case None => Synced(material)
      case Some(src) => Synced(SyncFrom(material, src, src.shader, layerIndex, exclude))
  }

  /** Each selected property of the layer material lands, converted by its
      declared kind, in the layered material's property `name + layerIndex`
      when the layered material has it (the layer shader declaring each name once). */
  lemma SynchronizeLayerCopies(material: Material, layers: seq<Option<Material>>, layerIndex: int,
                               exclude: bool, j: nat)
    requires 0 <= layerIndex < |layers| && layers[layerIndex].Some?
    requires var src := layers[layerIndex].value;
      && UniqueNames(src.shader) && j < |src.shader| && Selected(src.shader[j], exclude)
      && Suffixed(src.shader[j].name, layerIndex) in material.props
    ensures var src := layers[layerIndex].value;
      var key := Suffixed(src.shader[j].name, layerIndex);
      SynchronizeLayerProperties(material, layers, layerIndex, exclude).material.props[key]
        == Copied(material.props[key], src, src.shader[j], exclude)
  {
    var src := layers[layerIndex].value;
    SyncFromCopies(material, src, src.shader, layerIndex, exclude, j);
  }

  /** With UV mapping excluded, the UV mapping properties of layer slots below
      ten keep their values through one layer's synchronization. */
  lemma SynchronizeLayerKeepsExcluded(material: Material, layers: seq<Option<Material>>, layerIndex: int,
                                      name: string, j: nat)
    requires name in ExclusionList && j < 10 && Suffixed(name, j) in material.props
    ensures SynchronizeLayerProperties(material, layers, layerIndex, true).material.props[Suffixed(name, j)]
            == material.props[Suffixed(name, j)]
  {
    var key := Suffixed(name, j);
    if 0 <= layerIndex < |layers| && layers[layerIndex].Some? {
      var src := layers[layerIndex].value;
      if WrittenBy(src.shader, layerIndex, true, key) {
        var d :| d in src.shader && Selected(d, true) && key == Suffixed(d.name, layerIndex);
        SuffixedNonDigitEnd(d.name, name, layerIndex, j);
        assert false;
      }
    }
  }

  /** The layer loop of `SynchronizeAllLayers` from layer i up to n: it stops
      at the first layer index outside the layer array. */
  function SyncLayers(material: Material, layers: seq<Option<Material>>, i: nat, n: int): (r: SyncResult)
    decreases n - i
    ensures r.OutOfRange? <==> i < n && |layers| < n
    ensures SameShape(r.material, material)
  {
    if n <= i then Synced(material)
    else
      var s := SynchronizeLayerProperties(material, layers, i, true);
      if s.OutOfRange? then s
      else SyncLayers(s.material, layers, i + 1, n)
  }

  /** No layer from i up to n that has a material writes `key`. */
  predicate NoLayerWrites(layers: seq<Option<Material>>, i: int, n: int, key: string)
  {
    forall l :: i <= l < n && 0 <= l < |layers| && layers[l].Some? ==> !WrittenBy(layers[l].value.shader, l, true, key)
  }

  /** A key no visited layer writes keeps its value through the layer loop. */
  lemma {:induction false} SyncLayersKeeps(material: Material, layers: seq<Option<Material>>, i: nat, n: int, key: string)
    decreases n - i
    requires key in material.props && NoLayerWrites(layers, i, n, key)
    ensures SyncLayers(material, layers, i, n).material.props[key] == material.props[key]
  {
    if i < n {
      var s := SynchronizeLayerProperties(material, layers, i, true);
      if !s.OutOfRange? {
        SyncLayersKeeps(s.material, layers, i + 1, n, key);
      }
    }
  }

  /** In a run that does not fault, a selected property of layer l's material
      lands in `name + l` as layer l's own step copies it over the value the
      earlier layers left there, when no later layer writes that key again. */
  lemma {:induction false} SyncLayersCopies(material: Material, layers: seq<Option<Material>>, i: nat, n: int,
                                            l: nat, j: nat)
    decreases n - i
    requires i <= l < n <= |layers| && layers[l].Some?
    requires var src := layers[l].value;
      && UniqueNames(src.shader) && j < |src.shader| && Selected(src.shader[j], true)
      && Suffixed(src.shader[j].name, l) in material.props
    requires NoLayerWrites(layers, l + 1, n, Suffixed(layers[l].value.shader[j].name, l))
    ensures var src := layers[l].value;
      var key := Suffixed(src.shader[j].name, l);
      var before := SyncLayers(material, layers, i, l).material;
      SyncLayers(material, layers, i, n).material.props[key] == Copied(before.props[key], src, src.shader[j], true)
  {
    var src := layers[l].value;
    var key := Suffixed(src.shader[j].name, l);
    var s := SynchronizeLayerProperties(material, layers, i, true);
    if i == l {
      SynchronizeLayerCopies(material, layers, l, true, j);
      SyncLayersKeeps(s.material, layers, l + 1, n, key);
    } else {
      SyncLayersCopies(s.material, layers, i + 1, n, l, j);
    }
  }

  /** The layer loop never changes the UV mapping properties of the first ten layer slots. */
  lemma {:induction false} SyncLayersKeepsExcluded(material: Material, layers: seq<Option<Material>>, i: nat, n: int,
                                                   name: string, j: nat)
    decreases n - i
    requires name in ExclusionList && j < 10 && Suffixed(name, j) in material.props
    ensures SyncLayers(material, layers, i, n).material.props[Suffixed(name, j)] == material.props[Suffixed(name, j)]
  {
    if i < n {
      var s := SynchronizeLayerProperties(material, layers, i, true);
      SynchronizeLayerKeepsExcluded(material, layers, i, name, j);
      if !s.OutOfRange? {
        SyncLayersKeepsExcluded(s.material, layers, i + 1, n, name, j);
      }
    }
  }

  /** `SynchronizeAllLayers(material)`: the layer materials come from the
      asset's user data (`layers`, None when it holds none); layers
      `0 .. (int)_LayerCount - 1` are synchronized with UV mapping excluded.
      Nothing changes without layer data, and the run faults exactly when the
      layer count exceeds the number of layer materials. */
  function SynchronizeAllLayers(material: Material, layers: Option<seq<Option<Material>>>): (r: SyncResult)
    ensures layers.None? ==> r == Synced(material)
    ensures r.OutOfRange? <==> layers.Some? && |layers.value| < GetInt(material, LayerCountName)
    ensures SameShape(r.material, material)
  {
    match layers
    case None => Synced(material)
    case Some(ls) => SyncLayers(material, ls, 0, GetInt(material, LayerCountName))
  }

  /** `SynchronizeAllLayers` never changes the UV mapping properties of the
      first ten layer slots. */
  lemma SynchronizeAllLayersKeepsExcluded(material: Material, layers: Option<seq<Option<Material>>>,
                                          name: string, j: nat)
    requires name in ExclusionList && j < 10 && Suffixed(name, j) in material.props
    ensures SynchronizeAllLayers(material, layers).material.props[Suffixed(name, j)] == material.props[Suffixed(name, j)]
  {
    if layers.Some? {
      SyncLayersKeepsExcluded(material, layers.value, 0, GetInt(material, LayerCountName), name, j);
    }
  }

  /** `SynchronizeAllLayers` copies every layer below the layer count: in a run
      that does not fault, a selected (not UV mapping) property of layer l's
      material lands in `name + l`, converted by its declared kind over the
      value the earlier layers left there, unless a later layer writes the same key. */
  lemma SynchronizeAllLayersCopies(material: Material, layers: Option<seq<Option<Material>>>, l: nat, j: nat)
    requires layers.Some? && l < GetInt(material, LayerCountName) <= |layers.value| && layers.value[l].Some?
    requires var src := layers.value[l].value;
      && UniqueNames(src.shader) && j < |src.shader| && Selected(src.shader[j], true)
      && Suffixed(src.shader[j].name, l) in material.props
    requires NoLayerWrites(layers.value, l + 1, GetInt(material, LayerCountName), Suffixed(layers.value[l].value.shader[j].name, l))
    ensures var src := layers.value[l].value;
      var key := Suffixed(src.shader[j].name, l);
      var before := SyncLayers(material, layers.value, 0, l).material;
      SynchronizeAllLayers(material, layers).material.props[key] == Copied(before.props[key], src, src.shader[j], true)
  {
    SyncLayersCopies(material, layers.value, 0, GetInt(material, LayerCountName), l, j);
  }

  /** When no other layer below the count writes the key, the copy is made
      over the layered material's original value. */
  lemma SynchronizeAllLayersCopiesOnce(material: Material, layers: Option<seq<Option<Material>>>, l: nat, j: nat)
    requires layers.Some? && l < GetInt(material, LayerCountName) <= |layers.value| && layers.value[l].Some?
    requires var src := layers.value[l].value;
      && UniqueNames(src.shader) && j < |src.shader| && Selected(src.shader[j], true)
      && Suffixed(src.shader[j].name, l) in material.props
    requires var key := Suffixed(layers.value[l].value.shader[j].name, l);
      NoLayerWrites(layers.value, 0, l, key) && NoLayerWrites(layers.value, l + 1, GetInt(material, LayerCountName), key)
    ensures var src := layers.value[l].value;
      var key := Suffixed(src.shader[j].name, l);
      SynchronizeAllLayers(material, layers).material.props[key] == Copied(material.props[key], src, src.shader[j], true)
  {
    var key := Suffixed(layers.value[l].value.shader[j].name, l);
    SynchronizeAllLayersCopies(material, layers, l, j);
    SyncLayersKeeps(material, layers.value, 0, l, key);
  }
}
