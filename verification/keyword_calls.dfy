/** The texture and surface keyword steps of `SetupMaterialKeywordsAndPass`
    as the source issues them, one `SetKeyword` call after another, and their
    agreement with the steps that set all their keywords at once. */
module KeywordCalls {
  import opened Keywords
  import opened Enums
  import opened MaterialKeywords

  /** The calls of one iteration name each texture keyword of layer i once,
      set it to the state the layer's textures give it, and name no other keyword. */
  lemma LayerTextureCallsFor(t: LayerTextures, i: nat)
    ensures CallsFor(LayerTextureCalls(t, i), TextureKeywordsOf(i), (k: Keyword) => k.PerLayer? && TextureOn(t, k.family))
  {
    LayerTextureCallsWithin(t, i);
    LayerTextureCallsDistinct(t, i);
    LayerTextureCallsCover(t, i);
  }

  lemma LayerTextureCallsWithin(t: LayerTextures, i: nat)
    ensures CallsWithin(LayerTextureCalls(t, i), TextureKeywordsOf(i), (k: Keyword) => k.PerLayer? && TextureOn(t, k.family))
  {
    LayerTextureCallsOwned(t, i);
    LayerTextureCallsValues(t, i);
  }

  /** Each call of the iteration names a texture keyword of layer i. */
  lemma LayerTextureCallsOwned(t: LayerTextures, i: nat)
    ensures forall j :: 0 <= j < 8 ==> LayerTextureCalls(t, i)[j].k in TextureKeywordsOf(i)
  {
  }

  /** Each call of the iteration sets its keyword to the state `TextureOn` gives it. */
  lemma LayerTextureCallsValues(t: LayerTextures, i: nat)
    ensures forall j :: 0 <= j < 8 ==> LayerTextureCalls(t, i)[j].on == TextureOn(t, LayerTextureCalls(t, i)[j].k.family)
  {
  }

  lemma LayerTextureCallsDistinct(t: LayerTextures, i: nat)
    ensures CallsDistinct(LayerTextureCalls(t, i))
  {
    var calls := LayerTextureCalls(t, i);
    assert forall j :: 0 <= j < |calls| ==> calls[j].k == PerLayer(LayerTextureFamilies[j], i);
    assert forall j :: 0 <= j < |calls| ==> TextureCallIndex(LayerTextureFamilies[j]) == j;
  }

  lemma LayerTextureCallsCover(t: LayerTextures, i: nat)
    ensures CallsCover(LayerTextureCalls(t, i), TextureKeywordsOf(i))
  {
    var calls := LayerTextureCalls(t, i);
    forall k | k in TextureKeywordsOf(i)
      ensures exists j :: 0 <= j < |calls| && calls[j].k == k
    {
      assert calls[TextureCallIndex(k.family)].k == k;
    }
  }

  /** Setting the eight keywords at once is the source's sequence of calls. */
  lemma LayerTextureStepIsCalls(t: LayerTextures, kw: set<Keyword>, i: nat)
    ensures LayerTextureStep(t, kw, i) == ApplyCalls(kw, LayerTextureCalls(t, i))
  {
    var on := (k: Keyword) => k.PerLayer? && TextureOn(t, k.family);
    LayerTextureCallsFor(t, i);
    CallsAgree(kw, LayerTextureCalls(t, i), TextureKeywordsOf(i), on, LayerTextureStep(t, kw, i));
  }

  /** The calls after the loop name each surface keyword once, set it to the
      state the surface inputs give it, and name no other keyword. */
  lemma SurfaceCallsFor(s: SurfaceInputs)
    ensures CallsFor(SurfaceCalls(s), set g | g in SurfaceGlobals :: Global(g), (k: Keyword) => k.Global? && SurfaceOn(s, k.g))
  {
    SurfaceCallsWithin(s);
    SurfaceCallsDistinct(s);
    SurfaceCallsCover(s);
  }

  lemma SurfaceCallsWithin(s: SurfaceInputs)
    ensures CallsWithin(SurfaceCalls(s), set g | g in SurfaceGlobals :: Global(g), (k: Keyword) => k.Global? && SurfaceOn(s, k.g))
  {
    var calls := SurfaceCalls(s);
    assert forall j :: 0 <= j < |calls| ==> calls[j].k.Global? && calls[j].k.g in SurfaceGlobals;
  }

  lemma SurfaceCallsDistinct(s: SurfaceInputs)
    ensures CallsDistinct(SurfaceCalls(s))
  {
    var calls := SurfaceCalls(s);
    assert forall j :: 0 <= j < |calls| ==> calls[j].k.Global? && SurfaceCallIndex(calls[j].k.g) == j;
  }

  lemma SurfaceCallsCover(s: SurfaceInputs)
    ensures CallsCover(SurfaceCalls(s), set g | g in SurfaceGlobals :: Global(g))
  {
    var calls := SurfaceCalls(s);
    forall g | g in SurfaceGlobals
      ensures exists j :: 0 <= j < |calls| && calls[j].k == Global(g)
    {
      assert calls[SurfaceCallIndex(g)].k == Global(g);
    }
  }

  /** Setting the nine keywords at once is the source's sequence of calls. */
  lemma SurfaceStepIsCalls(s: SurfaceInputs, kw: set<Keyword>)
    ensures SurfaceStep(s, kw) == ApplyCalls(kw, SurfaceCalls(s))
  {
    var on := (k: Keyword) => k.Global? && SurfaceOn(s, k.g);
    SurfaceCallsFor(s);
    CallsAgree(kw, SurfaceCalls(s), set g | g in SurfaceGlobals :: Global(g), on, SurfaceStep(s, kw));
  }
}
