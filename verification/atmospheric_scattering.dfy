/** The fog settings of the HDRP atmospheric-scattering volume component:
    the global shader parameters it pushes, and the gradient texture it bakes
    from the fog-color gradient and keeps in step with the color mode.
    `Gradient.Evaluate` belongs to the host and is a parameter (`eval`). */
module AtmosphericScattering {
  import Host

  datatype FogType = None | Linear | Exponential

  datatype FogColorMode = ConstantColor | SkyColor | Gradient

  /** `(float)type`: the enum's declaration order. */
  function FogTypeCode(t: FogType): real
  {
    match t
    case None => 0.0
    case Linear => 1.0
    case Exponential => 2.0
  }

  function FogColorModeCode(c: FogColorMode): real
  {
    match c
    case ConstantColor => 0.0
    case SkyColor => 1.0
    case Gradient => 2.0
  }

  /** The fog-type codes are distinct: the float the shader reads tells the types apart. */
  lemma FogTypeCodeInjective(a: FogType, b: FogType)
    ensures FogTypeCode(a) == FogTypeCode(b) <==> a == b
  {
  }

  /** A host gradient object. */
  datatype GradientRef = GradientRef(id: nat)

  /** Where one pixel samples the gradient: `(float)i / (colors.Length - 1)`,
      which is 0/0, not a number, for a one-pixel texture. */
  datatype SampleTime = At(t: real) | NaN

  function SampleTimeOf(i: nat, resolution: nat): (s: SampleTime)
    requires i < resolution
    ensures resolution == 1 <==> s.NaN?
    ensures s.At? ==> 0.0 <= s.t <= 1.0
  {
    if resolution == 1 then NaN else At(i as real / (resolution - 1) as real)
  }

  /** The samples span the whole gradient: the first pixel at 0, the last at 1. */
  lemma SampleTimesSpan(resolution: nat)
    requires 2 <= resolution
    ensures SampleTimeOf(0, resolution) == At(0.0)
    ensures SampleTimeOf(resolution - 1, resolution) == At(1.0)
  {
    var d := (resolution - 1) as real;
    assert d != 0.0 && d / d == 1.0;
  }

  /** The samples are evenly spaced and strictly increasing. */
  lemma SampleTimesEvenlySpaced(i: nat, resolution: nat)
    requires 2 <= resolution && i + 1 < resolution
    ensures SampleTimeOf(i + 1, resolution).t - SampleTimeOf(i, resolution).t == 1.0 / (resolution - 1) as real
    ensures SampleTimeOf(i, resolution).t < SampleTimeOf(i + 1, resolution).t
  {
  }

  /** The texture `MakeTextureFromGradient` creates: `resolution` by 1,
      no mip chain, clamped, alpha as transparency. */
  datatype Texture = Texture(width: nat, height: nat, mipChain: bool, clamp: bool, alphaIsTransparency: bool,
                             pixels: seq<Host.Color>)

  const DefaultResolution: nat := 256

  /** `MakeTextureFromGradient(fogGradient, resolution)`. */
  function MakeTextureFromGradient(g: GradientRef, resolution: nat, eval: (GradientRef, SampleTime) -> Host.Color): (tex: Texture)
    ensures tex.width == resolution == |tex.pixels| && tex.height == 1
    ensures !tex.mipChain && tex.clamp && tex.alphaIsTransparency
  {
    Texture(resolution, 1, false, true, true, seq(resolution, (i: int) requires 0 <= i < resolution => eval(g, SampleTimeOf(i, resolution))))
  }

  /** The pixel loop of `MakeTextureFromGradient`. */
  method FillGradientPixels(g: GradientRef, resolution: nat, eval: (GradientRef, SampleTime) -> Host.Color)
    returns (colors: seq<Host.Color>)
    ensures colors == MakeTextureFromGradient(g, resolution, eval).pixels
  {
    colors := [];
    var i := 0;
    while i < resolution
      invariant 0 <= i <= resolution
      invariant |colors| == i
      invariant forall k :: 0 <= k < i ==> colors[k] == eval(g, SampleTimeOf(k, resolution))
    {
      colors := colors + [eval(g, SampleTimeOf(i, resolution))];
      i := i + 1;
    }
  }

  /** A baked texture of two pixels or more starts with the gradient's color
      at 0 and ends with its color at 1. */
  lemma MakeTextureFromGradientEnds(g: GradientRef, resolution: nat, eval: (GradientRef, SampleTime) -> Host.Color)
    requires 2 <= resolution
    ensures var tex := MakeTextureFromGradient(g, resolution, eval);
      tex.pixels[0] == eval(g, At(0.0)) && tex.pixels[resolution - 1] == eval(g, At(1.0))
  {
    SampleTimesSpan(resolution);
  }

  /** The fog parameters of the volume component; `textureOverride` is
      `gradientTexture.overrideState`. */
  datatype Scattering = Scattering(
    colorMode: FogColorMode, color: Host.Color, density: real,
    mipFogMaxMip: real, mipFogNear: real, mipFogFar: real,
    gradient: Host.Option<GradientRef>, gradientTexture: Host.Option<Texture>, textureOverride: bool)

  /** `OnEnable`: bake a texture when there is a gradient and no texture yet;
      otherwise nothing changes. */
  function OnEnable(s: Scattering, eval: (GradientRef, SampleTime) -> Host.Color): (r: Scattering)
    ensures !(s.gradientTexture.None? && s.gradient.Some?) ==> r == s
    ensures s.gradientTexture.None? && s.gradient.Some? ==>
              r == s.(gradientTexture := Host.Some(MakeTextureFromGradient(s.gradient.value, DefaultResolution, eval)))
  {
    if s.gradientTexture.None? && s.gradient.Some? then
      s.(gradientTexture := Host.Some(MakeTextureFromGradient(s.gradient.value, DefaultResolution, eval)))
    else s
  }

  /** `OnValidate`: outside gradient mode the texture stops overriding;
      in gradient mode it overrides and is rebaked from the gradient, or
      cleared when there is none. */
  function OnValidate(s: Scattering, eval: (GradientRef, SampleTime) -> Host.Color): (r: Scattering)
    ensures r.textureOverride <==> s.colorMode == Gradient
    ensures s.colorMode != Gradient ==> r.gradientTexture == s.gradientTexture
    ensures s.colorMode == Gradient ==> (r.gradientTexture.Some? <==> s.gradient.Some?)
    ensures s.colorMode == Gradient && s.gradient.Some? ==>
              r.gradientTexture == Host.Some(MakeTextureFromGradient(s.gradient.value, DefaultResolution, eval))
    ensures r.(gradientTexture := s.gradientTexture, textureOverride := s.textureOverride) == s
  {
    if s.colorMode != Gradient then s.(textureOverride := false)
    else if s.gradient.None? then s.(textureOverride := true, gradientTexture := Host.None)
    else s.(textureOverride := true,
            gradientTexture := Host.Some(MakeTextureFromGradient(s.gradient.value, DefaultResolution, eval)))
  }

  /** Validating twice is validating once. */
  lemma OnValidateIdempotent(s: Scattering, eval: (GradientRef, SampleTime) -> Host.Color)
    ensures OnValidate(OnValidate(s, eval), eval) == OnValidate(s, eval)
  {
  }

  /** Enabling twice is enabling once. */
  lemma OnEnableIdempotent(s: Scattering, eval: (GradientRef, SampleTime) -> Host.Color)
    ensures OnEnable(OnEnable(s, eval), eval) == OnEnable(s, eval)
  {
  }

  /** In gradient mode, enabling after validation changes nothing: the
      texture is already there whenever there is a gradient. */
  lemma OnEnableAfterValidate(s: Scattering, eval: (GradientRef, SampleTime) -> Host.Color)
    requires s.colorMode == Gradient
    ensures OnEnable(OnValidate(s, eval), eval) == OnValidate(s, eval)
  {
  }

  /** In gradient mode with a gradient, enabling then validating and
      validating alone leave the same state. */
  lemma OnValidateAfterEnable(s: Scattering, eval: (GradientRef, SampleTime) -> Host.Color)
    requires s.colorMode == Gradient
    ensures OnValidate(OnEnable(s, eval), eval) == OnValidate(s, eval)
  {
  }

  /** A global shader value set through the command buffer. */
  datatype GlobalValue =
    | GlobalFloat(x: real)
    | GlobalColor(c: Host.Color)
    | GlobalVector(v: Host.Vec4)
    | GlobalTexture(tex: Host.Option<Texture>)

  /** `cmd.SetGlobal*(name, value)`. */
  datatype SetGlobal = SetGlobal(name: string, value: GlobalValue)

  const TypeParam := "_AtmosphericScatteringType"
  const ColorModeParam := "_FogColorMode"
  const FogColorDensityParam := "_FogColorDensity"
  const MipFogParam := "_MipFogParameters"
  const GradientFogParam := "_FogGradientTexture"

  /** `PushNeutralShaderParameters`: fog off. */
  function PushNeutralShaderParameters(): (cmds: seq<SetGlobal>)
    ensures Globals(cmds) == map[TypeParam := GlobalFloat(FogTypeCode(None))]
  {
    [SetGlobal(TypeParam, GlobalFloat(FogTypeCode(None)))]
  }

  /** `PushShaderParametersCommon(cmd, type, frameSettings)`, with
      `frameSettings.enableAtmosphericScattering` as `enabled`. */
  function PushShaderParametersCommon(s: Scattering, fogType: FogType, enabled: bool): seq<SetGlobal>
  {
    [ SetGlobal(TypeParam, GlobalFloat(FogTypeCode(if enabled then fogType else None))),
      SetGlobal(ColorModeParam, GlobalFloat(FogColorModeCode(s.colorMode))),
      SetGlobal(FogColorDensityParam, GlobalColor(Host.Color(s.color.r, s.color.g, s.color.b, s.density))),
      SetGlobal(MipFogParam, GlobalVector(Host.Vec4(s.mipFogNear, s.mipFogFar, s.mipFogMaxMip, 0.0))),
      SetGlobal(GradientFogParam, GlobalTexture(s.gradientTexture)) ]
  }

  /** The global values after running the commands in order: a later set of
      a name wins. */
  function Globals(cmds: seq<SetGlobal>): map<string, GlobalValue>
    decreases |cmds|
  {
    if |cmds| == 0 then map[]
    else Globals(cmds[..|cmds| - 1])[cmds[|cmds| - 1].name := cmds[|cmds| - 1].value]
  }

  /** Running one more command sets its name to its value. */
  lemma GlobalsSnoc(cmds: seq<SetGlobal>, c: SetGlobal)
    ensures Globals(cmds + [c]) == Globals(cmds)[c.name := c.value]
  {
    assert (cmds + [c])[..|cmds|] == cmds;
  }

  /** A name has a value exactly when some command sets it, and the value is
      the one the last such command sets. */
  lemma {:induction false} GlobalsLastWrite(cmds: seq<SetGlobal>, name: string, i: nat)
    decreases |cmds|
    requires i < |cmds| && cmds[i].name == name
    requires forall j :: i < j < |cmds| ==> cmds[j].name != name
    ensures name in Globals(cmds) && Globals(cmds)[name] == cmds[i].value
  {
    var prefix := cmds[..|cmds| - 1];
    if i < |cmds| - 1 {
      GlobalsLastWrite(prefix, name, i);
    }
  }

  /** A name no command sets has no value. */
  lemma {:induction false} GlobalsUnset(cmds: seq<SetGlobal>, name: string)
    decreases |cmds|
    requires forall j :: 0 <= j < |cmds| ==> cmds[j].name != name
    ensures name !in Globals(cmds)
  {
    if |cmds| > 0 {
      GlobalsUnset(cmds[..|cmds| - 1], name);
    }
  }

  /** What the shader sees after the common push: the fog type only when
      atmospheric scattering is enabled in the frame settings, the color mode
      code, the fog color with the density in its alpha, the mip-fog near,
      far and max-mip, and the cached gradient texture; the five names are
      distinct, so no set overwrites another. */
  lemma PushShaderParametersCommonGlobals(s: Scattering, fogType: FogType, enabled: bool)
    ensures var g := Globals(PushShaderParametersCommon(s, fogType, enabled));
      && g.Keys == {TypeParam, ColorModeParam, FogColorDensityParam, MipFogParam, GradientFogParam}
      && g[TypeParam] == GlobalFloat(FogTypeCode(if enabled then fogType else None))
      && g[ColorModeParam] == GlobalFloat(FogColorModeCode(s.colorMode))
      && g[FogColorDensityParam] == GlobalColor(s.color.(a := s.density))
      && g[MipFogParam] == GlobalVector(Host.Vec4(s.mipFogNear, s.mipFogFar, s.mipFogMaxMip, 0.0))
      && g[GradientFogParam] == GlobalTexture(s.gradientTexture)
  {
    var cmds := PushShaderParametersCommon(s, fogType, enabled);
    GlobalsSnoc([], cmds[0]);
    GlobalsSnoc(cmds[..1], cmds[1]);
    GlobalsSnoc(cmds[..2], cmds[2]);
    GlobalsSnoc(cmds[..3], cmds[3]);
    GlobalsSnoc(cmds[..4], cmds[4]);
    assert [] + [cmds[0]] == cmds[..1];
    assert cmds[..1] + [cmds[1]] == cmds[..2];
    assert cmds[..2] + [cmds[2]] == cmds[..3];
    assert cmds[..3] + [cmds[3]] == cmds[..4];
    assert cmds[..4] + [cmds[4]] == cmds;
  }

  /** With atmospheric scattering disabled the shader sees the fog type of the
      neutral push, whatever the requested type. */
  lemma PushDisabledIsNeutralType(s: Scattering, fogType: FogType)
    ensures TypeParam in Globals(PushShaderParametersCommon(s, fogType, false))
    ensures Globals(PushShaderParametersCommon(s, fogType, false))[TypeParam]
            == Globals(PushNeutralShaderParameters())[TypeParam]
  {
    PushShaderParametersCommonGlobals(s, fogType, false);
  }

  /** The shader sees fog switched off, the value the neutral push gives,
      exactly when scattering is disabled in the frame settings or the
      requested fog type is None. */
  lemma PushedFogOff(s: Scattering, fogType: FogType, enabled: bool)
    ensures TypeParam in Globals(PushShaderParametersCommon(s, fogType, enabled))
    ensures Globals(PushShaderParametersCommon(s, fogType, enabled))[TypeParam]
            == Globals(PushNeutralShaderParameters())[TypeParam]
            <==> !enabled || fogType == None
  {
    PushShaderParametersCommonGlobals(s, fogType, enabled);
    FogTypeCodeInjective(fogType, None);
  }
}
