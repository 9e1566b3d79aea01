/** A material as the inspector sees it: the shader's declared properties,
    a property bag addressed by name, and the enabled keyword set. */
module Materials {
  import opened Host
  import opened Keywords

  /** `ShaderUtil.ShaderPropertyType`. */
  datatype PropKind = ColorKind | VectorKind | FloatKind | RangeKind | TexEnvKind

  /** One property declared by a material's shader. */
  datatype PropDecl = PropDecl(name: string, kind: PropKind)

  datatype Value =
    | FloatValue(x: real)
    | ColorValue(c: Color)
    | VectorValue(v: Vec4)
    | TextureValue(tex: Option<TexRef>, offset: Vec2, scale: Vec2)

  datatype Material = Material(shader: seq<PropDecl>, props: map<string, Value>, keywords: set<Keyword>)

  /** `Material.HasProperty`. */
  predicate HasProperty(m: Material, name: string)
  {
    name in m.props
  }

  // The getters return the host's zero default for a property that is
  // absent or holds another kind of value.

  function GetFloat(m: Material, name: string): real
  {
    if name in m.props && m.props[name].FloatValue? then m.props[name].x else 0.0
  }

  function GetColor(m: Material, name: string): Color
  {
    if name in m.props && m.props[name].ColorValue? then m.props[name].c else Color(0.0, 0.0, 0.0, 0.0)
  }

  function GetVector(m: Material, name: string): Vec4
  {
    if name in m.props && m.props[name].VectorValue? then m.props[name].v else Vec4(0.0, 0.0, 0.0, 0.0)
  }

  function GetTexture(m: Material, name: string): Option<TexRef>
  {
    if name in m.props && m.props[name].TextureValue? then m.props[name].tex else None
  }

  function GetTextureOffset(m: Material, name: string): Vec2
  {
    if name in m.props && m.props[name].TextureValue? then m.props[name].offset else Vec2(0.0, 0.0)
  }

  function GetTextureScale(m: Material, name: string): Vec2
  {
    if name in m.props && m.props[name].TextureValue? then m.props[name].scale else Vec2(1.0, 1.0)
  }

  /** A texture reference used as a condition (C# `if (material.GetTexture(name))`). */
  predicate HasTexture(m: Material, name: string)
  {
    GetTexture(m, name).Some?
  }

  /** `Material.GetInt`: the float value cast to int. */
  function GetInt(m: Material, name: string): int
  {
    Truncate(GetFloat(m, name))
  }
}
