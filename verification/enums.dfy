/** Enumerations the layered-material inspector reads from float properties.
    Each has the members the inspector names plus a case for any other code;
    the numeric codes are those of the HDRP Lit enums, whose declarations are
    not part of this model. A property is decoded by the C# cast `(E)f`, which
    first truncates the float to an int. */
module Enums {
  import opened Host

  datatype UVBaseMapping = BaseUV0 | BaseUV1 | BaseUV2 | BaseUV3 | Planar | Triplanar | OtherBase(code: int)

  /** The integer code of a mapping; an unnamed code keeps its value. */
  function UVBaseCode(u: UVBaseMapping): int
  {
    match u
    case BaseUV0 => 0
    case BaseUV1 => 1
    case BaseUV2 => 2
    case BaseUV3 => 3
    case Planar => 4
    case Triplanar => 5
    case OtherBase(code) => code
  }

  /** `(UVBaseMapping)f`: the code of the result is the truncated float, and
      the unnamed case is taken exactly for codes outside the declared ones. */
  function UVBaseOf(f: real): (u: UVBaseMapping)
    ensures UVBaseCode(u) == Truncate(f)
    ensures u.OtherBase? <==> !(0 <= Truncate(f) <= 5)
  {
    match Truncate(f)
    case 0 => BaseUV0
    case 1 => BaseUV1
    case 2 => BaseUV2
    case 3 => BaseUV3
    case 4 => Planar
    case 5 => Triplanar
    case n => OtherBase(n)
  }

  datatype UVDetailMapping = DetailUV0 | DetailUV1 | DetailUV2 | DetailUV3 | OtherDetail(code: int)

  function UVDetailCode(u: UVDetailMapping): int
  {
    match u
    case DetailUV0 => 0
    case DetailUV1 => 1
    case DetailUV2 => 2
    case DetailUV3 => 3
    case OtherDetail(code) => code
  }

  /** `(UVDetailMapping)f`. */
  function UVDetailOf(f: real): (u: UVDetailMapping)
    ensures UVDetailCode(u) == Truncate(f)
    ensures u.OtherDetail? <==> !(0 <= Truncate(f) <= 3)
  {
    match Truncate(f)
    case 0 => DetailUV0
    case 1 => DetailUV1
    case 2 => DetailUV2
    case 3 => DetailUV3
    case n => OtherDetail(n)
  }

  datatype NormalMapSpace = TangentSpace | ObjectSpace | OtherSpace(code: int)

  function NormalMapSpaceCode(s: NormalMapSpace): int
  {
    match s
    case TangentSpace => 0
    case ObjectSpace => 1
    case OtherSpace(code) => code
  }

  /** `(NormalMapSpace)f`. */
  function NormalMapSpaceOf(f: real): (s: NormalMapSpace)
    ensures NormalMapSpaceCode(s) == Truncate(f)
    ensures s.OtherSpace? <==> !(0 <= Truncate(f) <= 1)
  {
    match Truncate(f)
    case 0 => TangentSpace
    case 1 => ObjectSpace
    case n => OtherSpace(n)
  }

  /** `BaseLitGUI.MaterialId`. */
  datatype MaterialId = LitSSS | LitStandard | LitAniso | LitIridescence | LitSpecular | LitTranslucent | OtherId(code: int)

  function MaterialIdCode(id: MaterialId): int
  {
    match id
    case LitSSS => 0
    case LitStandard => 1
    case LitAniso => 2
    case LitIridescence => 3
    case LitSpecular => 4
    case LitTranslucent => 5
    case OtherId(code) => code
  }

  /** `(BaseLitGUI.MaterialId)f`. */
  function MaterialIdOf(f: real): (id: MaterialId)
    ensures MaterialIdCode(id) == Truncate(f)
    ensures id.OtherId? <==> !(0 <= Truncate(f) <= 5)
  {
    match Truncate(f)
    case 0 => LitSSS
    case 1 => LitStandard
    case 2 => LitAniso
    case 3 => LitIridescence
    case 4 => LitSpecular
    case 5 => LitTranslucent
    case n => OtherId(n)
  }

  datatype DisplacementMode = NoDisplacement | VertexDisplacement | PixelDisplacement | TessellationDisplacement | OtherDisplacement(code: int)

  function DisplacementModeCode(d: DisplacementMode): int
  {
    match d
    case NoDisplacement => 0
    case VertexDisplacement => 1
    case PixelDisplacement => 2
    case TessellationDisplacement => 3
    case OtherDisplacement(code) => code
  }

  /** `(DisplacementMode)f`. */
  function DisplacementModeOf(f: real): (d: DisplacementMode)
    ensures DisplacementModeCode(d) == Truncate(f)
    ensures d.OtherDisplacement? <==> !(0 <= Truncate(f) <= 3)
  {
    match Truncate(f)
    case 0 => NoDisplacement
    case 1 => VertexDisplacement
    case 2 => PixelDisplacement
    case 3 => TessellationDisplacement
    case n => OtherDisplacement(n)
  }
}
