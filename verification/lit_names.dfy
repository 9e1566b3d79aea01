/** Names of the material properties the layered-material inspector reads.
    The first group is declared by the inspector itself; the rest are the
    base Lit inspector's name constants, spelled as the HDRP Lit shader
    declares them. Per-layer properties are these names suffixed with the
    layer index (`Names.Suffixed`). */
module LitNames {

  const LayerCountName := "_LayerCount"
  const ObjectScaleAffectTileName := "_ObjectScaleAffectTile"
  const OpacityAsDensityName := "_OpacityAsDensity"

  const TexWorldScaleName := "_TexWorldScale"
  const UVBaseName := "_UVBase"
  const UVMappingMaskName := "_UVMappingMask"
  const UVDetailName := "_UVDetail"
  const UVDetailsMappingMaskName := "_UVDetailsMappingMask"
  const NormalMapSpaceName := "_NormalMapSpace"
  const NormalMapName := "_NormalMap"
  const NormalMapOSName := "_NormalMapOS"
  const BentNormalMapName := "_BentNormalMap"
  const BentNormalMapOSName := "_BentNormalMapOS"
  const MaskMapName := "_MaskMap"
  const DetailMapName := "_DetailMap"
  const HeightMapName := "_HeightMap"
  const SubsurfaceMaskMapName := "_SubsurfaceMaskMap"
  const ThicknessMapName := "_ThicknessMap"
  const UVEmissiveName := "_UVEmissive"
  const EmissiveColorMapName := "_EmissiveColorMap"
  const EnableSpecularOcclusionName := "_EnableSpecularOcclusion"
  const MaterialIdName := "_MaterialID"
  const TransmissionEnableName := "_TransmissionEnable"
  const DisplacementModeName := "_DisplacementMode"

  /** `kMaxLayerCount` of the layered Lit inspectors. */
  const MaxLayerCount: nat := 4
}
