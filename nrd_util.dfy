/**
 * Model of UnityProject/Assets/Scripts/NRD/NRDUtil.cs: the mapping from Unity's
 * `GraphicsFormat` to the `DXGI_FORMAT` handed to `WrapD3D12Texture`.
 *
 * The part of the Unity enum the switch lists is written as the product the names spell
 * out (channel layout x numeric kind); `R16G16B16A16_SFloat`, for instance, is
 * `Channels16(R16G16B16A16, SFloat)`. Every other member of the enum is `OtherFormat`.
 */
module NrdUtil {
  import opened Base

  datatype Numeric = UNorm | SNorm | UInt | SInt | SRGB | SFloat

  /** 8-bit channels come as UNorm, SNorm, UInt, SInt and SRGB. */
  type Numeric8 = n: Numeric | !n.SFloat? witness UNorm
  /** 16-bit channels come as UNorm, SNorm, UInt, SInt and SFloat. */
  type Numeric16 = n: Numeric | !n.SRGB? witness UNorm
  /** 32-bit channels come as UInt, SInt and SFloat. */
  type Numeric32 = n: Numeric | n.UInt? || n.SInt? || n.SFloat? witness UInt

  datatype Layout8 = R8 | R8G8 | R8G8B8 | B8G8R8 | R8G8B8A8 | B8G8R8A8
  datatype Layout16 = R16 | R16G16 | R16G16B16 | R16G16B16A16
  datatype Layout32 = R32 | R32G32 | R32G32B32 | R32G32B32A32

  datatype PackedFormat =
    | R4G4B4A4_UNormPack16 | B4G4R4A4_UNormPack16 | R5G6B5_UNormPack16 | B5G6R5_UNormPack16
    | R5G5B5A1_UNormPack16 | B5G5R5A1_UNormPack16 | E5B9G9R9_UFloatPack32 | B10G11R11_UFloatPack32
    | A2B10G10R10_UNormPack32 | A2B10G10R10_UIntPack32

  datatype DepthFormat = D16_UNorm | D24_UNorm_S8_UInt | D32_SFloat | D32_SFloat_S8_UInt | S8_UInt

  datatype CompressedFormat =
    | RGBA_DXT1_SRGB | RGBA_DXT1_UNorm | RGBA_DXT3_SRGB | RGBA_DXT3_UNorm | RGBA_DXT5_SRGB | RGBA_DXT5_UNorm
    | R_BC4_UNorm | R_BC4_SNorm | RG_BC5_UNorm | RG_BC5_SNorm | RGB_BC6H_UFloat | RGB_BC6H_SFloat
    | RGBA_BC7_SRGB | RGBA_BC7_UNorm | YUV2

  datatype GraphicsFormat =
    | Channels8(layout8: Layout8, numeric8: Numeric8)
    | Channels16(layout16: Layout16, numeric16: Numeric16)
    | Channels32(layout32: Layout32, numeric32: Numeric32)
    | Packed(packed: PackedFormat)
    | Depth(depth: DepthFormat)
    | Compressed(compressed: CompressedFormat)
    | OtherFormat(code: nat)

  /** The DXGI formats the mapping produces. */
  datatype DxgiFormat =
    | UNKNOWN
    | R8_UNORM | R8_SNORM | R8_UINT | R8_SINT | R8G8_UNORM | R8G8_SNORM | R8G8_UINT | R8G8_SINT |
      R8G8B8A8_UNORM | R8G8B8A8_UNORM_SRGB | R8G8B8A8_SNORM | R8G8B8A8_UINT | R8G8B8A8_SINT |
      B8G8R8A8_UNORM | B8G8R8A8_UNORM_SRGB | R16_UNORM | R16_SNORM | R16_UINT | R16_SINT |
      R16_FLOAT | R16G16_UNORM | R16G16_SNORM | R16G16_UINT | R16G16_SINT | R16G16_FLOAT |
      R16G16B16A16_UNORM | R16G16B16A16_SNORM | R16G16B16A16_UINT | R16G16B16A16_SINT |
      R16G16B16A16_FLOAT | R32_UINT | R32_SINT | R32_FLOAT | R32G32_UINT | R32G32_SINT |
      R32G32_FLOAT | R32G32B32_UINT | R32G32B32_SINT | R32G32B32_FLOAT | R32G32B32A32_UINT |
      R32G32B32A32_SINT | R32G32B32A32_FLOAT | B4G4R4A4_UNORM | B5G6R5_UNORM | B5G5R5A1_UNORM |
      R9G9B9E5_SHAREDEXP | R11G11B10_FLOAT | R10G10B10A2_UNORM | R10G10B10A2_UINT | D16_UNORM |
      D24_UNORM_S8_UINT | D32_FLOAT | D32_FLOAT_S8X24_UINT | BC1_UNORM_SRGB | BC1_UNORM |
      BC2_UNORM_SRGB | BC2_UNORM | BC3_UNORM_SRGB | BC3_UNORM | BC4_UNORM | BC4_SNORM | BC5_UNORM |
      BC5_SNORM | BC6H_UF16 | BC6H_SF16 | BC7_UNORM_SRGB | BC7_UNORM | YUY2

  /** `GetDXGIFormat(format)`: total over the enum; every format the switch does not list
      falls to UNKNOWN. Its properties are the lemmas below. */
  function GetDxgiFormat(format: GraphicsFormat): DxgiFormat
  {
    match format
    case Channels8(l, n) => Dxgi8(l, n)
    case Channels16(l, n) => Dxgi16(l, n)
    case Channels32(l, n) => Dxgi32(l, n)
    case Packed(p) => DxgiPacked(p)
    case Depth(d) => DxgiDepth(d)
    case Compressed(c) => DxgiCompressed(c)
    case OtherFormat(_) => UNKNOWN
  }

  /** The 8-bit rows: DXGI has no sRGB one- or two-channel format, no 24-bit format,
      and no SNorm/UInt/SInt in BGRA order. */
  function Dxgi8(l: Layout8, n: Numeric8): DxgiFormat
  {
    match l
    case R8 => (match n case UNorm => R8_UNORM case SNorm => R8_SNORM case UInt => R8_UINT
                        case SInt => R8_SINT case SRGB => UNKNOWN)
    case R8G8 => (match n case UNorm => R8G8_UNORM case SNorm => R8G8_SNORM case UInt => R8G8_UINT
                          case SInt => R8G8_SINT case SRGB => UNKNOWN)
    case R8G8B8 => UNKNOWN
    case B8G8R8 => UNKNOWN
    case R8G8B8A8 => (match n case UNorm => R8G8B8A8_UNORM case SRGB => R8G8B8A8_UNORM_SRGB
                              case SNorm => R8G8B8A8_SNORM case UInt => R8G8B8A8_UINT
                              case SInt => R8G8B8A8_SINT)
    case B8G8R8A8 => (match n case UNorm => B8G8R8A8_UNORM case SRGB => B8G8R8A8_UNORM_SRGB
                              case SNorm => UNKNOWN case UInt => UNKNOWN case SInt => UNKNOWN)
  }

  /** The 16-bit rows: everything but the three-channel layout. */
  function Dxgi16(l: Layout16, n: Numeric16): DxgiFormat
  {
    match l
    case R16 => (match n case UNorm => R16_UNORM case SNorm => R16_SNORM case UInt => R16_UINT
                         case SInt => R16_SINT case SFloat => R16_FLOAT)
    case R16G16 => (match n case UNorm => R16G16_UNORM case SNorm => R16G16_SNORM
                            case UInt => R16G16_UINT case SInt => R16G16_SINT case SFloat => R16G16_FLOAT)
    case R16G16B16 => UNKNOWN
    case R16G16B16A16 => (match n case UNorm => R16G16B16A16_UNORM case SNorm => R16G16B16A16_SNORM
                                  case UInt => R16G16B16A16_UINT case SInt => R16G16B16A16_SINT
                                  case SFloat => R16G16B16A16_FLOAT)
  }

  /** The 32-bit rows: all of them exist. */
  function Dxgi32(l: Layout32, n: Numeric32): DxgiFormat
  {
    match l
    case R32 => (match n case UInt => R32_UINT case SInt => R32_SINT case SFloat => R32_FLOAT)
    case R32G32 => (match n case UInt => R32G32_UINT case SInt => R32G32_SINT case SFloat => R32G32_FLOAT)
    case R32G32B32 => (match n case UInt => R32G32B32_UINT case SInt => R32G32B32_SINT
                               case SFloat => R32G32B32_FLOAT)
    case R32G32B32A32 => (match n case UInt => R32G32B32A32_UINT case SInt => R32G32B32A32_SINT
                                  case SFloat => R32G32B32A32_FLOAT)
  }

  function DxgiPacked(p: PackedFormat): DxgiFormat
  {
    match p
    case R4G4B4A4_UNormPack16 => UNKNOWN
    case B4G4R4A4_UNormPack16 => B4G4R4A4_UNORM
    case R5G6B5_UNormPack16 => UNKNOWN
    case B5G6R5_UNormPack16 => B5G6R5_UNORM
    case R5G5B5A1_UNormPack16 => UNKNOWN
    case B5G5R5A1_UNormPack16 => B5G5R5A1_UNORM
    case E5B9G9R9_UFloatPack32 => R9G9B9E5_SHAREDEXP
    case B10G11R11_UFloatPack32 => R11G11B10_FLOAT
    case A2B10G10R10_UNormPack32 => R10G10B10A2_UNORM
    case A2B10G10R10_UIntPack32 => R10G10B10A2_UINT
  }

  function DxgiDepth(d: DepthFormat): DxgiFormat
  {
    match d
    case D16_UNorm => D16_UNORM
    case D24_UNorm_S8_UInt => D24_UNORM_S8_UINT
    case D32_SFloat => D32_FLOAT
    case D32_SFloat_S8_UInt => D32_FLOAT_S8X24_UINT
    case S8_UInt => UNKNOWN
  }

  function DxgiCompressed(c: CompressedFormat): DxgiFormat
  {
    match c
    case RGBA_DXT1_SRGB => BC1_UNORM_SRGB
    case RGBA_DXT1_UNorm => BC1_UNORM
    case RGBA_DXT3_SRGB => BC2_UNORM_SRGB
    case RGBA_DXT3_UNorm => BC2_UNORM
    case RGBA_DXT5_SRGB => BC3_UNORM_SRGB
    case RGBA_DXT5_UNorm => BC3_UNORM
    case R_BC4_UNorm => BC4_UNORM
    case R_BC4_SNorm => BC4_SNORM
    case RG_BC5_UNorm => BC5_UNORM
    case RG_BC5_SNorm => BC5_SNORM
    case RGB_BC6H_UFloat => BC6H_UF16
    case RGB_BC6H_SFloat => BC6H_SF16
    case RGBA_BC7_SRGB => BC7_UNORM_SRGB
    case RGBA_BC7_UNorm => BC7_UNORM
    case YUV2 => YUY2
  }

  /** Unity formats with sRGB encoding. */
  predicate IsSrgbFormat(f: GraphicsFormat)
  {
    (f.Channels8? && f.numeric8.SRGB?)
    || f == Compressed(RGBA_DXT1_SRGB) || f == Compressed(RGBA_DXT3_SRGB)
    || f == Compressed(RGBA_DXT5_SRGB) || f == Compressed(RGBA_BC7_SRGB)
  }

  /** DXGI codes with sRGB encoding. */
  predicate IsSrgbDxgi(d: DxgiFormat)
  {
    d.R8G8B8A8_UNORM_SRGB? || d.B8G8R8A8_UNORM_SRGB? || d.BC1_UNORM_SRGB? || d.BC2_UNORM_SRGB?
    || d.BC3_UNORM_SRGB? || d.BC7_UNORM_SRGB?
  }

  /**
   * The formats DXGI has no counterpart for, listed independently of the switch:
   * the 24-bit and R16G16B16 layouts, one- and two-channel sRGB, BGRA in SNorm/UInt/SInt,
   * the RGBA-ordered 16-bit packings, stencil-only, and every unlisted format.
   */
  predicate Unsupported(f: GraphicsFormat)
  {
    match f
    case Channels8(l, n) =>
      l.R8G8B8? || l.B8G8R8? || ((l.R8? || l.R8G8?) && n.SRGB?)
      || (l.B8G8R8A8? && (n.SNorm? || n.UInt? || n.SInt?))
    case Channels16(l, _) => l.R16G16B16?
    case Channels32(_, _) => false
    case Packed(p) => p.R4G4B4A4_UNormPack16? || p.R5G6B5_UNormPack16? || p.R5G5B5A1_UNormPack16?
    case Depth(d) => d.S8_UInt?
    case Compressed(_) => false
    case OtherFormat(_) => true
  }

  /** The mapping gives UNKNOWN exactly for the unsupported formats. */
  lemma {:induction false} UnknownIffUnsupported(f: GraphicsFormat)
    ensures GetDxgiFormat(f) == UNKNOWN <==> Unsupported(f)
  {
    match f
    case Channels8(l, n) =>
      match l {
        case R8 =>
        case R8G8 =>
        case R8G8B8 =>
        case B8G8R8 =>
        case R8G8B8A8 =>
        case B8G8R8A8 =>
      }
    case Channels16(l, n) =>
    case Channels32(l, n) =>
    case Packed(p) =>
    case Depth(d) =>
    case Compressed(c) =>
    case OtherFormat(_) =>
  }

  /** sRGB-ness is preserved: an sRGB format maps to an sRGB code or to UNKNOWN,
      a linear one never to an sRGB code. */
  lemma {:induction false} MappingPreservesSrgb(f: GraphicsFormat)
    ensures IsSrgbFormat(f) ==> GetDxgiFormat(f) == UNKNOWN || IsSrgbDxgi(GetDxgiFormat(f))
    ensures !IsSrgbFormat(f) ==> !IsSrgbDxgi(GetDxgiFormat(f))
  {
    match f
    case Channels8(l, n) =>
      match l {
        case R8 =>
        case R8G8 =>
        case R8G8B8 =>
        case B8G8R8 =>
        case R8G8B8A8 =>
        case B8G8R8A8 =>
      }
    case Channels16(l, n) =>
    case Channels32(l, n) =>
    case Packed(p) =>
    case Depth(d) =>
    case Compressed(c) =>
    case OtherFormat(_) =>
  }

  /** All three-channel 8-bit and 16-bit formats give UNKNOWN. */
  lemma ThreeChannelFormatsUnknown(n8: Numeric8, n16: Numeric16)
    ensures GetDxgiFormat(Channels8(R8G8B8, n8)) == UNKNOWN
    ensures GetDxgiFormat(Channels8(B8G8R8, n8)) == UNKNOWN
    ensures GetDxgiFormat(Channels16(R16G16B16, n16)) == UNKNOWN
  {
  }

  /** The sRGB rows the source comments on. */
  lemma SrgbRows()
    ensures GetDxgiFormat(Channels8(R8G8B8A8, SRGB)) == R8G8B8A8_UNORM_SRGB
    ensures GetDxgiFormat(Channels8(B8G8R8A8, SRGB)) == B8G8R8A8_UNORM_SRGB
    ensures GetDxgiFormat(Channels8(R8, SRGB)) == UNKNOWN
    ensures GetDxgiFormat(Channels8(R8G8, SRGB)) == UNKNOWN
  {
  }

  /** The packed float and 10:10:10:2 rows. */
  lemma PackedRows()
    ensures GetDxgiFormat(Packed(B10G11R11_UFloatPack32)) == R11G11B10_FLOAT
    ensures GetDxgiFormat(Packed(A2B10G10R10_UNormPack32)) == R10G10B10A2_UNORM
    ensures GetDxgiFormat(Packed(E5B9G9R9_UFloatPack32)) == R9G9B9E5_SHAREDEXP
  {
  }

  /** The depth/stencil rows: combined depth-stencil maps, stencil only does not. */
  lemma DepthRows()
    ensures GetDxgiFormat(Depth(D32_SFloat_S8_UInt)) == D32_FLOAT_S8X24_UINT
    ensures GetDxgiFormat(Depth(S8_UInt)) == UNKNOWN
  {
  }

  /** Each DXT/BC7 format keeps its encoding: SRGB to the `_UNORM_SRGB` code, UNorm to `_UNORM`. */
  lemma BlockCompressedRows()
    ensures GetDxgiFormat(Compressed(RGBA_DXT1_SRGB)) == BC1_UNORM_SRGB
    ensures GetDxgiFormat(Compressed(RGBA_DXT1_UNorm)) == BC1_UNORM
    ensures GetDxgiFormat(Compressed(RGBA_DXT3_SRGB)) == BC2_UNORM_SRGB
    ensures GetDxgiFormat(Compressed(RGBA_DXT3_UNorm)) == BC2_UNORM
    ensures GetDxgiFormat(Compressed(RGBA_DXT5_SRGB)) == BC3_UNORM_SRGB
    ensures GetDxgiFormat(Compressed(RGBA_DXT5_UNorm)) == BC3_UNORM
    ensures GetDxgiFormat(Compressed(RGBA_BC7_SRGB)) == BC7_UNORM_SRGB
    ensures GetDxgiFormat(Compressed(RGBA_BC7_UNorm)) == BC7_UNORM
  {
  }

  /** The Unity formats the denoiser front-ends allocate. */
  const RGBA16Float: GraphicsFormat := Channels16(R16G16B16A16, SFloat)
  const R32Float: GraphicsFormat := Channels32(R32, SFloat)
  const RGB10A2UNorm: GraphicsFormat := Packed(A2B10G10R10_UNormPack32)
  const R16Float: GraphicsFormat := Channels16(R16, SFloat)
  const RGBA8UNorm: GraphicsFormat := Channels8(R8G8B8A8, UNorm)

  /** Every format the denoisers allocate has a DXGI counterpart. */
  lemma DenoiserFormatsSupported()
    ensures GetDxgiFormat(RGBA16Float) == R16G16B16A16_FLOAT
    ensures GetDxgiFormat(R32Float) == R32_FLOAT
    ensures GetDxgiFormat(RGB10A2UNorm) == R10G10B10A2_UNORM
    ensures GetDxgiFormat(R16Float) == R16_FLOAT
    ensures GetDxgiFormat(RGBA8UNorm) == R8G8B8A8_UNORM
  {
  }
}
