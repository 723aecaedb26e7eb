/**
 * The interop records the managed front-ends hand to the native plugin: the NRI resource
 * state triple, one resource entry of the snapshot, and the per-frame data block
 * (its integer and pointer fields; the float settings blocks are carried as opaque values).
 */
module NrdTypes {
  import opened Base

  /** `Nrd.ResourceType`, in declaration order. */
  datatype ResourceType =
    | IN_MV | IN_NORMAL_ROUGHNESS | IN_VIEWZ | IN_DIFF_CONFIDENCE | IN_SPEC_CONFIDENCE
    | IN_DISOCCLUSION_THRESHOLD_MIX | IN_BASECOLOR_METALNESS
    | IN_DIFF_RADIANCE_HITDIST | IN_SPEC_RADIANCE_HITDIST | IN_DIFF_HITDIST | IN_SPEC_HITDIST
    | IN_DIFF_DIRECTION_HITDIST | IN_DIFF_SH0 | IN_DIFF_SH1 | IN_SPEC_SH0 | IN_SPEC_SH1
    | IN_PENUMBRA | IN_TRANSLUCENCY | IN_SIGNAL
    | OUT_DIFF_RADIANCE_HITDIST | OUT_SPEC_RADIANCE_HITDIST
    | OUT_DIFF_SH0 | OUT_DIFF_SH1 | OUT_SPEC_SH0 | OUT_SPEC_SH1
    | OUT_DIFF_HITDIST | OUT_SPEC_HITDIST | OUT_DIFF_DIRECTION_HITDIST
    | OUT_SHADOW_TRANSLUCENCY | OUT_SIGNAL | OUT_VALIDATION
    | TRANSIENT_POOL | PERMANENT_POOL | MAX_NUM

  /** `Enum.ToString()` of a resource type: its declared name. */
  function ResourceTypeName(t: ResourceType): string
  {
    match t
    case IN_MV => "IN_MV"
    case IN_NORMAL_ROUGHNESS => "IN_NORMAL_ROUGHNESS"
    case IN_VIEWZ => "IN_VIEWZ"
    case IN_DIFF_CONFIDENCE => "IN_DIFF_CONFIDENCE"
    case IN_SPEC_CONFIDENCE => "IN_SPEC_CONFIDENCE"
    case IN_DISOCCLUSION_THRESHOLD_MIX => "IN_DISOCCLUSION_THRESHOLD_MIX"
    case IN_BASECOLOR_METALNESS => "IN_BASECOLOR_METALNESS"
    case IN_DIFF_RADIANCE_HITDIST => "IN_DIFF_RADIANCE_HITDIST"
    case IN_SPEC_RADIANCE_HITDIST => "IN_SPEC_RADIANCE_HITDIST"
    case IN_DIFF_HITDIST => "IN_DIFF_HITDIST"
    case IN_SPEC_HITDIST => "IN_SPEC_HITDIST"
    case IN_DIFF_DIRECTION_HITDIST => "IN_DIFF_DIRECTION_HITDIST"
    case IN_DIFF_SH0 => "IN_DIFF_SH0"
    case IN_DIFF_SH1 => "IN_DIFF_SH1"
    case IN_SPEC_SH0 => "IN_SPEC_SH0"
    case IN_SPEC_SH1 => "IN_SPEC_SH1"
    case IN_PENUMBRA => "IN_PENUMBRA"
    case IN_TRANSLUCENCY => "IN_TRANSLUCENCY"
    case IN_SIGNAL => "IN_SIGNAL"
    case OUT_DIFF_RADIANCE_HITDIST => "OUT_DIFF_RADIANCE_HITDIST"
    case OUT_SPEC_RADIANCE_HITDIST => "OUT_SPEC_RADIANCE_HITDIST"
    case OUT_DIFF_SH0 => "OUT_DIFF_SH0"
    case OUT_DIFF_SH1 => "OUT_DIFF_SH1"
    case OUT_SPEC_SH0 => "OUT_SPEC_SH0"
    case OUT_SPEC_SH1 => "OUT_SPEC_SH1"
    case OUT_DIFF_HITDIST => "OUT_DIFF_HITDIST"
    case OUT_SPEC_HITDIST => "OUT_SPEC_HITDIST"
    case OUT_DIFF_DIRECTION_HITDIST => "OUT_DIFF_DIRECTION_HITDIST"
    case OUT_SHADOW_TRANSLUCENCY => "OUT_SHADOW_TRANSLUCENCY"
    case OUT_SIGNAL => "OUT_SIGNAL"
    case OUT_VALIDATION => "OUT_VALIDATION"
    case TRANSIENT_POOL => "TRANSIENT_POOL"
    case PERMANENT_POOL => "PERMANENT_POOL"
    case MAX_NUM => "MAX_NUM"
  }

  /** `Nri.AccessBits` values the front-ends use. */
  const ACCESS_NONE: nat := 0
  const ACCESS_COLOR_ATTACHMENT: nat := 0x20
  const ACCESS_SHADER_RESOURCE: nat := 0x2000
  const ACCESS_SHADER_RESOURCE_STORAGE: nat := 0x4000

  /** `Nri.Layout`, in declaration order. */
  datatype Layout =
    | UNDEFINED | GENERAL | PRESENT | COLOR_ATTACHMENT | SHADING_RATE_ATTACHMENT
    | DEPTH_STENCIL_ATTACHMENT | DEPTH_STENCIL_READONLY | SHADER_RESOURCE
    | SHADER_RESOURCE_STORAGE | COPY_SOURCE | COPY_DESTINATION | RESOLVE_SOURCE | RESOLVE_DESTINATION

  datatype NriResourceState = NriResourceState(accessBits: nat, layout: Layout, stageBits: nat)

  /** One resource entry handed to `UpdateDenoiserResources`; `texture` 0 is a null pointer. */
  datatype NrdResourceInput = NrdResourceInput(resourceType: ResourceType, texture: nat, state: NriResourceState)

  /** The states the managed side declares: SRV, UAV, render target and common. */
  const SrvState: NriResourceState := NriResourceState(ACCESS_SHADER_RESOURCE, SHADER_RESOURCE, 0x80)
  const UavState: NriResourceState := NriResourceState(ACCESS_SHADER_RESOURCE_STORAGE, SHADER_RESOURCE_STORAGE, 0x400)
  const RtState: NriResourceState := NriResourceState(ACCESS_COLOR_ATTACHMENT, COLOR_ATTACHMENT, 0x80)
  const CommonState: NriResourceState := NriResourceState(ACCESS_NONE, GENERAL, 0)

  /** A float matrix, carried but never computed with. */
  datatype Matrix = Matrix(cells: seq<real>)

  datatype Size = Size(w: nat, h: nat)

  /** The fields of `nrd::CommonSettings` the front-ends set from integers and matrices. */
  datatype CommonSettings = CommonSettings(
    viewToClipMatrix: Matrix, viewToClipMatrixPrev: Matrix,
    worldToViewMatrix: Matrix, worldToViewMatrixPrev: Matrix,
    resourceSize: Size, resourceSizePrev: Size, rectSize: Size, rectSizePrev: Size,
    frameIndex: nat, enableValidation: bool)

  /** The eight `ID3D12Resource*` fields of the frame data. */
  datatype TexturePointers = TexturePointers(
    mv: nat, normalRoughness: nat, viewZ: nat, penumbra: nat,
    shadowTranslucency: nat, diffRadiance: nat, outDiffRadiance: nat, validation: nat)

  const NullPointers: TexturePointers := TexturePointers(0, 0, 0, 0, 0, 0, 0, 0)

  /** `FrameData`, as written by the managed side and read by `NrdInstance`. */
  datatype FrameData = FrameData(
    commonSettings: CommonSettings, width: UInt16, height: UInt16, pointers: TexturePointers, instanceId: int)

  /** What a front-end reads from the Unity camera. `gpuProjection` is the result of
      `GL.GetGPUProjectionMatrix(projectionMatrix, false)`. */
  datatype Camera = Camera(pixelWidth: int, pixelHeight: int, gpuProjection: Matrix, worldToCameraMatrix: Matrix)

  /**
   * The integer, pointer and matrix fields `GetData` writes: every current and previous
   * size is the camera size cut to 16 bits, the previous matrices are those kept from the
   * previous call, and validation is on.
   */
  function FrameDataFor(camera: Camera, prevViewProj: Matrix, prevView: Matrix, frameIndex: nat,
                        instanceId: int, pointers: TexturePointers): (d: FrameData)
    ensures d.width == ToUInt16(camera.pixelWidth) && d.height == ToUInt16(camera.pixelHeight)
    ensures d.commonSettings.resourceSize == d.commonSettings.rectSize == Size(d.width, d.height)
    ensures d.commonSettings.resourceSizePrev == d.commonSettings.rectSizePrev == Size(d.width, d.height)
    ensures d.commonSettings.viewToClipMatrixPrev == prevViewProj && d.commonSettings.worldToViewMatrixPrev == prevView
    ensures d.commonSettings.viewToClipMatrix == camera.gpuProjection
    ensures d.commonSettings.worldToViewMatrix == camera.worldToCameraMatrix
    ensures d.commonSettings.frameIndex == frameIndex && d.commonSettings.enableValidation
    ensures d.instanceId == instanceId && d.pointers == pointers
  {
    var w := ToUInt16(camera.pixelWidth);
    var h := ToUInt16(camera.pixelHeight);
    var size := Size(w, h);
    FrameData(
      CommonSettings(camera.gpuProjection, prevViewProj, camera.worldToCameraMatrix, prevView,
                     size, size, size, size, frameIndex, true),
      w, h, pointers, instanceId)
  }

  /** A zero-initialised `Matrix4x4`. */
  const ZeroMatrix: Matrix := Matrix(seq(16, _ => 0.0))

  /** `FrameData._default`: zero matrices, sizes, frame index and pointers; validation off. */
  const DefaultFrameData: FrameData :=
    FrameData(CommonSettings(ZeroMatrix, ZeroMatrix, ZeroMatrix, ZeroMatrix,
                             Size(0, 0), Size(0, 0), Size(0, 0), Size(0, 0), 0, false),
              0, 0, NullPointers, 0)

  /** The resource types NRD reads (`IN_*`). */
  predicate IsInput(t: ResourceType)
  {
    t.IN_MV? || t.IN_NORMAL_ROUGHNESS? || t.IN_VIEWZ? || t.IN_DIFF_CONFIDENCE? || t.IN_SPEC_CONFIDENCE?
    || t.IN_DISOCCLUSION_THRESHOLD_MIX? || t.IN_BASECOLOR_METALNESS?
    || t.IN_DIFF_RADIANCE_HITDIST? || t.IN_SPEC_RADIANCE_HITDIST? || t.IN_DIFF_HITDIST? || t.IN_SPEC_HITDIST?
    || t.IN_DIFF_DIRECTION_HITDIST? || t.IN_DIFF_SH0? || t.IN_DIFF_SH1? || t.IN_SPEC_SH0? || t.IN_SPEC_SH1?
    || t.IN_PENUMBRA? || t.IN_TRANSLUCENCY? || t.IN_SIGNAL?
  }

  /** The resource types NRD writes (`OUT_*`). */
  predicate IsOutput(t: ResourceType)
  {
    t.OUT_DIFF_RADIANCE_HITDIST? || t.OUT_SPEC_RADIANCE_HITDIST?
    || t.OUT_DIFF_SH0? || t.OUT_DIFF_SH1? || t.OUT_SPEC_SH0? || t.OUT_SPEC_SH1?
    || t.OUT_DIFF_HITDIST? || t.OUT_SPEC_HITDIST? || t.OUT_DIFF_DIRECTION_HITDIST?
    || t.OUT_SHADOW_TRANSLUCENCY? || t.OUT_SIGNAL? || t.OUT_VALIDATION?
  }

  const FrameBufferCount: nat := 3

  /** The ring-buffer slot `GetInteropDataPtr` writes for a frame index. */
  function RingSlot(frameIndex: nat): (slot: nat)
    ensures slot < FrameBufferCount
    ensures slot == frameIndex % FrameBufferCount
  {
    frameIndex % FrameBufferCount
  }

  /** Three consecutive frames, with no wrap-around of the 32-bit counter, use three distinct slots. */
  lemma ConsecutiveFramesUseDistinctSlots(f: nat)
    requires f + 2 < TwoTo32
    ensures RingSlot(f) != RingSlot(IncUInt32(f))
    ensures RingSlot(IncUInt32(f)) != RingSlot(IncUInt32(IncUInt32(f)))
    ensures RingSlot(f) != RingSlot(IncUInt32(IncUInt32(f)))
  {
  }

  /** When the counter wraps from 2^32-1 to 0, two consecutive frames share slot 0. */
  lemma WrapAroundReusesSlot()
    ensures RingSlot(TwoTo32 - 1) == RingSlot(IncUInt32(TwoTo32 - 1)) == 0
  {
  }
}
