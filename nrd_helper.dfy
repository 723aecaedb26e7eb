/**
 * Model of UnityProject/Assets/Scripts/NRD/NRDHelper.cs: the managed front-end that keeps
 * its eight denoiser textures in named fields (a render-texture handle, a native pointer
 * and an NRI wrapper each), re-creates all of them on a size change, sends a fixed
 * eight-entry resource table whose states depend on the frame index, and fills a 3-slot
 * ring of frame data blocks.
 *
 * Unity and the plugin are outside the model: their calls are recorded as `GpuCall`s and
 * what they return (the instance id, native pointers, NRI wrappers, the buffer address and
 * `sizeof(FrameData)`) are parameters.
 */
module NrdHelpers {
  import opened Base
  import opened NrdTypes
  import opened NrdUtil
  import opened NrdTextures
  import opened NrdInstances

  /** `maxResources`: the capacity of the resource buffer. */
  const MaxResources: nat := 20

  /** The eight `RTHandle` fields, `None` for null. */
  datatype Handles = Handles(
    mv: Option<RenderTexture>, normalRoughness: Option<RenderTexture>, viewZ: Option<RenderTexture>,
    penumbra: Option<RenderTexture>, shadowTranslucency: Option<RenderTexture>,
    diffRadiance: Option<RenderTexture>, outDiffRadiance: Option<RenderTexture>,
    validation: Option<RenderTexture>)

  const NoHandles: Handles := Handles(None, None, None, None, None, None, None, None)

  /** The handles in the order `EnsureResources` allocates them and `ReleaseTextures`
      releases them: the view depth comes before the normals. */
  function HandleOrder(h: Handles): seq<Option<RenderTexture>>
  {
    [h.mv, h.viewZ, h.normalRoughness, h.penumbra, h.shadowTranslucency, h.diffRadiance,
     h.outDiffRadiance, h.validation]
  }

  /** The handles in the order of the pointer fields. */
  function HandleFields(h: Handles): seq<Option<RenderTexture>>
  {
    [h.mv, h.normalRoughness, h.viewZ, h.penumbra, h.shadowTranslucency, h.diffRadiance,
     h.outDiffRadiance, h.validation]
  }

  /** Eight pointer fields in declaration order, which is also the order in which they are
      wrapped, released and put in the resource table. */
  function PointerOrder(p: TexturePointers): seq<nat>
  {
    [p.mv, p.normalRoughness, p.viewZ, p.penumbra, p.shadowTranslucency, p.diffRadiance,
     p.outDiffRadiance, p.validation]
  }

  /** `AllocRT(name, w, h, format)`: a denoiser texture with sRGB off. */
  function AllocRT(name: string, w: int, h: int, format: GraphicsFormat): RenderTexture
  {
    DenoiserTexture(name, w, h, format, false)
  }

  /** The textures a size change allocates, in allocation order. */
  function AllocOrder(w: int, h: int): seq<RenderTexture>
  {
    [AllocRT("NRD_Mv", w, h, RGBA16Float), AllocRT("NRD_ViewZ", w, h, R32Float),
     AllocRT("NRD_NormalRoughness", w, h, RGB10A2UNorm), AllocRT("NRD_Penumbra", w, h, R16Float),
     AllocRT("NRD_ShadowTranslucency", w, h, R16Float), AllocRT("NRD_DiffRadiance", w, h, RGBA16Float),
     AllocRT("NRD_OutDiffRadiance", w, h, RGBA16Float), AllocRT("NRD_Validation", w, h, RGBA8UNorm)]
  }

  /** The handle fields after a size change. */
  function AllocatedHandles(w: int, h: int): Handles
  {
    var a := AllocOrder(w, h);
    Handles(Some(a[0]), Some(a[2]), Some(a[1]), Some(a[3]), Some(a[4]), Some(a[5]), Some(a[6]), Some(a[7]))
  }

  /** The DXGI formats written out at the eight `WrapD3D12Texture` calls, in pointer order. */
  const WrapFormats: seq<DxgiFormat> := [
    R16G16B16A16_FLOAT, R10G10B10A2_UNORM, R32_FLOAT, R16_FLOAT, R16_FLOAT,
    R16G16B16A16_FLOAT, R16G16B16A16_FLOAT, R8G8B8A8_UNORM]

  /** After a size change every handle is set, and in release order the handles are the
      textures in allocation order. */
  lemma AllocatedHandlesFollowAllocOrder(w: int, h: int)
    ensures HandleOrder(AllocatedHandles(w, h)) == seq(8, i requires 0 <= i < 8 => Some(AllocOrder(w, h)[i]))
  {
  }

  /**
   * The DXGI format written out for each wrapped texture is the one `GetDXGIFormat` gives
   * for the format that texture was allocated with, and none is `UNKNOWN`.
   */
  lemma WrapFormatsAgreeWithMapping(w: int, h: int)
    ensures forall i :: 0 <= i < 8 ==>
              HandleFields(AllocatedHandles(w, h))[i].Some?
              && WrapFormats[i] == GetDxgiFormat(HandleFields(AllocatedHandles(w, h))[i].value.format)
              && WrapFormats[i] != UNKNOWN
  {
    DenoiserFormatsSupported();
    var f := HandleFields(AllocatedHandles(w, h));
    assert f[0].value.format == RGBA16Float && f[1].value.format == RGB10A2UNorm;
    assert f[2].value.format == R32Float && f[3].value.format == R16Float && f[4].value.format == R16Float;
    assert f[5].value.format == RGBA16Float && f[6].value.format == RGBA16Float;
    assert f[7].value.format == RGBA8UNorm;
  }

  // ---------------------------------------------------------------------------------------
  // Calls into Unity and the plugin

  function ReleaseNriCalls(ns: seq<nat>): (calls: seq<GpuCall>)
    ensures |calls| == |ns|
  {
    if ns == [] then [] else [ReleaseNriTexture(ns[0])] + ReleaseNriCalls(ns[1..])
  }

  function ReleaseHandleCalls(hs: seq<Option<RenderTexture>>): (calls: seq<GpuCall>)
    ensures |calls| == |hs|
  {
    if hs == [] then [] else [ReleaseHandle(hs[0])] + ReleaseHandleCalls(hs[1..])
  }

  function AllocCalls(rts: seq<RenderTexture>): (calls: seq<GpuCall>)
    ensures |calls| == |rts|
  {
    if rts == [] then [] else [AllocHandle(rts[0])] + AllocCalls(rts[1..])
  }

  function WrapCalls(natives: seq<nat>, formats: seq<DxgiFormat>, nris: seq<nat>): (calls: seq<GpuCall>)
    requires |natives| == |formats| == |nris|
    ensures |calls| == |nris|
  {
    if nris == [] then []
    else [WrapTexture(natives[0], formats[0], nris[0])] + WrapCalls(natives[1..], formats[1..], nris[1..])
  }

  /** `ReleaseTextures`'s calls: `ReleaseTexture` on all eight wrappers, null or not, then
      `RTHandles.Release` on all eight handles, null or not. */
  function HelperReleaseCalls(nris: TexturePointers, handles: Handles): seq<GpuCall>
  {
    ReleaseNriCalls(PointerOrder(nris)) + ReleaseHandleCalls(HandleOrder(handles))
  }

  /** The allocations and wraps of a size change. */
  function ResizeCalls(w: int, h: int, natives: TexturePointers, nris: TexturePointers): seq<GpuCall>
  {
    AllocCalls(AllocOrder(w, h)) + WrapCalls(PointerOrder(natives), WrapFormats, PointerOrder(nris))
  }

  // ---------------------------------------------------------------------------------------
  // Outstanding NRI wrappers

  /** The wrappers outstanding after `calls`, starting from `live`. */
  function LiveAfter(live: set<nat>, calls: seq<GpuCall>): set<nat>
    decreases |calls|
  {
    if calls == [] then live else LiveAfter(LiveStep(live, calls[0]), calls[1..])
  }

  /** The non-null wrappers the helper holds. */
  function Outstanding(nris: TexturePointers): set<nat>
  {
    set n | n in PointerOrder(nris) && n != 0
  }

  lemma {:induction false} LiveAfterConcat(live: set<nat>, a: seq<GpuCall>, b: seq<GpuCall>)
    ensures LiveAfter(live, a + b) == LiveAfter(LiveAfter(live, a), b)
    decreases |a|
  {
    if a == [] {
      assert a + b == b;
    } else {
      assert (a + b)[0] == a[0] && (a + b)[1..] == a[1..] + b;
      LiveAfterConcat(LiveStep(live, a[0]), a[1..], b);
    }
  }

  /** Releasing wrappers removes them, null included. */
  lemma {:induction false} LiveAfterReleases(live: set<nat>, ns: seq<nat>)
    ensures LiveAfter(live, ReleaseNriCalls(ns)) == live - set n | n in ns
    decreases |ns|
  {
    if ns != [] {
      LiveAfterReleases(live - {ns[0]}, ns[1..]);
      assert (set n | n in ns) == {ns[0]} + set n | n in ns[1..];
    }
  }

  /** Releasing handles leaves the wrappers alone. */
  lemma {:induction false} LiveAfterHandleReleases(live: set<nat>, hs: seq<Option<RenderTexture>>)
    ensures LiveAfter(live, ReleaseHandleCalls(hs)) == live
    decreases |hs|
  {
    if hs != [] {
      LiveAfterHandleReleases(live, hs[1..]);
    }
  }

  /** Allocating handles leaves the wrappers alone. */
  lemma {:induction false} LiveAfterAllocs(live: set<nat>, rts: seq<RenderTexture>)
    ensures LiveAfter(live, AllocCalls(rts)) == live
    decreases |rts|
  {
    if rts != [] {
      LiveAfterAllocs(live, rts[1..]);
    }
  }

  /** Wrapping adds every non-null wrapper returned. */
  lemma {:induction false} LiveAfterWraps(live: set<nat>, natives: seq<nat>, formats: seq<DxgiFormat>, ns: seq<nat>)
    requires |natives| == |formats| == |ns|
    ensures LiveAfter(live, WrapCalls(natives, formats, ns)) == live + set n | n in ns && n != 0
    decreases |ns|
  {
    if ns != [] {
      var step := if ns[0] != 0 then live + {ns[0]} else live;
      LiveAfterWraps(step, natives[1..], formats[1..], ns[1..]);
      assert (set n | n in ns && n != 0) == (if ns[0] != 0 then {ns[0]} else {}) + set n | n in ns[1..] && n != 0;
    }
  }

  /**
   * No wrapper leaks across `ReleaseTextures`: if the outstanding wrappers are those the
   * helper holds, none is outstanding after its calls.
   */
  lemma ReleaseLeavesNoWrapper(live: set<nat>, nris: TexturePointers, handles: Handles)
    requires live == Outstanding(nris)
    ensures LiveAfter(live, HelperReleaseCalls(nris, handles)) == {}
  {
    LiveAfterConcat(live, ReleaseNriCalls(PointerOrder(nris)), ReleaseHandleCalls(HandleOrder(handles)));
    LiveAfterReleases(live, PointerOrder(nris));
    assert live - (set n | n in PointerOrder(nris)) == {};
    LiveAfterHandleReleases({}, HandleOrder(handles));
  }

  /** After the allocations and wraps of a size change, from none outstanding, exactly the
      new non-null wrappers are outstanding. */
  lemma ResizeOutstanding(w: int, h: int, natives: TexturePointers, nris: TexturePointers)
    ensures LiveAfter({}, ResizeCalls(w, h, natives, nris)) == Outstanding(nris)
  {
    var wraps := WrapCalls(PointerOrder(natives), WrapFormats, PointerOrder(nris));
    LiveAfterConcat({}, AllocCalls(AllocOrder(w, h)), wraps);
    LiveAfterAllocs({}, AllocOrder(w, h));
    LiveAfterWraps({}, PointerOrder(natives), WrapFormats, PointerOrder(nris));
  }

  // ---------------------------------------------------------------------------------------
  // The resource table

  /** The first-frame state of the first four inputs, the radiance input and its output:
      `FrameIndex == 0 ? first : later`. */
  function StateAt(frameIndex: nat, first: NriResourceState, later: NriResourceState): NriResourceState
  {
    if frameIndex == 0 then first else later
  }

  /** The eight entries `UpdateResourceSnapshotInCpp` writes, in order. */
  function HelperSnapshot(nris: TexturePointers, frameIndex: nat): seq<NrdResourceInput>
  {
    [NrdResourceInput(IN_MV, nris.mv, StateAt(frameIndex, UavState, SrvState)),
     NrdResourceInput(IN_NORMAL_ROUGHNESS, nris.normalRoughness, StateAt(frameIndex, UavState, SrvState)),
     NrdResourceInput(IN_VIEWZ, nris.viewZ, StateAt(frameIndex, UavState, SrvState)),
     NrdResourceInput(IN_PENUMBRA, nris.penumbra, StateAt(frameIndex, UavState, SrvState)),
     NrdResourceInput(OUT_SHADOW_TRANSLUCENCY, nris.shadowTranslucency, UavState),
     NrdResourceInput(IN_DIFF_RADIANCE_HITDIST, nris.diffRadiance, StateAt(frameIndex, RtState, SrvState)),
     NrdResourceInput(OUT_DIFF_RADIANCE_HITDIST, nris.outDiffRadiance, StateAt(frameIndex, RtState, UavState)),
     NrdResourceInput(OUT_VALIDATION, nris.validation, CommonState)]
  }

  /** The table has eight entries of pairwise distinct types, the i-th carrying the i-th
      wrapper. */
  lemma HelperSnapshotShape(nris: TexturePointers, frameIndex: nat)
    ensures |HelperSnapshot(nris, frameIndex)| == 8
    ensures forall i :: 0 <= i < 8 ==> HelperSnapshot(nris, frameIndex)[i].texture == PointerOrder(nris)[i]
    ensures forall i, j :: 0 <= i < j < 8 ==>
              HelperSnapshot(nris, frameIndex)[i].resourceType != HelperSnapshot(nris, frameIndex)[j].resourceType
  {
  }

  /**
   * After the first frame every input is read as a shader resource, and every output
   * except the validation texture is written as storage; the validation texture is
   * always in the common state.
   */
  lemma HelperSteadyStateAccess(nris: TexturePointers, frameIndex: nat)
    requires frameIndex != 0
    ensures forall i :: 0 <= i < 8 ==> SteadyStateRule(HelperSnapshot(nris, frameIndex)[i])
  {
    HelperSteadyStateFirstHalf(nris, frameIndex);
    HelperSteadyStateSecondHalf(nris, frameIndex);
  }

  /** The steady-state rule for one table entry. */
  predicate SteadyStateRule(e: NrdResourceInput)
  {
    (IsInput(e.resourceType) ==> e.state == SrvState)
    && (IsOutput(e.resourceType) && e.resourceType != OUT_VALIDATION ==> e.state == UavState)
    && (e.resourceType == OUT_VALIDATION ==> e.state == CommonState)
  }

  lemma HelperSteadyStateFirstHalf(nris: TexturePointers, frameIndex: nat)
    requires frameIndex != 0
    ensures forall i :: 0 <= i < 4 ==> SteadyStateRule(HelperSnapshot(nris, frameIndex)[i])
  {
    var s := HelperSnapshot(nris, frameIndex);
    assert SteadyStateRule(s[0]) && SteadyStateRule(s[1]);
  }

  lemma HelperSteadyStateSecondHalf(nris: TexturePointers, frameIndex: nat)
    requires frameIndex != 0
    ensures forall i :: 4 <= i < 8 ==> SteadyStateRule(HelperSnapshot(nris, frameIndex)[i])
  {
    var s := HelperSnapshot(nris, frameIndex);
    assert SteadyStateRule(s[4]) && SteadyStateRule(s[5]);
  }

  /**
   * On the first frame after a (re)allocation the four geometry and penumbra inputs are
   * declared as storage, the radiance input and output as colour attachments, the shadow
   * output as storage and the validation texture as common.
   */
  lemma HelperFirstFrameAccess(nris: TexturePointers)
    ensures var s := HelperSnapshot(nris, 0);
            s[0].state == UavState && s[1].state == UavState && s[2].state == UavState
            && s[3].state == UavState && s[4].state == UavState
            && s[5].state == RtState && s[6].state == RtState && s[7].state == CommonState
  {
  }

  /** In a table of distinct types, the native snapshot keeps each entry with a texture. */
  lemma {:induction false} DistinctSnapshotKeepsEntries(cached: seq<NrdResourceInput>, i: nat)
    requires forall a, b :: 0 <= a < b < |cached| ==> cached[a].resourceType != cached[b].resourceType
    requires i < |cached| && cached[i].texture != 0
    ensures cached[i].resourceType in SnapshotOf(cached)
    ensures SnapshotOf(cached)[cached[i].resourceType] == ResourceOf(cached[i])
  {
    var t := cached[i].resourceType;
    SnapshotHasType(cached, t);
    SnapshotTakesLastEntry(cached, t);
    var k :| 0 <= k < |cached| && cached[k].resourceType == t && cached[k].texture != 0
             && SnapshotOf(cached)[t] == ResourceOf(cached[k])
             && forall j :: k < j < |cached| && cached[j].resourceType == t ==> cached[j].texture == 0;
    assert k == i;
  }

  /**
   * What the helper sends is what the plugin uses: each non-null wrapper reaches the
   * native snapshot under its type with the table's texture and state.
   */
  lemma HelperSnapshotReachesNative(nris: TexturePointers, frameIndex: nat, i: nat)
    requires i < 8 && PointerOrder(nris)[i] != 0
    ensures var s := HelperSnapshot(nris, frameIndex);
            s[i].resourceType in SnapshotOf(s)
            && SnapshotOf(s)[s[i].resourceType] == SnapshotResource(PointerOrder(nris)[i], s[i].state.accessBits,
                                                                    s[i].state.layout, s[i].state.stageBits)
  {
    HelperSnapshotShape(nris, frameIndex);
    DistinctSnapshotKeepsEntries(HelperSnapshot(nris, frameIndex), i);
  }

  // ---------------------------------------------------------------------------------------
  // Frame data

  /** The four matrices `useOverriddenCommonSettings` replaces. */
  datatype MatrixOverride = MatrixOverride(
    viewToClip: Matrix, viewToClipPrev: Matrix, worldToView: Matrix, worldToViewPrev: Matrix)

  /**
   * The frame data `GetData` writes: as `FrameDataFor` with the helper's native pointers,
   * except that an override replaces all four matrices.
   */
  function HelperFrameData(camera: Camera, prevViewProj: Matrix, prevView: Matrix, frameIndex: nat,
                           instanceId: int, pointers: TexturePointers, setting: Option<MatrixOverride>): (d: FrameData)
    ensures d.width == ToUInt16(camera.pixelWidth) && d.height == ToUInt16(camera.pixelHeight)
    ensures d.commonSettings.resourceSize == d.commonSettings.rectSize == Size(d.width, d.height)
    ensures d.commonSettings.resourceSizePrev == d.commonSettings.rectSizePrev == Size(d.width, d.height)
    ensures d.commonSettings.frameIndex == frameIndex && d.commonSettings.enableValidation
    ensures d.instanceId == instanceId && d.pointers == pointers
    ensures setting.None? ==>
              d.commonSettings.viewToClipMatrix == camera.gpuProjection
              && d.commonSettings.viewToClipMatrixPrev == prevViewProj
              && d.commonSettings.worldToViewMatrix == camera.worldToCameraMatrix
              && d.commonSettings.worldToViewMatrixPrev == prevView
    ensures setting.Some? ==>
              d.commonSettings.viewToClipMatrix == setting.value.viewToClip
              && d.commonSettings.viewToClipMatrixPrev == setting.value.viewToClipPrev
              && d.commonSettings.worldToViewMatrix == setting.value.worldToView
              && d.commonSettings.worldToViewMatrixPrev == setting.value.worldToViewPrev
  {
    var d := FrameDataFor(camera, prevViewProj, prevView, frameIndex, instanceId, pointers);
    match setting
    case None => d
    case Some(o) =>
      d.(commonSettings := d.commonSettings.(viewToClipMatrix := o.viewToClip, viewToClipMatrixPrev := o.viewToClipPrev,
                                             worldToViewMatrix := o.worldToView, worldToViewMatrixPrev := o.worldToViewPrev))
  }

  /** The eight `ptr[idx++] = …` writes of `UpdateResourceSnapshotInCpp`. */
  method WriteTable(cache: array<NrdResourceInput>, table: seq<NrdResourceInput>)
    requires |table| == 8 && cache.Length >= 8
    modifies cache
    ensures cache[..8] == table && cache[8..] == old(cache[8..])
  {
    cache[0] := table[0];
    cache[1] := table[1];
    cache[2] := table[2];
    cache[3] := table[3];
    cache[4] := table[4];
    cache[5] := table[5];
    cache[6] := table[6];
    cache[7] := table[7];
    assert forall k :: 0 <= k < 8 ==> cache[k] == table[k];
  }

  /** No wrapper is outstanding once every pointer is zero. */
  lemma NullOutstanding()
    ensures Outstanding(NullPointers) == {}
  {
    assert forall n :: n in PointerOrder(NullPointers) ==> n == 0;
  }

  class NrdHelper {
    /** `m_ResourceCache`; length 0 before it is first created. */
    var resourceCache: array<NrdResourceInput>
    /** `FrameIndex`, a `uint`. */
    var frameIndex: nat
    const nrdInstanceId: int
    var prevViewMatrix: Matrix
    var prevViewProjMatrix: Matrix
    var prevWidth: int
    var prevHeight: int
    /** The 3-slot `NativeArray<FrameData>`, its liveness, and its base address. */
    const buffer: array<FrameData>
    var bufferCreated: bool
    const bufferAddress: nat
    const frameDataSize: nat
    var handles: Handles
    /** The `Ptr_*` fields. */
    var ptrs: TexturePointers
    /** The `nri*` fields. */
    var nris: TexturePointers
    /** The NRI wrappers the helper's calls have created and not released. */
    ghost var live: set<nat>

    /** The wrappers outstanding are exactly the non-null ones the helper holds. */
    ghost predicate Valid()
      reads this
    {
      frameIndex < TwoTo32 && buffer.Length == FrameBufferCount
      && (resourceCache.Length == 0 || resourceCache.Length == MaxResources)
      && live == Outstanding(nris)
    }

    /** Neither the frame counter, the stored size, the previous matrices nor the frame
        buffer's liveness changed. */
    twostate predicate KeepsFrameState()
      reads this
    {
      frameIndex == old(frameIndex) && prevWidth == old(prevWidth) && prevHeight == old(prevHeight)
      && prevViewMatrix == old(prevViewMatrix) && prevViewProjMatrix == old(prevViewProjMatrix)
      && bufferCreated == old(bufferCreated)
    }

    /** `NRDHelper(setting)`, given the id `CreateDenoiserInstance` returned. */
    constructor (instanceId: int, bufferAddress: nat, frameDataSize: nat)
      ensures Valid()
      ensures nrdInstanceId == instanceId && this.bufferAddress == bufferAddress && this.frameDataSize == frameDataSize
      ensures frameIndex == 0 && prevWidth == -1 && prevHeight == -1
      ensures prevViewMatrix == ZeroMatrix && prevViewProjMatrix == ZeroMatrix
      ensures handles == NoHandles && ptrs == NullPointers && nris == NullPointers && live == {}
      ensures resourceCache.Length == 0 && fresh(resourceCache)
      ensures bufferCreated && fresh(buffer) && buffer[..] == [DefaultFrameData, DefaultFrameData, DefaultFrameData]
    {
      nrdInstanceId := instanceId;
      this.bufferAddress := bufferAddress;
      this.frameDataSize := frameDataSize;
      frameIndex := 0;
      prevWidth := -1;
      prevHeight := -1;
      prevViewMatrix := ZeroMatrix;
      prevViewProjMatrix := ZeroMatrix;
      handles := NoHandles;
      ptrs := NullPointers;
      nris := NullPointers;
      live := {};
      resourceCache := new NrdResourceInput[0];
      buffer := new FrameData[FrameBufferCount](_ => DefaultFrameData);
      bufferCreated := true;
      NullOutstanding();
    }

    /**
     * `UpdateResourceSnapshotInCpp`: (re)creates the 20-entry buffer if it is missing or
     * short, writes the eight table entries at its start, and sends them.
     */
    method UpdateResourceSnapshotInCpp() returns (sent: seq<NrdResourceInput>)
      requires Valid()
      modifies this, resourceCache
      ensures Valid() && KeepsFrameState()
      ensures sent == HelperSnapshot(nris, frameIndex)
      ensures resourceCache.Length == MaxResources && resourceCache[..8] == sent
      ensures resourceCache == old(resourceCache) || fresh(resourceCache)
      ensures handles == old(handles) && ptrs == old(ptrs) && nris == old(nris) && live == old(live)
    {
      if resourceCache.Length < MaxResources {
        resourceCache := new NrdResourceInput[MaxResources](_ => NrdResourceInput(IN_MV, 0, NriResourceState(0, UNDEFINED, 0)));
      }
      WriteTable(resourceCache, HelperSnapshot(nris, frameIndex));
      sent := resourceCache[..8];
    }

    /**
     * `ReleaseTextures`: releases all eight wrappers and all eight handles, null or not,
     * and leaves every handle null and every pointer zero; no wrapper is outstanding
     * afterwards.
     */
    method ReleaseTextures() returns (calls: seq<GpuCall>)
      requires Valid()
      modifies this
      ensures Valid() && KeepsFrameState() && resourceCache == old(resourceCache)
      ensures calls == HelperReleaseCalls(old(nris), old(handles))
      ensures handles == NoHandles && ptrs == NullPointers && nris == NullPointers
      ensures live == LiveAfter(old(live), calls) == {}
    {
      calls := HelperReleaseCalls(nris, handles);
      ReleaseLeavesNoWrapper(live, nris, handles);
      NullOutstanding();
      live := {};
      nris := NullPointers;
      handles := NoHandles;
      ptrs := NullPointers;
    }

    /** Whether `EnsureResources(width, height)` returns early: same size as before, and the
        motion-vector and view-depth handles exist. */
    predicate Reuses(width: int, height: int)
      reads this
    {
      width == prevWidth && height == prevHeight && handles.mv.Some? && handles.viewZ.Some?
    }

    /**
     * `EnsureResources(width, height)`. When it returns early nothing is allocated or
     * released, and the table is re-sent only when the frame index is 1. Otherwise the old
     * textures are released first, the size is stored, the frame index restarts at 0, all
     * eight textures are allocated and wrapped, and the first-frame table is sent.
     * `natives` and `wrapped` are what `GetNativeTexturePtr` and `WrapD3D12Texture` return.
     */
    method EnsureResources(width: int, height: int, natives: TexturePointers, wrapped: TexturePointers)
      returns (sent: Option<seq<NrdResourceInput>>, calls: seq<GpuCall>)
      requires Valid()
      modifies this, resourceCache
      ensures Valid()
      ensures prevViewMatrix == old(prevViewMatrix) && prevViewProjMatrix == old(prevViewProjMatrix)
      ensures bufferCreated == old(bufferCreated) && live == LiveAfter(old(live), calls)
      ensures resourceCache == old(resourceCache) || fresh(resourceCache)
      ensures old(Reuses(width, height)) ==>
                calls == [] && frameIndex == old(frameIndex) && prevWidth == old(prevWidth) && prevHeight == old(prevHeight)
                && handles == old(handles) && ptrs == old(ptrs) && nris == old(nris)
                && sent == (if old(frameIndex) == 1 then Some(HelperSnapshot(nris, 1)) else None)
      ensures !old(Reuses(width, height)) ==>
                calls == HelperReleaseCalls(old(nris), old(handles)) + ResizeCalls(width, height, natives, wrapped)
                && prevWidth == width && prevHeight == height && frameIndex == 0
                && handles == AllocatedHandles(width, height) && ptrs == natives && nris == wrapped
                && sent == Some(HelperSnapshot(wrapped, 0))
    {
      if Reuses(width, height) {
        calls := [];
        if frameIndex == 1 {
          var entries := UpdateResourceSnapshotInCpp();
          sent := Some(entries);
        } else {
          sent := None;
        }
        return;
      }
      calls := Reallocate(width, height, natives, wrapped);
      var entries := UpdateResourceSnapshotInCpp();
      sent := Some(entries);
    }

    /** The reallocating path of `EnsureResources`, up to the snapshot. */
    method Reallocate(width: int, height: int, natives: TexturePointers, wrapped: TexturePointers)
      returns (calls: seq<GpuCall>)
      requires Valid()
      modifies this
      ensures Valid() && resourceCache == old(resourceCache)
      ensures prevViewMatrix == old(prevViewMatrix) && prevViewProjMatrix == old(prevViewProjMatrix)
      ensures bufferCreated == old(bufferCreated) && live == LiveAfter(old(live), calls)
      ensures calls == HelperReleaseCalls(old(nris), old(handles)) + ResizeCalls(width, height, natives, wrapped)
      ensures prevWidth == width && prevHeight == height && frameIndex == 0
      ensures handles == AllocatedHandles(width, height) && ptrs == natives && nris == wrapped
    {
      calls := ReleaseTextures();
      var made := ResizeCalls(width, height, natives, wrapped);
      ResizeOutstanding(width, height, natives, wrapped);
      LiveAfterConcat(old(live), calls, made);
      live := Outstanding(wrapped);
      calls := calls + made;
      prevWidth := width;
      prevHeight := height;
      frameIndex := 0;
      handles := AllocatedHandles(width, height);
      ptrs := natives;
      nris := wrapped;
    }

    /**
     * `GetData(camera, dirToLight)`: the frame data for this camera with the helper's
     * native pointers, after which the camera's own matrices (not the overriding ones)
     * become the previous ones.
     */
    method GetData(camera: Camera, setting: Option<MatrixOverride>) returns (data: FrameData)
      modifies this
      ensures data == HelperFrameData(camera, old(prevViewProjMatrix), old(prevViewMatrix), frameIndex,
                                      nrdInstanceId, ptrs, setting)
      ensures prevViewProjMatrix == camera.gpuProjection && prevViewMatrix == camera.worldToCameraMatrix
      ensures frameIndex == old(frameIndex) && prevWidth == old(prevWidth) && prevHeight == old(prevHeight)
      ensures handles == old(handles) && ptrs == old(ptrs) && nris == old(nris) && live == old(live)
      ensures resourceCache == old(resourceCache) && bufferCreated == old(bufferCreated)
    {
      data := HelperFrameData(camera, prevViewProjMatrix, prevViewMatrix, frameIndex, nrdInstanceId, ptrs, setting);
      prevViewProjMatrix := camera.gpuProjection;
      prevViewMatrix := camera.worldToCameraMatrix;
    }

    /**
     * `GetInteropDataPtr(camera, dirToLight)`: writes this frame's data into slot
     * `FrameIndex % 3`, leaves the other two slots alone, advances the 32-bit frame index
     * by one, and returns the address of the written slot.
     */
    method GetInteropDataPtr(camera: Camera, setting: Option<MatrixOverride>) returns (address: nat)
      requires Valid()
      modifies this, buffer
      ensures Valid()
      ensures buffer[RingSlot(old(frameIndex))] ==
                HelperFrameData(camera, old(prevViewProjMatrix), old(prevViewMatrix), old(frameIndex),
                                nrdInstanceId, ptrs, setting)
      ensures forall j :: 0 <= j < buffer.Length && j != RingSlot(old(frameIndex)) ==> buffer[j] == old(buffer[j])
      ensures frameIndex == IncUInt32(old(frameIndex))
      ensures address == bufferAddress + RingSlot(old(frameIndex)) * frameDataSize
      ensures prevViewProjMatrix == camera.gpuProjection && prevViewMatrix == camera.worldToCameraMatrix
      ensures prevWidth == old(prevWidth) && prevHeight == old(prevHeight)
      ensures handles == old(handles) && ptrs == old(ptrs) && nris == old(nris) && live == old(live)
      ensures resourceCache == old(resourceCache) && bufferCreated == old(bufferCreated)
    {
      var index := RingSlot(frameIndex);
      var data := GetData(camera, setting);
      buffer[index] := data;
      frameIndex := IncUInt32(frameIndex);
      address := bufferAddress + index * frameDataSize;
    }

    /** `Dispose`: frees the frame buffer if it is live, releases the textures and destroys
        the native instance. */
    method Dispose() returns (calls: seq<GpuCall>, destroyedId: int)
      requires Valid()
      modifies this
      ensures Valid() && !bufferCreated && live == {}
      ensures calls == HelperReleaseCalls(old(nris), old(handles))
      ensures handles == NoHandles && ptrs == NullPointers && nris == NullPointers
      ensures destroyedId == nrdInstanceId
    {
      if bufferCreated {
        bufferCreated := false;
      }
      calls := ReleaseTextures();
      destroyedId := nrdInstanceId;
    }
  }
}
