/**
 * Model of UnityProject/Assets/Scripts/NRD/NRDDenoiser.cs: the managed front-end that
 * owns one native NRD instance, the list of its denoiser textures, the 20-entry
 * resource buffer it hands to the plugin, and a 3-slot ring of frame data blocks.
 *
 * The plugin's `CreateDenoiserInstance` result, the address of the frame-data buffer
 * and `sizeof(FrameData)` are constructor parameters; the native pointers and NRI
 * wrappers that allocations return are parameters of `EnsureResources`.
 */
module NrdDenoisers {
  import opened Base
  import opened NrdTypes
  import opened NrdUtil
  import opened NrdTextures
  import NrdInstances

  /** `maxResources`: the capacity of the resource buffer. */
  const MaxResources: nat := 20

  /** What one `UpdateResourceSnapshotInCpp` hands to the plugin. */
  datatype SnapshotOutcome =
    | NoSnapshot
      /** `UpdateDenoiserResources(id, entries, |entries|)`. */
    | Sent(entries: seq<NrdResourceInput>)
      /** More entries than the buffer holds: the unchecked `ptr[idx++]` writes past its end. */
    | Overrun(count: nat)

  /** The entry written for one texture resource. */
  function InputOf(r: NrdTextureResource): NrdResourceInput
    reads r
  {
    NrdResourceInput(r.resourceType, r.nriPtr, r.resourceState)
  }

  /** One entry per resource, in list order. */
  function InputsOf(rs: seq<NrdTextureResource>): (entries: seq<NrdResourceInput>)
    reads set r | r in rs
    ensures |entries| == |rs|
    ensures forall i :: 0 <= i < |rs| ==> entries[i] == InputOf(rs[i])
  {
    if rs == [] then [] else InputsOf(rs[..|rs| - 1]) + [InputOf(rs[|rs| - 1])]
  }

  /** What a snapshot of the list `rs` hands to the plugin. */
  function SnapshotFor(rs: seq<NrdTextureResource>): SnapshotOutcome
    reads set r | r in rs
  {
    if |rs| <= MaxResources then Sent(InputsOf(rs)) else Overrun(|rs|)
  }

  /** The index `List.Find` stops at: the first resource of type `t`. */
  function FirstOfType(rs: seq<NrdTextureResource>, t: ResourceType): (i: Option<nat>)
    ensures i.Some? ==> i.value < |rs| && rs[i.value].resourceType == t
    ensures i.Some? ==> forall j :: 0 <= j < i.value ==> rs[j].resourceType != t
    ensures i.None? ==> forall j :: 0 <= j < |rs| ==> rs[j].resourceType != t
  {
    if rs == [] then None
    else if rs[0].resourceType == t then Some(0)
    else match FirstOfType(rs[1..], t)
      case None => None
      case Some(k) => Some(k + 1)
  }

  /** The type, format and initial state of one resource a size change creates. */
  datatype ResourceSpec = ResourceSpec(resourceType: ResourceType, format: GraphicsFormat, state: NriResourceState)

  /** The eight resources a size change adds, in order. */
  const AddedResources: seq<ResourceSpec> := [
    ResourceSpec(IN_MV, RGBA16Float, SrvState),
    ResourceSpec(IN_VIEWZ, R32Float, SrvState),
    ResourceSpec(IN_NORMAL_ROUGHNESS, RGB10A2UNorm, SrvState),
    ResourceSpec(IN_PENUMBRA, R16Float, SrvState),
    ResourceSpec(OUT_SHADOW_TRANSLUCENCY, R16Float, UavState),
    ResourceSpec(IN_DIFF_RADIANCE_HITDIST, RGBA16Float, SrvState),
    ResourceSpec(OUT_DIFF_RADIANCE_HITDIST, RGBA16Float, UavState),
    ResourceSpec(OUT_VALIDATION, RGBA8UNorm, UavState)
  ]

  /** NRD's access rule for one added resource: inputs are read as shader resources,
      outputs written as storage, and every type is exactly one of the two. */
  predicate AccessRule(s: ResourceSpec)
  {
    (IsInput(s.resourceType) ==> s.state == SrvState)
    && (IsOutput(s.resourceType) ==> s.state == UavState)
    && IsInput(s.resourceType) != IsOutput(s.resourceType)
  }

  /** Every added resource follows the access rule. */
  lemma AddedResourcesFollowAccessRule()
    ensures |AddedResources| == 8
    ensures forall i :: 0 <= i < |AddedResources| ==> AccessRule(AddedResources[i])
  {
    FirstAddedFollowAccessRule();
    LastAddedFollowAccessRule();
  }

  lemma FirstAddedFollowAccessRule()
    ensures AccessRule(AddedResources[0]) && AccessRule(AddedResources[1])
    ensures AccessRule(AddedResources[2]) && AccessRule(AddedResources[3])
  {
    assert AccessRule(AddedResources[0]) && AccessRule(AddedResources[1]);
  }

  lemma LastAddedFollowAccessRule()
    ensures AccessRule(AddedResources[4]) && AccessRule(AddedResources[5])
    ensures AccessRule(AddedResources[6]) && AccessRule(AddedResources[7])
  {
    assert AccessRule(AddedResources[4]) && AccessRule(AddedResources[5]);
  }

  /** The added resources have pairwise distinct types, so a size change adds one
      resource of each. */
  lemma AddedResourceTypesDistinct()
    ensures forall i, j :: 0 <= i < j < |AddedResources| ==> AddedResources[i].resourceType != AddedResources[j].resourceType
  {
  }

  /** Every format the added resources use has a DXGI code. */
  lemma AddedResourceFormatsSupported()
    ensures forall i :: 0 <= i < |AddedResources| ==> GetDxgiFormat(AddedResources[i].format) != DxgiFormat.UNKNOWN
  {
    DenoiserFormatsSupported();
    assert forall i :: 0 <= i < |AddedResources| ==>
      AddedResources[i].format in {RGBA16Float, R32Float, RGB10A2UNorm, R16Float, RGBA8UNorm};
  }

  /** Whether a resource was made from a spec. */
  predicate Matches(r: NrdTextureResource, s: ResourceSpec)
  {
    r.resourceType == s.resourceType && r.graphicsFormat == s.format && r.resourceState == s.state
    && r.name == ResourceTypeName(s.resourceType) && !r.srgb
  }

  /** Whether `r` holds a `width` x `height` texture with native pointer `native` and NRI
      wrapper `nri`. */
  predicate AllocatedAs(r: NrdTextureResource, width: int, height: int, native: nat, nri: nat)
    reads r
  {
    r.handle == Some(DenoiserTexture(r.name, width, height, r.graphicsFormat, r.srgb))
    && r.nativePtr == native && r.nriPtr == nri
  }

  /** `rs` ends with eight resources made from `AddedResources`, in order. */
  predicate EndsWithAdded(rs: seq<NrdTextureResource>)
  {
    |rs| >= 8 && forall k :: 0 <= k < 8 ==> Matches(rs[|rs| - 8 + k], AddedResources[k])
  }

  /** Every resource of `rs` holds a `width` x `height` texture, the i-th with native
      pointer `natives[i]` and NRI wrapper `nris[i]`. */
  predicate AllAllocatedAs(rs: seq<NrdTextureResource>, width: int, height: int, natives: seq<nat>, nris: seq<nat>)
    reads set r | r in rs
  {
    |rs| <= |natives| && |rs| <= |nris|
    && forall i :: 0 <= i < |rs| ==> AllocatedAs(rs[i], width, height, natives[i], nris[i])
  }

  /** Whether `r` holds neither a handle nor a pointer. */
  predicate Released(r: NrdTextureResource)
    reads r
  {
    !r.IsCreated() && r.nriPtr == 0 && r.nativePtr == 0
  }

  /** The NRI wrapper and handle each resource holds, in list order. */
  function HeldStates(rs: seq<NrdTextureResource>): (held: seq<(nat, Option<RenderTexture>)>)
    reads set r | r in rs
    ensures |held| == |rs|
    ensures forall i :: 0 <= i < |rs| ==> held[i] == (rs[i].nriPtr, rs[i].handle)
  {
    if rs == [] then [] else HeldStates(rs[..|rs| - 1]) + [(rs[|rs| - 1].nriPtr, rs[|rs| - 1].handle)]
  }

  /** The calls releasing resources in the states `held` makes, in order. */
  function ReleaseLog(held: seq<(nat, Option<RenderTexture>)>): seq<GpuCall>
  {
    if held == [] then [] else ReleaseLog(held[..|held| - 1]) + ReleaseCalls(held[|held| - 1].0, held[|held| - 1].1)
  }

  lemma ReleaseLogStep(held: seq<(nat, Option<RenderTexture>)>, i: nat)
    requires i < |held|
    ensures ReleaseLog(held[..i + 1]) == ReleaseLog(held[..i]) + ReleaseCalls(held[i].0, held[i].1)
  {
    assert held[..i + 1][..i] == held[..i];
  }

  /** A fresh, unallocated resource for each entry of `specs`, in order. */
  method NewResources(specs: seq<ResourceSpec>) returns (rs: seq<NrdTextureResource>)
    ensures |rs| == |specs|
    ensures forall i :: 0 <= i < |rs| ==> fresh(rs[i]) && rs[i].Valid() && Matches(rs[i], specs[i])
    ensures forall i, j :: 0 <= i < j < |rs| ==> rs[i] != rs[j]
  {
    rs := [];
    for k := 0 to |specs|
      invariant |rs| == k
      invariant forall i :: 0 <= i < k ==> fresh(rs[i]) && rs[i].Valid() && Matches(rs[i], specs[i])
      invariant forall i, j :: 0 <= i < j < k ==> rs[i] != rs[j]
    {
      var r := new NrdTextureResource(specs[k].resourceType, specs[k].format, specs[k].state, false);
      rs := rs + [r];
    }
  }

  /** Lookup result of `GetRT`: `Missing` is the `NullReferenceException` the source throws
      when no resource has the type. */
  datatype RtLookup = Missing | Found(handle: Option<RenderTexture>)

  class NrdDenoiser {
    /** `FrameIndex`, a `uint`. */
    var frameIndex: nat
    const nrdInstanceId: int
    var prevViewMatrix: Matrix
    var prevViewProjMatrix: Matrix
    var prevWidth: int
    var prevHeight: int
    /** The 3-slot `NativeArray<FrameData>`, its liveness, and its base address. */
    const buffer: array<FrameData>
    var bufferCreated: bool
    const bufferAddress: nat
    const frameDataSize: nat
    /** `m_ResourceCache`; length 0 before it is first created. */
    var resourceCache: array<NrdResourceInput>
    var allocatedResources: seq<NrdTextureResource>

    /** Neither the frame counter, the stored size, the previous matrices nor the frame
        buffer's liveness changed. */
    twostate predicate KeepsFrameState()
      reads this
    {
      frameIndex == old(frameIndex) && prevWidth == old(prevWidth) && prevHeight == old(prevHeight)
      && prevViewMatrix == old(prevViewMatrix) && prevViewProjMatrix == old(prevViewProjMatrix)
      && bufferCreated == old(bufferCreated)
    }

    /** Every resource now listed was listed before or is new. */
    twostate predicate OnlyFreshAdded()
      reads this
    {
      forall r :: r in allocatedResources ==> r in old(allocatedResources) || fresh(r)
    }

    ghost predicate Valid()
      reads this, set r | r in allocatedResources
    {
      frameIndex < TwoTo32 && buffer.Length == FrameBufferCount
      && (resourceCache.Length == 0 || resourceCache.Length == MaxResources)
      && (forall i, j :: 0 <= i < j < |allocatedResources| ==> allocatedResources[i] != allocatedResources[j])
      && (forall r :: r in allocatedResources ==> r.Valid())
    }

    /** `NRDDenoiser(setting)`, given the id `CreateDenoiserInstance` returned. */
    constructor (instanceId: int, bufferAddress: nat, frameDataSize: nat)
      ensures Valid()
      ensures nrdInstanceId == instanceId && this.bufferAddress == bufferAddress && this.frameDataSize == frameDataSize
      ensures frameIndex == 0 && prevWidth == -1 && prevHeight == -1
      ensures prevViewMatrix == ZeroMatrix && prevViewProjMatrix == ZeroMatrix
      ensures allocatedResources == [] && resourceCache.Length == 0 && fresh(resourceCache)
      ensures bufferCreated && fresh(buffer) && buffer[..] == [DefaultFrameData, DefaultFrameData, DefaultFrameData]
    {
      nrdInstanceId := instanceId;
      this.bufferAddress := bufferAddress;
      this.frameDataSize := frameDataSize;
      frameIndex := 0;
      prevWidth := -1;
      prevHeight := -1;
      prevViewMatrix := ZeroMatrix;
      prevViewProjMatrix := ZeroMatrix;
      allocatedResources := [];
      resourceCache := new NrdResourceInput[0];
      buffer := new FrameData[FrameBufferCount](_ => DefaultFrameData);
      bufferCreated := true;
    }

    /** `GetResource(type)`: the first resource of that type, if any. */
    function GetResource(t: ResourceType): (r: Option<NrdTextureResource>)
      reads this
      ensures r.Some? <==> exists i :: 0 <= i < |allocatedResources| && allocatedResources[i].resourceType == t
      ensures r.Some? ==> r.value in allocatedResources && r.value.resourceType == t
      ensures r.Some? ==> exists i :: 0 <= i < |allocatedResources| && allocatedResources[i] == r.value
                                      && forall j :: 0 <= j < i ==> allocatedResources[j].resourceType != t
    {
      match FirstOfType(allocatedResources, t)
      case None => None
      case Some(i) => Some(allocatedResources[i])
    }

    /** `GetRT(type)`: the handle of the first resource of that type. */
    function GetRT(t: ResourceType): (r: RtLookup)
      reads this, set r | r in allocatedResources
      ensures r.Missing? <==> forall i :: 0 <= i < |allocatedResources| ==> allocatedResources[i].resourceType != t
      ensures r.Found? ==> exists i :: 0 <= i < |allocatedResources| && allocatedResources[i].resourceType == t
                                        && r.handle == allocatedResources[i].handle
                                        && forall j :: 0 <= j < i ==> allocatedResources[j].resourceType != t
    {
      match GetResource(t)
      case None => Missing
      case Some(res) => Found(res.handle)
    }

    /**
     * `UpdateResourceSnapshotInCpp`: (re)creates the 20-entry buffer if it is missing,
     * writes one entry per resource in list order, and hands the entries to the plugin.
     * With more than 20 resources the writes run past the buffer.
     */
    method UpdateResourceSnapshotInCpp() returns (sent: SnapshotOutcome)
      requires Valid()
      modifies this, resourceCache
      ensures Valid()
      ensures sent == SnapshotFor(allocatedResources)
      ensures resourceCache.Length == MaxResources
      ensures sent.Sent? ==> resourceCache[..|sent.entries|] == sent.entries
      ensures allocatedResources == old(allocatedResources) && KeepsFrameState()
      ensures resourceCache == old(resourceCache) || fresh(resourceCache)
    {
      if resourceCache.Length < MaxResources {
        resourceCache := new NrdResourceInput[MaxResources](_ => NrdResourceInput(IN_MV, 0, NriResourceState(0, UNDEFINED, 0)));
      }
      var idx := 0;
      while idx < |allocatedResources|
        invariant resourceCache.Length == MaxResources
        invariant resourceCache == old(resourceCache) || fresh(resourceCache)
        invariant 0 <= idx <= |allocatedResources| && idx <= MaxResources
        invariant forall k :: 0 <= k < idx ==> resourceCache[k] == InputOf(allocatedResources[k])
        invariant allocatedResources == old(allocatedResources) && KeepsFrameState()
      {
        if idx == resourceCache.Length {
          return Overrun(|allocatedResources|);
        }
        resourceCache[idx] := InputOf(allocatedResources[idx]);
        idx := idx + 1;
      }
      sent := Sent(resourceCache[..idx]);
    }

    /** The eight `allocatedResources.Add` calls of a size change. */
    method AddAll()
      requires Valid()
      modifies this
      ensures Valid() && KeepsFrameState() && resourceCache == old(resourceCache)
      ensures |allocatedResources| == |old(allocatedResources)| + 8
      ensures allocatedResources[..|old(allocatedResources)|] == old(allocatedResources)
      ensures EndsWithAdded(allocatedResources) && OnlyFreshAdded()
    {
      var added := NewResources(AddedResources);
      allocatedResources := allocatedResources + added;
      assert allocatedResources[..|old(allocatedResources)|] == old(allocatedResources);
      assert forall k :: 0 <= k < 8 ==> allocatedResources[|allocatedResources| - 8 + k] == added[k];
    }

    /** The `foreach` that allocates every resource in the list at `width` x `height`,
        the i-th with native pointer `natives[i]` and NRI wrapper `nris[i]`. */
    method AllocateAll(width: int, height: int, natives: seq<nat>, nris: seq<nat>)
      requires Valid()
      requires |natives| >= |allocatedResources| && |nris| >= |allocatedResources|
      modifies set r | r in allocatedResources
      ensures Valid() && AllAllocatedAs(allocatedResources, width, height, natives, nris)
    {
      var i := 0;
      while i < |allocatedResources|
        invariant Valid() && 0 <= i <= |allocatedResources|
        invariant forall j :: 0 <= j < i ==> AllocatedAs(allocatedResources[j], width, height, natives[j], nris[j])
      {
        var _ := allocatedResources[i].Allocate(width, height, natives[i], nris[i]);
        i := i + 1;
      }
    }

    /**
     * The size-change path of `EnsureResources`: stores the new size, restarts the frame
     * index at 0, appends the eight resources, allocates every resource in the list at the
     * new size, and sends the whole list.
     */
    method Rebuild(width: int, height: int, natives: seq<nat>, nris: seq<nat>) returns (sent: SnapshotOutcome)
      requires Valid()
      requires |natives| >= |allocatedResources| + 8 && |nris| >= |allocatedResources| + 8
      modifies this, resourceCache, set r | r in allocatedResources
      ensures Valid()
      ensures prevViewMatrix == old(prevViewMatrix) && prevViewProjMatrix == old(prevViewProjMatrix)
      ensures bufferCreated == old(bufferCreated)
      ensures OnlyFreshAdded() && (resourceCache == old(resourceCache) || fresh(resourceCache))
      ensures prevWidth == width && prevHeight == height && frameIndex == 0
      ensures |allocatedResources| == |old(allocatedResources)| + 8
      ensures allocatedResources[..|old(allocatedResources)|] == old(allocatedResources)
      ensures EndsWithAdded(allocatedResources)
      ensures AllAllocatedAs(allocatedResources, width, height, natives, nris)
      ensures sent == SnapshotFor(allocatedResources)
    {
      prevWidth := width;
      prevHeight := height;
      frameIndex := 0;
      AddAll();
      AllocateAll(width, height, natives, nris);
      sent := UpdateResourceSnapshotInCpp();
    }

    /**
     * `EnsureResources(width, height)`. With the size of the previous call nothing is
     * reallocated and the frame index is kept; the snapshot is re-sent only when the frame
     * index is 1. A new size is stored, the frame index restarts at 0, eight resources are
     * appended without clearing the list, every resource is reallocated at the new size,
     * and the whole list is sent.
     */
    method EnsureResources(width: int, height: int, natives: seq<nat>, nris: seq<nat>) returns (sent: SnapshotOutcome)
      requires Valid()
      requires |natives| >= |allocatedResources| + 8 && |nris| >= |allocatedResources| + 8
      modifies this, resourceCache, set r | r in allocatedResources
      ensures Valid()
      ensures prevViewMatrix == old(prevViewMatrix) && prevViewProjMatrix == old(prevViewProjMatrix)
      ensures bufferCreated == old(bufferCreated)
      ensures OnlyFreshAdded() && (resourceCache == old(resourceCache) || fresh(resourceCache))
      ensures width == old(prevWidth) && height == old(prevHeight) ==>
                allocatedResources == old(allocatedResources) && frameIndex == old(frameIndex)
                && (forall r :: r in allocatedResources ==> unchanged(r))
                && sent == (if old(frameIndex) == 1 then SnapshotFor(allocatedResources) else NoSnapshot)
      ensures !(width == old(prevWidth) && height == old(prevHeight)) ==>
                prevWidth == width && prevHeight == height && frameIndex == 0
                && |allocatedResources| == |old(allocatedResources)| + 8
                && allocatedResources[..|old(allocatedResources)|] == old(allocatedResources)
                && EndsWithAdded(allocatedResources)
                && AllAllocatedAs(allocatedResources, width, height, natives, nris)
                && sent == SnapshotFor(allocatedResources)
    {
      if width == prevWidth && height == prevHeight {
        if frameIndex == 1 {
          sent := UpdateResourceSnapshotInCpp();
        } else {
          sent := NoSnapshot;
        }
        return;
      }
      sent := Rebuild(width, height, natives, nris);
    }

    /**
     * The evidently intended `EnsureResources`: on a size change the old resources are
     * released and the list cleared before the eight new ones are added, as NRDHelper.cs
     * does, so the list holds exactly the eight current resources and the snapshot fits.
     */
    method EnsureResourcesReplacing(width: int, height: int, natives: seq<nat>, nris: seq<nat>)
      returns (sent: SnapshotOutcome)
      requires Valid() && |allocatedResources| <= 8
      requires |natives| >= 8 && |nris| >= 8
      modifies this, resourceCache, set r | r in allocatedResources
      ensures Valid() && |allocatedResources| <= 8
      ensures OnlyFreshAdded() && (resourceCache == old(resourceCache) || fresh(resourceCache))
      ensures width == old(prevWidth) && height == old(prevHeight) ==>
                allocatedResources == old(allocatedResources) && frameIndex == old(frameIndex)
                && sent == (if old(frameIndex) == 1 then SnapshotFor(allocatedResources) else NoSnapshot)
      ensures !(width == old(prevWidth) && height == old(prevHeight)) ==>
                prevWidth == width && prevHeight == height && frameIndex == 0
                && |allocatedResources| == 8 && EndsWithAdded(allocatedResources)
                && AllAllocatedAs(allocatedResources, width, height, natives, nris)
                && sent == Sent(InputsOf(allocatedResources))
      ensures !sent.Overrun? && (sent.Sent? ==> |sent.entries| <= 8)
    {
      if width == prevWidth && height == prevHeight {
        if frameIndex == 1 {
          sent := UpdateResourceSnapshotInCpp();
        } else {
          sent := NoSnapshot;
        }
        return;
      }
      var _ := ReleaseTextures();
      sent := Rebuild(width, height, natives, nris);
    }

    /** The `foreach` of `ReleaseTextures`: releases every resource in list order. */
    method ReleaseAll() returns (calls: seq<GpuCall>)
      requires Valid()
      modifies set r | r in allocatedResources
      ensures Valid()
      ensures calls == ReleaseLog(old(HeldStates(allocatedResources)))
      ensures forall r :: r in allocatedResources ==> Released(r)
    {
      ghost var held := HeldStates(allocatedResources);
      calls := [];
      var i := 0;
      while i < |allocatedResources|
        invariant Valid() && 0 <= i <= |allocatedResources| == |held|
        invariant calls == ReleaseLog(held[..i])
        invariant forall j :: 0 <= j < i ==> Released(allocatedResources[j])
        invariant forall j :: i <= j < |allocatedResources| ==>
                    (allocatedResources[j].nriPtr, allocatedResources[j].handle) == held[j]
      {
        var c := allocatedResources[i].Release();
        ReleaseLogStep(held, i);
        calls := calls + c;
        i := i + 1;
      }
      assert held[..i] == held;
    }

    /** `ReleaseTextures`: releases every resource in list order, then empties the list. */
    method ReleaseTextures() returns (calls: seq<GpuCall>)
      requires Valid()
      modifies this, set r | r in allocatedResources
      ensures Valid() && allocatedResources == []
      ensures calls == ReleaseLog(old(HeldStates(allocatedResources)))
      ensures forall r :: r in old(allocatedResources) ==> Released(r)
      ensures KeepsFrameState() && resourceCache == old(resourceCache)
    {
      calls := ReleaseAll();
      allocatedResources := [];
    }

    /**
     * `GetData(camera, dirToLight)`: the integer, pointer and matrix fields of the frame
     * data (no texture pointer is set), after which the camera's matrices become the
     * previous ones.
     */
    method GetData(camera: Camera) returns (data: FrameData)
      modifies this
      ensures data == FrameDataFor(camera, old(prevViewProjMatrix), old(prevViewMatrix), frameIndex,
                                   nrdInstanceId, NullPointers)
      ensures prevViewProjMatrix == camera.gpuProjection && prevViewMatrix == camera.worldToCameraMatrix
      ensures frameIndex == old(frameIndex) && prevWidth == old(prevWidth) && prevHeight == old(prevHeight)
      ensures allocatedResources == old(allocatedResources) && resourceCache == old(resourceCache)
      ensures bufferCreated == old(bufferCreated)
    {
      data := FrameDataFor(camera, prevViewProjMatrix, prevViewMatrix, frameIndex, nrdInstanceId, NullPointers);
      prevViewProjMatrix := camera.gpuProjection;
      prevViewMatrix := camera.worldToCameraMatrix;
    }

    /**
     * `GetInteropDataPtr(camera, dirToLight)`: writes this frame's data into slot
     * `FrameIndex % 3`, leaves the other two slots alone, advances the 32-bit frame index
     * by one, and returns the address of the written slot.
     */
    method GetInteropDataPtr(camera: Camera) returns (address: nat)
      requires Valid()
      modifies this, buffer
      ensures Valid()
      ensures buffer[RingSlot(old(frameIndex))] ==
                FrameDataFor(camera, old(prevViewProjMatrix), old(prevViewMatrix), old(frameIndex), nrdInstanceId, NullPointers)
      ensures forall j :: 0 <= j < buffer.Length && j != RingSlot(old(frameIndex)) ==> buffer[j] == old(buffer[j])
      ensures frameIndex == IncUInt32(old(frameIndex))
      ensures address == bufferAddress + RingSlot(old(frameIndex)) * frameDataSize
      ensures prevViewProjMatrix == camera.gpuProjection && prevViewMatrix == camera.worldToCameraMatrix
      ensures prevWidth == old(prevWidth) && prevHeight == old(prevHeight)
      ensures allocatedResources == old(allocatedResources) && resourceCache == old(resourceCache)
      ensures bufferCreated == old(bufferCreated)
    {
      var index := RingSlot(frameIndex);
      var data := GetData(camera);
      buffer[index] := data;
      frameIndex := IncUInt32(frameIndex);
      address := bufferAddress + index * frameDataSize;
    }

    /** `Dispose`: frees the frame buffer if it is live, releases every texture and
        destroys the native instance. */
    method Dispose() returns (calls: seq<GpuCall>, destroyedId: int)
      requires Valid()
      modifies this, set r | r in allocatedResources
      ensures Valid() && !bufferCreated && allocatedResources == []
      ensures calls == ReleaseLog(old(HeldStates(allocatedResources)))
      ensures forall r :: r in old(allocatedResources) ==> Released(r)
      ensures destroyedId == nrdInstanceId
    {
      if bufferCreated {
        bufferCreated := false;
      }
      calls := ReleaseTextures();
      destroyedId := nrdInstanceId;
    }
  }

  /** One call of the source's `EnsureResources` with a size other than the stored one:
      eight more resources, and the snapshot of the whole list. */
  method GrowOnce(d: NrdDenoiser, width: int, height: int, natives: seq<nat>) returns (sent: SnapshotOutcome)
    requires d.Valid() && !(width == d.prevWidth && height == d.prevHeight)
    requires |natives| >= |d.allocatedResources| + 8
    modifies d, d.resourceCache, set r | r in d.allocatedResources
    ensures d.Valid() && |d.allocatedResources| == |old(d.allocatedResources)| + 8
    ensures d.prevWidth == width && d.prevHeight == height
    ensures sent == SnapshotFor(d.allocatedResources)
    ensures d.resourceCache == old(d.resourceCache) || fresh(d.resourceCache)
    ensures forall r :: r in d.allocatedResources ==> r in old(d.allocatedResources) || fresh(r)
  {
    sent := d.EnsureResources(width, height, natives, natives);
  }

  /** One size change of the source's `EnsureResources`, with NRI wrappers `nris`. */
  method Resize(d: NrdDenoiser, width: int, height: int, nris: seq<nat>) returns (sent: SnapshotOutcome)
    requires d.Valid() && !(width == d.prevWidth && height == d.prevHeight)
    requires |nris| >= |d.allocatedResources| + 8
    modifies d, d.resourceCache, set r | r in d.allocatedResources
    ensures d.Valid() && d.prevWidth == width && d.prevHeight == height
    ensures |d.allocatedResources| == |old(d.allocatedResources)| + 8
    ensures d.allocatedResources[..|old(d.allocatedResources)|] == old(d.allocatedResources)
    ensures EndsWithAdded(d.allocatedResources)
    ensures WrappersOf(d.allocatedResources) == nris[..|d.allocatedResources|]
    ensures sent == SnapshotFor(d.allocatedResources)
    ensures d.resourceCache == old(d.resourceCache) || fresh(d.resourceCache)
    ensures forall r :: r in d.allocatedResources ==> r in old(d.allocatedResources) || fresh(r)
  {
    sent := d.EnsureResources(width, height, nris, nris);
    assert forall i :: 0 <= i < |d.allocatedResources| ==> AllocatedAs(d.allocatedResources[i], width, height, nris[i], nris[i]);
  }

  /** The NRI wrapper pointers of a list of resources. */
  function WrappersOf(rs: seq<NrdTextureResource>): (ps: seq<nat>)
    reads set r | r in rs
    ensures |ps| == |rs| && forall i :: 0 <= i < |rs| ==> ps[i] == rs[i].nriPtr
  {
    seq(|rs|, i reads rs requires 0 <= i < |rs| => rs[i].nriPtr)
  }

  /**
   * A list holding the added resources twice: `List.Find` stops at the first
   * motion-vector resource, while the plugin's snapshot keeps the second one.
   */
  lemma DuplicatedListSplits(rs: seq<NrdTextureResource>)
    requires |rs| == 16 && Matches(rs[0], AddedResources[0]) && EndsWithAdded(rs) && rs[8].nriPtr != 0
    ensures FirstOfType(rs, IN_MV) == Some(0)
    ensures IN_MV in NrdInstances.SnapshotOf(InputsOf(rs))
    ensures NrdInstances.SnapshotOf(InputsOf(rs))[IN_MV].texture == rs[8].nriPtr
  {
    var entries := InputsOf(rs);
    AddedResourceTypesDistinct();
    forall j | 8 < j < 16
      ensures entries[j].resourceType != entries[8].resourceType
    {
      assert Matches(rs[8 + (j - 8)], AddedResources[j - 8]);
      assert Matches(rs[8 + 0], AddedResources[0]);
      assert AddedResources[0].resourceType != AddedResources[j - 8].resourceType;
    }
    assert Matches(rs[8 + 0], AddedResources[0]);
    NrdInstances.LastTexturedEntryWins(entries, 8);
  }

  /**
   * The source's second size change, before any overrun: the list then holds two
   * resources of each type. `GetResource` (`List.Find`) still names the motion-vector
   * resource of the first size, which the passes write, while the plugin's snapshot keeps
   * the last entry of each type and reads the one of the second size.
   */
  method SecondSizeSplitsInputs(d: NrdDenoiser, width: int, height: int, nris: seq<nat>)
    returns (sent: SnapshotOutcome, written: nat, read: nat)
    requires d.Valid() && |d.allocatedResources| == 8 && EndsWithAdded(d.allocatedResources)
    requires !(width == d.prevWidth && height == d.prevHeight)
    requires |nris| == 16 && nris[8] != 0
    modifies d, d.resourceCache, set r | r in d.allocatedResources
    ensures |d.allocatedResources| == 16 && d.allocatedResources[..8] == old(d.allocatedResources)
    ensures d.GetResource(IN_MV) == Some(d.allocatedResources[0]) && written == nris[0]
    ensures sent == Sent(InputsOf(d.allocatedResources)) && IN_MV in NrdInstances.SnapshotOf(sent.entries)
    ensures read == NrdInstances.SnapshotOf(sent.entries)[IN_MV].texture && read == nris[8]
  {
    assert Matches(d.allocatedResources[0], AddedResources[0]);
    sent := Resize(d, width, height, nris);
    ghost var rs := d.allocatedResources;
    assert rs[0] == old(d.allocatedResources)[0];
    assert WrappersOf(rs)[0] == nris[0] && WrappersOf(rs)[8] == nris[8];
    DuplicatedListSplits(rs);
    written := d.allocatedResources[0].nriPtr;
    read := NrdInstances.SnapshotOf(sent.entries)[IN_MV].texture;
  }

  /** One call of the corrected `EnsureResourcesReplacing`: at most eight resources stay,
      and what is sent fits. */
  method ReplaceOnce(d: NrdDenoiser, size: Size) returns (sent: SnapshotOutcome)
    requires d.Valid() && |d.allocatedResources| <= 8
    modifies d, d.resourceCache, set r | r in d.allocatedResources
    ensures d.Valid() && |d.allocatedResources| <= 8
    ensures !sent.Overrun? && (sent.Sent? ==> |sent.entries| <= 8)
    ensures d.resourceCache == old(d.resourceCache) || fresh(d.resourceCache)
    ensures forall r :: r in d.allocatedResources ==> r in old(d.allocatedResources) || fresh(r)
  {
    sent := d.EnsureResourcesReplacing(size.w, size.h, seq(8, _ => 0), seq(8, _ => 0));
  }

  /**
   * The source's `EnsureResources` over three different sizes: the first snapshot sends 8
   * entries and the second 16, and the third would send 24 into the 20-entry buffer.
   */
  method ThirdSizeOverrunsBuffer() returns (first: SnapshotOutcome, second: SnapshotOutcome, third: SnapshotOutcome)
    ensures first.Sent? && |first.entries| == 8
    ensures second.Sent? && |second.entries| == 16
    ensures third == Overrun(24)
  {
    var d := new NrdDenoiser(1, 0, 1);
    var zeros := seq(24, _ => 0);
    first := GrowOnce(d, 640, 480, zeros);
    second := GrowOnce(d, 1280, 720, zeros);
    third := GrowOnce(d, 1920, 1080, zeros);
  }

  /** With the corrected `EnsureResourcesReplacing`, any sequence of sizes keeps every
      snapshot within the 20-entry buffer. */
  method ResizesStayInBounds(sizes: seq<Size>) returns (outcomes: seq<SnapshotOutcome>)
    ensures |outcomes| == |sizes|
    ensures forall i :: 0 <= i < |outcomes| ==> !outcomes[i].Overrun?
    ensures forall i :: 0 <= i < |outcomes| && outcomes[i].Sent? ==> |outcomes[i].entries| <= 8 < MaxResources
  {
    var d := new NrdDenoiser(1, 0, 1);
    outcomes := [];
    for k := 0 to |sizes|
      invariant d.Valid() && |d.allocatedResources| <= 8 && |outcomes| == k
      invariant fresh(d) && fresh(d.resourceCache) && forall r :: r in d.allocatedResources ==> fresh(r)
      invariant forall i :: 0 <= i < k ==> !outcomes[i].Overrun?
      invariant forall i :: 0 <= i < k && outcomes[i].Sent? ==> |outcomes[i].entries| <= 8
    {
      var sent := ReplaceOnce(d, sizes[k]);
      outcomes := outcomes + [sent];
    }
  }
}
