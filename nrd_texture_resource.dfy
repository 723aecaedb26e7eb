/**
 * Model of UnityProject/Assets/Scripts/NRD/NrdTextureResource.cs: one denoiser texture
 * seen from the managed side, with its Unity render-texture handle, the native D3D12
 * pointer and the NRI wrapper the plugin made of it.
 *
 * Unity and the plugin are outside the model: every call into them is recorded as a
 * `GpuCall`, and the values they return (the native pointer, the NRI wrapper) are
 * parameters. A render-texture handle is represented by the descriptor it was made from.
 */
module NrdTextures {
  import opened Base
  import opened NrdTypes
  import opened NrdUtil

  /** The `RenderTextureDescriptor` and name of a denoiser render texture. */
  datatype RenderTexture = RenderTexture(
    name: string, width: int, height: int, format: GraphicsFormat, depthBits: nat,
    enableRandomWrite: bool, useMipMap: bool, msaaSamples: nat, srgb: bool)

  /** The texture every denoiser allocation asks for: random-write enabled, no depth,
      no mip chain, one sample. */
  function DenoiserTexture(name: string, width: int, height: int, format: GraphicsFormat, srgb: bool): RenderTexture
  {
    RenderTexture(name, width, height, format, 0, true, false, 1, srgb)
  }

  /** A call into Unity or into the plugin's NRI wrapper, in the order it is made. */
  datatype GpuCall =
    | AllocHandle(rt: RenderTexture)                           // RenderTexture.Create, then RTHandles.Alloc
    | WrapTexture(native: nat, format: DxgiFormat, nri: nat)   // WrapD3D12Texture(native, format) returned nri
    | ReleaseNriTexture(nri: nat)                              // the plugin's ReleaseTexture
    | ReleaseHandle(handle: Option<RenderTexture>)             // RTHandles.Release (NrdTextureResource then also destroys the texture)

  /** The calls `Release` makes for a resource holding `nri` and `handle`. */
  function ReleaseCalls(nri: nat, handle: Option<RenderTexture>): seq<GpuCall>
  {
    (if nri != 0 then [ReleaseNriTexture(nri)] else [])
    + (if handle.Some? then [ReleaseHandle(handle)] else [])
  }

  /** One step of the set of NRI wrappers created and not yet released. */
  function LiveStep(live: set<nat>, call: GpuCall): set<nat>
  {
    match call
    case WrapTexture(_, _, nri) => if nri != 0 then live + {nri} else live
    case ReleaseNriTexture(nri) => live - {nri}
    case _ => live
  }

  /** The NRI wrappers a call log leaves outstanding. */
  function Live(log: seq<GpuCall>): set<nat>
  {
    if log == [] then {} else LiveStep(Live(log[..|log| - 1]), log[|log| - 1])
  }

  lemma LiveAppend(log: seq<GpuCall>, call: GpuCall)
    ensures Live(log + [call]) == LiveStep(Live(log), call)
  {
    assert (log + [call])[..|log|] == log;
  }

  /** The wrappers a log leaves outstanding, after `Release`'s calls for the current wrapper
      `nri`, are gone when that wrapper was the only one outstanding. */
  lemma ReleaseClearsLive(log: seq<GpuCall>, nri: nat, handle: Option<RenderTexture>)
    requires Live(log) <= {nri} - {0}
    ensures Live(log + ReleaseCalls(nri, handle)) == {}
  {
    var first := if nri != 0 then [ReleaseNriTexture(nri)] else [];
    var second := if handle.Some? then [ReleaseHandle(handle)] else [];
    assert log + ReleaseCalls(nri, handle) == (log + first) + second;
    if nri != 0 {
      LiveAppend(log, ReleaseNriTexture(nri));
    } else {
      assert log + first == log;
    }
    if handle.Some? {
      LiveAppend(log + first, ReleaseHandle(handle));
    }
  }

  class NrdTextureResource {
    /** `Handle`: the render-texture handle, `None` for null. */
    var handle: Option<RenderTexture>
    /** `NativePtr`: the `ID3D12Resource*`, 0 for null. */
    var nativePtr: nat
    /** `NriPtr`: the plugin's NRI texture wrapper, 0 for null. */
    var nriPtr: nat
    const name: string
    const resourceState: NriResourceState
    const resourceType: ResourceType
    const graphicsFormat: GraphicsFormat
    const srgb: bool
    /** Every call this resource has made into Unity and the plugin. */
    ghost var log: seq<GpuCall>

    /** At most one NRI wrapper made for this resource is outstanding: the current one. */
    ghost predicate Valid()
      reads this
    {
      Live(log) <= {nriPtr} - {0}
    }

    /** `IsCreated`. */
    predicate IsCreated()
      reads this
    {
      handle.Some?
    }

    /** Names the resource after its type and keeps type, format, state and sRGB flag;
        handle and pointers start null. */
    constructor (resourceType: ResourceType, graphicsFormat: GraphicsFormat, initialState: NriResourceState, srgb: bool)
      ensures Valid() && !IsCreated() && nativePtr == 0 && nriPtr == 0 && log == []
      ensures name == ResourceTypeName(resourceType) && this.resourceType == resourceType
      ensures resourceState == initialState && this.graphicsFormat == graphicsFormat && this.srgb == srgb
    {
      name := ResourceTypeName(resourceType);
      this.resourceType := resourceType;
      resourceState := initialState;
      this.graphicsFormat := graphicsFormat;
      this.srgb := srgb;
      handle := None;
      nativePtr := 0;
      nriPtr := 0;
      log := [];
    }

    /**
     * `Release`: frees the NRI wrapper only if there is one and the handle only if there
     * is one, then leaves both pointers zero and the handle null. A second call frees
     * nothing, and afterwards no wrapper is outstanding.
     */
    method Release() returns (calls: seq<GpuCall>)
      requires Valid()
      modifies this
      ensures Valid() && Live(log) == {}
      ensures handle.None? && nativePtr == 0 && nriPtr == 0
      ensures calls == ReleaseCalls(old(nriPtr), old(handle)) && log == old(log) + calls
      ensures old(nriPtr) == 0 && old(handle).None? ==> calls == []
    {
      calls := [];
      if nriPtr != 0 {
        calls := calls + [ReleaseNriTexture(nriPtr)];
        nriPtr := 0;
      }
      nativePtr := 0;
      if handle.Some? {
        calls := calls + [ReleaseHandle(handle)];
        handle := None;
      }
      assert calls == ReleaseCalls(old(nriPtr), old(handle));
      ReleaseClearsLive(log, old(nriPtr), old(handle));
      log := log + calls;
    }

    /**
     * `Allocate(width, height)`: releases first, then allocates a render texture of that
     * size in the resource's format, takes its native pointer `native`, and wraps it for
     * NRI with the DXGI format `GetDXGIFormat` gives, which returned `nri`.
     */
    method Allocate(width: int, height: int, native: nat, nri: nat) returns (calls: seq<GpuCall>)
      requires Valid()
      modifies this
      ensures Valid() && IsCreated()
      ensures handle == Some(DenoiserTexture(name, width, height, graphicsFormat, srgb))
      ensures nativePtr == native && nriPtr == nri
      ensures calls == ReleaseCalls(old(nriPtr), old(handle))
                       + [AllocHandle(handle.value), WrapTexture(native, GetDxgiFormat(graphicsFormat), nri)]
      ensures log == old(log) + calls
    {
      calls := Release();
      var dxgiFormat := GetDxgiFormat(graphicsFormat);
      var rt := DenoiserTexture(name, width, height, graphicsFormat, srgb);
      handle := Some(rt);
      nativePtr := native;
      nriPtr := nri;
      var made := [AllocHandle(rt), WrapTexture(native, dxgiFormat, nri)];
      LiveAppend(log, AllocHandle(rt));
      LiveAppend(log + [AllocHandle(rt)], WrapTexture(native, dxgiFormat, nri));
      assert log + made == (log + [AllocHandle(rt)]) + [WrapTexture(native, dxgiFormat, nri)];
      calls := calls + made;
      log := log + made;
    }
  }

  /** Releasing twice: the second `Release` makes no call at all. */
  method ReleaseIsIdempotent(r: NrdTextureResource) returns (first: seq<GpuCall>, second: seq<GpuCall>)
    requires r.Valid()
    modifies r
    ensures first == ReleaseCalls(old(r.nriPtr), old(r.handle))
    ensures second == []
    ensures !r.IsCreated() && r.nriPtr == 0 && r.nativePtr == 0
  {
    first := r.Release();
    second := r.Release();
  }
}
