/**
 * Model of UnityProject/Assets/Scripts/PathTracingFeature.cs: the renderer feature that
 * masks ray-tracing instances, keeps one NRD and one DLRR denoiser per camera and eye,
 * unpacks the blue-noise textures into `uint4` buffers, and enqueues the path-tracing pass.
 *
 * Unity is outside the model. Scene queries are parameters, instance-mask updates are
 * returned, and a GPU buffer is represented by its element count, stride and contents.
 * A denoiser held by the feature is represented by the camera name it was constructed
 * with. The denoisers' own behaviour is modelled in NrdDenoisers; `DLRRDenoiser.cs` is not
 * part of this model.
 */
module PathTracingFeatures {
  import opened Base

  /** The first render queue of transparent geometry. */
  const TransparentQueue: int := 3000
  /** The per-eye stride of the camera key. */
  const EyeKeyStride: int := 100000
  /** `Capacity`, `1 << 22` entries of the SHaRC buffers. */
  const Capacity: nat := 0x40_0000
  const FlagNonTransparent: bv32 := 0x01
  const FlagTransparent: bv32 := 0x02

  // ---------------------------------------------------------------- SetMask

  /** Some material of the renderer is missing or draws before the transparent queue. */
  predicate HasOpaque(queues: seq<Option<int>>)
  {
    exists i :: 0 <= i < |queues| && (queues[i].None? || queues[i].value < TransparentQueue)
  }

  /** Some material of the renderer draws in the transparent queue or later. */
  predicate HasTransparent(queues: seq<Option<int>>)
  {
    exists i :: 0 <= i < |queues| && queues[i].Some? && queues[i].value >= TransparentQueue
  }

  /** The instance mask a renderer should get, given the render queues of its shared
      materials (`None` for a null material). */
  function MaskFor(queues: seq<Option<int>>): bv32
  {
    (if HasOpaque(queues) then FlagNonTransparent else 0) | (if HasTransparent(queues) then FlagTransparent else 0)
  }

  /** The mask sets 0x01 exactly when some material is null or opaque, 0x02 exactly when
      some material is transparent, and nothing else; a renderer without materials gets 0
      and no ray reaches it. */
  lemma MaskBits(queues: seq<Option<int>>)
    ensures (MaskFor(queues) & FlagNonTransparent != 0) <==> HasOpaque(queues)
    ensures (MaskFor(queues) & FlagTransparent != 0) <==> HasTransparent(queues)
    ensures MaskFor(queues) & !(FlagNonTransparent | FlagTransparent) == 0
    ensures queues == [] ==> MaskFor(queues) == 0
    ensures queues != [] ==> MaskFor(queues) != 0
  {
    if queues != [] {
      if queues[0].None? || queues[0].value < TransparentQueue {
        assert HasOpaque(queues);
      } else {
        assert HasTransparent(queues);
      }
    }
  }

  /** The inner loop of `SetMask` for one renderer. */
  method InstanceMask(queues: seq<Option<int>>) returns (mask: bv32)
    ensures mask == MaskFor(queues)
  {
    var hasTransparent := false;
    var hasOpaque := false;
    for i := 0 to |queues|
      invariant hasTransparent <==> exists j :: 0 <= j < i && queues[j].Some? && queues[j].value >= TransparentQueue
      invariant hasOpaque <==> exists j :: 0 <= j < i && (queues[j].None? || queues[j].value < TransparentQueue)
    {
      if queues[i].Some? && queues[i].value >= TransparentQueue {
        hasTransparent := true;
      } else {
        hasOpaque := true;
      }
    }
    mask := 0;
    if hasOpaque {
      mask := mask | FlagNonTransparent;
    }
    if hasTransparent {
      mask := mask | FlagTransparent;
    }
  }

  /** `SetMask`: the mask given to `UpdateInstanceMask` for each renderer, in order. */
  method SetMask(renderers: seq<seq<Option<int>>>) returns (masks: seq<bv32>)
    ensures |masks| == |renderers|
    ensures forall i :: 0 <= i < |renderers| ==> masks[i] == MaskFor(renderers[i])
  {
    masks := [];
    for i := 0 to |renderers|
      invariant |masks| == i
      invariant forall j :: 0 <= j < i ==> masks[j] == MaskFor(renderers[j])
    {
      var mask := InstanceMask(renderers[i]);
      masks := masks + [mask];
    }
  }

  // ---------------------------------------------------------------- camera key

  /** `eyeIndex`: the XR multipass id, 0 when XR is off. */
  function EyeIndex(xrEnabled: bool, multipassId: int): int
  {
    if xrEnabled then multipassId else 0
  }

  /** `uniqueKey`, computed in 64 bits, where an `int` id plus an `int` eye index times
      100000 cannot overflow. */
  function CameraKey(instanceId: int, eyeIndex: int): int
  {
    instanceId + eyeIndex * EyeKeyStride
  }

  /** For camera ids in [-50000, 50000) the key determines camera and eye. */
  lemma CameraKeyDecodes(instanceId: int, eyeIndex: int)
    requires -EyeKeyStride / 2 <= instanceId < EyeKeyStride / 2
    ensures (CameraKey(instanceId, eyeIndex) + EyeKeyStride / 2) / EyeKeyStride == eyeIndex
    ensures CameraKey(instanceId, eyeIndex) - eyeIndex * EyeKeyStride == instanceId
  {
    var shifted := instanceId + EyeKeyStride / 2;
    assert 0 <= shifted < EyeKeyStride;
    assert CameraKey(instanceId, eyeIndex) + EyeKeyStride / 2 == eyeIndex * EyeKeyStride + shifted;
    DivOfMultiplePlus(eyeIndex, shifted);
  }

  lemma DivOfMultiplePlus(q: int, r: int)
    requires 0 <= r < EyeKeyStride
    ensures (q * EyeKeyStride + r) / EyeKeyStride == q
  {
  }

  /** Two cameras whose ids differ by 100000 share a key: camera 100000's only eye and
      camera 0's second eye get one pair of denoisers. */
  lemma CameraKeysCollide()
    ensures CameraKey(100000, EyeIndex(false, 0)) == CameraKey(0, EyeIndex(true, 1))
  {
  }

  // ---------------------------------------------------------------- texel unpacking

  datatype UInt4 = UInt4(x: nat, y: nat, z: nat, w: nat)

  /** Element i of the unpacked array: raw bytes 4i to 4i + 3, each widened to `uint`. */
  function Unpacked(raw: seq<Byte>, count: nat): (texels: seq<UInt4>)
    requires 4 * count <= |raw|
    ensures |texels| == count
  {
    seq(count, i requires 0 <= i < count => UInt4(raw[4 * i], raw[4 * i + 1], raw[4 * i + 2], raw[4 * i + 3]))
  }

  /** The bytes of a texel list, four per texel. */
  function Flatten(texels: seq<UInt4>): seq<int>
  {
    if texels == [] then []
    else Flatten(texels[..|texels| - 1])
         + [texels[|texels| - 1].x, texels[|texels| - 1].y, texels[|texels| - 1].z, texels[|texels| - 1].w]
  }

  lemma {:induction false} FlattenLength(texels: seq<UInt4>)
    ensures |Flatten(texels)| == 4 * |texels|
    decreases |texels|
  {
    if texels != [] {
      FlattenLength(texels[..|texels| - 1]);
    }
  }

  /** Unpacking loses nothing: flattening the texels gives back the first 4 * count bytes. */
  lemma {:induction false} UnpackRoundTrip(raw: seq<Byte>, count: nat)
    requires 4 * count <= |raw|
    ensures Flatten(Unpacked(raw, count)) == raw[..4 * count]
    decreases count
  {
    if count > 0 {
      var u := Unpacked(raw, count);
      assert u[..count - 1] == Unpacked(raw, count - 1);
      UnpackRoundTrip(raw, count - 1);
      var i := count - 1;
      assert raw[..4 * count] == raw[..4 * i] + [raw[4 * i], raw[4 * i + 1], raw[4 * i + 2], raw[4 * i + 3]];
    }
  }

  /** A texture's size and `GetRawTextureData` bytes. */
  datatype Texture = Texture(width: nat, height: nat, raw: seq<Byte>)

  /** The unpacking loop of `Create`: a `uint4` array of width * height elements, element i
      holding raw bytes 4i to 4i + 3. The raw data must hold four bytes per texel (with
      fewer the loop indexes past its end). */
  method UnpackTexels(tex: Texture) returns (texels: array<UInt4>)
    requires 4 * (tex.width * tex.height) <= |tex.raw|
    ensures fresh(texels)
    ensures texels[..] == Unpacked(tex.raw, tex.width * tex.height)
  {
    var count := tex.width * tex.height;
    texels := new UInt4[count](_ => UInt4(0, 0, 0, 0));
    for i := 0 to count
      invariant forall j :: 0 <= j < i ==> texels[j] == UInt4(tex.raw[4 * j], tex.raw[4 * j + 1], tex.raw[4 * j + 2], tex.raw[4 * j + 3])
    {
      texels[i] := UInt4(tex.raw[4 * i], tex.raw[4 * i + 1], tex.raw[4 * i + 2], tex.raw[4 * i + 3]);
    }
  }

  // ---------------------------------------------------------------- the feature

  /** A structured GPU buffer: one filled from a texel array, or one of `count` elements
      set to zero. */
  datatype GpuBuffer =
    | TexelBuffer(count: nat, stride: nat, texels: seq<UInt4>)
    | ClearedBuffer(count: nat, stride: nat)

  datatype CameraType = Game | SceneView | Preview | VR | Reflection

  datatype Camera = Camera(instanceId: int, name: string, cameraType: CameraType)

  /** The camera's XR state: `xr.enabled`, `xr.multipassId` and `xrRendering`. */
  datatype XrState = XrState(enabled: bool, multipassId: int, rendering: bool)

  /** Which of the shaders and the final material are assigned. */
  datatype Shaders = Shaders(
    composition: bool, taa: bool, finalMaterial: bool, opaqueTracing: bool,
    transparentTracing: bool, sharcResolve: bool, sharcUpdate: bool, dlssBefore: bool)

  /** Everything the enqueue guard checks; the DLSS-before shader is not among them. */
  predicate GuardedPresent(s: Shaders)
  {
    s.composition && s.taa && s.finalMaterial && s.opaqueTracing
    && s.transparentTracing && s.sharcResolve && s.sharcUpdate
  }

  datatype PassOutcome = SkippedCamera | MissingShader | DataEmpty | Enqueued

  /** The denoiser disposals `Dispose` performs. */
  datatype Disposal = DisposeNrd(key: int) | DisposeDlrr(key: int)

  function NatDecimal(n: nat): string
    decreases n
  {
    if n < 10 then ["0123456789"[n]] else NatDecimal(n / 10) + ["0123456789"[n % 10]]
  }

  function IntDecimal(n: int): string
  {
    if n < 0 then "-" + NatDecimal(-n) else NatDecimal(n)
  }

  /** The name a new denoiser gets: the camera's, with `_Eye` and the eye index appended
      when rendering XR. */
  function CamName(cam: Camera, xr: XrState): string
  {
    if xr.rendering then cam.name + "_Eye" + IntDecimal(EyeIndex(xr.enabled, xr.multipassId)) else cam.name
  }

  /** The disposals of a dictionary's denoisers, in enumeration order. */
  function NrdDisposals(keys: seq<int>): (d: seq<Disposal>)
    ensures |d| == |keys| && forall i :: 0 <= i < |keys| ==> d[i] == DisposeNrd(keys[i])
  {
    seq(|keys|, i requires 0 <= i < |keys| => DisposeNrd(keys[i]))
  }

  function DlrrDisposals(keys: seq<int>): (d: seq<Disposal>)
    ensures |d| == |keys| && forall i :: 0 <= i < |keys| ==> d[i] == DisposeDlrr(keys[i])
  {
    seq(|keys|, i requires 0 <= i < |keys| => DisposeDlrr(keys[i]))
  }

  predicate Distinct(keys: seq<int>)
  {
    forall i, j :: 0 <= i < j < |keys| ==> keys[i] != keys[j]
  }

  /** Disposing the denoisers of two dictionaries with distinct keys disposes each
      denoiser exactly once. */
  lemma DisposalsDistinct(nrd: seq<int>, dlrr: seq<int>)
    requires Distinct(nrd) && Distinct(dlrr)
    ensures forall i, j :: 0 <= i < j < |nrd| + |dlrr| ==>
              (NrdDisposals(nrd) + DlrrDisposals(dlrr))[i] != (NrdDisposals(nrd) + DlrrDisposals(dlrr))[j]
  {
    var all := NrdDisposals(nrd) + DlrrDisposals(dlrr);
    forall i, j | 0 <= i < j < |all|
      ensures all[i] != all[j]
    {
      if j < |nrd| {
        assert all[i] == DisposeNrd(nrd[i]) && all[j] == DisposeNrd(nrd[j]);
      } else if i >= |nrd| {
        assert all[i] == DisposeDlrr(dlrr[i - |nrd|]) && all[j] == DisposeDlrr(dlrr[j - |nrd|]);
      } else {
        assert all[i].DisposeNrd? && all[j].DisposeDlrr?;
      }
    }
  }

  /** Every NRD key, and no other, is disposed, and likewise every DLRR key. */
  lemma DisposalsCover(nrd: seq<int>, dlrr: seq<int>)
    ensures forall k :: k in nrd <==> DisposeNrd(k) in NrdDisposals(nrd) + DlrrDisposals(dlrr)
    ensures forall k :: k in dlrr <==> DisposeDlrr(k) in NrdDisposals(nrd) + DlrrDisposals(dlrr)
  {
    var all := NrdDisposals(nrd) + DlrrDisposals(dlrr);
    forall k | DisposeNrd(k) in all
      ensures k in nrd
    {
      var i :| 0 <= i < |all| && all[i] == DisposeNrd(k);
      assert i < |nrd|;
    }
    forall k | DisposeDlrr(k) in all
      ensures k in dlrr
    {
      var i :| 0 <= i < |all| && all[i] == DisposeDlrr(k);
      assert i >= |nrd| && all[i] == DisposeDlrr(dlrr[i - |nrd|]);
    }
    forall k | k in nrd
      ensures DisposeNrd(k) in all
    {
      var i :| 0 <= i < |nrd| && nrd[i] == k;
      assert all[i] == DisposeNrd(k);
    }
    forall k | k in dlrr
      ensures DisposeDlrr(k) in all
    {
      var i :| 0 <= i < |dlrr| && dlrr[i] == k;
      assert all[|nrd| + i] == DisposeDlrr(k);
    }
  }

  /** The two disposal loops of `Dispose`, over the dictionaries' keys in enumeration order. */
  method DisposeAll(nrdOrder: seq<int>, dlrrOrder: seq<int>) returns (disposed: seq<Disposal>)
    ensures disposed == NrdDisposals(nrdOrder) + DlrrDisposals(dlrrOrder)
  {
    disposed := [];
    for i := 0 to |nrdOrder|
      invariant disposed == NrdDisposals(nrdOrder[..i])
    {
      disposed := disposed + [DisposeNrd(nrdOrder[i])];
    }
    assert nrdOrder[..|nrdOrder|] == nrdOrder;
    var nrdPart := disposed;
    for i := 0 to |dlrrOrder|
      invariant disposed == nrdPart + DlrrDisposals(dlrrOrder[..i])
    {
      disposed := disposed + [DisposeDlrr(dlrrOrder[i])];
    }
    assert dlrrOrder[..|dlrrOrder|] == dlrrOrder;
  }

  class PathTracingFeature {
    /** `_nrdDenoisers`: camera key to the camera name its NRD denoiser was made with. */
    var nrdDenoisers: map<int, string>
    /** The keys of `_nrdDenoisers` in insertion order, the order a dictionary that is only
        ever added to enumerates them. */
    var nrdOrder: seq<int>
    var dlrrDenoisers: map<int, string>
    var dlrrOrder: seq<int>
    /** `_pathTracingPass != null`. */
    var passCreated: bool
    var scramblingRankingUint: Option<GpuBuffer>
    var sobolUint: Option<GpuBuffer>
    var hashEntriesBuffer: Option<GpuBuffer>
    var accumulationBuffer: Option<GpuBuffer>
    var resolvedBuffer: Option<GpuBuffer>

    /** Each order lists its dictionary's keys once each. */
    ghost predicate Valid()
      reads this
    {
      Distinct(nrdOrder) && (forall k :: k in nrdDenoisers <==> k in nrdOrder)
      && Distinct(dlrrOrder) && (forall k :: k in dlrrDenoisers <==> k in dlrrOrder)
    }

    constructor ()
      ensures Valid()
      ensures nrdDenoisers == map[] && dlrrDenoisers == map[] && !passCreated
      ensures scramblingRankingUint.None? && sobolUint.None?
      ensures hashEntriesBuffer.None? && accumulationBuffer.None? && resolvedBuffer.None?
    {
      nrdDenoisers := map[];
      nrdOrder := [];
      dlrrDenoisers := map[];
      dlrrOrder := [];
      passCreated := false;
      scramblingRankingUint := None;
      sobolUint := None;
      hashEntriesBuffer := None;
      accumulationBuffer := None;
      resolvedBuffer := None;
    }

    /** `InitializeBuffers`: releases the three SHaRC buffers that exist and makes them
        anew, `Capacity` zeroed entries each, of 8, 16 and 16 bytes. */
    method InitializeBuffers()
      modifies this
      ensures hashEntriesBuffer == Some(ClearedBuffer(Capacity, 8))
      ensures accumulationBuffer == Some(ClearedBuffer(Capacity, 16))
      ensures resolvedBuffer == Some(ClearedBuffer(Capacity, 16))
      ensures nrdDenoisers == old(nrdDenoisers) && nrdOrder == old(nrdOrder)
      ensures dlrrDenoisers == old(dlrrDenoisers) && dlrrOrder == old(dlrrOrder)
      ensures passCreated == old(passCreated)
      ensures scramblingRankingUint == old(scramblingRankingUint) && sobolUint == old(sobolUint)
    {
      hashEntriesBuffer := None;
      accumulationBuffer := None;
      resolvedBuffer := None;
      hashEntriesBuffer := Some(ClearedBuffer(Capacity, 8));
      accumulationBuffer := Some(ClearedBuffer(Capacity, 16));
      resolvedBuffer := Some(ClearedBuffer(Capacity, 16));
    }

    /**
     * The buffer part of `Create`: the two blue-noise buffers are made, from their
     * textures' unpacked texels, only while the scrambling-ranking buffer does not exist;
     * the SHaRC buffers only while the accumulation buffer does not; the pass is always
     * made anew.
     */
    method Create(scramblingRanking: Texture, sobol: Texture)
      requires scramblingRankingUint.None? ==>
                 4 * (scramblingRanking.width * scramblingRanking.height) <= |scramblingRanking.raw|
                 && 4 * (sobol.width * sobol.height) <= |sobol.raw|
      modifies this
      ensures passCreated
      ensures old(scramblingRankingUint).None? ==>
                var n := scramblingRanking.width * scramblingRanking.height;
                var m := sobol.width * sobol.height;
                scramblingRankingUint == Some(TexelBuffer(n, 16, Unpacked(scramblingRanking.raw, n)))
                && sobolUint == Some(TexelBuffer(m, 16, Unpacked(sobol.raw, m)))
      ensures old(scramblingRankingUint).Some? ==>
                scramblingRankingUint == old(scramblingRankingUint) && sobolUint == old(sobolUint)
      ensures old(accumulationBuffer).None? ==>
                hashEntriesBuffer == Some(ClearedBuffer(Capacity, 8))
                && accumulationBuffer == Some(ClearedBuffer(Capacity, 16))
                && resolvedBuffer == Some(ClearedBuffer(Capacity, 16))
      ensures old(accumulationBuffer).Some? ==>
                hashEntriesBuffer == old(hashEntriesBuffer) && accumulationBuffer == old(accumulationBuffer)
                && resolvedBuffer == old(resolvedBuffer)
      ensures nrdDenoisers == old(nrdDenoisers) && nrdOrder == old(nrdOrder)
      ensures dlrrDenoisers == old(dlrrDenoisers) && dlrrOrder == old(dlrrOrder)
    {
      if scramblingRankingUint.None? {
        var n := scramblingRanking.width * scramblingRanking.height;
        var scramblingData := UnpackTexels(scramblingRanking);
        scramblingRankingUint := Some(TexelBuffer(n, 16, scramblingData[..]));
        var m := sobol.width * sobol.height;
        var sobolData := UnpackTexels(sobol);
        sobolUint := Some(TexelBuffer(m, 16, sobolData[..]));
      }
      if accumulationBuffer.None? {
        InitializeBuffers();
      }
      passCreated := true;
    }

    /**
     * `AddRenderPasses`: preview and reflection cameras change nothing. Otherwise the
     * camera's key gets an NRD and a DLRR denoiser if it has none (existing ones are kept),
     * and then the pass is enqueued unless a guarded shader or the final material is
     * missing, or packed data is in use and the data builder is empty.
     */
    method AddRenderPasses(cam: Camera, xr: XrState, shaders: Shaders, usePackedData: bool, dataBuilderEmpty: bool)
      returns (outcome: PassOutcome)
      requires Valid()
      modifies this
      ensures Valid()
      ensures passCreated == old(passCreated)
      ensures cam.cameraType == Preview || cam.cameraType == Reflection ==>
                outcome == SkippedCamera
                && nrdDenoisers == old(nrdDenoisers) && nrdOrder == old(nrdOrder)
                && dlrrDenoisers == old(dlrrDenoisers) && dlrrOrder == old(dlrrOrder)
      ensures cam.cameraType != Preview && cam.cameraType != Reflection ==>
                var key := CameraKey(cam.instanceId, EyeIndex(xr.enabled, xr.multipassId));
                nrdDenoisers == (if key in old(nrdDenoisers) then old(nrdDenoisers) else old(nrdDenoisers)[key := CamName(cam, xr)])
                && dlrrDenoisers == (if key in old(dlrrDenoisers) then old(dlrrDenoisers) else old(dlrrDenoisers)[key := CamName(cam, xr)])
                && nrdOrder == old(nrdOrder) + (if key in old(nrdDenoisers) then [] else [key])
                && dlrrOrder == old(dlrrOrder) + (if key in old(dlrrDenoisers) then [] else [key])
                && outcome == (if !GuardedPresent(shaders) then MissingShader
                               else if usePackedData && dataBuilderEmpty then DataEmpty
                               else Enqueued)
    {
      if cam.cameraType == Preview || cam.cameraType == Reflection {
        return SkippedCamera;
      }
      var eyeIndex := EyeIndex(xr.enabled, xr.multipassId);
      var uniqueKey := CameraKey(cam.instanceId, eyeIndex);
      if uniqueKey !in nrdDenoisers {
        nrdDenoisers := nrdDenoisers[uniqueKey := CamName(cam, xr)];
        nrdOrder := nrdOrder + [uniqueKey];
      }
      if uniqueKey !in dlrrDenoisers {
        dlrrDenoisers := dlrrDenoisers[uniqueKey := CamName(cam, xr)];
        dlrrOrder := dlrrOrder + [uniqueKey];
      }
      if !GuardedPresent(shaders) {
        return MissingShader;
      }
      if usePackedData && dataBuilderEmpty {
        return DataEmpty;
      }
      return Enqueued;
    }

    /**
     * `Dispose`: disposes the pass (which must exist), then every NRD denoiser and every
     * DLRR denoiser in enumeration order, each exactly once, empties both dictionaries and
     * leaves every buffer released.
     */
    method Dispose() returns (disposed: seq<Disposal>)
      requires Valid() && passCreated
      modifies this
      ensures Valid()
      ensures disposed == NrdDisposals(old(nrdOrder)) + DlrrDisposals(old(dlrrOrder))
      ensures forall i, j :: 0 <= i < j < |disposed| ==> disposed[i] != disposed[j]
      ensures forall k :: k in old(nrdDenoisers) <==> DisposeNrd(k) in disposed
      ensures forall k :: k in old(dlrrDenoisers) <==> DisposeDlrr(k) in disposed
      ensures nrdDenoisers == map[] && dlrrDenoisers == map[] && !passCreated
      ensures scramblingRankingUint.None? && sobolUint.None?
      ensures hashEntriesBuffer.None? && accumulationBuffer.None? && resolvedBuffer.None?
    {
      passCreated := false;
      disposed := DisposeAll(nrdOrder, dlrrOrder);
      DisposalsDistinct(nrdOrder, dlrrOrder);
      DisposalsCover(nrdOrder, dlrrOrder);
      nrdDenoisers := map[];
      dlrrDenoisers := map[];
      nrdOrder := [];
      dlrrOrder := [];
      scramblingRankingUint := None;
      sobolUint := None;
      accumulationBuffer := None;
      hashEntriesBuffer := None;
      resolvedBuffer := None;
    }
  }
}
