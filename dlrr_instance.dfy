/**
 * Model of RenderingPlugin/RenderingPlugin/DLRRInstance.cpp: one native DLSS ray
 * reconstruction (DLRR) instance, with its memoising descriptor cache and the upscaler
 * it recreates whenever the frame size changes.
 *
 * The NRI calls it makes are parameters: `Nri` bundles the pure queries
 * (`GetTextureNativeObject`, the texture format, `CreateTexture2DView`), and the outcome
 * of `CreateUpscaler` is passed in. Pointers are `nat`, 0 being null; a created object
 * is a `Handle`, which is never null.
 */
module DlrrInstances {
  import opened Base
  import opened NrdTypes

  type Handle = x: nat | x > 0 witness 1

  /** A `uint64_t` value. */
  type UInt64 = x: int | 0 <= x < 0x1_0000_0000_0000_0000

  /** 2^63, the weight of bit 63. */
  const Bit63: nat := 0x8000_0000_0000_0000

  /**
   * `CreateDescriptorKey(texturePtr, isStorage)`: the storage flag shifted into bit 63 over
   * the low 63 bits of the pointer, written arithmetically: bit 63 (the quotient by 2^63)
   * is the storage flag, and bits 0-62 (the remainder) are the low 63 bits of the pointer.
   */
  function DescriptorKey(texturePtr: UInt64, isStorage: bool): (key: UInt64)
    ensures key / Bit63 == if isStorage then 1 else 0
    ensures key % Bit63 == texturePtr % Bit63
  {
    (if isStorage then Bit63 else 0) + texturePtr % Bit63
  }

  /** Two keys are equal exactly when the flags agree and the low 63 pointer bits agree. */
  lemma DescriptorKeyInjective(p: UInt64, s: bool, q: UInt64, t: bool)
    ensures DescriptorKey(p, s) == DescriptorKey(q, t) <==> s == t && p % Bit63 == q % Bit63
  {
    var k1, k2 := DescriptorKey(p, s), DescriptorKey(q, t);
    assert k1 == (k1 / Bit63) * Bit63 + k1 % Bit63;
    assert k2 == (k2 / Bit63) * Bit63 + k2 % Bit63;
  }

  datatype ViewType = SHADER_RESOURCE_2D | SHADER_RESOURCE_STORAGE_2D

  /** `nri::Texture2DViewDesc` as `GetOrCreateDescriptor` fills it in. */
  datatype ViewDesc = ViewDesc(texture: nat, viewType: ViewType, format: nat, mipOffset: nat, mipNum: nat)

  /** The NRI queries the instance makes. */
  datatype Nri = Nri(nativeObject: nat -> UInt64, textureFormat: nat -> nat, createView: ViewDesc -> Option<Handle>)

  /** The view a cache miss requests: UAV for storage, SRV otherwise, one mip from level 0. */
  function ViewFor(texture: nat, isStorage: bool, nri: Nri): (v: ViewDesc)
    ensures v.texture == texture && v.mipOffset == 0 && v.mipNum == 1
    ensures v.viewType.SHADER_RESOURCE_STORAGE_2D? <==> isStorage
    ensures v.format == nri.textureFormat(texture)
  {
    ViewDesc(texture, if isStorage then SHADER_RESOURCE_STORAGE_2D else SHADER_RESOURCE_2D,
             nri.textureFormat(texture), 0, 1)
  }

  type DescriptorCache = map<nat, Handle>

  /** The cache key of a texture view. */
  function KeyOf(texture: nat, isStorage: bool, nri: Nri): nat
  {
    DescriptorKey(nri.nativeObject(texture), isStorage)
  }

  /** The result of one `GetOrCreateDescriptor`: the descriptor returned and the new cache. */
  datatype Lookup = Lookup(descriptor: nat, cache: DescriptorCache)

  /**
   * `GetOrCreateDescriptor(texture, isStorage)`: null for a null texture; the cached
   * descriptor on a hit; on a miss the created view, which is then cached, or null
   * when creation fails.
   */
  function LookupDescriptor(cache: DescriptorCache, texture: nat, isStorage: bool, nri: Nri): Lookup
  {
    if texture == 0 then Lookup(0, cache)
    else
      var key := KeyOf(texture, isStorage, nri);
      if key in cache then Lookup(cache[key], cache)
      else match nri.createView(ViewFor(texture, isStorage, nri))
        case Some(d) => Lookup(d, cache[key := d])
        case None => Lookup(0, cache)
  }

  /** `after` keeps every entry of `before`. */
  predicate CacheExtends(before: DescriptorCache, after: DescriptorCache)
  {
    forall k :: k in before ==> k in after && after[k] == before[k]
  }

  /**
   * The cache only grows, by at most the one key of this view; the descriptor is
   * non-null exactly when the key is cached afterwards, and then it is the cached value.
   */
  lemma LookupDescriptorProperties(cache: DescriptorCache, texture: nat, isStorage: bool, nri: Nri)
    ensures var r := LookupDescriptor(cache, texture, isStorage, nri);
            CacheExtends(cache, r.cache)
            && (forall k :: k in r.cache ==> k in cache || k == KeyOf(texture, isStorage, nri))
            && (texture == 0 ==> r.descriptor == 0)
            && (texture != 0 ==> (r.descriptor != 0 <==> KeyOf(texture, isStorage, nri) in r.cache))
            && (r.descriptor != 0 ==> r.cache[KeyOf(texture, isStorage, nri)] == r.descriptor)
  {
    if texture != 0 {
      var key := KeyOf(texture, isStorage, nri);
      if key !in cache {
        match nri.createView(ViewFor(texture, isStorage, nri))
        case Some(d) =>
          assert LookupDescriptor(cache, texture, isStorage, nri) == Lookup(d, cache[key := d]);
        case None =>
      }
    }
  }

  /** Memoisation: asking again for the same view returns the same descriptor and leaves
      the cache as it is. */
  lemma LookupDescriptorIdempotent(cache: DescriptorCache, texture: nat, isStorage: bool, nri: Nri)
    ensures var r := LookupDescriptor(cache, texture, isStorage, nri);
            LookupDescriptor(r.cache, texture, isStorage, nri) == r
  {
    if texture != 0 {
      var key := KeyOf(texture, isStorage, nri);
      if key !in cache {
        match nri.createView(ViewFor(texture, isStorage, nri))
        case Some(d) =>
          var r := Lookup(d, cache[key := d]);
          assert LookupDescriptor(cache, texture, isStorage, nri) == r;
          assert key in r.cache && r.cache[key] == d;
        case None =>
      }
    }
  }

  /** The SRV and the UAV of one texture are cached under different keys. */
  lemma StorageAndShaderViewsDistinct(texture: nat, nri: Nri)
    ensures KeyOf(texture, true, nri) != KeyOf(texture, false, nri)
  {
    var p := nri.nativeObject(texture);
    DescriptorKeyInjective(p, true, p, false);
  }

  /** `nri::UpscalerResource`: a texture and its descriptor. */
  datatype UpscalerResource = UpscalerResource(texture: nat, descriptor: nat)

  datatype Guides = Guides(mv: UpscalerResource, depth: UpscalerResource, diffuseAlbedo: UpscalerResource,
                           specularAlbedo: UpscalerResource, normalRoughness: UpscalerResource,
                           specularMvOrHitT: UpscalerResource)

  /** The integer and texture fields of the frame data `DispatchCompute` reads. */
  datatype RRFrameData = RRFrameData(
    inputTex: nat, outputTex: nat, mvTex: nat, depthTex: nat, diffuseAlbedoTex: nat,
    specularAlbedoTex: nat, normalRoughnessTex: nat, specularMvOrHitTex: nat,
    worldToViewMatrix: Matrix, viewToClipMatrix: Matrix,
    width: UInt16, height: UInt16, instanceId: int)

  datatype UpscalerMode = PERFORMANCE
  datatype UpscalerBit = DEPTH_INFINITE | HDR | DEPTH_INVERTED

  datatype UpscalerDesc = UpscalerDesc(upscaleWidth: UInt16, upscaleHeight: UInt16, mode: UpscalerMode,
                                       flags: set<UpscalerBit>)

  datatype DispatchUpscaleDesc = DispatchUpscaleDesc(
    input: UpscalerResource, output: UpscalerResource, currentWidth: nat, currentHeight: nat,
    guides: Guides, worldToViewMatrix: Matrix, viewToClipMatrix: Matrix)

  datatype UpscalerCall =
    | DestroyUpscaler(upscaler: Handle)
    | CreateUpscaler(desc: UpscalerDesc)
    | CmdDispatchUpscale(upscaler: Handle, dispatch: DispatchUpscaleDesc)

  datatype DlrrOutcome =
    | Skipped
    /** The calls made before the source dereferences a null `m_DLRR`. */
    | NullUpscaler(calls: seq<UpscalerCall>)
    | Dispatched(calls: seq<UpscalerCall>)

  /** The upscaler `DispatchCompute` creates for a size. */
  function UpscalerDescFor(width: UInt16, height: UInt16): (d: UpscalerDesc)
    ensures d.upscaleWidth == width && d.upscaleHeight == height && d.mode == PERFORMANCE
    ensures d.flags == {DEPTH_INFINITE, HDR, DEPTH_INVERTED}
  {
    UpscalerDesc(width, height, PERFORMANCE, {DEPTH_INFINITE, HDR, DEPTH_INVERTED})
  }

  /** A resource pair as `GetPair` builds it: the texture, a null descriptor for a null
      texture, and otherwise a descriptor that is null or the one cached for its view. */
  predicate PairBound(pair: UpscalerResource, texture: nat, isStorage: bool, cache: DescriptorCache, nri: Nri)
  {
    pair.texture == texture
    && (texture == 0 ==> pair.descriptor == 0)
    && (pair.descriptor != 0 ==> KeyOf(texture, isStorage, nri) in cache
                                 && cache[KeyOf(texture, isStorage, nri)] == pair.descriptor)
  }

  /** Every cached key belongs to `before` or to one of the views of the frame. */
  predicate OnlyFrameKeys(before: DescriptorCache, after: DescriptorCache, data: RRFrameData, nri: Nri)
  {
    forall k :: k in after ==>
      k in before || k == KeyOf(data.inputTex, false, nri) || k == KeyOf(data.outputTex, true, nri)
      || k == KeyOf(data.mvTex, false, nri) || k == KeyOf(data.depthTex, false, nri)
      || k == KeyOf(data.diffuseAlbedoTex, false, nri) || k == KeyOf(data.specularAlbedoTex, false, nri)
      || k == KeyOf(data.normalRoughnessTex, false, nri) || k == KeyOf(data.specularMvOrHitTex, false, nri)
  }

  /** The dispatch descriptor is the frame's: input as SRV, output as UAV, the six guides as
      SRVs, matrices copied, and the current resolution half the frame size. */
  predicate DispatchDescFor(desc: DispatchUpscaleDesc, data: RRFrameData, cache: DescriptorCache, nri: Nri)
  {
    PairBound(desc.input, data.inputTex, false, cache, nri)
    && PairBound(desc.output, data.outputTex, true, cache, nri)
    && PairBound(desc.guides.mv, data.mvTex, false, cache, nri)
    && PairBound(desc.guides.depth, data.depthTex, false, cache, nri)
    && PairBound(desc.guides.diffuseAlbedo, data.diffuseAlbedoTex, false, cache, nri)
    && PairBound(desc.guides.specularAlbedo, data.specularAlbedoTex, false, cache, nri)
    && PairBound(desc.guides.normalRoughness, data.normalRoughnessTex, false, cache, nri)
    && PairBound(desc.guides.specularMvOrHitT, data.specularMvOrHitTex, false, cache, nri)
    && desc.currentWidth == data.width / 2 && desc.currentHeight == data.height / 2
    && desc.worldToViewMatrix == data.worldToViewMatrix && desc.viewToClipMatrix == data.viewToClipMatrix
  }

  lemma CacheExtendsTransitive(a: DescriptorCache, b: DescriptorCache, c: DescriptorCache)
    requires CacheExtends(a, b) && CacheExtends(b, c)
    ensures CacheExtends(a, c)
  {
  }

  /** The calls a resize makes before the upscaler is used. */
  function ResizeCalls(previous: nat, width: UInt16, height: UInt16): seq<UpscalerCall>
  {
    (if previous != 0 then [DestroyUpscaler(previous)] else []) + [CreateUpscaler(UpscalerDescFor(width, height))]
  }

  class DlrrInstance {
    const id: int
    var resourcesInitialized: bool
    var textureWidth: nat
    var textureHeight: nat
    var descriptorCache: DescriptorCache
    var upscaler: nat

    /** `DLRRInstance(interfaces, instanceId)`: stores the id and marks resources initialised. */
    constructor (instanceId: int)
      ensures id == instanceId && resourcesInitialized
      ensures textureWidth == 0 && textureHeight == 0 && descriptorCache == map[] && upscaler == 0
    {
      id := instanceId;
      textureWidth := 0;
      textureHeight := 0;
      descriptorCache := map[];
      upscaler := 0;
      resourcesInitialized := true;
    }

    /** `GetOrCreateDescriptor(texture, isStorage)`, specified by `LookupDescriptor`. */
    method GetOrCreateDescriptor(texture: nat, isStorage: bool, nri: Nri) returns (descriptor: nat)
      modifies this
      ensures Lookup(descriptor, descriptorCache) == LookupDescriptor(old(descriptorCache), texture, isStorage, nri)
      ensures textureWidth == old(textureWidth) && textureHeight == old(textureHeight)
      ensures upscaler == old(upscaler) && resourcesInitialized == old(resourcesInitialized)
    {
      if texture == 0 {
        return 0;
      }
      var key := DescriptorKey(nri.nativeObject(texture), isStorage);
      if key in descriptorCache {
        return descriptorCache[key];
      }
      var view := ViewFor(texture, isStorage, nri);
      var res := nri.createView(view);
      if res.Some? {
        descriptorCache := descriptorCache[key := res.value];
        return res.value;
      }
      return 0;
    }

    /** `GetPair(texture, isUAV)`: the texture with its (possibly null) descriptor. */
    method GetPair(texture: nat, isUAV: bool, nri: Nri) returns (pair: UpscalerResource)
      modifies this
      ensures PairBound(pair, texture, isUAV, descriptorCache, nri)
      ensures texture != 0 ==> (pair.descriptor != 0 <==> KeyOf(texture, isUAV, nri) in descriptorCache)
      ensures CacheExtends(old(descriptorCache), descriptorCache)
      ensures forall k :: k in descriptorCache ==> k in old(descriptorCache) || k == KeyOf(texture, isUAV, nri)
      ensures textureWidth == old(textureWidth) && textureHeight == old(textureHeight)
      ensures upscaler == old(upscaler) && resourcesInitialized == old(resourcesInitialized)
    {
      LookupDescriptorProperties(descriptorCache, texture, isUAV, nri);
      var d := GetOrCreateDescriptor(texture, isUAV, nri);
      pair := UpscalerResource(texture, d);
    }

    /** The eight `GetPair` calls of `DispatchCompute`, in order, and the dispatch descriptor. */
    method BindFrame(d: RRFrameData, nri: Nri) returns (desc: DispatchUpscaleDesc)
      modifies this
      ensures DispatchDescFor(desc, d, descriptorCache, nri)
      ensures CacheExtends(old(descriptorCache), descriptorCache)
      ensures OnlyFrameKeys(old(descriptorCache), descriptorCache, d, nri)
      ensures textureWidth == old(textureWidth) && textureHeight == old(textureHeight)
      ensures upscaler == old(upscaler) && resourcesInitialized == old(resourcesInitialized)
    {
      ghost var c0 := descriptorCache;
      var input := GetPair(d.inputTex, false, nri);
      ghost var c1 := descriptorCache;
      var output := GetPair(d.outputTex, true, nri);
      ghost var c2 := descriptorCache;
      CacheExtendsTransitive(c0, c1, c2);
      var guides := BindGuides(d, nri);
      ghost var c3 := descriptorCache;
      CacheExtendsTransitive(c1, c2, c3);
      CacheExtendsTransitive(c0, c2, c3);
      desc := DispatchUpscaleDesc(input, output, d.width / 2, d.height / 2, guides,
                                  d.worldToViewMatrix, d.viewToClipMatrix);
    }

    /** The six guide bindings, all as shader resources. */
    method BindGuides(d: RRFrameData, nri: Nri) returns (guides: Guides)
      modifies this
      ensures PairBound(guides.mv, d.mvTex, false, descriptorCache, nri)
      ensures PairBound(guides.depth, d.depthTex, false, descriptorCache, nri)
      ensures PairBound(guides.diffuseAlbedo, d.diffuseAlbedoTex, false, descriptorCache, nri)
      ensures PairBound(guides.specularAlbedo, d.specularAlbedoTex, false, descriptorCache, nri)
      ensures PairBound(guides.normalRoughness, d.normalRoughnessTex, false, descriptorCache, nri)
      ensures PairBound(guides.specularMvOrHitT, d.specularMvOrHitTex, false, descriptorCache, nri)
      ensures CacheExtends(old(descriptorCache), descriptorCache)
      ensures forall k :: k in descriptorCache ==>
        k in old(descriptorCache) || k == KeyOf(d.mvTex, false, nri) || k == KeyOf(d.depthTex, false, nri)
        || k == KeyOf(d.diffuseAlbedoTex, false, nri) || k == KeyOf(d.specularAlbedoTex, false, nri)
        || k == KeyOf(d.normalRoughnessTex, false, nri) || k == KeyOf(d.specularMvOrHitTex, false, nri)
      ensures textureWidth == old(textureWidth) && textureHeight == old(textureHeight)
      ensures upscaler == old(upscaler) && resourcesInitialized == old(resourcesInitialized)
    {
      ghost var c0 := descriptorCache;
      var mv := GetPair(d.mvTex, false, nri);
      ghost var c1 := descriptorCache;
      var depth := GetPair(d.depthTex, false, nri);
      ghost var c2 := descriptorCache;
      CacheExtendsTransitive(c0, c1, c2);
      var diffuseAlbedo := GetPair(d.diffuseAlbedoTex, false, nri);
      ghost var c3 := descriptorCache;
      CacheExtendsTransitive(c1, c2, c3);
      CacheExtendsTransitive(c0, c2, c3);
      var specularAlbedo := GetPair(d.specularAlbedoTex, false, nri);
      ghost var c4 := descriptorCache;
      CacheExtendsTransitive(c2, c3, c4);
      CacheExtendsTransitive(c1, c3, c4);
      CacheExtendsTransitive(c0, c3, c4);
      var normalRoughness := GetPair(d.normalRoughnessTex, false, nri);
      ghost var c5 := descriptorCache;
      CacheExtendsTransitive(c3, c4, c5);
      CacheExtendsTransitive(c2, c4, c5);
      CacheExtendsTransitive(c1, c4, c5);
      CacheExtendsTransitive(c0, c4, c5);
      var specularMvOrHitT := GetPair(d.specularMvOrHitTex, false, nri);
      ghost var c6 := descriptorCache;
      CacheExtendsTransitive(c4, c5, c6);
      CacheExtendsTransitive(c3, c5, c6);
      CacheExtendsTransitive(c2, c5, c6);
      CacheExtendsTransitive(c1, c5, c6);
      CacheExtendsTransitive(c0, c5, c6);
      guides := Guides(mv, depth, diffuseAlbedo, specularAlbedo, normalRoughness, specularMvOrHitT);
    }

    /**
     * `DispatchCompute(data)`. Nothing happens without data, with a zero dimension, or
     * when no command list is recording. A new size is stored, the old upscaler destroyed
     * and a new one requested; its props are then read through `m_DLRR`, which is null
     * when creation failed. The eight views are bound through the descriptor cache and
     * the upscale dispatched at half the frame size.
     */
    method DispatchCompute(data: Option<RRFrameData>, recording: bool, nri: Nri, created: Option<Handle>)
      returns (outcome: DlrrOutcome)
      modifies this
      ensures data.None? || data.value.width == 0 || data.value.height == 0 || !recording ==>
                outcome == Skipped && textureWidth == old(textureWidth) && textureHeight == old(textureHeight)
                && upscaler == old(upscaler) && descriptorCache == old(descriptorCache)
      ensures data.Some? && data.value.width != 0 && data.value.height != 0 && recording ==>
                var d := data.value;
                var resized := old(textureWidth) != d.width || old(textureHeight) != d.height;
                var before := if resized then ResizeCalls(old(upscaler), d.width, d.height) else [];
                textureWidth == d.width && textureHeight == d.height
                && upscaler == (if !resized then old(upscaler) else if created.Some? then created.value else 0)
                && (resized && upscaler == 0 ==> outcome == NullUpscaler(before) && descriptorCache == old(descriptorCache))
                && (!resized && upscaler == 0 ==> outcome.NullUpscaler?)
                && (upscaler != 0 ==>
                      outcome.Dispatched? && |outcome.calls| == |before| + 1 && outcome.calls[..|before|] == before
                      && outcome.calls[|before|].CmdDispatchUpscale? && outcome.calls[|before|].upscaler == upscaler
                      && DispatchDescFor(outcome.calls[|before|].dispatch, d, descriptorCache, nri))
                && CacheExtends(old(descriptorCache), descriptorCache)
                && OnlyFrameKeys(old(descriptorCache), descriptorCache, d, nri)
      ensures resourcesInitialized == old(resourcesInitialized)
    {
      if data.None? {
        return Skipped;
      }
      var d := data.value;
      if d.width == 0 || d.height == 0 {
        return Skipped;
      }
      if !recording {
        return Skipped;
      }
      var calls: seq<UpscalerCall> := [];
      if textureWidth != d.width || textureHeight != d.height {
        textureWidth := d.width;
        textureHeight := d.height;
        if upscaler != 0 {
          calls := calls + [DestroyUpscaler(upscaler)];
          upscaler := 0;
        }
        calls := calls + [CreateUpscaler(UpscalerDescFor(d.width, d.height))];
        if created.Some? {
          upscaler := created.value;
        }
        if upscaler == 0 {
          // GetUpscalerProps(*m_DLRR, ...) with a null m_DLRR.
          return NullUpscaler(calls);
        }
      }
      var desc := BindFrame(d, nri);
      if upscaler == 0 {
        // CmdDispatchUpscale(*nriCmdBuffer, *m_DLRR, ...) with a null m_DLRR.
        return NullUpscaler(calls);
      }
      outcome := Dispatched(calls + [CmdDispatchUpscale(upscaler, desc)]);
    }

    /** `initialize_and_create_resources`: sets the flag once. */
    method InitializeAndCreateResources()
      modifies this
      ensures resourcesInitialized
      ensures upscaler == old(upscaler) && descriptorCache == old(descriptorCache)
      ensures textureWidth == old(textureWidth) && textureHeight == old(textureHeight)
    {
      if resourcesInitialized {
        return;
      }
      resourcesInitialized := true;
    }

    /** `release_resources` (also the destructor): when initialised, destroys the upscaler
        if there is one and clears the flag; returns the upscaler destroyed. The descriptor
        cache is kept. */
    method ReleaseResources() returns (destroyed: Option<Handle>)
      modifies this
      ensures !resourcesInitialized
      ensures old(resourcesInitialized) && old(upscaler) != 0 ==> destroyed == Some(old(upscaler)) && upscaler == 0
      ensures !(old(resourcesInitialized) && old(upscaler) != 0) ==> destroyed == None && upscaler == old(upscaler)
      ensures descriptorCache == old(descriptorCache)
      ensures textureWidth == old(textureWidth) && textureHeight == old(textureHeight)
    {
      destroyed := None;
      if !resourcesInitialized {
        return;
      }
      if upscaler != 0 {
        destroyed := Some(upscaler);
        upscaler := 0;
      }
      resourcesInitialized := false;
    }
  }
}
