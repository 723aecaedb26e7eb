/**
 * Model of UnityProject/Assets/Scripts/PathTracingDataBuilder.cs: the scene data the
 * path tracer reads, one instance record per renderer that has a mesh and one primitive
 * record per triangle, with every material's four textures stored once, as a group of
 * four consecutive entries, in a global texture pool.
 *
 * A texture is its Unity instance id. Everything a primitive or instance record gets from
 * floating-point vertex, matrix or colour data is left out: a primitive keeps its
 * triangle's three vertex indices, an instance its packed texture offset and flags and its
 * primitive offsets. Unity's acceleration structure, compute buffers and the bindless
 * upload are calls into code outside the model; of them only the instance id given to
 * each processed renderer is recorded.
 */
module DataBuilder {
  import opened Base

  const FlagFirstBit: bv32 := 24
  /** `NON_FLAG_MASK`, the low 24 bits. */
  const NonFlagMask: bv32 := 0xFF_FFFF
  const FlagNonTransparent: bv32 := 0x01
  const FlagTransparent: bv32 := 0x02
  const FlagStatic: bv32 := 0x08
  /** The first render queue of transparent geometry. */
  const TransparentQueue: int := 3000

  /** The textures a material names (`None` where `GetTexture` gives null), its render queue,
      and whether `_SURFACE_TYPE_TRANSPARENT` is enabled. */
  datatype Material = Material(
    baseMap: Option<int>, metallicGlossMap: Option<int>, bumpMap: Option<int>, emissionMap: Option<int>,
    renderQueue: int, transparentKeyword: bool)

  datatype Triangle = Triangle(i0: int, i1: int, i2: int)

  /** A scene renderer: the shared mesh of its `MeshFilter` as a triangle list (`None` when
      there is no filter or no mesh), its shared material and its game object's static flag. */
  datatype Renderer = Renderer(mesh: Option<seq<Triangle>>, material: Option<Material>, isStatic: bool)

  /** The four textures of a group; the source's string key joins their ids with `_`, which
      is injective because an id's decimal form holds no `_`. */
  datatype GroupKey = GroupKey(base: int, mask: int, normal: int, emission: int)

  /** `PrimitiveData` of one triangle: its vertex indices (the attributes read at them are
      floating point). */
  datatype PrimitiveData = PrimitiveData(i0: int, i1: int, i2: int)

  /** The integer fields of `InstanceData`. */
  datatype InstanceData = InstanceData(textureOffsetAndFlags: bv32, primitiveOffset: nat, morphPrimitiveOffset: nat)

  function OrDefault(t: Option<int>, fallback: int): int
  {
    if t.Some? then t.value else fallback
  }

  /** The C# `(uint)` cast of a pool index. */
  function UIntBits(x: nat): bv32
  {
    (x % TwoTo32) as bv32
  }

  /** `textureOffsetAndFlags`: the low eight flag bits in bits 24-31 and the low 24 bits of
      the texture index in bits 0-23; shifting and masking recovers both. */
  function Pack(flags: bv32, index: bv32): (r: bv32)
    ensures r >> FlagFirstBit == flags & 0xFF
    ensures r & NonFlagMask == index & NonFlagMask
  {
    ((flags & 0xFF) << FlagFirstBit) | (index & NonFlagMask)
  }

  predicate Transparent(m: Material)
  {
    m.renderQueue >= TransparentQueue || m.transparentKeyword
  }

  /** The flags of a renderer: none without a material; otherwise exactly one of TRANSPARENT
      and NON_TRANSPARENT, the transparent one as the material says, and STATIC exactly when
      the game object is static. */
  function MaterialFlags(material: Option<Material>, isStatic: bool): (flags: bv32)
    ensures material.None? ==> flags == 0
    ensures material.Some? ==>
              ((flags & FlagTransparent != 0) <==> Transparent(material.value))
              && ((flags & FlagNonTransparent != 0) <==> !Transparent(material.value))
              && ((flags & FlagStatic != 0) <==> isStatic)
              && flags & !(FlagNonTransparent | FlagTransparent | FlagStatic) == 0
  {
    if material.None? then 0
    else
      (if Transparent(material.value) then FlagTransparent else FlagNonTransparent)
      | (if isStatic then FlagStatic else 0)
  }

  /** The pool holds the group `key` at `index`, a multiple of four. */
  predicate GroupAt(pool: seq<int>, index: nat, key: GroupKey)
  {
    index % 4 == 0 && index + 3 < |pool|
    && pool[index] == key.base && pool[index + 1] == key.mask
    && pool[index + 2] == key.normal && pool[index + 3] == key.emission
  }

  /** A group stays where it is when the pool grows at its end. */
  lemma GroupAtExtends(pool: seq<int>, more: seq<int>, index: nat, key: GroupKey)
    requires GroupAt(pool, index, key)
    ensures GroupAt(pool + more, index, key)
  {
  }

  /** Two keys cached at the same index are the same key, so the cache never maps two
      different groups to one index. */
  lemma CachedIndicesDistinct(pool: seq<int>, cache: map<GroupKey, nat>, a: GroupKey, b: GroupKey)
    requires forall k :: k in cache ==> GroupAt(pool, cache[k], k)
    requires a in cache && b in cache && a != b
    ensures cache[a] != cache[b]
  {
    var i, j := cache[a], cache[b];
    assert GroupAt(pool, i, a) && GroupAt(pool, j, b);
    assert a == GroupKey(pool[i], pool[i + 1], pool[i + 2], pool[i + 3]);
    assert b == GroupKey(pool[j], pool[j + 1], pool[j + 2], pool[j + 3]);
  }

  /** The indices of the renderers `Build` processes: those with a mesh, in order. */
  function Meshed(rs: seq<Renderer>): (ids: seq<nat>)
    ensures forall k :: 0 <= k < |ids| ==> ids[k] < |rs| && rs[ids[k]].mesh.Some?
  {
    if rs == [] then []
    else Meshed(rs[..|rs| - 1]) + (if rs[|rs| - 1].mesh.Some? then [|rs| - 1] else [])
  }

  /** The primitive records of one mesh, one per triangle. */
  function PrimitivesOf(mesh: seq<Triangle>): (ps: seq<PrimitiveData>)
    ensures |ps| == |mesh|
    ensures forall t :: 0 <= t < |mesh| ==>
              ps[t] == PrimitiveData(mesh[t].i0, mesh[t].i1, mesh[t].i2)
  {
    seq(|mesh|, t requires 0 <= t < |mesh| => PrimitiveData(mesh[t].i0, mesh[t].i1, mesh[t].i2))
  }

  function MeshPrimitives(r: Renderer): seq<PrimitiveData>
  {
    if r.mesh.Some? then PrimitivesOf(r.mesh.value) else []
  }

  /** All primitive records of a renderer list, renderer after renderer. */
  function AllPrimitives(rs: seq<Renderer>): seq<PrimitiveData>
  {
    if rs == [] then [] else AllPrimitives(rs[..|rs| - 1]) + MeshPrimitives(rs[|rs| - 1])
  }

  /** The triangles of the renderers that have a mesh. */
  function TriangleTotal(rs: seq<Renderer>): nat
  {
    if rs == [] then 0
    else TriangleTotal(rs[..|rs| - 1]) + (if rs[|rs| - 1].mesh.Some? then |rs[|rs| - 1].mesh.value| else 0)
  }

  lemma {:induction false} AllPrimitivesLength(rs: seq<Renderer>)
    ensures |AllPrimitives(rs)| == TriangleTotal(rs)
    decreases |rs|
  {
    if rs != [] {
      AllPrimitivesLength(rs[..|rs| - 1]);
    }
  }

  /** The primitives of a prefix of the renderers begin the primitives of the whole list. */
  lemma {:induction false} AllPrimitivesPrefix(rs: seq<Renderer>, i: nat)
    requires i <= |rs|
    ensures AllPrimitives(rs[..i]) <= AllPrimitives(rs)
    decreases |rs|
  {
    if i < |rs| {
      assert rs[..|rs| - 1][..i] == rs[..i];
      AllPrimitivesPrefix(rs[..|rs| - 1], i);
    } else {
      assert rs[..i] == rs;
    }
  }

  /**
   * A processed renderer's primitive offset, the triangle total of the renderers before it,
   * is where its own triangles start: the primitive at offset + t is its triangle t.
   */
  lemma PrimitiveOffsetLocatesTriangles(rs: seq<Renderer>, i: nat, t: nat)
    requires i < |rs| && rs[i].mesh.Some? && t < |rs[i].mesh.value|
    ensures TriangleTotal(rs[..i]) + t < |AllPrimitives(rs)|
    ensures AllPrimitives(rs)[TriangleTotal(rs[..i]) + t]
            == PrimitiveData(rs[i].mesh.value[t].i0, rs[i].mesh.value[t].i1, rs[i].mesh.value[t].i2)
  {
    var upto := rs[..i + 1];
    assert upto[..|upto| - 1] == rs[..i];
    assert AllPrimitives(upto) == AllPrimitives(rs[..i]) + PrimitivesOf(rs[i].mesh.value);
    AllPrimitivesLength(rs[..i]);
    AllPrimitivesPrefix(rs, i + 1);
  }

  /** The renderers a processed renderer's index skips over: meshless ones. The instance id
      `Build` gives a renderer is its index in the renderer list, which is its instance
      record's index exactly when no earlier renderer is meshless. */
  lemma {:induction false} MeshedIsIdentityWithoutSkips(rs: seq<Renderer>)
    requires forall i :: 0 <= i < |rs| ==> rs[i].mesh.Some?
    ensures |Meshed(rs)| == |rs|
    ensures forall k :: 0 <= k < |rs| ==> Meshed(rs)[k] == k
    decreases |rs|
  {
    if rs != [] {
      MeshedIsIdentityWithoutSkips(rs[..|rs| - 1]);
    }
  }

  /** One meshless renderer in front: the only instance record, index 0, is given instance
      id 1. */
  lemma SkippedRendererShiftsInstanceId(m: seq<Triangle>)
    ensures Meshed([Renderer(None, None, false), Renderer(Some(m), None, false)]) == [1]
  {
    var rs := [Renderer(None, None, false), Renderer(Some(m), None, false)];
    assert rs[..1] == [Renderer(None, None, false)];
    assert rs[..1][..0] == [];
    assert Meshed(rs[..1]) == [];
    assert rs[..|rs| - 1] == rs[..1];
  }

  /** Advancing the `uint` primitive offset by each mesh's triangle count keeps it at the
      triangle total modulo 2^32. */
  lemma OffsetStep(rs: seq<Renderer>, i: nat)
    requires i < |rs|
    ensures TriangleTotal(rs[..i + 1]) % TwoTo32
            == ((TriangleTotal(rs[..i]) % TwoTo32) + (if rs[i].mesh.Some? then |rs[i].mesh.value| else 0)) % TwoTo32
  {
    assert rs[..i + 1][..i] == rs[..i];
    var n := if rs[i].mesh.Some? then |rs[i].mesh.value| else 0;
    var t := TriangleTotal(rs[..i]);
    assert TriangleTotal(rs[..i + 1]) == t + n;
    assert t == (t / TwoTo32) * TwoTo32 + t % TwoTo32;
    ModAddMultiple(t % TwoTo32 + n, t / TwoTo32);
  }

  lemma ModAddMultiple(x: nat, q: nat)
    ensures (x + q * TwoTo32) % TwoTo32 == x % TwoTo32
  {
  }

  /** The renderers processed among the first i + 1: those among the first i, then
      renderer i if it has a mesh. */
  lemma MeshedStep(rs: seq<Renderer>, i: nat)
    requires i < |rs|
    ensures Meshed(rs[..i + 1]) == Meshed(rs[..i]) + (if rs[i].mesh.Some? then [i] else [])
    ensures forall k :: 0 <= k < |Meshed(rs[..i])| ==> Meshed(rs[..i])[k] < i
    ensures AllPrimitives(rs[..i + 1]) == AllPrimitives(rs[..i]) + MeshPrimitives(rs[i])
  {
    assert rs[..i + 1][..i] == rs[..i];
  }

  class PathTracingDataBuilder {
    var defaultWhite: int
    var defaultBlack: int
    var defaultNormal: int
    var defaultMask: int
    var globalTexturePool: seq<int>
    var textureGroupCache: map<GroupKey, nat>
    var instanceDataList: seq<InstanceData>
    var primitiveDataList: seq<PrimitiveData>
    /** The instance id `UpdateInstanceID` gave each instance record's renderer, in order. */
    var instanceIds: seq<nat>
    /** The full texture index of each instance record's group, before packing. */
    ghost var groupIndices: seq<nat>

    /** The pool is made of whole groups and every cached key names the group it indexes. */
    ghost predicate PoolValid()
      reads this
    {
      |globalTexturePool| % 4 == 0
      && forall k :: k in textureGroupCache ==> GroupAt(globalTexturePool, textureGroupCache[k], k)
    }

    /** The four textures of a material, each missing one replaced by its default. */
    function KeyOf(mat: Material): GroupKey
      reads this
    {
      GroupKey(OrDefault(mat.baseMap, defaultWhite), OrDefault(mat.metallicGlossMap, defaultMask),
               OrDefault(mat.bumpMap, defaultNormal), OrDefault(mat.emissionMap, defaultBlack))
    }

    constructor ()
      ensures PoolValid()
      ensures globalTexturePool == [] && textureGroupCache == map[]
      ensures instanceDataList == [] && primitiveDataList == [] && instanceIds == []
    {
      globalTexturePool := [];
      textureGroupCache := map[];
      instanceDataList := [];
      primitiveDataList := [];
      instanceIds := [];
      groupIndices := [];
    }

    /**
     * `GetTextureGroupIndex(mat)`: 0 for a null material, with nothing changed; the cached
     * index of a group already in the pool; otherwise the old pool length, after appending
     * base, mask, normal and emission texture in that order and caching the key. Either way
     * the group at the returned index is the material's.
     */
    method GetTextureGroupIndex(mat: Option<Material>) returns (index: nat)
      requires PoolValid()
      modifies this
      ensures PoolValid()
      ensures index < |globalTexturePool| + 1
      ensures mat.None? ==> index == 0
                            && globalTexturePool == old(globalTexturePool) && textureGroupCache == old(textureGroupCache)
      ensures mat.Some? && KeyOf(mat.value) in old(textureGroupCache) ==>
                index == old(textureGroupCache)[KeyOf(mat.value)]
                && globalTexturePool == old(globalTexturePool) && textureGroupCache == old(textureGroupCache)
      ensures mat.Some? && KeyOf(mat.value) !in old(textureGroupCache) ==>
                var k := KeyOf(mat.value);
                index == |old(globalTexturePool)|
                && globalTexturePool == old(globalTexturePool) + [k.base, k.mask, k.normal, k.emission]
                && textureGroupCache == old(textureGroupCache)[k := index]
      ensures mat.Some? ==> GroupAt(globalTexturePool, index, KeyOf(mat.value))
      ensures old(globalTexturePool) <= globalTexturePool
      ensures defaultWhite == old(defaultWhite) && defaultBlack == old(defaultBlack)
      ensures defaultNormal == old(defaultNormal) && defaultMask == old(defaultMask)
      ensures instanceDataList == old(instanceDataList) && primitiveDataList == old(primitiveDataList)
      ensures instanceIds == old(instanceIds) && groupIndices == old(groupIndices)
    {
      if mat.None? {
        return 0;
      }
      var key := KeyOf(mat.value);
      if key in textureGroupCache {
        return textureGroupCache[key];
      }
      index := |globalTexturePool|;
      var group := [key.base, key.mask, key.normal, key.emission];
      forall k | k in textureGroupCache
        ensures GroupAt(globalTexturePool + group, textureGroupCache[k], k)
      {
        GroupAtExtends(globalTexturePool, group, textureGroupCache[k], k);
      }
      globalTexturePool := globalTexturePool + group;
      textureGroupCache := textureGroupCache[key := index];
    }

    /** The inner loop of `Build`: one primitive record per triangle, appended in order. */
    method AppendPrimitives(mesh: seq<Triangle>)
      modifies this
      ensures primitiveDataList == old(primitiveDataList) + PrimitivesOf(mesh)
      ensures globalTexturePool == old(globalTexturePool) && textureGroupCache == old(textureGroupCache)
      ensures instanceDataList == old(instanceDataList) && instanceIds == old(instanceIds)
      ensures groupIndices == old(groupIndices)
      ensures defaultWhite == old(defaultWhite) && defaultBlack == old(defaultBlack)
      ensures defaultNormal == old(defaultNormal) && defaultMask == old(defaultMask)
    {
      for t := 0 to |mesh|
        invariant primitiveDataList == old(primitiveDataList) + PrimitivesOf(mesh[..t])
        invariant globalTexturePool == old(globalTexturePool) && textureGroupCache == old(textureGroupCache)
        invariant instanceDataList == old(instanceDataList) && instanceIds == old(instanceIds)
        invariant groupIndices == old(groupIndices)
        invariant defaultWhite == old(defaultWhite) && defaultBlack == old(defaultBlack)
        invariant defaultNormal == old(defaultNormal) && defaultMask == old(defaultMask)
      {
        assert PrimitivesOf(mesh[..t + 1]) == PrimitivesOf(mesh[..t]) + [PrimitiveData(mesh[t].i0, mesh[t].i1, mesh[t].i2)];
        primitiveDataList := primitiveDataList + [PrimitiveData(mesh[t].i0, mesh[t].i1, mesh[t].i2)];
      }
      assert mesh[..|mesh|] == mesh;
    }

    /** The record `Build` makes for renderer `r`, given its instance id, its primitive
        offset and the texture index of its material. */
    ghost predicate RecordFor(k: nat, r: Renderer, id: nat, offset: nat)
      requires k < |instanceDataList| && k < |instanceIds| && k < |groupIndices|
      reads this
    {
      instanceIds[k] == id
      && instanceDataList[k] == InstanceData(Pack(MaterialFlags(r.material, r.isStatic), UIntBits(groupIndices[k])), offset, 0)
      && (r.material.None? ==> groupIndices[k] == 0)
      && (r.material.Some? ==> GroupAt(globalTexturePool, groupIndices[k], KeyOf(r.material.value)))
    }

    /** The body of `Build`'s loop for a renderer that has a mesh. */
    method AddInstance(r: Renderer, id: nat, offset: nat)
      requires r.mesh.Some? && PoolValid()
      requires |instanceDataList| == |instanceIds| == |groupIndices|
      modifies this
      ensures PoolValid()
      ensures |instanceDataList| == |instanceIds| == |groupIndices| == |old(instanceDataList)| + 1
      ensures instanceDataList[..|instanceDataList| - 1] == old(instanceDataList)
      ensures instanceIds[..|instanceIds| - 1] == old(instanceIds)
      ensures groupIndices[..|groupIndices| - 1] == old(groupIndices)
      ensures RecordFor(|old(instanceDataList)|, r, id, offset)
      ensures primitiveDataList == old(primitiveDataList) + PrimitivesOf(r.mesh.value)
      ensures old(globalTexturePool) <= globalTexturePool
      ensures defaultWhite == old(defaultWhite) && defaultBlack == old(defaultBlack)
      ensures defaultNormal == old(defaultNormal) && defaultMask == old(defaultMask)
    {
      AppendPrimitives(r.mesh.value);
      var baseTextureIndex := GetTextureGroupIndex(r.material);
      var flags := MaterialFlags(r.material, r.isStatic);
      instanceDataList := instanceDataList + [InstanceData(Pack(flags, UIntBits(baseTextureIndex)), offset, 0)];
      instanceIds := instanceIds + [id];
      groupIndices := groupIndices + [baseTextureIndex];
    }

    /** Every instance record so far is the one `Build` makes for its renderer. */
    ghost predicate RecordsFor(rs: seq<Renderer>, n: nat)
      requires n <= |rs|
      reads this
    {
      var ids := Meshed(rs[..n]);
      |instanceDataList| == |instanceIds| == |groupIndices| == |ids|
      && forall k :: 0 <= k < |ids| ==> RecordFor(k, rs[ids[k]], ids[k], TriangleTotal(rs[..ids[k]]) % TwoTo32)
    }

    /** Records of earlier renderers stay valid as the pool grows and records are appended. */
    lemma RecordKept(k: nat, r: Renderer, id: nat, offset: nat, pool: seq<int>, data: seq<InstanceData>,
                     ids: seq<nat>, groups: seq<nat>)
      requires k < |data| && k < |ids| && k < |groups|
      requires k < |instanceDataList| && k < |instanceIds| && k < |groupIndices|
      requires data[k] == instanceDataList[k] && ids[k] == instanceIds[k] && groups[k] == groupIndices[k]
      requires pool <= globalTexturePool
      requires instanceIds[k] == id
      requires instanceDataList[k] == InstanceData(Pack(MaterialFlags(r.material, r.isStatic), UIntBits(groups[k])), offset, 0)
      requires r.material.None? ==> groups[k] == 0
      requires r.material.Some? ==> GroupAt(pool, groups[k], KeyOf(r.material.value))
      ensures RecordFor(k, r, id, offset)
    {
      if r.material.Some? {
        GroupAtExtends(pool, globalTexturePool[|pool|..], groups[k], KeyOf(r.material.value));
        assert pool + globalTexturePool[|pool|..] == globalTexturePool;
      }
    }

    /**
     * `Build()` with the renderers Unity finds and Unity's default textures: clears lists,
     * pool and cache, then makes one instance record per renderer that has a mesh. Its
     * primitive offset is the triangle total of the renderers before it (as a wrapping
     * `uint`), it is given its renderer's index as instance id, its packed texture offset
     * and flags name the group holding its material's textures, and the primitives are all
     * triangles in renderer order.
     */
    method Build(renderers: seq<Renderer>, whiteTexture: int, blackTexture: int, normalTexture: int)
      modifies this
      ensures PoolValid() && RecordsFor(renderers, |renderers|)
      ensures primitiveDataList == AllPrimitives(renderers)
      ensures defaultWhite == whiteTexture && defaultBlack == blackTexture
      ensures defaultNormal == normalTexture && defaultMask == whiteTexture
    {
      defaultWhite := whiteTexture;
      defaultBlack := blackTexture;
      defaultNormal := normalTexture;
      defaultMask := whiteTexture;
      instanceDataList := [];
      primitiveDataList := [];
      instanceIds := [];
      groupIndices := [];
      globalTexturePool := [];
      textureGroupCache := map[];
      var currentPrimitiveOffset: nat := 0;
      for i := 0 to |renderers|
        invariant PoolValid() && RecordsFor(renderers, i)
        invariant primitiveDataList == AllPrimitives(renderers[..i])
        invariant currentPrimitiveOffset == TriangleTotal(renderers[..i]) % TwoTo32
        invariant defaultWhite == whiteTexture && defaultBlack == blackTexture
        invariant defaultNormal == normalTexture && defaultMask == whiteTexture
      {
        currentPrimitiveOffset := BuildStep(renderers, i, currentPrimitiveOffset);
      }
      assert renderers[..|renderers|] == renderers;
    }

    /** One iteration of `Build`'s loop, moving the invariant from renderers[..i] to
        renderers[..i + 1]. */
    method BuildStep(renderers: seq<Renderer>, i: nat, offset: nat) returns (next: nat)
      requires i < |renderers|
      requires PoolValid() && RecordsFor(renderers, i)
      requires primitiveDataList == AllPrimitives(renderers[..i])
      requires offset == TriangleTotal(renderers[..i]) % TwoTo32
      modifies this
      ensures PoolValid() && RecordsFor(renderers, i + 1)
      ensures primitiveDataList == AllPrimitives(renderers[..i + 1])
      ensures next == TriangleTotal(renderers[..i + 1]) % TwoTo32
      ensures defaultWhite == old(defaultWhite) && defaultBlack == old(defaultBlack)
      ensures defaultNormal == old(defaultNormal) && defaultMask == old(defaultMask)
    {
      OffsetStep(renderers, i);
      next := offset;
      if renderers[i].mesh.Some? {
        // the primitive offset advances by the triangle count, wrapping at 2^32
        next := (offset + |renderers[i].mesh.value|) % TwoTo32;
      }
      MeshedStep(renderers, i);
      if renderers[i].mesh.Some? {
        AddMeshed(renderers, i, offset);
      }
    }

    /** `BuildStep` for a renderer that has a mesh. */
    method AddMeshed(renderers: seq<Renderer>, i: nat, offset: nat)
      requires i < |renderers| && renderers[i].mesh.Some?
      requires PoolValid() && RecordsFor(renderers, i)
      requires offset == TriangleTotal(renderers[..i]) % TwoTo32
      requires Meshed(renderers[..i + 1]) == Meshed(renderers[..i]) + [i]
      requires forall k :: 0 <= k < |Meshed(renderers[..i])| ==> Meshed(renderers[..i])[k] < i
      modifies this
      ensures PoolValid() && RecordsFor(renderers, i + 1)
      ensures primitiveDataList == old(primitiveDataList) + PrimitivesOf(renderers[i].mesh.value)
      ensures defaultWhite == old(defaultWhite) && defaultBlack == old(defaultBlack)
      ensures defaultNormal == old(defaultNormal) && defaultMask == old(defaultMask)
    {
      var r := renderers[i];
      ghost var pool := globalTexturePool;
      ghost var data := instanceDataList;
      ghost var ids := instanceIds;
      ghost var groups := groupIndices;
      var before := Meshed(renderers[..i]);
      AddInstance(r, i, offset);
      var after := Meshed(renderers[..i + 1]);
      forall k | 0 <= k < |after|
        ensures RecordFor(k, renderers[after[k]], after[k], TriangleTotal(renderers[..after[k]]) % TwoTo32)
      {
        if k == |before| {
          assert after[k] == i;
        } else {
          var j := before[k];
          assert after[k] == j;
          assert data[k] == instanceDataList[k] && ids[k] == instanceIds[k] && groups[k] == groupIndices[k];
          RecordKept(k, renderers[j], j, TriangleTotal(renderers[..j]) % TwoTo32, pool, data, ids, groups);
        }
      }
    }
  }
}
