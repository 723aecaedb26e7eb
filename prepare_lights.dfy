/**
 * Model of UnityProject/Assets/Scripts/Rtxdi/PrepareLightsPass.cs: counting the emissive
 * geometry of the scene, and building the RTXDI light-preparation tasks, the
 * geometry-instance-to-light mapping and the light-buffer parameters.
 *
 * The data builder's renderer-to-instance dictionary is the list of its entries in
 * enumeration order. A submesh is its material's `_EMISSION` keyword and the length of
 * its triangle index list. The counters are unbounded: the `uint` counters of the source
 * would wrap past 2^32 and the LINQ `Sum` would throw past 2^31 - 1. Uploading the
 * mapping and the tasks to GPU buffers is left out.
 */
module PrepareLights {
  import opened Base

  /** `RTXDI_INVALID_LIGHT_INDEX`. */
  const InvalidLightIndex: nat := 0xFFFF_FFFF

  datatype Submesh = Submesh(emissive: bool, triangleIndices: nat)

  /** One renderer of the dictionary: its shared mesh's submeshes (`None` without a mesh
      filter or mesh) and its instance index. */
  datatype Entry = Entry(mesh: Option<seq<Submesh>>, instanceIndex: nat)

  /** An emissive submesh: the instance index of its renderer and its triangle count. */
  datatype Light = Light(instanceIndex: nat, triangles: nat)

  datatype PrepareLightsTask = PrepareLightsTask(instanceIndex: nat, geometryIndex: nat, lightBufferOffset: nat, triangleCount: nat)

  datatype LightBufferParameters = LightBufferParameters(
    localFirstLightIndex: nat, localNumLights: nat,
    infiniteFirstLightIndex: nat, infiniteNumLights: nat,
    environmentLightIndex: nat, environmentLightPresent: nat)

  /** The emissive submeshes of one renderer, in submesh order. */
  function SubmeshLights(instanceIndex: nat, subs: seq<Submesh>): seq<Light>
  {
    if subs == [] then []
    else SubmeshLights(instanceIndex, subs[..|subs| - 1])
         + (if subs[|subs| - 1].emissive then [Light(instanceIndex, subs[|subs| - 1].triangleIndices / 3)] else [])
  }

  function EntryLights(e: Entry): seq<Light>
  {
    if e.mesh.Some? then SubmeshLights(e.instanceIndex, e.mesh.value) else []
  }

  /** The emissive submeshes of the scene, renderer by renderer. */
  function EmissiveList(entries: seq<Entry>): seq<Light>
  {
    if entries == [] then [] else EmissiveList(entries[..|entries| - 1]) + EntryLights(entries[|entries| - 1])
  }

  /** The triangles of a list of lights. */
  function TriangleSum(lights: seq<Light>): nat
  {
    if lights == [] then 0 else TriangleSum(lights[..|lights| - 1]) + lights[|lights| - 1].triangles
  }

  function SubmeshCount(e: Entry): nat
  {
    if e.mesh.Some? then |e.mesh.value| else 0
  }

  /** `geometryInstanceCount`: the submeshes of the renderers that have a mesh. */
  function SubmeshTotal(entries: seq<Entry>): nat
  {
    if entries == [] then 0 else SubmeshTotal(entries[..|entries| - 1]) + SubmeshCount(entries[|entries| - 1])
  }

  /** The tasks `Process` makes for a list of lights: one per light, with geometry index 0,
      its triangle count, and as light-buffer offset the triangle sum of the
      lights before it. */
  function Tasks(lights: seq<Light>): (tasks: seq<PrepareLightsTask>)
    ensures |tasks| == |lights|
  {
    if lights == [] then []
    else
      var last := lights[|lights| - 1];
      Tasks(lights[..|lights| - 1])
      + [PrepareLightsTask(last.instanceIndex, 0, TriangleSum(lights[..|lights| - 1]), last.triangles)]
  }

  /** The mapping after the writes of `tasks`: every slot starts invalid, and each task
      writes its offset into its instance's slot. */
  function Mapped(tasks: seq<PrepareLightsTask>, n: nat): (m: seq<nat>)
    ensures |m| == n
  {
    if tasks == [] then seq(n, _ => InvalidLightIndex)
    else
      var last := tasks[|tasks| - 1];
      var m := Mapped(tasks[..|tasks| - 1], n);
      if last.instanceIndex < n then m[last.instanceIndex := last.lightBufferOffset] else m
  }

  // ---------------------------------------------------------------- properties

  /** Task i's offset is the triangle sum of the lights before it. */
  lemma {:induction false} TaskOffsetIsPrefixSum(lights: seq<Light>, i: nat)
    requires i < |lights|
    ensures Tasks(lights)[i] == PrepareLightsTask(lights[i].instanceIndex, 0, TriangleSum(lights[..i]), lights[i].triangles)
    decreases |lights|
  {
    var prefix := lights[..|lights| - 1];
    if i < |lights| - 1 {
      TaskOffsetIsPrefixSum(prefix, i);
      assert prefix[..i] == lights[..i];
    }
  }

  /** Tasks are contiguous: the first starts at 0, and each next one starts where the one
      before ends. */
  lemma TasksAreContiguous(lights: seq<Light>)
    ensures |lights| > 0 ==> Tasks(lights)[0].lightBufferOffset == 0
    ensures forall i :: 0 <= i < |lights| - 1 ==>
              Tasks(lights)[i + 1].lightBufferOffset
              == Tasks(lights)[i].lightBufferOffset + Tasks(lights)[i].triangleCount
  {
    if |lights| > 0 {
      TaskOffsetIsPrefixSum(lights, 0);
      assert lights[..0] == [];
    }
    forall i | 0 <= i < |lights| - 1
      ensures Tasks(lights)[i + 1].lightBufferOffset
              == (Tasks(lights)[i].lightBufferOffset + Tasks(lights)[i].triangleCount)
    {
      NextTaskOffset(lights, i);
    }
  }

  /** One step of `TasksAreContiguous`. */
  lemma NextTaskOffset(lights: seq<Light>, i: nat)
    requires i + 1 < |lights|
    ensures Tasks(lights)[i + 1].lightBufferOffset
            == Tasks(lights)[i].lightBufferOffset + Tasks(lights)[i].triangleCount
  {
    TaskOffsetIsPrefixSum(lights, i);
    TaskOffsetIsPrefixSum(lights, i + 1);
    assert lights[..i + 1][..i] == lights[..i];
    var s := TriangleSum(lights[..i]);
    assert TriangleSum(lights[..i + 1]) == s + lights[i].triangles;
  }

  lemma {:induction false} TriangleSumMonotone(lights: seq<Light>, i: nat)
    requires i <= |lights|
    ensures TriangleSum(lights[..i]) <= TriangleSum(lights)
    decreases |lights|
  {
    if i < |lights| {
      assert lights[..|lights| - 1][..i] == lights[..i];
      TriangleSumMonotone(lights[..|lights| - 1], i);
    } else {
      assert lights[..i] == lights;
    }
  }

  /** Task ranges are disjoint and ordered: each ends no later than any later one begins. */
  lemma TaskRangesDisjoint(lights: seq<Light>, i: nat, j: nat)
    requires i < j < |lights|
    ensures Tasks(lights)[i].lightBufferOffset + Tasks(lights)[i].triangleCount <= Tasks(lights)[j].lightBufferOffset
  {
    TaskOffsetIsPrefixSum(lights, i);
    TaskOffsetIsPrefixSum(lights, j);
    TriangleSumMonotone(lights, j);
    TriangleSumMonotone(lights[..j], i + 1);
    assert lights[..j][..i + 1] == lights[..i + 1];
    assert lights[..i + 1][..i] == lights[..i];
    TriangleSumMonotone(lights, i + 1);
    TriangleSumMonotone(lights[..i + 1], i);
  }

  /** A slot no task names stays invalid. */
  lemma {:induction false} UnnamedSlotStaysInvalid(tasks: seq<PrepareLightsTask>, n: nat, x: nat)
    requires x < n && forall j :: 0 <= j < |tasks| ==> tasks[j].instanceIndex != x
    ensures Mapped(tasks, n)[x] == InvalidLightIndex
    decreases |tasks|
  {
    if tasks != [] {
      UnnamedSlotStaysInvalid(tasks[..|tasks| - 1], n, x);
    }
  }

  /** A named slot holds the offset of the last task naming it. */
  lemma {:induction false} LastTaskWins(tasks: seq<PrepareLightsTask>, n: nat, j: nat)
    requires j < |tasks| && tasks[j].instanceIndex < n
    requires forall k :: j < k < |tasks| ==> tasks[k].instanceIndex != tasks[j].instanceIndex
    ensures Mapped(tasks, n)[tasks[j].instanceIndex] == tasks[j].lightBufferOffset
    decreases |tasks|
  {
    if j < |tasks| - 1 {
      LastTaskWins(tasks[..|tasks| - 1], n, j);
    }
  }

  // ---------------------------------------------------------------- the loops

  lemma EmissiveListStep(entries: seq<Entry>, i: nat)
    requires i < |entries|
    ensures EmissiveList(entries[..i + 1]) == EmissiveList(entries[..i]) + EntryLights(entries[i])
    ensures SubmeshTotal(entries[..i + 1]) == SubmeshTotal(entries[..i]) + SubmeshCount(entries[i])
  {
    assert entries[..i + 1][..i] == entries[..i];
  }

  lemma SubmeshLightsStep(instanceIndex: nat, subs: seq<Submesh>, s: nat)
    requires s < |subs|
    ensures SubmeshLights(instanceIndex, subs[..s + 1])
            == SubmeshLights(instanceIndex, subs[..s])
               + (if subs[s].emissive then [Light(instanceIndex, subs[s].triangleIndices / 3)] else [])
  {
    assert subs[..s + 1][..s] == subs[..s];
  }

  /** `SubmeshLightsStep` after the lights of the renderers before this one. */
  lemma PrefixedSubmeshLightsStep(before: seq<Light>, instanceIndex: nat, subs: seq<Submesh>, s: nat)
    requires s < |subs|
    ensures subs[s].emissive ==>
              before + SubmeshLights(instanceIndex, subs[..s + 1])
              == (before + SubmeshLights(instanceIndex, subs[..s])) + [Light(instanceIndex, subs[s].triangleIndices / 3)]
    ensures !subs[s].emissive ==>
              before + SubmeshLights(instanceIndex, subs[..s + 1]) == before + SubmeshLights(instanceIndex, subs[..s])
  {
    SubmeshLightsStep(instanceIndex, subs, s);
  }

  lemma TasksStep(lights: seq<Light>, l: Light)
    ensures Tasks(lights + [l]) == Tasks(lights) + [PrepareLightsTask(l.instanceIndex, 0, TriangleSum(lights), l.triangles)]
    ensures TriangleSum(lights + [l]) == TriangleSum(lights) + l.triangles
  {
    assert (lights + [l])[..|lights|] == lights;
  }

  /**
   * `CountLightsInScene`: the number of emissive submeshes, their triangles and the
   * number of submeshes of every renderer that has a mesh.
   */
  method CountLightsInScene(entries: seq<Entry>) returns (numEmissiveMeshes: nat, numEmissiveTriangles: nat, numGeometryInstances: nat)
    ensures numEmissiveMeshes == |EmissiveList(entries)|
    ensures numEmissiveTriangles == TriangleSum(EmissiveList(entries))
    ensures numGeometryInstances == SubmeshTotal(entries)
  {
    numEmissiveMeshes, numEmissiveTriangles, numGeometryInstances := 0, 0, 0;
    for i := 0 to |entries|
      invariant numEmissiveMeshes == |EmissiveList(entries[..i])|
      invariant numEmissiveTriangles == TriangleSum(EmissiveList(entries[..i]))
      invariant numGeometryInstances == SubmeshTotal(entries[..i])
    {
      EmissiveListStep(entries, i);
      var e := entries[i];
      if e.mesh.Some? {
        numEmissiveMeshes, numEmissiveTriangles, numGeometryInstances :=
          CountEntry(e, EmissiveList(entries[..i]), SubmeshTotal(entries[..i]),
                     numEmissiveMeshes, numEmissiveTriangles, numGeometryInstances);
      } else {
        assert EmissiveList(entries[..i + 1]) == EmissiveList(entries[..i]) + [] == EmissiveList(entries[..i]);
      }
    }
    assert entries[..|entries|] == entries;
  }

  /** The inner loop of `CountLightsInScene` over one renderer's submeshes. */
  method CountEntry(e: Entry, ghost before: seq<Light>, ghost submeshes: nat,
                    meshes: nat, triangles: nat, instances: nat)
    returns (meshes': nat, triangles': nat, instances': nat)
    requires e.mesh.Some?
    requires meshes == |before| && triangles == TriangleSum(before)
    requires instances == submeshes
    ensures meshes' == |before + EntryLights(e)|
    ensures triangles' == TriangleSum(before + EntryLights(e))
    ensures instances' == (submeshes + SubmeshCount(e))
  {
    var subs := e.mesh.value;
    meshes', triangles', instances' := meshes, triangles, instances;
    assert before + SubmeshLights(e.instanceIndex, subs[..0]) == before;
    for s := 0 to |subs|
      invariant meshes' == |before + SubmeshLights(e.instanceIndex, subs[..s])|
      invariant triangles' == TriangleSum(before + SubmeshLights(e.instanceIndex, subs[..s]))
      invariant instances' == (submeshes + s)
    {
      SubmeshLightsStep(e.instanceIndex, subs, s);
      instances' := instances' + 1;
      if subs[s].emissive {
        var sofar := before + SubmeshLights(e.instanceIndex, subs[..s]);
        var l := Light(e.instanceIndex, subs[s].triangleIndices / 3);
        assert before + SubmeshLights(e.instanceIndex, subs[..s + 1]) == sofar + [l];
        TasksStep(sofar, l);
        meshes' := meshes' + 1;
        triangles' := triangles' + l.triangles;
      } else {
        assert before + SubmeshLights(e.instanceIndex, subs[..s + 1]) == before + SubmeshLights(e.instanceIndex, subs[..s]);
      }
    }
    assert subs[..|subs|] == subs;
  }

  /** A renderer with an emissive submesh. */
  predicate HasEmissive(e: Entry)
  {
    e.mesh.Some? && exists s :: 0 <= s < |e.mesh.value| && e.mesh.value[s].emissive
  }

  /** Every emissive renderer's instance index lies inside the mapping array; with any
      other index the write `geometryInstanceToLight[instanceIndex]` is out of range. */
  predicate IndicesInRange(entries: seq<Entry>)
  {
    forall i :: 0 <= i < |entries| && HasEmissive(entries[i]) ==> entries[i].instanceIndex < SubmeshTotal(entries)
  }

  /**
   * `Process`: the mapping array has one slot per submesh and starts invalid; every
   * emissive submesh, renderer by renderer, yields a task at the running light-buffer
   * offset and writes that offset into its renderer's slot. The local light region covers
   * all task triangles from index 0; the infinite region is empty and there is no
   * environment light.
   */
  method Process(entries: seq<Entry>) returns (tasks: seq<PrepareLightsTask>, geometryInstanceToLight: array<nat>,
                                                params: LightBufferParameters)
    requires IndicesInRange(entries)
    ensures fresh(geometryInstanceToLight)
    ensures tasks == Tasks(EmissiveList(entries))
    ensures geometryInstanceToLight[..] == Mapped(tasks, SubmeshTotal(entries))
    ensures params == LightBufferParameters(0, TriangleSum(EmissiveList(entries)), 0, 0, InvalidLightIndex, 0)
  {
    var geometryInstanceCount := GeometryInstanceCount(entries);
    geometryInstanceToLight := new nat[geometryInstanceCount](_ => InvalidLightIndex);
    assert geometryInstanceToLight[..] == Mapped([], geometryInstanceCount);
    tasks := [];
    var lightBufferOffset: nat := 0;
    for i := 0 to |entries|
      invariant tasks == Tasks(EmissiveList(entries[..i]))
      invariant lightBufferOffset == TriangleSum(EmissiveList(entries[..i]))
      invariant geometryInstanceToLight[..] == Mapped(tasks, geometryInstanceCount)
    {
      EmissiveListStep(entries, i);
      if entries[i].mesh.Some? {
        assert HasEmissive(entries[i]) ==> entries[i].instanceIndex < geometryInstanceCount;
        tasks, lightBufferOffset := ProcessEntry(entries[i], EmissiveList(entries[..i]), tasks, lightBufferOffset, geometryInstanceToLight);
      } else {
        assert EmissiveList(entries[..i + 1]) == EmissiveList(entries[..i]) + [] == EmissiveList(entries[..i]);
      }
    }
    assert entries[..|entries|] == entries;
    params := LightBufferParameters(0, lightBufferOffset, 0, 0, InvalidLightIndex, 0);
  }

  /** The inner loop of `Process` over the submeshes of one renderer. */
  method ProcessEntry(e: Entry, ghost before: seq<Light>, tasks: seq<PrepareLightsTask>,
                      offset: nat, mapping: array<nat>)
    returns (tasks': seq<PrepareLightsTask>, offset': nat)
    requires e.mesh.Some? && (HasEmissive(e) ==> e.instanceIndex < mapping.Length)
    requires tasks == Tasks(before) && offset == TriangleSum(before)
    requires mapping[..] == Mapped(tasks, mapping.Length)
    modifies mapping
    ensures tasks' == Tasks(before + EntryLights(e))
    ensures offset' == TriangleSum(before + EntryLights(e))
    ensures mapping[..] == Mapped(tasks', mapping.Length)
  {
    var subs := e.mesh.value;
    tasks', offset' := tasks, offset;
    assert before + SubmeshLights(e.instanceIndex, subs[..0]) == before;
    for s := 0 to |subs|
      invariant tasks' == Tasks(before + SubmeshLights(e.instanceIndex, subs[..s]))
      invariant offset' == TriangleSum(before + SubmeshLights(e.instanceIndex, subs[..s]))
      invariant mapping[..] == Mapped(tasks', mapping.Length)
    {
      PrefixedSubmeshLightsStep(before, e.instanceIndex, subs, s);
      if subs[s].emissive {
        assert HasEmissive(e);
        ghost var sofar := before + SubmeshLights(e.instanceIndex, subs[..s]);
        var l := Light(e.instanceIndex, subs[s].triangleIndices / 3);
        tasks', offset' := AddLight(sofar, l, tasks', offset', mapping);
      }
    }
    assert subs[..|subs|] == subs;
  }

  lemma MappedStep(tasks: seq<PrepareLightsTask>, task: PrepareLightsTask, n: nat)
    requires task.instanceIndex < n
    ensures Mapped(tasks + [task], n) == Mapped(tasks, n)[task.instanceIndex := task.lightBufferOffset]
  {
    assert (tasks + [task])[..|tasks|] == tasks;
  }

  /** The body of `Process`'s inner loop for an emissive submesh: the task at the running
      offset, its slot written, the offset advanced. */
  method AddLight(ghost sofar: seq<Light>, l: Light, tasks: seq<PrepareLightsTask>, offset: nat, mapping: array<nat>)
    returns (tasks': seq<PrepareLightsTask>, offset': nat)
    requires tasks == Tasks(sofar) && offset == TriangleSum(sofar)
    requires mapping[..] == Mapped(tasks, mapping.Length) && l.instanceIndex < mapping.Length
    modifies mapping
    ensures tasks' == Tasks(sofar + [l]) && offset' == TriangleSum(sofar + [l])
    ensures mapping[..] == Mapped(tasks', mapping.Length)
  {
    TasksStep(sofar, l);
    var task := PrepareLightsTask(l.instanceIndex, 0, offset, l.triangles);
    MappedStep(tasks, task, mapping.Length);
    mapping[l.instanceIndex] := offset;
    offset' := offset + task.triangleCount;
    tasks' := tasks + [task];
  }

  /** `geometryInstanceCount`, the LINQ `Sum` over the dictionary's renderers. */
  method GeometryInstanceCount(entries: seq<Entry>) returns (count: nat)
    ensures count == SubmeshTotal(entries)
  {
    count := 0;
    for i := 0 to |entries|
      invariant count == SubmeshTotal(entries[..i])
    {
      EmissiveListStep(entries, i);
      count := count + SubmeshCount(entries[i]);
    }
    assert entries[..|entries|] == entries;
  }

  /** Over the same dictionary, `Process` makes as many tasks as `CountLightsInScene`
      counts emissive submeshes, its light count is the counted triangle total, and its
      mapping has a slot for every counted geometry instance. */
  method CountsAgree(entries: seq<Entry>) returns (meshes: nat, triangles: nat, instances: nat,
                                                    tasks: seq<PrepareLightsTask>, params: LightBufferParameters, slots: nat)
    requires IndicesInRange(entries)
    ensures |tasks| == meshes
    ensures params.localNumLights == triangles
    ensures slots == instances
  {
    meshes, triangles, instances := CountLightsInScene(entries);
    var mapping;
    tasks, mapping, params := Process(entries);
    slots := mapping.Length;
  }
}
