/**
 * Model of the mesh de-duplication of UnityProject/Assets/Scripts/FindSameMesh.cs: the
 * content hash of a mesh, the pass that makes every group of mesh filters (or skinned
 * renderers) with the same hash share the first one's mesh, and the pass that points a
 * mesh collider at its filter's mesh when the two hash alike.
 *
 * A mesh is an object holding the hash codes of its vertices, normals, tangents, UVs and
 * second UVs (the `GetHashCode` of each element, as parameters); meshes are compared by
 * identity, as Unity objects are. The scene search is the list of components it returns,
 * and a hash group is the list of those components' positions in that list.
 */
module FindSameMesh {
  import opened Base

  class Mesh {
    const vertices: seq<int>
    const normals: seq<int>
    const tangents: seq<int>
    const uvs: seq<int>
    const uv2s: seq<int>

    constructor (vertices: seq<int>, normals: seq<int>, tangents: seq<int>, uvs: seq<int>, uv2s: seq<int>)
      ensures this.vertices == vertices && this.normals == normals && this.tangents == tangents
      ensures this.uvs == uvs && this.uv2s == uv2s
    {
      this.vertices := vertices;
      this.normals := normals;
      this.tangents := tangents;
      this.uvs := uvs;
      this.uv2s := uv2s;
    }
  }

  /** A component with a `sharedMesh`: a `MeshFilter` or a `SkinnedMeshRenderer`. */
  class MeshSlot {
    var sharedMesh: Mesh?

    constructor (mesh: Mesh?)
      ensures sharedMesh == mesh
    {
      sharedMesh := mesh;
    }
  }

  class MeshCollider {
    var sharedMesh: Mesh?
    /** `GetComponent<MeshFilter>()`. */
    const meshFilter: MeshSlot?

    constructor (mesh: Mesh?, filter: MeshSlot?)
      ensures sharedMesh == mesh && meshFilter == filter
    {
      sharedMesh := mesh;
      meshFilter := filter;
    }
  }

  // ---------------------------------------------------------------- the hash

  const HashSeed: int := 17
  const HashMultiplier: int := 31

  /** One step of the hash, `hash * 31 + x` in unchecked `int` arithmetic. */
  function HashStep(hash: int, x: int): int
  {
    WrapInt32(hash * HashMultiplier + x)
  }

  /** The hash after folding in the element hashes xs, in order. */
  function Fold(hash: int, xs: seq<int>): int
  {
    if xs == [] then hash else HashStep(Fold(hash, xs[..|xs| - 1]), xs[|xs| - 1])
  }

  /** The same fold over unbounded integers. */
  function ExactFold(hash: int, xs: seq<int>): int
  {
    if xs == [] then hash else ExactFold(hash, xs[..|xs| - 1]) * HashMultiplier + xs[|xs| - 1]
  }

  /** Every element the hash reads, channel after channel. */
  function Elements(m: Mesh): seq<int>
  {
    m.vertices + m.normals + m.tangents + m.uvs + m.uv2s
  }

  function MeshHash(m: Mesh): int
  {
    Fold(HashSeed, Elements(m))
  }

  lemma MultipleTimes31(a: int, b: int)
    requires (a - b) % TwoTo32 == 0
    ensures (a * HashMultiplier - b * HashMultiplier) % TwoTo32 == 0
  {
    var k := (a - b) / TwoTo32;
    assert a - b == k * TwoTo32;
    assert a * HashMultiplier - b * HashMultiplier == (k * HashMultiplier) * TwoTo32;
  }

  lemma MultiplesAdd(p: int, q: int)
    requires p % TwoTo32 == 0 && q % TwoTo32 == 0
    ensures (p + q) % TwoTo32 == 0
  {
    var k, l := p / TwoTo32, q / TwoTo32;
    assert p + q == (k + l) * TwoTo32;
  }

  /** The wrapped hash agrees with the exact polynomial modulo 2^32, and lies in the
      signed 32-bit range once an element is folded in. */
  lemma {:induction false} FoldIsExactModulo(hash: int, xs: seq<int>)
    ensures (Fold(hash, xs) - ExactFold(hash, xs)) % TwoTo32 == 0
    ensures xs != [] ==> -TwoTo31 <= Fold(hash, xs) < TwoTo31
    decreases |xs|
  {
    if xs != [] {
      var p := xs[..|xs| - 1];
      FoldIsExactModulo(hash, p);
      var a, e := Fold(hash, p), ExactFold(hash, p);
      MultipleTimes31(a, e);
      var x := xs[|xs| - 1];
      assert Fold(hash, xs) == WrapInt32(a * HashMultiplier + x);
      assert ExactFold(hash, xs) == e * HashMultiplier + x;
      MultiplesAdd(Fold(hash, xs) - (a * HashMultiplier + x), a * HashMultiplier - e * HashMultiplier);
    }
  }

  /** Folding a concatenation folds the first part, then the second. */
  lemma {:induction false} FoldAppend(hash: int, a: seq<int>, b: seq<int>)
    ensures Fold(hash, a + b) == Fold(Fold(hash, a), b)
    decreases |b|
  {
    if b == [] {
      assert a + b == a;
    } else {
      var b' := b[..|b| - 1];
      FoldAppend(hash, a, b');
      assert (a + b)[..|a + b| - 1] == a + b';
    }
  }

  /** One `foreach` loop of `GetHash`: folds a channel into the running hash. */
  method HashChannel(hash: int, xs: seq<int>) returns (hash': int)
    ensures hash' == Fold(hash, xs)
  {
    hash' := hash;
    for i := 0 to |xs|
      invariant hash' == Fold(hash, xs[..i])
    {
      assert xs[..i + 1][..i] == xs[..i];
      hash' := WrapInt32(hash' * 31 + xs[i]);
    }
    assert xs[..|xs|] == xs;
  }

  /** `GetHash(mesh)`: from 17, the vertices, normals, tangents, UVs and second UVs. */
  method GetHash(mesh: Mesh) returns (hash: int)
    ensures hash == MeshHash(mesh)
  {
    hash := 17;
    hash := HashChannel(hash, mesh.vertices);
    hash := HashChannel(hash, mesh.normals);
    FoldAppend(HashSeed, mesh.vertices, mesh.normals);
    hash := HashChannel(hash, mesh.tangents);
    FoldAppend(HashSeed, mesh.vertices + mesh.normals, mesh.tangents);
    hash := HashChannel(hash, mesh.uvs);
    FoldAppend(HashSeed, mesh.vertices + mesh.normals + mesh.tangents, mesh.uvs);
    hash := HashChannel(hash, mesh.uv2s);
    FoldAppend(HashSeed, mesh.vertices + mesh.normals + mesh.tangents + mesh.uvs, mesh.uv2s);
  }

  // ---------------------------------------------------------------- grouping

  /** The positions of the meshes with hash h, in order; null meshes are never grouped. */
  function Matching(ms: seq<Mesh?>, h: int): (idx: seq<nat>)
    ensures forall t :: 0 <= t < |idx| ==> idx[t] < |ms| && ms[idx[t]] != null && MeshHash(ms[idx[t]]) == h
    ensures forall t, u :: 0 <= t < u < |idx| ==> idx[t] < idx[u]
  {
    if ms == [] then []
    else
      var last := ms[|ms| - 1];
      Matching(ms[..|ms| - 1], h) + (if last != null && MeshHash(last) == h then [|ms| - 1] else [])
  }

  /** Every position with a non-null mesh of hash h is in its group. */
  lemma {:induction false} MatchingComplete(ms: seq<Mesh?>, h: int, i: nat)
    requires i < |ms| && ms[i] != null && MeshHash(ms[i]) == h
    ensures i in Matching(ms, h)
    decreases |ms|
  {
    if i < |ms| - 1 {
      MatchingComplete(ms[..|ms| - 1], h, i);
    }
  }

  /** The mesh every member of a group ends with: the first member's. */
  function Representative(ms: seq<Mesh?>, h: int): Mesh?
  {
    var idx := Matching(ms, h);
    if idx == [] then null else ms[idx[0]]
  }

  /** The meshes after `FindSameMeshInScene`: a mesh whose hash group has more than one
      member is replaced by the group's representative; every other slot keeps its mesh. */
  function Shared(ms: seq<Mesh?>): (after: seq<Mesh?>)
    ensures |after| == |ms|
  {
    seq(|ms|, i requires 0 <= i < |ms| =>
      if ms[i] != null && |Matching(ms, MeshHash(ms[i]))| > 1 then Representative(ms, MeshHash(ms[i])) else ms[i])
  }

  /** De-duplication keeps nulls null and keeps every mesh's hash; a replaced mesh is the
      first mesh in the list with that hash and at least one other has it too; singleton
      groups are untouched. */
  lemma SharedKeepsHashes(ms: seq<Mesh?>, i: nat)
    requires i < |ms|
    ensures ms[i] == null ==> Shared(ms)[i] == null
    ensures ms[i] != null ==> Shared(ms)[i] != null && MeshHash(Shared(ms)[i]) == MeshHash(ms[i])
    ensures ms[i] != null && Shared(ms)[i] != ms[i] ==>
              exists j :: 0 <= j < i && ms[j] == Shared(ms)[i]
                          && forall k :: 0 <= k < j && ms[k] != null ==> MeshHash(ms[k]) != MeshHash(ms[i])
    ensures ms[i] != null && |Matching(ms, MeshHash(ms[i]))| <= 1 ==> Shared(ms)[i] == ms[i]
  {
    if ms[i] != null {
      var h := MeshHash(ms[i]);
      MatchingComplete(ms, h, i);
      var idx := Matching(ms, h);
      if Shared(ms)[i] != ms[i] {
        var j := idx[0];
        assert j <= i;
        forall k | 0 <= k < j && ms[k] != null
          ensures MeshHash(ms[k]) != h
        {
          if MeshHash(ms[k]) == h {
            MatchingComplete(ms, h, k);
          }
        }
      }
    }
  }

  /** Running the pass again changes nothing. */
  lemma SharedIdempotent(ms: seq<Mesh?>)
    ensures Shared(Shared(ms)) == Shared(ms)
  {
    var after := Shared(ms);
    forall i | 0 <= i < |ms|
      ensures (ms[i] == null <==> after[i] == null)
      ensures ms[i] != null ==> MeshHash(after[i]) == MeshHash(ms[i])
    {
      SharedKeepsHashes(ms, i);
    }
    forall i | 0 <= i < |ms|
      ensures Shared(after)[i] == after[i]
    {
      if ms[i] != null {
        var h := MeshHash(ms[i]);
        SameHashesSameGroups(ms, after, h);
        var idx := Matching(ms, h);
        if |idx| > 1 {
          assert after[idx[0]] == ms[idx[0]];
        }
      }
    }
  }

  /** Two lists whose slots agree on nullness and hash have the same groups. */
  lemma {:induction false} SameHashesSameGroups(ms: seq<Mesh?>, ns: seq<Mesh?>, h: int)
    requires |ms| == |ns|
    requires forall i :: 0 <= i < |ms| ==> (ms[i] == null <==> ns[i] == null)
    requires forall i :: 0 <= i < |ms| && ms[i] != null ==> MeshHash(ns[i]) == MeshHash(ms[i])
    ensures Matching(ns, h) == Matching(ms, h)
    decreases |ms|
  {
    if ms != [] {
      SameHashesSameGroups(ms[..|ms| - 1], ns[..|ns| - 1], h);
    }
  }

  /** A position is in the group of h exactly when its mesh is non-null with hash h. */
  lemma InGroupIff(ms: seq<Mesh?>, h: int, i: nat)
    requires i < |ms|
    ensures i in Matching(ms, h) <==> ms[i] != null && MeshHash(ms[i]) == h
  {
    if ms[i] != null && MeshHash(ms[i]) == h {
      MatchingComplete(ms, h, i);
    }
  }

  lemma MatchingStep(ms: seq<Mesh?>, n: nat, h: int)
    requires n < |ms|
    ensures Matching(ms[..n + 1], h)
            == Matching(ms[..n], h) + (if ms[n] != null && MeshHash(ms[n]) == h then [n] else [])
  {
    assert ms[..n + 1][..n] == ms[..n];
  }

  /** The meshes of a list of components. */
  function Meshes(slots: seq<MeshSlot>): (ms: seq<Mesh?>)
    reads set s | s in slots
    ensures |ms| == |slots|
  {
    seq(|slots|, i reads set s | s in slots requires 0 <= i < |slots| => slots[i].sharedMesh)
  }

  /**
   * What the first loop of `FindSameMeshInScene` has built after n components: `meshes`
   * maps each hash seen to its group so far, `keyToMesh` maps it to its group's first
   * mesh, and `order` lists the hashes in the order they were first seen.
   */
  ghost predicate Grouped(ms: seq<Mesh?>, n: nat, meshes: map<int, seq<nat>>, order: seq<int>, keyToMesh: map<int, Mesh>)
    requires n <= |ms|
  {
    GroupsSoFar(ms, n, meshes) && FirstsKnown(ms, meshes, keyToMesh) && InOrder(meshes, order)
  }

  ghost predicate GroupsSoFar(ms: seq<Mesh?>, n: nat, meshes: map<int, seq<nat>>)
    requires n <= |ms|
  {
    forall h :: Matching(ms[..n], h) == if h in meshes then meshes[h] else []
  }

  ghost predicate FirstsKnown(ms: seq<Mesh?>, meshes: map<int, seq<nat>>, keyToMesh: map<int, Mesh>)
  {
    keyToMesh.Keys == meshes.Keys
    && forall h :: h in meshes ==> meshes[h] != [] && meshes[h][0] < |ms| && keyToMesh[h] == ms[meshes[h][0]]
  }

  ghost predicate InOrder(meshes: map<int, seq<nat>>, order: seq<int>)
  {
    (forall h :: h in meshes <==> h in order)
    && (forall a, b :: 0 <= a < b < |order| ==> order[a] != order[b])
  }

  /** A component without a mesh leaves the groups as they are. */
  lemma GroupsSkip(ms: seq<Mesh?>, n: nat, meshes: map<int, seq<nat>>)
    requires n < |ms| && ms[n] == null
    requires GroupsSoFar(ms, n, meshes)
    ensures GroupsSoFar(ms, n + 1, meshes)
  {
    forall h ensures Matching(ms[..n + 1], h) == Matching(ms[..n], h) {
      MatchingStep(ms, n, h);
    }
  }

  /** The group of h after component n, whose mesh has hash h, joins it. */
  function Joined(meshes: map<int, seq<nat>>, h: int, n: nat): map<int, seq<nat>>
  {
    meshes[h := (if h in meshes then meshes[h] else []) + [n]]
  }

  lemma GroupsAddOne(ms: seq<Mesh?>, n: nat, meshes: map<int, seq<nat>>, h: int, g: int)
    requires n < |ms| && ms[n] != null && h == MeshHash(ms[n])
    requires Matching(ms[..n], g) == if g in meshes then meshes[g] else []
    ensures Matching(ms[..n + 1], g) == if g in Joined(meshes, h, n) then Joined(meshes, h, n)[g] else []
  {
    MatchingStep(ms, n, g);
  }

  /** A component with a mesh of hash h joins the group of h, created at the first such
      component. */
  lemma GroupsAdd(ms: seq<Mesh?>, n: nat, meshes: map<int, seq<nat>>, h: int)
    requires n < |ms| && ms[n] != null && h == MeshHash(ms[n])
    requires GroupsSoFar(ms, n, meshes)
    ensures GroupsSoFar(ms, n + 1, Joined(meshes, h, n))
  {
    forall g ensures Matching(ms[..n + 1], g) == if g in Joined(meshes, h, n) then Joined(meshes, h, n)[g] else [] {
      GroupsAddOne(ms, n, meshes, h, g);
    }
  }

  /** Joining a known group keeps its first member. */
  lemma FirstsJoin(ms: seq<Mesh?>, meshes: map<int, seq<nat>>, keyToMesh: map<int, Mesh>, h: int, n: nat)
    requires h in meshes && FirstsKnown(ms, meshes, keyToMesh)
    ensures FirstsKnown(ms, Joined(meshes, h, n), keyToMesh)
  {
    assert Joined(meshes, h, n)[h][0] == meshes[h][0];
  }

  /** A new group's first member is the component that started it. */
  lemma FirstsStart(ms: seq<Mesh?>, meshes: map<int, seq<nat>>, keyToMesh: map<int, Mesh>, h: int, n: nat)
    requires h !in meshes && n < |ms| && ms[n] != null && FirstsKnown(ms, meshes, keyToMesh)
    ensures FirstsKnown(ms, Joined(meshes, h, n), keyToMesh[h := ms[n]])
  {
  }

  lemma OrderStart(meshes: map<int, seq<nat>>, order: seq<int>, h: int, n: nat)
    requires h !in meshes && InOrder(meshes, order)
    ensures InOrder(Joined(meshes, h, n), order + [h])
  {
    forall g ensures g in Joined(meshes, h, n) <==> g in order + [h] {
      assert g in order + [h] <==> g in order || g == h;
    }
  }

  /** The body of the first loop for component n. */
  method Collect(ghost ms: seq<Mesh?>, n: nat, mesh: Mesh?,
                 meshes: map<int, seq<nat>>, order: seq<int>, keyToMesh: map<int, Mesh>)
    returns (meshes': map<int, seq<nat>>, order': seq<int>, keyToMesh': map<int, Mesh>)
    requires n < |ms| && ms[n] == mesh
    requires Grouped(ms, n, meshes, order, keyToMesh)
    ensures Grouped(ms, n + 1, meshes', order', keyToMesh')
  {
    meshes', order', keyToMesh' := meshes, order, keyToMesh;
    if mesh == null {
      GroupsSkip(ms, n, meshes);
      return;
    }
    var hash := GetHash(mesh);
    GroupsAdd(ms, n, meshes, hash);
    if hash in meshes {
      FirstsJoin(ms, meshes, keyToMesh, hash, n);
    } else {
      FirstsStart(ms, meshes, keyToMesh, hash, n);
      OrderStart(meshes, order, hash, n);
    }
    if hash !in meshes' {
      meshes' := meshes'[hash := []];
      order' := order' + [hash];
    }
    meshes' := meshes'[hash := meshes'[hash] + [n]];
    if hash !in keyToMesh' {
      keyToMesh' := keyToMesh'[hash := mesh];
    }
    assert meshes' == Joined(meshes, hash, n);
  }

  /** The inner loop of the second pass: every member of a group gets `mesh`. */
  method Assign(slots: seq<MeshSlot>, group: seq<nat>, mesh: Mesh)
    requires forall t :: 0 <= t < |group| ==> group[t] < |slots|
    requires forall i, j :: 0 <= i < j < |slots| ==> slots[i] != slots[j]
    modifies set s | s in slots
    ensures forall i :: 0 <= i < |slots| ==>
              slots[i].sharedMesh == if i in group then mesh else old(slots[i].sharedMesh)
  {
    for t := 0 to |group|
      invariant forall i :: 0 <= i < |slots| ==>
                  slots[i].sharedMesh == if i in group[..t] then mesh else old(slots[i].sharedMesh)
    {
      assert group[..t + 1] == group[..t] + [group[t]];
      slots[group[t]].sharedMesh := mesh;
    }
    assert group[..|group|] == group;
  }

  /** The second loop after the hashes `done`: components whose hash is done hold their
      de-duplicated mesh, the others their original one. */
  ghost predicate SharedFor(now: seq<Mesh?>, before: seq<Mesh?>, done: seq<int>)
    requires |now| == |before|
  {
    forall i :: 0 <= i < |before| ==>
      now[i] == if before[i] != null && MeshHash(before[i]) in done then Shared(before)[i] else before[i]
  }

  /** What the first loop has built, read at the j-th hash it saw. */
  lemma GroupAt(ms: seq<Mesh?>, meshes: map<int, seq<nat>>, order: seq<int>, keyToMesh: map<int, Mesh>, j: nat)
    requires j < |order| && Grouped(ms, |ms|, meshes, order, keyToMesh)
    ensures order[j] in meshes && order[j] in keyToMesh
    ensures meshes[order[j]] == Matching(ms, order[j]) != []
    ensures keyToMesh[order[j]] == ms[meshes[order[j]][0]]
    ensures order[j] !in order[..j]
  {
    assert ms[..|ms|] == ms;
    assert forall a :: 0 <= a < j ==> order[..j][a] != order[j];
  }

  /** The body of the second loop for the group of hash k, whose first mesh is `mesh`. */
  method ShareGroup(slots: seq<MeshSlot>, ghost before: seq<Mesh?>, ghost done: seq<int>, ghost k: int,
                    group: seq<nat>, mesh: Mesh)
    requires forall a, b :: 0 <= a < b < |slots| ==> slots[a] != slots[b]
    requires |before| == |slots| && k !in done
    requires group == Matching(before, k) != [] && mesh == before[group[0]]
    requires SharedFor(Meshes(slots), before, done)
    modifies set s | s in slots
    ensures SharedFor(Meshes(slots), before, done + [k])
  {
    forall i | 0 <= i < |slots|
      ensures i in group <==> before[i] != null && MeshHash(before[i]) == k
    {
      InGroupIff(before, k, i);
    }
    if |group| > 1 {
      Assign(slots, group, mesh);
    }
  }

  /** Once every hash the first loop saw is done, every component is de-duplicated. */
  lemma SharedForAll(now: seq<Mesh?>, before: seq<Mesh?>, meshes: map<int, seq<nat>>, order: seq<int>, keyToMesh: map<int, Mesh>)
    requires |now| == |before| && Grouped(before, |before|, meshes, order, keyToMesh)
    requires SharedFor(now, before, order)
    ensures now == Shared(before)
  {
    assert before[..|before|] == before;
    forall i | 0 <= i < |before| && before[i] != null
      ensures MeshHash(before[i]) in order
    {
      InGroupIff(before, MeshHash(before[i]), i);
    }
  }

  /** The first loop of `FindSameMeshInScene`: the components grouped by mesh hash. */
  method GroupByHash(slots: seq<MeshSlot>) returns (meshes: map<int, seq<nat>>, order: seq<int>, keyToMesh: map<int, Mesh>)
    ensures Grouped(Meshes(slots), |slots|, meshes, order, keyToMesh)
  {
    ghost var ms := Meshes(slots);
    meshes, order, keyToMesh := map[], [], map[];
    for i := 0 to |slots|
      invariant Grouped(ms, i, meshes, order, keyToMesh)
    {
      meshes, order, keyToMesh := Collect(ms, i, slots[i].sharedMesh, meshes, order, keyToMesh);
    }
  }

  /** The second loop of `FindSameMeshInScene`: every group with more than one member
      gets its first mesh. */
  method ShareGroups(slots: seq<MeshSlot>, ghost before: seq<Mesh?>,
                     meshes: map<int, seq<nat>>, order: seq<int>, keyToMesh: map<int, Mesh>)
    requires forall a, b :: 0 <= a < b < |slots| ==> slots[a] != slots[b]
    requires before == Meshes(slots) && Grouped(before, |before|, meshes, order, keyToMesh)
    modifies set s | s in slots
    ensures SharedFor(Meshes(slots), before, order)
  {
    for j := 0 to |order|
      invariant SharedFor(Meshes(slots), before, order[..j])
    {
      var k := order[j];
      GroupAt(before, meshes, order, keyToMesh, j);
      ShareGroup(slots, before, order[..j], k, meshes[k], keyToMesh[k]);
      assert order[..j + 1] == order[..j] + [k];
    }
    assert order[..|order|] == order;
  }

  /**
   * `FindSameMeshInScene` over the mesh filters the scene search returns, and equally
   * `FindSameSkinMeshInScene` over the skinned renderers: afterwards every component whose
   * hash group has more than one member holds the group's first mesh, and every other
   * component keeps its mesh.
   */
  method FindSameMeshInScene(slots: seq<MeshSlot>)
    requires forall i, j :: 0 <= i < j < |slots| ==> slots[i] != slots[j]
    modifies set s | s in slots
    ensures Meshes(slots) == Shared(old(Meshes(slots)))
  {
    ghost var before := Meshes(slots);
    var meshes, order, keyToMesh := GroupByHash(slots);
    ShareGroups(slots, before, meshes, order, keyToMesh);
    SharedForAll(Meshes(slots), before, meshes, order, keyToMesh);
  }

  /** The mesh of a collider's filter, null without a filter. */
  function FilterMesh(c: MeshCollider): Mesh?
    reads if c.meshFilter == null then {} else {c.meshFilter}
  {
    if c.meshFilter == null then null else c.meshFilter.sharedMesh
  }

  /** The collider rule: a collider whose mesh differs from its filter's takes the filter's
      mesh exactly when the two hash alike; without a filter mesh it keeps its own. */
  function ColliderMesh(colliderMesh: Mesh?, filterMesh: Mesh?): (r: Mesh?)
    requires filterMesh != null && colliderMesh != filterMesh ==> colliderMesh != null
    ensures r == colliderMesh || r == filterMesh
    ensures r != colliderMesh <==>
              filterMesh != null && colliderMesh != filterMesh && MeshHash(filterMesh) == MeshHash(colliderMesh)
  {
    if filterMesh == null then colliderMesh
    else if colliderMesh != filterMesh && MeshHash(filterMesh) == MeshHash(colliderMesh) then filterMesh
    else colliderMesh
  }

  /** The collider pass is stable: a second pass changes nothing. */
  lemma ColliderMeshStable(colliderMesh: Mesh?, filterMesh: Mesh?)
    requires filterMesh != null && colliderMesh != filterMesh ==> colliderMesh != null
    ensures ColliderMesh(ColliderMesh(colliderMesh, filterMesh), filterMesh) == ColliderMesh(colliderMesh, filterMesh)
  {
  }

  /**
   * `FindSameMeshColliderInScene`: every collider ends with `ColliderMesh` of its own mesh
   * and its filter's. A collider with a filter mesh that differs from its own must have a
   * mesh: hashing a null mesh throws in the source.
   */
  method FindSameMeshColliderInScene(colliders: seq<MeshCollider>)
    requires forall i, j :: 0 <= i < j < |colliders| ==> colliders[i] != colliders[j]
    requires forall i :: 0 <= i < |colliders| ==>
               (FilterMesh(colliders[i]) != null && colliders[i].sharedMesh != FilterMesh(colliders[i]) ==> colliders[i].sharedMesh != null)
    modifies set c | c in colliders
    ensures forall i :: 0 <= i < |colliders| ==>
              colliders[i].sharedMesh == ColliderMesh(old(colliders[i].sharedMesh), FilterMesh(colliders[i]))
  {
    for i := 0 to |colliders|
      invariant forall j :: 0 <= j < i ==>
                  colliders[j].sharedMesh == ColliderMesh(old(colliders[j].sharedMesh), FilterMesh(colliders[j]))
      invariant forall j :: i <= j < |colliders| ==> colliders[j].sharedMesh == old(colliders[j].sharedMesh)
    {
      var meshCollider := colliders[i];
      var meshFilter := meshCollider.meshFilter;
      if meshFilter != null && meshFilter.sharedMesh != null && meshCollider.sharedMesh != meshFilter.sharedMesh {
        var hash := GetHash(meshFilter.sharedMesh);
        var colliderHash := GetHash(meshCollider.sharedMesh);
        if hash == colliderHash {
          meshCollider.sharedMesh := meshFilter.sharedMesh;
        }
      }
    }
  }
}
