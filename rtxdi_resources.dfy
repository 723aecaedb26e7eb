/**
 * Model of UnityProject/Assets/Scripts/Rtxdi/RtxdiResources.cs: the GPU buffers of the
 * RTXDI light pipeline, their sizes, which of them exist, the one-time upload of the
 * neighbor offsets, and disposal.
 *
 * A `GraphicsBuffer` is a value recording what it was created with and the bytes last
 * uploaded to it. The ReSTIR DI context's static and reservoir parameters, and the bytes
 * the native `FillNeighborOffsetBuffer` writes, are parameters. `uint` values are
 * integers in [0, 2^32); `int` values are integers in [-2^31, 2^31).
 */
module RtxdiBuffers {
  import opened Base

  /** `c_NumReSTIRDIReservoirBuffers`. */
  const NumReSTIRDIReservoirBuffers: int := 3

  /** `Marshal.SizeOf` of `PrepareLightsTask` (four `uint`s), `RAB_LightInfo` (a
      `float3` and five `uint`s), `uint`, and `RTXDI_PackedDIReservoir` (four `uint`s and two
      `float`s). */
  const TaskStride: nat := 16
  const LightInfoStride: nat := 32
  const UIntStride: nat := 4
  const ReservoirStride: nat := 24

  datatype Target = Structured | Raw

  datatype GraphicsBuffer = GraphicsBuffer(target: Target, count: int, stride: nat, name: string, data: seq<Byte>)

  /** `x & ~3` on a `uint`: the largest multiple of 4 not above x. */
  function ClearLowTwoBits(x: UInt32): (r: UInt32)
    ensures r % 4 == 0 && r <= x < r + 4
  {
    x - x % 4
  }

  /** `ClearLowTwoBits` is the bit mask `& ~3`, stated on 32-bit vectors. */
  lemma ClearLowTwoBitsIsMask(x: bv32)
    ensures x & !3 == x - x % 4
  {
  }

  /** C# `x / 4` on `int`: the quotient truncated toward zero. */
  function QuarterOf(x: int): (q: int)
    ensures x >= 0 ==> 0 <= x - 4 * q < 4
    ensures x < 0 ==> 0 <= 4 * q - x < 4
  {
    if x >= 0 then x / 4 else -((-x) / 4)
  }

  /** `alignedNeighborSize`: 2 bytes per neighbor offset, rounded up to a multiple of 4, in
      `uint` arithmetic, then cast to `int`. */
  function AlignedNeighborSize(neighborOffsetCount: UInt32): int
  {
    var neighborBufferSize := (neighborOffsetCount * 2) % TwoTo32;
    ToInt32(ClearLowTwoBits((neighborBufferSize + 3) % TwoTo32))
  }

  /** The element count of the raw neighbor-offset buffer, in 4-byte words. */
  function NeighborElementCount(neighborOffsetCount: UInt32): int
  {
    QuarterOf(AlignedNeighborSize(neighborOffsetCount))
  }

  /** Without overflow, the neighbor buffer's byte size is a multiple of 4 that holds the
      2n offset bytes with fewer than 4 to spare, and its element count is that size in
      words. */
  lemma NeighborSizeRoundsUp(n: UInt32)
    requires 2 * n + 3 < TwoTo31
    ensures AlignedNeighborSize(n) % 4 == 0
    ensures 2 * n <= AlignedNeighborSize(n) < 2 * n + 4
    ensures NeighborElementCount(n) * 4 == AlignedNeighborSize(n)
  {
    var aligned := ClearLowTwoBits(2 * n + 3);
    assert AlignedNeighborSize(n) == aligned;
  }

  /** It is the least such multiple: any multiple of 4 that holds the 2n bytes is at least
      as large. */
  lemma NeighborSizeIsLeast(n: UInt32, m: int)
    requires 2 * n + 3 < TwoTo31
    requires m % 4 == 0 && 2 * n <= m
    ensures AlignedNeighborSize(n) <= m
  {
    NeighborSizeRoundsUp(n);
    var a := AlignedNeighborSize(n);
    var qa, qm := a / 4, m / 4;
    assert a == 4 * qa && m == 4 * qm;
    assert 4 * qa < 4 * qm + 4;
    assert qa <= qm;
  }

  /** `totalReservoirs`: the reservoir array pitch cast to `int`, times the number of
      reservoir buffers, in unchecked `int` arithmetic. */
  function TotalReservoirs(reservoirArrayPitch: UInt32): int
  {
    WrapInt32(ToInt32(reservoirArrayPitch) * NumReSTIRDIReservoirBuffers)
  }

  /** Without overflow there are three reservoirs per pitch element, and the reservoir
      buffer exists exactly when the pitch is positive. */
  lemma ReservoirsAreThreePitches(pitch: UInt32)
    requires 3 * pitch < TwoTo31
    ensures TotalReservoirs(pitch) == 3 * pitch
    ensures TotalReservoirs(pitch) > 0 <==> pitch > 0
  {
  }

  /** A pitch whose triple overflows `int` yields a negative total, and so no reservoir
      buffer, although the pitch is positive. */
  lemma OverflowingPitchDropsReservoirs()
    ensures TotalReservoirs(0x3000_0000) < 0
  {
    assert ToInt32(0x3000_0000) == 0x3000_0000;
    assert WrapInt32(0x9000_0000) == 0x9000_0000 - TwoTo32;
  }

  /** A structured buffer of `count` elements, created only when the `uint` maximum
      is positive. */
  function StructuredIfPositive(max: UInt32, stride: nat, name: string): (b: Option<GraphicsBuffer>)
    ensures b.Some? <==> max > 0
    ensures b.Some? ==> b.value.target == Structured && b.value.stride == stride
                        && b.value.name == name && b.value.data == []
    ensures b.Some? ==> b.value.count == ToInt32(max)
    ensures b.Some? && max < TwoTo31 ==> b.value.count == max
  {
    if max > 0 then Some(GraphicsBuffer(Structured, ToInt32(max), stride, name, [])) else None
  }

  /** `sizeInBytes` of `InitializeNeighborOffsets`: the count cast to `int`, doubled, in
      unchecked `int` arithmetic. */
  function OffsetsSize(neighborOffsetCount: UInt32): int
  {
    WrapInt32(ToInt32(neighborOffsetCount) * 2)
  }

  /** Below 2^30 offsets the array holds exactly two bytes per offset. */
  lemma OffsetsSizeIsTwiceCount(n: UInt32)
    requires n < 0x4000_0000
    ensures OffsetsSize(n) == 2 * n
  {
  }

  /** What `buffer?.Dispose()` releases: the buffer if it exists. */
  function Released(buffer: Option<GraphicsBuffer>): (names: seq<string>)
    ensures |names| == (if buffer.Some? then 1 else 0)
    ensures buffer.Some? ==> names == [buffer.value.name]
  {
    if buffer.Some? then [buffer.value.name] else []
  }

  class RtxdiResources {
    var neighborOffsetsInitialized: bool
    var maxEmissiveMeshes: UInt32
    var maxEmissiveTriangles: UInt32
    var maxGeometryInstances: UInt32

    var taskBuffer: Option<GraphicsBuffer>
    var lightDataBuffer: Option<GraphicsBuffer>
    var geometryInstanceToLightBuffer: Option<GraphicsBuffer>
    var neighborOffsetsBuffer: Option<GraphicsBuffer>
    var lightReservoirBuffer: Option<GraphicsBuffer>

    /** The names of the buffers released so far, in order. */
    var released: seq<string>

    /**
     * The constructor: a structured buffer for tasks, light data and the
     * geometry-instance-to-light mapping, each only when its maximum is positive; the raw
     * neighbor-offset buffer always, in 4-byte words; the reservoir buffer only when the
     * total reservoir count is positive.
     */
    constructor (maxEmissiveMeshes: UInt32, maxEmissiveTriangles: UInt32, maxGeometryInstances: UInt32,
                 neighborOffsetCount: UInt32, reservoirArrayPitch: UInt32)
      ensures !neighborOffsetsInitialized && released == []
      ensures this.maxEmissiveMeshes == maxEmissiveMeshes
      ensures this.maxEmissiveTriangles == maxEmissiveTriangles
      ensures this.maxGeometryInstances == maxGeometryInstances
      ensures taskBuffer == StructuredIfPositive(maxEmissiveMeshes, TaskStride, "TaskBuffer")
      ensures lightDataBuffer == StructuredIfPositive(maxEmissiveTriangles, LightInfoStride, "LightDataBuffer")
      ensures geometryInstanceToLightBuffer
              == StructuredIfPositive(maxGeometryInstances, UIntStride, "GeometryInstanceToLightBuffer")
      ensures neighborOffsetsBuffer
              == Some(GraphicsBuffer(Raw, NeighborElementCount(neighborOffsetCount), 4, "NeighborOffsets", []))
      ensures lightReservoirBuffer.Some? <==> TotalReservoirs(reservoirArrayPitch) > 0
      ensures lightReservoirBuffer.Some? ==>
                lightReservoirBuffer.value
                == GraphicsBuffer(Structured, TotalReservoirs(reservoirArrayPitch), ReservoirStride, "LightReservoirBuffer", [])
    {
      neighborOffsetsInitialized := false;
      released := [];
      this.maxEmissiveMeshes := maxEmissiveMeshes;
      this.maxEmissiveTriangles := maxEmissiveTriangles;
      this.maxGeometryInstances := maxGeometryInstances;
      taskBuffer := None;
      if maxEmissiveMeshes > 0 {
        taskBuffer := Some(GraphicsBuffer(Structured, ToInt32(maxEmissiveMeshes), TaskStride, "TaskBuffer", []));
      }
      lightDataBuffer := None;
      if maxEmissiveTriangles > 0 {
        lightDataBuffer := Some(GraphicsBuffer(Structured, ToInt32(maxEmissiveTriangles), LightInfoStride, "LightDataBuffer", []));
      }
      geometryInstanceToLightBuffer := None;
      if maxGeometryInstances > 0 {
        geometryInstanceToLightBuffer :=
          Some(GraphicsBuffer(Structured, ToInt32(maxGeometryInstances), UIntStride, "GeometryInstanceToLightBuffer", []));
      }
      var alignedNeighborSize := AlignedNeighborSize(neighborOffsetCount);
      neighborOffsetsBuffer := Some(GraphicsBuffer(Raw, QuarterOf(alignedNeighborSize), 4, "NeighborOffsets", []));
      var totalReservoirs := TotalReservoirs(reservoirArrayPitch);
      lightReservoirBuffer := None;
      if totalReservoirs > 0 {
        lightReservoirBuffer := Some(GraphicsBuffer(Structured, totalReservoirs, ReservoirStride, "LightReservoirBuffer", []));
      }
    }

    /**
     * `InitializeNeighborOffsets(neighborOffsetCount)`: the first call fills a byte array of
     * `sizeInBytes` with the native offsets (`fill`), uploads it to the neighbor-offset
     * buffer and sets the flag; every later call changes nothing, whatever its arguments.
     * A negative `sizeInBytes` or a disposed buffer throws in the source.
     */
    method InitializeNeighborOffsets(neighborOffsetCount: UInt32, fill: seq<Byte>)
      requires !neighborOffsetsInitialized ==>
                 neighborOffsetsBuffer.Some? && 0 <= OffsetsSize(neighborOffsetCount) && |fill| == OffsetsSize(neighborOffsetCount)
      modifies this
      ensures old(neighborOffsetsInitialized) ==> unchanged(this)
      ensures neighborOffsetsInitialized
      ensures !old(neighborOffsetsInitialized) ==>
                neighborOffsetsBuffer == Some(old(neighborOffsetsBuffer).value.(data := fill))
      ensures !old(neighborOffsetsInitialized) && neighborOffsetCount < 0x4000_0000 ==>
                |neighborOffsetsBuffer.value.data| == 2 * neighborOffsetCount
      ensures taskBuffer == old(taskBuffer) && lightDataBuffer == old(lightDataBuffer)
      ensures geometryInstanceToLightBuffer == old(geometryInstanceToLightBuffer)
      ensures lightReservoirBuffer == old(lightReservoirBuffer) && released == old(released)
      ensures maxEmissiveMeshes == old(maxEmissiveMeshes) && maxEmissiveTriangles == old(maxEmissiveTriangles)
      ensures maxGeometryInstances == old(maxGeometryInstances)
    {
      if neighborOffsetsInitialized {
        return;
      }
      var sizeInBytes := OffsetsSize(neighborOffsetCount);
      if neighborOffsetCount < 0x4000_0000 {
        OffsetsSizeIsTwiceCount(neighborOffsetCount);
      }
      var offsets := fill;
      neighborOffsetsBuffer := Some(neighborOffsetsBuffer.value.(data := offsets));
      neighborOffsetsInitialized := true;
    }

    function GetMaxEmissiveMeshes(): (r: UInt32)
      reads this
      ensures r == maxEmissiveMeshes
    {
      maxEmissiveMeshes
    }

    function GetMaxEmissiveTriangles(): (r: UInt32)
      reads this
      ensures r == maxEmissiveTriangles
    {
      maxEmissiveTriangles
    }

    function GetMaxGeometryInstances(): (r: UInt32)
      reads this
      ensures r == maxGeometryInstances
    {
      maxGeometryInstances
    }

    /** `Dispose`: releases each existing buffer, in declaration order, and leaves all five
        null; the maxima and the flag stay. */
    method Dispose()
      modifies this
      ensures taskBuffer.None? && lightDataBuffer.None? && geometryInstanceToLightBuffer.None?
      ensures neighborOffsetsBuffer.None? && lightReservoirBuffer.None?
      ensures released == old(released) + Released(old(taskBuffer)) + Released(old(lightDataBuffer))
                          + Released(old(geometryInstanceToLightBuffer)) + Released(old(neighborOffsetsBuffer))
                          + Released(old(lightReservoirBuffer))
      ensures neighborOffsetsInitialized == old(neighborOffsetsInitialized)
      ensures maxEmissiveMeshes == old(maxEmissiveMeshes) && maxEmissiveTriangles == old(maxEmissiveTriangles)
      ensures maxGeometryInstances == old(maxGeometryInstances)
    {
      released := released + Released(taskBuffer);
      taskBuffer := None;
      released := released + Released(lightDataBuffer);
      lightDataBuffer := None;
      released := released + Released(geometryInstanceToLightBuffer);
      geometryInstanceToLightBuffer := None;
      released := released + Released(neighborOffsetsBuffer);
      neighborOffsetsBuffer := None;
      released := released + Released(lightReservoirBuffer);
      lightReservoirBuffer := None;
    }
  }

  /** The neighbor offsets are uploaded once: a second initialisation, with any count and
      any bytes, leaves the first upload in place. */
  method InitializeTwice(r: RtxdiResources, n1: UInt32, fill1: seq<Byte>, n2: UInt32, fill2: seq<Byte>)
    requires !r.neighborOffsetsInitialized && r.neighborOffsetsBuffer.Some?
    requires 0 <= OffsetsSize(n1) && |fill1| == OffsetsSize(n1)
    modifies r
    ensures r.neighborOffsetsInitialized
    ensures r.neighborOffsetsBuffer == Some(old(r.neighborOffsetsBuffer).value.(data := fill1))
  {
    r.InitializeNeighborOffsets(n1, fill1);
    r.InitializeNeighborOffsets(n2, fill2);
  }
}
