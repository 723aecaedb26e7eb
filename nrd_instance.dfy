/**
 * Model of RenderingPlugin/RenderingPlugin/NrdInstance.cpp: one native NRD denoiser
 * instance, with its cached resource table, the size it was created for, and the
 * commands it records for a frame.
 *
 * The NRD integration is reduced to the creation description it was last built from;
 * whether `Recreate` succeeds, and whether Unity is recording a command list, are
 * parameters. Recorded work is a list of commands.
 */
module NrdInstances {
  import opened Base
  import opened NrdTypes

  /** `kMaxFramesInFlight`. */
  const MaxFramesInFlight: nat := 3

  datatype Denoiser = SIGMA_SHADOW | REBLUR_DIFFUSE

  datatype DenoiserDesc = DenoiserDesc(identifier: nat, denoiser: Denoiser)

  /** The integration and instance descriptions `CreateNrd` hands to `Recreate`. */
  datatype IntegrationDesc = IntegrationDesc(
    resourceWidth: UInt16, resourceHeight: UInt16, queuedFrameNum: nat,
    demoteFloat32to16: bool, autoWaitForIdle: bool, enableWholeLifetimeDescriptorCaching: bool,
    denoisers: seq<DenoiserDesc>)

  /** The state of `m_NrdIntegration`: destroyed, or created from a description. */
  datatype Integration = Destroyed | Created(desc: IntegrationDesc)

  /** One resource of an `nrd::ResourceSnapshot`. */
  datatype SnapshotResource = SnapshotResource(texture: nat, access: nat, layout: Layout, stages: nat)

  type Snapshot = map<ResourceType, SnapshotResource>

  datatype D3D12State = PIXEL_SHADER_RESOURCE | COMMON

  /** What `DispatchCompute` records, in order. */
  datatype Command =
    | SetSettings(commonSettings: CommonSettings, sigmaId: nat, reblurId: nat)
    | Barrier(resource: nat, before: D3D12State, after: D3D12State)
    | Denoise(identifiers: seq<nat>, snapshot: Snapshot)

  datatype DispatchOutcome =
    | Skipped
    /** `CreateNrd` threw: `Recreate` did not succeed. */
    | RecreateFailed
    | Recorded(commands: seq<Command>)

  /** The description `CreateNrd` builds for a size. */
  function DescFor(width: nat, height: nat): (d: IntegrationDesc)
    ensures d.resourceWidth == ToUInt16(width) && d.resourceHeight == ToUInt16(height)
    ensures d.queuedFrameNum == MaxFramesInFlight
    ensures d.denoisers == [DenoiserDesc(0, SIGMA_SHADOW), DenoiserDesc(1, REBLUR_DIFFUSE)]
  {
    IntegrationDesc(ToUInt16(width), ToUInt16(height), MaxFramesInFlight, true, false, true,
                    [DenoiserDesc(0, SIGMA_SHADOW), DenoiserDesc(1, REBLUR_DIFFUSE)])
  }

  /** The snapshot resource for one cached entry: texture and state copied unchanged. */
  function ResourceOf(input: NrdResourceInput): SnapshotResource
  {
    SnapshotResource(input.texture, input.state.accessBits, input.state.layout, input.state.stageBits)
  }

  /**
   * The snapshot built from the cached table: entries are taken in order, null textures
   * are skipped, and a later entry of the same type replaces an earlier one.
   */
  function SnapshotOf(cached: seq<NrdResourceInput>): Snapshot
  {
    if |cached| == 0 then map[]
    else
      var prefix := SnapshotOf(cached[..|cached| - 1]);
      var last := cached[|cached| - 1];
      if last.texture == 0 then prefix else prefix[last.resourceType := ResourceOf(last)]
  }

  /** The snapshot holds a type exactly when some entry of that type has a texture. */
  lemma {:induction false} SnapshotHasType(cached: seq<NrdResourceInput>, t: ResourceType)
    ensures t in SnapshotOf(cached) <==>
            exists i :: 0 <= i < |cached| && cached[i].resourceType == t && cached[i].texture != 0
  {
    if |cached| > 0 {
      var p := cached[..|cached| - 1];
      SnapshotHasType(p, t);
      if exists i :: 0 <= i < |p| && p[i].resourceType == t && p[i].texture != 0 {
        var i :| 0 <= i < |p| && p[i].resourceType == t && p[i].texture != 0;
        assert cached[i] == p[i];
      }
      if exists i :: 0 <= i < |cached| && cached[i].resourceType == t && cached[i].texture != 0 {
        var i :| 0 <= i < |cached| && cached[i].resourceType == t && cached[i].texture != 0;
        if i < |p| {
          assert p[i] == cached[i];
        }
      }
    }
  }

  /** The resource stored for a type comes from the last entry of that type with a texture. */
  lemma {:induction false} SnapshotTakesLastEntry(cached: seq<NrdResourceInput>, t: ResourceType)
    requires t in SnapshotOf(cached)
    ensures exists i :: 0 <= i < |cached| && cached[i].resourceType == t && cached[i].texture != 0
                        && SnapshotOf(cached)[t] == ResourceOf(cached[i])
                        && forall j :: i < j < |cached| && cached[j].resourceType == t ==> cached[j].texture == 0
  {
    var p := cached[..|cached| - 1];
    var last := cached[|cached| - 1];
    if last.texture != 0 && last.resourceType == t {
      assert SnapshotOf(cached)[t] == ResourceOf(last);
    } else {
      SnapshotTakesLastEntry(p, t);
      var i :| 0 <= i < |p| && p[i].resourceType == t && p[i].texture != 0
               && SnapshotOf(p)[t] == ResourceOf(p[i])
               && forall j :: i < j < |p| && p[j].resourceType == t ==> p[j].texture == 0;
      assert cached[i] == p[i];
      forall j | i < j < |cached| && cached[j].resourceType == t
        ensures cached[j].texture == 0
      {
        if j < |p| {
          assert cached[j] == p[j];
        }
      }
    }
  }

  /** The snapshot's resource of a type is the one of its last entry with a texture. */
  lemma LastTexturedEntryWins(cached: seq<NrdResourceInput>, k: nat)
    requires k < |cached| && cached[k].texture != 0
    requires forall j :: k < j < |cached| ==> cached[j].resourceType != cached[k].resourceType
    ensures cached[k].resourceType in SnapshotOf(cached)
    ensures SnapshotOf(cached)[cached[k].resourceType] == ResourceOf(cached[k])
  {
    var t := cached[k].resourceType;
    SnapshotHasType(cached, t);
    SnapshotTakesLastEntry(cached, t);
    var i :| 0 <= i < |cached| && cached[i].resourceType == t && cached[i].texture != 0
             && SnapshotOf(cached)[t] == ResourceOf(cached[i])
             && forall j :: i < j < |cached| && cached[j].resourceType == t ==> cached[j].texture == 0;
    assert i == k;
  }

  /** The state a resource is in after a list of commands, starting from `state`. */
  function StateAfter(commands: seq<Command>, resource: nat, state: D3D12State): D3D12State
  {
    if |commands| == 0 then state
    else
      var next := match commands[0]
        case Barrier(r, _, after) => if r == resource then after else state
        case _ => state;
      StateAfter(commands[1..], resource, next)
  }

  /** The commands of one denoised frame. */
  function FrameCommands(data: FrameData, sigmaId: nat, reblurId: nat, snapshot: Snapshot): seq<Command>
  {
    [SetSettings(data.commonSettings, sigmaId, reblurId),
     Barrier(data.pointers.validation, PIXEL_SHADER_RESOURCE, COMMON),
     Denoise([sigmaId, reblurId], snapshot),
     Barrier(data.pointers.validation, COMMON, PIXEL_SHADER_RESOURCE)]
  }

  /**
   * The validation texture is in COMMON while NRD runs and back in PIXEL_SHADER_RESOURCE,
   * the state it entered in, once the frame's commands are done; every other resource
   * is left in whatever state it had.
   */
  lemma FrameRestoresValidationState(data: FrameData, sigmaId: nat, reblurId: nat, snapshot: Snapshot,
                                     other: nat, s: D3D12State)
    requires other != data.pointers.validation
    ensures FrameCommands(data, sigmaId, reblurId, snapshot)[2].Denoise?
    ensures StateAfter(FrameCommands(data, sigmaId, reblurId, snapshot)[..2], data.pointers.validation,
                       PIXEL_SHADER_RESOURCE) == COMMON
    ensures StateAfter(FrameCommands(data, sigmaId, reblurId, snapshot), data.pointers.validation,
                       PIXEL_SHADER_RESOURCE) == PIXEL_SHADER_RESOURCE
    ensures StateAfter(FrameCommands(data, sigmaId, reblurId, snapshot), other, s) == s
  {
    var c := FrameCommands(data, sigmaId, reblurId, snapshot);
    var v := data.pointers.validation;
    var psr, common := PIXEL_SHADER_RESOURCE, COMMON;
    assert c[..2][1..] == [c[1]] && [c[1]][1..] == [];
    assert StateAfter(c[..2], v, psr) == StateAfter([c[1]], v, psr) == StateAfter([], v, common);
    assert c[1..] == [c[1], c[2], c[3]] && c[1..][1..] == [c[2], c[3]] && c[1..][1..][1..] == [c[3]];
    assert [c[3]][1..] == [];
    assert StateAfter(c, v, psr) == StateAfter([c[1], c[2], c[3]], v, psr)
        == StateAfter([c[2], c[3]], v, common) == StateAfter([c[3]], v, common) == StateAfter([], v, psr);
    assert StateAfter(c, other, s) == StateAfter([c[1], c[2], c[3]], other, s)
        == StateAfter([c[2], c[3]], other, s) == StateAfter([c[3]], other, s) == StateAfter([], other, s);
  }

  class NrdInstance {
    var textureWidth: nat
    var textureHeight: nat
    var cachedResources: seq<NrdResourceInput>
    var sigmaId: nat
    var reblurId: nat
    var resourcesInitialized: bool
    var integration: Integration

    /** `NrdInstance(interfaces)`: zero size, empty cache, resources marked initialised. */
    constructor ()
      ensures textureWidth == 0 && textureHeight == 0
      ensures cachedResources == [] && sigmaId == 0 && reblurId == 0
      ensures resourcesInitialized && integration == Destroyed
    {
      textureWidth := 0;
      textureHeight := 0;
      cachedResources := [];
      sigmaId := 0;
      reblurId := 0;
      integration := Destroyed;
      resourcesInitialized := false;
      new;
      InitializeAndCreateResources();
    }

    /** `UpdateResources(resources, count)`: a null table or a non-positive count empties
        the cache; otherwise the cache becomes the first `count` entries, replacing it. */
    method UpdateResources(resources: Option<seq<NrdResourceInput>>, count: int)
      requires resources.Some? && count > 0 ==> count <= |resources.value|
      modifies this
      ensures resources.None? || count <= 0 ==> cachedResources == []
      ensures resources.Some? && count > 0 ==> cachedResources == resources.value[..count]
      ensures textureWidth == old(textureWidth) && textureHeight == old(textureHeight)
      ensures sigmaId == old(sigmaId) && reblurId == old(reblurId)
      ensures resourcesInitialized == old(resourcesInitialized) && integration == old(integration)
    {
      if resources.None? || count <= 0 {
        cachedResources := [];
        return;
      }
      cachedResources := resources.value[..count];
    }

    /** `CreateNrd`: destroys the integration and recreates it for the stored size with
        SIGMA_SHADOW as identifier 0 and REBLUR_DIFFUSE as identifier 1. */
    method CreateNrd(recreateSucceeds: bool) returns (ok: bool)
      modifies this
      ensures ok == recreateSucceeds
      ensures sigmaId == 0 && reblurId == 1
      ensures integration == if ok then Created(DescFor(textureWidth, textureHeight)) else Destroyed
      ensures textureWidth == old(textureWidth) && textureHeight == old(textureHeight)
      ensures cachedResources == old(cachedResources) && resourcesInitialized == old(resourcesInitialized)
    {
      integration := Destroyed;
      var desc := DescFor(textureWidth, textureHeight);
      sigmaId := desc.denoisers[0].identifier;
      reblurId := desc.denoisers[1].identifier;
      if !recreateSucceeds {
        return false;
      }
      integration := Created(desc);
      ok := true;
    }

    /** The snapshot loop of `DispatchCompute`. */
    method BuildSnapshot() returns (snapshot: Snapshot)
      ensures snapshot == SnapshotOf(cachedResources)
    {
      snapshot := map[];
      var i := 0;
      while i < |cachedResources|
        invariant 0 <= i <= |cachedResources|
        invariant snapshot == SnapshotOf(cachedResources[..i])
      {
        var input := cachedResources[i];
        assert cachedResources[..i + 1][..i] == cachedResources[..i];
        if input.texture != 0 {
          snapshot := snapshot[input.resourceType := ResourceOf(input)];
        }
        i := i + 1;
      }
      assert cachedResources[..i] == cachedResources;
    }

    /**
     * `DispatchCompute(data)`. Nothing happens without data, with a zero dimension, or
     * when no command list is recording. A size different from the stored one is stored
     * and NRD recreated (a failed recreate throws); an equal size never recreates. The
     * frame then records settings, the validation barrier pair around `Denoise`, and the
     * snapshot of the cached table.
     */
    method DispatchCompute(data: Option<FrameData>, recording: bool, recreateSucceeds: bool)
      returns (outcome: DispatchOutcome)
      modifies this
      ensures data.None? || data.value.width == 0 || data.value.height == 0 || !recording ==>
                outcome == Skipped && textureWidth == old(textureWidth) && textureHeight == old(textureHeight)
                && sigmaId == old(sigmaId) && reblurId == old(reblurId) && integration == old(integration)
      ensures data.Some? && data.value.width != 0 && data.value.height != 0 && recording ==>
                textureWidth == data.value.width && textureHeight == data.value.height
      ensures data.Some? && data.value.width != 0 && data.value.height != 0 && recording ==>
                if old(textureWidth) != data.value.width || old(textureHeight) != data.value.height then
                  sigmaId == 0 && reblurId == 1
                  && integration == (if recreateSucceeds then Created(DescFor(data.value.width, data.value.height)) else Destroyed)
                  && outcome == (if recreateSucceeds
                                 then Recorded(FrameCommands(data.value, 0, 1, SnapshotOf(cachedResources)))
                                 else RecreateFailed)
                else
                  sigmaId == old(sigmaId) && reblurId == old(reblurId) && integration == old(integration)
                  && outcome == Recorded(FrameCommands(data.value, sigmaId, reblurId, SnapshotOf(cachedResources)))
      ensures cachedResources == old(cachedResources) && resourcesInitialized == old(resourcesInitialized)
    {
      if data.None? {
        return Skipped;
      }
      var d := data.value;
      if d.width == 0 || d.height == 0 {
        return Skipped;
      }
      if !recording {
        return Skipped;
      }
      if textureWidth != d.width || textureHeight != d.height {
        textureWidth := d.width;
        textureHeight := d.height;
        var ok := CreateNrd(recreateSucceeds);
        if !ok {
          return RecreateFailed;
        }
      }
      var snapshot := BuildSnapshot();
      var commands := [SetSettings(d.commonSettings, sigmaId, reblurId)];
      commands := commands + [Barrier(d.pointers.validation, PIXEL_SHADER_RESOURCE, COMMON)];
      commands := commands + [Denoise([sigmaId, reblurId], snapshot)];
      commands := commands + [Barrier(d.pointers.validation, COMMON, PIXEL_SHADER_RESOURCE)];
      outcome := Recorded(commands);
    }

    /** `initialize_and_create_resources`: sets the flag once. */
    method InitializeAndCreateResources()
      modifies this
      ensures resourcesInitialized
      ensures integration == old(integration) && cachedResources == old(cachedResources)
      ensures textureWidth == old(textureWidth) && textureHeight == old(textureHeight)
      ensures sigmaId == old(sigmaId) && reblurId == old(reblurId)
    {
      if resourcesInitialized {
        return;
      }
      resourcesInitialized := true;
    }

    /** `release_resources` (also the destructor): destroys the integration if the
        resources are initialised, and clears the flag; a second call does nothing. */
    method ReleaseResources()
      modifies this
      ensures !resourcesInitialized
      ensures integration == if old(resourcesInitialized) then Destroyed else old(integration)
      ensures cachedResources == old(cachedResources)
      ensures textureWidth == old(textureWidth) && textureHeight == old(textureHeight)
      ensures sigmaId == old(sigmaId) && reblurId == old(reblurId)
    {
      if !resourcesInitialized {
        return;
      }
      integration := Destroyed;
      resourcesInitialized := false;
    }
  }
}
