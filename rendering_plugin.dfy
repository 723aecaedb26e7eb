/**
 * Model of RenderingPlugin/RenderingPlugin/RenderingPlugin.cpp: the plugin's global
 * registries of NRD and DLRR instances, the id counter they share, the exported
 * create/destroy/update entry points, render-event routing and device shutdown.
 *
 * The mutexes are left out (each entry point runs as one step). A C++ `delete` of an
 * instance runs its destructor, which is `release_resources`.
 */
module RenderingPlugin {
  import opened Base
  import opened NrdTypes
  import opened NrdInstances
  import opened DlrrInstances

  /** Where `OnRenderEventAndData` sent an event. */
  datatype Route =
    | UnknownEvent
    | NotRegistered(instanceId: int)
    | ToNrd(instanceId: int, nrdOutcome: DispatchOutcome)
    | ToDlrr(instanceId: int, dlrrOutcome: DlrrOutcome)

  class Plugin {
    var nrdInstances: map<int, NrdInstance>
    var dlrrInstances: map<int, DlrrInstance>
    /** `g_NrdNextInstanceId`, used for both kinds of instance. */
    var nrdNextInstanceId: int
    /** `g_DLRRNextInstanceId`: declared, never read or written after initialisation. */
    var dlrrNextInstanceId: int

    /**
     * Every registered id was issued before, from 1 upwards; no id is registered as both
     * an NRD and a DLRR instance; each DLRR instance carries its own id; and the
     * registries hold distinct objects.
     */
    predicate Valid()
      reads this
    {
      nrdNextInstanceId >= 1 && dlrrNextInstanceId == 1
      && (forall id :: id in nrdInstances ==> 1 <= id < nrdNextInstanceId)
      && (forall id :: id in dlrrInstances ==> 1 <= id < nrdNextInstanceId)
      && nrdInstances.Keys !! dlrrInstances.Keys
      && (forall id :: id in dlrrInstances ==> dlrrInstances[id].id == id)
      && (forall a, b :: a in nrdInstances && b in nrdInstances && a != b ==> nrdInstances[a] != nrdInstances[b])
    }

    constructor ()
      ensures Valid()
      ensures nrdInstances == map[] && dlrrInstances == map[] && nrdNextInstanceId == 1
    {
      nrdInstances := map[];
      dlrrInstances := map[];
      nrdNextInstanceId := 1;
      dlrrNextInstanceId := 1;
    }

    /** `CreateDenoiserInstance`: issues the current counter value, then increments it, and
        registers a new instance under that id. */
    method CreateDenoiserInstance() returns (id: int)
      requires Valid()
      modifies this
      ensures Valid()
      ensures id == old(nrdNextInstanceId) && nrdNextInstanceId == id + 1
      ensures id in nrdInstances && fresh(nrdInstances[id])
      ensures nrdInstances == old(nrdInstances)[id := nrdInstances[id]]
      ensures id !in old(nrdInstances) && id !in dlrrInstances
      ensures dlrrInstances == old(dlrrInstances)
    {
      id := nrdNextInstanceId;
      nrdNextInstanceId := nrdNextInstanceId + 1;
      var instance := new NrdInstance();
      nrdInstances := nrdInstances[id := instance];
    }

    /** `CreateDLRRInstance`: draws its id from the same counter as NRD instances. */
    method CreateDLRRInstance() returns (id: int)
      requires Valid()
      modifies this
      ensures Valid()
      ensures id == old(nrdNextInstanceId) && nrdNextInstanceId == id + 1
      ensures id in dlrrInstances && fresh(dlrrInstances[id]) && dlrrInstances[id].id == id
      ensures dlrrInstances == old(dlrrInstances)[id := dlrrInstances[id]]
      ensures id !in old(dlrrInstances) && id !in nrdInstances
      ensures nrdInstances == old(nrdInstances)
    {
      id := nrdNextInstanceId;
      nrdNextInstanceId := nrdNextInstanceId + 1;
      var instance := new DlrrInstance(id);
      dlrrInstances := dlrrInstances[id := instance];
    }

    /** `DestroyDenoiserInstance(id)`: deletes and unregisters that instance; an unknown id
        changes nothing. */
    method DestroyDenoiserInstance(id: int)
      requires Valid()
      modifies this, if id in nrdInstances then {nrdInstances[id]} else {}
      ensures Valid()
      ensures nrdInstances == old(nrdInstances) - {id}
      ensures id in old(nrdInstances) ==> !old(nrdInstances)[id].resourcesInitialized
      ensures dlrrInstances == old(dlrrInstances) && nrdNextInstanceId == old(nrdNextInstanceId)
    {
      if id in nrdInstances {
        nrdInstances[id].ReleaseResources();
        nrdInstances := nrdInstances - {id};
      }
    }

    /** `DestroyDLRRInstance(id)`: the same for the DLRR registry. */
    method DestroyDLRRInstance(id: int)
      requires Valid()
      modifies this, if id in dlrrInstances then {dlrrInstances[id]} else {}
      ensures Valid()
      ensures dlrrInstances == old(dlrrInstances) - {id}
      ensures id in old(dlrrInstances) ==> !old(dlrrInstances)[id].resourcesInitialized
      ensures nrdInstances == old(nrdInstances) && nrdNextInstanceId == old(nrdNextInstanceId)
    {
      if id in dlrrInstances {
        var _ := dlrrInstances[id].ReleaseResources();
        dlrrInstances := dlrrInstances - {id};
      }
    }

    /** `UpdateDenoiserResources(instanceId, resources, count)`: reaches the instance only if
        it is registered; no registry changes, and no other instance is touched. */
    method UpdateDenoiserResources(instanceId: int, resources: Option<seq<NrdResourceInput>>, count: int)
      requires Valid()
      requires resources.Some? && count > 0 ==> count <= |resources.value|
      modifies if instanceId in nrdInstances then {nrdInstances[instanceId]} else {}
      ensures Valid()
      ensures instanceId in nrdInstances && (resources.None? || count <= 0) ==>
                nrdInstances[instanceId].cachedResources == []
      ensures instanceId in nrdInstances && resources.Some? && count > 0 ==>
                nrdInstances[instanceId].cachedResources == resources.value[..count]
      ensures forall k :: k in nrdInstances && k != instanceId ==> unchanged(nrdInstances[k])
    {
      if instanceId in nrdInstances {
        nrdInstances[instanceId].UpdateResources(resources, count);
      }
    }

    /**
     * `OnRenderEventAndData(eventID, data)`: event 1 dispatches the NRD instance named by
     * the frame data's `instanceId`, event 2 the DLRR instance named by the DLSS frame
     * data's; an unregistered id or any other event does nothing. `data` is one frame
     * data block, read as `FrameData` for event 1 and as `RRFrameData` for event 2.
     */
    method OnRenderEventAndData(eventId: int, frame: FrameData, rrFrame: RRFrameData,
                                recording: bool, recreateSucceeds: bool, nri: Nri, created: Option<Handle>)
      returns (route: Route)
      requires Valid()
      modifies if eventId == 1 && frame.instanceId in nrdInstances then {nrdInstances[frame.instanceId]} else {}
      modifies if eventId == 2 && rrFrame.instanceId in dlrrInstances then {dlrrInstances[rrFrame.instanceId]} else {}
      ensures Valid()
      ensures eventId != 1 && eventId != 2 ==> route == UnknownEvent
      ensures eventId == 1 && frame.instanceId !in nrdInstances ==> route == NotRegistered(frame.instanceId)
      ensures eventId == 2 && rrFrame.instanceId !in dlrrInstances ==> route == NotRegistered(rrFrame.instanceId)
      ensures eventId == 1 && frame.instanceId in nrdInstances ==>
                route.ToNrd? && route.instanceId == frame.instanceId
                && (route.nrdOutcome.Skipped? <==> frame.width == 0 || frame.height == 0 || !recording)
                && (!route.nrdOutcome.Skipped? ==>
                      nrdInstances[frame.instanceId].textureWidth == frame.width
                      && nrdInstances[frame.instanceId].textureHeight == frame.height)
      ensures eventId == 2 && rrFrame.instanceId in dlrrInstances ==>
                route.ToDlrr? && route.instanceId == rrFrame.instanceId
                && (route.dlrrOutcome.Skipped? <==> rrFrame.width == 0 || rrFrame.height == 0 || !recording)
                && (!route.dlrrOutcome.Skipped? ==>
                      dlrrInstances[rrFrame.instanceId].textureWidth == rrFrame.width
                      && dlrrInstances[rrFrame.instanceId].textureHeight == rrFrame.height)
    {
      if eventId == 1 {
        var id := frame.instanceId;
        if id in nrdInstances {
          var outcome := nrdInstances[id].DispatchCompute(Some(frame), recording, recreateSucceeds);
          return ToNrd(id, outcome);
        }
        return NotRegistered(id);
      } else if eventId == 2 {
        var id := rrFrame.instanceId;
        if id in dlrrInstances {
          var outcome := dlrrInstances[id].DispatchCompute(Some(rrFrame), recording, nri, created);
          return ToDlrr(id, outcome);
        }
        return NotRegistered(id);
      }
      return UnknownEvent;
    }

    /** The shutdown branch of `OnGraphicsDeviceEvent`: every NRD instance is deleted and the
        NRD registry emptied; the DLRR registry is left as it is. The instances are visited
        in increasing id order, a range every registered id lies in. */
    method OnDeviceShutdown()
      requires Valid()
      modifies this, set id | id in nrdInstances :: nrdInstances[id]
      ensures Valid()
      ensures nrdInstances == map[]
      ensures forall id :: id in old(nrdInstances) ==> !old(nrdInstances)[id].resourcesInitialized
      ensures dlrrInstances == old(dlrrInstances) && nrdNextInstanceId == old(nrdNextInstanceId)
    {
      for id := 1 to nrdNextInstanceId
        invariant nrdInstances == old(nrdInstances) && dlrrInstances == old(dlrrInstances)
        invariant nrdNextInstanceId == old(nrdNextInstanceId) && dlrrNextInstanceId == old(dlrrNextInstanceId)
        invariant forall k :: k in nrdInstances && k < id ==> !nrdInstances[k].resourcesInitialized
      {
        if id in nrdInstances {
          nrdInstances[id].ReleaseResources();
        }
      }
      nrdInstances := map[];
    }
  }

  /** Ids issued by successive creations, of either kind, strictly increase. */
  method IssuedIdsIncrease(plugin: Plugin) returns (first: int, second: int, third: int)
    requires plugin.Valid()
    modifies plugin
    ensures plugin.Valid()
    ensures first < second < third
    ensures first in plugin.nrdInstances && second in plugin.dlrrInstances && third in plugin.nrdInstances
  {
    first := plugin.CreateDenoiserInstance();
    second := plugin.CreateDLRRInstance();
    third := plugin.CreateDenoiserInstance();
  }
}
