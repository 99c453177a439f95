/** The controller service: creating and deleting volumes, and the size text it hands to the node. */
module Controller {
  import opened Uuid
  import opened Types
  import opened ControlPlane
  import opened Config
  import opened Machine
  import Decimal

  /** The context for the node carries the size as decimal text. */
  datatype PublishResponse =
    | Context(volumeID: VolId, volumeSize: string)
    | NodeNotFound | VolumeNotFound | PublishInternal | PublishInvalid

  /** nodeExists: what the cluster says of the node, None if it could not be asked. */
  datatype PublishRequest = PublishRequest(id: VolId, node: string, cap: Option<Capability>, nodeExists: Option<bool>)

  /** What a ControllerPublishVolume answers, given what its lookup came back with. */
  function ControllerPublish(p: Plane, req: PublishRequest, lookup: seq<Attempt>): PublishResponse {
    if req.id.text == "" || req.node == "" || req.cap.None? then PublishInvalid
    else if req.nodeExists.None? then PublishInternal
    else if !req.nodeExists.value then NodeNotFound
    else
      var found := Retry(p, GetVdev(req.id), lookup);
      if found.result.Ok? && found.result.reply.Found? then Context(req.id, Decimal.FormatInt(found.result.reply.vdev.size))
      else VolumeNotFound
  }

  /** The size crosses from the controller to the node unharmed: what ControllerPublishVolume writes
      denotes the size of the volume asked for, the node's parser reads that number from it, and so
      no NodeStageVolume that passes it on is refused because of it. */
  lemma SizeReachesNode(p: Plane, req: PublishRequest, lookup: seq<Attempt>, entry: Option<Entry>, stage: Request)
    requires forall id | id in p.vdevs :: Decimal.MIN_INT64 <= p.vdevs[id].size <= Decimal.MAX_INT64
    requires ControllerPublish(p, req, lookup).Context?
    requires stage.call.Stage? && stage.vol.text != "" && stage.staging.text != "" && stage.cap.Some?
    requires stage.size == ControllerPublish(p, req, lookup).volumeSize
    ensures exists id | id in p.vdevs ::
      && Decimal.ParseInt64(stage.size) == Some(p.vdevs[id].size)
      && (Parse(req.id.text).Some? ==> id == req.id) && (Parse(req.id.text).None? ==> p.vdevs[id].name == req.id)
    ensures Enter(entry, stage).Admit? || (entry.Some? && entry.value.ublkPath != NoDevPath && Enter(entry, stage) == Refuse(OK))
  {
    LookupLooks(p, req.id, lookup);
    var found := Retry(p, GetVdev(req.id), lookup);
    hide Retry; hide Parse;
    var id := found.result.reply.id;
    Decimal.SizeRoundTrip(p.vdevs[id].size);
    hide Decimal.ParseInt64; hide Decimal.FormatInt;
    assert Decimal.ParseInt64(stage.size) == Some(p.vdevs[id].size);
  }

  class ControllerServer {
    const config: ConfigManager

    constructor (config: ConfigManager)
      ensures this.config == config
    {
      this.config := config;
    }

    method CreateVolume(req: CreateRequest) returns (resp: CreateResponse, ghost course: Course)
      modifies config.client
      ensures course.Valid()
      ensures Creation(config.client.plane, resp) == ControlPlane.CreateVolume(old(config.client.plane), req, course)
    {
      hide Retry;
      course := Course([TIMEOUT, TIMEOUT], [TIMEOUT, TIMEOUT]);
      if req.name.text == "" || req.required.None? {
        return CreateResponse.InvalidArgument, course;
      }
      var volumeSize := req.required.value;
      if volumeSize == 0 {
        volumeSize := 1024 * 1024 * 1024;
      }
      if |req.caps| == 0 {
        return CreateResponse.InvalidArgument, course;
      }
      if !req.caps[0].Mount? && !req.caps[0].Block? {
        return CreateResponse.InvalidArgument, course;
      }
      ghost var lookup, alloc;
      var existing;
      existing, lookup := config.GetVolume(req.name);
      course := Course(lookup, [TIMEOUT, TIMEOUT]);
      if existing.Some? {
        if existing.value.1.size != volumeSize {
          return AlreadyExists, course;
        }
        return Volume(existing.value.0, existing.value.1.size), course;
      }
      LookupLooks(old(config.client.plane), req.name, lookup);
      var volumeID;
      volumeID, alloc := config.AllocVdev(req.name, volumeSize);
      course := Course(lookup, alloc);
      if volumeID.None? {
        return ResourceExhausted, course;
      }
      return Volume(volumeID.value, volumeSize), course;
    }

    method DeleteVolume(id: VolId) returns (resp: DeleteResponse, ghost lookup: seq<Attempt>, ghost removal: seq<Attempt>)
      modifies config.client
      ensures |lookup| == MAX_RETRY && |removal| == MAX_RETRY
      ensures Deletion(config.client.plane, resp) == ControlPlane.DeleteVolume(old(config.client.plane), id, lookup, removal)
    {
      hide Retry;
      lookup, removal := [TIMEOUT, TIMEOUT], [TIMEOUT, TIMEOUT];
      if id.text == "" {
        return DeleteInvalid, lookup, removal;
      }
      var vol;
      vol, lookup := config.GetVolume(id);
      if vol.None? {
        return DeleteOk, lookup, removal;
      }
      var removed;
      removed, removal := config.RemoveVolume(id);
      if !removed {
        return DeleteInternal, lookup, removal;
      }
      return DeleteOk, lookup, removal;
    }

    method ControllerPublishVolume(req: PublishRequest) returns (resp: PublishResponse, ghost lookup: seq<Attempt>)
      modifies config.client
      ensures |lookup| == MAX_RETRY && resp == ControllerPublish(old(config.client.plane), req, lookup)
      ensures config.client.plane.vdevs == old(config.client.plane.vdevs)
    {
      hide Retry; hide Decimal.FormatInt;
      lookup := [TIMEOUT, TIMEOUT];
      if req.id.text == "" || req.node == "" || req.cap.None? {
        return PublishInvalid, lookup;
      }
      if req.nodeExists.None? {
        return PublishInternal, lookup;
      }
      if !req.nodeExists.value {
        return NodeNotFound, lookup;
      }
      var vol;
      vol, lookup := config.GetVolume(req.id);
      LookupLooks(old(config.client.plane), req.id, lookup);
      if vol.None? {
        return VolumeNotFound, lookup;
      }
      return Context(req.id, Decimal.FormatInt(vol.value.1.size)), lookup;
    }
  }
}
