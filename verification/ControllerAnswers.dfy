/** What the controller's calls answer, told by their requests, by the devices there are and by how the
    rounds of their requests to the control plane fare. */
module ControllerAnswers {
  import opened Uuid
  import opened Types
  import opened ControlPlane
  import opened Controller
  import Decimal

  // What the rounds come to

  /** The device that a served lookup yields: a UUID is an ID, anything else a name. */
  function Resolved(vdevs: map<VolId, Vdev>, key: VolId, pick: VolId): Option<VolId> {
    if Parse(key.text).Some? then if key in vdevs then Some(key) else None
    else if pick in vdevs && vdevs[pick].name == key then Some(pick)
    else None
  }

  /** What the last round of a lookup that is reached yields, if it is served. */
  function FoundBy(good: bool, vdevs: map<VolId, Vdev>, key: VolId, tries: seq<Attempt>): Option<VolId>
    decreases |tries|
  {
    if tries == [] then None
    else if good && tries[0].verdict.Served? then Resolved(vdevs, key, tries[0].verdict.pick)
    else if Again(good, tries[0]) then FoundBy(tries[0].login.good, vdevs, key, tries[1..])
    else None
  }

  /** The free ID with which the last round of an allocation that is reached is served. */
  function AllocatedBy(good: bool, taken: set<VolId>, tries: seq<Attempt>): Option<VolId>
    decreases |tries|
  {
    if tries == [] then None
    else if good && tries[0].verdict.Served? then if tries[0].verdict.pick in taken then None else Some(tries[0].verdict.pick)
    else if Again(good, tries[0]) then AllocatedBy(tries[0].login.good, TakenAfter(good, taken, tries[0].verdict), tries[1..])
    else None
  }

  /** The last round of a removal that is reached is served, and the device is still there. */
  predicate RemovedBy(good: bool, there: bool, tries: seq<Attempt>)
    decreases |tries|
  {
    tries != [] &&
    if good && tries[0].verdict.Served? then there
    else Again(good, tries[0]) && RemovedBy(tries[0].login.good, there && !(good && tries[0].verdict.Lost?), tries[1..])
  }

  lemma {:induction false} LookupAnswers(p: Plane, key: VolId, tries: seq<Attempt>)
    ensures var t, found := Retry(p, GetVdev(key), tries), FoundBy(p.tokenGood, p.vdevs, key, tries);
      && t.plane == p.(tokenGood := TokenAfter(p.tokenGood, tries))
      && (if found.Some? then found.value in p.vdevs && t.result == Ok(Found(found.value, p.vdevs[found.value])) else t.result.Err?)
    decreases |tries|
  {
    hide LooksExpired; hide Parse; hide NotFound; hide Exhausted;
    if tries != [] {
      TryIsRejected(p, GetVdev(key), tries[0].verdict);
      if Again(p.tokenGood, tries[0]) {
        LookupAnswers(Try(p, GetVdev(key), tries[0].verdict).plane.(tokenGood := tries[0].login.good), key, tries[1..]);
      }
    }
  }

  lemma {:induction false} AllocAnswers(p: Plane, name: VolId, size: int, tries: seq<Attempt>)
    ensures var t, id := Retry(p, CreateVdev(name, size), tries), AllocatedBy(p.tokenGood, p.vdevs.Keys, tries);
      if id.Some? then t.result == Ok(Created(id.value)) && id.value in t.plane.vdevs && t.plane.vdevs[id.value] == Vdev(name, size)
      else t.result.Err?
    decreases |tries|
  {
    hide LooksExpired; hide NotFound; hide Exhausted;
    if tries != [] {
      var op, v := CreateVdev(name, size), tries[0].verdict;
      TryIsRejected(p, op, v);
      if Again(p.tokenGood, tries[0]) {
        var q := Try(p, op, v).plane.(tokenGood := tries[0].login.good);
        assert q.vdevs.Keys == TakenAfter(p.tokenGood, p.vdevs.Keys, v);
        AllocAnswers(q, name, size, tries[1..]);
      }
    }
  }

  lemma {:induction false} RemovalAnswers(p: Plane, id: VolId, tries: seq<Attempt>)
    ensures Retry(p, DeleteVdev(id), tries).result.Ok? <==> RemovedBy(p.tokenGood, id in p.vdevs, tries)
    decreases |tries|
  {
    hide LooksExpired; hide NotFound; hide Exhausted;
    if tries != [] {
      TryIsRejected(p, DeleteVdev(id), tries[0].verdict);
      if Again(p.tokenGood, tries[0]) {
        RemovalAnswers(Try(p, DeleteVdev(id), tries[0].verdict).plane.(tokenGood := tries[0].login.good), id, tries[1..]);
      }
    }
  }

  // CreateVolume

  /** The request lacks what a creation needs. */
  predicate LacksName(req: CreateRequest) {
    req.name.text == "" || req.required == None || req.caps == [] || req.caps[0] == NoAccessType
  }

  /** The size asked for in bytes: one GiB if none is. */
  function Bytes(req: CreateRequest): int
    requires req.required.Some?
  {
    if req.required.value == 0 then 1073741824 else req.required.value
  }

  /** The answer of a CreateVolume.  A device that the lookup finds is returned if it has the size asked
      for, and else is a conflict; if the lookup finds none, the one that is made is returned, and if none
      is, resources are exhausted. */
  lemma {:induction false} CreateAnswers(p: Plane, req: CreateRequest, c: Course)
    ensures var r := CreateVolume(p, req, c);
      if LacksName(req) then r == Creation(p, CreateResponse.InvalidArgument)
      else
        var size, found := Bytes(req), FoundBy(p.tokenGood, p.vdevs, req.name, c.lookup);
        if found.Some? then
          && found.value in p.vdevs && r.plane.vdevs == p.vdevs
          && r.response == if p.vdevs[found.value].size == size then Volume(found.value, size) else AlreadyExists
        else
          var made := AllocatedBy(TokenAfter(p.tokenGood, c.lookup), p.vdevs.Keys, c.alloc);
          if made.Some? then
            r.response == Volume(made.value, size) && made.value in r.plane.vdevs && r.plane.vdevs[made.value] == Vdev(req.name, size)
          else r.response == ResourceExhausted
  {
    hide Retry; hide FoundBy; hide AllocatedBy; hide TokenAfter;
    if !LacksName(req) {
      LookupAnswers(p, req.name, c.lookup);
      AllocAnswers(Retry(p, GetVdev(req.name), c.lookup).plane, req.name, Bytes(req), c.alloc);
    }
  }

  /** A served lookup of the one device of a name yields it. */
  lemma {:induction false} ServedYields(good: bool, p: Plane, name: VolId, id: VolId, tries: seq<Attempt>)
    requires Parse(name.text).None? && Sole(p, name) && id in p.vdevs && p.vdevs[id].name == name
    requires ReachesService(good, tries) && TrueIndex(p, name, tries)
    ensures FoundBy(good, p.vdevs, name, tries) == Some(id)
    decreases |tries|
  {
    hide LooksExpired; hide Parse;
    assert Present(p, name);
    hide Present;
    if !(good && tries[0].verdict.Served?) {
      assert forall i | 0 <= i < |tries[1..]| :: tries[1..][i] == tries[i + 1];
      ServedYields(tries[0].login.good, p, name, id, tries[1..]);
    }
  }

  /** Once there is the device, every call whose lookup gets through returns it. */
  lemma {:induction false} AllReturn(p: Plane, req: CreateRequest, cs: seq<Course>, id: VolId)
    requires !LacksName(req) && Parse(req.name.text).None? && Sole(p, req.name) && LookupsServed(p, req, cs)
    requires id in p.vdevs && p.vdevs[id] == Vdev(req.name, Bytes(req))
    ensures forall i | 0 <= i < |cs| :: Responses(p, req, cs)[i] == Volume(id, Bytes(req))
    decreases |cs|
  {
    hide CreateVolume; hide Parse; hide FoundBy; hide AllocatedBy; hide ReachesService; hide TrueIndex; hide AuthHarmless;
    if cs != [] {
      CreateAnswers(p, req, cs[0]);
      ServedYields(p.tokenGood, p, req.name, id, cs[0].lookup);
      var q := CreateVolume(p, req, cs[0]).plane;
      AllReturn(q, req, cs[1..], id);
      var rest := Responses(q, req, cs[1..]);
      forall i | 0 <= i < |cs| ensures Responses(p, req, cs)[i] == Volume(id, Bytes(req)) {
        if i > 0 { assert Responses(p, req, cs)[i] == rest[i - 1]; }
      }
    }
  }

  /** Idempotency: where lookups get through in the end and resolve truly, and errors that look like a
      rejected token mean no effect, every CreateVolume after a successful one succeeds and returns the
      same device with the size asked for. */
  lemma {:induction false} RetriesSucceed(p: Plane, req: CreateRequest, cs: seq<Course>, i: nat, j: nat)
    requires !LacksName(req) && Parse(req.name.text).None? && Sole(p, req.name) && LookupsServed(p, req, cs)
    requires i < j < |cs| && Responses(p, req, cs)[i].Volume?
    ensures Responses(p, req, cs)[j] == Responses(p, req, cs)[i] && Responses(p, req, cs)[i].size == Bytes(req)
    decreases |cs|
  {
    hide CreateVolume; hide Parse; hide FoundBy; hide AllocatedBy; hide Sole; hide ReachesService; hide TrueIndex;
    hide AuthHarmless; hide Doubles;
    var r := CreateVolume(p, req, cs[0]);
    NeverDoubles(p, req, cs);
    assert req.Valid();
    DuplicatesExactly(p, req, cs[0]);
    assert forall k | 0 < k < |cs| :: Responses(p, req, cs)[k] == Responses(r.plane, req, cs[1..])[k - 1];
    if i == 0 {
      CreateDoes(p, req, cs[0]);
      CreateAnswers(p, req, cs[0]);
      AllReturn(r.plane, req, cs[1..], r.response.id);
    } else {
      RetriesSucceed(r.plane, req, cs[1..], i - 1, j - 1);
    }
  }

  // DeleteVolume

  /** The answer of a DeleteVolume: a volume that the lookup does not find is taken for deleted; one that
      it finds is if the removal is served, and else the call fails. */
  lemma {:induction false} DeleteAnswers(p: Plane, id: VolId, lookup: seq<Attempt>, removal: seq<Attempt>)
    ensures var r := DeleteVolume(p, id, lookup, removal);
      if id.text == "" then r == Deletion(p, DeleteInvalid)
      else if FoundBy(p.tokenGood, p.vdevs, id, lookup) == None then r.response == DeleteOk && r.plane.vdevs == p.vdevs
      else r.response == if RemovedBy(TokenAfter(p.tokenGood, lookup), id in p.vdevs, removal) then DeleteOk else DeleteInternal
  {
    hide Retry; hide FoundBy; hide RemovedBy; hide TokenAfter;
    LookupAnswers(p, id, lookup);
    RemovalAnswers(Retry(p, GetVdev(id), lookup).plane, id, removal);
  }

  // ControllerPublishVolume

  /** The answer of a ControllerPublishVolume: a context with the volume's ID and a text that denotes its
      size if the node exists and the volume is found; what is missing otherwise. */
  lemma {:induction false} PublishAnswers(p: Plane, req: PublishRequest, lookup: seq<Attempt>)
    requires forall id | id in p.vdevs :: -0x8000_0000_0000_0000 <= p.vdevs[id].size <= 0x7FFF_FFFF_FFFF_FFFF
    ensures var r, found := ControllerPublish(p, req, lookup), FoundBy(p.tokenGood, p.vdevs, req.id, lookup);
      if req.id.text == "" || req.node == "" || req.cap == None then r == PublishInvalid
      else match req.nodeExists
        case None => r == PublishInternal
        case Some(false) => r == NodeNotFound
        case Some(true) =>
          if found == None then r == VolumeNotFound
          else found.value in p.vdevs && r.Context? && r.volumeID == req.id
               && Decimal.ParseInt64(r.volumeSize) == Some(p.vdevs[found.value].size)
  {
    hide Retry; hide FoundBy; hide Decimal.ParseInt64; hide Decimal.FormatInt;
    LookupAnswers(p, req.id, lookup);
    var found := FoundBy(p.tokenGood, p.vdevs, req.id, lookup);
    if found.Some? { Decimal.SizeRoundTrip(p.vdevs[found.value].size); }
  }
}
