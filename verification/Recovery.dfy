/** What UpdateNodeVolumeMap's loop over the control plane's list computes. */
module Recovery {
  import opened Uuid
  import opened Types
  import opened HostModel
  import opened Machine
  import opened Invariant
  import opened StageSoundness

  predicate AllParse(listed: seq<VolId>) {
    forall i | 0 <= i < |listed| :: Parse(listed[i].text).Some?
  }

  /** The volume is listed and its link resolves: its daemon runs on this node. */
  predicate Here(h: Host, listed: seq<VolId>, v: VolId) {
    v in listed && Backing(h, UblkByUUIDPath(v)).Some?
  }

  /** An entry, old or new, with the two fields that recovery fills in. */
  function Adopted(volMap: map<VolId, Entry>, v: VolId): Entry {
    (if v in volMap then volMap[v] else BARE_ENTRY).(volId := Parse(v.text), ublkPath := UblkByUUIDPath(v))
  }

  /** The loop's meaning when all IDs parse: the old map, updated at exactly the listed volumes
      whose link resolves, other fields of existing entries kept. */
  lemma {:induction false} RecoverMeaning(volMap: map<VolId, Entry>, h: Host, listed: seq<VolId>)
    requires AllParse(listed)
    ensures Recover(volMap, h, listed).1
    ensures forall v :: v in Recover(volMap, h, listed).0 <==> v in volMap || Here(h, listed, v)
    ensures forall v | v in Recover(volMap, h, listed).0 ::
      Recover(volMap, h, listed).0[v] == if Here(h, listed, v) then Adopted(volMap, v) else volMap[v]
    decreases |listed|
  {
    hide Parse; hide Backing;
    if listed != [] {
      var w, rest := listed[0], listed[1..];
      assert forall v :: v in listed <==> v == w || v in rest;
      if Backing(h, UblkByUUIDPath(w)).None? {
        RecoverMeaning(volMap, h, rest);
      } else {
        assert Parse(listed[0].text).Some?;
        RecoverMeaning(volMap[w := Adopted(volMap, w)], h, rest);
      }
    }
  }

  /** Neither the order of the list nor repetitions in it matter. */
  lemma {:induction false} RecoverUnordered(volMap: map<VolId, Entry>, h: Host, listed: seq<VolId>, again: seq<VolId>)
    requires AllParse(listed) && AllParse(again) && forall v :: v in listed <==> v in again
    ensures Recover(volMap, h, listed) == Recover(volMap, h, again)
  {
    hide Parse; hide Recover; hide Backing;
    RecoverMeaning(volMap, h, listed);
    RecoverMeaning(volMap, h, again);
    assert Recover(volMap, h, listed).0 == Recover(volMap, h, again).0;
  }

  /** Recovering twice is recovering once. */
  lemma {:induction false} RecoverIdempotent(volMap: map<VolId, Entry>, h: Host, listed: seq<VolId>)
    requires AllParse(listed)
    ensures Recover(Recover(volMap, h, listed).0, h, listed) == Recover(volMap, h, listed)
  {
    var once := Recover(volMap, h, listed).0;
    RecoverMeaning(volMap, h, listed);
    RecoverMeaning(once, h, listed);
    hide Parse; hide Recover; hide Backing;
    assert Recover(once, h, listed).0 == once;
  }

  /** A bad ID with a live link stops the loop where it stands, and leaves an entry without a
      device path behind. */
  lemma {:induction false} RecoverAborts(volMap: map<VolId, Entry>, h: Host, good: seq<VolId>, bad: VolId, rest: seq<VolId>)
    requires AllParse(good) && Parse(bad.text).None? && Backing(h, UblkByUUIDPath(bad)).Some? && MapOk(volMap)
    ensures var r := Recover(volMap, h, good + [bad] + rest);
      && !r.1
      && bad in r.0 && r.0[bad].ublkPath == NoDevPath
      && r.0 - {bad} == Recover(volMap, h, good).0 - {bad}
    decreases |good|
  {
    hide Parse; hide Backing;
    if good == [] {
      assert (good + [bad] + rest)[0] == bad;
      assert bad in volMap ==> EntryOk(bad, volMap[bad]);
    } else {
      var w := good[0];
      assert (good + [bad] + rest)[1..] == good[1..] + [bad] + rest;
      assert Parse(good[0].text).Some?;
      RecoverAborts(if Backing(h, UblkByUUIDPath(w)).None? then volMap else volMap[w := Adopted(volMap, w)], h, good[1..], bad, rest);
    }
  }

  /** A restart re-adopts every unit that leaked before, if its link resolves and the control
      plane lists it, and no volume that is not here. */
  lemma RestartAdopts(s: State, listed: seq<VolId>, v: VolId)
    requires AllParse(listed)
    ensures Staged(Step(s, Restart(Some(listed))), v) <==> Here(s.host, listed, v)
    ensures v in Step(s, Restart(Some(listed))).volMap ==> Staged(Step(s, Restart(Some(listed))), v)
  {
    hide Parse; hide Recover; hide Backing;
    RecoverMeaning(map[], s.host, listed);
  }

  /** The exact price of adopting by link alone: a restart keeps stage soundness of a listed
      filesystem volume if and only if its device was not up without being mounted. */
  lemma RestartSoundExactly(plan: Plan, s: State, listed: seq<VolId>, v: VolId)
    requires AllParse(listed) && v in listed && !plan.block(v) && OwnLayers(s.host, plan.staging(v), v)
    ensures Sound(plan, Step(s, Restart(Some(listed))), v) <==> SafeToRestart(plan, s.host, v)
  {
    hide Parse; hide Recover; hide Backing; hide Layers;
    RestartAdopts(s, listed, v);
  }
}
