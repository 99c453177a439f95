/** A successful NodeStageVolume means the volume's own filesystem is mounted at the staging path,
    once, and it stays so until an unstage of the volume begins. */
module StageSoundness {
  import opened Uuid
  import opened Types
  import opened HostModel
  import opened Machine
  import opened Effects
  import opened Invariant
  import opened Views
  import opened Mounts
  import Decimal

  /** Each volume's one staging path and whether it is used as a block device. */
  datatype Plan = Plan(staging: VolId -> Path, block: VolId -> bool)

  /** Calls keep to the plan, and staging paths are not used as publish targets. */
  predicate Planned(plan: Plan, req: Request) {
    && (!req.call.Unpublish? ==> req.staging == plan.staging(req.vol))
    && (req.call.Stage? ==> req.IsBlock() == plan.block(req.vol))
    && (req.call.Publish? || req.call.Unpublish? ==> req.target != plan.staging(req.vol))
  }

  /** A restart adopts every volume with a link as staged, mounted or not.  So it must not happen
      while a device is up whose volume is not mounted; this can be looked up before. */
  ghost predicate SafeToRestart(plan: Plan, h: Host, v: VolId) {
    !plan.block(v) && Backing(h, UblkByUUIDPath(v)).Some? ==> Layers(h, plan.staging(v)) != []
  }

  ghost predicate PlannedEvent(plan: Plan, s: State, e: Event, v: VolId) {
    match e
    case Begin(req) => Planned(plan, req)
    case Restart(_) => SafeToRestart(plan, s.host, v)
    case _ => true
  }

  ghost predicate PlannedRun(plan: Plan, s: State, es: seq<Event>, v: VolId)
    decreases |es|
  {
    es == [] || (PlannedEvent(plan, s, es[0], v) && PlannedRun(plan, Step(s, es[0]), es[1..], v))
  }

  /** An unstage that is done with unmounting. */
  predicate Unmounted(pc: PC) {
    CallOf(pc).Unstage? && !((pc.UmStat? || pc.UmCheck? || pc.UmUnmount?) && pc.at.UnstageUnmount?)
  }

  predicate OwnLayers(h: Host, p: Path, v: VolId) {
    |Layers(h, p)| <= 1 && forall i | 0 <= i < |Layers(h, p)| :: Layers(h, p)[i].Device? && Layers(h, p)[i].vol == v
  }

  predicate CallSound(plan: Plan, h: Host, v: VolId, f: Frame) {
    && Planned(plan, f.req)
    && (f.pc.Insert? ==> Layers(h, plan.staging(v)) != [])
    && (f.pc.MountStaging? ==> Layers(h, plan.staging(v)) == [])
  }

  predicate Sound(plan: Plan, s: State, v: VolId) {
    && OwnLayers(s.host, plan.staging(v), v)
    && (v in s.frames ==> CallSound(plan, s.host, v, s.frames[v]))
    && (Staged(s, v) && !(v in s.frames && Unmounted(s.frames[v].pc)) ==> Layers(s.host, plan.staging(v)) != [])
  }

  lemma MountSound(plan: Plan, h: Host, f: Frame, o: Outcome)
    requires LinksBacked(h) && InMount(f.pc) && f.dev == UblkByUUIDPath(f.req.vol) && f.req.staging == plan.staging(f.req.vol)
    requires OwnLayers(h, f.req.staging, f.req.vol) && CallSound(plan, h, f.req.vol, f)
    ensures var m := MountMove(h, f, o);
      && OwnLayers(m.host, f.req.staging, f.req.vol)
      && (m.next.Go? ==> CallSound(plan, m.host, f.req.vol, f.(pc := m.next.pc)))
      && (Layers(h, f.req.staging) != [] ==> Layers(m.host, f.req.staging) != [])
  {
    BackingIsVolume(h, f.req.vol);
    hide LinksBacked; hide Backing; hide Stat; hide Parse; hide Blkid; hide Mkfs; hide Planned;
  }

  lemma UnmountSound(plan: Plan, h: Host, f: Frame, o: Outcome)
    requires f.req.call.Unstage? && f.req.staging == plan.staging(f.req.vol) && PcOk(f.req.call, f.pc) && !InDelete(f.pc)
    requires OwnLayers(h, f.req.staging, f.req.vol)
    ensures var m := UnmountMove(h, f, o);
      && OwnLayers(m.host, f.req.staging, f.req.vol)
      && (m.next.Go? ==> !m.next.pc.Insert? && !m.next.pc.MountStaging?)
      && (!Unmounted(f.pc) && (m.next.Done? || !Unmounted(m.next.pc)) ==> Layers(m.host, f.req.staging) == Layers(h, f.req.staging))
      && (Unmounted(f.pc) ==> if m.next.Go? then Unmounted(m.next.pc) else m.next.write.Drop?)
      && (m.next.Done? ==> !m.next.write.Put?)
  {
    hide Stat; hide IsMountPoint; hide Remove;
  }

  /** A move keeps the staging path sound: it stays mounted unless an unstage takes the mount, and
      what ends an unstage that did drops the entry. */
  predicate MoveSound(plan: Plan, h: Host, f: Frame, m: Move) {
    var p := plan.staging(f.req.vol);
    && OwnLayers(m.host, p, f.req.vol)
    && (m.next.Go? ==> CallSound(plan, m.host, f.req.vol, f.(pc := m.next.pc)))
    && (m.next.Done? && m.next.write.Put? ==> Layers(m.host, p) != [])
    && (Layers(h, p) != [] && !Unmounted(f.pc) && (m.next.Go? ==> !Unmounted(m.next.pc)) ==> Layers(m.host, p) != [])
    && (Unmounted(f.pc) ==> if m.next.Go? then Unmounted(m.next.pc) else m.next.write.Drop?)
  }

  lemma MountMoveSound(plan: Plan, h: Host, f: Frame, o: Outcome)
    requires LinksBacked(h) && InMount(f.pc) && PcOk(f.req.call, f.pc) && DevOk(f)
    requires OwnLayers(h, plan.staging(f.req.vol), f.req.vol) && CallSound(plan, h, f.req.vol, f)
    ensures MoveSound(plan, h, f, MountMove(h, f, o))
  {
    hide LinksBacked; hide OwnLayers; hide Layers;
    MountSound(plan, h, f, o);
    MountStaysInCall(h, f, o);
    MountPuts(h, f, o);
    hide MountMove;
  }

  lemma MountPuts(h: Host, f: Frame, o: Outcome)
    requires InMount(f.pc)
    ensures var m := MountMove(h, f, o); m.next.Done? && m.next.write.Put? ==> f.pc.Insert? && m.host == h
  {
    hide Blkid; hide Mkfs; hide IsMountPoint; hide MountDevice; hide MkdirAll; hide Parse;
  }

  lemma UnmountMoveSound(plan: Plan, h: Host, f: Frame, o: Outcome)
    requires CallOf(f.pc) == Unstage && !InDelete(f.pc) && PcOk(f.req.call, f.pc)
    requires OwnLayers(h, plan.staging(f.req.vol), f.req.vol) && CallSound(plan, h, f.req.vol, f)
    ensures MoveSound(plan, h, f, UnmountMove(h, f, o))
  {
    hide OwnLayers; hide Layers; hide UnmountMove;
    UnmountSound(plan, h, f, o);
  }

  /** Creating, deleting and publishing neither lead to a mount at the staging path nor write an
      entry, except that a block stage inserts one. */
  lemma OtherMoves(h: Host, f: Frame, o: Outcome)
    requires PcOk(f.req.call, f.pc) && !InMount(f.pc) && !(CallOf(f.pc) == Unstage && !InDelete(f.pc)) && DevOk(f)
    ensures var m := Act(h, f, o);
      && (m.next.Go? ==> !m.next.pc.MountStaging? && (m.next.pc.Insert? ==> f.req.IsBlock()))
      && (m.next.Done? ==> !m.next.write.Put?)
      && (Unmounted(f.pc) ==> m.next.Go? && Unmounted(m.next.pc))
  {
    hide StartUnit; hide StopUnit; hide ResolveUblkId; hide DeleteMinor; hide IsMountPoint;
    hide BindDevice; hide BindPath; hide UnmountTop; hide Stat; hide MkdirAll; hide OpenOrCreate; hide AfterRemove;
  }

  lemma OtherMoveSound(plan: Plan, h: Host, f: Frame, o: Outcome)
    requires PcOk(f.req.call, f.pc) && DevOk(f) && !InMount(f.pc) && !(CallOf(f.pc) == Unstage && !InDelete(f.pc))
    requires !plan.block(f.req.vol) && OwnLayers(h, plan.staging(f.req.vol), f.req.vol) && CallSound(plan, h, f.req.vol, f)
    ensures MoveSound(plan, h, f, Act(h, f, o))
  {
    hide Act; hide Layers;
    var p := plan.staging(f.req.vol);
    ActTouches(h, f, o);
    assert !WorksOn(f, p);
    assert Layers(Act(h, f, o).host, p) == Layers(h, p);
    OtherMoves(h, f, o);
    ActStaysInCall(h, f, o);
  }

  lemma ActSound(owner: Owner, plan: Plan, h: Host, f: Frame, o: Outcome)
    requires LinksBacked(h) && FrameOk(owner, f.req.vol, f) && !plan.block(f.req.vol)
    requires OwnLayers(h, plan.staging(f.req.vol), f.req.vol) && CallSound(plan, h, f.req.vol, f)
    ensures MoveSound(plan, h, f, Act(h, f, o))
  {
    hide MountMove; hide UnmountMove; hide CreateMove; hide DeleteMove; hide PublishMove; hide LinksBacked;
    hide MoveSound;
    hide OwnLayers; hide Layers;
    if InMount(f.pc) {
      MountMoveSound(plan, h, f, o);
    } else if CallOf(f.pc) == Unstage && !InDelete(f.pc) {
      UnmountMoveSound(plan, h, f, o);
    } else {
      OtherMoveSound(plan, h, f, o);
    }
  }

  lemma SoundCommit(plan: Plan, s: State, v: VolId, m: Move)
    requires v in s.frames && s.frames[v].req.vol == v && Sound(plan, s, v) && MoveSound(plan, s.host, s.frames[v], m)
    ensures Sound(plan, Commit(s, v, m), v)
  {
    hide OwnLayers; hide Planned;
  }

  /** A restart adopts only volumes whose link resolves. */
  lemma {:induction false} RecoverAdoptsLinked(volMap: map<VolId, Entry>, h: Host, listed: seq<VolId>, v: VolId)
    requires v in volMap && volMap[v].ublkPath != NoDevPath ==> Backing(h, UblkByUUIDPath(v)).Some?
    ensures var r := Recover(volMap, h, listed).0;
      v in r && r[v].ublkPath != NoDevPath ==> Backing(h, UblkByUUIDPath(v)).Some?
    decreases |listed|
  {
    hide Parse; hide Backing;
    if listed != [] {
      var w := listed[0];
      var entry := if w in volMap then volMap[w] else BARE_ENTRY;
      if Backing(h, UblkByUUIDPath(w)).None? {
        RecoverAdoptsLinked(volMap, h, listed[1..], v);
      } else if Parse(w.text).Some? {
        RecoverAdoptsLinked(volMap[w := entry.(volId := Parse(w.text), ublkPath := UblkByUUIDPath(w))], h, listed[1..], v);
      }
    }
  }

  lemma SameSound(owner: Owner, plan: Plan, s: State, t: State, v: VolId)
    requires SameView(owner, s, t, v) && owner(plan.staging(v)) == v && Sound(plan, s, v)
    ensures Sound(plan, t, v)
  {
    assert Layers(s.host, plan.staging(v)) == Layers(t.host, plan.staging(v));
    assert Staged(s, v) == Staged(t, v) by { assert EntryOf(s, v) == EntryOf(t, v); }
    hide Layers; hide SameHostView; hide Points;
  }

  lemma SoundStep(owner: Owner, plan: Plan, s: State, e: Event, v: VolId)
    requires Inv(owner, s) && OwnedEvent(owner, e) && PlannedEvent(plan, s, e, v) && !plan.block(v)
    requires owner(plan.staging(v)) == v && Sound(plan, s, v)
    ensures Sound(plan, Step(s, e), v)
  {
    match e
    case Op(w, o) =>
      if w != v {
        StepIsLocal(owner, s, e, v);
        hide Step; hide SameView; hide Sound;
        SameSound(owner, plan, s, Step(s, e), v);
      } else if v in s.frames {
        ActSound(owner, plan, s.host, s.frames[v], o);
        hide Act; hide MoveSound; hide Sound;
        SoundCommit(plan, s, v, Act(s.host, s.frames[v], o));
      }
    case Begin(req) =>
      OtherEvents(s, e);
      EnterMountsNothing(EntryOf(s, req.vol), req);
      EnterKeepsRequest(EntryOf(s, req.vol), req);
      assert Layers(Step(s, e).host, plan.staging(v)) == Layers(s.host, plan.staging(v));
      hide Enter; hide Step; hide Layers; hide Planned;
    case Restart(listed) =>
      if listed.Some? { RecoverAdoptsLinked(map[], s.host, listed.value, v); }
      hide Recover; hide Backing; hide Layers;
    case _ =>
      OtherEvents(s, e);
      assert Layers(Step(s, e).host, plan.staging(v)) == Layers(s.host, plan.staging(v));
      hide Step; hide Layers; hide Planned;
  }

  lemma EnterKeepsRequest(entry: Option<Entry>, req: Request)
    ensures var e := Enter(entry, req); e.Admit? ==> e.frame.req == req && !Unmounted(e.frame.pc) && !e.frame.pc.Insert?
  {
    hide Decimal.ParseInt64;
  }

  lemma {:induction false} SoundRun(owner: Owner, plan: Plan, s: State, es: seq<Event>, v: VolId)
    requires Inv(owner, s) && OwnedEvents(owner, es) && PlannedRun(plan, s, es, v) && !plan.block(v)
    requires owner(plan.staging(v)) == v && Sound(plan, s, v)
    ensures Sound(plan, Run(s, es), v) && Inv(owner, Run(s, es))
    decreases |es|
  {
    if es != [] {
      InvStep(owner, s, es[0]);
      SoundStep(owner, plan, s, es[0], v);
      hide Step; hide Inv; hide Sound;
      SoundRun(owner, plan, Step(s, es[0]), es[1..], v);
    }
  }

  /** The staging path shows the volume's own filesystem, mounted once. */
  predicate SoleMount(plan: Plan, h: Host, v: VolId) {
    var layers := Layers(h, plan.staging(v));
    |layers| == 1 && layers[0].Device? && layers[0].vol == v
  }

  /** A stage answered with success at this event. */
  predicate StageSucceeds(s: State, e: Event, v: VolId) {
    && ((e.Op? && e.vol == v && v in s.frames && s.frames[v].req.call.Stage?)
        || (e.Begin? && e.req.vol == v && e.req.call.Stage? && v !in s.frames))
    && Replies(Step(s, e), v) == Replies(s, v) + [OK]
  }

  /** Stage soundness: at the moment any NodeStageVolume of a filesystem volume succeeds - the
      first one or a repeated one, after whatever failures and safe restarts - the staging path
      carries exactly one mount, of that volume's device.  */
  lemma {:induction false} StageSound(owner: Owner, plan: Plan, s: State, es: seq<Event>, e: Event, v: VolId)
    requires Inv(owner, s) && OwnedEvents(owner, es) && PlannedRun(plan, s, es, v) && !plan.block(v)
    requires owner(plan.staging(v)) == v && Sound(plan, s, v)
    requires OwnedEvent(owner, e) && PlannedEvent(plan, Run(s, es), e, v) && StageSucceeds(Run(s, es), e, v)
    ensures SoleMount(plan, Step(Run(s, es), e).host, v)
  {
    hide Run; hide Step;
    var t := Run(s, es);
    SoundRun(owner, plan, s, es, v);
    SoundStep(owner, plan, t, e, v);
    assert v in t.frames ==> FrameOk(owner, v, t.frames[v]);
    hide Inv;
    SuccessStages(t, e, v);
  }

  /** A staging call answers with success only when it inserts the entry. */
  lemma StageOkInserts(h: Host, f: Frame, o: Outcome)
    requires f.req.call.Stage? && PcOk(f.req.call, f.pc)
    ensures var m := Act(h, f, o); m.next.Done? && m.next.code.OK? ==> m.next.write.Put? && m.next.write.entry.ublkPath == f.dev
  {
    hide StartUnit; hide StopUnit; hide ResolveUblkId; hide DeleteMinor; hide IsMountPoint; hide Blkid; hide Mkfs;
    hide MountDevice; hide MkdirAll; hide Parse;
  }

  lemma SuccessStages(t: State, e: Event, v: VolId)
    requires StageSucceeds(t, e, v)
    requires v in t.frames ==> t.frames[v].dev != NoDevPath && PcOk(t.frames[v].req.call, t.frames[v].pc)
    ensures Staged(Step(t, e), v) && v !in Step(t, e).frames
  {
    var before, after := Replies(t, v), Replies(Step(t, e), v);
    assert after[|before|] == OK;
    if e.Op? {
      StageOkInserts(t.host, t.frames[v], e.o);
      hide Act;
    } else {
      hide Decimal.ParseInt64;
    }
  }

  // The mount stays

  /** No unstage of v is in flight or begins. */
  predicate NotUnstaging(s: State, v: VolId) {
    v in s.frames ==> !s.frames[v].req.call.Unstage?
  }

  predicate NoUnstage(e: Event, v: VolId) {
    e.Begin? && e.req.vol == v ==> !e.req.call.Unstage?
  }

  predicate NoUnstages(es: seq<Event>, v: VolId) {
    forall i | 0 <= i < |es| :: NoUnstage(es[i], v)
  }

  predicate PlannedCalls(plan: Plan, es: seq<Event>) {
    forall i | 0 <= i < |es| && es[i].Begin? :: Planned(plan, es[i].req)
  }

  lemma SoleMountIsThere(owner: Owner, plan: Plan, s: State, e: Event, v: VolId)
    requires Inv(owner, s) && OwnedEvent(owner, e) && !plan.block(v) && owner(plan.staging(v)) == v
    requires Sound(plan, s, v) && Layers(s.host, plan.staging(v)) != [] && NotUnstaging(s, v)
    ensures Layers(Step(s, e).host, plan.staging(v)) != []
  {
    hide Act; hide Enter; hide Recover; hide LinksBacked; hide MapOk; hide Layers; hide DeviceUp; hide LinkDown;
    hide SameCall; hide OwnLayers; hide Planned;
    if e.Op? && e.vol == v {
      if v in s.frames {
        assert FrameOk(owner, v, s.frames[v]);
        ActSound(owner, plan, s.host, s.frames[v], e.o);
        ActStaysInCall(s.host, s.frames[v], e.o);
      }
    } else if e.Op? {
      StepIsLocal(owner, s, e, v);
    } else {
      OtherEvents(s, e);
      SamePathsSameLayers(s.host, Step(s, e).host, plan.staging(v));
    }
  }

  lemma SamePathsSameLayers(h: Host, k: Host, p: Path)
    requires k.mounts == h.mounts
    ensures Layers(k, p) == Layers(h, p)
  {
  }

  lemma NotUnstagingStep(s: State, e: Event, v: VolId)
    requires NotUnstaging(s, v) && NoUnstage(e, v)
    ensures NotUnstaging(Step(s, e), v)
  {
    hide Act; hide Enter; hide Recover; hide DeviceUp; hide LinkDown; hide DaemonGone;
    if e.Begin? { EnterKeepsRequest(EntryOf(s, e.req.vol), e.req); }
  }

  lemma SoleMountStep(owner: Owner, plan: Plan, s: State, e: Event, v: VolId)
    requires Inv(owner, s) && OwnedEvent(owner, e) && (e.Begin? ==> Planned(plan, e.req))
    requires !plan.block(v) && owner(plan.staging(v)) == v && NoUnstage(e, v)
    requires Sound(plan, s, v) && SoleMount(plan, s.host, v) && NotUnstaging(s, v)
    ensures var t := Step(s, e); Sound(plan, t, v) && SoleMount(plan, t.host, v) && NotUnstaging(t, v)
  {
    hide Step; hide Inv; hide Planned; hide Layers; hide CallSound; hide Backing;
    SoundStep(owner, plan, s, e, v);
    SoleMountIsThere(owner, plan, s, e, v);
    NotUnstagingStep(s, e, v);
  }

  /** And it stays: the mount is there until an unstage of the volume begins, whatever is staged,
      published or unpublished, fails, dies or is restarted in between - also if a restart loses the
      volume's entry because the control plane does not list it or cannot be reached. */
  lemma {:induction false} MountStays(owner: Owner, plan: Plan, s: State, es: seq<Event>, v: VolId)
    requires Inv(owner, s) && OwnedEvents(owner, es) && PlannedCalls(plan, es)
    requires !plan.block(v) && owner(plan.staging(v)) == v && NoUnstages(es, v)
    requires Sound(plan, s, v) && SoleMount(plan, s.host, v) && NotUnstaging(s, v)
    ensures SoleMount(plan, Run(s, es).host, v)
    decreases |es|
  {
    hide Step; hide Inv; hide Sound; hide SoleMount; hide NotUnstaging; hide Planned; hide NoUnstage;
    if es != [] {
      InvStep(owner, s, es[0]);
      SoleMountStep(owner, plan, s, es[0], v);
      MountStays(owner, plan, Step(s, es[0]), es[1..], v);
    }
  }

  /** Both together: from any success of a NodeStageVolume until the next NodeUnstageVolume of the
      volume begins, its device is mounted at the staging path, once. */
  lemma {:induction false} StagedUntilUnstage(owner: Owner, plan: Plan, s: State, es: seq<Event>, e: Event, fs: seq<Event>, v: VolId)
    requires Inv(owner, s) && OwnedEvents(owner, es) && PlannedRun(plan, s, es, v) && !plan.block(v)
    requires owner(plan.staging(v)) == v && Sound(plan, s, v)
    requires OwnedEvent(owner, e) && PlannedEvent(plan, Run(s, es), e, v) && StageSucceeds(Run(s, es), e, v)
    requires OwnedEvents(owner, fs) && PlannedCalls(plan, fs) && NoUnstages(fs, v)
    ensures SoleMount(plan, Run(s, es + [e] + fs).host, v)
  {
    hide Run; hide Step; hide Inv; hide Sound; hide SoleMount; hide Planned; hide NoUnstages;
    var t := Run(s, es);
    StageSound(owner, plan, s, es, e, v);
    SoundRun(owner, plan, s, es, v);
    SoundStep(owner, plan, t, e, v);
    InvStep(owner, t, e);
    SuccessStages(t, e, v) by { if v in t.frames { RequestsOwnVolume(owner, t, v); } }
    RunSnoc(s, es, e);
    RunConcat(s, es + [e], fs);
    MountStays(owner, plan, Step(t, e), fs, v);
  }

  /** Also after an unstage has begun: as long as the volume is staged and no unstage is in flight, so
      when one failed, the mount is there. */
  lemma {:induction false} StagedIsMounted(owner: Owner, plan: Plan, s: State, es: seq<Event>, v: VolId)
    requires Inv(owner, s) && OwnedEvents(owner, es) && PlannedRun(plan, s, es, v) && !plan.block(v)
    requires owner(plan.staging(v)) == v && Sound(plan, s, v)
    ensures var t := Run(s, es);
      Staged(t, v) && !(v in t.frames && t.frames[v].req.call.Unstage?) ==> SoleMount(plan, t.host, v)
  {
    SoundRun(owner, plan, s, es, v);
  }
}
