/** The node service: the volume map and the four handlers.  The handlers are verified for one call
    at a time with whatever the host does meanwhile; that calls for different volumes may overlap
    is a property of the state machine they implement. */
module NodePlugin {
  import opened Uuid
  import opened Types
  import opened HostModel
  import opened Machine
  import opened NodeHost
  import opened NodeManagers
  import opened NodeTypes
  import opened Config
  import opened Invariant
  import opened StageSoundness
  import Decimal

  /** The call was answered at once. */
  predicate Refused(s: State, t: State, v: VolId, code: Code) {
    t == s.(replies := s.replies[v := Replies(s, v) + [code]])
  }

  /** The call was let in. */
  predicate Admitted(s: State, t: State, f: Frame) {
    f.req.vol !in s.frames && t == s.(frames := s.frames[f.req.vol := f])
  }

  /** What an answered call leaves: the calls of other volumes, and the map but for what it wrote. */
  ghost predicate Leaves(s: State, u: State, req: Request, log: seq<Event>, code: Code, w: Write) {
    Answers(s, u, req, log, code) && u.frames == s.frames && u.volMap == Written(s.volMap, req.vol, w)
  }

  lemma {:induction false} RefusedCall(s: State, u: State, req: Request, log: seq<Event>, code: Code)
    requires req.vol !in s.frames && Refused(s, u, req.vol, code)
    requires log != [] && CallLog(log, req) && u == Run(s, log)
    ensures Leaves(s, u, req, log, code, Keep)
  {
    hide Run; hide CallLog;
  }

  lemma {:induction false} FinishedCall(s: State, t: State, u: State, f: Frame, log: seq<Event>, code: Code, w: Write)
    requires Admitted(s, t, f) && Moved(t, u, f.req.vol, Done(code, w))
    requires log != [] && CallLog(log, f.req) && u == Run(s, log)
    ensures Leaves(s, u, f.req, log, code, w)
  {
    hide Written; hide Run; hide CallLog;
    assert t.frames - {f.req.vol} == s.frames;
  }

  lemma UnstageEnters(s: State, req: Request)
    requires req.call.Unstage? && req.vol !in s.frames
    ensures var t := Open(s, req.vol, Enter(EntryOf(s, req.vol), req));
      if req.vol.text == "" || req.staging.text == "" then Refused(s, t, req.vol, InvalidArgument)
      else if req.vol !in s.volMap then Refused(s, t, req.vol, OK)
      else
        var path := s.volMap[req.vol].ublkPath;
        Admitted(s, t, Frame(req, UmStat(UnstageUnmount), if path == NoDevPath then UblkByUUIDPath(req.vol) else path, true))
  {
  }

  /** A handled call is one of the runs that the state machine's theorems are about: it keeps the
      invariant, and the staging path of every filesystem volume stays sound. */
  lemma HandledCallsAreRuns(owner: Owner, plan: Plan, s: State, t: State, req: Request, log: seq<Event>, code: Code, v: VolId)
    requires Answers(s, t, req, log, code) && Inv(owner, s) && OwnedRequest(owner, req)
    requires Planned(plan, req) && !plan.block(v) && owner(plan.staging(v)) == v && Sound(plan, s, v)
    ensures Inv(owner, t) && Sound(plan, t, v)
    ensures Staged(t, v) && v !in t.frames ==> SoleMount(plan, t.host, v)
  {
    hide Inv; hide Sound; hide Run; hide Planned;
    CallIsPlanned(plan, s, log, req, v);
    InvRun(owner, s, log);
    SoundRun(owner, plan, s, log, v);
    StagedIsMounted(owner, plan, s, log, v);
  }

  lemma {:induction false} CallIsPlanned(plan: Plan, s: State, log: seq<Event>, req: Request, v: VolId)
    requires log != [] && CallLog(log, req) && Planned(plan, req)
    ensures PlannedRun(plan, s, log, v)
  {
    InsideIsPlanned(plan, Step(s, log[0]), log[1..], req.vol, v);
  }

  lemma {:induction false} InsideIsPlanned(plan: Plan, s: State, es: seq<Event>, w: VolId, v: VolId)
    requires forall i | 0 <= i < |es| :: Inside(es[i], w)
    ensures PlannedRun(plan, s, es, v)
    decreases |es|
  {
    hide Step;
    if es != [] {
      assert Inside(es[0], w);
      InsideIsPlanned(plan, Step(s, es[0]), es[1..], w, v);
    }
  }

  lemma StageEnters(s: State, req: Request)
    requires req.call.Stage? && req.vol !in s.frames
    ensures var t := Open(s, req.vol, Enter(EntryOf(s, req.vol), req));
      if req.vol.text == "" || req.staging.text == "" || req.cap.None? || Decimal.ParseInt64(req.size).None? then
        Refused(s, t, req.vol, InvalidArgument)
      else if req.vol in s.volMap && s.volMap[req.vol].ublkPath != NoDevPath then Refused(s, t, req.vol, OK)
      else Admitted(s, t, Frame(req, StartUblk, UblkByUUIDPath(req.vol), req.vol in s.volMap))
  {
    hide Decimal.ParseInt64;
  }

  lemma PublishEnters(s: State, req: Request)
    requires req.call.Publish? && req.vol !in s.frames
    ensures var t := Open(s, req.vol, Enter(EntryOf(s, req.vol), req));
      if req.vol.text == "" || req.target.text == "" || req.staging.text == "" then Refused(s, t, req.vol, InvalidArgument)
      else if req.vol !in s.volMap then Refused(s, t, req.vol, FailedPrecondition)
      else Admitted(s, t, Frame(req, if req.IsBlock() then MkdirParent else MkdirTarget, s.volMap[req.vol].ublkPath, true))
  {
  }

  lemma UnpublishEnters(s: State, req: Request)
    requires req.call.Unpublish? && req.vol !in s.frames
    ensures var t := Open(s, req.vol, Enter(EntryOf(s, req.vol), req));
      if req.vol.text == "" || req.target.text == "" then Refused(s, t, req.vol, InvalidArgument)
      else Admitted(s, t, Frame(req, UmStat(UnpublishUnmount), NoDevPath, req.vol in s.volMap))
  {
  }

  class NodeServer {
    const node: Node
    const host: HostSystem
    const ublkManager: UblkManager
    const mountManager: MountManager

    /** A new server on a host, with an empty map. */
    constructor (host: HostSystem)
      ensures fresh(node) && node.Valid() && node.entries == map[] && this.host == host && Wired()
    {
      this.host := host;
      node := new Node();
      ublkManager := new UblkManager(host);
      mountManager := new MountManager(host);
    }

    predicate Wired() {
      ublkManager.host == host && mountManager.host == host
    }

    /** The map is the one the machine has. */
    ghost predicate Valid()
      reads this, node, node.volMap.Values, host
    {
      && host.Valid() && Wired()
      && node.Valid() && node.entries == host.run.volMap
    }

    /** The call was handled: its steps are steps of the machine from where it was received, and
        the machine's answer is the handler's. */
    twostate predicate Handled(req: Request, code: Code)
      reads this, node, node.volMap.Values, host
    {
      && Valid() && host.call == req && host.start == old(host.run) && host.run.frames == old(host.run.frames)
      && Answers(old(host.run), host.run, req, host.log, code)
    }

    /** The part of NodeUnstageVolume that works on the host, without the lock. */
    method TakeDown(volumeID: VolId, stagingPath: Path, recorded: DevPath) returns (ok: bool)
      requires Wired() && host.At(UmStat(UnstageUnmount)) && volumeID == host.F().req.vol == host.call.vol
      requires stagingPath == host.F().req.staging
      requires host.F().dev == if recorded == NoDevPath then UblkByUUIDPath(volumeID) else recorded
      modifies host
      ensures host.Goes(if ok then Go(DropEntry) else Done(Internal, Keep)) && host.run.volMap == old(host.run.volMap)
    {
      hide Run; hide Moved; hide CallLog; hide Node.Valid;
      ghost var r0 := host.run;
      ok := mountManager.Unmount(stagingPath, UnstageUnmount);
      if !ok {
        MovedLast(r0, host.run, volumeID, Internal, Keep);
        return;
      }
      var ublkPath := recorded;
      if ublkPath == NoDevPath {
        ublkPath := UblkByUUIDPath(volumeID);
      }
      ghost var r1 := host.run;
      MovedOnce(r0, r1, volumeID, Delete(ublkPath, Teardown));
      var _ := ublkManager.DeleteUblkDevice(volumeID, ublkPath, Teardown);
      ghost var r2 := host.run;
      MovedTwice(r0, r1, r2, volumeID, Delete(ublkPath, Teardown), Go(UmStat(UnstageCleanup)));
      var _ := mountManager.CleanupMountPoint(stagingPath, UnstageCleanup);
      MovedTwice(r0, r2, host.run, volumeID, UmStat(UnstageCleanup), Go(DropEntry));
    }

    /** The write-locked end of NodeUnstageVolume. */
    method Forget(volumeID: VolId)
      requires host.At(DropEntry) && volumeID == host.call.vol && node.Valid() && node.entries == host.run.volMap
      modifies host, node
      ensures host.Goes(Done(OK, Drop)) && node.Valid() && node.entries == host.run.volMap
    {
      hide Run; hide CallLog; hide Moved; hide Node.Valid;
      ghost var r0 := host.run;
      node.Delete(volumeID);
      host.Think();
      MovedLast(r0, host.run, volumeID, OK, Drop);
    }

    /** NodeUnstageVolume from the unmount on. */
    method Detach(volumeID: VolId, stagingPath: Path, recorded: DevPath) returns (ok: bool)
      requires Wired() && host.At(UmStat(UnstageUnmount)) && volumeID == host.F().req.vol == host.call.vol
      requires stagingPath == host.F().req.staging && node.Valid() && node.entries == host.run.volMap
      requires host.F().dev == if recorded == NoDevPath then UblkByUUIDPath(volumeID) else recorded
      modifies host, node
      ensures host.Goes(if ok then Done(OK, Drop) else Done(Internal, Keep)) && node.Valid() && node.entries == host.run.volMap
    {
      hide Run; hide Moved; hide CallLog; hide Node.Valid; hide Written;
      ghost var r0 := host.run;
      ok := TakeDown(volumeID, stagingPath, recorded);
      if ok {
        ghost var r1 := host.run;
        MovedOnce(r0, r1, volumeID, DropEntry);
        Forget(volumeID);
        MovedTwice(r0, r1, host.run, volumeID, DropEntry, Done(OK, Drop));
      }
    }

    method NodeUnstageVolume(req: Request) returns (code: Code)
      requires Valid() && req.call.Unstage? && req.vol !in host.run.frames
      modifies host, node
      ensures Handled(req, code)
    {
      hide Run; hide Moved; hide CallLog; hide Answers; hide Open; hide Enter; hide Refused; hide Node.Valid;
      ghost var s := host.run;
      UnstageEnters(s, req);
      host.Receive(req);
      var volumeID, stagingPath := req.vol, req.staging;
      if volumeID.text == "" {
        RefusedCall(s, host.run, req, host.log, InvalidArgument);
        return InvalidArgument;
      }
      if stagingPath.text == "" {
        RefusedCall(s, host.run, req, host.log, InvalidArgument);
        return InvalidArgument;
      }
      var nodeVol := node.Lookup(volumeID);
      if nodeVol == null {
        RefusedCall(s, host.run, req, host.log, OK);
        return OK;
      }
      ghost var t, f := host.run, host.F();
      var ok := Detach(volumeID, stagingPath, nodeVol.ublkPath);
      code := if ok then OK else Internal;
      FinishedCall(s, t, host.run, f, host.log, code, if ok then Drop else Keep);
    }

    /** The part of NodeStageVolume that works on the host, up to where the entry can be made. */
    method SetUp(volumeID: VolId, stagingPath: Path, mode: VolumeMode, fsType: FsType) returns (ublkDevicePath: DevPath, ok: bool)
      requires Wired() && host.At(StartUblk)
      requires volumeID == host.F().req.vol == host.call.vol && host.F().dev == UblkByUUIDPath(volumeID)
      requires stagingPath == host.F().req.staging && fsType == host.F().req.FsType()
      requires mode == if host.F().req.IsBlock() then BLOCK_MODE else MOUNT_MODE
      modifies host
      ensures ok ==> ublkDevicePath == UblkByUUIDPath(volumeID)
      ensures host.Goes(if ok then Go(Insert) else Done(Internal, Keep))
    {
      hide Run; hide Moved; hide CallLog; hide Node.Valid;
      ghost var r0 := host.run;
      ublkDevicePath, ok := ublkManager.CreateUblkDevice(volumeID);
      if !ok {
        return;
      }
      if mode == MOUNT_MODE {
        ghost var r1 := host.run;
        MovedOnce(r0, r1, volumeID, MkdirStaging);
        ok := mountManager.FormatAndMountDevice(ublkDevicePath, stagingPath, fsType);
        ghost var r2, deletion := host.run, Delete(ublkDevicePath, MountFailed);
        MovedTwice(r0, r1, r2, volumeID, MkdirStaging, if ok then Go(Insert) else Go(deletion));
        if !ok {
          var _ := ublkManager.DeleteUblkDevice(volumeID, ublkDevicePath, MountFailed);
          MovedTwice(r0, r2, host.run, volumeID, deletion, Done(Internal, Keep));
        }
      }
    }

    method NodeStageVolume(req: Request) returns (code: Code)
      requires Valid() && req.call.Stage? && req.vol !in host.run.frames
      modifies host, node
      ensures Handled(req, code)
    {
      hide Run; hide Moved; hide CallLog; hide Answers; hide Open; hide Enter; hide Refused; hide Node.Valid; hide Parse;
      hide Decimal.ParseInt64;
      ghost var s := host.run;
      StageEnters(s, req);
      host.Receive(req);
      var volumeID, stagingPath := req.vol, req.staging;
      var size := Decimal.ParseInt64(req.size);
      if volumeID.text == "" || stagingPath.text == "" || req.cap.None? || size.None? {
        RefusedCall(s, host.run, req, host.log, InvalidArgument);
        return InvalidArgument;
      }
      var mode := if req.IsBlock() then BLOCK_MODE else MOUNT_MODE;
      var existing := node.Lookup(volumeID);
      if existing != null && existing.ublkPath != NoDevPath {
        RefusedCall(s, host.run, req, host.log, OK);
        return OK;
      }
      ghost var t, f := host.run, host.F();
      var ublkDevicePath, ok := SetUp(volumeID, stagingPath, mode, req.FsType());
      if !ok {
        FinishedCall(s, t, host.run, f, host.log, Internal, Keep);
        return Internal;
      }
      ghost var u := host.run;
      MovedOnce(t, u, volumeID, Insert);
      code := Enlist(volumeID, ublkDevicePath, mode, stagingPath);
      ghost var w := if code == OK then Put(StagedEntry(f)) else Keep;
      MovedTwice(t, u, host.run, volumeID, Insert, Done(code, w));
      FinishedCall(s, t, host.run, f, host.log, code, w);
    }

    /** The end of NodeStageVolume: a volume ID that parses gets its entry, any other loses its
        device again, but not its mount. */
    method Enlist(volumeID: VolId, ublkDevicePath: DevPath, mode: VolumeMode, stagingPath: Path) returns (code: Code)
      requires Wired() && node.Valid() && node.entries == host.run.volMap && host.At(Insert)
      requires volumeID == host.F().req.vol == host.call.vol && ublkDevicePath == host.F().dev
      requires stagingPath == host.F().req.staging && mode == if host.F().req.IsBlock() then BLOCK_MODE else MOUNT_MODE
      modifies host, node
      ensures code == if Parse(volumeID.text).Some? then OK else InvalidArgument
      ensures host.Goes(Done(code, if code == OK then Put(StagedEntry(old(host.F()))) else Keep))
      ensures node.Valid() && node.entries == host.run.volMap
    {
      hide Run; hide Moved; hide CallLog; hide Node.Valid; hide Parse;
      ghost var r0 := host.run;
      var volUUID := Parse(volumeID.text);
      if volUUID.None? {
        host.Think();
        ghost var r1, deletion := host.run, Delete(ublkDevicePath, BadVolumeId);
        MovedOnce(r0, r1, volumeID, deletion);
        var _ := ublkManager.DeleteUblkDevice(volumeID, ublkDevicePath, BadVolumeId);
        MovedTwice(r0, r1, host.run, volumeID, deletion, Done(InvalidArgument, Keep));
        return InvalidArgument;
      }
      var nodeVolume := new NodeVolume(volUUID, ublkDevicePath, mode, stagingPath);
      node.Insert(volumeID, nodeVolume);
      host.Think();
      MovedLast(r0, host.run, volumeID, OK, Put(nodeVolume.View()));
      return OK;
    }

    /** The part of NodePublishVolume that works on the host. */
    method BindTarget(device: DevPath, stagingPath: Path, targetPath: Path, block: bool) returns (ok: bool)
      requires Wired() && host.At(if block then MkdirParent else MkdirTarget) && block == host.F().req.IsBlock()
      requires device == host.F().dev && stagingPath == host.F().req.staging && targetPath == host.F().req.target
      modifies host
      ensures host.Goes(OrFail(RecordTarget, ok))
    {
      hide Run; hide Moved; hide CallLog; hide Node.Valid;
      if block {
        ghost var r0, v := host.run, host.call.vol;
        ok := host.MkdirParent(targetPath);
        if !ok {
          return;
        }
        ghost var r1 := host.run;
        MovedOnce(r0, r1, v, OpenTarget);
        ok := host.OpenOrCreate(targetPath);
        ghost var r2 := host.run;
        MovedTwice(r0, r1, r2, v, OpenTarget, OrFail(StatTarget, ok));
        if !ok {
          return;
        }
        ok := mountManager.BindRawBlock(device, targetPath);
        MovedTwice(r0, r2, host.run, v, StatTarget, OrFail(RecordTarget, ok));
      } else {
        ok := mountManager.BindMount(stagingPath, targetPath);
      }
    }

    /** The write-locked change of the target path in the entry that the call found. */
    method Record(volumeID: VolId, nodeVol: NodeVolume, target: Path)
      requires host.Valid() && host.InCall() && volumeID == host.call.vol && node.Valid() && node.entries == host.run.volMap
      requires (host.F().pc.RecordTarget? && target == host.F().req.target) || (host.F().pc.ClearTarget? && target == NO_PATH)
      requires volumeID in node.volMap && nodeVol == node.volMap[volumeID]
      modifies host, node`entries, nodeVol
      ensures host.Goes(Done(OK, SetTarget(target))) && node.Valid() && node.entries == host.run.volMap
    {
      hide Run; hide CallLog; hide Moved; hide Node.Valid;
      ghost var r0 := host.run;
      node.SetTarget(volumeID, nodeVol, target);
      host.Think();
      MovedLast(r0, host.run, volumeID, OK, SetTarget(target));
    }

    method NodePublishVolume(req: Request) returns (code: Code)
      requires Valid() && req.call.Publish? && req.vol !in host.run.frames
      modifies host, node, node.volMap.Values
      ensures Handled(req, code)
    {
      hide Run; hide Moved; hide CallLog; hide Answers; hide Open; hide Enter; hide Refused; hide Node.Valid;
      ghost var s := host.run;
      PublishEnters(s, req);
      host.Receive(req);
      var volumeID, targetPath, stagingPath := req.vol, req.target, req.staging;
      if volumeID.text == "" || targetPath.text == "" || stagingPath.text == "" {
        RefusedCall(s, host.run, req, host.log, InvalidArgument);
        return InvalidArgument;
      }
      var nodeVol := node.Lookup(volumeID);
      if nodeVol == null {
        RefusedCall(s, host.run, req, host.log, FailedPrecondition);
        return FailedPrecondition;
      }
      ghost var t, f := host.run, host.F();
      var ok := BindTarget(nodeVol.ublkPath, stagingPath, targetPath, req.IsBlock());
      if !ok {
        FinishedCall(s, t, host.run, f, host.log, Internal, Keep);
        return Internal;
      }
      ghost var u := host.run;
      MovedOnce(t, u, volumeID, RecordTarget);
      Record(volumeID, nodeVol, targetPath);
      MovedTwice(t, u, host.run, volumeID, RecordTarget, Done(OK, SetTarget(targetPath)));
      FinishedCall(s, t, host.run, f, host.log, OK, SetTarget(targetPath));
      return OK;
    }

    /** What is at the target tells a block volume's file from a directory, and it is removed either way. */
    method RemoveTarget(targetPath: Path)
      requires Wired() && host.At(StatMode) && targetPath == host.F().req.target
      modifies host
      ensures host.Goes(Go(ClearTarget))
    {
      hide Run; hide Moved; hide CallLog;
      ghost var r0, v := host.run, host.call.vol;
      var info := host.Stat(targetPath);
      ghost var r1 := host.run;
      var isDir := info == Exists(true);
      if !isDir {
        MovedOnce(r0, r1, v, RemovePath(UnpublishCleanup));
        var _ := host.Remove(targetPath);
        MovedTwice(r0, r1, host.run, v, RemovePath(UnpublishCleanup), Go(ClearTarget));
      } else {
        MovedOnce(r0, r1, v, UmStat(UnpublishCleanup));
        var _ := mountManager.CleanupMountPoint(targetPath, UnpublishCleanup);
        MovedTwice(r0, r1, host.run, v, UmStat(UnpublishCleanup), Go(ClearTarget));
      }
    }

    /** The end of NodeUnpublishVolume, for a volume that the map has. */
    method Withdraw(volumeID: VolId, nodeVol: NodeVolume, targetPath: Path)
      requires Wired() && host.At(StatMode) && targetPath == host.F().req.target && volumeID == host.call.vol
      requires node.Valid() && node.entries == host.run.volMap && volumeID in node.volMap && nodeVol == node.volMap[volumeID]
      modifies host, node`entries, nodeVol
      ensures host.Goes(Done(OK, SetTarget(NO_PATH))) && node.Valid() && node.entries == host.run.volMap
    {
      hide Run; hide Moved; hide CallLog; hide Node.Valid; hide Written;
      ghost var r0 := host.run;
      RemoveTarget(targetPath);
      ghost var r1 := host.run;
      MovedOnce(r0, r1, volumeID, ClearTarget);
      Record(volumeID, nodeVol, NO_PATH);
      MovedTwice(r0, r1, host.run, volumeID, ClearTarget, Done(OK, SetTarget(NO_PATH)));
    }

    /** The first unmount, after which a volume that the map does not have is done with. */
    method UnmountTarget(targetPath: Path) returns (ok: bool)
      requires Wired() && host.At(UmStat(UnpublishUnmount)) && targetPath == host.F().req.target
      modifies host
      ensures host.Goes(if !ok then Done(Internal, Keep) else if old(host.F()).known then Go(StatMode) else Done(OK, Keep))
      ensures host.run.volMap == old(host.run.volMap)
    {
      ok := mountManager.Unmount(targetPath, UnpublishUnmount);
    }

    /** What NodeUnpublishVolume writes to the map: it forgets the target of a volume that is there. */
    static ghost function Forgotten(known: bool, ok: bool): Write {
      if ok && known then SetTarget(NO_PATH) else Keep
    }

    /** NodeUnpublishVolume from the unmount on, with what its look at the map found. */
    method Retract(volumeID: VolId, nodeVol: NodeVolume?, targetPath: Path) returns (ok: bool)
      requires Wired() && host.At(UmStat(UnpublishUnmount)) && targetPath == host.F().req.target && volumeID == host.call.vol
      requires node.Valid() && node.entries == host.run.volMap && host.F().known == (nodeVol != null)
      requires nodeVol != null ==> volumeID in node.volMap && nodeVol == node.volMap[volumeID]
      modifies host, node`entries, node.volMap.Values
      ensures host.Goes(Done(if ok then OK else Internal, Forgotten(nodeVol != null, ok)))
      ensures node.Valid() && node.entries == host.run.volMap
    {
      hide Run; hide Moved; hide CallLog; hide Node.Valid; hide Written;
      ghost var r0 := host.run;
      ok := UnmountTarget(targetPath);
      if ok && nodeVol != null {
        ghost var r1 := host.run;
        MovedOnce(r0, r1, volumeID, StatMode);
        Withdraw(volumeID, nodeVol, targetPath);
        MovedTwice(r0, r1, host.run, volumeID, StatMode, Done(OK, SetTarget(NO_PATH)));
      }
    }

    method NodeUnpublishVolume(req: Request) returns (code: Code)
      requires Valid() && req.call.Unpublish? && req.vol !in host.run.frames
      modifies host, node, node.volMap.Values
      ensures Handled(req, code)
    {
      hide Run; hide Moved; hide CallLog; hide Answers; hide Open; hide Enter; hide Refused; hide Node.Valid;
      ghost var s := host.run;
      UnpublishEnters(s, req);
      host.Receive(req);
      var volumeID, targetPath := req.vol, req.target;
      if volumeID.text == "" || targetPath.text == "" {
        RefusedCall(s, host.run, req, host.log, InvalidArgument);
        return InvalidArgument;
      }
      var nodeVol := node.Lookup(volumeID);
      ghost var t, f := host.run, host.F();
      var ok := Retract(volumeID, nodeVol, targetPath);
      code := if ok then OK else Internal;
      FinishedCall(s, t, host.run, f, host.log, code, Forgotten(nodeVol != null, ok));
    }
  }

  /** A node plugin starts, perhaps after another one died on this host: the machine's restart. */
  method Boot(host: HostSystem, config: ConfigManager, listed: Option<seq<VolId>>) returns (server: NodeServer)
    requires host.Valid()
    modifies host
    ensures fresh(server) && server.host == host && server.Valid()
    ensures host.run == Step(old(host.run), Restart(listed))
  {
    hide Run; hide CallLog; hide Recover; hide Node.Valid;
    server := new NodeServer(host);
    var _ := config.UpdateNodeVolumeMap(server.node, host.st, listed);
    host.Reboot(listed);
  }
}
