/** What each of the four calls does when the host's operations succeed. */
module CleanCalls {
  import opened Uuid
  import opened Types
  import opened HostModel
  import opened Machine
  import opened Effects
  import opened Invariant
  import opened Views
  import opened Delivery
  import Decimal

  // Calls whose operations succeed

  /** Nothing goes wrong for v: steps of its call succeed, with a true answer from blkid and the wait
      not given up; its device comes up only while a call waits for it, its link goes only once its
      unit was stopped, and its daemon does not die.  What other volumes do is all the same. */
  predicate Clean(s: State, e: Event, v: VolId) {
    if e.Restart? then false
    else if VolOf(e) != v then true
    else
      match e
      case Begin(_) => v !in s.frames
      case Op(_, o) => o.ok && o.probe.Truth? && (v in s.frames && s.frames[v].pc.WaitLink? ==> Linked(s.host, v))
      case DaemonUp(_, _) => !Live(s.host, v) || (v in s.frames && s.frames[v].pc.WaitLink? && !Linked(s.host, v))
      case LinkLost(_) => !Linked(s.host, v) || (v in s.frames && s.frames[v].pc.DelRun?)
      case DaemonDied(_) => !Live(s.host, v)
  }

  predicate CleanRun(s: State, es: seq<Event>, v: VolId)
    decreases |es|
  {
    es == [] || (Clean(s, es[0], v) && CleanRun(Step(s, es[0]), es[1..], v))
  }

  /** A device of v is up on h that was not on c. */
  predicate Booted(c: Host, h: Host, v: VolId) {
    var link := UblkByUUIDPath(v);
    && h.units == c.units + {UblkUnitName(v)}
    && link in h.links && h.links[link] !in c.minors
    && h.minors == c.minors[h.links[link] := v]
    && h.links == c.links[link := h.links[link]]
  }

  /** A device of v is up, and no other link points at its minor. */
  ghost predicate Up(h: Host, v: VolId) {
    var link := UblkByUUIDPath(v);
    && Live(h, v) && Linked(h, v)
    && h.links[link] in h.minors && h.minors[h.links[link]] == v
    && forall d | d in h.links && d != link :: h.links[d] != h.links[link]
  }

  /** The device of v that was up on c is gone on h. */
  predicate TornDown(c: Host, h: Host, v: VolId) {
    && Linked(c, v)
    && h.units == c.units - {UblkUnitName(v)}
    && h.minors == c.minors - {c.links[UblkByUUIDPath(v)]}
    && h.links == c.links - {UblkByUUIDPath(v)}
  }

  /** Between c and h only the path p changed, to these layers on this kind of path. */
  ghost predicate OnlyPath(c: Host, h: Host, p: Path, layers: seq<Layer>, kind: Kind) {
    SamePathsBut(c, h, p) && Layers(h, p) == layers && KindOf(h, p) == kind
  }

  /** Only v's filesystem may have been written, and only if there was none. */
  ghost predicate FsGiven(c: Host, h: Host, req: Request) {
    && (forall w | w != req.vol :: FsOn(h, w) == FsOn(c, w))
    && FsOn(h, req.vol) == if FsOn(c, req.vol) == NoFs then req.FsType() else FsOn(c, req.vol)
  }

  // NodeStageVolume

  /** Nothing of the volume is there yet, and nothing is mounted at the staging path, which may be
      there or not; on the device is no filesystem or a supported one. */
  predicate StageReady(c: Host, req: Request) {
    var v, p := req.vol, req.staging;
    && !Live(c, v) && !Linked(c, v)
    && Layers(c, p) == []
    && (!req.IsBlock() ==>
          KindOf(c, p) != File && req.FsType().Supported() && (FsOn(c, v) == NoFs || FsOn(c, v).Supported()))
  }

  /** What a stage leaves on the device and at the staging path. */
  ghost predicate StagedPaths(c: Host, h: Host, req: Request) {
    if req.IsBlock() then h.fs == c.fs && SamePaths(c, h)
    else FsGiven(c, h, req) && OnlyPath(c, h, req.staging, [Device(req.vol, FsOn(h, req.vol))], Dir)
  }

  ghost predicate StagedHost(c: Host, h: Host, req: Request) {
    Booted(c, h, req.vol) && StagedPaths(c, h, req)
  }

  /** A stage that has found its volume ID unparsable has stopped the unit again. */
  ghost predicate Stopped(c: Host, h: Host, v: VolId, id: nat) {
    && h.units == c.units && id !in c.minors && h.minors == c.minors[id := v]
    && (h.links == c.links || h.links == c.links[UblkByUUIDPath(v) := id])
  }

  ghost predicate StageAt(c: Host, h: Host, f: Frame) {
    var v, req := f.req.vol, f.req;
    && f.dev == UblkByUUIDPath(v)
    && (InDelete(f.pc) ==> f.pc.why.BadVolumeId? && Parse(v.text).None?)
    && match f.pc
       case StartUblk => h == c
       case WaitLink => h == c.(units := c.units + {UblkUnitName(v)}) || (Booted(c, h, v) && h.fs == c.fs && SamePaths(c, h))
       case Insert => StagedHost(c, h, req)
       case DelResolve(_) => StagedHost(c, h, req)
       case DelStop(_, id) => StagedHost(c, h, req) && id == Some(h.links[UblkByUUIDPath(v)])
       case DelRun(_, id) => Stopped(c, h, v, id) && StagedPaths(c, h, req)
       case MkdirStaging => !req.IsBlock() && Booted(c, h, v) && h.fs == c.fs && SamePaths(c, h)
       case _ =>
         && InMount(f.pc) && !req.IsBlock() && Booted(c, h, v) && OnlyPath(c, h, req.staging, [], Dir)
         && (if f.pc.CheckStaging? || f.pc.MountStaging? then FsGiven(c, h, req) && f.pc.fsType == FsOn(h, v) else h.fs == c.fs)
         && (f.pc.Format? ==> FsOn(c, v) == NoFs)
  }

  /** What a stage does to the host: one whose volume ID does not parse takes its device down again,
      but leaves the mount. */
  ghost predicate StageLeaves(c: Host, h: Host, req: Request) {
    if Parse(req.vol.text).Some? then StagedHost(c, h, req) else SameDevices(c, h) && StagedPaths(c, h, req)
  }

  /** And to the map: only a volume ID that parses gets an entry. */
  predicate StageWrites(req: Request, code: Code, w: Write) {
    if Parse(req.vol.text).Some? then code == OK && w.Put? && w.entry.ublkPath == UblkByUUIDPath(req.vol)
    else code == InvalidArgument && w.Keep?
  }

  ghost predicate StageMove(c: Host, f: Frame, m: Move) {
    if m.next.Go? then StageAt(c, m.host, f.(pc := m.next.pc))
    else StageLeaves(c, m.host, f.req) && StageWrites(f.req, m.next.code, m.next.write)
  }

  predicate CleanOutcome(h: Host, f: Frame, o: Outcome) {
    o.ok && o.probe.Truth? && (f.pc.WaitLink? ==> Linked(h, f.req.vol))
  }

  lemma BackingUp(c: Host, h: Host, v: VolId)
    requires Booted(c, h, v)
    ensures Backing(h, UblkByUUIDPath(v)) == Some(v)
  {
  }

  lemma StageCreates(c: Host, h: Host, f: Frame, o: Outcome)
    requires StageReady(c, f.req) && StageAt(c, h, f) && InCreate(f.pc) && CleanOutcome(h, f, o)
    ensures StageMove(c, f, CreateMove(h, f, o))
  {
  }

  lemma StagePrepares(c: Host, h: Host, f: Frame, o: Outcome)
    requires StageReady(c, f.req) && StageAt(c, h, f) && CleanOutcome(h, f, o)
    requires f.pc.MkdirStaging? || f.pc.ProbeCompat? || f.pc.ProbeExisting?
    ensures StageMove(c, f, MountMove(h, f, o))
  {
    hide Backing; hide Mkfs; hide IsMountPoint; hide MountDevice; hide Parse; hide Stopped;
    BackingUp(c, h, f.req.vol);
  }

  lemma StageFormats(c: Host, h: Host, f: Frame, o: Outcome)
    requires StageReady(c, f.req) && StageAt(c, h, f) && CleanOutcome(h, f, o) && f.pc.Format?
    ensures StageMove(c, f, MountMove(h, f, o))
  {
    BackingUp(c, h, f.req.vol);
    hide Backing; hide Stat; hide Layers; hide KindOf; hide StageReady;
    assert StageReady(c, f.req) && !f.req.IsBlock();
  }

  lemma StageMounts(c: Host, h: Host, f: Frame, o: Outcome)
    requires StageReady(c, f.req) && StageAt(c, h, f) && CleanOutcome(h, f, o)
    requires f.pc.CheckStaging? || f.pc.MountStaging?
    ensures StageMove(c, f, MountMove(h, f, o))
  {
    BackingUp(c, h, f.req.vol);
    hide Backing;
  }

  lemma StageInserts(c: Host, h: Host, f: Frame, o: Outcome)
    requires StageAt(c, h, f) && f.pc.Insert?
    ensures StageMove(c, f, MountMove(h, f, o))
  {
    hide Parse; hide StagedHost;
  }

  lemma StageDeletes(c: Host, h: Host, f: Frame, o: Outcome)
    requires LinksBacked(c) && StageReady(c, f.req) && StageAt(c, h, f) && o.ok && f.pc.DelRun?
    ensures StageMove(c, f, DeleteMove(h, f, o))
  {
    hide Parse; hide StagedPaths; hide Layers; hide KindOf; hide FsOn; hide Booted;
    var k := DeleteMove(h, f, o).host;
    DeleteTouches(h, f, o);
    SamePathsStaged(c, h, k, f.req);
    assert c.minors[f.pc.minor := f.req.vol] - {f.pc.minor} == c.minors;
    assert k.links == c.links;
  }

  lemma StageTakesDown(c: Host, h: Host, f: Frame, o: Outcome)
    requires LinksBacked(c) && StageReady(c, f.req) && StageAt(c, h, f) && o.ok && InDelete(f.pc)
    ensures StageMove(c, f, DeleteMove(h, f, o))
  {
    hide Parse; hide StagedPaths; hide Layers; hide KindOf; hide FsOn; hide LinksBacked; hide DeleteMinor;
    if f.pc.DelRun? {
      StageDeletes(c, h, f, o);
    } else {
      var v := f.req.vol;
      DeleteTouches(h, f, o);
      SamePathsStaged(c, h, DeleteMove(h, f, o).host, f.req);
      assert c.units + {UblkUnitName(v)} - {UblkUnitName(v)} == c.units;
    }
  }

  lemma SamePathsStaged(c: Host, h: Host, k: Host, req: Request)
    requires StagedPaths(c, h, req) && SamePaths(h, k) && k.fs == h.fs
    ensures StagedPaths(c, k, req)
  {
  }

  lemma StageGoes(c: Host, h: Host, f: Frame, o: Outcome)
    requires LinksBacked(c) && StageReady(c, f.req) && StageAt(c, h, f) && CleanOutcome(h, f, o)
    ensures StageMove(c, f, Act(h, f, o))
  {
    hide StageReady; hide StageMove; hide CreateMove; hide MountMove; hide DeleteMove; hide Parse; hide LinksBacked;
    if InCreate(f.pc) { StageCreates(c, h, f, o); }
    else if f.pc.Format? { StageFormats(c, h, f, o); }
    else if f.pc.CheckStaging? || f.pc.MountStaging? { StageMounts(c, h, f, o); }
    else if f.pc.Insert? { StageInserts(c, h, f, o); }
    else if InDelete(f.pc) { StageTakesDown(c, h, f, o); }
    else { StagePrepares(c, h, f, o); }
  }

  // NodePublishVolume

  /** Only what is on v's device may differ, and nothing here. */
  ghost predicate SameStore(c: Host, h: Host) {
    SameDevices(c, h) && h.fs == c.fs
  }

  predicate PublishReady(c: Host, req: Request) {
    && Backing(c, UblkByUUIDPath(req.vol)) == Some(req.vol)
    && Layers(c, req.target) == [] && KindOf(c, req.target) == Absent && req.target != req.staging
    && (!req.IsBlock() ==> Layers(c, req.staging) != [])
  }

  /** What the target of a publication shows, and on what it is mounted. */
  function Shown(c: Host, req: Request): Layer
    requires !req.IsBlock() ==> Layers(c, req.staging) != []
  {
    if req.IsBlock() then Raw(req.vol) else Layers(c, req.staging)[|Layers(c, req.staging)| - 1]
  }

  function TargetKind(req: Request): Kind {
    if req.IsBlock() then File else Dir
  }

  ghost predicate PublishedHost(c: Host, h: Host, req: Request)
    requires PublishReady(c, req)
  {
    SameStore(c, h) && OnlyPath(c, h, req.target, [Shown(c, req)], TargetKind(req))
  }

  ghost predicate PublishAt(c: Host, h: Host, f: Frame)
    requires PublishReady(c, f.req)
  {
    && f.dev == UblkByUUIDPath(f.req.vol) && InPublish(f.pc)
    && match f.pc
       case MkdirParent => h == c && f.req.IsBlock()
       case OpenTarget => h == c && f.req.IsBlock()
       case MkdirTarget => h == c && !f.req.IsBlock()
       case RecordTarget => PublishedHost(c, h, f.req)
       case _ => SameStore(c, h) && OnlyPath(c, h, f.req.target, [], TargetKind(f.req))
  }

  ghost predicate PublishMoveOk(c: Host, f: Frame, m: Move)
    requires PublishReady(c, f.req)
  {
    if m.next.Go? then PublishAt(c, m.host, f.(pc := m.next.pc))
    else m.next.code == OK && PublishedHost(c, m.host, f.req) && m.next.write == SetTarget(f.req.target)
  }

  lemma PublishBinds(c: Host, h: Host, f: Frame, o: Outcome)
    requires PublishReady(c, f.req) && PublishAt(c, h, f) && o.ok && f.pc.BindTarget?
    ensures PublishMoveOk(c, f, PublishMove(h, f, o))
  {
    hide Stat; hide MkdirAll; hide OpenOrCreate; hide IsMountPoint;
    assert Backing(h, f.dev) == Backing(c, f.dev);
    assert f.req.staging != f.req.target;
    assert Layers(h, f.req.staging) == Layers(c, f.req.staging);
  }

  lemma PublishCreates(c: Host, h: Host, f: Frame, o: Outcome)
    requires PublishReady(c, f.req) && PublishAt(c, h, f) && o.ok && (f.pc.OpenTarget? || f.pc.MkdirTarget?)
    ensures PublishMoveOk(c, f, PublishMove(h, f, o))
  {
    hide Backing; hide BindDevice; hide BindPath; hide IsMountPoint;
  }

  lemma PublishChecks(c: Host, h: Host, f: Frame, o: Outcome)
    requires PublishReady(c, f.req) && PublishAt(c, h, f) && o.ok
    requires !f.pc.BindTarget? && !f.pc.OpenTarget? && !f.pc.MkdirTarget?
    ensures PublishMoveOk(c, f, PublishMove(h, f, o))
  {
    hide Backing; hide BindDevice; hide BindPath; hide OpenOrCreate; hide MkdirAll;
  }

  lemma PublishGoes(c: Host, h: Host, f: Frame, o: Outcome)
    requires PublishReady(c, f.req) && PublishAt(c, h, f) && o.ok
    ensures PublishMoveOk(c, f, Act(h, f, o))
  {
    hide PublishReady; hide PublishMoveOk; hide PublishMove; hide SameStore; hide OnlyPath; hide PublishedHost;
    if f.pc.BindTarget? { PublishBinds(c, h, f, o); }
    else if f.pc.OpenTarget? || f.pc.MkdirTarget? { PublishCreates(c, h, f, o); }
    else { PublishChecks(c, h, f, o); }
  }

  // NodeUnpublishVolume

  predicate UnpublishReady(c: Host, req: Request) {
    var layers := Layers(c, req.target);
    |layers| == 1 && KindOf(c, req.target) == if layers[0].Raw? then File else Dir
  }

  ghost predicate UnpublishedHost(c: Host, h: Host, req: Request) {
    SameStore(c, h) && OnlyPath(c, h, req.target, [], Absent)
  }

  ghost predicate UnpublishAt(c: Host, h: Host, f: Frame) {
    var p := f.req.target;
    var cleaning := SameStore(c, h) && OnlyPath(c, h, p, [], Dir) && KindOf(c, p) == Dir;
    f.known
    && match f.pc
       case UmStat(at) => if at.UnpublishUnmount? then h == c else at.UnpublishCleanup? && cleaning
       case UmCheck(at) => if at.UnpublishUnmount? then h == c else at.UnpublishCleanup? && cleaning
       case UmUnmount(at) => at.UnpublishUnmount? && h == c
       case StatMode => SameStore(c, h) && OnlyPath(c, h, p, [], KindOf(c, p))
       case RemovePath(at) => at.UnpublishCleanup? && SameStore(c, h) && OnlyPath(c, h, p, [], KindOf(c, p))
       case ClearTarget => UnpublishedHost(c, h, f.req)
       case _ => false
  }

  ghost predicate UnpublishMoveOk(c: Host, f: Frame, m: Move) {
    if m.next.Go? then UnpublishAt(c, m.host, f.(pc := m.next.pc))
    else m.next.code == OK && UnpublishedHost(c, m.host, f.req) && m.next.write == SetTarget(NO_PATH)
  }

  lemma UnpublishUnmounts(c: Host, h: Host, f: Frame, o: Outcome)
    requires UnpublishReady(c, f.req) && UnpublishAt(c, h, f) && o.ok
    requires (f.pc.UmStat? || f.pc.UmCheck? || f.pc.UmUnmount?) && f.pc.at.UnpublishUnmount?
    ensures UnpublishMoveOk(c, f, UnmountMove(h, f, o))
  {
    hide Remove; hide AfterRemove;
  }

  lemma UnpublishCleansUp(c: Host, h: Host, f: Frame, o: Outcome)
    requires UnpublishReady(c, f.req) && UnpublishAt(c, h, f) && o.ok
    requires f.pc.UmStat? || f.pc.UmCheck? || f.pc.UmUnmount? ==> !f.pc.at.UnpublishUnmount?
    ensures UnpublishMoveOk(c, f, UnmountMove(h, f, o))
  {
    hide UnmountTop;
  }

  lemma UnpublishGoes(c: Host, h: Host, f: Frame, o: Outcome)
    requires UnpublishReady(c, f.req) && UnpublishAt(c, h, f) && o.ok
    ensures UnpublishMoveOk(c, f, Act(h, f, o))
  {
    hide UnpublishReady; hide UnpublishMoveOk; hide UnmountMove; hide OnlyPath; hide SameStore; hide UnpublishedHost;
    if (f.pc.UmStat? || f.pc.UmCheck? || f.pc.UmUnmount?) && f.pc.at.UnpublishUnmount? {
      UnpublishUnmounts(c, h, f, o);
    } else {
      UnpublishCleansUp(c, h, f, o);
    }
  }

  // NodeUnstageVolume

  /** The volume's device is up, and at most one mount is at the staging path. */
  ghost predicate UnstageReady(c: Host, req: Request) {
    Up(c, req.vol) && |Layers(c, req.staging)| <= 1
  }

  ghost predicate UnstagedHost(c: Host, h: Host, req: Request) {
    TornDown(c, h, req.vol) && h.fs == c.fs && OnlyPath(c, h, req.staging, [], Absent)
  }

  ghost predicate UnstageAt(c: Host, h: Host, f: Frame) {
    var v, p := f.req.vol, f.req.staging;
    var unmounted := OnlyPath(c, h, p, [], KindOf(c, p)) && h.fs == c.fs;
    f.dev == UblkByUUIDPath(v) && Linked(c, v)
    && match f.pc
       case UmStat(at) => if at.UnstageUnmount? then h == c else at.UnstageCleanup? && unmounted && TornDown(c, h, v)
       case UmCheck(at) =>
         if at.UnstageUnmount? then h == c else at.UnstageCleanup? && unmounted && TornDown(c, h, v) && KindOf(c, p) != Absent
       case UmUnmount(at) => at.UnstageUnmount? && h == c && Layers(c, p) != []
       case DelResolve(why) => why.Teardown? && unmounted && SameDevices(c, h)
       case DelStop(why, id) => why.Teardown? && unmounted && SameDevices(c, h) && id == Some(c.links[UblkByUUIDPath(v)])
       case DelRun(why, id) =>
         && why.Teardown? && unmounted && id == c.links[UblkByUUIDPath(v)]
         && h.units == c.units - {UblkUnitName(v)} && h.minors == c.minors
         && (h.links == c.links || h.links == c.links - {UblkByUUIDPath(v)})
       case RemovePath(at) => at.UnstageCleanup? && unmounted && TornDown(c, h, v)
       case DropEntry => UnstagedHost(c, h, f.req)
       case _ => false
  }

  ghost predicate UnstageMoveOk(c: Host, f: Frame, m: Move) {
    if m.next.Go? then UnstageAt(c, m.host, f.(pc := m.next.pc))
    else m.next.code == OK && UnstagedHost(c, m.host, f.req) && m.next.write.Drop?
  }

  lemma UnstageDeletes(c: Host, h: Host, f: Frame, o: Outcome)
    requires UnstageReady(c, f.req) && UnstageAt(c, h, f) && o.ok && InDelete(f.pc)
    ensures UnstageMoveOk(c, f, DeleteMove(h, f, o))
  {
    hide Layers; hide KindOf;
    DeleteTouches(h, f, o);
    if f.pc.DelRun? { assert DeleteMinor(h, f.pc.minor, o).host.links == c.links - {UblkByUUIDPath(f.req.vol)}; }
    MountsGiveLayers(h, DeleteMove(h, f, o).host);
  }

  lemma MountsGiveLayers(h: Host, k: Host)
    requires SamePaths(h, k)
    ensures forall q :: Layers(k, q) == Layers(h, q) && KindOf(k, q) == KindOf(h, q)
  {
  }

  /** The first unmount of an unstage, and the cleanup at its end. */
  predicate FirstUnmount(pc: PC) {
    (pc.UmStat? || pc.UmCheck? || pc.UmUnmount?) && pc.at.UnstageUnmount?
  }

  lemma UnstageUnmounts(c: Host, h: Host, f: Frame, o: Outcome)
    requires UnstageReady(c, f.req) && UnstageAt(c, h, f) && o.ok && FirstUnmount(f.pc)
    ensures UnstageMoveOk(c, f, UnmountMove(h, f, o))
  {
    hide Up; hide TornDown; hide Remove; hide AfterRemove;
  }

  lemma UnstageCleansUp(c: Host, h: Host, f: Frame, o: Outcome)
    requires UnstageReady(c, f.req) && UnstageAt(c, h, f) && o.ok && !InDelete(f.pc) && !FirstUnmount(f.pc)
    ensures UnstageMoveOk(c, f, UnmountMove(h, f, o))
  {
    hide Up; hide UnmountTop;
  }

  lemma UnstageGoes(c: Host, h: Host, f: Frame, o: Outcome)
    requires UnstageReady(c, f.req) && UnstageAt(c, h, f) && o.ok
    ensures UnstageMoveOk(c, f, Act(h, f, o))
  {
    hide UnstageReady; hide UnstageMoveOk; hide UnmountMove; hide DeleteMove; hide OnlyPath; hide TornDown;
    hide UnstagedHost;
    if InDelete(f.pc) { UnstageDeletes(c, h, f, o); }
    else if FirstUnmount(f.pc) { UnstageUnmounts(c, h, f, o); }
    else { UnstageCleansUp(c, h, f, o); }
  }

  // Whole calls

  ghost predicate CallReady(c: State, req: Request) {
    var v := req.vol;
    && v !in c.frames && ValidRequest(req)
    && (if req.call.Stage? then v !in c.volMap else v in c.volMap && c.volMap[v].ublkPath == UblkByUUIDPath(v))
    && match req.call
       case Stage => StageReady(c.host, req) && LinksBacked(c.host)
       case Unstage => UnstageReady(c.host, req)
       case Publish => PublishReady(c.host, req)
       case Unpublish => UnpublishReady(c.host, req)
  }

  /** How such a call is answered. */
  function AnswerOf(req: Request): Code {
    if req.call.Stage? && Parse(req.vol.text).None? then InvalidArgument else OK
  }

  ghost predicate At(c: State, h: Host, f: Frame)
    requires CallReady(c, f.req)
  {
    match f.req.call
    case Stage => StageAt(c.host, h, f)
    case Unstage => UnstageAt(c.host, h, f)
    case Publish => PublishAt(c.host, h, f)
    case Unpublish => UnpublishAt(c.host, h, f)
  }

  /** What such a call does to the host. */
  ghost predicate HostAfter(c: State, h: Host, req: Request)
    requires CallReady(c, req)
  {
    match req.call
    case Stage => StageLeaves(c.host, h, req)
    case Unstage => UnstagedHost(c.host, h, req)
    case Publish => PublishedHost(c.host, h, req)
    case Unpublish => UnpublishedHost(c.host, h, req)
  }

  predicate WriteOk(req: Request, w: Write) {
    match req.call
    case Stage => StageWrites(req, AnswerOf(req), w)
    case Unstage => w.Drop?
    case Publish => w == SetTarget(req.target)
    case Unpublish => w == SetTarget(NO_PATH)
  }

  ghost predicate MoveOk(c: State, f: Frame, m: Move)
    requires CallReady(c, f.req)
  {
    if m.next.Go? then At(c, m.host, f.(pc := m.next.pc))
    else m.next.code == AnswerOf(f.req) && HostAfter(c, m.host, f.req) && WriteOk(f.req, m.next.write)
  }

  /** And to the map: only the volume's own entry may have changed. */
  predicate MapAfter(c: State, volMap: map<VolId, Entry>, req: Request) {
    var v := req.vol;
    && volMap - {v} == c.volMap - {v}
    && (if req.call.Unstage? || AnswerOf(req) != OK then v !in volMap
        else v in volMap && volMap[v].ublkPath == UblkByUUIDPath(v))
  }

  /** The call that found state c is over. */
  ghost predicate Ended(c: State, t: State, req: Request)
    requires CallReady(c, req)
  {
    && t.frames == c.frames && Replies(t, req.vol) == Replies(c, req.vol) + [AnswerOf(req)]
    && HostAfter(c, t.host, req) && MapAfter(c, t.volMap, req)
  }

  ghost predicate Underway(c: State, s: State, req: Request)
    requires CallReady(c, req)
  {
    var v := req.vol;
    if v in s.frames then
      && s.frames[v].req == req && s.frames - {v} == c.frames && s.replies == c.replies && s.volMap == c.volMap
      && At(c, s.host, s.frames[v])
    else Ended(c, s, req)
  }

  lemma CallGoes(c: State, h: Host, f: Frame, o: Outcome)
    requires CallReady(c, f.req) && At(c, h, f) && CleanOutcome(h, f, o)
    ensures MoveOk(c, f, Act(h, f, o))
  {
    hide Act; hide Parse; hide StageReady; hide PublishReady; hide UnpublishReady; hide UnstageReady;
    hide StageAt; hide PublishAt; hide UnpublishAt; hide UnstageAt;
    hide StageLeaves; hide PublishedHost; hide UnpublishedHost; hide UnstagedHost; hide LinksBacked;
    match f.req.call
    case Stage => StageGoes(c.host, h, f, o);
    case Unstage => UnstageGoes(c.host, h, f, o);
    case Publish => PublishGoes(c.host, h, f, o);
    case Unpublish => UnpublishGoes(c.host, h, f, o);
  }

  lemma WriteGivesMap(c: State, req: Request, w: Write)
    requires CallReady(c, req) && WriteOk(req, w)
    ensures MapAfter(c, Written(c.volMap, req.vol, w), req)
  {
    hide ValidRequest; hide Parse; hide StageReady; hide PublishReady; hide UnpublishReady; hide UnstageReady;
  }

  lemma UnderwayCommit(c: State, s: State, req: Request, m: Move)
    requires CallReady(c, req) && Underway(c, s, req) && req.vol in s.frames && MoveOk(c, s.frames[req.vol], m)
    ensures Underway(c, Commit(s, req.vol, m), req)
  {
    hide CallReady; hide At; hide HostAfter; hide MapAfter; hide Written; hide WriteOk; hide AnswerOf;
    var v, t := req.vol, Commit(s, req.vol, m);
    assert t.frames - {v} == s.frames - {v};
    assert v !in c.frames;
    if m.next.Done? {
      WriteGivesMap(c, req, m.next.write);
      assert t.frames == c.frames;
    }
  }

  lemma DeviceBoots(c: State, s: State, f: Frame, pref: nat)
    requires CallReady(c, f.req) && At(c, s.host, f) && f.pc.WaitLink? && !Linked(s.host, f.req.vol)
    ensures Live(s.host, f.req.vol) && At(c, DeviceUp(s.host, f.req.vol, pref), f)
  {
    hide Parse;
  }

  lemma NoLinkToLose(h: Host, v: VolId)
    requires !Linked(h, v)
    ensures LinkDown(h, v) == h
  {
    assert h.links - {UblkByUUIDPath(v)} == h.links;
  }

  /** Once the unit was stopped, the link may go before the device is deleted. */
  lemma LinkGoes(c: State, h: Host, f: Frame)
    requires CallReady(c, f.req) && At(c, h, f) && f.pc.DelRun?
    ensures At(c, LinkDown(h, f.req.vol), f)
  {
    hide Parse; hide LinksBacked; hide ValidRequest;
    var v, k := f.req.vol, LinkDown(h, f.req.vol);
    MountsGiveLayers(h, k);
    if f.req.call.Stage? {
      assert c.host.links[UblkByUUIDPath(v) := f.pc.minor] - {UblkByUUIDPath(v)} == c.host.links;
      assert c.host.links - {UblkByUUIDPath(v)} == c.host.links;
      SamePathsStaged(c.host, h, k, f.req);
    } else {
      assert c.host.links - {UblkByUUIDPath(v)} - {UblkByUUIDPath(v)} == c.host.links - {UblkByUUIDPath(v)};
    }
  }

  lemma UnderwayStep(c: State, s: State, req: Request, e: Event)
    requires CallReady(c, req) && Underway(c, s, req) && Clean(s, e, req.vol) && VolOf(e) == req.vol && !e.Begin?
    ensures Underway(c, Step(s, e), req)
  {
    hide Act; hide MoveOk; hide CallReady; hide At; hide Ended; hide DeviceUp; hide LinkDown; hide DaemonGone;
    hide Commit;
    var v := req.vol;
    match e
    case Op(_, o) =>
      if v in s.frames {
        CallGoes(c, s.host, s.frames[v], o);
        UnderwayCommit(c, s, req, Act(s.host, s.frames[v], o));
      }
    case DaemonUp(_, pref) =>
      if Live(s.host, v) { DeviceBoots(c, s, s.frames[v], pref); }
    case LinkLost(_) =>
      if Linked(s.host, v) {
        LinkGoes(c, s.host, s.frames[v]);
      } else {
        NoLinkToLose(s.host, v);
        EndedOnHost(c, s, Step(s, e), req);
      }
    case DaemonDied(_) =>
  }

  lemma EndedOnHost(c: State, s: State, t: State, req: Request)
    requires CallReady(c, req) && s.host == t.host && s.frames == t.frames && s.volMap == t.volMap && s.replies == t.replies
    requires Underway(c, s, req)
    ensures Underway(c, t, req)
  {
    hide CallReady; hide HostAfter; hide MapAfter; hide At;
  }

  /** Events of v alone. */
  predicate OwnEvents(es: seq<Event>, v: VolId) {
    forall i | 0 <= i < |es| :: !es[i].Restart? && VolOf(es[i]) == v
  }

  lemma {:induction false} UnderwayRun(c: State, s: State, req: Request, es: seq<Event>)
    requires CallReady(c, req) && Underway(c, s, req) && CleanRun(s, es, req.vol) && OwnEvents(es, req.vol)
    requires forall i | 0 <= i < |es| :: !es[i].Begin?
    ensures Underway(c, Run(s, es), req)
    decreases |es|
  {
    hide Step; hide Underway; hide CallReady; hide Clean;
    if es != [] {
      UnderwayStep(c, s, req, es[0]);
      UnderwayRun(c, Step(s, es[0]), req, es[1..]);
    }
  }

  lemma UnderwayBegins(c: State, req: Request)
    requires CallReady(c, req)
    ensures Underway(c, Step(c, Begin(req)), req)
  {
    hide Decimal.ParseInt64; hide Parse; hide StageReady; hide PublishReady; hide UnpublishReady;
    var s := Step(c, Begin(req));
    assert s.frames - {req.vol} == c.frames;
  }

  /** By these events of its volume the call runs to its end, with nothing going wrong. */
  predicate Completes(c: State, req: Request, es: seq<Event>) {
    && OwnEvents(es, req.vol) && (forall i | 0 <= i < |es| :: !es[i].Begin?)
    && CleanRun(c, [Begin(req)] + es, req.vol) && req.vol !in Run(c, [Begin(req)] + es).frames
  }

  /** What such a call does, from when it is received until it is over: it is answered with success,
      or InvalidArgument for a stage with a bad volume ID, and host and map change as stated. */
  lemma {:induction false} CallDoes(c: State, req: Request, es: seq<Event>)
    requires CallReady(c, req) && Completes(c, req, es)
    ensures Ended(c, Run(c, [Begin(req)] + es), req)
  {
    hide Step; hide CallReady; hide Ended; hide At; hide Clean;
    assert ([Begin(req)] + es)[1..] == es;
    UnderwayBegins(c, req);
    UnderwayRun(c, Step(c, Begin(req)), req, es);
  }

  /** The steps that bring a call to its end without a failure. */
  function CleanSteps(s: State, v: VolId): (es: seq<Event>)
    ensures OwnEvents(es, v) && forall i | 0 <= i < |es| :: !es[i].Begin?
    decreases if v in s.frames then Rank(s.frames[v].pc) + 1 else 0
  {
    if v !in s.frames then []
    else
      var up := if s.frames[v].pc.WaitLink? && !Linked(s.host, v) && Live(s.host, v) then [DaemonUp(v, 0)] else [];
      var t := if up != [] then Step(s, DaemonUp(v, 0)) else s;
      var u := Step(t, Op(v, SUCCESS));
      (OpDescends(t, v, SUCCESS); up + [Op(v, SUCCESS)] + CleanSteps(u, v))
  }

  lemma {:induction false} CleanStepsComplete(c: State, s: State, req: Request)
    requires CallReady(c, req) && Underway(c, s, req)
    ensures CleanRun(s, CleanSteps(s, req.vol), req.vol) && req.vol !in Run(s, CleanSteps(s, req.vol)).frames
    decreases if req.vol in s.frames then Rank(s.frames[req.vol].pc) + 1 else 0
  {
    hide CallReady; hide Underway; hide Rank; hide Act; hide DeviceUp; hide Enter; hide LinkDown;
    var v, op := req.vol, Op(req.vol, SUCCESS);
    if v in s.frames {
      var t := s;
      var all := CleanSteps(s, v);
      if s.frames[v].pc.WaitLink? && !Linked(s.host, v) {
        var up := DaemonUp(v, 0);
        WaitEnds(c, s, req);
        t := Step(s, up);
        assert all[0] == up && all[1..][0] == op && all[1..][1..] == CleanSteps(Step(t, op), v);
      } else {
        assert all[0] == op && all[1..] == CleanSteps(Step(t, op), v);
      }
      UnderwayStep(c, t, req, op);
      OpDescends(t, v, SUCCESS);
      hide Step; hide Linked;
      CleanStepsComplete(c, Step(t, op), req);
    }
  }

  lemma WaitEnds(c: State, s: State, req: Request)
    requires CallReady(c, req) && Underway(c, s, req)
    requires req.vol in s.frames && s.frames[req.vol].pc.WaitLink? && !Linked(s.host, req.vol)
    ensures var t := Step(s, DaemonUp(req.vol, 0));
      Live(s.host, req.vol) && Underway(c, t, req) && t.frames == s.frames && Linked(t.host, req.vol)
  {
    hide CallReady; hide At;
    DeviceBoots(c, s, s.frames[req.vol], 0);
    UnderwayStep(c, s, req, DaemonUp(req.vol, 0));
    hide Underway;
  }

  lemma OpDescends(s: State, v: VolId, o: Outcome)
    requires v in s.frames
    ensures var t := Step(s, Op(v, o)); v in t.frames ==> Rank(t.frames[v].pc) < Rank(s.frames[v].pc)
  {
    ActDescends(s.host, s.frames[v], o);
    hide Act; hide Rank;
  }

  /** A call that is ready can always be brought to its end like this. */
  lemma {:induction false} CallCanComplete(c: State, req: Request)
    requires CallReady(c, req)
    ensures exists es :: Completes(c, req, es)
  {
    hide Step; hide CallReady; hide CleanSteps;
    var s := Step(c, Begin(req));
    UnderwayBegins(c, req);
    CleanStepsComplete(c, s, req);
    var es := CleanSteps(s, req.vol);
    assert ([Begin(req)] + es)[1..] == es;
    assert Clean(c, Begin(req), req.vol) by { ReadyIsIdle(c, req); }
    assert Completes(c, req, es);
  }

  lemma ReadyIsIdle(c: State, req: Request)
    requires CallReady(c, req)
    ensures req.vol !in c.frames
  {
  }
}
