/** Mounts never stack, filesystems are written once, and every mount of a device uses the
    filesystem that is on it. */
module Mounts {
  import opened Uuid
  import opened Types
  import opened HostModel
  import opened Machine
  import opened Effects
  import opened Invariant
  import opened Views
  import Decimal

  // Mounts never stack

  /** A call about to mount has found the path free. */
  predicate FoundFree(h: Host, f: Frame) {
    && (f.pc.MountStaging? ==> Layers(h, f.req.staging) == [])
    && (f.pc.BindTarget? ==> Layers(h, f.req.target) == [])
  }

  ghost predicate AtMostOne(owner: Owner, h: Host, v: VolId) {
    forall p | owner(p) == v :: |Layers(h, p)| <= 1
  }

  ghost predicate Unstacked(owner: Owner, s: State, v: VolId) {
    AtMostOne(owner, s.host, v) && (v in s.frames ==> FoundFree(s.host, s.frames[v]))
  }

  lemma MountStacksNot(h: Host, f: Frame, o: Outcome)
    requires InMount(f.pc) && FoundFree(h, f) && |Layers(h, f.req.staging)| <= 1
    ensures |Layers(MountMove(h, f, o).host, f.req.staging)| <= 1
  {
    hide Blkid; hide Parse; hide Stat; hide Backing; hide Request.FsType; hide IsMountPoint;
  }

  lemma PublishStacksNot(h: Host, f: Frame, o: Outcome)
    requires InPublish(f.pc) && FoundFree(h, f) && |Layers(h, f.req.target)| <= 1
    ensures |Layers(PublishMove(h, f, o).host, f.req.target)| <= 1
  {
    hide Stat; hide IsMountPoint; hide Backing;
  }

  lemma UnmountStacksNot(h: Host, f: Frame, o: Outcome, q: Path)
    requires !InMount(f.pc) && !InPublish(f.pc) && |Layers(h, q)| <= 1
    ensures |Layers(UnmountMove(h, f, o).host, q)| <= 1
  {
    hide Stat; hide IsMountPoint; hide Remove;
  }

  lemma ActStacksNot(h: Host, f: Frame, o: Outcome, q: Path)
    requires FoundFree(h, f) && |Layers(h, q)| <= 1 && WorksOn(f, q)
    ensures |Layers(Act(h, f, o).host, q)| <= 1
  {
    hide MountMove; hide PublishMove; hide UnmountMove; hide Layers;
    if InMount(f.pc) { MountStacksNot(h, f, o); }
    else if InPublish(f.pc) { PublishStacksNot(h, f, o); }
    else { UnmountStacksNot(h, f, o, q); }
  }

  lemma ActFindsFree(h: Host, f: Frame, o: Outcome)
    ensures var m := Act(h, f, o); m.next.Go? ==> FoundFree(m.host, f.(pc := m.next.pc))
  {
    hide StartUnit; hide StopUnit; hide ResolveUblkId; hide DeleteMinor; hide Blkid; hide Mkfs; hide BindDevice;
    hide MountDevice; hide BindPath; hide UnmountTop; hide Stat; hide MkdirAll; hide OpenOrCreate; hide AfterRemove;
    hide Parse;
  }

  lemma UnstackedOp(owner: Owner, s: State, v: VolId, o: Outcome)
    requires Inv(owner, s) && v in s.frames && Unstacked(owner, s, v)
    ensures Unstacked(owner, Step(s, Op(v, o)), v)
  {
    hide Act; hide WorksOn; hide FoundFree;
    var h, f := s.host, s.frames[v];
    var m := Act(h, f, o);
    ActTouches(h, f, o);
    ActFindsFree(h, f, o);
    forall p | owner(p) == v ensures |Layers(m.host, p)| <= 1 {
      if WorksOn(f, p) { ActStacksNot(h, f, o, p); }
    }
  }

  lemma StepWithoutCall(s: State, v: VolId, o: Outcome)
    requires v !in s.frames
    ensures Step(s, Op(v, o)) == s
  {
  }

  lemma UnstackedStep(owner: Owner, s: State, e: Event, v: VolId)
    requires Inv(owner, s) && OwnedEvent(owner, e) && Unstacked(owner, s, v)
    ensures Unstacked(owner, Step(s, e), v)
  {
    hide Step; hide Enter; hide LinksBacked; hide MapOk;
    if e.Op? && e.vol == v && v in s.frames {
      UnstackedOp(owner, s, v, e.o);
    } else if e.Op? && e.vol == v {
      StepWithoutCall(s, v, e.o);
    } else if e.Op? {
      StepIsLocal(owner, s, e, v);
    } else {
      OtherEvents(s, e);
      if e.Begin? { EnterMountsNothing(EntryOf(s, e.req.vol), e.req); }
    }
  }

  lemma EnterMountsNothing(entry: Option<Entry>, req: Request)
    ensures var e := Enter(entry, req); e.Admit? ==> !InMount(e.frame.pc) && !e.frame.pc.BindTarget?
  {
    hide Decimal.ParseInt64;
  }

  lemma {:induction false} UnstackedRun(owner: Owner, s: State, es: seq<Event>, v: VolId)
    requires Inv(owner, s) && OwnedEvents(owner, es) && Unstacked(owner, s, v)
    ensures Unstacked(owner, Run(s, es), v)
    decreases |es|
  {
    if es != [] {
      InvStep(owner, s, es[0]);
      UnstackedStep(owner, s, es[0], v);
      hide Step; hide Inv; hide Unstacked;
      UnstackedRun(owner, Step(s, es[0]), es[1..], v);
    }
  }

  /** Mounts never stack: from a host without stacked mounts and no call in flight, whatever
      calls, failures, crashes and restarts follow, no path ever carries two mounts. */
  lemma {:induction false} MountsNeverStack(owner: Owner, s: State, es: seq<Event>, p: Path)
    requires Inv(owner, s) && OwnedEvents(owner, es)
    requires s.frames == map[] && forall q :: |Layers(s.host, q)| <= 1
    ensures |Layers(Run(s, es).host, p)| <= 1
  {
    hide Inv; hide Run;
    UnstackedRun(owner, s, es, owner(p));
  }

  // Filesystems are written once

  /** blkid is faithful to a call when it tells the truth about a device that is there, or says
      that there is none. */
  predicate FaithfulProbe(h: Host, f: Frame, o: Outcome) {
    f.pc.ProbeCompat? || f.pc.ProbeExisting? ==> o.probe.NoDevice? || (o.probe.Truth? && Linked(h, f.req.vol))
  }

  predicate Faithful(s: State, e: Event) {
    e.Op? && e.vol in s.frames ==> FaithfulProbe(s.host, s.frames[e.vol], e.o)
  }

  predicate FaithfulRun(s: State, es: seq<Event>)
    decreases |es|
  {
    es == [] || (Faithful(s, es[0]) && FaithfulRun(Step(s, es[0]), es[1..]))
  }

  /** What a staging call may rely on at each step about the filesystem of its volume. */
  predicate FsKnown(h: Host, f: Frame) {
    var found := FsOn(h, f.req.vol);
    && (f.pc.ProbeCompat? || f.pc.ProbeExisting? || f.pc.Format? ==> f.req.FsType().Supported())
    && (f.pc.ProbeExisting? ==> found == NoFs || found.Supported())
    && (f.pc.Format? ==> found == NoFs)
    && (f.pc.CheckStaging? || f.pc.MountStaging? ==> f.pc.fsType == found && found.Supported())
  }

  predicate LayerOk(h: Host, v: VolId, l: Layer) {
    l.Device? ==> l.vol == v && l.fsType == FsOn(h, v) && l.fsType.Supported()
  }

  ghost predicate LayersOk(owner: Owner, h: Host, v: VolId) {
    forall p, l | owner(p) == v && l in Layers(h, p) :: LayerOk(h, v, l)
  }

  ghost predicate WellWritten(owner: Owner, s: State, v: VolId) {
    LayersOk(owner, s.host, v) && (v in s.frames ==> FsKnown(s.host, s.frames[v]))
  }

  predicate WrittenOnce(h: Host, k: Host, v: VolId) {
    FsOn(k, v) == FsOn(h, v) || (FsOn(h, v) == NoFs && FsOn(k, v).Supported())
  }

  lemma ActKnowsFs(h: Host, f: Frame, o: Outcome)
    requires LinksBacked(h) && PcOk(f.req.call, f.pc) && DevOk(f) && FsKnown(h, f) && FaithfulProbe(h, f, o)
    ensures var m := Act(h, f, o); m.next.Go? ==> FsKnown(m.host, f.(pc := m.next.pc))
  {
    if InMount(f.pc) {
      MountKnowsFs(h, f, o);
      hide MountMove; hide FsKnown;
    } else {
      hide StartUnit; hide StopUnit; hide ResolveUblkId; hide DeleteMinor; hide BindDevice; hide IsMountPoint;
      hide LinksBacked;
      hide BindPath; hide UnmountTop; hide Stat; hide OpenOrCreate; hide MkdirAll; hide AfterRemove; hide Backing;
      hide FsOn;
    }
  }

  lemma MountKnowsFs(h: Host, f: Frame, o: Outcome)
    requires LinksBacked(h) && InMount(f.pc) && f.dev == UblkByUUIDPath(f.req.vol) && FsKnown(h, f) && FaithfulProbe(h, f, o)
    ensures var m := MountMove(h, f, o); m.next.Go? ==> FsKnown(m.host, f.(pc := m.next.pc))
  {
    hide IsMountPoint; hide LinksBacked; hide Stat; hide Parse; hide Backing; hide Layers;
    BackingIsVolume(h, f.req.vol);
  }

  lemma ActWritesOnce(h: Host, f: Frame, o: Outcome)
    requires LinksBacked(h) && PcOk(f.req.call, f.pc) && DevOk(f) && FsKnown(h, f)
    ensures WrittenOnce(h, Act(h, f, o).host, f.req.vol)
  {
    BackingIsVolume(h, f.req.vol);
    ActTouches(h, f, o);
    hide Act; hide LinksBacked; hide Backing;
  }

  lemma MountLayers(h: Host, f: Frame, o: Outcome, l: Layer)
    requires InMount(f.pc) && l in Layers(MountMove(h, f, o).host, f.req.staging)
    ensures l in Layers(h, f.req.staging)
      || (f.pc.MountStaging? && Backing(h, f.dev).Some? && l == Device(Backing(h, f.dev).value, f.pc.fsType))
  {
    hide Blkid; hide Parse; hide Stat; hide Backing; hide Request.FsType; hide IsMountPoint;
  }

  lemma PublishLayers(h: Host, f: Frame, o: Outcome, l: Layer)
    requires InPublish(f.pc) && l in Layers(PublishMove(h, f, o).host, f.req.target) && l.Device?
    ensures l in Layers(h, f.req.target) || l in Layers(h, f.req.staging)
  {
    hide Stat; hide IsMountPoint; hide Backing;
  }

  lemma UnmountLayers(h: Host, f: Frame, o: Outcome, q: Path, l: Layer)
    requires !InMount(f.pc) && !InPublish(f.pc) && l in Layers(UnmountMove(h, f, o).host, q)
    ensures l in Layers(h, q)
  {
    hide Stat; hide IsMountPoint; hide Remove;
  }

  /** A new layer is a mount of the volume's device as the call asked for it, its raw device, or
      what the staging path shows. */
  lemma ActLayers(h: Host, f: Frame, o: Outcome, q: Path, l: Layer)
    requires WorksOn(f, q) && l in Layers(Act(h, f, o).host, q) && l.Device?
    ensures l in Layers(h, q) || l in Layers(h, f.req.staging)
      || (f.pc.MountStaging? && Backing(h, f.dev).Some? && l == Device(Backing(h, f.dev).value, f.pc.fsType))
  {
    hide MountMove; hide PublishMove; hide UnmountMove; hide Layers; hide Backing;
    if InMount(f.pc) { MountLayers(h, f, o, l); }
    else if InPublish(f.pc) { PublishLayers(h, f, o, l); }
    else { UnmountLayers(h, f, o, q, l); }
  }

  lemma ActLayersOk(owner: Owner, h: Host, f: Frame, o: Outcome)
    requires LinksBacked(h) && FrameOk(owner, f.req.vol, f) && FsKnown(h, f) && LayersOk(owner, h, f.req.vol)
    ensures LayersOk(owner, Act(h, f, o).host, f.req.vol)
  {
    var v, k := f.req.vol, Act(h, f, o).host;
    BackingIsVolume(h, v);
    ActTouches(h, f, o);
    ActWritesOnce(h, f, o);
    forall p, l | owner(p) == v && l in Layers(k, p) ensures LayerOk(k, v, l) {
      if l.Device? {
        if WorksOn(f, p) {
          ActLayers(h, f, o, p, l);
          assert f.pc.MountStaging? ==> f.dev == UblkByUUIDPath(v) && k.fs == h.fs;
          assert InMount(f.pc) || InPublish(f.pc) ==> owner(f.req.staging) == v;
          NewLayerOk(owner, h, k, f, p, l);
        } else {
          assert l in Layers(h, p) && LayerOk(h, v, l);
        }
      }
    }
  }

  lemma NewLayerOk(owner: Owner, h: Host, k: Host, f: Frame, p: Path, l: Layer)
    requires LayersOk(owner, h, f.req.vol) && owner(p) == f.req.vol && WrittenOnce(h, k, f.req.vol) && FsKnown(h, f)
    requires l in Layers(h, p) || (l in Layers(h, f.req.staging) && owner(f.req.staging) == f.req.vol)
      || (f.pc.MountStaging? && k.fs == h.fs && l == Device(f.req.vol, f.pc.fsType))
    ensures LayerOk(k, f.req.vol, l)
  {
    var v := f.req.vol;
    assert l in Layers(h, p) ==> LayerOk(h, v, l);
    assert l in Layers(h, f.req.staging) && owner(f.req.staging) == v ==> LayerOk(h, v, l);
    hide LayersOk; hide Layers;
  }

  lemma WellWrittenStep(owner: Owner, s: State, e: Event, v: VolId)
    requires Inv(owner, s) && OwnedEvent(owner, e) && WellWritten(owner, s, v) && Faithful(s, e)
    ensures WellWritten(owner, Step(s, e), v) && WrittenOnce(s.host, Step(s, e).host, v)
  {
    if e.Op? {
      if e.vol != v {
        StepIsLocal(owner, s, e, v);
        hide Step; hide LinksBacked; hide MapOk; hide SameView;
        SameWritten(owner, s, Step(s, e), v);
      } else if v in s.frames {
        ActKnowsFs(s.host, s.frames[v], e.o);
        ActLayersOk(owner, s.host, s.frames[v], e.o);
        ActWritesOnce(s.host, s.frames[v], e.o);
        hide Act; hide LayersOk; hide FsKnown; hide LinksBacked; hide WrittenOnce;
      }
    } else {
      OtherEvents(s, e);
      if e.Begin? { EnterMountsNothing(EntryOf(s, e.req.vol), e.req); }
      SameLayersOk(owner, s.host, Step(s, e).host, v);
      hide Step; hide Enter; hide LayersOk; hide LinksBacked;
    }
  }

  lemma SameLayersOk(owner: Owner, h: Host, k: Host, v: VolId)
    requires LayersOk(owner, h, v) && FsOn(h, v) == FsOn(k, v)
    requires forall p | owner(p) == v :: Layers(h, p) == Layers(k, p)
    ensures LayersOk(owner, k, v)
  {
    forall p, l | owner(p) == v && l in Layers(k, p) ensures LayerOk(k, v, l) {
      assert l in Layers(h, p) && LayerOk(h, v, l);
    }
  }

  lemma SameWritten(owner: Owner, s: State, t: State, v: VolId)
    requires SameView(owner, s, t, v) && WellWritten(owner, s, v) && (v in s.frames ==> s.frames[v].req.vol == v)
    ensures WellWritten(owner, t, v) && WrittenOnce(s.host, t.host, v)
  {
    SameLayersOk(owner, s.host, t.host, v);
    hide LayersOk; hide FsOn; hide Layers;
  }

  /** Write-once filesystem: while blkid is faithful, in any run of stages, failed mounts, retries
      with another type, unstages and restarts, a volume's filesystem stays what it is once there
      is one, the one it gets is supported, and every mount of the device has the type on it. */
  lemma {:induction false} FilesystemWrittenOnce(owner: Owner, s: State, es: seq<Event>, v: VolId)
    requires Inv(owner, s) && OwnedEvents(owner, es) && WellWritten(owner, s, v) && FaithfulRun(s, es)
    ensures WrittenOnce(s.host, Run(s, es).host, v)
    ensures WellWritten(owner, Run(s, es), v)
    decreases |es|
  {
    if es != [] {
      InvStep(owner, s, es[0]);
      WellWrittenStep(owner, s, es[0], v);
      hide Step; hide Inv; hide WellWritten;
      FilesystemWrittenOnce(owner, Step(s, es[0]), es[1..], v);
    }
  }

  // What becomes of a filesystem that is there

  /** A step of v's call. */
  predicate OwnStep(s: State, e: Event, v: VolId) {
    e.Op? && e.vol == v && v in s.frames
  }

  /** The second probe fails to show what is on the device: blkid fails with some other message than
      "No such device", claims nothing, or looks while the link is down. */
  predicate BlindStep(s: State, e: Event, v: VolId) {
    && OwnStep(s, e, v) && s.frames[v].pc.ProbeExisting?
    && (e.o.probe.Silence? || e.o.probe == Claim(NoFs) || (e.o.probe.Truth? && !Linked(s.host, v)))
  }

  predicate LooksBlindly(s: State, es: seq<Event>, v: VolId)
    decreases |es|
  {
    es != [] && (BlindStep(s, es[0], v) || LooksBlindly(Step(s, es[0]), es[1..], v))
  }

  /** mkfs is run on v's device. */
  predicate FormatStep(s: State, e: Event, v: VolId) {
    OwnStep(s, e, v) && s.frames[v].pc.Format?
  }

  predicate Formats(s: State, es: seq<Event>, v: VolId)
    decreases |es|
  {
    es != [] && (FormatStep(s, es[0], v) || Formats(Step(s, es[0]), es[1..], v))
  }

  /** No restart cuts a call of v off. */
  predicate Uncut(s: State, es: seq<Event>, v: VolId)
    decreases |es|
  {
    es == [] || ((es[0].Restart? ==> v !in s.frames) && Uncut(Step(s, es[0]), es[1..], v))
  }

  predicate AtFormat(s: State, v: VolId) {
    v in s.frames && s.frames[v].pc.Format?
  }

  /** Only a blind second probe leads to mkfs, if there is a filesystem. */
  lemma ActFormats(h: Host, f: Frame, o: Outcome)
    requires LinksBacked(h) && PcOk(f.req.call, f.pc) && DevOk(f) && FsOn(h, f.req.vol) != NoFs
    ensures Act(h, f, o).next == Go(Format) <==>
      f.pc.ProbeExisting? && (o.probe.Silence? || o.probe == Claim(NoFs) || (o.probe.Truth? && !Linked(h, f.req.vol)))
  {
    hide StartUnit; hide StopUnit; hide ResolveUblkId; hide DeleteMinor; hide BindDevice; hide IsMountPoint;
    hide BindPath;
    hide UnmountTop; hide Stat; hide OpenOrCreate; hide MkdirAll; hide AfterRemove; hide Mkfs; hide MountDevice;
    hide Parse;
    BackingIsVolume(h, f.req.vol);
  }

  lemma ActKeepsSomeFs(h: Host, f: Frame, o: Outcome, v: VolId)
    requires FsOn(h, v) != NoFs
    ensures FsOn(Act(h, f, o).host, v) != NoFs
  {
    ActTouches(h, f, o);
    hide Act; hide Backing;
  }

  /** After any event v still has a filesystem, and its call is at mkfs exactly if it was there and
      did not move, or was blind. */
  lemma FormatsStep(owner: Owner, s: State, e: Event, v: VolId)
    requires Inv(owner, s) && OwnedEvent(owner, e) && FsOn(s.host, v) != NoFs
    ensures var t := Step(s, e);
      && FsOn(t.host, v) != NoFs
      && (AtFormat(t, v) ==> BlindStep(s, e, v) || (AtFormat(s, v) && !FormatStep(s, e, v)))
      && (BlindStep(s, e, v) || (AtFormat(s, v) && !FormatStep(s, e, v) && !e.Restart?) ==> AtFormat(t, v))
  {
    if OwnStep(s, e, v) {
      assert FrameOk(owner, v, s.frames[v]);
      ActFormats(s.host, s.frames[v], e.o);
      ActKeepsSomeFs(s.host, s.frames[v], e.o, v);
      hide Act; hide LinksBacked; hide MapOk;
    } else if e.Begin? && e.req.vol == v {
      OtherEvents(s, e);
      EnterMountsNothing(EntryOf(s, e.req.vol), e.req);
      hide Step; hide Enter;
    } else if Foreign(e, v) {
      ForeignKeeps(owner, s, e, v);
      hide Step;
    }
  }

  lemma {:induction false} FormatsAfterBlind(owner: Owner, s: State, es: seq<Event>, v: VolId)
    requires Inv(owner, s) && OwnedEvents(owner, es) && FsOn(s.host, v) != NoFs
    ensures Formats(s, es, v) ==> AtFormat(s, v) || LooksBlindly(s, es, v)
    ensures Uncut(s, es, v) && v !in Run(s, es).frames && (AtFormat(s, v) || LooksBlindly(s, es, v)) ==> Formats(s, es, v)
    decreases |es|
  {
    hide Step; hide Inv; hide BlindStep; hide FsOn;
    if es != [] {
      InvStep(owner, s, es[0]);
      FormatsStep(owner, s, es[0], v);
      FormatsAfterBlind(owner, Step(s, es[0]), es[1..], v);
    }
  }

  /** Where a faithful blkid matters: in a run from a state in which v has a filesystem and no call in
      flight, to one with no call in flight, with any calls, failures and restarts between calls,
      mkfs is run on v's device if and only if a second probe was blind. */
  lemma {:induction false} ReformatExactly(owner: Owner, s: State, es: seq<Event>, v: VolId)
    requires Inv(owner, s) && OwnedEvents(owner, es) && FsOn(s.host, v) != NoFs
    requires v !in s.frames && v !in Run(s, es).frames && Uncut(s, es, v)
    ensures Formats(s, es, v) <==> LooksBlindly(s, es, v)
  {
    hide Run; hide Uncut; hide Formats; hide LooksBlindly; hide Inv;
    FormatsAfterBlind(owner, s, es, v);
  }

  /** mkfs takes effect, reported as a success or not. */
  predicate Overwrites(s: State, e: Event, v: VolId) {
    FormatStep(s, e, v) && Linked(s.host, v) && (e.o.ok || e.o.did)
  }

  /** What the last mkfs of the run that took effect wrote, or else what was there before. */
  function LastWritten(before: FsType, s: State, es: seq<Event>, v: VolId): FsType
    decreases |es|
  {
    if es == [] then before
    else LastWritten(if Overwrites(s, es[0], v) then s.frames[v].req.FsType() else before, Step(s, es[0]), es[1..], v)
  }

  lemma OverwriteStep(owner: Owner, s: State, e: Event, v: VolId)
    requires Inv(owner, s) && OwnedEvent(owner, e)
    ensures FsOn(Step(s, e).host, v) == if Overwrites(s, e, v) then s.frames[v].req.FsType() else FsOn(s.host, v)
  {
    if OwnStep(s, e, v) {
      assert FrameOk(owner, v, s.frames[v]);
      BackingIsVolume(s.host, v);
      ActTouches(s.host, s.frames[v], e.o);
      if s.frames[v].pc.Format? { hide Stat; hide LinksBacked; hide MapOk; } else { hide Act; hide LinksBacked; hide MapOk; }
    } else if e.Op? && e.vol != v {
      ForeignKeeps(owner, s, e, v);
      hide Step;
    } else if !e.Op? {
      OtherEvents(s, e);
      hide Step;
    }
  }

  /** mkfs is forced: after any run the filesystem on v's device is the one that the last mkfs to take
      effect wrote, whatever was there before. */
  lemma {:induction false} FormatOverwrites(owner: Owner, s: State, es: seq<Event>, v: VolId)
    requires Inv(owner, s) && OwnedEvents(owner, es)
    ensures FsOn(Run(s, es).host, v) == LastWritten(FsOn(s.host, v), s, es, v)
    decreases |es|
  {
    hide Step; hide Inv; hide FsOn; hide Overwrites;
    if es != [] {
      InvStep(owner, s, es[0]);
      OverwriteStep(owner, s, es[0], v);
      FormatOverwrites(owner, Step(s, es[0]), es[1..], v);
    }
  }

  /** So a filesystem outlives every run without a blind second probe, whatever else blkid says. */
  lemma {:induction false} FilesystemSurvives(owner: Owner, s: State, es: seq<Event>, v: VolId)
    requires Inv(owner, s) && OwnedEvents(owner, es) && FsOn(s.host, v) != NoFs
    requires !AtFormat(s, v) && !LooksBlindly(s, es, v)
    ensures FsOn(Run(s, es).host, v) == FsOn(s.host, v)
  {
    hide Inv; hide Run; hide LooksBlindly;
    FormatsAfterBlind(owner, s, es, v);
    FormatOverwrites(owner, s, es, v);
    NeverWritten(FsOn(s.host, v), s, es, v);
  }

  lemma {:induction false} NeverWritten(before: FsType, s: State, es: seq<Event>, v: VolId)
    requires !Formats(s, es, v)
    ensures LastWritten(before, s, es, v) == before
    decreases |es|
  {
    hide Step;
    if es != [] {
      NeverWritten(before, Step(s, es[0]), es[1..], v);
    }
  }
}
