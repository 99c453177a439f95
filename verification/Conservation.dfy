/** Units are conserved: apart from the volumes under suspicion, the daemons that run are exactly
    those of the volumes the map has staged. */
module Conservation {
  import opened Uuid
  import opened Types
  import opened HostModel
  import opened Machine
  import opened Effects
  import opened Invariant
  import opened Views
  import opened Recovery
  import Decimal

  predicate Balanced(h: Host, v: VolId, staged: bool) {
    Live(h, v) == staged && Linked(h, v) == staged
  }

  /** An unstage that is still unmounting or about to resolve the device. */
  predicate BeforeTeardown(pc: PC) {
    pc.DelResolve? || ((pc.UmStat? || pc.UmCheck? || pc.UmUnmount?) && pc.at.UnstageUnmount?)
  }

  /** Where a call stands with the unit and link of its volume, if nothing went wrong. */
  predicate InStep(h: Host, v: VolId, staged: bool, f: Frame) {
    match f.req.call
    case Stage =>
      (match f.pc
       case StartUblk => !Live(h, v) && !Linked(h, v)
       case WaitLink => Live(h, v)
       case StopAfterWait => Live(h, v) && !Linked(h, v)
       case DelStop(_, _) => Live(h, v) && Points(h, v, f.pc)
       case DelRun(_, _) => Linked(h, v) ==> Points(h, v, f.pc)
       case _ => Live(h, v) && Linked(h, v))
    case Unstage =>
      if f.pc.DelStop? then Live(h, v) && Points(h, v, f.pc)
      else if f.pc.DelRun? then Linked(h, v) ==> Points(h, v, f.pc)
      else if BeforeTeardown(f.pc) then Balanced(h, v, staged)
      else !Live(h, v) && !Linked(h, v)
    case _ => Balanced(h, v, staged)
  }

  /** What holds even under suspicion: a staging call's volume is not staged, an unstaging call's
      is, and a device is deleted only after its unit was stopped. */
  predicate AlwaysInStep(h: Host, v: VolId, staged: bool, f: Frame) {
    && (f.req.call.Stage? ==> !staged)
    && (f.req.call.Unstage? ==> staged)
    && (f.pc.DelRun? ==> !Live(h, v))
  }

  /** The state of one volume's unit; with good restarts no entry is without a device path. */
  predicate Conserved(s: State, v: VolId) {
    && (v in s.volMap ==> Staged(s, v))
    && (v in s.frames ==> AlwaysInStep(s.host, v, Staged(s, v), s.frames[v]))
    && (v !in s.suspect ==>
          if v in s.frames then InStep(s.host, v, Staged(s, v), s.frames[v]) else Balanced(s.host, v, Staged(s, v)))
  }

  /** So it is for every volume of which the host of a starting plugin has nothing. */
  lemma ConservedStarts(s: State, v: VolId)
    requires Starting(s) && !Live(s.host, v) && !Linked(s.host, v)
    ensures Conserved(s, v)
  {
  }

  /** A restart gets a list of IDs that all parse, with every volume on it whose link is up here. */
  predicate GoodRestart(s: State, e: Event, v: VolId) {
    e.Restart? ==> e.listed.Some? && AllParse(e.listed.value) && (Linked(s.host, v) ==> v in e.listed.value)
  }

  predicate GoodRestarts(s: State, es: seq<Event>, v: VolId)
    decreases |es|
  {
    es == [] || (GoodRestart(s, es[0], v) && GoodRestarts(Step(s, es[0]), es[1..], v))
  }

  /** Whether the call's volume is staged after a move. */
  function StagedAfter(staged: bool, n: Next): bool {
    if n.Done? && n.write.Put? then n.write.entry.ublkPath != NoDevPath
    else if n.Done? && n.write.Drop? then false
    else staged
  }

  /** A move keeps the unit in step unless it raises doubt, and one that settles doubt puts it
      in step again. */
  predicate MoveInStep(h: Host, staged: bool, f: Frame, m: Move) {
    var v, after := f.req.vol, StagedAfter(staged, m.next);
    && (m.next.Done? && m.next.write.Put? ==> m.next.write.entry.ublkPath != NoDevPath)
    && (m.next.Go? ==> AlwaysInStep(m.host, v, after, f.(pc := m.next.pc)))
    && ((m.doubt.NoChange? && InStep(h, v, staged, f)) || m.doubt.Settled? ==>
          if m.next.Go? then InStep(m.host, v, after, f.(pc := m.next.pc)) else Balanced(m.host, v, after))
  }

  lemma CreateInStep(h: Host, staged: bool, f: Frame, o: Outcome)
    requires InCreate(f.pc) && f.req.call.Stage? && AlwaysInStep(h, f.req.vol, staged, f)
    ensures MoveInStep(h, staged, f, CreateMove(h, f, o))
  {
  }

  lemma MountInStep(h: Host, staged: bool, f: Frame, o: Outcome)
    requires InMount(f.pc) && f.req.call.Stage? && AlwaysInStep(h, f.req.vol, staged, f) && f.dev == UblkByUUIDPath(f.req.vol)
    ensures MoveInStep(h, staged, f, MountMove(h, f, o))
  {
    hide Mkfs; hide MkdirAll; hide IsMountPoint; hide MountDevice;
    MountTouches(h, f, o);
    var k := MountMove(h, f, o).host;
    assert Live(k, f.req.vol) == Live(h, f.req.vol) && Linked(k, f.req.vol) == Linked(h, f.req.vol);
    hide Blkid; hide Parse; hide Live; hide Linked;
  }

  lemma DeleteInStep(h: Host, staged: bool, f: Frame, o: Outcome)
    requires InDelete(f.pc) && PcOk(f.req.call, f.pc) && AlwaysInStep(h, f.req.vol, staged, f) && f.dev == UblkByUUIDPath(f.req.vol)
    requires LinksBacked(h) && CapturedOk(h.minors, f.req.vol, f.pc)
    ensures MoveInStep(h, staged, f, DeleteMove(h, f, o))
  {
  }

  /** A step that neither publishes nor takes down a device. */
  predicate Quiet(m: Move) {
    m.doubt.NoChange? && (if m.next.Go? then !m.next.pc.DelRun? else m.next.write.Keep? || m.next.write.SetTarget?)
  }

  lemma QuietInStep(h: Host, staged: bool, f: Frame, m: Move)
    requires (f.req.call.Publish? || f.req.call.Unpublish?) && Quiet(m) && SameDevices(h, m.host)
    ensures MoveInStep(h, staged, f, m)
  {
  }

  lemma UnpublishInStep(h: Host, staged: bool, f: Frame, o: Outcome)
    requires f.req.call.Unpublish? && PcOk(f.req.call, f.pc)
    ensures MoveInStep(h, staged, f, UnmountMove(h, f, o))
  {
    hide MoveInStep; hide SameDevices; hide IsMountPoint; hide Stat; hide UnmountTop; hide AfterRemove;
    UnmountKeepsDevices(h, f, o);
    QuietInStep(h, staged, f, UnmountMove(h, f, o));
  }

  lemma UnstageInStep(h: Host, staged: bool, f: Frame, o: Outcome)
    requires f.req.call.Unstage? && PcOk(f.req.call, f.pc) && !InDelete(f.pc)
    requires f.dev == UblkByUUIDPath(f.req.vol) && AlwaysInStep(h, f.req.vol, staged, f)
    ensures MoveInStep(h, staged, f, UnmountMove(h, f, o))
  {
    hide IsMountPoint; hide Stat; hide UnmountTop; hide AfterRemove;
    UnmountKeepsDevices(h, f, o);
    var k := UnmountMove(h, f, o).host;
    assert Live(k, f.req.vol) == Live(h, f.req.vol) && Linked(k, f.req.vol) == Linked(h, f.req.vol);
    hide Live; hide Linked;
  }

  lemma PublishInStep(h: Host, staged: bool, f: Frame, o: Outcome)
    requires InPublish(f.pc) && f.req.call.Publish?
    ensures MoveInStep(h, staged, f, PublishMove(h, f, o))
  {
    hide MoveInStep; hide SameDevices; hide IsMountPoint; hide Stat; hide MkdirAll; hide OpenOrCreate;
    hide BindDevice; hide BindPath;
    PublishKeepsDevices(h, f, o);
    QuietInStep(h, staged, f, PublishMove(h, f, o));
  }

  lemma ActInStep(owner: Owner, h: Host, staged: bool, f: Frame, o: Outcome)
    requires LinksBacked(h) && FrameOk(owner, f.req.vol, f) && CapturedOk(h.minors, f.req.vol, f.pc)
    requires AlwaysInStep(h, f.req.vol, staged, f)
    ensures MoveInStep(h, staged, f, Act(h, f, o))
  {
    hide MoveInStep; hide LinksBacked; hide AlwaysInStep;
    assert f.req.call.Publish? || f.req.call.Unpublish? || f.dev == UblkByUUIDPath(f.req.vol);
    if InCreate(f.pc) { CreateInStep(h, staged, f, o); }
    else if InMount(f.pc) { MountInStep(h, staged, f, o); }
    else if InDelete(f.pc) { DeleteInStep(h, staged, f, o); }
    else if InPublish(f.pc) { PublishInStep(h, staged, f, o); }
    else if f.req.call.Unpublish? { UnpublishInStep(h, staged, f, o); }
    else { UnstageInStep(h, staged, f, o); }
    hide CreateMove; hide MountMove; hide DeleteMove; hide PublishMove; hide UnmountMove;
  }

  lemma ConservedCommit(s: State, v: VolId, m: Move)
    requires v in s.frames && s.frames[v].req.vol == v && Conserved(s, v) && MoveInStep(s.host, Staged(s, v), s.frames[v], m)
    ensures Conserved(Commit(s, v, m), v)
  {
    var t := Commit(s, v, m);
    assert Staged(t, v) == StagedAfter(Staged(s, v), m.next);
    hide InStep; hide AlwaysInStep; hide Balanced;
  }

  lemma SameConserved(owner: Owner, s: State, t: State, v: VolId)
    requires SameView(owner, s, t, v) && Conserved(s, v) && (v in s.frames ==> s.frames[v].req.vol == v)
    ensures Conserved(t, v)
  {
    assert EntryOf(s, v) == EntryOf(t, v);
    assert Staged(s, v) == Staged(t, v) && (v in s.volMap <==> v in t.volMap);
    hide SamePathView;
  }

  lemma ConservedBegin(s: State, req: Request)
    requires Conserved(s, req.vol)
    ensures Conserved(Step(s, Begin(req)), req.vol)
  {
    hide Decimal.ParseInt64;
  }

  lemma ConservedDaemon(s: State, e: Event, v: VolId)
    requires e.DaemonUp? || e.LinkLost? || e.DaemonDied?
    requires e.vol == v && Conserved(s, v)
    ensures Conserved(Step(s, e), v)
  {
  }

  lemma ConservedRestart(s: State, e: Event, v: VolId)
    requires LinksBacked(s.host) && e.Restart? && Conserved(s, v) && GoodRestart(s, e, v)
    ensures Conserved(Step(s, e), v)
  {
    RestartAdopts(s, e.listed.value, v);
    BackingIsVolume(s.host, v);
    hide Recover; hide Parse; hide Backing; hide LinksBacked; hide AllParse;
  }

  lemma ConservedStep(owner: Owner, s: State, e: Event, v: VolId)
    requires Inv(owner, s) && OwnedEvent(owner, e) && GoodRestart(s, e, v) && Conserved(s, v)
    ensures Conserved(Step(s, e), v)
  {
    if e.Restart? {
      ConservedRestart(s, e, v);
    } else if VolOf(e) != v {
      StepIsLocal(owner, s, e, v);
      hide Step; hide SameView; hide Conserved;
      SameConserved(owner, s, Step(s, e), v);
    } else if e.Begin? {
      ConservedBegin(s, e.req);
    } else if e.Op? {
      if v in s.frames {
        ActInStep(owner, s.host, Staged(s, v), s.frames[v], e.o);
        hide Act; hide MoveInStep;
        ConservedCommit(s, v, Act(s.host, s.frames[v], e.o));
      }
    } else {
      ConservedDaemon(s, e, v);
    }
  }

  lemma {:induction false} ConservedRun(owner: Owner, s: State, es: seq<Event>, v: VolId)
    requires Inv(owner, s) && OwnedEvents(owner, es) && GoodRestarts(s, es, v) && Conserved(s, v)
    ensures Conserved(Run(s, es), v)
    decreases |es|
  {
    if es != [] {
      InvStep(owner, s, es[0]);
      ConservedStep(owner, s, es[0], v);
      hide Step; hide Inv; hide Conserved;
      ConservedRun(owner, Step(s, es[0]), es[1..], v);
    }
  }

  /** Unit conservation: after any run with good restarts, for a volume without a call in flight,
      its daemon runs exactly if the map has it staged, or the volume is under suspicion because
      something about its unit was reported failed, cut off or died. */
  lemma {:induction false} UnitsConserved(owner: Owner, s: State, es: seq<Event>, v: VolId)
    requires Inv(owner, s) && OwnedEvents(owner, es) && GoodRestarts(s, es, v) && Conserved(s, v)
    ensures var t := Run(s, es);
      v !in t.frames && v !in t.suspect ==> (Live(t.host, v) <==> Staged(t, v)) && (Linked(t.host, v) <==> Staged(t, v))
  {
    ConservedRun(owner, s, es, v);
  }

  // Suspicion needs a cause

  /** An event that gives no cause for suspicion of v: the unit operations of its call succeed, its
      daemon neither dies nor appears unexpectedly, its link stays while its unit is loaded, and no
      restart cuts a call off. */
  predicate Harmless(s: State, e: Event, v: VolId) {
    match e
    case Op(w, o) =>
      w == v && v in s.frames && (InDelete(s.frames[v].pc) || s.frames[v].pc.StartUblk? || s.frames[v].pc.StopAfterWait?) ==> o.ok
    case DaemonUp(w, _) => w == v ==> DaemonUpDoubt(s, v).NoChange?
    case LinkLost(w) => w == v ==> LinkLostDoubt(s, v).NoChange?
    case DaemonDied(w) => w == v ==> !Live(s.host, v)
    case Restart(_) => v !in s.frames
    case _ => true
  }

  predicate HarmlessRun(s: State, es: seq<Event>, v: VolId)
    decreases |es|
  {
    es == [] || (Harmless(s, es[0], v) && HarmlessRun(Step(s, es[0]), es[1..], v))
  }

  lemma ActHarmless(h: Host, staged: bool, f: Frame, o: Outcome)
    requires InStep(h, f.req.vol, staged, f) && AlwaysInStep(h, f.req.vol, staged, f)
    requires PcOk(f.req.call, f.pc) && DevOk(f) && LinksBacked(h)
    requires InDelete(f.pc) || f.pc.StartUblk? || f.pc.StopAfterWait? ==> o.ok
    ensures !Act(h, f, o).doubt.Raised?
  {
    hide LinksBacked; hide Backing; hide Stat; hide IsMountPoint; hide Blkid; hide Mkfs; hide Parse; hide MkdirAll;
    hide OpenOrCreate; hide MountDevice; hide BindDevice; hide BindPath; hide UnmountTop; hide Remove; hide AfterRemove;
    BackingIsVolume(h, f.req.vol);
  }

  lemma HarmlessStep(owner: Owner, s: State, e: Event, v: VolId)
    requires Inv(owner, s) && OwnedEvent(owner, e) && Conserved(s, v) && v !in s.suspect && Harmless(s, e, v)
    ensures v !in Step(s, e).suspect
  {
    match e
    case Op(w, o) =>
      if w == v && v in s.frames {
        ActHarmless(s.host, Staged(s, v), s.frames[v], o);
      }
      hide Act; hide LinksBacked;
    case _ => hide Enter; hide Recover;
  }

  /** Without a cause there is no suspicion, so units and map agree exactly whenever the volume
      has no call in flight - also after failed mounts, probes, unmounts and removals. */
  lemma {:induction false} UnitsExact(owner: Owner, s: State, es: seq<Event>, v: VolId)
    requires Inv(owner, s) && OwnedEvents(owner, es) && GoodRestarts(s, es, v) && HarmlessRun(s, es, v)
    requires Conserved(s, v) && v !in s.suspect
    ensures var t := Run(s, es);
      v !in t.suspect && (v !in t.frames ==> (Live(t.host, v) <==> Staged(t, v)) && (Linked(t.host, v) <==> Staged(t, v)))
    decreases |es|
  {
    if es != [] {
      InvStep(owner, s, es[0]);
      ConservedStep(owner, s, es[0], v);
      HarmlessStep(owner, s, es[0], v);
      hide Step; hide Inv; hide Conserved;
      UnitsExact(owner, Step(s, es[0]), es[1..], v);
    }
  }

  // No minor is lost sight of

  /** A minor of v that is accounted for: its link points at it, or it is about to be deleted. */
  function Accounted(s: State, v: VolId): nat {
    if Linked(s.host, v) || (v in s.frames && s.frames[v].pc.DelRun?) then 1 else 0
  }

  predicate DeletesNext(n: Next) {
    n.Go? && n.pc.DelRun?
  }

  lemma ActAccounts(h: Host, staged: bool, f: Frame, o: Outcome)
    requires LinksBacked(h) && PcOk(f.req.call, f.pc) && DevOk(f) && CapturedOk(h.minors, f.req.vol, f.pc)
    requires InStep(h, f.req.vol, staged, f) && (InDelete(f.pc) ==> o.ok)
    ensures var v, m := f.req.vol, Act(h, f, o);
      Reserved(m.host.minors, v) + (if Linked(h, v) || f.pc.DelRun? then 1 else 0)
      == Reserved(h.minors, v) + (if Linked(m.host, v) || DeletesNext(m.next) then 1 else 0)
  {
    hide Reserved; hide CreateMove; hide MountMove; hide PublishMove; hide UnmountMove; hide LinksBacked;
    ActReserves(h, f, o, f.req.vol);
    ActTouches(h, f, o);
    OnlyDeleteCaptures(h, f, o);
  }

  lemma DaemonAccounts(s: State, e: Event, v: VolId)
    requires (e.DaemonUp? || e.LinkLost? || e.DaemonDied?) && e.vol == v && v !in s.suspect && Conserved(s, v) && Harmless(s, e, v)
    requires LinksBacked(s.host)
    ensures var t := Step(s, e); Reserved(t.host.minors, v) + Accounted(s, v) == Reserved(s.host.minors, v) + Accounted(t, v)
  {
    hide Reserved;
    if e.DaemonUp? && Live(s.host, v) { ReservedMore(s.host.minors, FirstFree(s.host.minors.Keys, e.pref), v, v); }
  }

  lemma AccountsStep(owner: Owner, s: State, e: Event, v: VolId)
    requires Inv(owner, s) && OwnedEvent(owner, e) && Conserved(s, v) && v !in s.suspect && Harmless(s, e, v)
    ensures var t := Step(s, e); Reserved(t.host.minors, v) + Accounted(s, v) == Reserved(s.host.minors, v) + Accounted(t, v)
  {
    hide Reserved; hide Act; hide Enter; hide Recover; hide DeviceUp; hide LinkDown; hide DaemonGone; hide LinksBacked;
    hide MapOk; hide InStep; hide AlwaysInStep; hide SamePathView; hide FrameOk;
    if e.Restart? {
    } else if VolOf(e) != v {
      StepIsLocal(owner, s, e, v);
      OtherFrames(s, e, v);
    } else if e.Op? {
      if v in s.frames {
        RequestsOwnVolume(owner, s, v);
        ActAccounts(s.host, Staged(s, v), s.frames[v], e.o);
      }
    } else if e.Begin? {
      EnterCapturesNothing(EntryOf(s, v), e.req);
    } else {
      DaemonAccounts(s, e, v);
    }
  }

  /** In a run without a cause for suspicion no minor is leaked: but for the one that the link shows or
      that is about to be deleted, as many are reserved for the volume as before. */
  lemma {:induction false} MinorsExact(owner: Owner, s: State, es: seq<Event>, v: VolId)
    requires Inv(owner, s) && OwnedEvents(owner, es) && GoodRestarts(s, es, v) && HarmlessRun(s, es, v)
    requires Conserved(s, v) && v !in s.suspect
    ensures var t := Run(s, es); Reserved(t.host.minors, v) + Accounted(s, v) == Reserved(s.host.minors, v) + Accounted(t, v)
    decreases |es|
  {
    hide Step; hide Inv; hide Conserved; hide Reserved; hide Accounted; hide Harmless;
    if es != [] {
      InvStep(owner, s, es[0]);
      ConservedStep(owner, s, es[0], v);
      HarmlessStep(owner, s, es[0], v);
      AccountsStep(owner, s, es[0], v);
      MinorsExact(owner, Step(s, es[0]), es[1..], v);
    }
  }
}
