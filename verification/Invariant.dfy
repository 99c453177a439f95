/** What every reachable state of the node plugin satisfies, whatever fails, dies or restarts,
    as long as no two volumes share a path. */
module Invariant {
  import opened Uuid
  import opened Types
  import opened HostModel
  import opened Machine
  import opened Effects
  import Decimal

  /** Which volume a path belongs to.  That one such assignment fits all requests is the
      hypothesis that no path is shared between volumes. */
  type Owner = Path -> VolId

  predicate OwnedRequest(owner: Owner, req: Request) {
    && (!req.call.Unpublish? ==> owner(req.staging) == req.vol)
    && (req.call.Publish? || req.call.Unpublish? ==> owner(req.target) == req.vol)
  }

  predicate OwnedEvent(owner: Owner, e: Event) {
    e.Begin? ==> OwnedRequest(owner, e.req)
  }

  predicate OwnedEvents(owner: Owner, es: seq<Event>) {
    forall i | 0 <= i < |es| :: OwnedEvent(owner, es[i])
  }

  /** A link resolves to a reserved minor, and that minor backs the volume the link is named
      after. */
  ghost predicate LinksBacked(h: Host) {
    forall dev | dev in h.links :: h.links[dev] in h.minors && dev == UblkByUUIDPath(h.minors[h.links[dev]])
  }

  /** A device path in the map is the one derived from the key, and only for a key that parses. */
  predicate EntryOk(v: VolId, entry: Entry) {
    entry.ublkPath != NoDevPath ==>
      entry.ublkPath == UblkByUUIDPath(v) && Parse(v.text).Some? && entry.volId == Parse(v.text)
  }

  ghost predicate MapOk(volMap: map<VolId, Entry>) {
    forall v | v in volMap :: EntryOk(v, volMap[v])
  }

  function SiteCall(at: Site): CallKind {
    if at.UnstageUnmount? || at.UnstageCleanup? then Unstage else Unpublish
  }

  /** The call a step belongs to. */
  function CallOf(pc: PC): CallKind {
    if InPublish(pc) then Publish
    else match pc
      case DelResolve(why) => if why.Teardown? then Unstage else Stage
      case DelStop(why, _) => if why.Teardown? then Unstage else Stage
      case DelRun(why, _) => if why.Teardown? then Unstage else Stage
      case UmStat(at) => SiteCall(at)
      case UmCheck(at) => SiteCall(at)
      case UmUnmount(at) => SiteCall(at)
      case RemovePath(at) => SiteCall(at)
      case DropEntry => Unstage
      case StatMode => Unpublish
      case ClearTarget => Unpublish
      case _ => Stage
  }

  /** The minor a teardown has captured is reserved for the volume being torn down. */
  predicate CapturedOk(minors: map<nat, VolId>, v: VolId, pc: PC) {
    && (pc.DelStop? ==> pc.id.Some? && pc.id.value in minors && minors[pc.id.value] == v)
    && (pc.DelRun? ==> pc.minor in minors && minors[pc.minor] == v)
  }

  predicate DevOk(f: Frame) {
    match f.req.call
    case Publish => f.dev == NoDevPath || f.dev == UblkByUUIDPath(f.req.vol)
    case Unpublish => true
    case _ => f.dev == UblkByUUIDPath(f.req.vol)
  }

  predicate PcOk(call: CallKind, pc: PC) {
    call == CallOf(pc) && (pc.RemovePath? ==> pc.at.UnstageCleanup? || pc.at.UnpublishCleanup?)
  }

  predicate FrameOk(owner: Owner, v: VolId, f: Frame) {
    && f.req.vol == v
    && OwnedRequest(owner, f.req)
    && DevOk(f)
    && PcOk(f.req.call, f.pc)
  }

  ghost predicate FramesOk(owner: Owner, s: State) {
    forall v | v in s.frames :: FrameOk(owner, v, s.frames[v]) && CapturedOk(s.host.minors, v, s.frames[v].pc)
  }

  ghost predicate Inv(owner: Owner, s: State) {
    LinksBacked(s.host) && MapOk(s.volMap) && FramesOk(owner, s)
  }

  lemma RequestsOwnVolume(owner: Owner, s: State, v: VolId)
    requires Inv(owner, s) && v in s.frames
    ensures var f := s.frames[v];
      && f.req.vol == v && PcOk(f.req.call, f.pc) && DevOk(f)
      && CapturedOk(s.host.minors, v, f.pc) && (InDelete(f.pc) ==> f.dev == UblkByUUIDPath(v))
  {
    hide LinksBacked; hide MapOk;
    assert FrameOk(owner, v, s.frames[v]);
  }

  /** A plugin that has just started on a host whose links are in order. */
  ghost predicate Starting(s: State) {
    LinksBacked(s.host) && s.volMap == map[] && s.frames == map[]
  }

  lemma InvStarts(owner: Owner, s: State)
    requires Starting(s)
    ensures Inv(owner, s)
  {
  }

  /** Deleting a captured minor frees it and its links and nothing else. */
  lemma DeleteKeepsOthers(h: Host, v: VolId, id: nat, o: Outcome)
    requires LinksBacked(h) && id in h.minors && h.minors[id] == v
    ensures var k := DeleteMinor(h, id, o).host; LinksBacked(k) && OthersKept(h, k, v)
  {
  }

  lemma ActKeepsDevices(h: Host, f: Frame, o: Outcome)
    requires LinksBacked(h) && CapturedOk(h.minors, f.req.vol, f.pc)
    ensures var m := Act(h, f, o); LinksBacked(m.host) && OthersKept(h, m.host, f.req.vol)
  {
    ActTouches(h, f, o);
    if f.pc.DelRun? {
      DeleteKeepsOthers(h, f.req.vol, f.pc.minor, o);
      assert Act(h, f, o).host == DeleteMinor(h, f.pc.minor, o).host;
    }
    hide Act;
  }

  predicate StaysInCall(f: Frame, m: Move) {
    m.next.Go? ==> PcOk(f.req.call, m.next.pc)
  }

  lemma CreateStaysInCall(h: Host, f: Frame, o: Outcome)
    requires PcOk(f.req.call, f.pc) && InCreate(f.pc)
    ensures StaysInCall(f, CreateMove(h, f, o))
  {
    hide StartUnit; hide StopUnit;
  }

  lemma MountStaysInCall(h: Host, f: Frame, o: Outcome)
    requires PcOk(f.req.call, f.pc) && InMount(f.pc)
    ensures StaysInCall(f, MountMove(h, f, o))
  {
    hide Blkid; hide Mkfs; hide IsMountPoint; hide MountDevice; hide MkdirAll; hide Parse;
  }

  lemma DeleteStaysInCall(h: Host, f: Frame, o: Outcome)
    requires PcOk(f.req.call, f.pc) && InDelete(f.pc)
    ensures StaysInCall(f, DeleteMove(h, f, o))
  {
    hide StopUnit; hide ResolveUblkId; hide DeleteMinor;
  }

  lemma PublishStaysInCall(h: Host, f: Frame, o: Outcome)
    requires PcOk(f.req.call, f.pc) && InPublish(f.pc)
    ensures StaysInCall(f, PublishMove(h, f, o))
  {
    hide IsMountPoint; hide BindDevice; hide BindPath; hide Stat; hide MkdirAll; hide OpenOrCreate;
  }

  lemma UnmountStaysInCall(h: Host, f: Frame, o: Outcome)
    requires PcOk(f.req.call, f.pc) && !InCreate(f.pc) && !InMount(f.pc) && !InDelete(f.pc) && !InPublish(f.pc)
    ensures StaysInCall(f, UnmountMove(h, f, o))
  {
    hide IsMountPoint; hide Stat; hide UnmountTop; hide AfterRemove;
  }

  lemma ActStaysInCall(h: Host, f: Frame, o: Outcome)
    requires PcOk(f.req.call, f.pc)
    ensures StaysInCall(f, Act(h, f, o))
  {
    hide StaysInCall; hide PcOk; hide CreateMove; hide MountMove; hide DeleteMove; hide PublishMove; hide UnmountMove;
    if InCreate(f.pc) { CreateStaysInCall(h, f, o); }
    else if InMount(f.pc) { MountStaysInCall(h, f, o); }
    else if InDelete(f.pc) { DeleteStaysInCall(h, f, o); }
    else if InPublish(f.pc) { PublishStaysInCall(h, f, o); }
    else { UnmountStaysInCall(h, f, o); }
  }

  lemma ActCaptures(h: Host, f: Frame, o: Outcome)
    requires LinksBacked(h) && PcOk(f.req.call, f.pc) && DevOk(f) && CapturedOk(h.minors, f.req.vol, f.pc)
    ensures var m := Act(h, f, o); m.next.Go? ==> CapturedOk(m.host.minors, f.req.vol, m.next.pc)
  {
    if InDelete(f.pc) {
      DeleteTouches(h, f, o);
    } else {
      hide StartUnit; hide StopUnit; hide ResolveUblkId; hide DeleteMinor; hide Blkid; hide Mkfs; hide IsMountPoint;
      hide MountDevice; hide BindDevice; hide BindPath; hide UnmountTop; hide Stat; hide MkdirAll; hide OpenOrCreate;
      hide Remove; hide AfterRemove; hide Parse; hide LinksBacked;
    }
  }

  lemma ActWritesOk(owner: Owner, h: Host, f: Frame, o: Outcome)
    requires FrameOk(owner, f.req.vol, f)
    ensures var m := Act(h, f, o); m.next.Done? && m.next.write.Put? ==> EntryOk(f.req.vol, m.next.write.entry)
  {
    hide Parse;
  }

  lemma EnterOk(owner: Owner, entry: Option<Entry>, req: Request)
    requires OwnedRequest(owner, req)
    requires entry.Some? ==> EntryOk(req.vol, entry.value)
    ensures var e := Enter(entry, req); e.Admit? ==>
      FrameOk(owner, req.vol, e.frame) && !e.frame.pc.DelStop? && !e.frame.pc.DelRun?
  {
    hide Parse; hide Decimal.ParseInt64;
  }

  lemma {:induction false} RecoverKeepsMapOk(volMap: map<VolId, Entry>, h: Host, listed: seq<VolId>)
    requires MapOk(volMap)
    ensures MapOk(Recover(volMap, h, listed).0)
    decreases |listed|
  {
    hide Parse;
    if listed != [] {
      var v := listed[0];
      var entry := if v in volMap then volMap[v] else BARE_ENTRY;
      if Backing(h, UblkByUUIDPath(v)).None? {
        RecoverKeepsMapOk(volMap, h, listed[1..]);
      } else if Parse(v.text).Some? {
        RecoverKeepsMapOk(volMap[v := entry.(volId := Parse(v.text), ublkPath := UblkByUUIDPath(v))], h, listed[1..]);
      }
    }
  }

  /** What one move has to bring along for the whole state to stay good. */
  lemma InvCommit(owner: Owner, s: State, v: VolId, m: Move)
    requires Inv(owner, s) && v in s.frames
    requires LinksBacked(m.host) && OthersKept(s.host, m.host, v)
    requires m.next.Go? ==> FrameOk(owner, v, s.frames[v].(pc := m.next.pc)) && CapturedOk(m.host.minors, v, m.next.pc)
    requires m.next.Done? && m.next.write.Put? ==> EntryOk(v, m.next.write.entry)
    ensures Inv(owner, Commit(s, v, m))
  {
    hide FrameOk; hide Parse;
  }

  lemma InvOp(owner: Owner, s: State, v: VolId, o: Outcome)
    requires Inv(owner, s) && v in s.frames
    ensures Inv(owner, Step(s, Op(v, o)))
  {
    ActKeepsDevices(s.host, s.frames[v], o);
    ActStaysInCall(s.host, s.frames[v], o);
    ActCaptures(s.host, s.frames[v], o);
    ActWritesOk(owner, s.host, s.frames[v], o);
    InvCommit(owner, s, v, Act(s.host, s.frames[v], o));
  }

  lemma InvStep(owner: Owner, s: State, e: Event)
    requires Inv(owner, s) && OwnedEvent(owner, e)
    ensures Inv(owner, Step(s, e))
  {
    hide Act; hide EntryOk; hide FrameOk; hide Enter;
    match e
    case Begin(req) => EnterOk(owner, EntryOf(s, req.vol), req);
    case Op(v, o) => if v in s.frames { InvOp(owner, s, v, o); }
    case Restart(listed) => if listed.Some? { RecoverKeepsMapOk(map[], s.host, listed.value); }
    case _ =>
  }

  lemma {:induction false} InvRun(owner: Owner, s: State, es: seq<Event>)
    requires Inv(owner, s) && OwnedEvents(owner, es)
    ensures Inv(owner, Run(s, es))
    decreases |es|
  {
    if es != [] {
      InvStep(owner, s, es[0]);
      InvRun(owner, Step(s, es[0]), es[1..]);
    }
  }

  /** Map well-formedness: after any run, also one cut short by a recovery that met a bad ID, no
      two staged volumes share a device path and each one's VolID is the parse of its key. */
  lemma {:induction false} MapWellFormed(owner: Owner, s: State, es: seq<Event>, v: VolId, w: VolId)
    requires Inv(owner, s) && OwnedEvents(owner, es)
    ensures var t := Run(s, es);
      && (Staged(t, v) ==> t.volMap[v].ublkPath == UblkByUUIDPath(v) && Parse(v.text).Some? && t.volMap[v].volId == Parse(v.text))
      && (Staged(t, v) && Staged(t, w) && t.volMap[v].ublkPath == t.volMap[w].ublkPath ==> v == w)
  {
    InvRun(owner, s, es);
    hide Parse;
  }

  /** Teardown isolation: whatever other volumes do in between, and even if the link vanishes
      once the unit is stopped, the minor handed to `ublk del` is one that backs the volume being
      torn down, and deleting it takes no device, link or unit from any other volume. */
  lemma {:induction false} TeardownIsolation(owner: Owner, s: State, es: seq<Event>, v: VolId, o: Outcome)
    requires Inv(owner, s) && OwnedEvents(owner, es)
    ensures var t := Run(s, es); v in t.frames && t.frames[v].pc.DelRun? ==>
      && t.frames[v].pc.minor in t.host.minors
      && t.host.minors[t.frames[v].pc.minor] == v
      && OthersKept(t.host, Step(t, Op(v, o)).host, v)
  {
    InvRun(owner, s, es);
    var t := Run(s, es);
    if v in t.frames {
      ActKeepsDevices(t.host, t.frames[v], o);
    }
  }
}
