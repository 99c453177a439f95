/** What one volume sees of the state - of ublk minors how many it has, not their numbers - and that
    a step depends on and changes only the view of its own volume. */
module Views {
  import opened Uuid
  import opened Types
  import opened HostModel
  import opened Machine
  import opened Effects
  import opened Invariant
  import Decimal

  /** The minors that back a volume, whether or not a link points at them. */
  function MinorsOf(minors: map<nat, VolId>, v: VolId): set<nat> {
    set m | m in minors && minors[m] == v
  }

  function Reserved(minors: map<nat, VolId>, v: VolId): nat {
    |MinorsOf(minors, v)|
  }

  lemma ReservedMore(minors: map<nat, VolId>, m: nat, v: VolId, w: VolId)
    requires m !in minors
    ensures Reserved(minors[m := v], w) == Reserved(minors, w) + if v == w then 1 else 0
  {
    assert MinorsOf(minors[m := v], w) == MinorsOf(minors, w) + if v == w then {m} else {};
  }

  lemma ReservedLess(minors: map<nat, VolId>, m: nat, w: VolId)
    requires m in minors
    ensures Reserved(minors, w) == Reserved(minors - {m}, w) + if minors[m] == w then 1 else 0
  {
    assert minors == (minors - {m})[m := minors[m]];
    ReservedMore(minors - {m}, m, minors[m], w);
  }

  predicate SameDeviceView(h: Host, k: Host, v: VolId) {
    && (Live(h, v) <==> Live(k, v))
    && (Linked(h, v) <==> Linked(k, v))
    && Reserved(h.minors, v) == Reserved(k.minors, v)
    && FsOn(h, v) == FsOn(k, v)
  }

  ghost predicate SamePathView(owner: Owner, h: Host, k: Host, v: VolId) {
    forall p | owner(p) == v :: Layers(h, p) == Layers(k, p) && KindOf(h, p) == KindOf(k, p)
  }

  ghost predicate SameHostView(owner: Owner, h: Host, k: Host, v: VolId) {
    SameDeviceView(h, k, v) && SamePathView(owner, h, k, v)
  }

  /** A step with the captured minor blotted out. */
  function Blur(pc: PC): PC {
    match pc
    case DelStop(why, _) => DelStop(why, Some(0))
    case DelRun(why, _) => DelRun(why, 0)
    case _ => pc
  }

  function BlurNext(n: Next): Next {
    if n.Go? then Go(Blur(n.pc)) else n
  }

  /** Whether the volume's link still points at the captured minor. */
  predicate Points(h: Host, v: VolId, pc: PC) {
    && Linked(h, v)
    && (pc.DelStop? ==> pc.id == Some(h.links[UblkByUUIDPath(v)]))
    && (pc.DelRun? ==> pc.minor == h.links[UblkByUUIDPath(v)])
  }

  ghost predicate SameFrame(h: Host, k: Host, f: Frame, g: Frame) {
    && f.(pc := Blur(f.pc)) == g.(pc := Blur(g.pc))
    && (Points(h, f.req.vol, f.pc) <==> Points(k, g.req.vol, g.pc))
  }

  ghost predicate SameCall(s: State, t: State, v: VolId) {
    && (v in s.frames <==> v in t.frames)
    && (v in s.frames ==> SameFrame(s.host, t.host, s.frames[v], t.frames[v]))
  }

  ghost predicate SameView(owner: Owner, s: State, t: State, v: VolId) {
    && SameHostView(owner, s.host, t.host, v)
    && EntryOf(s, v) == EntryOf(t, v)
    && SameCall(s, t, v)
    && Replies(s, v) == Replies(t, v)
    && (v in s.suspect <==> v in t.suspect)
  }

  lemma SameViewTransitive(owner: Owner, s: State, t: State, u: State, v: VolId)
    requires SameView(owner, s, t, v) && SameView(owner, t, u, v)
    ensures SameView(owner, s, u, v)
  {
  }

  /** The volume an event belongs to; a restart belongs to none. */
  function VolOf(e: Event): VolId
    requires !e.Restart?
  {
    if e.Begin? then e.req.vol else e.vol
  }

  // Other volumes

  lemma WorksOnOwned(owner: Owner, f: Frame, q: Path)
    requires FrameOk(owner, f.req.vol, f) && WorksOn(f, q)
    ensures owner(q) == f.req.vol
  {
  }

  /** Only `ublk del` gives a minor back, the one that was captured. */
  lemma ActReserves(h: Host, f: Frame, o: Outcome, w: VolId)
    requires CapturedOk(h.minors, f.req.vol, f.pc)
    ensures var k := Act(h, f, o).host;
      Reserved(k.minors, w) + (if w == f.req.vol && f.pc.DelRun? && (o.ok || o.did) then 1 else 0) == Reserved(h.minors, w)
  {
    hide Reserved;
    ActTouches(h, f, o);
    if f.pc.DelRun? {
      ReservedLess(h.minors, f.pc.minor, w);
      assert Act(h, f, o).host == DeleteMinor(h, f.pc.minor, o).host;
    }
    hide Act;
  }

  lemma ActIsLocal(owner: Owner, h: Host, f: Frame, o: Outcome, w: VolId)
    requires LinksBacked(h) && FrameOk(owner, f.req.vol, f) && CapturedOk(h.minors, f.req.vol, f.pc)
    requires w != f.req.vol
    ensures SameHostView(owner, h, Act(h, f, o).host, w)
  {
    hide Act; hide WorksOn; hide Reserved;
    ActReserves(h, f, o, w);
    ActKeepsDevices(h, f, o);
    ActTouches(h, f, o);
    forall q | WorksOn(f, q) ensures owner(q) == f.req.vol { WorksOnOwned(owner, f, q); }
    assert Act(h, f, o).host.fs != h.fs ==> f.dev == UblkByUUIDPath(f.req.vol);
    hide FrameOk;
  }

  // The volume's own steps

  ghost predicate Agree(owner: Owner, v: VolId, m: Move, n: Move) {
    && SameHostView(owner, m.host, n.host, v)
    && m.next == n.next
    && m.doubt == n.doubt
  }

  lemma BackingIsVolume(h: Host, v: VolId)
    requires LinksBacked(h)
    ensures Backing(h, UblkByUUIDPath(v)) == if Linked(h, v) then Some(v) else None
    ensures Backing(h, NoDevPath) == None
  {
  }

  ghost predicate SameEffect(owner: Owner, v: VolId, r: Effect, q: Effect) {
    r.ok == q.ok && SameHostView(owner, r.host, q.host, v)
  }

  lemma SetUnitsAgrees(owner: Owner, h: Host, k: Host, v: VolId, us: set<Unit>, ws: set<Unit>)
    requires SameHostView(owner, h, k, v) && (UblkUnitName(v) in us <==> UblkUnitName(v) in ws)
    ensures SameHostView(owner, h.(units := us), k.(units := ws), v)
  {
  }

  lemma UnitPrimitivesAgree(owner: Owner, h: Host, k: Host, v: VolId, o: Outcome)
    requires SameHostView(owner, h, k, v)
    ensures SameEffect(owner, v, StartUnit(h, v, o), StartUnit(k, v, o))
    ensures SameEffect(owner, v, StopUnit(h, v, o), StopUnit(k, v, o))
  {
    var u := UblkUnitName(v);
    SetUnitsAgrees(owner, h, k, v, h.units + {u}, k.units + {u});
    SetUnitsAgrees(owner, h, k, v, h.units - {u}, k.units - {u});
    hide SamePathView;
  }

  lemma ProbesAgree(owner: Owner, h: Host, k: Host, v: VolId, p: Path, o: Outcome)
    requires SameHostView(owner, h, k, v) && owner(p) == v
    ensures Stat(h, p, o) == Stat(k, p, o) && IsMountPoint(h, p, o) == IsMountPoint(k, p, o) && Remove(h, p, o) == Remove(k, p, o)
  {
    assert Layers(h, p) == Layers(k, p) && KindOf(h, p) == KindOf(k, p);
    hide SameHostView;
  }

  lemma DeviceProbesAgree(owner: Owner, h: Host, k: Host, v: VolId, dev: DevPath, o: Outcome)
    requires SameHostView(owner, h, k, v) && LinksBacked(h) && LinksBacked(k)
    requires dev == NoDevPath || dev == UblkByUUIDPath(v)
    ensures Backing(h, dev) == Backing(k, dev) && (Backing(h, dev).Some? ==> Backing(h, dev).value == v)
    ensures Blkid(h, dev, o) == Blkid(k, dev, o)
    ensures ResolveUblkId(h, dev, o).Some? <==> ResolveUblkId(k, dev, o).Some?
  {
    BackingIsVolume(h, v);
    BackingIsVolume(k, v);
    hide LinksBacked; hide Backing; hide SamePathView;
  }

  lemma PushAgrees(owner: Owner, h: Host, k: Host, v: VolId, p: Path, l: Layer)
    requires SameHostView(owner, h, k, v) && owner(p) == v
    ensures SameHostView(owner, Push(h, p, l), Push(k, p, l), v)
  {
  }

  lemma MountPrimitivesAgree(owner: Owner, h: Host, k: Host, v: VolId, dev: DevPath, src: Path, p: Path, t: FsType, o: Outcome)
    requires SameHostView(owner, h, k, v) && owner(p) == v && owner(src) == v && Backing(h, dev) == Backing(k, dev)
    ensures SameEffect(owner, v, MountDevice(h, dev, p, t, o), MountDevice(k, dev, p, t, o))
    ensures SameEffect(owner, v, BindDevice(h, dev, p, o), BindDevice(k, dev, p, o))
    ensures SameEffect(owner, v, BindPath(h, src, p, o), BindPath(k, src, p, o))
  {
    forall l { PushAgrees(owner, h, k, v, p, l); }
    assert Layers(h, src) == Layers(k, src) && KindOf(h, src) == KindOf(k, src);
    hide SameHostView; hide Push; hide Backing; hide Layers; hide KindOf;
  }

  lemma SetKindAgrees(owner: Owner, h: Host, k: Host, v: VolId, p: Path, kind: Kind)
    requires SameHostView(owner, h, k, v)
    ensures SameHostView(owner, h.(kinds := h.kinds[p := kind]), k.(kinds := k.kinds[p := kind]), v)
  {
  }

  lemma PathPrimitivesAgree(owner: Owner, h: Host, k: Host, v: VolId, p: Path, o: Outcome)
    requires SameHostView(owner, h, k, v) && owner(p) == v
    ensures SameEffect(owner, v, MkdirAll(h, p, o), MkdirAll(k, p, o))
    ensures SameEffect(owner, v, OpenOrCreate(h, p, o), OpenOrCreate(k, p, o))
    ensures SameHostView(owner, AfterRemove(h, p, o), AfterRemove(k, p, o), v)
  {
    ProbesAgree(owner, h, k, v, p, o);
    SetKindAgrees(owner, h, k, v, p, Dir);
    SetKindAgrees(owner, h, k, v, p, File);
    SetKindAgrees(owner, h, k, v, p, Absent);
    hide SameHostView; hide Stat; hide Remove;
  }

  lemma UnmountPrimitiveAgrees(owner: Owner, h: Host, k: Host, v: VolId, p: Path, o: Outcome)
    requires SameHostView(owner, h, k, v) && owner(p) == v
    ensures SameEffect(owner, v, UnmountTop(h, p, o), UnmountTop(k, p, o))
  {
  }

  lemma MkfsAgrees(owner: Owner, h: Host, k: Host, v: VolId, dev: DevPath, t: FsType, o: Outcome)
    requires SameHostView(owner, h, k, v)
    requires Backing(h, dev) == Backing(k, dev) && (Backing(h, dev).Some? ==> Backing(h, dev).value == v)
    ensures SameEffect(owner, v, Mkfs(h, dev, t, o), Mkfs(k, dev, t, o))
  {
    hide Backing;
  }

  lemma CreateAgrees(owner: Owner, h: Host, k: Host, f: Frame, o: Outcome)
    requires SameHostView(owner, h, k, f.req.vol) && InCreate(f.pc)
    ensures Agree(owner, f.req.vol, CreateMove(h, f, o), CreateMove(k, f, o))
  {
    UnitPrimitivesAgree(owner, h, k, f.req.vol, o);
    hide StartUnit; hide StopUnit; hide SamePathView;
  }

  lemma MountAgrees(owner: Owner, h: Host, k: Host, f: Frame, o: Outcome)
    requires SameHostView(owner, h, k, f.req.vol) && InMount(f.pc)
    requires LinksBacked(h) && LinksBacked(k) && f.dev == UblkByUUIDPath(f.req.vol) && owner(f.req.staging) == f.req.vol
    ensures Agree(owner, f.req.vol, MountMove(h, f, o), MountMove(k, f, o))
  {
    hide LinksBacked; hide Backing; hide Parse; hide SameHostView; hide Mkfs; hide MkdirAll; hide IsMountPoint;
    hide MountDevice; hide Blkid;
    var v, p := f.req.vol, f.req.staging;
    DeviceProbesAgree(owner, h, k, v, f.dev, o);
    ProbesAgree(owner, h, k, v, p, o);
    PathPrimitivesAgree(owner, h, k, v, p, o);
    MkfsAgrees(owner, h, k, v, f.dev, f.req.FsType(), o);
    if f.pc.MountStaging? { MountPrimitivesAgree(owner, h, k, v, f.dev, p, p, f.pc.fsType, o); }
  }

  lemma BindAgrees(owner: Owner, h: Host, k: Host, f: Frame, o: Outcome)
    requires SameHostView(owner, h, k, f.req.vol) && f.pc.BindTarget? && Backing(h, f.dev) == Backing(k, f.dev)
    requires owner(f.req.staging) == f.req.vol && owner(f.req.target) == f.req.vol
    ensures Agree(owner, f.req.vol, PublishMove(h, f, o), PublishMove(k, f, o))
  {
    hide Backing; hide SameHostView; hide BindDevice; hide BindPath;
    MountPrimitivesAgree(owner, h, k, f.req.vol, f.dev, f.req.staging, f.req.target, NoFs, o);
  }

  lemma PublishAgrees(owner: Owner, h: Host, k: Host, f: Frame, o: Outcome)
    requires SameHostView(owner, h, k, f.req.vol) && InPublish(f.pc)
    requires LinksBacked(h) && LinksBacked(k) && (f.dev == NoDevPath || f.dev == UblkByUUIDPath(f.req.vol))
    requires owner(f.req.staging) == f.req.vol && owner(f.req.target) == f.req.vol
    ensures Agree(owner, f.req.vol, PublishMove(h, f, o), PublishMove(k, f, o))
  {
    hide LinksBacked; hide SameHostView; hide MkdirAll; hide OpenOrCreate; hide IsMountPoint; hide Stat; hide Backing;
    hide BindDevice; hide BindPath;
    var v, p := f.req.vol, f.req.target;
    if f.pc.BindTarget? {
      DeviceProbesAgree(owner, h, k, v, f.dev, o);
      BindAgrees(owner, h, k, f, o);
    } else {
      ProbesAgree(owner, h, k, v, p, o);
      PathPrimitivesAgree(owner, h, k, v, p, o);
    }
  }

  lemma UnmountAgrees(owner: Owner, h: Host, k: Host, f: Frame, o: Outcome)
    requires SameHostView(owner, h, k, f.req.vol) && FrameOk(owner, f.req.vol, f)
    requires !InCreate(f.pc) && !InMount(f.pc) && !InDelete(f.pc) && !InPublish(f.pc)
    ensures Agree(owner, f.req.vol, UnmountMove(h, f, o), UnmountMove(k, f, o))
  {
    hide SameHostView; hide IsMountPoint; hide Stat; hide Remove; hide AfterRemove; hide UnmountTop;
    forall p | owner(p) == f.req.vol
      ensures Stat(h, p, o) == Stat(k, p, o) && IsMountPoint(h, p, o) == IsMountPoint(k, p, o)
      ensures SameHostView(owner, AfterRemove(h, p, o), AfterRemove(k, p, o), f.req.vol)
      ensures SameEffect(owner, f.req.vol, UnmountTop(h, p, o), UnmountTop(k, p, o))
    {
      ProbesAgree(owner, h, k, f.req.vol, p, o);
      PathPrimitivesAgree(owner, h, k, f.req.vol, p, o);
      UnmountPrimitiveAgrees(owner, h, k, f.req.vol, p, o);
    }
  }

  lemma DeleteMinorAgrees(owner: Owner, h: Host, k: Host, v: VolId, i: nat, j: nat, o: Outcome)
    requires SameHostView(owner, h, k, v) && LinksBacked(h) && LinksBacked(k)
    requires i in h.minors && h.minors[i] == v && j in k.minors && k.minors[j] == v
    requires (Linked(h, v) && h.links[UblkByUUIDPath(v)] == i) <==> (Linked(k, v) && k.links[UblkByUUIDPath(v)] == j)
    ensures SameEffect(owner, v, DeleteMinor(h, i, o), DeleteMinor(k, j, o))
  {
    hide Reserved;
    ReservedLess(h.minors, i, v);
    ReservedLess(k.minors, j, v);
    var hl, kl := DeleteMinor(h, i, o).host, DeleteMinor(k, j, o).host;
    assert SamePathView(owner, hl, kl, v);
    hide SamePathView; hide LinksBacked;
  }

  ghost predicate AgreeBlurred(owner: Owner, v: VolId, m: Move, n: Move) {
    SameHostView(owner, m.host, n.host, v) && BlurNext(m.next) == BlurNext(n.next) && m.doubt == n.doubt
  }

  lemma DeleteAgrees(owner: Owner, h: Host, k: Host, f: Frame, g: Frame, o: Outcome)
    requires SameHostView(owner, h, k, f.req.vol) && SameFrame(h, k, f, g) && InDelete(f.pc)
    requires LinksBacked(h) && LinksBacked(k) && f.dev == UblkByUUIDPath(f.req.vol)
    requires CapturedOk(h.minors, f.req.vol, f.pc) && CapturedOk(k.minors, f.req.vol, g.pc)
    ensures AgreeBlurred(owner, f.req.vol, DeleteMove(h, f, o), DeleteMove(k, g, o))
  {
    var v := f.req.vol;
    match f.pc
    case DelRun(_, minor) =>
      DeleteMinorAgrees(owner, h, k, v, minor, g.pc.minor, o);
      hide LinksBacked; hide SamePathView; hide DeleteMinor; hide Points;
    case DelStop(_, _) =>
      UnitPrimitivesAgree(owner, h, k, v, o);
      hide LinksBacked; hide SameHostView; hide StopUnit; hide Points;
    case _ =>
      DeviceProbesAgree(owner, h, k, v, f.dev, o);
      hide LinksBacked; hide SameHostView; hide ResolveUblkId; hide Points;
  }

  lemma DeletePoints(owner: Owner, h: Host, k: Host, f: Frame, g: Frame, o: Outcome)
    requires SameHostView(owner, h, k, f.req.vol) && SameFrame(h, k, f, g) && InDelete(f.pc)
    requires CapturedOk(h.minors, f.req.vol, f.pc) && CapturedOk(k.minors, f.req.vol, g.pc)
    requires f.dev == UblkByUUIDPath(f.req.vol) && !f.pc.DelRun?
    ensures var m, n := DeleteMove(h, f, o), DeleteMove(k, g, o);
      m.next.Go? && n.next.Go? && (m.next.pc.DelStop? || m.next.pc.DelRun?) && (n.next.pc.DelStop? || n.next.pc.DelRun?) ==>
      (Points(m.host, f.req.vol, m.next.pc) <==> Points(n.host, f.req.vol, n.next.pc))
  {
    DeleteTouches(h, f, o);
    DeleteTouches(k, g, o);
    hide SamePathView; hide StopUnit; hide OthersKept; hide SameUnitsBut;
  }

  /** All steps of a call together. */
  lemma ActAgrees(owner: Owner, h: Host, k: Host, f: Frame, g: Frame, o: Outcome)
    requires LinksBacked(h) && LinksBacked(k) && FrameOk(owner, f.req.vol, f)
    requires CapturedOk(h.minors, f.req.vol, f.pc) && CapturedOk(k.minors, f.req.vol, g.pc)
    requires SameHostView(owner, h, k, f.req.vol) && SameFrame(h, k, f, g)
    ensures AgreeBlurred(owner, f.req.vol, Act(h, f, o), Act(k, g, o))
  {
    hide SameHostView; hide LinksBacked; hide Points;
    if InDelete(f.pc) {
      DeleteAgrees(owner, h, k, f, g, o);
      hide DeleteMove;
    } else {
      assert f == g;
      if InCreate(f.pc) { CreateAgrees(owner, h, k, f, o); }
      else if InMount(f.pc) { MountAgrees(owner, h, k, f, o); }
      else if InPublish(f.pc) { PublishAgrees(owner, h, k, f, o); }
      else { UnmountAgrees(owner, h, k, f, o); }
      hide CreateMove; hide MountMove; hide PublishMove; hide UnmountMove;
    }
  }

  predicate Capturing(pc: PC) {
    pc.DelStop? || pc.DelRun?
  }

  /** Only resolving and stopping lead to a step that holds a captured minor. */
  lemma OnlyDeleteCaptures(h: Host, f: Frame, o: Outcome)
    requires PcOk(f.req.call, f.pc) && DevOk(f)
    ensures var m := Act(h, f, o); m.next.Go? && Capturing(m.next.pc) ==> InDelete(f.pc) && !f.pc.DelRun?
  {
    hide StartUnit; hide StopUnit; hide ResolveUblkId; hide DeleteMinor; hide Blkid; hide Mkfs; hide IsMountPoint;
    hide MountDevice; hide BindDevice; hide BindPath; hide UnmountTop; hide Stat; hide MkdirAll; hide OpenOrCreate;
    hide Remove; hide AfterRemove; hide Parse;
  }

  lemma ActPoints(owner: Owner, h: Host, k: Host, f: Frame, g: Frame, o: Outcome)
    requires LinksBacked(h) && LinksBacked(k) && FrameOk(owner, f.req.vol, f) && FrameOk(owner, f.req.vol, g)
    requires CapturedOk(h.minors, f.req.vol, f.pc) && CapturedOk(k.minors, f.req.vol, g.pc)
    requires SameHostView(owner, h, k, f.req.vol) && SameFrame(h, k, f, g)
    ensures var m, n := Act(h, f, o), Act(k, g, o);
      m.next.Go? && n.next.Go? ==> (Points(m.host, f.req.vol, m.next.pc) <==> Points(n.host, f.req.vol, n.next.pc))
  {
    hide DeleteMove; hide CreateMove; hide MountMove; hide PublishMove; hide UnmountMove; hide SamePathView;
    hide LinksBacked;
    ActAgrees(owner, h, k, f, g, o);
    OnlyDeleteCaptures(h, f, o);
    OnlyDeleteCaptures(k, g, o);
    if InDelete(f.pc) && !f.pc.DelRun? { DeletePoints(owner, h, k, f, g, o); }
  }

  // Whole steps

  predicate SameLink(h: Host, k: Host, w: VolId) {
    Linked(h, w) && Linked(k, w) ==> h.links[UblkByUUIDPath(w)] == k.links[UblkByUUIDPath(w)]
  }

  lemma CommitIsLocal(owner: Owner, s: State, v: VolId, m: Move, w: VolId)
    requires v in s.frames && w != v && SameHostView(owner, s.host, m.host, w) && SameLink(s.host, m.host, w)
    requires w in s.frames ==> s.frames[w].req.vol == w
    ensures SameView(owner, s, Commit(s, v, m), w)
  {
    hide SamePathView;
  }

  lemma OpenIsLocal(owner: Owner, s: State, v: VolId, e: Entrance, w: VolId)
    requires w != v
    ensures SameView(owner, s, Open(s, v, e), w)
  {
  }

  lemma DisturbIsLocal(owner: Owner, s: State, v: VolId, h: Host, d: Doubt, w: VolId)
    requires w != v && SameHostView(owner, s.host, h, w) && SameLink(s.host, h, w)
    requires w in s.frames ==> s.frames[w].req.vol == w
    ensures SameView(owner, s, Disturb(s, v, h, d), w)
  {
    hide SamePathView;
  }

  lemma DeviceUpIsLocal(owner: Owner, h: Host, v: VolId, pref: nat, w: VolId)
    requires w != v
    ensures SameHostView(owner, h, DeviceUp(h, v, pref), w) && SameLink(h, DeviceUp(h, v, pref), w)
  {
    hide Reserved;
    ReservedMore(h.minors, FirstFree(h.minors.Keys, pref), v, w);
  }

  lemma LinkDownIsLocal(owner: Owner, h: Host, v: VolId, w: VolId)
    requires w != v
    ensures SameHostView(owner, h, LinkDown(h, v), w) && SameLink(h, LinkDown(h, v), w)
  {
  }

  lemma DaemonGoneIsLocal(owner: Owner, h: Host, v: VolId, w: VolId)
    requires w != v
    ensures SameHostView(owner, h, DaemonGone(h, v), w) && SameLink(h, DaemonGone(h, v), w)
  {
  }

  lemma DaemonIsLocal(owner: Owner, s: State, e: Event, w: VolId)
    requires (e.DaemonUp? || e.LinkLost? || e.DaemonDied?) && w != e.vol
    requires w in s.frames ==> s.frames[w].req.vol == w
    ensures SameView(owner, s, Step(s, e), w)
  {
    hide SameHostView; hide SameLink; hide DeviceUp; hide LinkDown; hide DaemonGone;
    var v := e.vol;
    DeviceUpIsLocal(owner, s.host, v, if e.DaemonUp? then e.pref else 0, w);
    LinkDownIsLocal(owner, s.host, v, w);
    DaemonGoneIsLocal(owner, s.host, v, w);
    DisturbIsLocal(owner, s, v, s.host, NoChange, w) by {
      assert SameHostView(owner, s.host, s.host, w) && SameLink(s.host, s.host, w) by { HostIsItself(owner, s.host, w); }
    }
    assert Disturb(s, v, s.host, NoChange) == s;
    match e
    case DaemonUp(_, pref) => DisturbIsLocal(owner, s, v, DeviceUp(s.host, v, pref), DaemonUpDoubt(s, v), w);
    case LinkLost(_) => DisturbIsLocal(owner, s, v, LinkDown(s.host, v), LinkLostDoubt(s, v), w);
    case DaemonDied(_) => DisturbIsLocal(owner, s, v, DaemonGone(s.host, v), Raised, w);
  }

  lemma HostIsItself(owner: Owner, h: Host, w: VolId)
    ensures SameHostView(owner, h, h, w) && SameLink(h, h, w)
  {
  }

  /** A step changes no other volume's view. */
  lemma StepIsLocal(owner: Owner, s: State, e: Event, w: VolId)
    requires Inv(owner, s) && OwnedEvent(owner, e) && !e.Restart? && w != VolOf(e)
    ensures SameView(owner, s, Step(s, e), w)
  {
    match e
    case Begin(req) =>
      OpenIsLocal(owner, s, req.vol, Enter(EntryOf(s, req.vol), req), w);
      OpenIsLocal(owner, s, req.vol, Refuse(OK), w);
      hide Enter; hide SamePathView; hide LinksBacked; hide FrameOk;
    case Op(v, o) =>
      if v in s.frames {
        ActIsLocal(owner, s.host, s.frames[v], o, w);
        ActKeepsDevices(s.host, s.frames[v], o);
        hide Act;
        CommitIsLocal(owner, s, v, Act(s.host, s.frames[v], o), w);
        hide SameView;
      }
    case _ => DaemonIsLocal(owner, s, e, w);
  }

  lemma CommitAgrees(owner: Owner, s: State, t: State, v: VolId, m: Move, n: Move)
    requires v in s.frames && v in t.frames && s.frames[v].req.vol == v && SameView(owner, s, t, v)
    requires AgreeBlurred(owner, v, m, n)
    requires m.next.Go? ==> (Points(m.host, v, m.next.pc) <==> Points(n.host, v, n.next.pc))
    ensures SameView(owner, Commit(s, v, m), Commit(t, v, n), v)
  {
    hide SamePathView;
  }

  lemma OpenAgrees(owner: Owner, s: State, t: State, v: VolId, e: Entrance)
    requires SameView(owner, s, t, v) && v !in s.frames
    requires e.Admit? ==> e.frame.req.vol == v && !Capturing(e.frame.pc)
    ensures SameView(owner, Open(s, v, e), Open(t, v, e), v)
  {
    hide SamePathView;
  }

  lemma EnterCapturesNothing(entry: Option<Entry>, req: Request)
    ensures var e := Enter(entry, req); e.Admit? ==> e.frame.req.vol == req.vol && !Capturing(e.frame.pc)
  {
    hide Decimal.ParseInt64;
  }

  /** A new device gets a minor nobody has captured. */
  lemma DeviceUpPoints(h: Host, v: VolId, pref: nat, pc: PC)
    requires CapturedOk(h.minors, v, pc) && Live(h, v)
    ensures var k := DeviceUp(h, v, pref); Linked(k, v) && (Points(k, v, pc) <==> !Capturing(pc))
  {
  }

  lemma DeviceUpAgrees(owner: Owner, h: Host, k: Host, v: VolId, pref: nat)
    requires SameHostView(owner, h, k, v) && Live(h, v)
    ensures SameHostView(owner, DeviceUp(h, v, pref), DeviceUp(k, v, pref), v)
  {
    hide Reserved;
    ReservedMore(h.minors, FirstFree(h.minors.Keys, pref), v, v);
    ReservedMore(k.minors, FirstFree(k.minors.Keys, pref), v, v);
    assert SamePathView(owner, DeviceUp(h, v, pref), DeviceUp(k, v, pref), v);
    hide SamePathView;
  }

  lemma DisturbAgrees(owner: Owner, s: State, t: State, v: VolId, h: Host, k: Host, d: Doubt)
    requires SameView(owner, s, t, v) && SameHostView(owner, h, k, v)
    requires v in s.frames ==> s.frames[v].req.vol == v
    requires v in s.frames ==> (Points(h, v, s.frames[v].pc) <==> Points(k, v, t.frames[v].pc))
    ensures SameView(owner, Disturb(s, v, h, d), Disturb(t, v, k, d), v)
  {
    hide SamePathView;
  }

  lemma DaemonUpAgrees(owner: Owner, s: State, t: State, v: VolId, pref: nat)
    requires SameView(owner, s, t, v) && Inv(owner, s) && Inv(owner, t)
    ensures SameView(owner, Step(s, DaemonUp(v, pref)), Step(t, DaemonUp(v, pref)), v)
  {
    if Live(s.host, v) {
      DeviceUpAgrees(owner, s.host, t.host, v, pref);
      if v in s.frames {
        DeviceUpPoints(s.host, v, pref, s.frames[v].pc);
        DeviceUpPoints(t.host, v, pref, t.frames[v].pc);
        assert s.frames[v].pc.StopAfterWait? <==> t.frames[v].pc.StopAfterWait?;
        assert Capturing(s.frames[v].pc) <==> Capturing(t.frames[v].pc);
      }
      var h, k, d := DeviceUp(s.host, v, pref), DeviceUp(t.host, v, pref), DaemonUpDoubt(s, v);
      hide LinksBacked; hide MapOk; hide DeviceUp; hide Points; hide SamePathView;
      DisturbAgrees(owner, s, t, v, h, k, d);
    }
  }

  lemma LinkLostAgrees(owner: Owner, s: State, t: State, v: VolId)
    requires SameView(owner, s, t, v) && (v in s.frames ==> s.frames[v].req.vol == v)
    ensures SameView(owner, Step(s, LinkLost(v)), Step(t, LinkLost(v)), v)
  {
    var h, k := LinkDown(s.host, v), LinkDown(t.host, v);
    assert SamePathView(owner, h, k, v);
    hide SamePathView;
    assert v in s.frames ==> (Points(h, v, s.frames[v].pc) <==> Points(k, v, t.frames[v].pc));
    DisturbAgrees(owner, s, t, v, h, k, LinkLostDoubt(s, v));
  }

  lemma DaemonDiedAgrees(owner: Owner, s: State, t: State, v: VolId)
    requires SameView(owner, s, t, v) && (v in s.frames ==> s.frames[v].req.vol == v)
    ensures SameView(owner, Step(s, DaemonDied(v)), Step(t, DaemonDied(v)), v)
  {
    SetUnitsAgrees(owner, s.host, t.host, v, s.host.units - {UblkUnitName(v)}, t.host.units - {UblkUnitName(v)});
    hide SamePathView;
    DisturbAgrees(owner, s, t, v, DaemonGone(s.host, v), DaemonGone(t.host, v), Raised);
  }

  /** A step's effect on its own volume's view, its response included, depends on that view alone. */
  lemma StepAgrees(owner: Owner, s: State, t: State, e: Event)
    requires Inv(owner, s) && Inv(owner, t) && !e.Restart? && SameView(owner, s, t, VolOf(e))
    ensures SameView(owner, Step(s, e), Step(t, e), VolOf(e))
  {
    match e
    case Begin(req) =>
      EnterCapturesNothing(EntryOf(s, req.vol), req);
      if req.vol !in s.frames { OpenAgrees(owner, s, t, req.vol, Enter(EntryOf(s, req.vol), req)); }
      hide Enter;
    case Op(v, o) =>
      if v in s.frames {
        ActAgrees(owner, s.host, t.host, s.frames[v], t.frames[v], o);
        ActPoints(owner, s.host, t.host, s.frames[v], t.frames[v], o);
        hide Act;
        CommitAgrees(owner, s, t, v, Act(s.host, s.frames[v], o), Act(t.host, t.frames[v], o));
      }
    case DaemonUp(v, pref) => DaemonUpAgrees(owner, s, t, v, pref);
    case LinkLost(v) => LinkLostAgrees(owner, s, t, v);
    case DaemonDied(v) => DaemonDiedAgrees(owner, s, t, v);
  }

  /** Only the steps of calls touch mounts, paths and filesystems; only beginnings add calls. */
  lemma DeviceEventsKeep(h: Host, v: VolId, pref: nat)
    ensures var k := DeviceUp(h, v, pref); SamePaths(h, k) && k.fs == h.fs
    ensures var k := LinkDown(h, v); SamePaths(h, k) && k.fs == h.fs
  {
    hide FirstFree;
  }

  lemma OtherEvents(s: State, e: Event)
    requires !e.Op?
    ensures var t := Step(s, e);
      && t.host.mounts == s.host.mounts && t.host.kinds == s.host.kinds && t.host.fs == s.host.fs
      && (e.Restart? ==> t.frames == map[])
      && (!e.Restart? && !e.Begin? ==> t.frames == s.frames && t.volMap == s.volMap && t.replies == s.replies)
      && (e.Begin? ==>
            && t.host == s.host && t.volMap == s.volMap
            && (t.frames == s.frames
                || (e.req.vol !in s.frames
                    && var entered := Enter(EntryOf(s, e.req.vol), e.req);
                       entered.Admit? && t.frames == s.frames[e.req.vol := entered.frame])))
  {
    hide Enter; hide Recover; hide FirstFree; hide DeviceUp; hide LinkDown;
    if e.DaemonUp? || e.LinkLost? { DeviceEventsKeep(s.host, e.vol, if e.DaemonUp? then e.pref else 0); }
  }

  // What happens besides a volume's own call

  /** Neither a step of v's call nor a new one: what other volumes' calls and the host do. */
  predicate Foreign(e: Event, v: VolId) {
    !e.Restart? && (e.Begin? ==> e.req.vol != v) && (e.Op? ==> e.vol != v)
  }

  /** Nothing but the steps of v's present call and what is foreign to it. */
  predicate NoNewCall(e: Event, v: VolId) {
    !e.Restart? && (e.Begin? ==> e.req.vol != v)
  }

  predicate NoNewCalls(es: seq<Event>, v: VolId) {
    forall i | 0 <= i < |es| :: NoNewCall(es[i], v)
  }

  /** Nothing of v has changed but, perhaps, its unit and its link. */
  ghost predicate Undisturbed(owner: Owner, s: State, t: State, v: VolId) {
    && (v in s.frames <==> v in t.frames) && (v in s.frames ==> t.frames[v] == s.frames[v])
    && EntryOf(t, v) == EntryOf(s, v) && Replies(t, v) == Replies(s, v)
    && SamePathView(owner, s.host, t.host, v) && FsOn(t.host, v) == FsOn(s.host, v)
  }

  lemma OtherFrames(s: State, e: Event, v: VolId)
    requires Foreign(e, v)
    ensures var t := Step(s, e);
      && (v in s.frames <==> v in t.frames) && (v in s.frames ==> t.frames[v] == s.frames[v])
      && EntryOf(t, v) == EntryOf(s, v) && Replies(t, v) == Replies(s, v)
  {
    hide Act; hide Enter; hide DeviceUp; hide LinkDown; hide DaemonGone; hide Doubted;
  }

  lemma ForeignKeeps(owner: Owner, s: State, e: Event, v: VolId)
    requires Inv(owner, s) && OwnedEvent(owner, e) && Foreign(e, v)
    ensures Undisturbed(owner, s, Step(s, e), v)
    ensures VolOf(e) != v ==>
      (Live(Step(s, e).host, v) <==> Live(s.host, v)) && (Linked(Step(s, e).host, v) <==> Linked(s.host, v))
  {
    hide Step; hide Inv; hide Enter; hide SameCall;
    OtherFrames(s, e, v);
    if VolOf(e) != v { StepIsLocal(owner, s, e, v); } else { OtherEvents(s, e); }
  }
}
