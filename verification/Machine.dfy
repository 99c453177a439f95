/** The node plugin and its host as one state machine.  A step is one locked access to the
    volume map, one host primitive of a call in flight, one event of the environment, or a
    restart of the plugin.  A run is any sequence of steps. */
module Machine {
  import opened Uuid
  import opened Types
  import opened HostModel
  import Decimal

  /** Where an unmount belongs: NodeUnstageVolume and NodeUnpublishVolume each unmount once and
      once more while cleaning up. */
  datatype Site = UnstageUnmount | UnstageCleanup | UnpublishUnmount | UnpublishCleanup

  /** What a device is deleted for. */
  datatype Reason = MountFailed | BadVolumeId | Teardown

  /** The next thing a call in flight does. */
  datatype PC =
    // NodeStageVolume: CreateUblkDevice, FormatAndMountDevice, map insertion
    | StartUblk | WaitLink | StopAfterWait
    | MkdirStaging | ProbeCompat | ProbeExisting | Format
    | CheckStaging(fsType: FsType) | MountStaging(fsType: FsType) | Insert
    // DeleteUblkDevice
    | DelResolve(why: Reason) | DelStop(why: Reason, id: Option<nat>) | DelRun(why: Reason, minor: nat)
    // Unmount and CleanupMountPoint
    | UmStat(at: Site) | UmCheck(at: Site) | UmUnmount(at: Site) | RemovePath(at: Site)
    | DropEntry
    // NodePublishVolume
    | MkdirParent | OpenTarget | StatTarget | MkdirTarget | CheckTarget | BindTarget | RecordTarget
    // NodeUnpublishVolume
    | StatMode | ClearTarget

  /** A call in flight: its request, its next step, the device path it works with and whether
      its first look at the map found an entry. */
  datatype Frame = Frame(req: Request, pc: PC, dev: DevPath, known: bool)

  /** What a call writes to the volume map when it ends. */
  datatype Write = Keep | Put(entry: Entry) | Drop | SetTarget(target: Path)

  datatype Next = Go(pc: PC) | Done(code: Code, write: Write)

  /** Whether a step casts doubt on a volume's unit and device agreeing with the map. */
  datatype Doubt = NoChange | Raised | Settled

  /** One step of a call: the host afterwards and how the call goes on. */
  datatype Move = Move(host: Host, next: Next, doubt: Doubt)

  // The call's own view: argument checks and the first, read-locked look at the volume map

  datatype Entrance = Refuse(code: Code) | Admit(frame: Frame)

  function Enter(entry: Option<Entry>, req: Request): Entrance {
    var staged := entry.Some? && entry.value.ublkPath != NoDevPath;
    if req.vol.text == "" then Refuse(InvalidArgument)
    else
      match req.call
      case Stage =>
        if req.staging.text == "" || req.cap.None? || Decimal.ParseInt64(req.size).None? then Refuse(InvalidArgument)
        else if staged then Refuse(OK)
        else Admit(Frame(req, StartUblk, UblkByUUIDPath(req.vol), entry.Some?))
      case Unstage =>
        if req.staging.text == "" then Refuse(InvalidArgument)
        else if entry.None? then Refuse(OK)
        else Admit(Frame(req, UmStat(UnstageUnmount),
                         if staged then entry.value.ublkPath else UblkByUUIDPath(req.vol), true))
      case Publish =>
        if req.target.text == "" || req.staging.text == "" then Refuse(InvalidArgument)
        else if entry.None? then Refuse(FailedPrecondition)
        else Admit(Frame(req, if req.IsBlock() then MkdirParent else MkdirTarget, entry.value.ublkPath, true))
      case Unpublish =>
        if req.target.text == "" then Refuse(InvalidArgument)
        else Admit(Frame(req, UmStat(UnpublishUnmount), NoDevPath, entry.Some?))
  }

  // The steps of the handlers

  function Continue(h: Host, pc: PC): Move {
    Move(h, Go(pc), NoChange)
  }

  function Answer(h: Host, c: Code): Move {
    Move(h, Done(c, Keep), NoChange)
  }

  function SitePath(req: Request, at: Site): Path {
    if at.UnstageUnmount? || at.UnstageCleanup? then req.staging else req.target
  }

  /** The device deletion that starts here, with or without a device path to resolve. */
  function Delete(dev: DevPath, why: Reason): PC {
    if dev != NoDevPath then DelResolve(why) else DelStop(why, None)
  }

  /** What follows a device deletion, whatever it reported. */
  function AfterDelete(why: Reason): Next {
    match why
    case MountFailed => Done(Internal, Keep)
    case BadVolumeId => Done(InvalidArgument, Keep)
    case Teardown => Go(UmStat(UnstageCleanup))
  }

  function AfterUnmount(f: Frame, at: Site, ok: bool): Next {
    match at
    case UnstageUnmount => if ok then Go(Delete(f.dev, Teardown)) else Done(Internal, Keep)
    case UnstageCleanup => Go(if ok then RemovePath(at) else DropEntry)
    case UnpublishUnmount => if !ok then Done(Internal, Keep) else if f.known then Go(StatMode) else Done(OK, Keep)
    case UnpublishCleanup => Go(if ok then RemovePath(at) else ClearTarget)
  }

  function CreateMove(h: Host, f: Frame, o: Outcome): Move {
    var v := f.req.vol;
    match f.pc
    case StartUblk =>
      var r := StartUnit(h, v, o);
      if r.ok then Continue(r.host, WaitLink) else Move(r.host, Done(Internal, Keep), Raised)
    case WaitLink =>
      // The probe that decides: it sees the link, or it is the deadline that ends the wait.
      Continue(h, if !Linked(h, v) then StopAfterWait else if f.req.IsBlock() then Insert else MkdirStaging)
    case _ => // StopAfterWait
      var r := StopUnit(h, v, o);
      Move(r.host, Done(Internal, Keep), if !r.ok || Linked(r.host, v) then Raised else NoChange)
  }

  function MountMove(h: Host, f: Frame, o: Outcome): Move {
    var p, requested, failure := f.req.staging, f.req.FsType(), Delete(f.dev, MountFailed);
    match f.pc
    case MkdirStaging =>
      var r := MkdirAll(h, p, o);
      Continue(r.host, if r.ok && requested.Supported() then ProbeCompat else failure)
    case ProbeCompat =>
      var found := Blkid(h, f.dev, o);
      Continue(h, if found.None? || (found.value != NoFs && !found.value.Supported()) then failure else ProbeExisting)
    case ProbeExisting =>
      var found := Blkid(h, f.dev, o);
      Continue(h, if found.None? then failure else if found.value == NoFs then Format else CheckStaging(found.value))
    case Format =>
      var r := Mkfs(h, f.dev, requested, o);
      Continue(r.host, if r.ok then CheckStaging(requested) else failure)
    case CheckStaging(t) =>
      var found := IsMountPoint(h, p, o);
      Continue(h, if found.Mounted? then Insert else if found.NotMounted? then MountStaging(t) else failure)
    case MountStaging(t) =>
      var r := MountDevice(h, f.dev, p, t, o);
      Continue(r.host, if r.ok then Insert else failure)
    case _ => // Insert: parse the volume ID, then the write-locked map insertion
      var parsed := Parse(f.req.vol.text);
      if parsed.None? then Continue(h, Delete(f.dev, BadVolumeId))
      else Move(h, Done(OK, Put(Entry(parsed, f.dev, if f.req.IsBlock() then BLOCK_MODE else MOUNT_MODE, p, NO_PATH))), NoChange)
  }

  function DeleteMove(h: Host, f: Frame, o: Outcome): Move {
    var v := f.req.vol;
    match f.pc
    case DelStop(why, id) =>
      var r := StopUnit(h, v, o);
      if !r.ok then Move(r.host, AfterDelete(why), Raised)
      else if id.None? then Move(r.host, AfterDelete(why), NoChange)
      else Continue(r.host, DelRun(why, id.value))
    case DelRun(why, id) =>
      var r := DeleteMinor(h, id, o);
      Move(r.host, AfterDelete(why), if r.ok && !Linked(r.host, v) then Settled else Raised)
    case _ => // DelResolve
      var id := ResolveUblkId(h, f.dev, o);
      var why := if f.pc.DelResolve? then f.pc.why else MountFailed;
      if id.None? then Move(h, AfterDelete(why), Raised) else Continue(h, DelStop(why, id))
  }

  function UnmountMove(h: Host, f: Frame, o: Outcome): Move {
    match f.pc
    case UmStat(at) =>
      var found := Stat(h, SitePath(f.req, at), o);
      if found.Exists? then Continue(h, UmCheck(at)) else Move(h, AfterUnmount(f, at, found.NotExist?), NoChange)
    case UmCheck(at) =>
      var found := IsMountPoint(h, SitePath(f.req, at), o);
      if found.Mounted? then Continue(h, UmUnmount(at)) else Move(h, AfterUnmount(f, at, !found.CheckFailed?), NoChange)
    case UmUnmount(at) =>
      var r := UnmountTop(h, SitePath(f.req, at), o);
      Move(r.host, AfterUnmount(f, at, r.ok), NoChange)
    case RemovePath(at) =>
      Continue(AfterRemove(h, SitePath(f.req, at), o), if at.UnstageCleanup? then DropEntry else ClearTarget)
    case StatMode =>
      Continue(h, if Stat(h, f.req.target, o) == Exists(true) then UmStat(UnpublishCleanup) else RemovePath(UnpublishCleanup))
    case ClearTarget => Move(h, Done(OK, SetTarget(NO_PATH)), NoChange)
    case _ => Move(h, Done(OK, Drop), NoChange) // DropEntry
  }

  function PublishMove(h: Host, f: Frame, o: Outcome): Move {
    var p := f.req.target;
    match f.pc
    case MkdirParent => if o.ok then Continue(h, OpenTarget) else Answer(h, Internal)
    case OpenTarget =>
      var r := OpenOrCreate(h, p, o);
      if r.ok then Continue(r.host, StatTarget) else Answer(r.host, Internal)
    case StatTarget => if Stat(h, p, o).Exists? then Continue(h, CheckTarget) else Answer(h, Internal)
    case MkdirTarget =>
      var r := MkdirAll(h, p, o);
      if r.ok then Continue(r.host, CheckTarget) else Answer(r.host, Internal)
    case CheckTarget =>
      var found := IsMountPoint(h, p, o);
      if found.Mounted? then Continue(h, RecordTarget) else if found.NotMounted? then Continue(h, BindTarget) else Answer(h, Internal)
    case BindTarget =>
      var r := if f.req.IsBlock() then BindDevice(h, f.dev, p, o) else BindPath(h, f.req.staging, p, o);
      if r.ok then Continue(r.host, RecordTarget) else Answer(r.host, Internal)
    case _ => Move(h, Done(OK, SetTarget(p)), NoChange) // RecordTarget
  }

  predicate InCreate(pc: PC) {
    pc.StartUblk? || pc.WaitLink? || pc.StopAfterWait?
  }

  predicate InMount(pc: PC) {
    || pc.MkdirStaging? || pc.ProbeCompat? || pc.ProbeExisting? || pc.Format? || pc.CheckStaging?
    || pc.MountStaging? || pc.Insert?
  }

  predicate InDelete(pc: PC) {
    pc.DelResolve? || pc.DelStop? || pc.DelRun?
  }

  predicate InPublish(pc: PC) {
    || pc.MkdirParent? || pc.OpenTarget? || pc.StatTarget? || pc.MkdirTarget? || pc.CheckTarget?
    || pc.BindTarget? || pc.RecordTarget?
  }

  function Act(h: Host, f: Frame, o: Outcome): Move {
    if InCreate(f.pc) then CreateMove(h, f, o)
    else if InMount(f.pc) then MountMove(h, f, o)
    else if InDelete(f.pc) then DeleteMove(h, f, o)
    else if InPublish(f.pc) then PublishMove(h, f, o)
    else UnmountMove(h, f, o)
  }

  // The whole plugin

  /** replies holds the responses given for each volume so far.  suspect is bookkeeping: the
      volumes whose unit or device may be out of step with the map because a start, stop or
      delete reported an error, a call was cut off, a unit went away by itself, or its link did or
      came back while the unit was loaded. */
  datatype State = State(host: Host, volMap: map<VolId, Entry>, frames: map<VolId, Frame>,
                         replies: map<VolId, seq<Code>>, suspect: set<VolId>)

  datatype Event =
    | Begin(req: Request)
    | Op(vol: VolId, o: Outcome)
    // The daemon of a loaded unit, started first or again after a crash, brings up a device.
    | DaemonUp(vol: VolId, pref: nat)
    // Udev takes the link down.
    | LinkLost(vol: VolId)
    // The daemon dies for good and its unit is unloaded.
    | DaemonDied(vol: VolId)
    | Restart(listed: Option<seq<VolId>>)

  function EntryOf(s: State, v: VolId): Option<Entry> {
    if v in s.volMap then Some(s.volMap[v]) else None
  }

  predicate Staged(s: State, v: VolId) {
    v in s.volMap && s.volMap[v].ublkPath != NoDevPath
  }

  predicate Linked(h: Host, v: VolId) {
    UblkByUUIDPath(v) in h.links
  }

  predicate Live(h: Host, v: VolId) {
    UblkUnitName(v) in h.units
  }

  function Replies(s: State, v: VolId): seq<Code> {
    if v in s.replies then s.replies[v] else []
  }

  /** The write-locked change of the map; the target is set on the entry the call found. */
  function Written(volMap: map<VolId, Entry>, v: VolId, w: Write): map<VolId, Entry> {
    match w
    case Keep => volMap
    case Put(entry) => volMap[v := entry]
    case Drop => volMap - {v}
    case SetTarget(p) => if v in volMap then volMap[v := volMap[v].(targetPath := p)] else volMap
  }

  function Doubted(suspect: set<VolId>, v: VolId, d: Doubt): set<VolId> {
    match d
    case NoChange => suspect
    case Raised => suspect + {v}
    case Settled => suspect - {v}
  }

  function Commit(s: State, v: VolId, m: Move): State
    requires v in s.frames
  {
    match m.next
    case Go(pc) =>
      State(m.host, s.volMap, s.frames[v := s.frames[v].(pc := pc)], s.replies, Doubted(s.suspect, v, m.doubt))
    case Done(code, write) =>
      State(m.host, Written(s.volMap, v, write), s.frames - {v}, s.replies[v := Replies(s, v) + [code]],
            Doubted(s.suspect, v, m.doubt))
  }

  function Open(s: State, v: VolId, e: Entrance): State {
    match e
    case Refuse(code) => s.(replies := s.replies[v := Replies(s, v) + [code]])
    case Admit(f) => s.(frames := s.frames[v := f])
  }

  /** The map after UpdateNodeVolumeMap has gone through the listed volumes, and whether it
      got through: a volume without a link is skipped, an ID that does not parse ends the loop
      after its entry was inserted. */
  function Recover(volMap: map<VolId, Entry>, h: Host, listed: seq<VolId>): (map<VolId, Entry>, bool)
    decreases |listed|
  {
    if listed == [] then (volMap, true)
    else
      var v := listed[0];
      if Backing(h, UblkByUUIDPath(v)).None? then Recover(volMap, h, listed[1..])
      else
        var entry := if v in volMap then volMap[v] else BARE_ENTRY;
        if Parse(v.text).None? then (volMap[v := entry.(volId := None)], false)
        else Recover(volMap[v := entry.(volId := Parse(v.text), ublkPath := UblkByUUIDPath(v))], h, listed[1..])
  }

  /** The plugin dies with whatever it had in flight, and a new one starts from an empty map and
      the control plane's list, if it gets one.  A recovery that fails is logged and no more. */
  function Reborn(s: State, listed: Option<seq<VolId>>): State {
    var volMap := if listed.Some? then Recover(map[], s.host, listed.value).0 else map[];
    State(s.host, volMap, map[], s.replies, s.suspect + s.frames.Keys)
  }

  /** Something the environment did to a volume. */
  function Disturb(s: State, v: VolId, h: Host, d: Doubt): State {
    State(h, s.volMap, s.frames, s.replies, Doubted(s.suspect, v, d))
  }

  function DaemonGone(h: Host, v: VolId): Host {
    h.(units := h.units - {UblkUnitName(v)})
  }

  /** A device for a volume that has a link already, or whose wait is over, is unexpected. */
  function DaemonUpDoubt(s: State, v: VolId): Doubt {
    if Linked(s.host, v) || (v in s.frames && s.frames[v].pc.StopAfterWait?) then Raised else NoChange
  }

  /** A link is expected to go only once its unit was stopped. */
  function LinkLostDoubt(s: State, v: VolId): Doubt {
    if Live(s.host, v) && Linked(s.host, v) then Raised else NoChange
  }

  /** A call for a volume that has one in flight is not delivered: the Container Storage
      Interface's rule of one call in flight per volume. */
  function Step(s: State, e: Event): State {
    match e
    case Begin(req) => if req.vol in s.frames then s else Open(s, req.vol, Enter(EntryOf(s, req.vol), req))
    case Op(v, o) => if v in s.frames then Commit(s, v, Act(s.host, s.frames[v], o)) else s
    case DaemonUp(v, pref) => if Live(s.host, v) then Disturb(s, v, DeviceUp(s.host, v, pref), DaemonUpDoubt(s, v)) else s
    case LinkLost(v) => Disturb(s, v, LinkDown(s.host, v), LinkLostDoubt(s, v))
    case DaemonDied(v) => if Live(s.host, v) then Disturb(s, v, DaemonGone(s.host, v), Raised) else s
    case Restart(listed) => Reborn(s, listed)
  }

  function Run(s: State, es: seq<Event>): State
    decreases |es|
  {
    if es == [] then s else Run(Step(s, es[0]), es[1..])
  }

  lemma {:induction false} RunConcat(s: State, es: seq<Event>, fs: seq<Event>)
    ensures Run(s, es + fs) == Run(Run(s, es), fs)
    decreases |es|
  {
    if es == [] {
      assert es + fs == fs;
    } else {
      assert (es + fs)[1..] == es[1..] + fs;
      RunConcat(Step(s, es[0]), es[1..], fs);
    }
  }

  lemma {:induction false} RunSnoc(s: State, es: seq<Event>, e: Event)
    ensures Run(s, es + [e]) == Step(Run(s, es), e)
  {
    RunConcat(s, es, [e]);
  }
}
