/** The host as the node plugin's code uses it: one method for each thing the code asks of it.
    Each lets the environment act, decides the outcome freely and takes the corresponding step of
    the state machine, so code that calls these methods can only verify if it makes the machine's
    steps, in the machine's order and with the machine's branches. */
module NodeHost {
  import opened Uuid
  import opened Types
  import opened HostModel
  import opened Machine

  /** Something the host does without the plugin. */
  predicate OfHost(e: Event) {
    e.DaemonUp? || e.LinkLost? || e.DaemonDied?
  }

  /** What may happen while a call for v runs: its own steps, and what the host does. */
  predicate Inside(e: Event, v: VolId) {
    (e.Op? && e.vol == v) || OfHost(e)
  }

  /** The log went on with nothing but what the host did. */
  predicate HostSince(before: seq<Event>, log: seq<Event>) {
    before <= log && forall i | |before| <= i < |log| :: OfHost(log[i])
  }

  /** A call from when it is received. */
  predicate CallLog(log: seq<Event>, req: Request) {
    log != [] ==> log[0] == Begin(req) && forall i | 1 <= i < |log| :: Inside(log[i], req.vol)
  }

  /** t is where a whole call leads: it has been answered with this code and is over. */
  ghost predicate Answers(s: State, t: State, req: Request, log: seq<Event>, code: Code) {
    && log != [] && CallLog(log, req) && t == Run(s, log)
    && req.vol !in t.frames && Replies(t, req.vol) == Replies(s, req.vol) + [code]
  }

  /** A step of v's call went on like this, the host aside. */
  predicate Moved(s: State, t: State, v: VolId, n: Next)
    requires v in s.frames
  {
    match n
    case Go(pc) => t.frames == s.frames[v := s.frames[v].(pc := pc)] && t.replies == s.replies && t.volMap == s.volMap
    case Done(code, write) =>
      && t.frames == s.frames - {v} && t.replies == s.replies[v := Replies(s, v) + [code]]
      && t.volMap == Written(s.volMap, v, write)
  }

  /** The calls, the map and the replies are the same. */
  predicate SameCalls(s: State, t: State) {
    s.frames == t.frames && s.replies == t.replies && s.volMap == t.volMap
  }

  function EnvHost(h: Host, e: Event): Host
    requires OfHost(e)
  {
    match e
    case DaemonUp(v, pref) => DeviceUp(h, v, pref)
    case LinkLost(v) => LinkDown(h, v)
    case DaemonDied(v) => DaemonGone(h, v)
  }

  lemma HostActs(s: State, e: Event)
    requires OfHost(e)
    ensures SameCalls(s, Step(s, e)) && Step(s, e).host == EnvHost(s.host, e)
  {
    if e.DaemonDied? && !Live(s.host, e.vol) {
      assert s.host.units - {UblkUnitName(e.vol)} == s.host.units;
    }
  }

  /** What the host does is the same whatever the calls are about, and leaves them alone. */
  lemma {:induction false} HostRuns(s: State, t: State, es: seq<Event>)
    requires s.host == t.host && forall i | 0 <= i < |es| :: OfHost(es[i])
    ensures Run(s, es).host == Run(t, es).host && SameCalls(t, Run(t, es))
    decreases |es|
  {
    if es != [] {
      HostActs(s, es[0]);
      HostActs(t, es[0]);
      hide Step; hide EnvHost;
      HostRuns(Step(s, es[0]), Step(t, es[0]), es[1..]);
    }
  }

  lemma OpMoves(s: State, v: VolId, o: Outcome)
    requires v in s.frames
    ensures var m := Act(s.host, s.frames[v], o); var t := Step(s, Op(v, o));
      Moved(s, t, v, m.next) && t.host == m.host
  {
    hide Act; hide Written; hide Doubted;
  }

  lemma MovedTwice(s: State, t: State, u: State, v: VolId, pc: PC, n: Next)
    requires v in s.frames && v in t.frames && Moved(s, t, v, Go(pc)) && Moved(t, u, v, n)
    ensures Moved(s, u, v, n)
    ensures n.Go? ==> v in u.frames && u.frames[v] == s.frames[v].(pc := n.pc) && u.volMap == s.volMap
    ensures n.Done? ==> u.volMap == Written(s.volMap, v, n.write)
  {
    hide Written;
  }

  lemma MovedLast(s: State, t: State, v: VolId, code: Code, w: Write)
    requires v in s.frames && Moved(s, t, v, Done(code, w))
    ensures t.volMap == Written(s.volMap, v, w)
  {
  }

  lemma MovedOnce(s: State, t: State, v: VolId, pc: PC)
    requires v in s.frames && Moved(s, t, v, Go(pc))
    ensures v in t.frames && t.frames[v] == s.frames[v].(pc := pc) && t.volMap == s.volMap
  {
  }

  // How a call goes on, given what a primitive reported

  function AfterStart(ok: bool): Next {
    if ok then Go(WaitLink) else Done(Internal, Keep)
  }

  function AfterWait(f: Frame, linked: bool): Next {
    Go(if !linked then StopAfterWait else if f.req.IsBlock() then Insert else MkdirStaging)
  }

  function AfterStop(pc: PC, ok: bool): Next
    requires pc.StopAfterWait? || pc.DelStop?
  {
    match pc
    case StopAfterWait => Done(Internal, Keep)
    case DelStop(why, id) => if ok && id.Some? then Go(DelRun(why, id.value)) else AfterDelete(why)
  }

  function AfterResolve(why: Reason, id: Option<nat>): Next {
    if id.Some? then Go(DelStop(why, id)) else AfterDelete(why)
  }

  function MountFailure(f: Frame): Next {
    Go(Delete(f.dev, MountFailed))
  }

  function AfterMkdir(f: Frame, ok: bool): Next
    requires f.pc.MkdirStaging? || f.pc.MkdirTarget?
  {
    if f.pc.MkdirTarget? then if ok then Go(CheckTarget) else Done(Internal, Keep)
    else if ok && f.req.FsType().Supported() then Go(ProbeCompat)
    else MountFailure(f)
  }

  function AfterBlkid(f: Frame, found: Option<FsType>): Next
    requires f.pc.ProbeCompat? || f.pc.ProbeExisting?
  {
    if found.None? then MountFailure(f)
    else if f.pc.ProbeCompat? then
      if found.value != NoFs && !found.value.Supported() then MountFailure(f) else Go(ProbeExisting)
    else Go(if found.value == NoFs then Format else CheckStaging(found.value))
  }

  function AfterMkfs(f: Frame, ok: bool): Next {
    if ok then Go(CheckStaging(f.req.FsType())) else MountFailure(f)
  }

  function AfterCheck(f: Frame, found: MountPoint): Next
    requires f.pc.CheckStaging? || f.pc.UmCheck? || f.pc.CheckTarget?
  {
    match f.pc
    case CheckStaging(t) => if found.Mounted? then Go(Insert) else if found.NotMounted? then Go(MountStaging(t)) else MountFailure(f)
    case UmCheck(at) => if found.Mounted? then Go(UmUnmount(at)) else AfterUnmount(f, at, !found.CheckFailed?)
    case CheckTarget =>
      if found.Mounted? then Go(RecordTarget) else if found.NotMounted? then Go(BindTarget) else Done(Internal, Keep)
  }

  function AfterStat(f: Frame, r: StatResult): Next
    requires f.pc.UmStat? || f.pc.StatTarget? || f.pc.StatMode?
  {
    match f.pc
    case UmStat(at) => if r.Exists? then Go(UmCheck(at)) else AfterUnmount(f, at, r.NotExist?)
    case StatTarget => if r.Exists? then Go(CheckTarget) else Done(Internal, Keep)
    case StatMode => Go(if r == Exists(true) then UmStat(UnpublishCleanup) else RemovePath(UnpublishCleanup))
  }

  function AfterCleanup(at: Site): Next {
    Go(if at.UnstageCleanup? then DropEntry else ClearTarget)
  }

  /** A step in the plugin's memory: parsing the volume ID, or a locked change of the map. */
  predicate Thinks(pc: PC) {
    pc.Insert? || pc.DropEntry? || pc.RecordTarget? || pc.ClearTarget?
  }

  function StagedEntry(f: Frame): Entry {
    Entry(Parse(f.req.vol.text), f.dev, if f.req.IsBlock() then BLOCK_MODE else MOUNT_MODE, f.req.staging, NO_PATH)
  }

  function AfterThought(f: Frame): Next
    requires Thinks(f.pc)
  {
    match f.pc
    case Insert => if Parse(f.req.vol.text).None? then Go(Delete(f.dev, BadVolumeId)) else Done(OK, Put(StagedEntry(f)))
    case DropEntry => Done(OK, Drop)
    case RecordTarget => Done(OK, SetTarget(f.req.target))
    case ClearTarget => Done(OK, SetTarget(NO_PATH))
  }

  function OrFail(pc: PC, ok: bool): Next {
    if ok then Go(pc) else Done(Internal, Keep)
  }

  /** Time on the node's clock, in milliseconds, and what a look at the link saw then. */
  datatype Sighting = Sighting(at: int, linked: bool)

  class HostSystem {
    var st: Host
    var now: int
    // The call the machine is taking through its steps, where it began and what happened since.
    ghost var call: Request
    ghost var start: State
    ghost var log: seq<Event>
    ghost var run: State

    ghost predicate Valid()
      reads this
    {
      run.host == st && CallLog(log, call) && run == Run(start, log)
    }

    ghost predicate InCall()
      reads this
    {
      log != [] && call.vol in run.frames
    }

    /** The call's frame. */
    ghost function F(): Frame
      requires InCall()
      reads this
    {
      run.frames[call.vol]
    }

    ghost predicate At(pc: PC)
      reads this
    {
      Valid() && InCall() && F().pc == pc
    }

    /** The same call goes on like this. */
    twostate predicate Goes(n: Next)
      requires old(InCall())
      reads this
    {
      Valid() && log != [] && SameCall() && Moved(old(run), run, call.vol, n)
    }

    twostate predicate SameCall()
      reads this
    {
      call == old(call) && start == old(start) && old(now) <= now
    }

    constructor (h: Host)
      ensures Valid() && log == [] && run == State(h, map[], map[], map[], {})
    {
      st, now := h, 0;
      start, log, run := State(h, map[], map[], map[], {}), [], State(h, map[], map[], map[], {});
    }

    ghost method Take(e: Event)
      requires Valid() && log != [] && Inside(e, call.vol)
      modifies `log, `run
      ensures run == Step(old(run), e) && log == old(log) + [e] && CallLog(log, call) && run == Run(start, log)
    {
      RunSnoc(start, log, e);
      log, run := log + [e], Step(run, e);
    }

    /** The plugin dies and a new one starts. */
    ghost method Reboot(listed: Option<seq<VolId>>)
      requires Valid()
      modifies `start, `log, `run
      ensures Valid() && log == [] && run == Step(old(run), Restart(listed))
    {
      hide Recover;
      run := Step(run, Restart(listed));
      start, log := run, [];
    }

    /** The plugin receives a call. */
    ghost method Receive(req: Request)
      requires Valid() && req.vol !in run.frames
      modifies `call, `start, `log, `run
      ensures Valid() && log != [] && call == req && start == old(run)
      ensures run == Open(old(run), req.vol, Enter(EntryOf(old(run), req.vol), req))
    {
      assert Run(run, []) == run;
      hide Enter; hide Run;
      RunSnoc(run, [], Begin(req));
      assert [] + [Begin(req)] == [Begin(req)];
      call, start, log, run := req, run, [Begin(req)], Step(run, Begin(req));
    }

    /** A step that only the plugin's own memory takes part in. */
    ghost method Think()
      requires Valid() && InCall() && Thinks(F().pc)
      modifies `log, `run
      ensures Goes(AfterThought(old(F())))
    {
      OpMoves(run, call.vol, SUCCESS);
      assert Act(st, F(), SUCCESS).host == st && Act(st, F(), SUCCESS).next == AfterThought(F());
      hide Act; hide Step;
      Take(Op(call.vol, SUCCESS));
    }

    /** Time passes, and the host does whatever it does. */
    method Interlude()
      requires Valid() && InCall()
      modifies `st, `now, `log, `run
      ensures Valid() && log != [] && SameCall() && SameCalls(old(run), run) && HostSince(old(log), log)
    {
      var rounds: nat, elapsed: nat := *, *;
      now := now + elapsed;
      for i := 0 to rounds
        invariant Valid() && log != [] && SameCall() && SameCalls(old(run), run) && HostSince(old(log), log)
      {
        var e: Event := *;
        if OfHost(e) {
          HostActs(run, e);
          hide Step; hide EnvHost; hide Run;
          Take(e);
          st := EnvHost(st, e);
        }
      }
    }

    // The wait for a link

    /** Looks for the link, which is no step of the machine unless the wait ends here. */
    method Lstat(dev: DevPath) returns (present: bool)
      requires At(WaitLink)
      modifies `st, `now, `log, `run
      ensures At(WaitLink) && SameCall() && SameCalls(old(run), run)
      ensures present == (dev in st.links)
    {
      Interlude();
      present := dev in st.links;
    }

    /** Sleeps for at least so long. */
    method Sleep(milliseconds: nat)
      requires At(WaitLink)
      modifies `st, `now, `log, `run
      ensures At(WaitLink) && SameCall() && SameCalls(old(run), run) && HostSince(old(log), log)
      ensures now >= old(now) + milliseconds
    {
      Interlude();
      now := now + milliseconds;
    }

    /** The link was seen: the machine's wait ends. */
    ghost method SeeLink()
      requires At(WaitLink) && Linked(st, F().req.vol)
      modifies `log, `run
      ensures Goes(AfterWait(old(F()), true))
    {
      OpMoves(run, call.vol, SUCCESS);
      hide Step; hide Run;
      Take(Op(call.vol, SUCCESS));
    }

    /** The wait is over without the link having been seen: the look that was the last one turns
        out to have ended it, and what the host did since then came after. */
    ghost method GiveUp(before: seq<Event>)
      requires At(WaitLink) && before != [] && HostSince(before, log) && !Linked(Run(start, before).host, call.vol)
      requires F().req.vol == call.vol
      modifies `log, `run
      ensures Goes(AfterWait(old(F()), false))
    {
      var s, since, op := Run(start, before), log[|before|..], Op(call.vol, SUCCESS);
      var t := Step(s, op);
      assert log == before + since;
      RunConcat(start, before, since);
      HostRuns(s, s, since);
      OpMoves(s, call.vol, SUCCESS);
      HostRuns(s, t, since);
      RunSnoc(start, before, op);
      RunConcat(start, before + [op], since);
      hide Run; hide Step; hide Act;
      log, run := before + [op] + since, Run(t, since);
    }

    // Systemd and the ublk driver

    method StartUnit(v: VolId) returns (ok: bool)
      requires At(StartUblk) && v == F().req.vol
      modifies this
      ensures Goes(AfterStart(ok))
    {
      hide Run; hide CallLog; hide Written;
      Interlude();
      var o: Outcome := *;
      var r := HostModel.StartUnit(st, v, o);
      OpMoves(run, call.vol, o);
      assert Act(st, F(), o).host == r.host && Act(st, F(), o).next == AfterStart(r.ok);
      hide Act; hide Step;
      Take(Op(call.vol, o));
      st, ok := r.host, r.ok;
    }

    method StopUnit(v: VolId) returns (ok: bool)
      requires Valid() && InCall() && (F().pc.StopAfterWait? || F().pc.DelStop?) && v == F().req.vol
      modifies this
      ensures Goes(AfterStop(old(F()).pc, ok))
    {
      hide Run; hide CallLog; hide Written;
      Interlude();
      var o: Outcome := *;
      var r := HostModel.StopUnit(st, v, o);
      OpMoves(run, call.vol, o);
      assert Act(st, F(), o).host == r.host && Act(st, F(), o).next == AfterStop(F().pc, r.ok);
      hide Act; hide Step;
      Take(Op(call.vol, o));
      st, ok := r.host, r.ok;
    }

    /** Follows a by-uuid link to the device node behind it and takes the minor from its name. */
    method ResolveUblkId(dev: DevPath) returns (id: Option<nat>)
      requires Valid() && InCall() && F().pc.DelResolve? && dev == F().dev
      modifies this
      ensures Goes(AfterResolve(old(F()).pc.why, id))
    {
      hide Run; hide CallLog; hide Written;
      Interlude();
      var o: Outcome := *;
      id := HostModel.ResolveUblkId(st, dev, o);
      OpMoves(run, call.vol, o);
      assert Act(st, F(), o).host == st && Act(st, F(), o).next == AfterResolve(F().pc.why, id);
      hide Act; hide Step;
      Take(Op(call.vol, o));
    }

    /** `ublk del -n id`, run by systemd. */
    method UblkDel(id: nat) returns (ok: bool)
      requires Valid() && InCall() && F().pc.DelRun? && id == F().pc.minor
      modifies this
      ensures Goes(AfterDelete(old(F()).pc.why))
    {
      hide Run; hide CallLog; hide Written;
      Interlude();
      var o: Outcome := *;
      var r := DeleteMinor(st, id, o);
      OpMoves(run, call.vol, o);
      assert Act(st, F(), o).host == r.host && Act(st, F(), o).next == AfterDelete(F().pc.why);
      hide Act; hide Step;
      Take(Op(call.vol, o));
      st, ok := r.host, r.ok;
    }

    // Filesystems on devices

    method Blkid(dev: DevPath) returns (found: Option<FsType>)
      requires Valid() && InCall() && (F().pc.ProbeCompat? || F().pc.ProbeExisting?) && dev == F().dev
      modifies this
      ensures Goes(AfterBlkid(old(F()), found))
    {
      hide Run; hide CallLog; hide Written;
      Interlude();
      var o: Outcome := *;
      found := HostModel.Blkid(st, dev, o);
      OpMoves(run, call.vol, o);
      assert Act(st, F(), o).host == st && Act(st, F(), o).next == AfterBlkid(F(), found);
      hide Act; hide Step;
      Take(Op(call.vol, o));
    }

    method Mkfs(dev: DevPath, t: FsType) returns (ok: bool)
      requires At(Format) && dev == F().dev && t == F().req.FsType()
      modifies this
      ensures Goes(AfterMkfs(old(F()), ok))
    {
      hide Run; hide CallLog; hide Written;
      Interlude();
      var o: Outcome := *;
      var r := HostModel.Mkfs(st, dev, t, o);
      OpMoves(run, call.vol, o);
      assert Act(st, F(), o).host == r.host && Act(st, F(), o).next == AfterMkfs(F(), r.ok);
      hide Act; hide Step;
      Take(Op(call.vol, o));
      st, ok := r.host, r.ok;
    }

    // Mount table and paths

    /** The path that the call checks for a mount next. */
    ghost predicate Checks(p: Path)
      requires InCall()
      reads this
    {
      match F().pc
      case CheckStaging(_) => p == F().req.staging
      case UmCheck(at) => p == SitePath(F().req, at)
      case CheckTarget => p == F().req.target
      case _ => false
    }

    method IsMountPoint(p: Path) returns (found: MountPoint)
      requires Valid() && InCall() && Checks(p)
      modifies this
      ensures Goes(AfterCheck(old(F()), found))
    {
      hide Run; hide CallLog; hide Written;
      Interlude();
      var o: Outcome := *;
      found := HostModel.IsMountPoint(st, p, o);
      OpMoves(run, call.vol, o);
      assert Act(st, F(), o).host == st && Act(st, F(), o).next == AfterCheck(F(), found);
      hide Act; hide Step;
      Take(Op(call.vol, o));
    }

    method MountDevice(dev: DevPath, p: Path, t: FsType) returns (ok: bool)
      requires At(MountStaging(t)) && dev == F().dev && p == F().req.staging
      modifies this
      ensures Goes(if ok then Go(Insert) else MountFailure(old(F())))
    {
      hide Run; hide CallLog; hide Written;
      Interlude();
      var o: Outcome := *;
      var r := HostModel.MountDevice(st, dev, p, t, o);
      OpMoves(run, call.vol, o);
      assert Act(st, F(), o).host == r.host && Act(st, F(), o).next == if r.ok then Go(Insert) else MountFailure(F());
      hide Act; hide Step;
      Take(Op(call.vol, o));
      st, ok := r.host, r.ok;
    }

    method BindDevice(dev: DevPath, p: Path) returns (ok: bool)
      requires At(BindTarget) && F().req.IsBlock() && dev == F().dev && p == F().req.target
      modifies this
      ensures Goes(OrFail(RecordTarget, ok))
    {
      hide Run; hide CallLog; hide Written;
      Interlude();
      var o: Outcome := *;
      var r := HostModel.BindDevice(st, dev, p, o);
      OpMoves(run, call.vol, o);
      assert Act(st, F(), o).host == r.host && Act(st, F(), o).next == OrFail(RecordTarget, r.ok);
      hide Act; hide Step;
      Take(Op(call.vol, o));
      st, ok := r.host, r.ok;
    }

    method BindPath(src: Path, p: Path) returns (ok: bool)
      requires At(BindTarget) && !F().req.IsBlock() && src == F().req.staging && p == F().req.target
      modifies this
      ensures Goes(OrFail(RecordTarget, ok))
    {
      hide Run; hide CallLog; hide Written;
      Interlude();
      var o: Outcome := *;
      var r := HostModel.BindPath(st, src, p, o);
      OpMoves(run, call.vol, o);
      assert Act(st, F(), o).host == r.host && Act(st, F(), o).next == OrFail(RecordTarget, r.ok);
      hide Act; hide Step;
      Take(Op(call.vol, o));
      st, ok := r.host, r.ok;
    }

    method Unmount(p: Path) returns (ok: bool)
      requires Valid() && InCall() && F().pc.UmUnmount? && p == SitePath(F().req, F().pc.at)
      modifies this
      ensures Goes(AfterUnmount(old(F()), old(F()).pc.at, ok))
    {
      hide Run; hide CallLog; hide Written;
      Interlude();
      var o: Outcome := *;
      var r := UnmountTop(st, p, o);
      OpMoves(run, call.vol, o);
      assert Act(st, F(), o).host == r.host && Act(st, F(), o).next == AfterUnmount(F(), F().pc.at, r.ok);
      hide Act; hide Step;
      Take(Op(call.vol, o));
      st, ok := r.host, r.ok;
    }

    /** The path that the call looks at next. */
    ghost predicate LooksAt(p: Path)
      requires InCall()
      reads this
    {
      match F().pc
      case UmStat(at) => p == SitePath(F().req, at)
      case StatTarget => p == F().req.target
      case StatMode => p == F().req.target
      case _ => false
    }

    method Stat(p: Path) returns (r: StatResult)
      requires Valid() && InCall() && LooksAt(p)
      modifies this
      ensures Goes(AfterStat(old(F()), r))
    {
      hide Run; hide CallLog; hide Written;
      Interlude();
      var o: Outcome := *;
      r := HostModel.Stat(st, p, o);
      OpMoves(run, call.vol, o);
      assert Act(st, F(), o).host == st && Act(st, F(), o).next == AfterStat(F(), r);
      hide Act; hide Step;
      Take(Op(call.vol, o));
    }

    ghost predicate Makes(p: Path)
      requires InCall()
      reads this
    {
      (F().pc.MkdirStaging? && p == F().req.staging) || (F().pc.MkdirTarget? && p == F().req.target)
    }

    method MkdirAll(p: Path) returns (ok: bool)
      requires Valid() && InCall() && Makes(p)
      modifies this
      ensures Goes(AfterMkdir(old(F()), ok))
    {
      hide Run; hide CallLog; hide Written;
      Interlude();
      var o: Outcome := *;
      var r := HostModel.MkdirAll(st, p, o);
      OpMoves(run, call.vol, o);
      assert Act(st, F(), o).host == r.host && Act(st, F(), o).next == AfterMkdir(F(), r.ok);
      hide Act; hide Step;
      Take(Op(call.vol, o));
      st, ok := r.host, r.ok;
    }

    /** Creates the directories above the path, which the model has no state for. */
    method MkdirParent(p: Path) returns (ok: bool)
      requires At(PC.MkdirParent) && p == F().req.target
      modifies this
      ensures Goes(OrFail(OpenTarget, ok))
    {
      hide Run; hide CallLog; hide Written;
      Interlude();
      var o: Outcome := *;
      ok := o.ok;
      OpMoves(run, call.vol, o);
      assert Act(st, F(), o).host == st && Act(st, F(), o).next == OrFail(OpenTarget, ok);
      hide Act; hide Step;
      Take(Op(call.vol, o));
    }

    method OpenOrCreate(p: Path) returns (ok: bool)
      requires At(OpenTarget) && p == F().req.target
      modifies this
      ensures Goes(OrFail(StatTarget, ok))
    {
      hide Run; hide CallLog; hide Written;
      Interlude();
      var o: Outcome := *;
      var r := HostModel.OpenOrCreate(st, p, o);
      OpMoves(run, call.vol, o);
      assert Act(st, F(), o).host == r.host && Act(st, F(), o).next == OrFail(StatTarget, r.ok);
      hide Act; hide Step;
      Take(Op(call.vol, o));
      st, ok := r.host, r.ok;
    }

    method Remove(p: Path) returns (r: RemoveResult)
      requires Valid() && InCall() && F().pc.RemovePath? && p == SitePath(F().req, F().pc.at)
      modifies this
      ensures Goes(AfterCleanup(old(F()).pc.at))
    {
      hide Run; hide CallLog; hide Written;
      Interlude();
      var o: Outcome := *;
      r := HostModel.Remove(st, p, o);
      OpMoves(run, call.vol, o);
      assert Act(st, F(), o).host == AfterRemove(st, p, o) && Act(st, F(), o).next == AfterCleanup(F().pc.at);
      hide Act; hide Step;
      Take(Op(call.vol, o));
      st := AfterRemove(st, p, o);
    }
  }
}
