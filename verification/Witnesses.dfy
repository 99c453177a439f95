/** A run for each way in which the node plugin falls short, from a plugin that has just started. */
module Witnesses {
  import opened Uuid
  import opened Types
  import opened HostModel
  import opened Machine
  import opened Effects
  import opened Invariant
  import opened Views
  import opened Recovery
  import opened Delivery
  import opened CleanCalls
  import opened Lifecycle
  import opened Shortfalls
  import Decimal

  // Short runs, step by step

  lemma {:induction false} RunThree(s: State, e0: Event, e1: Event, e2: Event)
    ensures Run(s, [e0, e1, e2]) == Step(Step(Step(s, e0), e1), e2)
  {
    hide Step; hide Run;
    assert [e0, e1] + [e2] == [e0, e1, e2];
    RunTwo(s, e0, e1);
    RunSnoc(s, [e0, e1], e2);
  }

  lemma {:induction false} RunFour(s: State, e0: Event, e1: Event, e2: Event, e3: Event)
    ensures Run(s, [e0, e1, e2, e3]) == Step(Step(Step(Step(s, e0), e1), e2), e3)
  {
    hide Step; hide Run;
    assert [e0, e1, e2] + [e3] == [e0, e1, e2, e3];
    RunThree(s, e0, e1, e2);
    RunSnoc(s, [e0, e1, e2], e3);
  }

  lemma {:induction false} RunTwo(s: State, e0: Event, e1: Event)
    ensures Run(s, [e0, e1]) == Step(Step(s, e0), e1)
  {
    hide Step; hide Run;
    assert [e0] + [e1] == [e0, e1];
    RunOne(s, e0);
    RunSnoc(s, [e0], e1);
  }

  /** A plugin that has just started, and a stage of a filesystem volume of which nothing is there. */
  ghost predicate FirstStage(b: State, req: Request) {
    Starting(b) && req.call.Stage? && !req.IsBlock() && ValidRequest(req) && StageReady(b.host, req)
  }

  function StageFrame(req: Request, pc: PC): Frame {
    Frame(req, pc, UblkByUUIDPath(req.vol), false)
  }

  /** The stage is about to take this step; nothing was answered and no entry made. */
  predicate StageIsAt(b: State, s: State, req: Request, pc: PC) {
    && req.vol in s.frames && s.frames[req.vol] == StageFrame(req, pc)
    && s.volMap == map[] && s.replies == b.replies
  }

  lemma StageSteps(b: State, s: State, req: Request, pc: PC, o: Outcome)
    requires StageIsAt(b, s, req, pc)
    ensures var m, t := Act(s.host, StageFrame(req, pc), o), Step(s, Op(req.vol, o));
      && t.host == m.host
      && (m.next.Go? ==> StageIsAt(b, t, req, m.next.pc))
      && (m.next.Done? ==> req.vol !in t.frames && Replies(t, req.vol) == Replies(b, req.vol) + [m.next.code]
                           && t.volMap == Written(map[], req.vol, m.next.write))
  {
    hide Act;
  }

  lemma StageBegins(b: State, req: Request)
    requires FirstStage(b, req)
    ensures var s := Step(b, Begin(req)); StageIsAt(b, s, req, StartUblk) && s.host == b.host
  {
    hide Decimal.ParseInt64; hide StageReady; hide LinksBacked;
  }

  /** The host with the device up, or the last step to get there. */
  lemma DeviceComes(b: State, s: State, req: Request, pref: nat)
    requires FirstStage(b, req) && s.host == b.host.(units := b.host.units + {UblkUnitName(req.vol)})
    ensures var t := Step(s, DaemonUp(req.vol, pref));
      && t.frames == s.frames && t.volMap == s.volMap && t.replies == s.replies
      && Booted(b.host, t.host, req.vol) && SamePaths(b.host, t.host) && t.host.fs == b.host.fs
  {
    hide LinksBacked;
  }

  lemma UnitStarts(h: Host, req: Request)
    requires StageReady(h, req)
    ensures Act(h, StageFrame(req, StartUblk), SUCCESS) == Continue(h.(units := h.units + {UblkUnitName(req.vol)}), WaitLink)
  {
  }

  lemma DeviceComesUp(b: State, req: Request, pref: nat)
    requires FirstStage(b, req)
    ensures var v := req.vol; var s := Step(Step(Step(b, Begin(req)), Op(v, SUCCESS)), DaemonUp(v, pref));
      StageIsAt(b, s, req, WaitLink) && Booted(b.host, s.host, v) && SamePaths(b.host, s.host) && s.host.fs == b.host.fs
  {
    hide Step; hide Act; hide FirstStage; hide Booted;
    StageBegins(b, req);
    var s := Step(b, Begin(req));
    UnitStarts(b.host, req) by { IsFirst(b, req); }
    StageSteps(b, s, req, StartUblk, SUCCESS);
    DeviceComes(b, Step(s, Op(req.vol, SUCCESS)), req, pref);
  }

  lemma IsFirst(b: State, req: Request)
    requires FirstStage(b, req)
    ensures StageReady(b.host, req) && !req.IsBlock() && Starting(b)
  {
  }

  // A restart between the device coming up and the mount

  /** The plugin is restarted while a stage waits for its device: the stage that is delivered then is
      answered with success although nothing is mounted. */
  lemma {:induction false} StagedUnmounted(b: State, req: Request, pref: nat)
    requires FirstStage(b, req) && Parse(req.vol.text).Some?
    ensures var v := req.vol;
      var t := Run(b, [Begin(req), Op(v, SUCCESS), DaemonUp(v, pref)] + [Restart(Some([v])), Begin(req)]);
      v !in t.frames && Replies(t, v) == Replies(b, v) + [OK] && Staged(t, v) && Layers(t.host, req.staging) == []
  {
    hide Run; hide Parse; hide Step;
    var v := req.vol;
    var first, second := [Begin(req), Op(v, SUCCESS), DaemonUp(v, pref)], [Restart(Some([v])), Begin(req)];
    RunConcat(b, first, second);
    RunThree(b, first[0], first[1], first[2]);
    DeviceComesUp(b, req, pref);
    var s := Run(b, first);
    RunTwo(s, second[0], second[1]);
    AdoptedUnmounted(b, s, req);
  }

  lemma AdoptedUnmounted(b: State, s: State, req: Request)
    requires FirstStage(b, req) && Parse(req.vol.text).Some?
    requires Booted(b.host, s.host, req.vol) && SamePaths(b.host, s.host) && s.replies == b.replies
    ensures var t := Step(Step(s, Restart(Some([req.vol]))), Begin(req));
      && req.vol !in t.frames && Replies(t, req.vol) == Replies(b, req.vol) + [OK] && Staged(t, req.vol)
      && Layers(t.host, req.staging) == []
  {
    hide Parse; hide Decimal.ParseInt64; hide Booted; hide Recover; hide Backing; hide LinksBacked;
    BackingUp(b.host, s.host, req.vol);
    RestartAdopts(s, [req.vol], req.vol);
  }

  // A probe that fails to show the filesystem

  /** The volume has a filesystem and the second probe gives no answer: the stage succeeds, but not
      with the filesystem that was there. */
  lemma {:induction false} StageReformats(b: State, req: Request, pref: nat)
    requires FirstStage(b, req) && Parse(req.vol.text).Some? && FsOn(b.host, req.vol) != NoFs
    ensures var v, success := req.vol, Op(req.vol, SUCCESS);
      var t := Run(b, [Begin(req), success, DaemonUp(v, pref), success] +
                      [success, success, Op(v, Outcome(true, false, Silence)), success] + [success, success, success]);
      && v !in t.frames && Replies(t, v) == Replies(b, v) + [OK]
      && FsOn(t.host, v) == req.FsType() && Layers(t.host, req.staging) == [Device(v, req.FsType())]
  {
    hide Run; hide Parse; hide Step; hide FirstStage; hide Booted; hide Layers; hide FsOn; hide KindOf;
    var v, op := req.vol, Op(req.vol, SUCCESS);
    var up, blind := DaemonUp(v, pref), Op(v, Outcome(true, false, Silence));
    RunConcat(b, [Begin(req), op, up, op] + [op, op, blind, op], [op, op, op]);
    RunConcat(b, [Begin(req), op, up, op], [op, op, blind, op]);
    RunFour(b, Begin(req), op, up, op);
    DeviceComesUp(b, req, pref);
    var s := Step(Step(Step(b, Begin(req)), op), up);
    DeviceIsThere(b, s, req);
    RunFour(Step(s, op), op, op, blind, op);
    BlindProbe(b, Step(s, op), req);
    var t := Step(Step(Step(Step(Step(s, op), op), op), blind), op);
    RunThree(t, op, op, op);
    MountsNew(b, t, req);
  }

  lemma DeviceIsThere(b: State, s: State, req: Request)
    requires FirstStage(b, req) && StageIsAt(b, s, req, WaitLink) && Booted(b.host, s.host, req.vol)
    ensures var t := Step(s, Op(req.vol, SUCCESS)); StageIsAt(b, t, req, MkdirStaging) && t.host == s.host
  {
    hide Step;
    StageSteps(b, s, req, WaitLink, SUCCESS);
  }

  /** Up to mkfs, which writes the type that was asked for. */
  lemma BlindMoves(h: Host, req: Request)
    requires Backing(h, UblkByUUIDPath(req.vol)) == Some(req.vol) && FsOn(h, req.vol).Supported() && req.FsType().Supported()
    ensures Act(h, StageFrame(req, ProbeCompat), SUCCESS) == Continue(h, ProbeExisting)
    ensures Act(h, StageFrame(req, ProbeExisting), Outcome(true, false, Silence)) == Continue(h, Format)
    ensures Act(h, StageFrame(req, Format), SUCCESS) ==
            Continue(h.(fs := h.fs[req.vol := req.FsType()]), CheckStaging(req.FsType()))
  {
    hide Backing;
  }

  lemma MkdirMove(h: Host, req: Request)
    requires Layers(h, req.staging) == [] && KindOf(h, req.staging) != File && req.FsType().Supported()
    ensures var m := Act(h, StageFrame(req, MkdirStaging), SUCCESS);
      && m.next == Go(ProbeCompat) && SameDevices(h, m.host) && m.host.fs == h.fs
      && Layers(m.host, req.staging) == [] && KindOf(m.host, req.staging) == Dir
  {
  }

  lemma BlindProbe(b: State, s: State, req: Request)
    requires FirstStage(b, req) && FsOn(b.host, req.vol) != NoFs
    requires StageIsAt(b, s, req, MkdirStaging)
    requires Booted(b.host, s.host, req.vol) && SamePaths(b.host, s.host) && s.host.fs == b.host.fs
    ensures var v, op := req.vol, Op(req.vol, SUCCESS);
      var t := Step(Step(Step(Step(s, op), op), Op(v, Outcome(true, false, Silence))), op);
      && StageIsAt(b, t, req, CheckStaging(req.FsType())) && Booted(b.host, t.host, v)
      && FsOn(t.host, v) == req.FsType() && Layers(t.host, req.staging) == [] && KindOf(t.host, req.staging) == Dir
  {
    hide Step; hide Act; hide LinksBacked;
    var v, blind := req.vol, Outcome(true, false, Silence);
    BackingUp(b.host, s.host, v);
    MkdirMove(s.host, req);
    StageSteps(b, s, req, MkdirStaging, SUCCESS);
    var t := Step(s, Op(v, SUCCESS));
    assert Backing(t.host, UblkByUUIDPath(v)) == Some(v);
    BlindMoves(t.host, req);
    StageSteps(b, t, req, ProbeCompat, SUCCESS);
    t := Step(t, Op(v, SUCCESS));
    StageSteps(b, t, req, ProbeExisting, blind);
    t := Step(t, Op(v, blind));
    StageSteps(b, t, req, Format, SUCCESS);
  }

  lemma MountMoves(h: Host, req: Request)
    requires Backing(h, UblkByUUIDPath(req.vol)) == Some(req.vol)
    requires Layers(h, req.staging) == [] && KindOf(h, req.staging) == Dir
    ensures var t := req.FsType();
      && Act(h, StageFrame(req, CheckStaging(t)), SUCCESS) == Continue(h, MountStaging(t))
      && Act(h, StageFrame(req, MountStaging(t)), SUCCESS) == Continue(Push(h, req.staging, Device(req.vol, t)), Insert)
  {
    hide Backing;
  }

  lemma InsertMove(h: Host, req: Request)
    requires Parse(req.vol.text).Some?
    ensures var m := Act(h, StageFrame(req, Insert), SUCCESS); m.host == h && m.next.Done? && m.next.code == OK
  {
    hide Parse;
  }

  lemma MountsNew(b: State, s: State, req: Request)
    requires FirstStage(b, req) && Parse(req.vol.text).Some?
    requires StageIsAt(b, s, req, CheckStaging(req.FsType())) && Booted(b.host, s.host, req.vol)
    requires FsOn(s.host, req.vol) == req.FsType() && Layers(s.host, req.staging) == [] && KindOf(s.host, req.staging) == Dir
    ensures var v, op := req.vol, Op(req.vol, SUCCESS);
      var t := Step(Step(Step(s, op), op), op);
      && v !in t.frames && Replies(t, v) == Replies(b, v) + [OK]
      && FsOn(t.host, v) == req.FsType() && Layers(t.host, req.staging) == [Device(v, req.FsType())]
  {
    hide Step; hide Act; hide Parse; hide FirstStage;
    var v := req.vol;
    BackingUp(b.host, s.host, v);
    hide Booted; hide Backing;
    MountMoves(s.host, req);
    StageSteps(b, s, req, CheckStaging(req.FsType()), SUCCESS);
    var t := Step(s, Op(v, SUCCESS));
    StageSteps(b, t, req, MountStaging(req.FsType()), SUCCESS);
    t := Step(t, Op(v, SUCCESS));
    InsertMove(t.host, req);
    StageSteps(b, t, req, Insert, SUCCESS);
  }

  // A device that comes up too late

  /** The link is not there at the deciding look, and appears before the unit is stopped: the stage
      fails, and the device stays without a daemon and without an entry. */
  lemma {:induction false} LateDeviceLeft(b: State, req: Request, pref: nat)
    requires FirstStage(b, req)
    ensures var v, success := req.vol, Op(req.vol, SUCCESS);
      var t := Run(b, [Begin(req), success, success] + [DaemonUp(v, pref), success]);
      && v !in t.frames && Replies(t, v) == Replies(b, v) + [Internal] && v !in t.volMap
      && !Live(t.host, v) && Backing(t.host, UblkByUUIDPath(v)) == Some(v)
  {
    hide Run; hide Step; hide Act; hide FirstStage; hide Booted; hide Backing;
    var v, op, up := req.vol, Op(req.vol, SUCCESS), DaemonUp(req.vol, pref);
    RunConcat(b, [Begin(req), op, op], [up, op]);
    RunThree(b, Begin(req), op, op);
    StageBegins(b, req);
    var s := Step(b, Begin(req));
    IsFirst(b, req);
    UnitStarts(b.host, req);
    StageSteps(b, s, req, StartUblk, SUCCESS);
    s := Step(s, op);
    NoLinkYet(s.host, req);
    StageSteps(b, s, req, WaitLink, SUCCESS);
    s := Step(s, op);
    RunTwo(s, up, op);
    DeviceComes(b, s, req, pref);
    BackingUp(b.host, Step(s, up).host, v);
    StopMove(Step(s, up).host, req);
    StageSteps(b, Step(s, up), req, StopAfterWait, SUCCESS);
  }

  lemma NoLinkYet(h: Host, req: Request)
    requires !Linked(h, req.vol)
    ensures Act(h, StageFrame(req, WaitLink), SUCCESS) == Continue(h, StopAfterWait)
  {
  }

  lemma StopMove(h: Host, req: Request)
    ensures var m := Act(h, StageFrame(req, StopAfterWait), SUCCESS);
      && m.next == Done(Internal, Keep) && !Live(m.host, req.vol)
      && forall d :: Backing(m.host, d) == Backing(h, d)
  {
  }

  // A volume ID that does not parse

  predicate MountedWithoutEntry(b: State, t: State, req: Request) {
    var v := req.vol;
    && v !in t.frames && Replies(t, v) == Replies(b, v) + [InvalidArgument] && v !in t.volMap
    && !Live(t.host, v) && Layers(t.host, req.staging) == [Device(v, FsOn(t.host, v))]
  }

  /** A stage with nothing going wrong but its volume ID is refused, and its mount stays. */
  lemma {:induction false} RefusedButMounted(b: State, req: Request)
    requires FirstStage(b, req) && Parse(req.vol.text).None?
    ensures exists es :: Completes(b, req, es) && MountedWithoutEntry(b, Run(b, [Begin(req)] + es), req)
  {
    hide Run; hide Parse; hide CleanRun; hide Layers; hide FsOn;
    var owner: Owner := p => req.vol;
    InvStarts(owner, b);
    CallCanComplete(b, req);
    var es :| Completes(b, req, es);
    hide StageReady; hide ValidRequest; hide Inv;
    BadIdLeavesMount(owner, b, req, es);
  }

  // A link that is gone when the volume is unstaged

  /** v's call is over and its unit runs on, though no entry knows of it. */
  predicate Leaked(b: State, t: State, v: VolId) {
    v !in t.frames && Replies(t, v) == Replies(b, v) + [OK, OK] && v !in t.volMap && Live(t.host, v)
  }

  function Successful(v: VolId, n: nat): seq<Event> {
    seq(n, _ => Op(v, SUCCESS))
  }

  lemma {:induction false} SuccessfulSteps(v: VolId, n: nat)
    ensures OwnSteps(Successful(v, n), v) == n
  {
    if n > 0 {
      assert Successful(v, n)[1..] == Successful(v, n - 1);
      SuccessfulSteps(v, n - 1);
    }
  }

  lemma FirstIsReady(b: State, req: Request)
    requires FirstStage(b, req)
    ensures CallReady(b, req)
  {
    hide StageReady; hide LinksBacked;
  }

  /** What a first stage with an ID that parses has done when it is over. */
  lemma {:induction false} FirstIsStaged(owner: Owner, b: State, req: Request, es: seq<Event>)
    requires FirstStage(b, req) && Parse(req.vol.text).Some? && OwnedRequest(owner, req)
    requires Completes(b, req, es)
    ensures var v, s := req.vol, Run(b, [Begin(req)] + es);
      && Inv(owner, s) && v !in s.frames && v in s.volMap && Live(s.host, v) && Linked(s.host, v)
      && Replies(s, v) == Replies(b, v) + [OK] && Layers(s.host, req.staging) == [Device(v, FsOn(s.host, v))]
  {
    hide Run; hide Parse; hide CleanRun; hide Inv; hide StageReady; hide LinksBacked; hide OwnedRequest; hide FsGiven;
    FirstIsReady(b, req);
    CallDoes(b, req, es);
    InvStarts(owner, b);
    InvRun(owner, b, [Begin(req)] + es);
  }

  lemma LinkGone(owner: Owner, s: State, v: VolId)
    requires Inv(owner, s)
    ensures var t := Step(s, LinkLost(v));
      && Inv(owner, t) && !Linked(t.host, v) && (Live(t.host, v) <==> Live(s.host, v))
      && t.frames == s.frames && t.volMap == s.volMap && t.replies == s.replies
  {
    InvStep(owner, s, LinkLost(v));
    hide Inv;
  }

  /** Enough successful steps for any call. */
  const ENOUGH := 30

  lemma RankIsBounded(pc: PC)
    ensures Rank(pc) < ENOUGH
  {
  }

  /** Two responses in a row. */
  lemma TwoReplies(before: seq<Code>, c: Code, d: Code)
    ensures before + [c] + [d] == before + [c, d]
  {
  }

  lemma {:induction false} LinklessUnstage(owner: Owner, b: State, s: State, req: Request)
    requires Inv(owner, s) && OwnedRequest(owner, req) && req.call.Unstage? && ValidRequest(req)
    requires req.vol !in s.frames && req.vol in s.volMap && Live(s.host, req.vol) && !Linked(s.host, req.vol)
    requires Replies(s, req.vol) == Replies(b, req.vol) + [OK]
    ensures Leaked(b, Run(s, [Begin(req)] + Successful(req.vol, ENOUGH)), req.vol)
  {
    hide Step; hide Inv; hide OwnedRequest; hide ValidRequest; hide Rank; hide Linked; hide Live;
    var v, t, es := req.vol, Step(s, Begin(req)), Successful(req.vol, ENOUGH);
    SuccessfulSteps(v, ENOUGH);
    if v in t.frames { RankIsBounded(t.frames[v].pc); }
    CallsEnd(t, es, v);
    assert ([Begin(req)] + es)[1..] == es && Run(s, [Begin(req)] + es) == Run(t, es);
    hide Run;
    UnstageLeaksExactly(owner, s, req, es);
    TwoReplies(Replies(b, v), OK, OK);
  }

  function CrashAndUnstage(req: Request): seq<Event> {
    [LinkLost(req.vol)] + ([Begin(req)] + Successful(req.vol, ENOUGH))
  }

  /** A volume is staged, its daemon crashes and takes the link down, having been started without the
      recovery flag; the unstage that comes before systemd has started it again is answered with
      success and leaves the unit. */
  lemma {:induction false} CrashedDaemonLeaks(b: State, stage: Request, req: Request)
    requires FirstStage(b, stage) && Parse(stage.vol.text).Some? && UnstageFits(stage, req)
    ensures exists es :: Completes(b, stage, es) && Leaked(b, Run(b, [Begin(stage)] + es + CrashAndUnstage(req)), req.vol)
  {
    hide Run; hide Parse; hide CleanRun; hide Step; hide FirstStage; hide CallReady; hide Leaked;
    hide Live; hide Linked; hide Inv;
    var v, owner: Owner := req.vol, p => req.vol;
    CallCanComplete(b, stage) by { FirstIsReady(b, stage); }
    var es :| Completes(b, stage, es);
    var s, unstage := Run(b, [Begin(stage)] + es), [Begin(req)] + Successful(v, ENOUGH);
    FirstIsStaged(owner, b, stage, es);
    LinkGone(owner, s, v);
    LinklessUnstage(owner, b, Step(s, LinkLost(v)), req);
    RunConcat(b, [Begin(stage)] + es, [LinkLost(v)] + unstage);
    RunConcat(s, [LinkLost(v)], unstage);
    RunOne(s, LinkLost(v));
  }

  // An entry that is lost

  predicate UnstagedButThere(b: State, t: State, req: Request) {
    var v := req.vol;
    && v !in t.frames && Replies(t, v) == Replies(b, v) + [OK, OK] && v !in t.volMap
    && Live(t.host, v) && Linked(t.host, v) && Layers(t.host, req.staging) == [Device(v, FsOn(t.host, v))]
  }

  /** A volume is staged and the plugin restarts while the control plane cannot be reached: the unstage
      is answered with success, and unit, link and mount stay. */
  lemma {:induction false} LostEntryLeaks(b: State, stage: Request, req: Request)
    requires FirstStage(b, stage) && Parse(stage.vol.text).Some? && UnstageFits(stage, req)
    ensures exists es ::
      Completes(b, stage, es) && UnstagedButThere(b, Run(b, [Begin(stage)] + es + [Restart(None), Begin(req)]), req)
  {
    hide Run; hide Parse; hide Step; hide FirstStage; hide CallReady; hide Live; hide Linked; hide Inv; hide CleanRun;
    hide Layers; hide FsOn;
    var v, owner: Owner := req.vol, p => req.vol;
    CallCanComplete(b, stage) by { FirstIsReady(b, stage); }
    var es :| Completes(b, stage, es);
    var s := Run(b, [Begin(stage)] + es);
    FirstIsStaged(owner, b, stage, es);
    RunConcat(b, [Begin(stage)] + es, [Restart(None), Begin(req)]);
    RunTwo(s, Restart(None), Begin(req));
    UnknownIsUnstaged(s, req);
    TwoReplies(Replies(b, v), OK, OK);
  }

  lemma UnknownIsUnstaged(s: State, req: Request)
    requires req.call.Unstage? && ValidRequest(req)
    ensures var t := Step(Step(s, Restart(None)), Begin(req));
      t.host == s.host && t.volMap == map[] && t.frames == map[] && Replies(t, req.vol) == Replies(s, req.vol) + [OK]
  {
  }

  // A target that cannot be removed

  function UnpublishFrame(req: Request, pc: PC): Frame {
    Frame(req, pc, NoDevPath, true)
  }

  predicate UnpublishIsAt(b: State, s: State, req: Request, pc: PC) {
    var v := req.vol;
    && v in s.frames && s.frames[v] == UnpublishFrame(req, pc) && s.host == b.host
    && v in s.volMap && s.replies == b.replies
  }

  lemma UnpublishSteps(b: State, s: State, req: Request, pc: PC, o: Outcome)
    requires UnpublishIsAt(b, s, req, pc)
    ensures var m, t := Act(b.host, UnpublishFrame(req, pc), o), Step(s, Op(req.vol, o));
      && (m.next.Go? && m.host == b.host ==> UnpublishIsAt(b, t, req, m.next.pc))
      && (m.next.Done? && m.host == b.host ==>
            && req.vol !in t.frames && Replies(t, req.vol) == Replies(b, req.vol) + [m.next.code] && t.host == b.host
            && (m.next.write.SetTarget? ==> req.vol in t.volMap))
  {
    hide Act;
  }

  /** Nothing is mounted at the target, so there is nothing to unmount, either time. */
  lemma NothingToUnmount(h: Host, req: Request, at: Site)
    requires Layers(h, req.target) == [] && KindOf(h, req.target) == Dir && (at.UnpublishUnmount? || at.UnpublishCleanup?)
    ensures Act(h, UnpublishFrame(req, UmStat(at)), SUCCESS) == Continue(h, UmCheck(at))
    ensures Act(h, UnpublishFrame(req, UmCheck(at)), SUCCESS) == Continue(h, if at.UnpublishUnmount? then StatMode else RemovePath(at))
  {
    hide CreateMove; hide MountMove; hide DeleteMove; hide PublishMove; hide UnmountTop; hide AfterRemove;
  }

  lemma TargetIsDirectory(h: Host, req: Request)
    requires Layers(h, req.target) == [] && KindOf(h, req.target) == Dir
    ensures Act(h, UnpublishFrame(req, StatMode), SUCCESS) == Continue(h, UmStat(UnpublishCleanup))
  {
    hide CreateMove; hide MountMove; hide DeleteMove; hide PublishMove; hide UnmountTop; hide AfterRemove;
  }

  lemma UnremovedMoves(h: Host, req: Request)
    ensures Act(h, UnpublishFrame(req, RemovePath(UnpublishCleanup)), Outcome(false, false, Truth)) ==
            Continue(h, ClearTarget)
    ensures Act(h, UnpublishFrame(req, ClearTarget), SUCCESS) == Move(h, Done(OK, SetTarget(NO_PATH)), NoChange)
  {
  }

  lemma UnpublishBegins(b: State, req: Request)
    requires Starting(b) && req.call.Unpublish? && ValidRequest(req) && Parse(req.vol.text).Some? && Linked(b.host, req.vol)
    ensures UnpublishIsAt(b, Step(Step(b, Restart(Some([req.vol]))), Begin(req)), req, UmStat(UnpublishUnmount))
  {
    hide Parse; hide Recover; hide Backing;
    BackingIsVolume(b.host, req.vol);
    RestartAdopts(b, [req.vol], req.vol);
  }

  /** The target of a volume that is up, with nothing mounted on it, as an earlier unpublish left it
      that could not remove it: neither can this one, and it is answered with success as well. */
  lemma {:induction false} TargetStays(b: State, req: Request)
    requires Starting(b) && req.call.Unpublish? && ValidRequest(req) && Parse(req.vol.text).Some?
    requires Linked(b.host, req.vol) && Layers(b.host, req.target) == [] && KindOf(b.host, req.target) == Dir
    ensures var v, success, failure := req.vol, Op(req.vol, SUCCESS), Op(req.vol, Outcome(false, false, Truth));
      var t := Run(b, [Restart(Some([v])), Begin(req), success, success] + [success, success, success] + [failure, success]);
      && v !in t.frames && Replies(t, v) == Replies(b, v) + [OK]
      && KindOf(t.host, req.target) == Dir && v in t.volMap && !InPlace(t, req)
  {
    hide Run; hide Step; hide Act; hide Parse; hide Layers; hide KindOf; hide Linked; hide Starting; hide ValidRequest;
    var v, success, failed := req.vol, Op(req.vol, SUCCESS), Outcome(false, false, Truth);
    var first, second := [Restart(Some([v])), Begin(req), success, success], [success, success, success];
    var third := [Op(v, failed), success];
    RunConcat(b, first + second, third);
    RunConcat(b, first, second);
    UnpublishBegins(b, req);
    NothingToUnmount(b.host, req, UnpublishUnmount);
    TargetIsDirectory(b.host, req);
    NothingToUnmount(b.host, req, UnpublishCleanup);
    UnremovedMoves(b.host, req);
    RunFour(b, first[0], first[1], success, success);
    var s := Step(Step(b, first[0]), first[1]);
    UnpublishSteps(b, s, req, UmStat(UnpublishUnmount), SUCCESS);
    s := Step(s, success);
    UnpublishSteps(b, s, req, UmCheck(UnpublishUnmount), SUCCESS);
    s := Step(s, success);
    RunThree(s, success, success, success);
    UnpublishSteps(b, s, req, StatMode, SUCCESS);
    s := Step(s, success);
    UnpublishSteps(b, s, req, UmStat(UnpublishCleanup), SUCCESS);
    s := Step(s, success);
    UnpublishSteps(b, s, req, UmCheck(UnpublishCleanup), SUCCESS);
    s := Step(s, success);
    RunTwo(s, Op(v, failed), success);
    UnpublishSteps(b, s, req, RemovePath(UnpublishCleanup), failed);
    UnpublishSteps(b, Step(s, Op(v, failed)), req, ClearTarget, SUCCESS);
  }
}
