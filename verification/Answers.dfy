/** What every node call answers and what entry it leaves, in any run, told by the fields of its request
    and by what its operations report. */
module Answers {
  import opened Uuid
  import opened Types
  import opened HostModel
  import opened Machine
  import opened Invariant
  import opened Views
  import opened Mounts
  import opened Rollback
  import opened Shortfalls
  import Decimal

  // Answers that need no operation

  /** A field that the call cannot do without is empty, or is no size. */
  predicate LacksField(req: Request) {
    || req.vol.text == ""
    || (req.call.Stage? && (req.staging.text == "" || req.cap == None || Decimal.ParseInt64(req.size) == None))
    || (req.call.Unstage? && req.staging.text == "")
    || (req.call.Publish? && (req.staging.text == "" || req.target.text == ""))
    || (req.call.Unpublish? && req.target.text == "")
  }

  /** The answer that the request and the map alone decide, if they do. */
  function AnswerAtOnce(entry: Option<Entry>, req: Request): Option<Code> {
    if LacksField(req) then Some(InvalidArgument)
    else if req.call.Stage? && entry.Some? && entry.value.ublkPath.ByUuid? then Some(OK)
    else if req.call.Unstage? && entry == None then Some(OK)
    else if req.call.Publish? && entry == None then Some(FailedPrecondition)
    else None
  }

  // Operations whose failure fails the call

  /** The filesystem type that a stage asks for: the one it names, or else ext4. */
  function Named(req: Request): FsType {
    match req.cap
    case Some(Mount(NoFs)) => Ext4
    case Some(Mount(t)) => t
    case _ => Ext4
  }

  predicate Mountable(t: FsType) {
    t == Ext4 || t == Ext3 || t == Xfs
  }

  predicate LooksAbsent(h: Host, p: Path) {
    Layers(h, p) == [] && KindOf(h, p) == Absent
  }

  /** blkid says that there is no such device, or nothing that can be mounted; the latter counts for
      the first of the two probes. */
  predicate ProbeFails(h: Host, v: VolId, o: Outcome, first: bool) {
    match o.probe
    case Truth => first && Linked(h, v) && FsOn(h, v) != NoFs && !Mountable(FsOn(h, v))
    case NoDevice => true
    case Silence => false
    case Claim(t) => first && t != NoFs && !Mountable(t)
  }

  /** This step of the call reports a failure that the call cannot go on after. */
  predicate Fails(h: Host, f: Frame, o: Outcome) {
    var v, req := f.req.vol, f.req;
    match f.pc
    case StartUblk => Live(h, v) || !o.ok
    case WaitLink => !Linked(h, v)
    case MkdirStaging => !MkdirAll(h, req.staging, o).ok || !Mountable(Named(req))
    case ProbeCompat => ProbeFails(h, v, o, true)
    case ProbeExisting => ProbeFails(h, v, o, false)
    case Format => !o.ok || !Linked(h, v)
    case CheckStaging(_) => !o.ok || LooksAbsent(h, req.staging)
    case MountStaging(_) => !o.ok || !Linked(h, v)
    case MkdirParent => !o.ok
    case OpenTarget => !OpenOrCreate(h, req.target, o).ok
    case StatTarget => !o.ok || LooksAbsent(h, req.target)
    case MkdirTarget => !MkdirAll(h, req.target, o).ok
    case CheckTarget => !o.ok || LooksAbsent(h, req.target)
    case BindTarget =>
      !o.ok || if req.IsBlock() then Backing(h, f.dev) == None else LooksAbsent(h, req.staging)
    case UmStat(at) => !o.ok && (at.UnstageUnmount? || at.UnpublishUnmount?)
    case UmCheck(at) => !o.ok && (at.UnstageUnmount? || at.UnpublishUnmount?)
    case UmUnmount(UnstageUnmount) => !o.ok || Layers(h, req.staging) == []
    case UmUnmount(UnpublishUnmount) => !o.ok || Layers(h, req.target) == []
    case _ => false
  }

  /** Some step of v's call does, in a run without a new one. */
  predicate Failed(s: State, es: seq<Event>, v: VolId)
    decreases |es|
  {
    es != [] && ((OwnStep(s, es[0], v) && Fails(s.host, s.frames[v], es[0].o)) || Failed(Step(s, es[0]), es[1..], v))
  }

  /** What a call answers if nothing more fails. */
  function Heading(f: Frame): Code {
    if f.pc.StopAfterWait? || (InDelete(f.pc) && f.pc.why.MountFailed?) then Internal
    else if f.req.call.Stage? && Parse(f.req.vol.text) == None then InvalidArgument
    else OK
  }

  /** The entry a call leaves, given its answer and the entry it found. */
  function EntryLeft(before: Option<Entry>, req: Request, code: Code): Option<Entry> {
    if code != OK then before
    else
      match req.call
      case Stage =>
        var mode := if req.cap == Some(Block) then BLOCK_MODE else MOUNT_MODE;
        Some(Entry(Parse(req.vol.text), ByUuid(req.vol), mode, req.staging, Path("")))
      case Unstage => None
      case Publish => if before == None then None else Some(before.value.(targetPath := req.target))
      case Unpublish => if before == None then None else Some(before.value.(targetPath := Path("")))
  }

  /** A move keeps the call's heading unless it fails, and then it heads for Internal. */
  predicate MoveHeads(h: Host, f: Frame, o: Outcome, m: Move) {
    var code := if Fails(h, f, o) then Internal else Heading(f);
    if m.next.Go? then Heading(f.(pc := m.next.pc)) == code else m.next.code == code
  }

  lemma CreateHeads(h: Host, f: Frame, o: Outcome)
    requires InCreate(f.pc)
    ensures MoveHeads(h, f, o, CreateMove(h, f, o))
  {
    hide Parse;
  }

  lemma NamedIsAsked(req: Request)
    ensures req.FsType() == Named(req) && (req.FsType().Supported() <==> Mountable(Named(req)))
  {
  }

  lemma MountHeads(h: Host, f: Frame, o: Outcome)
    requires LinksBacked(h) && InMount(f.pc) && f.req.call.Stage? && f.dev == UblkByUUIDPath(f.req.vol)
    ensures MoveHeads(h, f, o, MountMove(h, f, o))
  {
    hide Parse; hide LinksBacked; hide MkdirAll; hide Named;
    NamedIsAsked(f.req);
    BackingIsVolume(h, f.req.vol);
    hide Backing;
  }

  lemma DeleteHeads(h: Host, f: Frame, o: Outcome)
    requires InDelete(f.pc) && PcOk(f.req.call, f.pc) && (f.pc.why.BadVolumeId? ==> Parse(f.req.vol.text) == None)
    ensures MoveHeads(h, f, o, DeleteMove(h, f, o))
  {
    hide Parse; hide StopUnit; hide ResolveUblkId; hide DeleteMinor;
  }

  lemma PublishHeads(h: Host, f: Frame, o: Outcome)
    requires InPublish(f.pc) && f.req.call.Publish?
    ensures MoveHeads(h, f, o, PublishMove(h, f, o))
  {
    hide MkdirAll; hide OpenOrCreate; hide Backing;
  }

  lemma UnmountHeads(h: Host, f: Frame, o: Outcome)
    requires PcOk(f.req.call, f.pc) && !InCreate(f.pc) && !InMount(f.pc) && !InDelete(f.pc) && !InPublish(f.pc)
    ensures MoveHeads(h, f, o, UnmountMove(h, f, o))
  {
    hide AfterRemove;
  }

  /** An ID that parses is not found to be bad. */
  predicate BadIdOk(f: Frame) {
    InDelete(f.pc) && f.pc.why.BadVolumeId? ==> Parse(f.req.vol.text) == None
  }

  lemma ActHeads(h: Host, f: Frame, o: Outcome)
    requires LinksBacked(h) && PcOk(f.req.call, f.pc) && DevOk(f) && BadIdOk(f)
    ensures MoveHeads(h, f, o, Act(h, f, o))
  {
    hide MoveHeads; hide CreateMove; hide MountMove; hide DeleteMove; hide PublishMove; hide UnmountMove;
    hide LinksBacked;
    if InCreate(f.pc) { CreateHeads(h, f, o); }
    else if InMount(f.pc) { MountHeads(h, f, o); }
    else if InDelete(f.pc) { DeleteHeads(h, f, o); }
    else if InPublish(f.pc) { PublishHeads(h, f, o); }
    else { UnmountHeads(h, f, o); }
  }

  /** What a move writes when it ends the call is the entry to be left. */
  lemma ActWrites(h: Host, f: Frame, o: Outcome, volMap: map<VolId, Entry>)
    requires PcOk(f.req.call, f.pc) && DevOk(f) && BadIdOk(f) && f.known == (f.req.vol in volMap)
    ensures var m, v := Act(h, f, o), f.req.vol;
      && (m.next.Go? ==> BadIdOk(f.(pc := m.next.pc)))
      && (m.next.Done? ==>
            var written := Written(volMap, v, m.next.write);
            (if v in written then Some(written[v]) else None)
            == EntryLeft(if v in volMap then Some(volMap[v]) else None, f.req, m.next.code))
  {
    hide StartUnit; hide StopUnit; hide ResolveUblkId; hide DeleteMinor; hide Blkid; hide Mkfs; hide IsMountPoint;
    hide MountDevice; hide BindDevice; hide BindPath; hide UnmountTop; hide Stat; hide MkdirAll; hide OpenOrCreate;
    hide Remove; hide AfterRemove; hide Parse;
  }

  /** The call is in flight, and nothing was answered or written since it began in b. */
  predicate Awaits(b: State, s: State, req: Request) {
    var v := req.vol;
    && v in s.frames && s.frames[v].req == req && s.frames[v].known == (v in s.volMap) && BadIdOk(s.frames[v])
    && EntryOf(s, v) == EntryOf(b, v) && Replies(s, v) == Replies(b, v)
  }

  /** It is over, with this answer and the entry that goes with it. */
  predicate AnsweredWith(b: State, t: State, req: Request, code: Code) {
    var v := req.vol;
    v !in t.frames && Replies(t, v) == Replies(b, v) + [code] && EntryOf(t, v) == EntryLeft(EntryOf(b, v), req, code)
  }

  lemma OpHeads(owner: Owner, b: State, s: State, req: Request, o: Outcome)
    requires Inv(owner, s) && Awaits(b, s, req)
    ensures var v, t := req.vol, Step(s, Op(req.vol, o));
      var code := if Fails(s.host, s.frames[v], o) then Internal else Heading(s.frames[v]);
      if v in t.frames then Awaits(b, t, req) && Heading(t.frames[v]) == code else AnsweredWith(b, t, req, code)
  {
    hide Act; hide Fails; hide Heading; hide EntryLeft; hide Parse; hide Written; hide BadIdOk;
    var v := req.vol;
    RequestsOwnVolume(owner, s, v);
    assert LinksBacked(s.host);
    hide Inv;
    ActHeads(s.host, s.frames[v], o);
    ActWrites(s.host, s.frames[v], o, s.volMap);
  }

  lemma AwaitsForeign(b: State, s: State, e: Event, req: Request)
    requires Foreign(e, req.vol) && Awaits(b, s, req)
    ensures var t := Step(s, e); Awaits(b, t, req) && t.frames[req.vol] == s.frames[req.vol]
  {
    hide Step; hide BadIdOk;
    OtherFrames(s, e, req.vol);
    assert EntryOf(Step(s, e), req.vol) == EntryOf(s, req.vol);
  }

  lemma {:induction false} AnswersRun(owner: Owner, b: State, s: State, req: Request, es: seq<Event>)
    requires Inv(owner, s) && OwnedEvents(owner, es) && NoNewCalls(es, req.vol) && Awaits(b, s, req)
    ensures var v, t := req.vol, Run(s, es);
      v !in t.frames ==> AnsweredWith(b, t, req, if Failed(s, es, v) then Internal else Heading(s.frames[v]))
    decreases |es|
  {
    hide Inv; hide Step; hide Fails; hide Awaits; hide Heading; hide EntryLeft; hide EntryOf; hide Replies;
    var v := req.vol;
    IsAwaiting(b, s, req);
    if es != [] {
      var e, t := es[0], Step(s, es[0]);
      InvStep(owner, s, e);
      assert NoNewCall(e, v);
      if Foreign(e, v) {
        AwaitsForeign(b, s, e, req);
        AnswersRun(owner, b, t, req, es[1..]);
      } else {
        OpHeads(owner, b, s, req, e.o);
        if v in t.frames {
          AnswersRun(owner, b, t, req, es[1..]);
          if Fails(s.host, s.frames[v], e.o) { InternalStays(t.frames[v]); }
        } else {
          CallIsOver(owner, t, es[1..], v);
          NothingFails(owner, t, es[1..], v);
        }
      }
    }
  }

  lemma IsAwaiting(b: State, s: State, req: Request)
    requires Awaits(b, s, req)
    ensures req.vol in s.frames && s.frames[req.vol].req == req
  {
  }

  lemma InternalStays(f: Frame)
    requires Heading(f) == Internal
    ensures f.pc.StopAfterWait? || InDelete(f.pc)
  {
  }

  lemma {:induction false} NothingFails(owner: Owner, s: State, es: seq<Event>, v: VolId)
    requires NoNewCalls(es, v) && v !in s.frames
    ensures !Failed(s, es, v)
    decreases |es|
  {
    hide Step; hide Fails;
    if es != [] {
      assert NoNewCall(es[0], v);
      if Foreign(es[0], v) { OtherFrames(s, es[0], v); } else { StepWithoutCall(s, v, es[0].o); }
      NothingFails(owner, Step(s, es[0]), es[1..], v);
    }
  }

  lemma BeginsAwaiting(owner: Owner, b: State, req: Request)
    requires Inv(owner, b) && req.vol !in b.frames
    ensures var v, s := req.vol, Step(b, Begin(req)); var now := AnswerAtOnce(EntryOf(b, v), req);
      if now.Some? then v !in s.frames && Replies(s, v) == Replies(b, v) + [now.value] && EntryOf(s, v) == EntryOf(b, v)
      else Awaits(b, s, req) && Heading(s.frames[v]) == if req.call.Stage? && Parse(v.text) == None then InvalidArgument else OK
  {
    hide Parse; hide Decimal.ParseInt64; hide LinksBacked; hide FramesOk;
    assert req.vol in b.volMap ==> EntryOk(req.vol, b.volMap[req.vol]);
  }

  /** Every answer and every entry.  A call that lacks a field is refused with InvalidArgument; a stage of
      a staged volume and an unstage of an unknown one succeed at once, a publication of an unknown one
      fails with FailedPrecondition.  Any other call answers Internal if and only if one of its
      operations fails that it cannot go on after - whatever the others report and whatever else happens
      meanwhile -, else InvalidArgument if it is a stage with a volume ID that does not parse, else OK.
      Only with OK is the entry written, and what is written is given by the request. */
  lemma {:induction false} AnswersExactly(owner: Owner, b: State, req: Request, es: seq<Event>)
    requires Inv(owner, b) && OwnedRequest(owner, req) && OwnedEvents(owner, es) && NoNewCalls(es, req.vol)
    requires req.vol !in b.frames
    ensures var v, t, now := req.vol, Run(b, [Begin(req)] + es), AnswerAtOnce(EntryOf(b, req.vol), req);
      if now.Some? then v !in t.frames && Replies(t, v) == Replies(b, v) + [now.value] && EntryOf(t, v) == EntryOf(b, v)
      else v !in t.frames ==>
        AnsweredWith(b, t, req, if Failed(b, [Begin(req)] + es, v) then Internal
                                else if req.call.Stage? && Parse(v.text) == None then InvalidArgument else OK)
  {
    hide Inv; hide Step; hide Fails; hide Parse; hide OwnedRequest; hide EntryLeft; hide Awaits; hide Heading;
    hide AnswerAtOnce;
    var v, s := req.vol, Step(b, Begin(req));
    assert ([Begin(req)] + es)[1..] == es;
    InvStep(owner, b, Begin(req));
    BeginsAwaiting(owner, b, req);
    if AnswerAtOnce(EntryOf(b, v), req).Some? {
      CallIsOver(owner, s, es, v);
    } else {
      AnswersRun(owner, b, s, req, es);
    }
  }

  // What an unpublish does to the target

  /** An unpublish that is through with its first unmount. */
  predicate Withdrawing(pc: PC) {
    || pc.StatMode? || pc.RemovePath? || pc.ClearTarget?
    || ((pc.UmStat? || pc.UmCheck? || pc.UmUnmount?) && pc.at.UnpublishCleanup?)
  }

  /** All paths as on b, but the target: it is unmounted, and perhaps removed. */
  ghost predicate Unmounts(owner: Owner, b: Host, h: Host, v: VolId, p: Path) {
    && Layers(h, p) == [] && (KindOf(h, p) == KindOf(b, p) || KindOf(h, p) == Absent)
    && forall q | owner(q) == v && q != p :: Layers(h, q) == Layers(b, q) && KindOf(h, q) == KindOf(b, q)
  }

  ghost predicate Retracts(owner: Owner, b: Host, h: Host, f: Frame) {
    var v, p := f.req.vol, f.req.target;
    if Withdrawing(f.pc) then f.known && Unmounts(owner, b, h, v, p) else SamePathView(owner, b, h, v)
  }

  ghost predicate RetractsOn(owner: Owner, b: Host, f: Frame, m: Move) {
    var v, p := f.req.vol, f.req.target;
    && (m.next.Go? ==> Retracts(owner, b, m.host, f.(pc := m.next.pc)))
    && (m.next.Done? && m.next.code == OK ==>
          Unmounts(owner, b, m.host, v, p) && (!f.known ==> KindOf(m.host, p) == KindOf(b, p)))
    && (m.next.Done? && m.next.code != OK ==> SamePathView(owner, b, m.host, v))
  }

  lemma RetractUnmounts(owner: Owner, b: Host, h: Host, f: Frame, o: Outcome)
    requires f.req.call.Unpublish? && PcOk(f.req.call, f.pc) && |Layers(b, f.req.target)| <= 1 && !Withdrawing(f.pc)
    requires owner(f.req.target) == f.req.vol && Retracts(owner, b, h, f)
    ensures RetractsOn(owner, b, f, UnmountMove(h, f, o))
  {
    hide Remove; hide AfterRemove;
  }

  lemma RetractRemoves(owner: Owner, b: Host, h: Host, f: Frame, o: Outcome)
    requires f.req.call.Unpublish? && PcOk(f.req.call, f.pc) && Withdrawing(f.pc)
    requires owner(f.req.target) == f.req.vol && Retracts(owner, b, h, f)
    ensures RetractsOn(owner, b, f, UnmountMove(h, f, o))
  {
    hide SamePathView;
  }

  lemma RetractMoves(owner: Owner, b: Host, h: Host, f: Frame, o: Outcome)
    requires f.req.call.Unpublish? && PcOk(f.req.call, f.pc) && |Layers(b, f.req.target)| <= 1
    requires owner(f.req.target) == f.req.vol && Retracts(owner, b, h, f)
    ensures RetractsOn(owner, b, f, Act(h, f, o))
  {
    hide CreateMove; hide MountMove; hide DeleteMove; hide PublishMove; hide UnmountMove; hide RetractsOn; hide Retracts;
    hide Layers; hide Withdrawing;
    if Withdrawing(f.pc) { RetractRemoves(owner, b, h, f, o); } else { RetractUnmounts(owner, b, h, f, o); }
  }

  ghost predicate Retracting(owner: Owner, b: State, s: State, v: VolId) {
    v in s.frames && s.frames[v].req.call.Unpublish? && Retracts(owner, b.host, s.host, s.frames[v])
  }

  lemma SamePathsRetract(owner: Owner, b: Host, h: Host, k: Host, f: Frame)
    requires SamePathView(owner, h, k, f.req.vol) && owner(f.req.target) == f.req.vol && Retracts(owner, b, h, f)
    ensures Retracts(owner, b, k, f)
  {
  }

  ghost predicate RetractEnds(owner: Owner, b: State, t: State, req: Request) {
    var v, p := req.vol, req.target;
    || (Replies(t, v) == Replies(b, v) + [OK] && Unmounts(owner, b.host, t.host, v, p)
        && (v !in b.volMap ==> KindOf(t.host, p) == KindOf(b.host, p)))
    || (Replies(t, v) == Replies(b, v) + [Internal] && SamePathView(owner, b.host, t.host, v))
  }

  lemma {:induction false} RetractRun(owner: Owner, b: State, s: State, req: Request, es: seq<Event>)
    requires Inv(owner, s) && OwnedRequest(owner, req) && OwnedEvents(owner, es) && NoNewCalls(es, req.vol)
    requires req.call.Unpublish? && |Layers(b.host, req.target)| <= 1 && Awaits(b, s, req) && Retracting(owner, b, s, req.vol)
    ensures var t := Run(s, es); req.vol !in t.frames ==> RetractEnds(owner, b, t, req)
    decreases |es|
  {
    hide Inv; hide Step; hide Awaits; hide Retracting; hide RetractEnds; hide Layers; hide OwnedRequest;
    var v := req.vol;
    IsAwaiting(b, s, req);
    if es != [] {
      var e, t := es[0], Step(s, es[0]);
      InvStep(owner, s, e);
      assert NoNewCall(e, v);
      if Foreign(e, v) {
        AwaitsForeign(b, s, e, req);
        RetractForeign(owner, b, s, e, req);
        RetractRun(owner, b, t, req, es[1..]);
      } else {
        OpHeads(owner, b, s, req, e.o);
        RetractOp(owner, b, s, req, e.o);
        if v in t.frames {
          RetractRun(owner, b, t, req, es[1..]);
        } else {
          AfterRetract(owner, b, t, req, es[1..]);
        }
      }
    }
  }

  lemma RetractForeign(owner: Owner, b: State, s: State, e: Event, req: Request)
    requires Inv(owner, s) && OwnedRequest(owner, req) && OwnedEvent(owner, e) && Foreign(e, req.vol)
    requires Awaits(b, s, req) && req.call.Unpublish? && Retracting(owner, b, s, req.vol)
    ensures Retracting(owner, b, Step(s, e), req.vol)
  {
    hide Step; hide Inv; hide SamePathView; hide Retracts;
    ForeignKeeps(owner, s, e, req.vol);
    SamePathsRetract(owner, b.host, s.host, Step(s, e).host, s.frames[req.vol]);
  }

  lemma RetractOp(owner: Owner, b: State, s: State, req: Request, o: Outcome)
    requires Inv(owner, s) && OwnedRequest(owner, req) && req.call.Unpublish? && |Layers(b.host, req.target)| <= 1
    requires Awaits(b, s, req) && Retracting(owner, b, s, req.vol)
    ensures var v, t := req.vol, Step(s, Op(req.vol, o));
      if v in t.frames then Retracting(owner, b, t, v) else RetractEnds(owner, b, t, req)
  {
    hide Act; hide Retracts; hide SamePathView; hide Unmounts; hide Layers; hide KindOf;
    RequestsOwnVolume(owner, s, req.vol);
    OnlyTwoAnswers(s.host, s.frames[req.vol], o);
    RetractMoves(owner, b.host, s.host, s.frames[req.vol], o);
    hide Inv;
  }

  lemma OnlyTwoAnswers(h: Host, f: Frame, o: Outcome)
    requires f.req.call.Unpublish? && PcOk(f.req.call, f.pc)
    ensures var m := Act(h, f, o); m.next.Done? ==> m.next.code == OK || m.next.code == Internal
  {
    hide CreateMove; hide MountMove; hide DeleteMove; hide PublishMove; hide Stat; hide IsMountPoint; hide UnmountTop;
    hide AfterRemove;
  }

  lemma {:induction false} AfterRetract(owner: Owner, b: State, s: State, req: Request, es: seq<Event>)
    requires Inv(owner, s) && OwnedRequest(owner, req) && OwnedEvents(owner, es) && NoNewCalls(es, req.vol)
    requires req.call.Unpublish? && req.vol !in s.frames && RetractEnds(owner, b, s, req)
    ensures RetractEnds(owner, b, Run(s, es), req)
    decreases |es|
  {
    hide Inv; hide Step; hide RetractEnds; hide OwnedRequest;
    if es != [] {
      var e, v := es[0], req.vol;
      InvStep(owner, s, e);
      assert NoNewCall(e, v);
      if Foreign(e, v) {
        ForeignKeeps(owner, s, e, v);
        SameRetractEnds(owner, b, s, Step(s, e), req);
      } else {
        StepWithoutCall(s, v, e.o);
      }
      AfterRetract(owner, b, Step(s, e), req, es[1..]);
    }
  }

  lemma SameRetractEnds(owner: Owner, b: State, s: State, t: State, req: Request)
    requires Undisturbed(owner, s, t, req.vol) && OwnedRequest(owner, req) && req.call.Unpublish? && RetractEnds(owner, b, s, req)
    ensures RetractEnds(owner, b, t, req)
  {
    hide Layers; hide KindOf;
  }

  /** What an unpublish does, whatever its steps report and whatever happens meanwhile, from a state in
      which no mounts are stacked.  It answers Internal if and only if its first unmount fails, and then
      all is as before, the mount, the target and the record of the publication.  Otherwise it answers
      OK: nothing is mounted at the target, the target is there still or gone - there, for a volume that
      the map does not have -, no other path of the volume has changed, and nothing of the entry but the
      record, which is cleared. */
  lemma {:induction false} UnpublishUnmountsExactly(owner: Owner, b: State, req: Request, es: seq<Event>)
    requires Inv(owner, b) && OwnedRequest(owner, req) && OwnedEvents(owner, es) && NoNewCalls(es, req.vol)
    requires req.call.Unpublish? && req.vol !in b.frames && !LacksField(req) && |Layers(b.host, req.target)| <= 1
    ensures var v, p, t := req.vol, req.target, Run(b, [Begin(req)] + es);
      v !in t.frames ==>
        if Failed(b, [Begin(req)] + es, v) then
          && Replies(t, v) == Replies(b, v) + [Internal]
          && EntryOf(t, v) == EntryOf(b, v) && SamePathView(owner, b.host, t.host, v)
        else
          && Replies(t, v) == Replies(b, v) + [OK] && Unmounts(owner, b.host, t.host, v, p)
          && (if v in b.volMap then v in t.volMap && t.volMap[v] == b.volMap[v].(targetPath := Path(""))
              else v !in t.volMap && KindOf(t.host, p) == KindOf(b.host, p))
  {
    hide Inv; hide Step; hide OwnedRequest; hide Failed; hide Unmounts; hide SamePathView; hide Retracting; hide Awaits;
    hide Layers; hide KindOf; hide Parse; hide Decimal.ParseInt64;
    var v, s := req.vol, Step(b, Begin(req));
    assert ([Begin(req)] + es)[1..] == es;
    AnswersExactly(owner, b, req, es);
    InvStep(owner, b, Begin(req));
    BeginsAwaiting(owner, b, req);
    BeginsRetracting(owner, b, req);
    RetractRun(owner, b, s, req, es);
    assert (Replies(b, v) + [OK])[|Replies(b, v)|] == OK;
    assert (Replies(b, v) + [Internal])[|Replies(b, v)|] == Internal;
  }

  lemma BeginsRetracting(owner: Owner, b: State, req: Request)
    requires req.call.Unpublish? && req.vol !in b.frames && !LacksField(req)
    ensures Retracting(owner, b, Step(b, Begin(req)), req.vol)
  {
  }

  // What a publish does to the target

  /** What a bind mount of the request shows. */
  function Binds(b: Host, req: Request): Layer {
    if req.IsBlock() then Raw(req.vol)
    else if Layers(b, req.staging) == [] then Plain(req.staging)
    else Layers(b, req.staging)[|Layers(b, req.staging)| - 1]
  }

  /** All mounts as on b, and all paths but that the target may have been created. */
  ghost predicate OnlyCreated(owner: Owner, b: Host, h: Host, v: VolId, p: Path) {
    forall q | owner(q) == v :: Layers(h, q) == Layers(b, q) && (q != p || KindOf(b, q) != Absent ==> KindOf(h, q) == KindOf(b, q))
  }

  /** The same, but that the target is mounted, with what the request binds if it was not. */
  ghost predicate OnlyBound(owner: Owner, b: Host, h: Host, req: Request) {
    var p := req.target;
    && Layers(h, p) == (if Layers(b, p) == [] then [Binds(b, req)] else Layers(b, p))
    && (KindOf(b, p) != Absent ==> KindOf(h, p) == KindOf(b, p))
    && forall q | owner(q) == req.vol && q != p :: Layers(h, q) == Layers(b, q) && KindOf(h, q) == KindOf(b, q)
  }

  ghost predicate Publishes(owner: Owner, b: Host, h: Host, f: Frame) {
    && InPublish(f.pc)
    && (if f.pc.RecordTarget? then OnlyBound(owner, b, h, f.req) else OnlyCreated(owner, b, h, f.req.vol, f.req.target))
    && (f.pc.BindTarget? ==> Layers(h, f.req.target) == [])
  }

  ghost predicate PublishesOn(owner: Owner, b: Host, f: Frame, m: Move) {
    && (m.next.Go? ==> Publishes(owner, b, m.host, f.(pc := m.next.pc)))
    && (m.next.Done? ==>
          if m.next.code == OK then OnlyBound(owner, b, m.host, f.req)
          else m.next.code == Internal && OnlyCreated(owner, b, m.host, f.req.vol, f.req.target))
  }

  lemma BindShows(owner: Owner, b: Host, h: Host, f: Frame, o: Outcome)
    requires LinksBacked(h) && f.req.call.Publish? && DevOk(f) && owner(f.req.staging) == f.req.vol && f.pc.BindTarget?
    requires OnlyCreated(owner, b, h, f.req.vol, f.req.target)
    ensures var m := PublishMove(h, f, o);
      if m.next.Go? then m == Continue(Push(h, f.req.target, Binds(b, f.req)), RecordTarget) else m == Answer(h, Internal)
  {
    hide LinksBacked; hide MkdirAll; hide OpenOrCreate; hide KindOf; hide Push;
    BackingIsVolume(h, f.req.vol);
    hide Backing;
    assert Layers(h, f.req.staging) == Layers(b, f.req.staging);
  }

  lemma PushBound(owner: Owner, b: Host, h: Host, req: Request)
    requires OnlyCreated(owner, b, h, req.vol, req.target) && owner(req.target) == req.vol && Layers(h, req.target) == []
    ensures OnlyBound(owner, b, Push(h, req.target, Binds(b, req)), req)
  {
    hide Binds;
  }

  lemma PublishBindsTarget(owner: Owner, b: Host, h: Host, f: Frame, o: Outcome)
    requires LinksBacked(h) && f.req.call.Publish? && DevOk(f) && OwnedRequest(owner, f.req) && f.pc.BindTarget?
    requires Publishes(owner, b, h, f)
    ensures PublishesOn(owner, b, f, PublishMove(h, f, o))
  {
    hide LinksBacked; hide PublishMove; hide Layers; hide OnlyCreated; hide OnlyBound; hide Push; hide Binds;
    BindShows(owner, b, h, f, o);
    PushBound(owner, b, h, f.req);
  }

  /** The target is created, if need be, and nothing else. */
  lemma TargetCreated(owner: Owner, b: Host, h: Host, v: VolId, p: Path, o: Outcome)
    requires OnlyCreated(owner, b, h, v, p) && owner(p) == v
    ensures OnlyCreated(owner, b, OpenOrCreate(h, p, o).host, v, p) && OnlyCreated(owner, b, MkdirAll(h, p, o).host, v, p)
  {
  }

  lemma PublishCreatesTarget(owner: Owner, b: Host, h: Host, f: Frame, o: Outcome)
    requires f.req.call.Publish? && OwnedRequest(owner, f.req) && (f.pc.OpenTarget? || f.pc.MkdirTarget?)
    requires Publishes(owner, b, h, f)
    ensures PublishesOn(owner, b, f, PublishMove(h, f, o))
  {
    hide MkdirAll; hide OpenOrCreate; hide OnlyCreated; hide OnlyBound; hide IsMountPoint; hide Stat; hide BindDevice;
    hide BindPath;
    hide Layers;
    TargetCreated(owner, b, h, f.req.vol, f.req.target, o);
  }

  lemma PublishChecksTarget(owner: Owner, b: Host, h: Host, f: Frame, o: Outcome)
    requires f.req.call.Publish? && OwnedRequest(owner, f.req) && Publishes(owner, b, h, f)
    requires !f.pc.BindTarget? && !f.pc.OpenTarget? && !f.pc.MkdirTarget?
    ensures PublishesOn(owner, b, f, PublishMove(h, f, o))
  {
    hide BindDevice; hide BindPath; hide MkdirAll; hide OpenOrCreate; hide Stat;
  }

  lemma PublishMoves(owner: Owner, b: Host, h: Host, f: Frame, o: Outcome)
    requires LinksBacked(h) && f.req.call.Publish? && DevOk(f) && OwnedRequest(owner, f.req) && Publishes(owner, b, h, f)
    ensures PublishesOn(owner, b, f, Act(h, f, o))
  {
    hide PublishMove; hide PublishesOn; hide OnlyCreated; hide OnlyBound; hide LinksBacked; hide DevOk; hide OwnedRequest;
    hide Layers;
    if f.pc.BindTarget? { PublishBindsTarget(owner, b, h, f, o); }
    else if f.pc.OpenTarget? || f.pc.MkdirTarget? { PublishCreatesTarget(owner, b, h, f, o); }
    else { PublishChecksTarget(owner, b, h, f, o); }
  }

  ghost predicate Publishing(owner: Owner, b: State, s: State, v: VolId) {
    v in s.frames && s.frames[v].req.call.Publish? && Publishes(owner, b.host, s.host, s.frames[v])
  }

  lemma SamePathsPublish(owner: Owner, b: Host, h: Host, k: Host, f: Frame)
    requires SamePathView(owner, h, k, f.req.vol) && OwnedRequest(owner, f.req) && f.req.call.Publish? && Publishes(owner, b, h, f)
    ensures Publishes(owner, b, k, f)
  {
    hide Layers; hide KindOf;
  }

  ghost predicate PublishEnds(owner: Owner, b: State, t: State, req: Request) {
    || (Replies(t, req.vol) == Replies(b, req.vol) + [OK] && OnlyBound(owner, b.host, t.host, req))
    || (Replies(t, req.vol) == Replies(b, req.vol) + [Internal] && OnlyCreated(owner, b.host, t.host, req.vol, req.target))
  }

  lemma PublishForeign(owner: Owner, b: State, s: State, e: Event, req: Request)
    requires Inv(owner, s) && OwnedRequest(owner, req) && OwnedEvent(owner, e) && Foreign(e, req.vol)
    requires Awaits(b, s, req) && req.call.Publish? && Publishing(owner, b, s, req.vol)
    ensures Publishing(owner, b, Step(s, e), req.vol)
  {
    hide Step; hide Inv; hide SamePathView; hide Publishes; hide OwnedRequest;
    ForeignKeeps(owner, s, e, req.vol);
    SamePathsPublish(owner, b.host, s.host, Step(s, e).host, s.frames[req.vol]);
  }

  lemma PublishOp(owner: Owner, b: State, s: State, req: Request, o: Outcome)
    requires Inv(owner, s) && OwnedRequest(owner, req) && req.call.Publish?
    requires Awaits(b, s, req) && Publishing(owner, b, s, req.vol)
    ensures var v, t := req.vol, Step(s, Op(req.vol, o));
      if v in t.frames then Publishing(owner, b, t, v) else PublishEnds(owner, b, t, req)
  {
    hide Act; hide Publishes; hide OnlyBound; hide OnlyCreated; hide OwnedRequest; hide LinksBacked;
    RequestsOwnVolume(owner, s, req.vol);
    PublishMoves(owner, b.host, s.host, s.frames[req.vol], o);
    hide FramesOk; hide MapOk;
  }

  lemma SamePublishEnds(owner: Owner, b: State, s: State, t: State, req: Request)
    requires Undisturbed(owner, s, t, req.vol) && OwnedRequest(owner, req) && req.call.Publish? && PublishEnds(owner, b, s, req)
    ensures PublishEnds(owner, b, t, req)
  {
    hide Layers; hide KindOf;
  }

  lemma {:induction false} AfterPublish(owner: Owner, b: State, s: State, req: Request, es: seq<Event>)
    requires Inv(owner, s) && OwnedRequest(owner, req) && OwnedEvents(owner, es) && NoNewCalls(es, req.vol)
    requires req.call.Publish? && req.vol !in s.frames && PublishEnds(owner, b, s, req)
    ensures PublishEnds(owner, b, Run(s, es), req)
    decreases |es|
  {
    hide Inv; hide Step; hide PublishEnds; hide OwnedRequest;
    if es != [] {
      var e, v := es[0], req.vol;
      InvStep(owner, s, e);
      assert NoNewCall(e, v);
      if Foreign(e, v) {
        ForeignKeeps(owner, s, e, v);
        SamePublishEnds(owner, b, s, Step(s, e), req);
      } else {
        StepWithoutCall(s, v, e.o);
      }
      AfterPublish(owner, b, Step(s, e), req, es[1..]);
    }
  }

  lemma {:induction false} PublishRun(owner: Owner, b: State, s: State, req: Request, es: seq<Event>)
    requires Inv(owner, s) && OwnedRequest(owner, req) && OwnedEvents(owner, es) && NoNewCalls(es, req.vol)
    requires req.call.Publish? && Awaits(b, s, req) && Publishing(owner, b, s, req.vol)
    ensures var t := Run(s, es); req.vol !in t.frames ==> PublishEnds(owner, b, t, req)
    decreases |es|
  {
    hide Inv; hide Step; hide Awaits; hide Publishing; hide PublishEnds; hide OwnedRequest;
    var v := req.vol;
    IsAwaiting(b, s, req);
    if es != [] {
      var e, t := es[0], Step(s, es[0]);
      InvStep(owner, s, e);
      assert NoNewCall(e, v);
      if Foreign(e, v) {
        AwaitsForeign(b, s, e, req);
        PublishForeign(owner, b, s, e, req);
        PublishRun(owner, b, t, req, es[1..]);
      } else {
        OpHeads(owner, b, s, req, e.o);
        PublishOp(owner, b, s, req, e.o);
        if v in t.frames {
          PublishRun(owner, b, t, req, es[1..]);
        } else {
          AfterPublish(owner, b, t, req, es[1..]);
        }
      }
    }
  }

  /** What a publish does, whatever its steps report and whatever happens meanwhile.  It answers Internal if
      and only if one of its operations fails, and then no mount and no entry has changed.  Otherwise it
      answers OK: the target shows what it showed, if it was mounted, and else the raw device or what the
      staging path shows; no other path of the volume has changed, and nothing of the entry but the record
      of the target. */
  lemma {:induction false} PublishMountsExactly(owner: Owner, b: State, req: Request, es: seq<Event>)
    requires Inv(owner, b) && OwnedRequest(owner, req) && OwnedEvents(owner, es) && NoNewCalls(es, req.vol)
    requires req.call.Publish? && req.vol !in b.frames && !LacksField(req) && req.vol in b.volMap
    ensures var v, p, t := req.vol, req.target, Run(b, [Begin(req)] + es);
      v !in t.frames ==>
        if Failed(b, [Begin(req)] + es, v) then
          && Replies(t, v) == Replies(b, v) + [Internal]
          && EntryOf(t, v) == EntryOf(b, v) && OnlyCreated(owner, b.host, t.host, v, p)
        else
          && Replies(t, v) == Replies(b, v) + [OK] && OnlyBound(owner, b.host, t.host, req)
          && v in t.volMap && t.volMap[v] == b.volMap[v].(targetPath := p)
  {
    hide Inv; hide Step; hide OwnedRequest; hide Failed; hide OnlyBound; hide OnlyCreated; hide Publishing; hide Awaits;
    hide Layers; hide KindOf; hide Parse; hide Decimal.ParseInt64;
    var v, s := req.vol, Step(b, Begin(req));
    assert ([Begin(req)] + es)[1..] == es;
    AnswersExactly(owner, b, req, es);
    InvStep(owner, b, Begin(req));
    BeginsAwaiting(owner, b, req);
    BeginsPublishing(owner, b, req);
    PublishRun(owner, b, s, req, es);
    assert (Replies(b, v) + [OK])[|Replies(b, v)|] == OK;
    assert (Replies(b, v) + [Internal])[|Replies(b, v)|] == Internal;
  }

  lemma BeginsPublishing(owner: Owner, b: State, req: Request)
    requires req.call.Publish? && req.vol !in b.frames && !LacksField(req) && req.vol in b.volMap
    ensures Publishing(owner, b, Step(b, Begin(req)), req.vol)
  {
  }
}
