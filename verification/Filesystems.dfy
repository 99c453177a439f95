/** Which filesystem a stage ends with, and which it refuses. */
module Filesystems {
  import opened Uuid
  import opened Types
  import opened HostModel
  import opened Machine
  import opened Effects
  import opened Invariant
  import opened Views
  import opened Mounts
  import opened Rollback
  import opened Shortfalls
  import opened CleanCalls
  import opened Lifecycle
  import opened Answers
  import Decimal

  // Types that can be staged

  /** The stage asks for this type by name, or for none and means ext4. */
  predicate Asks(req: Request, t: FsType) {
    (t != NoFs && req.cap == Some(Mount(t))) || (t == Ext4 && (req.cap == Some(Mount(NoFs)) || req.cap == Some(NoAccessType)))
  }

  predicate ExtOrXfs(t: FsType) {
    t == Ext4 || t == Ext3 || t == Xfs
  }

  /** The type asked for is one of them, and so is the one on the device, if there is one. */
  predicate CanBeStaged(t: FsType, found: FsType) {
    ExtOrXfs(t) && (found == NoFs || ExtOrXfs(found))
  }

  /** A stage of a volume of which nothing is there, neither in the map nor on the host. */
  ghost predicate NothingThere(b: State, req: Request) {
    var v, p := req.vol, req.staging;
    && req.call.Stage? && v.text != "" && p.text != "" && Decimal.ParseInt64(req.size).Some? && Parse(v.text).Some?
    && v !in b.frames && v !in b.volMap && LinksBacked(b.host) && !Live(b.host, v) && !Linked(b.host, v)
    && Layers(b.host, p) == [] && KindOf(b.host, p) != File
  }

  /** The stage succeeded, and this filesystem is on the device and mounted. */
  predicate StagedAs(b: State, t: State, req: Request, fs: FsType) {
    var v := req.vol;
    && v !in t.frames && Replies(t, v) == Replies(b, v) + [OK] && Staged(t, v)
    && FsOn(t.host, v) == fs && Layers(t.host, req.staging) == [Device(v, fs)]
  }

  lemma SupportedIsReady(b: State, req: Request, t: FsType)
    requires NothingThere(b, req) && Asks(req, t) && CanBeStaged(t, FsOn(b.host, req.vol))
    ensures CallReady(b, req) && !req.IsBlock() && req.FsType() == t
  {
    hide Parse; hide Decimal.ParseInt64; hide LinksBacked;
  }

  /** A stage that asks for a type, or for none, and in which nothing goes wrong, whatever other volumes do
      meanwhile, ends with that type mounted, or ext4, if the device had no filesystem, and else with the
      one it had. */
  lemma {:induction false} StageGivesFilesystem(owner: Owner, b: State, req: Request, t: FsType, es: seq<Event>)
    requires Inv(owner, b) && OwnedRequest(owner, req) && OwnedEvents(owner, es) && NoNewCalls(es, req.vol)
    requires NothingThere(b, req) && Asks(req, t) && CanBeStaged(t, FsOn(b.host, req.vol))
    requires CleanRun(b, [Begin(req)] + es, req.vol) && req.vol !in Run(b, [Begin(req)] + es).frames
    ensures var before := FsOn(b.host, req.vol);
      StagedAs(b, Run(b, [Begin(req)] + es), req, if before == NoFs then t else before)
  {
    hide Run; hide CleanRun; hide Parse; hide Decimal.ParseInt64;
    SupportedIsReady(b, req, t);
    var u := CallDoesAmongOthers(owner, b, req, es);
    EndsStaged(b, u, req);
    SameViewStaged(owner, b, u, Run(b, [Begin(req)] + es), req);
  }

  lemma EndsStaged(b: State, u: State, req: Request)
    requires req.call.Stage? && !req.IsBlock() && CallReady(b, req) && Parse(req.vol.text).Some? && Ended(b, u, req)
    ensures var before := FsOn(b.host, req.vol);
      StagedAs(b, u, req, if before == NoFs then req.FsType() else before)
  {
    hide Parse; hide LinksBacked; hide Booted; hide FsOn;
    assert StageReady(b.host, req) && StagedHost(b.host, u.host, req);
    hide StageReady; hide KindOf; hide Layers;
  }

  lemma SameViewStaged(owner: Owner, b: State, u: State, t: State, req: Request)
    requires exists fs :: StagedAs(b, u, req, fs)
    requires SameView(owner, u, t, req.vol) && owner(req.staging) == req.vol
    ensures forall fs :: StagedAs(b, u, req, fs) ==> StagedAs(b, t, req, fs)
  {
    hide Points; hide Layers; hide KindOf; hide Reserved;
    assert EntryOf(u, req.vol) == EntryOf(t, req.vol);
  }

  /** Every type of ext4, ext3 and xfs can be staged, on a device with any of them or none. */
  lemma {:induction false} SupportedCanBeStaged(b: State, req: Request, t: FsType)
    requires NothingThere(b, req) && Asks(req, t) && CanBeStaged(t, FsOn(b.host, req.vol))
    ensures exists es ::
      Completes(b, req, es)
      && StagedAs(b, Run(b, [Begin(req)] + es), req, if FsOn(b.host, req.vol) == NoFs then t else FsOn(b.host, req.vol))
  {
    hide Run; hide CleanRun; hide Parse; hide Decimal.ParseInt64; hide StagedAs; hide LinksBacked; hide FsOn;
    SupportedIsReady(b, req, t);
    CallCanComplete(b, req);
    var es :| Completes(b, req, es);
    CallDoes(b, req, es);
    EndsStaged(b, Run(b, [Begin(req)] + es), req);
  }

  // Types that cannot

  predicate AsksOther(req: Request) {
    req.cap.Some? && req.cap.value.Mount? && req.cap.value.fsType.OtherFs?
  }

  /** A first probe shows a filesystem of another type, or no device. */
  predicate ShowsOther(h: Host, v: VolId, o: Outcome) {
    match o.probe
    case Truth => Linked(h, v) && FsOn(h, v).OtherFs?
    case NoDevice => true
    case Silence => false
    case Claim(t) => t.OtherFs?
  }

  /** All first probes of v's calls do. */
  predicate FirstProbesShowOther(s: State, es: seq<Event>, v: VolId)
    decreases |es|
  {
    es == [] ||
    ((OwnStep(s, es[0], v) && s.frames[v].pc.ProbeCompat? ==> ShowsOther(s.host, v, es[0].o))
     && FirstProbesShowOther(Step(s, es[0]), es[1..], v))
  }

  /** A stage that has not come past the first probe, and if it asks for another type not even there. */
  predicate Hopeless(f: Frame) {
    && f.req.call.Stage? && !f.req.IsBlock()
    && (|| InCreate(f.pc) || f.pc.MkdirStaging? || (f.pc.ProbeCompat? && !AsksOther(f.req))
        || (InDelete(f.pc) && f.pc.why.MountFailed?))
  }

  predicate MoveHopeless(h: Host, f: Frame, m: Move) {
    && m.host.mounts == h.mounts && m.host.fs == h.fs
    && (if m.next.Go? then Hopeless(f.(pc := m.next.pc)) else m.next == Done(Internal, Keep))
  }

  lemma HopelessMount(h: Host, f: Frame, o: Outcome)
    requires LinksBacked(h) && DevOk(f) && Hopeless(f) && InMount(f.pc) && (f.pc.ProbeCompat? ==> ShowsOther(h, f.req.vol, o))
    ensures MoveHopeless(h, f, MountMove(h, f, o))
  {
    hide LinksBacked; hide Stat;
    BackingIsVolume(h, f.req.vol);
    hide Backing;
  }

  lemma HopelessMove(h: Host, f: Frame, o: Outcome)
    requires LinksBacked(h) && DevOk(f) && Hopeless(f) && (f.pc.ProbeCompat? ==> ShowsOther(h, f.req.vol, o))
    ensures MoveHopeless(h, f, Act(h, f, o))
  {
    hide PublishMove; hide UnmountMove; hide MountMove; hide LinksBacked; hide ShowsOther; hide StopUnit; hide StartUnit;
    hide ResolveUblkId; hide DeleteMinor;
    if InMount(f.pc) { HopelessMount(h, f, o); }
    else if InDelete(f.pc) { DeleteTouches(h, f, o); }
    else { CreateTouches(h, f, o); }
  }

  /** The stage has no hope and has changed neither mounts nor filesystems of its volume. */
  ghost predicate InVain(owner: Owner, b: State, s: State, req: Request) {
    var v := req.vol;
    && SameMounts(owner, b.host, s.host, v) && FsOn(s.host, v) == FsOn(b.host, v) && EntryOf(s, v) == EntryOf(b, v)
    && (if v in s.frames then s.frames[v].req == req && Hopeless(s.frames[v]) && Replies(s, v) == Replies(b, v)
        else Replies(s, v) == Replies(b, v) + [Internal])
  }

  lemma InVainOp(owner: Owner, b: State, s: State, req: Request, o: Outcome)
    requires Inv(owner, s) && InVain(owner, b, s, req) && req.vol in s.frames
    requires s.frames[req.vol].pc.ProbeCompat? ==> ShowsOther(s.host, req.vol, o)
    ensures InVain(owner, b, Step(s, Op(req.vol, o)), req) && !s.frames[req.vol].pc.Format?
  {
    hide Act; hide Hopeless; hide MapOk; hide ShowsOther;
    var f, t := s.frames[req.vol], Step(s, Op(req.vol, o));
    RequestsOwnVolume(owner, s, req.vol);
    HopelessMove(s.host, f, o);
    HopelessIsNoFormat(f);
    hide LinksBacked; hide FramesOk;
    assert forall p :: Layers(t.host, p) == Layers(s.host, p);
  }

  lemma HopelessIsNoFormat(f: Frame)
    requires Hopeless(f)
    ensures !f.pc.Format?
  {
  }

  lemma InVainForeign(owner: Owner, b: State, s: State, req: Request, e: Event)
    requires Inv(owner, s) && OwnedEvent(owner, e) && Foreign(e, req.vol) && InVain(owner, b, s, req)
    ensures InVain(owner, b, Step(s, e), req)
  {
    hide Step; hide Inv; hide Hopeless; hide Layers;
    ForeignKeeps(owner, s, e, req.vol);
    assert EntryOf(Step(s, e), req.vol) == EntryOf(s, req.vol);
  }

  lemma {:induction false} InVainRun(owner: Owner, b: State, s: State, req: Request, es: seq<Event>)
    requires Inv(owner, s) && OwnedEvents(owner, es) && NoNewCalls(es, req.vol) && InVain(owner, b, s, req)
    requires AsksOther(req) || FirstProbesShowOther(s, es, req.vol)
    ensures InVain(owner, b, Run(s, es), req) && !Formats(s, es, req.vol)
    decreases |es|
  {
    hide Inv; hide Step; hide InVain; hide ShowsOther;
    var v := req.vol;
    if es != [] {
      var e := es[0];
      InvStep(owner, s, e);
      assert NoNewCall(e, v);
      if Foreign(e, v) {
        InVainForeign(owner, b, s, req, e);
      } else if v in s.frames {
        if AsksOther(req) { NoProbe(owner, b, s, req); }
        InVainOp(owner, b, s, req, e.o);
      } else {
        StepWithoutCall(s, v, e.o);
      }
      InVainRun(owner, b, Step(s, e), req, es[1..]);
    }
  }

  lemma NoProbe(owner: Owner, b: State, s: State, req: Request)
    requires InVain(owner, b, s, req) && req.vol in s.frames && AsksOther(req)
    ensures !s.frames[req.vol].pc.ProbeCompat?
  {
  }

  /** A stage that asks for any other type, or whose first probe shows one on the device, answers
      Internal, whatever else happens: mkfs is not run, and mounts, filesystem and entry stay. */
  lemma {:induction false} OtherTypesAreRefused(owner: Owner, b: State, req: Request, es: seq<Event>)
    requires Inv(owner, b) && OwnedRequest(owner, req) && OwnedEvents(owner, es) && NoNewCalls(es, req.vol)
    requires req.call.Stage? && !req.IsBlock() && req.vol !in b.frames && AnswerAtOnce(EntryOf(b, req.vol), req) == None
    requires AsksOther(req) || FirstProbesShowOther(b, [Begin(req)] + es, req.vol)
    ensures var v, t := req.vol, Run(b, [Begin(req)] + es);
      && !Formats(b, [Begin(req)] + es, v)
      && SameMounts(owner, b.host, t.host, v) && FsOn(t.host, v) == FsOn(b.host, v) && EntryOf(t, v) == EntryOf(b, v)
      && (v !in t.frames ==> Replies(t, v) == Replies(b, v) + [Internal])
  {
    hide Inv; hide Step; hide OwnedRequest; hide AsksOther; hide AnswerAtOnce; hide Hopeless; hide Layers;
    hide ShowsOther;
    assert ([Begin(req)] + es)[1..] == es;
    InvStep(owner, b, Begin(req));
    StageIsHopeless(b, req);
    assert Step(b, Begin(req)).host == b.host;
    InVainRun(owner, b, Step(b, Begin(req)), req, es);
  }

  lemma StageIsHopeless(b: State, req: Request)
    requires req.call.Stage? && !req.IsBlock() && req.vol !in b.frames && AnswerAtOnce(EntryOf(b, req.vol), req) == None
    ensures var v, s := req.vol, Step(b, Begin(req));
      && v in s.frames && s.frames[v].req == req && Hopeless(s.frames[v]) && s.host == b.host
      && EntryOf(s, v) == EntryOf(b, v) && Replies(s, v) == Replies(b, v)
  {
    hide Decimal.ParseInt64;
  }
}
