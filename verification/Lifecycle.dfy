/** The balanced lifecycle: staging a volume, publishing it to any targets, unpublishing those in any
    order and unstaging it, with the host's operations for it succeeding, leaves nothing of it behind
    but what mkfs wrote - and no staging directory, even if there was one before. */
module Lifecycle {
  import opened Uuid
  import opened Types
  import opened HostModel
  import opened Machine
  import opened Effects
  import opened Invariant
  import opened Views
  import opened Serialisability
  import opened Delivery
  import opened CleanCalls

  // The calls of a lifecycle

  /** The calls that v receives. */
  function Calls(es: seq<Event>, v: VolId): seq<Request> {
    if es == [] then []
    else (if es[0].Begin? && es[0].req.vol == v then [es[0].req] else []) + Calls(es[1..], v)
  }

  /** Nothing is at the path. */
  predicate Fresh(h: Host, p: Path) {
    Layers(h, p) == [] && KindOf(h, p) == Absent
  }

  /** One publication or unpublication of the staged volume, with the targets published before. */
  predicate Fits(b: Host, stage: Request, targets: set<Path>, req: Request) {
    && req.vol == stage.vol && ValidRequest(req)
    && match req.call
       case Publish =>
         && req.staging == stage.staging && req.IsBlock() == stage.IsBlock()
         && req.target !in targets && req.target != stage.staging && Fresh(b, req.target)
       case Unpublish => req.target in targets
       case _ => false
  }

  function TargetsAfter(targets: set<Path>, req: Request): set<Path> {
    if req.call.Publish? then targets + {req.target} else targets - {req.target}
  }

  predicate UnstageFits(stage: Request, req: Request) {
    req.call.Unstage? && req.vol == stage.vol && req.staging == stage.staging && ValidRequest(req)
  }

  /** Publications to fresh targets and the matching unpublications, in any order, then the unstage; a
      target may be used again once it is unpublished. */
  predicate Closing(b: Host, stage: Request, targets: set<Path>, calls: seq<Request>)
    decreases |calls|
  {
    calls != [] &&
    if |calls| == 1 then targets == {} && UnstageFits(stage, calls[0])
    else Fits(b, stage, targets, calls[0]) && Closing(b, stage, TargetsAfter(targets, calls[0]), calls[1..])
  }

  function Successes(n: nat): seq<Code> {
    seq(n, _ => OK)
  }

  // While the volume is in use

  /** The one mount at a published target. */
  function TargetLayer(h: Host, stage: Request): Layer {
    if stage.IsBlock() then Raw(stage.vol) else Device(stage.vol, FsOn(h, stage.vol))
  }

  /** The volume is mounted at its staging path, if it is a filesystem volume, and at exactly these
      targets, once each; all other paths are as before. */
  ghost predicate ShownAt(b: Host, h: Host, stage: Request, targets: set<Path>) {
    var p := stage.staging;
    && p !in targets
    && (forall q | q != p && q !in targets :: Layers(h, q) == Layers(b, q) && KindOf(h, q) == KindOf(b, q))
    && (forall q | q in targets :: Fresh(b, q) && Layers(h, q) == [TargetLayer(h, stage)] && KindOf(h, q) == TargetKind(stage))
    && Layers(h, p) == if stage.IsBlock() then [] else [TargetLayer(h, stage)]
  }

  /** Staging writes a filesystem only for a filesystem volume that has none. */
  ghost predicate FsAfter(b: Host, h: Host, stage: Request) {
    if stage.IsBlock() then h.fs == b.fs else FsGiven(b, h, stage)
  }

  /** The volume is staged and published at exactly these targets, and nothing else is different
      from before it was staged. */
  ghost predicate InUse(b: State, s: State, stage: Request, targets: set<Path>) {
    var v := stage.vol;
    && s.frames == b.frames
    && v in s.volMap && s.volMap[v].ublkPath == UblkByUUIDPath(v) && s.volMap - {v} == b.volMap
    && Booted(b.host, s.host, v)
    && FsAfter(b.host, s.host, stage)
    && ShownAt(b.host, s.host, stage, targets)
  }

  lemma StagingShows(b: Host, h: Host, req: Request)
    requires StageReady(b, req) && StagedHost(b, h, req)
    ensures FsAfter(b, h, req) && ShownAt(b, h, req, {})
  {
    hide Booted; hide FsGiven;
  }

  lemma StagePutsInUse(b: State, s: State, stage: Request)
    requires stage.call.Stage? && CallReady(b, stage) && Ended(b, s, stage) && Parse(stage.vol.text).Some?
    ensures InUse(b, s, stage, {}) && Replies(s, stage.vol) == Replies(b, stage.vol) + [OK]
  {
    hide Parse; hide ValidRequest; hide Booted; hide ShownAt; hide StageReady; hide FsAfter; hide LinksBacked;
    hide StagedPaths;
    assert StageReady(b.host, stage) && StagedHost(b.host, s.host, stage);
    StagingShows(b.host, s.host, stage);
    assert b.volMap - {stage.vol} == b.volMap;
  }

  lemma InUseReady(b: State, s: State, stage: Request, targets: set<Path>, req: Request)
    requires InUse(b, s, stage, targets) && Fits(b.host, stage, targets, req) && stage.vol !in b.frames
    ensures CallReady(s, req)
  {
    hide ValidRequest; hide FsGiven;
    BackingUp(b.host, s.host, req.vol);
    hide Booted; hide Backing;
  }

  lemma UnstageIsReady(b: State, s: State, stage: Request, req: Request)
    requires InUse(b, s, stage, {}) && UnstageFits(stage, req) && stage.vol !in b.frames && LinksBacked(b.host)
    ensures CallReady(s, req)
  {
    hide ValidRequest; hide FsGiven;
  }

  /** What a call does, in the terms of the lifecycle. */
  lemma TargetChanges(b: State, s: State, t: State, stage: Request, targets: set<Path>, req: Request)
    requires InUse(b, s, stage, targets) && Fits(b.host, stage, targets, req)
    requires CallReady(s, req) && Ended(s, t, req)
    ensures t.frames == s.frames && MapAfter(s, t.volMap, req) && SameStore(s.host, t.host) && AnswerOf(req) == OK
    ensures if req.call.Publish? then OnlyPath(s.host, t.host, req.target, [TargetLayer(s.host, stage)], TargetKind(stage))
            else OnlyPath(s.host, t.host, req.target, [], Absent)
  {
    hide Parse; hide ValidRequest; hide Backing; hide OnlyPath; hide MapAfter; hide Booted; hide SameStore; hide FsAfter;
  }

  lemma TargetsMove(b: Host, h: Host, k: Host, stage: Request, targets: set<Path>, req: Request)
    requires ShownAt(b, h, stage, targets) && Fits(b, stage, targets, req) && k.fs == h.fs
    requires if req.call.Publish? then OnlyPath(h, k, req.target, [TargetLayer(h, stage)], TargetKind(stage))
             else OnlyPath(h, k, req.target, [], Absent)
    ensures ShownAt(b, k, stage, TargetsAfter(targets, req))
  {
    hide ValidRequest; hide Layers; hide KindOf; hide TargetKind;
    assert TargetLayer(k, stage) == TargetLayer(h, stage);
  }

  lemma CallKeepsInUse(b: State, s: State, t: State, stage: Request, targets: set<Path>, req: Request)
    requires InUse(b, s, stage, targets) && Fits(b.host, stage, targets, req)
    requires CallReady(s, req) && Ended(s, t, req)
    ensures InUse(b, t, stage, TargetsAfter(targets, req)) && Replies(t, stage.vol) == Replies(s, stage.vol) + [OK]
  {
    hide CallReady; hide ValidRequest; hide ShownAt; hide OnlyPath; hide AnswerOf; hide HostAfter;
    TargetChanges(b, s, t, stage, targets, req);
    TargetsMove(b.host, s.host, t.host, stage, targets, req);
  }

  /** Everything as before, but for a filesystem where there was none, and for the staging path, which
      is gone. */
  ghost predicate Restored(b: State, t: State, stage: Request) {
    && t.frames == b.frames && t.volMap == b.volMap
    && SameDevices(b.host, t.host)
    && (forall q :: Layers(t.host, q) == Layers(b.host, q))
    && (forall q | q != stage.staging :: KindOf(t.host, q) == KindOf(b.host, q))
    && KindOf(t.host, stage.staging) == Absent
    && FsAfter(b.host, t.host, stage)
  }

  lemma DevicesCancel(b: Host, h: Host, k: Host, v: VolId)
    requires Booted(b, h, v) && TornDown(h, k, v) && !Live(b, v) && !Linked(b, v)
    ensures SameDevices(b, k)
  {
    assert h.units - {UblkUnitName(v)} == b.units;
    assert h.links - {UblkByUUIDPath(v)} == b.links;
    assert h.minors - {h.links[UblkByUUIDPath(v)]} == b.minors;
  }

  lemma PathsRestored(b: Host, h: Host, k: Host, stage: Request)
    requires ShownAt(b, h, stage, {}) && Layers(b, stage.staging) == [] && OnlyPath(h, k, stage.staging, [], Absent)
    ensures forall q :: Layers(k, q) == Layers(b, q)
    ensures forall q | q != stage.staging :: KindOf(k, q) == KindOf(b, q)
    ensures KindOf(k, stage.staging) == Absent
  {
    hide Layers; hide KindOf;
  }

  lemma UnstageRestores(b: State, s: State, t: State, stage: Request, req: Request)
    requires InUse(b, s, stage, {}) && UnstageFits(stage, req) && stage.call.Stage? && CallReady(b, stage)
    requires CallReady(s, req) && Ended(s, t, req)
    ensures Restored(b, t, stage) && Replies(t, stage.vol) == Replies(s, stage.vol) + [OK]
  {
    hide ValidRequest; hide Booted; hide TornDown; hide UnstageReady; hide ShownAt; hide OnlyPath; hide SameDevices;
    hide Parse;
    hide Layers; hide KindOf; hide LinksBacked;
    var v := stage.vol;
    DevicesCancel(b.host, s.host, t.host, v);
    PathsRestored(b.host, s.host, t.host, stage);
    assert t.volMap == t.volMap - {v} && s.volMap - {v} == b.volMap;
  }

  // A lifecycle by itself: only what happens to the volume

  /** Nothing happens to a volume of which nothing is there, without a call. */
  lemma NothingHappens(s: State, e: Event, v: VolId)
    requires v !in s.frames && Clean(s, e, v) && VolOf(e) == v && !e.Begin?
    requires !Live(s.host, v) || Linked(s.host, v)
    ensures Step(s, e) == s
  {
    if e.LinkLost? { NoLinkToLose(s.host, v); }
  }

  lemma InUseIsUp(b: State, s: State, stage: Request, targets: set<Path>)
    requires InUse(b, s, stage, targets)
    ensures Live(s.host, stage.vol) && Linked(s.host, stage.vol) && s.frames == b.frames
  {
    hide FsAfter; hide ShownAt;
  }

  lemma RestoredIsDown(b: State, t: State, stage: Request)
    requires Restored(b, t, stage) && !Live(b.host, stage.vol)
    ensures !Live(t.host, stage.vol) && t.frames == b.frames
  {
    hide FsAfter;
  }

  lemma {:induction false} StaysRestored(s: State, es: seq<Event>, v: VolId)
    requires v !in s.frames && !Live(s.host, v) && OwnEvents(es, v) && CleanRun(s, es, v) && Calls(es, v) == []
    ensures Run(s, es) == s
    decreases |es|
  {
    hide Step; hide Clean; hide Live;
    if es != [] {
      NothingHappens(s, es[0], v);
      StaysRestored(s, es[1..], v);
    }
  }

  /** The rest of a lifecycle, between two calls. */
  lemma {:induction false} LiveIdle(b: State, s: State, stage: Request, targets: set<Path>, calls: seq<Request>, es: seq<Event>)
    requires InUse(b, s, stage, targets) && stage.call.Stage? && CallReady(b, stage) && Closing(b.host, stage, targets, calls)
    requires OwnEvents(es, stage.vol) && CleanRun(s, es, stage.vol) && Calls(es, stage.vol) == calls
    requires stage.vol !in Run(s, es).frames
    ensures Restored(b, Run(s, es), stage) && Replies(Run(s, es), stage.vol) == Replies(s, stage.vol) + Successes(|calls|)
    decreases |es|, 0
  {
    hide InUse; hide Step; hide Clean; hide Restored; hide Fits; hide UnstageFits; hide CallReady; hide Underway;
    hide Successes;
    assert es != [] by { assert calls != []; }
    var v, e := stage.vol, es[0];
    assert v !in b.frames && LinksBacked(b.host) by { StageIsReady(b, stage); }
    if e.Begin? {
      assert calls == [e.req] + Calls(es[1..], v);
      assert calls[0] == e.req && calls[1..] == Calls(es[1..], v);
      if |calls| == 1 { UnstageIsReady(b, s, stage, e.req); } else { InUseReady(b, s, stage, targets, e.req); }
      UnderwayBegins(s, e.req);
      LiveBusy(b, s, Step(s, e), stage, targets, calls, es[1..]);
    } else {
      assert [] + Calls(es[1..], v) == Calls(es[1..], v);
      InUseIsUp(b, s, stage, targets);
      NothingHappens(s, e, v);
      LiveIdle(b, s, stage, targets, calls, es[1..]);
    }
  }

  lemma StageIsReady(b: State, stage: Request)
    requires CallReady(b, stage) && stage.call.Stage?
    ensures stage.vol !in b.frames && stage.vol !in b.volMap && LinksBacked(b.host) && StageReady(b.host, stage)
  {
    hide LinksBacked;
  }

  /** The rest of a lifecycle, while the first of the calls is under way. */
  lemma {:induction false} LiveBusy(b: State, c: State, s: State, stage: Request, targets: set<Path>, calls: seq<Request>, es: seq<Event>)
    requires InUse(b, c, stage, targets) && stage.call.Stage? && CallReady(b, stage) && Closing(b.host, stage, targets, calls)
    requires calls[0].vol == stage.vol && CallReady(c, calls[0]) && Underway(c, s, calls[0])
    requires OwnEvents(es, stage.vol) && CleanRun(s, es, stage.vol) && Calls(es, stage.vol) == calls[1..]
    requires stage.vol !in Run(s, es).frames
    ensures Restored(b, Run(s, es), stage) && Replies(Run(s, es), stage.vol) == Replies(c, stage.vol) + Successes(|calls|)
    decreases |es|, 1
  {
    hide InUse; hide Step; hide Restored; hide Fits; hide UnstageFits; hide CallReady; hide Successes; hide Ended;
    hide At; hide Live;
    var v := stage.vol;
    StageIsReady(b, stage);
    if v !in s.frames {
      if |calls| == 1 {
        UnstageRestores(b, c, s, stage, calls[0]);
        RestoredIsDown(b, s, stage) by { assert !Live(b.host, v) by { NothingOfIt(b.host, stage); } }
        StaysRestored(s, es, v);
        SuccessesOne(Replies(c, v));
      } else {
        CallKeepsInUse(b, c, s, stage, targets, calls[0]);
        LiveIdle(b, s, stage, TargetsAfter(targets, calls[0]), calls[1..], es);
        SuccessesMore(Replies(c, v), |calls| - 1);
      }
    } else {
      var e := es[0];
      assert !e.Begin? by { assert Clean(s, e, v); }
      assert [] + Calls(es[1..], v) == Calls(es[1..], v);
      UnderwayStep(c, s, calls[0], e);
      hide Underway; hide Clean;
      LiveBusy(b, c, Step(s, e), stage, targets, calls, es[1..]);
    }
  }

  lemma NothingOfIt(h: Host, req: Request)
    requires StageReady(h, req)
    ensures !Live(h, req.vol) && !Linked(h, req.vol) && Layers(h, req.staging) == []
  {
  }

  lemma SuccessesOne(before: seq<Code>)
    ensures before + [OK] == before + Successes(1)
  {
  }

  lemma SuccessesMore(before: seq<Code>, n: nat)
    ensures before + [OK] + Successes(n) == before + Successes(n + 1)
  {
  }

  /** While the stage itself is under way. */
  lemma {:induction false} LiveStaging(b: State, s: State, stage: Request, calls: seq<Request>, es: seq<Event>)
    requires stage.call.Stage? && CallReady(b, stage) && Parse(stage.vol.text).Some? && Closing(b.host, stage, {}, calls)
    requires Underway(b, s, stage)
    requires OwnEvents(es, stage.vol) && CleanRun(s, es, stage.vol) && Calls(es, stage.vol) == calls
    requires stage.vol !in Run(s, es).frames
    ensures Restored(b, Run(s, es), stage) && Replies(Run(s, es), stage.vol) == Replies(b, stage.vol) + Successes(|calls| + 1)
    decreases |es|
  {
    hide InUse; hide Step; hide Restored; hide CallReady; hide Successes; hide Ended; hide At; hide Closing; hide Parse;
    var v := stage.vol;
    if v !in s.frames {
      StagePutsInUse(b, s, stage);
      LiveIdle(b, s, stage, {}, calls, es);
      SuccessesMore(Replies(b, v), |calls|);
    } else {
      var e := es[0];
      assert !e.Begin? by { assert Clean(s, e, v); }
      assert [] + Calls(es[1..], v) == Calls(es[1..], v);
      UnderwayStep(b, s, stage, e);
      hide Underway; hide Clean;
      LiveStaging(b, Step(s, e), stage, calls, es[1..]);
    }
  }

  /** A lifecycle by itself restores everything: units, links and minors included. */
  lemma {:induction false} LifecycleAlone(b: State, stage: Request, calls: seq<Request>, es: seq<Event>)
    requires stage.call.Stage? && CallReady(b, stage) && Parse(stage.vol.text).Some? && Closing(b.host, stage, {}, calls)
    requires OwnEvents(es, stage.vol) && CleanRun(b, es, stage.vol) && Calls(es, stage.vol) == [stage] + calls
    requires stage.vol !in Run(b, es).frames
    ensures Restored(b, Run(b, es), stage) && Replies(Run(b, es), stage.vol) == Replies(b, stage.vol) + Successes(|calls| + 1)
    decreases |es|
  {
    hide Step; hide Clean; hide Restored; hide CallReady; hide Underway; hide Successes; hide Closing; hide Parse;
    var v, e := stage.vol, es[0];
    StageIsReady(b, stage);
    NothingOfIt(b.host, stage);
    if e.Begin? {
      assert ([e.req] + Calls(es[1..], v))[0] == e.req && ([e.req] + Calls(es[1..], v))[1..] == Calls(es[1..], v);
      assert ([stage] + calls)[0] == stage && ([stage] + calls)[1..] == calls;
      UnderwayBegins(b, stage);
      LiveStaging(b, Step(b, e), stage, calls, es[1..]);
    } else {
      assert [] + Calls(es[1..], v) == Calls(es[1..], v);
      NothingHappens(b, e, v);
      LifecycleAlone(b, stage, calls, es[1..]);
    }
  }

  // A lifecycle among those of other volumes

  lemma CleanAgrees(owner: Owner, s: State, t: State, e: Event, v: VolId)
    requires SameView(owner, s, t, v) && Clean(s, e, v) && !e.Restart?
    ensures Clean(t, e, v)
  {
    hide SamePathView; hide Points;
  }

  /** What is clean for v in a run is clean when v's events happen alone. */
  lemma {:induction false} CleanAlone(owner: Owner, s: State, es: seq<Event>, t: State, v: VolId)
    requires Inv(owner, s) && Inv(owner, t) && OwnedEvents(owner, es) && NoRestart(es)
    requires SameView(owner, s, t, v) && CleanRun(s, es, v)
    ensures CleanRun(t, Of(es, v), v)
    decreases |es|
  {
    hide Inv; hide SameView; hide Step; hide Clean;
    if es != [] {
      var e := es[0];
      InvStep(owner, s, e);
      if VolOf(e) == v {
        CleanAgrees(owner, s, t, e, v);
        StepAgrees(owner, s, t, e);
        InvStep(owner, t, e);
        assert Of(es, v) == [e] + Of(es[1..], v);
        assert ([e] + Of(es[1..], v))[1..] == Of(es[1..], v);
        CleanAlone(owner, Step(s, e), es[1..], Step(t, e), v);
      } else {
        StepIsLocal(owner, s, e, v);
        Flip(owner, s, Step(s, e), v);
        SameViewTransitive(owner, Step(s, e), s, t, v);
        assert Of(es, v) == [] + Of(es[1..], v) == Of(es[1..], v);
        CleanAlone(owner, Step(s, e), es[1..], t, v);
      }
    }
  }

  lemma {:induction false} CallsOf(es: seq<Event>, v: VolId)
    requires NoRestart(es)
    ensures Calls(Of(es, v), v) == Calls(es, v)
    decreases |es|
  {
    if es != [] {
      CallsOf(es[1..], v);
      if VolOf(es[0]) == v {
        assert ([es[0]] + Of(es[1..], v))[1..] == Of(es[1..], v);
      } else {
        assert [] + Of(es[1..], v) == Of(es[1..], v) && [] + Calls(es[1..], v) == Calls(es[1..], v);
      }
    }
  }

  lemma SameViewFrames(owner: Owner, s: State, t: State, v: VolId)
    requires SameView(owner, s, t, v)
    ensures v in s.frames <==> v in t.frames
  {
  }

  lemma {:induction false} OwnOf(owner: Owner, es: seq<Event>, v: VolId)
    requires OwnedEvents(owner, es) && NoRestart(es)
    ensures OwnedEvents(owner, Of(es, v)) && OwnEvents(Of(es, v), v) && Of(Of(es, v), v) == Of(es, v)
    decreases |es|
  {
    if es != [] {
      OwnOf(owner, es[1..], v);
      var rest := Of(es[1..], v);
      if VolOf(es[0]) == v {
        assert ([es[0]] + rest)[1..] == rest;
      } else {
        assert [] + rest == rest;
      }
    }
  }

  /** What a call whose operations succeed does to its volume's view, whatever other volumes do while
      it is in flight: what it does alone. */
  lemma {:induction false} CallDoesAmongOthers(owner: Owner, b: State, req: Request, es: seq<Event>) returns (u: State)
    requires Inv(owner, b) && OwnedRequest(owner, req) && OwnedEvents(owner, es) && NoNewCalls(es, req.vol)
    requires CallReady(b, req) && CleanRun(b, [Begin(req)] + es, req.vol) && req.vol !in Run(b, [Begin(req)] + es).frames
    ensures SameView(owner, u, Run(b, [Begin(req)] + es), req.vol) && Ended(b, u, req)
  {
    hide Inv; hide SameView; hide Run; hide Clean; hide CleanRun; hide CallReady; hide Ended; hide OwnedRequest;
    var v, all := req.vol, [Begin(req)] + es;
    assert OwnedEvents(owner, all) && NoRestart(all) && all[1..] == es;
    var own := Of(es, v);
    OwnOf(owner, all, v);
    OfKeepsOut(es, v);
    assert Of(all, v) == [Begin(req)] + own;
    SameViewReflexive(owner, b, v);
    Projection(owner, b, all, b, Of(all, v), v);
    Flip(owner, Run(b, all), Run(b, Of(all, v)), v);
    CleanAlone(owner, b, all, b, v);
    SameViewFrames(owner, Run(b, Of(all, v)), Run(b, all), v);
    CallDoes(b, req, own);
    u := Run(b, Of(all, v));
  }

  lemma {:induction false} OfKeepsOut(es: seq<Event>, v: VolId)
    requires NoRestart(es) && NoNewCalls(es, v)
    ensures OwnEvents(Of(es, v), v) && forall i | 0 <= i < |Of(es, v)| :: !Of(es, v)[i].Begin?
    decreases |es|
  {
    if es != [] {
      assert NoNewCall(es[0], v);
      OfKeepsOut(es[1..], v);
    }
  }

  // The theorem

  lemma {:induction false} OfOthers(es: seq<Event>, v: VolId, w: VolId)
    requires NoRestart(es) && w != v
    ensures NoRestart(Others(es, v)) && Of(Others(es, v), w) == Of(es, w)
    decreases |es|
  {
    if es != [] {
      var e, rest := es[0], Others(es[1..], v);
      OfOthers(es[1..], v, w);
      if Foreign(e, v) {
        assert ([e] + rest)[1..] == rest;
      } else {
        assert [] + rest == rest && [] + Of(es[1..], w) == Of(es[1..], w);
      }
    }
  }

  lemma {:induction false} OthersOwned(owner: Owner, es: seq<Event>, v: VolId)
    requires OwnedEvents(owner, es)
    ensures OwnedEvents(owner, Others(es, v))
    decreases |es|
  {
    if es != [] {
      OthersOwned(owner, es[1..], v);
    }
  }

  /** What is left of the volume after its lifecycle: what was there before, with a filesystem if its
      device had none, and without the staging path. */
  ghost predicate OnlyStagingGone(owner: Owner, b: State, t: State, stage: Request) {
    var v, p := stage.vol, stage.staging;
    && v !in t.frames && EntryOf(t, v) == EntryOf(b, v)
    && !Live(t.host, v) && !Linked(t.host, v) && Reserved(t.host.minors, v) == Reserved(b.host.minors, v)
    && FsOn(t.host, v) == (if stage.IsBlock() || FsOn(b.host, v) != NoFs then FsOn(b.host, v) else stage.FsType())
    && (forall q | owner(q) == v :: Layers(t.host, q) == Layers(b.host, q))
    && (forall q | owner(q) == v && q != p :: KindOf(t.host, q) == KindOf(b.host, q))
    && KindOf(t.host, p) == Absent
  }

  /** The volume's part of the run, alone and among others. */
  lemma {:induction false} LifecycleProjects(owner: Owner, b: State, es: seq<Event>, stage: Request, calls: seq<Request>)
    requires Inv(owner, b) && OwnedEvents(owner, es) && NoRestart(es) && stage.call.Stage? && CallReady(b, stage)
    requires Parse(stage.vol.text).Some? && Closing(b.host, stage, {}, calls) && Calls(es, stage.vol) == [stage] + calls
    requires CleanRun(b, es, stage.vol) && stage.vol !in Run(b, es).frames
    ensures var v := stage.vol; var t, u := Run(b, es), Run(b, Of(es, v));
      SameView(owner, u, t, v) && Restored(b, u, stage) && Replies(u, v) == Replies(b, v) + Successes(|calls| + 1)
  {
    hide Inv; hide SameView; hide Run; hide Restored; hide Closing; hide Clean; hide CleanRun; hide CallReady; hide Parse;
    hide Successes; hide Calls; hide Of;
    var v := stage.vol;
    var own := Of(es, v);
    SameViewReflexive(owner, b, v);
    OwnOf(owner, es, v);
    Projection(owner, b, es, b, own, v);
    Flip(owner, Run(b, es), Run(b, own), v);
    assert v !in Run(b, own).frames by { SameViewFrames(owner, Run(b, own), Run(b, es), v); }
    CleanAlone(owner, b, es, b, v);
    CallsOf(es, v);
    LifecycleAlone(b, stage, calls, own);
  }

  lemma RestoredView(owner: Owner, b: State, u: State, t: State, stage: Request)
    requires Restored(b, u, stage) && SameView(owner, u, t, stage.vol) && CallReady(b, stage) && stage.call.Stage?
    requires owner(stage.staging) == stage.vol
    ensures OnlyStagingGone(owner, b, t, stage)
  {
    var v := stage.vol;
    StageIsReady(b, stage);
    NothingOfIt(b.host, stage);
    hide CallReady; hide LinksBacked; hide StageReady; hide Points;
    assert EntryOf(u, v) == EntryOf(b, v);
    assert v !in u.frames;
  }

  /** Balanced lifecycle: stage a volume, publish it to any number of fresh targets and unpublish those
      in any order, and unstage it.  Whatever other volumes do in between, as long as the host's
      operations for this one succeed, each of its calls succeeds, and at the end its unit, link,
      number of minors, mounts, paths and entry are as before - but for the staging path, which is
      gone.  So its paths are restored if and only if the staging path did not exist before.  Only a
      filesystem volume whose device had no filesystem has one now, of the type asked for.  To the
      other volumes it makes no difference that the lifecycle took place. */
  lemma {:induction false} BalancedLifecycle(owner: Owner, b: State, es: seq<Event>, stage: Request, calls: seq<Request>)
    requires Inv(owner, b) && OwnedEvents(owner, es) && NoRestart(es) && OwnedRequest(owner, stage)
    requires stage.call.Stage? && CallReady(b, stage) && Parse(stage.vol.text).Some?
    requires Closing(b.host, stage, {}, calls) && Calls(es, stage.vol) == [stage] + calls
    requires CleanRun(b, es, stage.vol) && stage.vol !in Run(b, es).frames
    ensures var v, t := stage.vol, Run(b, es);
      && Replies(t, v) == Replies(b, v) + Successes(|calls| + 1)
      && OnlyStagingGone(owner, b, t, stage)
      && (SamePathView(owner, b.host, t.host, v) <==> KindOf(b.host, stage.staging) == Absent)
      && (forall w | w != v :: SameView(owner, t, Run(b, Others(es, v)), w))
  {
    var v, t := stage.vol, Run(b, es);
    assert owner(stage.staging) == v by { hide Inv; hide Parse; }
    LifecycleProjects(owner, b, es, stage, calls);
    RestoredView(owner, b, Run(b, Of(es, v)), t, stage);
    assert Replies(t, v) == Replies(Run(b, Of(es, v)), v) by { hide Run; hide Of; }
    OthersOwned(owner, es, v);
    forall w | w != v ensures SameView(owner, t, Run(b, Others(es, v)), w) {
      OfOthers(es, v, w);
      SameViewReflexive(owner, b, w);
      Projection(owner, b, es, b, Others(es, v), w);
    }
  }
}
