/** Two calls that end with less than their names promise: a stage that finds its volume ID
    unparsable too late, and an unstage whose device would not go. */
module Shortfalls {
  import opened Uuid
  import opened Types
  import opened HostModel
  import opened Machine
  import opened Effects
  import opened Invariant
  import opened Views
  import opened Mounts
  import opened Conservation
  import opened Rollback
  import opened StageSoundness
  import opened Delivery
  import opened CleanCalls
  import opened Lifecycle

  // A volume ID that does not parse

  /** A stage with an ID that does not parse, of a filesystem volume and with nothing going wrong on
      the host: it is refused, there is no entry and the device is gone, but the staging path shows
      the mount - whatever other volumes did meanwhile. */
  lemma {:induction false} BadIdLeavesMount(owner: Owner, b: State, req: Request, es: seq<Event>)
    requires Inv(owner, b) && OwnedRequest(owner, req) && OwnedEvents(owner, es) && NoNewCalls(es, req.vol)
    requires req.call.Stage? && !req.IsBlock() && CallReady(b, req) && Parse(req.vol.text).None?
    requires CleanRun(b, [Begin(req)] + es, req.vol) && req.vol !in Run(b, [Begin(req)] + es).frames
    ensures var v, t := req.vol, Run(b, [Begin(req)] + es);
      && Replies(t, v) == Replies(b, v) + [InvalidArgument] && v !in t.volMap
      && !Live(t.host, v) && !Linked(t.host, v)
      && Layers(t.host, req.staging) == [Device(v, FsOn(t.host, v))]
  {
    hide Run; hide CleanRun; hide Inv; hide Parse;
    var u := CallDoesAmongOthers(owner, b, req, es);
    StageIsReady(b, req);
    NothingOfIt(b.host, req);
    assert EntryOf(u, req.vol) == None;
    hide CallReady; hide Points;
  }

  /** A stage of a volume of which nothing is there leaves the volume's mounts as they were whenever it
      fails - in whatever way, and whatever happens meanwhile - if and only if its ID parses. */
  lemma {:induction false} BadIdExactly(owner: Owner, b: State, req: Request)
    requires Inv(owner, b) && OwnedRequest(owner, req) && req.call.Stage? && !req.IsBlock() && CallReady(b, req)
    ensures Parse(req.vol.text).Some? <==>
      forall es | OwnedEvents(owner, es) && NoNewCalls(es, req.vol) :: FailsCleanly(owner, b, Run(b, [Begin(req)] + es), req.vol)
  {
    hide Inv; hide Parse; hide CallReady; hide Run; hide Step; hide OwnedRequest; hide CleanRun;
    StageIsReady(b, req);
    NothingOfIt(b.host, req);
    if Parse(req.vol.text).Some? {
      forall es | OwnedEvents(owner, es) && NoNewCalls(es, req.vol)
        ensures FailsCleanly(owner, b, Run(b, [Begin(req)] + es), req.vol)
      {
        ParsedFailsCleanly(owner, b, req, es);
      }
    } else {
      CallCanComplete(b, req);
      var es :| Completes(b, req, es);
      BadIdLeavesMount(owner, b, req, es);
      var t := Run(b, [Begin(req)] + es);
      assert (Replies(b, req.vol) + [InvalidArgument])[|Replies(b, req.vol)|] == InvalidArgument;
      assert Layers(t.host, req.staging) != Layers(b.host, req.staging);
      assert owner(req.staging) == req.vol by { StagingIsOwned(owner, req); }
    }
  }

  /** If v's call is over and was not answered with success, v's mounts are as before. */
  ghost predicate FailsCleanly(owner: Owner, b: State, t: State, v: VolId) {
    v !in t.frames && Replies(t, v) != Replies(b, v) + [OK] ==> SameMounts(owner, b.host, t.host, v)
  }

  lemma StagingIsOwned(owner: Owner, req: Request)
    requires OwnedRequest(owner, req) && !req.call.Unpublish?
    ensures owner(req.staging) == req.vol
  {
  }

  lemma {:induction false} ParsedFailsCleanly(owner: Owner, b: State, req: Request, es: seq<Event>)
    requires Inv(owner, b) && OwnedRequest(owner, req) && OwnedEvents(owner, es) && NoNewCalls(es, req.vol)
    requires req.call.Stage? && req.vol !in b.frames && Parse(req.vol.text).Some?
    ensures FailsCleanly(owner, b, Run(b, [Begin(req)] + es), req.vol)
  {
    hide Inv; hide Parse; hide Step; hide OwnedRequest; hide SameMounts;
    assert ([Begin(req)] + es)[1..] == es;
    InvStep(owner, b, Begin(req));
    RollingBegins(owner, b, req);
    RollingRun(owner, b, Step(b, Begin(req)), es, req.vol);
  }

  /** A stage that has mounted its device, if it was to, and now turns to an ID that does not parse. */
  predicate Doomed(f: Frame) {
    && f.req.call.Stage? && Parse(f.req.vol.text).None?
    && (f.pc.Insert? || (InDelete(f.pc) && f.pc.why.BadVolumeId?))
  }

  lemma DoomedMove(h: Host, f: Frame, o: Outcome)
    requires Doomed(f)
    ensures var m := Act(h, f, o);
      && m.host.mounts == h.mounts
      && (if m.next.Go? then Doomed(f.(pc := m.next.pc)) else m.next == Done(InvalidArgument, Keep))
  {
    hide StopUnit; hide ResolveUblkId; hide DeleteMinor; hide Parse;
    if InDelete(f.pc) { DeleteTouches(h, f, o); }
  }

  /** The same with a cleanup that fails: from the parse on, the stage ends with InvalidArgument, makes
      no entry and takes no mount away, whether the device could be deleted under it or not. */
  lemma {:induction false} BadIdKeepsMounts(owner: Owner, s: State, es: seq<Event>, v: VolId)
    requires Inv(owner, s) && OwnedEvents(owner, es) && NoNewCalls(es, v)
    requires v in s.frames && s.frames[v].req.vol == v && Doomed(s.frames[v])
    ensures var t := Run(s, es);
      && SameMounts(owner, s.host, t.host, v) && EntryOf(t, v) == EntryOf(s, v)
      && (v !in t.frames ==> Replies(t, v) == Replies(s, v) + [InvalidArgument])
    decreases |es|
  {
    hide Act; hide Inv; hide Parse;
    if es != [] {
      InvStep(owner, s, es[0]);
      var t := Step(s, es[0]);
      assert NoNewCall(es[0], v);
      if Foreign(es[0], v) {
        ForeignKeeps(owner, s, es[0], v);
        hide Step;
        BadIdKeepsMounts(owner, t, es[1..], v);
      } else {
        DoomedMove(s.host, s.frames[v], es[0].o);
        assert forall p :: Layers(t.host, p) == Layers(s.host, p);
        hide Step;
        if v in t.frames {
          BadIdKeepsMounts(owner, t, es[1..], v);
        } else {
          CallIsOver(owner, t, es[1..], v);
        }
      }
    }
  }

  /** Without a call in flight and without a new one, v's entry, responses and mounts stay. */
  lemma {:induction false} CallIsOver(owner: Owner, s: State, es: seq<Event>, v: VolId)
    requires Inv(owner, s) && OwnedEvents(owner, es) && NoNewCalls(es, v) && v !in s.frames
    ensures var t := Run(s, es);
      v !in t.frames && EntryOf(t, v) == EntryOf(s, v) && Replies(t, v) == Replies(s, v) && SameMounts(owner, s.host, t.host, v)
    decreases |es|
  {
    hide Inv;
    if es != [] {
      InvStep(owner, s, es[0]);
      assert NoNewCall(es[0], v);
      if Foreign(es[0], v) {
        ForeignKeeps(owner, s, es[0], v);
      } else {
        StepWithoutCall(s, v, es[0].o);
      }
      hide Step;
      CallIsOver(owner, Step(s, es[0]), es[1..], v);
    }
  }

  // An unstage whose device would not go

  /** At its first unmount, an unstage that is about to unmount has found something mounted. */
  predicate FindsMount(h: Host, f: Frame) {
    f.pc == UmUnmount(UnstageUnmount) ==> Layers(h, f.req.staging) != []
  }

  lemma UnstageMoves(h: Host, f: Frame, o: Outcome)
    requires f.req.call.Unstage? && PcOk(f.req.call, f.pc) && DevOk(f) && FindsMount(h, f)
    ensures var m := Act(h, f, o);
      && (m.next.Go? ==> FindsMount(m.host, f.(pc := m.next.pc)))
      && (m.next.Done? ==> m.next == Done(OK, Drop) || m.next == Done(Internal, Keep))
      && (m.next == Done(Internal, Keep) ==> !Unmounted(f.pc) && !o.ok)
      && (Unmounted(f.pc) && m.next.Go? ==> Unmounted(m.next.pc))
  {
    hide CreateMove; hide MountMove; hide PublishMove; hide StopUnit; hide ResolveUblkId; hide DeleteMinor;
    hide AfterRemove;
  }

  predicate Unstaging(s: State, v: VolId) {
    v in s.frames && s.frames[v].req.call.Unstage? && FindsMount(s.host, s.frames[v])
  }

  lemma UnstagingForeign(owner: Owner, s: State, e: Event, v: VolId)
    requires Inv(owner, s) && OwnedEvent(owner, e) && Foreign(e, v) && Unstaging(s, v)
    ensures Unstaging(Step(s, e), v)
  {
    hide Step; hide LinksBacked; hide MapOk;
    ForeignKeeps(owner, s, e, v);
    assert FrameOk(owner, v, s.frames[v]);
  }

  lemma UnstagingOp(owner: Owner, s: State, v: VolId, o: Outcome)
    requires Inv(owner, s) && Unstaging(s, v)
    ensures var t := Step(s, Op(v, o)); var f := s.frames[v];
      && (v in t.frames ==> Unstaging(t, v) && t.frames[v].pc == Act(s.host, f, o).next.pc
                            && EntryOf(t, v) == EntryOf(s, v) && Replies(t, v) == Replies(s, v)
                            && (Unmounted(f.pc) ==> Unmounted(t.frames[v].pc)))
      && (v !in t.frames ==>
            || (Replies(t, v) == Replies(s, v) + [OK] && v !in t.volMap)
            || (Replies(t, v) == Replies(s, v) + [Internal] && EntryOf(t, v) == EntryOf(s, v) && !Unmounted(f.pc) && !o.ok))
  {
    hide Act; hide LinksBacked; hide MapOk; hide Unmounted; hide FindsMount;
    assert FrameOk(owner, v, s.frames[v]);
    UnstageMoves(s.host, s.frames[v], o);
  }

  /** How an unstage ends: if none of its steps fails, or once it is through with its first unmount even
      if everything fails from there on - the device is not resolved, the unit not stopped, the device
      not deleted, the path not removed -, with success and without the entry; else with success and
      without the entry, or with an error and with it. */
  lemma {:induction false} UnstageDropsAnyway(owner: Owner, s: State, es: seq<Event>, v: VolId)
    requires Inv(owner, s) && OwnedEvents(owner, es) && NoNewCalls(es, v) && Unstaging(s, v)
    ensures var t := Run(s, es); v !in t.frames ==>
      if Replies(t, v) == Replies(s, v) + [OK] then v !in t.volMap
      else Replies(t, v) == Replies(s, v) + [Internal] && EntryOf(t, v) == EntryOf(s, v)
           && !Unmounted(s.frames[v].pc) && !AllOwnOk(es, v)
    decreases |es|
  {
    hide Act; hide Inv; hide Unmounted; hide Step; hide Unstaging;
    if es != [] {
      InvStep(owner, s, es[0]);
      var t := Step(s, es[0]);
      assert NoNewCall(es[0], v);
      if Foreign(es[0], v) {
        UnstagingForeign(owner, s, es[0], v);
        ForeignKeeps(owner, s, es[0], v);
        assert v in s.frames by { IsUnstaging(s, v); }
        UnstageDropsAnyway(owner, t, es[1..], v);
        if !AllOwnOk(es[1..], v) { LaterNotOk(es, v); }
      } else {
        UnstagingOp(owner, s, v, es[0].o);
        if v in t.frames {
          UnstageDropsAnyway(owner, t, es[1..], v);
          if !AllOwnOk(es[1..], v) { LaterNotOk(es, v); }
        } else {
          CallIsOver(owner, t, es[1..], v);
          assert [OK][0] != [Internal][0];
          assert (Replies(s, v) + [Internal])[|Replies(s, v)|] == Internal;
          assert EntryOf(Run(s, es), v) == EntryOf(t, v);
        }
      }
    } else {
      IsUnstaging(s, v);
    }
  }

  lemma IsUnstaging(s: State, v: VolId)
    requires Unstaging(s, v)
    ensures v in s.frames && s.frames[v].req.call.Unstage?
  {
  }

  lemma LaterNotOk(es: seq<Event>, v: VolId)
    requires es != [] && !AllOwnOk(es[1..], v)
    ensures !AllOwnOk(es, v)
  {
    var i :| 0 <= i < |es[1..]| && es[1..][i].Op? && es[1..][i].vol == v && !es[1..][i].o.ok;
    assert es[i + 1] == es[1..][i];
  }

  // What an unstage does to the mount

  /** An unstage works on at most one mount, and once it is through with its first unmount on none. */
  predicate Clears(h: Host, f: Frame) {
    |Layers(h, f.req.staging)| <= 1 && (Unmounted(f.pc) ==> Layers(h, f.req.staging) == [])
  }

  lemma UnstageClears(h: Host, f: Frame, o: Outcome)
    requires f.req.call.Unstage? && PcOk(f.req.call, f.pc) && Clears(h, f)
    ensures var m := Act(h, f, o);
      && (m.next.Go? ==> Clears(m.host, f.(pc := m.next.pc)))
      && (m.next.Done? ==> Layers(m.host, f.req.staging) == [] || m.next.code == Internal)
  {
    hide CreateMove; hide MountMove; hide PublishMove; hide StopUnit; hide ResolveUblkId; hide DeleteMinor;
    if InDelete(f.pc) { DeleteTouches(h, f, o); }
  }

  predicate Clearing(s: State, v: VolId, p: Path) {
    v in s.frames && s.frames[v].req.call.Unstage? && s.frames[v].req.staging == p && Clears(s.host, s.frames[v])
  }

  lemma ClearingForeign(owner: Owner, s: State, e: Event, v: VolId, p: Path)
    requires Inv(owner, s) && OwnedEvent(owner, e) && Foreign(e, v) && Clearing(s, v, p)
    ensures var t := Step(s, e); Clearing(t, v, p) && Replies(t, v) == Replies(s, v)
  {
    hide Step; hide LinksBacked; hide MapOk; hide Layers; hide Unmounted;
    ForeignKeeps(owner, s, e, v);
    assert FrameOk(owner, v, s.frames[v]);
  }

  lemma ClearingOp(owner: Owner, s: State, v: VolId, p: Path, o: Outcome)
    requires Inv(owner, s) && Clearing(s, v, p)
    ensures var t := Step(s, Op(v, o));
      && (v in t.frames ==> Clearing(t, v, p) && Replies(t, v) == Replies(s, v))
      && (v !in t.frames ==>
            owner(p) == v && (Layers(t.host, p) == [] || Replies(t, v) == Replies(s, v) + [Internal]))
  {
    hide Act; hide LinksBacked; hide MapOk; hide Clears; hide Layers;
    assert FrameOk(owner, v, s.frames[v]);
    UnstageClears(s.host, s.frames[v], o);
  }

  lemma {:induction false} ClearingRun(owner: Owner, s: State, es: seq<Event>, v: VolId, p: Path)
    requires Inv(owner, s) && OwnedEvents(owner, es) && NoNewCalls(es, v) && Clearing(s, v, p)
    ensures var t := Run(s, es); v !in t.frames ==> Layers(t.host, p) == [] || Replies(t, v) == Replies(s, v) + [Internal]
    decreases |es|
  {
    hide Inv; hide Step; hide Clearing; hide Layers; hide Replies;
    if es != [] {
      InvStep(owner, s, es[0]);
      assert NoNewCall(es[0], v);
      if Foreign(es[0], v) {
        ClearingForeign(owner, s, es[0], v, p);
        ClearingRun(owner, Step(s, es[0]), es[1..], v, p);
      } else {
        ClearingOp(owner, s, v, p, es[0].o);
        if v in Step(s, es[0]).frames {
          ClearingRun(owner, Step(s, es[0]), es[1..], v, p);
        } else {
          CallIsOver(owner, Step(s, es[0]), es[1..], v);
        }
      }
    } else {
      IsClearing(s, v, p);
    }
  }

  lemma IsClearing(s: State, v: VolId, p: Path)
    requires Clearing(s, v, p)
    ensures v in s.frames
  {
  }

  /** What success means for an unstage, whatever its steps report and whatever happens meanwhile, from a
      state in which no mounts are stacked: the volume has no entry, and nothing is mounted at the staging
      path if and only if the map had the volume or nothing was mounted there before.  A volume whose
      entry a restart has lost is taken for unstaged. */
  lemma {:induction false} UnstageUnmountsExactly(owner: Owner, b: State, req: Request, es: seq<Event>)
    requires Inv(owner, b) && OwnedRequest(owner, req) && OwnedEvents(owner, es) && NoNewCalls(es, req.vol)
    requires req.call.Unstage? && req.vol !in b.frames && |Layers(b.host, req.staging)| <= 1
    ensures var v, p, t := req.vol, req.staging, Run(b, [Begin(req)] + es);
      v !in t.frames && Replies(t, v) == Replies(b, v) + [OK] ==>
        v !in t.volMap && (Layers(t.host, p) == [] <==> v in b.volMap || Layers(b.host, p) == [])
  {
    hide Step; hide Inv; hide OwnedRequest; hide Layers; hide Unstaging; hide Run;
    var v, p, s, all := req.vol, req.staging, Step(b, Begin(req)), [Begin(req)] + es;
    RunConcat(b, [Begin(req)], es);
    RunOne(b, Begin(req));
    InvStep(owner, b, Begin(req));
    UnstageEnters(b, req);
    StagingIsOwned(owner, req);
    assert (Replies(b, v) + [OK])[|Replies(b, v)|] == OK;
    assert forall c :: (Replies(b, v) + [c])[|Replies(b, v)|] == c;
    if v in s.frames {
      ClearingRun(owner, s, es, v, p);
      UnstageDropsAnyway(owner, s, es, v);
    } else {
      CallIsOver(owner, s, es, v);
    }
  }

  lemma UnstageEnters(b: State, req: Request)
    requires req.call.Unstage? && req.vol !in b.frames && |Layers(b.host, req.staging)| <= 1
    ensures var v, s := req.vol, Step(b, Begin(req));
      && s.host == b.host && s.volMap == b.volMap
      && (v in s.frames ==>
            v in b.volMap && Unstaging(s, v) && Clearing(s, v, req.staging) && Replies(s, v) == Replies(b, v))
      && (v !in s.frames ==>
            (Replies(s, v) == Replies(b, v) + [OK] && v !in b.volMap) || Replies(s, v) == Replies(b, v) + [InvalidArgument])
  {
  }

  // When the daemon is left running

  /** The unstage comes to its device and the link resolves. */
  predicate ResolveStep(s: State, e: Event, v: VolId) {
    OwnStep(s, e, v) && s.frames[v].pc == DelResolve(Teardown) && Linked(s.host, v)
  }

  predicate Resolves(s: State, es: seq<Event>, v: VolId)
    decreases |es|
  {
    es != [] && (ResolveStep(s, es[0], v) || Resolves(Step(s, es[0]), es[1..], v))
  }

  /** The host takes the unit away by itself. */
  predicate Dies(es: seq<Event>, v: VolId) {
    exists i | 0 <= i < |es| :: es[i] == DaemonDied(v)
  }

  predicate AboutToStop(s: State, v: VolId) {
    v in s.frames && s.frames[v].pc.DelStop?
  }

  lemma UnstageUnits(h: Host, f: Frame, o: Outcome)
    requires LinksBacked(h) && f.req.call.Unstage? && PcOk(f.req.call, f.pc) && DevOk(f) && o.ok
    requires CapturedOk(h.minors, f.req.vol, f.pc)
    ensures var m := Act(h, f, o);
      && (Live(m.host, f.req.vol) <==> Live(h, f.req.vol) && !f.pc.DelStop?)
      && (m.next.Go? && m.next.pc.DelStop? <==> f.pc == DelResolve(Teardown) && Linked(h, f.req.vol))
  {
    hide CreateMove; hide MountMove; hide PublishMove; hide Stat; hide IsMountPoint; hide UnmountTop;
    hide AfterRemove; hide Backing;
    BackingIsVolume(h, f.req.vol);
    if !InDelete(f.pc) { UnmountKeepsDevices(h, f, o); }
  }

  lemma LeftRunningStep(owner: Owner, s: State, e: Event, v: VolId)
    requires Inv(owner, s) && OwnedEvent(owner, e) && NoNewCall(e, v) && (OwnStep(s, e, v) ==> e.o.ok)
    requires v in s.frames ==> s.frames[v].req.call.Unstage?
    ensures var t := Step(s, e);
      && (v in t.frames ==> t.frames[v].req.call.Unstage?)
      && (Live(t.host, v) && !AboutToStop(t, v) <==>
            Live(s.host, v) && !AboutToStop(s, v) && e != DaemonDied(v) && !ResolveStep(s, e, v))
  {
    if OwnStep(s, e, v) {
      RequestsOwnVolume(owner, s, v);
      UnstageUnits(s.host, s.frames[v], e.o);
      hide Act; hide LinksBacked; hide MapOk;
    } else if e.Op? && e.vol == v {
      StepWithoutCall(s, v, e.o);
    } else {
      ForeignKeeps(owner, s, e, v);
      if VolOf(e) == v { hide Inv; } else { hide Step; hide Inv; }
    }
  }

  lemma {:induction false} LeftRunning(owner: Owner, s: State, es: seq<Event>, v: VolId)
    requires Inv(owner, s) && OwnedEvents(owner, es) && NoNewCalls(es, v) && AllOwnOk(es, v)
    requires v in s.frames ==> s.frames[v].req.call.Unstage?
    ensures var t := Run(s, es); v !in t.frames ==>
      (Live(t.host, v) <==> Live(s.host, v) && !AboutToStop(s, v) && !Dies(es, v) && !Resolves(s, es, v))
    decreases |es|
  {
    hide Inv; hide Step; hide ResolveStep; hide Live;
    if es != [] {
      InvStep(owner, s, es[0]);
      assert NoNewCall(es[0], v);
      LeftRunningStep(owner, s, es[0], v);
      assert AllOwnOk(es[1..], v) by { assert forall i | 0 <= i < |es[1..]| :: es[1..][i] == es[i + 1]; }
      DiesLater(es, v);
      LeftRunning(owner, Step(s, es[0]), es[1..], v);
    }
  }

  lemma DiesLater(es: seq<Event>, v: VolId)
    requires es != []
    ensures Dies(es, v) <==> es[0] == DaemonDied(v) || Dies(es[1..], v)
  {
    if i :| 0 <= i < |es| && es[i] == DaemonDied(v) {
      if i > 0 { assert es[1..][i - 1] == es[i]; }
    }
    if i :| 0 <= i < |es[1..]| && es[1..][i] == DaemonDied(v) {
      assert es[i + 1] == es[1..][i];
    }
  }

  /** An unstage none of whose steps fails leaves the volume's unit loaded if and only if it was loaded,
      did not go by itself, and the link did not resolve when the unstage came to the device - or it
      never came to it.  Other volumes and the host may do anything meanwhile. */
  lemma {:induction false} UnresolvedLinkLeaks(owner: Owner, b: State, req: Request, es: seq<Event>)
    requires Inv(owner, b) && OwnedRequest(owner, req) && OwnedEvents(owner, es) && NoNewCalls(es, req.vol)
    requires req.call.Unstage? && req.vol !in b.frames && AllOwnOk(es, req.vol)
    ensures var v, all := req.vol, [Begin(req)] + es; var t := Run(b, all);
      v !in t.frames ==> (Live(t.host, v) <==> Live(b.host, v) && !Dies(es, v) && !Resolves(b, all, v))
  {
    var v, all, s := req.vol, [Begin(req)] + es, Step(b, Begin(req));
    assert all[1..] == es && Run(b, all) == Run(s, es);
    InvStep(owner, b, Begin(req));
    UnstageBegins(b, req);
    hide Step; hide Inv; hide OwnedRequest;
    LeftRunning(owner, s, es, v);
  }

  lemma UnstageBegins(b: State, req: Request)
    requires req.call.Unstage? && req.vol !in b.frames
    ensures var s := Step(b, Begin(req));
      && s.host == b.host && s.volMap == b.volMap && !AboutToStop(s, req.vol)
      && (req.vol in s.frames ==> s.frames[req.vol].req.call.Unstage? && s.frames[req.vol].pc == UmStat(UnstageUnmount)
                                  && Replies(s, req.vol) == Replies(b, req.vol))
  {
  }

  // By itself, the unstage finds the link as it was when it began

  /** The host does nothing to v meanwhile. */
  predicate LeftAlone(es: seq<Event>, v: VolId) {
    forall i | 0 <= i < |es| :: !es[i].Restart? && (VolOf(es[i]) == v ==> es[i].Op?)
  }

  lemma TeardownAhead(h: Host, f: Frame, o: Outcome)
    requires f.req.call.Unstage? && PcOk(f.req.call, f.pc) && DevOk(f) && FindsMount(h, f) && o.ok
    ensures var m := Act(h, f, o);
      && (BeforeTeardown(f.pc) && f.pc != DelResolve(Teardown) ==>
            m.next.Go? && BeforeTeardown(m.next.pc) && (Linked(m.host, f.req.vol) <==> Linked(h, f.req.vol)))
      && (!BeforeTeardown(f.pc) || f.pc == DelResolve(Teardown) ==> m.next.Go? ==> !BeforeTeardown(m.next.pc))
  {
    hide CreateMove; hide MountMove; hide PublishMove; hide StopUnit; hide ResolveUblkId; hide DeleteMinor;
    hide AfterRemove;
    if !InDelete(f.pc) { UnmountKeepsDevices(h, f, o); }
  }

  lemma ResolvesStep(owner: Owner, s: State, e: Event, v: VolId)
    requires Inv(owner, s) && OwnedEvent(owner, e) && NoNewCall(e, v) && (VolOf(e) == v ==> e.Op?)
    requires Unstaging(s, v) && (OwnStep(s, e, v) ==> e.o.ok)
    ensures var t, pc := Step(s, e), s.frames[v].pc;
      && (v in t.frames ==> Unstaging(t, v))
      && (!OwnStep(s, e, v) ==> v in t.frames && t.frames[v].pc == pc && (Linked(t.host, v) <==> Linked(s.host, v)))
      && (OwnStep(s, e, v) && BeforeTeardown(pc) && pc != DelResolve(Teardown) ==>
            v in t.frames && BeforeTeardown(t.frames[v].pc) && (Linked(t.host, v) <==> Linked(s.host, v)))
      && (OwnStep(s, e, v) && (!BeforeTeardown(pc) || pc == DelResolve(Teardown)) ==>
            v in t.frames ==> !BeforeTeardown(t.frames[v].pc))
  {
    hide Act; hide Inv; hide FindsMount; hide BeforeTeardown; hide Linked; hide Unmounted;
    if OwnStep(s, e, v) {
      RequestsOwnVolume(owner, s, v);
      TeardownAhead(s.host, s.frames[v], e.o);
      UnstageMoves(s.host, s.frames[v], e.o);
    } else {
      UnstagingForeign(owner, s, e, v);
      ForeignKeeps(owner, s, e, v);
      hide Step;
    }
  }

  lemma {:induction false} NoResolve(owner: Owner, s: State, es: seq<Event>, v: VolId)
    requires Inv(owner, s) && OwnedEvents(owner, es) && NoNewCalls(es, v) && LeftAlone(es, v) && AllOwnOk(es, v)
    requires v in s.frames ==> Unstaging(s, v) && !BeforeTeardown(s.frames[v].pc)
    ensures !Resolves(s, es, v)
    decreases |es|
  {
    hide Inv; hide Step; hide Unstaging;
    if es != [] {
      InvStep(owner, s, es[0]);
      assert NoNewCall(es[0], v);
      var t := Step(s, es[0]);
      if v in s.frames { ResolvesStep(owner, s, es[0], v); } else { StaysIdle(owner, s, es[0], v); }
      assert AllOwnOk(es[1..], v) && LeftAlone(es[1..], v) by { assert forall i | 0 <= i < |es[1..]| :: es[1..][i] == es[i + 1]; }
      NoResolve(owner, t, es[1..], v);
    }
  }

  lemma StaysIdle(owner: Owner, s: State, e: Event, v: VolId)
    requires Inv(owner, s) && OwnedEvent(owner, e) && NoNewCall(e, v) && v !in s.frames
    ensures v !in Step(s, e).frames
  {
    hide Inv;
    if Foreign(e, v) { ForeignKeeps(owner, s, e, v); hide Step; } else { StepWithoutCall(s, v, e.o); hide Step; }
  }

  lemma {:induction false} ResolvesIfLinked(owner: Owner, s: State, es: seq<Event>, v: VolId)
    requires Inv(owner, s) && OwnedEvents(owner, es) && NoNewCalls(es, v) && LeftAlone(es, v) && AllOwnOk(es, v)
    requires Unstaging(s, v) && BeforeTeardown(s.frames[v].pc) && v !in Run(s, es).frames
    ensures Resolves(s, es, v) <==> Linked(s.host, v)
    decreases |es|
  {
    hide Inv; hide Step; hide FindsMount; hide Linked;
    var e, t := es[0], Step(s, es[0]);
    InvStep(owner, s, e);
    assert NoNewCall(e, v);
    ResolvesStep(owner, s, e, v);
    assert AllOwnOk(es[1..], v) && LeftAlone(es[1..], v) by { assert forall i | 0 <= i < |es[1..]| :: es[1..][i] == es[i + 1]; }
    if OwnStep(s, e, v) && s.frames[v].pc == DelResolve(Teardown) {
      NoResolve(owner, t, es[1..], v);
    } else {
      BeforeTeardownIsTeardown(owner, s, v);
      ResolvesIfLinked(owner, t, es[1..], v);
    }
  }

  lemma BeforeTeardownIsTeardown(owner: Owner, s: State, v: VolId)
    requires Inv(owner, s) && Unstaging(s, v)
    ensures s.frames[v].pc.DelResolve? ==> s.frames[v].pc == DelResolve(Teardown)
  {
    hide LinksBacked; hide MapOk;
    assert FrameOk(owner, v, s.frames[v]);
  }

  /** So an unstage of a volume that the map has, none of whose steps fails and during which the host
      does nothing to the volume, succeeds and drops the entry, and leaves the unit loaded if and only
      if it was loaded and the link was not there when it began.  The code falls back to the derived
      device path for such a volume in order not to leak the unit. */
  lemma {:induction false} UnstageLeaksExactly(owner: Owner, b: State, req: Request, es: seq<Event>)
    requires Inv(owner, b) && OwnedRequest(owner, req) && OwnedEvents(owner, es) && NoNewCalls(es, req.vol)
    requires req.call.Unstage? && ValidRequest(req) && req.vol !in b.frames && req.vol in b.volMap
    requires AllOwnOk(es, req.vol) && LeftAlone(es, req.vol) && req.vol !in Run(b, [Begin(req)] + es).frames
    ensures var v, t := req.vol, Run(b, [Begin(req)] + es);
      && Replies(t, v) == Replies(b, v) + [OK] && v !in t.volMap
      && (Live(t.host, v) <==> Live(b.host, v) && !Linked(b.host, v))
  {
    var v, all, s := req.vol, [Begin(req)] + es, Step(b, Begin(req));
    assert all[1..] == es && Run(b, all) == Run(s, es);
    InvStep(owner, b, Begin(req));
    UnstageBegins(b, req);
    UnstageIsLetIn(b, req);
    assert !Dies(es, v);
    assert !ResolveStep(b, Begin(req), v);
    assert Resolves(b, all, v) <==> Resolves(s, es, v);
    hide Step; hide Inv; hide OwnedRequest; hide ValidRequest; hide Run;
    UnresolvedLinkLeaks(owner, b, req, es);
    UnstageDropsAnyway(owner, s, es, v);
    ResolvesIfLinked(owner, s, es, v);
  }

  lemma UnstageIsLetIn(b: State, req: Request)
    requires req.call.Unstage? && ValidRequest(req) && req.vol !in b.frames && req.vol in b.volMap
    ensures var s := Step(b, Begin(req)); Unstaging(s, req.vol) && BeforeTeardown(s.frames[req.vol].pc)
  {
  }
}
