/** A NodeStageVolume that fails puts everything back, as far as its cleanup succeeds. */
module Rollback {
  import opened Uuid
  import opened Types
  import opened HostModel
  import opened Machine
  import opened Effects
  import opened Invariant
  import opened Views
  import opened Mounts
  import opened Conservation
  import opened Delivery
  import Decimal

  ghost predicate SameMounts(owner: Owner, h: Host, k: Host, v: VolId) {
    forall p | owner(p) == v :: Layers(h, p) == Layers(k, p)
  }

  predicate InStage(f: Frame) {
    f.req.call.Stage? && (InDelete(f.pc) ==> f.pc.why.MountFailed?)
  }

  /** A staging call begun in state b has changed no entry, and no mount unless it is about to
      insert the entry; if it has failed, neither. */
  ghost predicate Undone(owner: Owner, b: State, s: State, v: VolId) {
    && EntryOf(s, v) == EntryOf(b, v)
    && SameMounts(owner, b.host, s.host, v)
  }

  ghost predicate Rolling(owner: Owner, b: State, s: State, v: VolId) {
    if v in s.frames then
      && InStage(s.frames[v])
      && Replies(s, v) == Replies(b, v)
      && EntryOf(s, v) == EntryOf(b, v)
      && (!s.frames[v].pc.Insert? ==> SameMounts(owner, b.host, s.host, v))
    else
      exists c :: Replies(s, v) == Replies(b, v) + [c] && (c != OK ==> Undone(owner, b, s, v))
  }

  /** With a parsable ID, a staging call's only step that leaves a mount behind leads to the
      insertion, and only the insertion ends with success. */
  lemma StageMoves(h: Host, f: Frame, o: Outcome)
    requires InStage(f) && PcOk(f.req.call, f.pc) && Parse(f.req.vol.text).Some? && f.dev != NoDevPath
    ensures var m := Act(h, f, o);
      && (m.next.Go? ==> InStage(f.(pc := m.next.pc)) && !f.pc.Insert?)
      && (m.next.Done? && m.next.code != OK ==> m.next.write.Keep? && !f.pc.Insert?)
      && (m.next.Done? || !m.next.pc.Insert? ==> m.host.mounts == h.mounts)
  {
    hide StartUnit; hide StopUnit; hide ResolveUblkId; hide DeleteMinor; hide Blkid; hide Mkfs; hide IsMountPoint;
    hide Parse;
    hide MkdirAll; hide Backing;
    MountKeeps(h, f, o);
    if InCreate(f.pc) { CreateTouches(h, f, o); }
    if InDelete(f.pc) { DeleteTouches(h, f, o); }
  }

  lemma MountKeeps(h: Host, f: Frame, o: Outcome)
    ensures MkdirAll(h, f.req.staging, o).host.mounts == h.mounts
    ensures Mkfs(h, f.dev, f.req.FsType(), o).host.mounts == h.mounts
  {
    hide Stat; hide Backing;
  }

  lemma RollingOp(owner: Owner, b: State, s: State, v: VolId, o: Outcome)
    requires Inv(owner, s) && Parse(v.text).Some? && v in s.frames && Rolling(owner, b, s, v)
    ensures Rolling(owner, b, Step(s, Op(v, o)), v)
  {
    hide Act; hide Parse; hide LinksBacked; hide MapOk;
    var t := Step(s, Op(v, o));
    var f := s.frames[v];
    StageMoves(s.host, f, o);
    var m := Act(s.host, f, o);
    assert m.host.mounts == s.host.mounts ==> forall p :: Layers(t.host, p) == Layers(s.host, p);
    if m.next.Done? {
      assert Replies(t, v) == Replies(b, v) + [m.next.code];
    }
  }

  lemma SameRolling(owner: Owner, b: State, s: State, t: State, v: VolId)
    requires SameView(owner, s, t, v) && Rolling(owner, b, s, v)
    ensures Rolling(owner, b, t, v)
  {
    assert SameMounts(owner, s.host, t.host, v);
    if v in s.frames {
      assert s.frames[v].(pc := Blur(s.frames[v].pc)) == t.frames[v].(pc := Blur(t.frames[v].pc));
    }
    hide SameHostView; hide Points;
  }

  lemma RollingStep(owner: Owner, b: State, s: State, e: Event, v: VolId)
    requires Inv(owner, s) && OwnedEvent(owner, e) && NoNewCall(e, v)
    requires Parse(v.text).Some? && Rolling(owner, b, s, v)
    ensures Rolling(owner, b, Step(s, e), v)
  {
    hide Act; hide Enter; hide Parse; hide Inv; hide SameView; hide InStage; hide DeviceUp; hide LinkDown;
    hide DaemonGone;
    if e.Op? && e.vol == v {
      if v in s.frames { RollingOp(owner, b, s, v, e.o); }
    } else if VolOf(e) != v {
      StepIsLocal(owner, s, e, v);
      SameRolling(owner, b, s, Step(s, e), v);
    } else {
      OtherEvents(s, e);
      assert forall p :: Layers(Step(s, e).host, p) == Layers(s.host, p);
    }
  }

  lemma {:induction false} RollingRun(owner: Owner, b: State, s: State, es: seq<Event>, v: VolId)
    requires Inv(owner, s) && OwnedEvents(owner, es) && NoNewCalls(es, v)
    requires Parse(v.text).Some? && Rolling(owner, b, s, v)
    ensures Rolling(owner, b, Run(s, es), v)
    decreases |es|
  {
    if es != [] {
      InvStep(owner, s, es[0]);
      RollingStep(owner, b, s, es[0], v);
      hide Step; hide Inv; hide Rolling; hide Parse;
      RollingRun(owner, b, Step(s, es[0]), es[1..], v);
    }
  }

  lemma RollingBegins(owner: Owner, b: State, req: Request)
    requires req.call.Stage? && req.vol !in b.frames
    ensures Rolling(owner, b, Step(b, Begin(req)), req.vol)
  {
    hide Decimal.ParseInt64;
    assert Replies(Step(b, Begin(req)), req.vol) == Replies(b, req.vol) || Undone(owner, b, Step(b, Begin(req)), req.vol);
  }

  lemma {:induction false} StagesRoll(owner: Owner, b: State, req: Request, es: seq<Event>)
    requires Inv(owner, b) && OwnedRequest(owner, req) && OwnedEvents(owner, es) && NoNewCalls(es, req.vol)
    requires req.call.Stage? && req.vol !in b.frames && Parse(req.vol.text).Some?
    ensures Rolling(owner, b, Run(b, [Begin(req)] + es), req.vol)
  {
    hide Step; hide Inv; hide Parse; hide Rolling;
    assert ([Begin(req)] + es)[1..] == es;
    InvStep(owner, b, Begin(req));
    RollingBegins(owner, b, req);
    RollingRun(owner, b, Step(b, Begin(req)), es, req.vol);
  }

  /** Stage rollback: a NodeStageVolume with a parsable ID whose unit starts, whose device does not
      come up after the wait was given up, and whose cleanup succeeds - if it ends with a failure,
      at the wait, the mkdir, the probes, mkfs, the mount check or the mount, whatever other
      volumes did meanwhile - leaves the volume's unit, link, minors, entry and mounts as they were. */
  lemma {:induction false} FailedStageRollsBack(owner: Owner, b: State, req: Request, es: seq<Event>)
    requires Inv(owner, b) && OwnedRequest(owner, req) && OwnedEvents(owner, es)
    requires req.call.Stage? && req.vol !in b.frames && Parse(req.vol.text).Some?
    requires Conserved(b, req.vol) && req.vol !in b.suspect
    requires NoNewCalls(es, req.vol) && HarmlessRun(b, [Begin(req)] + es, req.vol)
    ensures var v, t := req.vol, Run(b, [Begin(req)] + es);
      v !in t.frames && Replies(t, v) != Replies(b, v) + [OK] ==>
        && Undone(owner, b, t, v)
        && Live(t.host, v) == Live(b.host, v) && Linked(t.host, v) == Linked(b.host, v)
        && Reserved(t.host.minors, v) == Reserved(b.host.minors, v)
  {
    hide Step; hide Inv; hide Parse; hide HarmlessRun; hide Reserved; hide Run;
    var v, all := req.vol, [Begin(req)] + es;
    var t := Run(b, all);
    StagesRoll(owner, b, req, es);
    NoRestartGood(b, all, v);
    UnitsExact(owner, b, all, v);
    MinorsExact(owner, b, all, v);
    assert Staged(b, v) == Staged(t, v) || !(EntryOf(t, v) == EntryOf(b, v));
  }

  lemma {:induction false} NoRestartGood(s: State, es: seq<Event>, v: VolId)
    requires forall i | 0 <= i < |es| :: !es[i].Restart?
    ensures GoodRestarts(s, es, v)
    decreases |es|
  {
    hide Step;
    if es != [] {
      NoRestartGood(Step(s, es[0]), es[1..], v);
    }
  }

  // A device that comes up after the wait was given up

  /** The deciding look at the link, in vain. */
  predicate GivesUp(s: State, e: Event, v: VolId) {
    OwnStep(s, e, v) && s.frames[v].pc.WaitLink? && !Linked(s.host, v)
  }

  /** What happens once v's wait was given up; nothing if it was not. */
  function Aftermath(s: State, es: seq<Event>, v: VolId): seq<Event>
    decreases |es|
  {
    if es == [] then [] else if GivesUp(s, es[0], v) then es[1..] else Aftermath(Step(s, es[0]), es[1..], v)
  }

  /** The daemon ends: it is stopped by the call, or it dies. */
  predicate Ends(e: Event, v: VolId) {
    (e.Op? && e.vol == v) || e == DaemonDied(v)
  }

  predicate ComesUp(e: Event, v: VolId) {
    e.DaemonUp? && e.vol == v
  }

  /** The device comes up before its daemon ends, and udev does not take the link down after that. */
  predicate ComesLate(es: seq<Event>, v: VolId) {
    exists i | 0 <= i < |es| :: ComesUp(es[i], v) && LinkLost(v) !in es[i + 1..] && forall j | 0 <= j < i :: !Ends(es[j], v)
  }

  /** How often it comes up before its daemon ends. */
  function LateDevices(es: seq<Event>, v: VolId): nat {
    if es == [] || Ends(es[0], v) then 0 else (if ComesUp(es[0], v) then 1 else 0) + LateDevices(es[1..], v)
  }

  /** The next step of v's call succeeds. */
  predicate NextOk(es: seq<Event>, v: VolId) {
    es == [] || (if es[0].Op? && es[0].vol == v then es[0].o.ok else NextOk(es[1..], v))
  }

  /** No cause for suspicion until the wait is given up, and then the unit can be stopped. */
  predicate HarmlessUntilGivenUp(s: State, es: seq<Event>, v: VolId)
    decreases |es|
  {
    es == [] ||
    (Harmless(s, es[0], v) &&
     if GivesUp(s, es[0], v) then NextOk(es[1..], v) else HarmlessUntilGivenUp(Step(s, es[0]), es[1..], v))
  }

  lemma LateFrom(es: seq<Event>, v: VolId)
    requires es != []
    ensures ComesLate(es, v) <==>
      (ComesUp(es[0], v) && LinkLost(v) !in es[1..]) || (!Ends(es[0], v) && ComesLate(es[1..], v))
  {
    if ComesLate(es, v) {
      var i :| 0 <= i < |es| && ComesUp(es[i], v) && LinkLost(v) !in es[i + 1..] && forall j | 0 <= j < i :: !Ends(es[j], v);
      if i > 0 {
        assert es[1..][i - 1] == es[i] && es[1..][i..] == es[i + 1..];
        assert forall j | 0 <= j < i - 1 :: es[1..][j] == es[j + 1];
      }
    }
    if !Ends(es[0], v) && ComesLate(es[1..], v) {
      var i :|
        && 0 <= i < |es[1..]| && ComesUp(es[1..][i], v) && LinkLost(v) !in es[1..][i + 1..]
        && forall j | 0 <= j < i :: !Ends(es[1..][j], v);
      assert es[1..][i + 1..] == es[i + 1 + 1..];
      assert forall j | 0 < j < i + 1 :: es[j] == es[1..][j - 1];
      assert ComesUp(es[i + 1], v);
    }
  }

  /** Same unit, link and minors of v. */
  predicate SameDevice(h: Host, k: Host, v: VolId) {
    && (Live(h, v) <==> Live(k, v)) && (Linked(h, v) <==> Linked(k, v))
    && Reserved(h.minors, v) == Reserved(k.minors, v)
  }

  lemma OthersKeepDevice(owner: Owner, s: State, e: Event, v: VolId)
    requires Inv(owner, s) && OwnedEvent(owner, e) && NoNewCall(e, v) && VolOf(e) != v
    ensures SameDevice(s.host, Step(s, e).host, v)
  {
    hide Step; hide Inv; hide SamePathView; hide Reserved; hide SameCall;
    StepIsLocal(owner, s, e, v);
  }

  lemma {:induction false} AfterTheCall(owner: Owner, s: State, es: seq<Event>, v: VolId)
    requires Inv(owner, s) && OwnedEvents(owner, es) && NoNewCalls(es, v) && v !in s.frames && !Live(s.host, v)
    ensures var t := Run(s, es);
      && v !in t.frames && !Live(t.host, v) && Replies(t, v) == Replies(s, v) && EntryOf(t, v) == EntryOf(s, v)
      && (Linked(t.host, v) <==> Linked(s.host, v) && LinkLost(v) !in es)
      && Reserved(t.host.minors, v) == Reserved(s.host.minors, v)
    decreases |es|
  {
    hide Inv; hide Reserved; hide Act; hide Enter; hide SamePathView;
    if es != [] {
      var e := es[0];
      InvStep(owner, s, e);
      assert NoNewCall(e, v);
      assert LinkLost(v) in es <==> e == LinkLost(v) || LinkLost(v) in es[1..];
      if e.Op? && e.vol == v {
        StepWithoutCall(s, v, e.o);
      } else {
        ForeignKeeps(owner, s, e, v);
        if VolOf(e) != v { OthersKeepDevice(owner, s, e, v); }
      }
      AfterTheCall(owner, Step(s, e), es[1..], v);
    }
  }

  predicate Stopping(s: State, v: VolId) {
    v in s.frames && s.frames[v].req.vol == v && s.frames[v].pc.StopAfterWait?
  }

  lemma StopEnds(s: State, v: VolId, o: Outcome)
    requires Stopping(s, v) && o.ok
    ensures var t := Step(s, Op(v, o));
      && v !in t.frames && !Live(t.host, v) && Replies(t, v) == Replies(s, v) + [Internal] && EntryOf(t, v) == EntryOf(s, v)
      && t.host.links == s.host.links && t.host.minors == s.host.minors
  {
  }

  /** An event of the host before the stop. */
  lemma HostBeforeStop(s: State, e: Event, v: VolId)
    requires Stopping(s, v) && !e.Restart? && !e.Begin? && !e.Op? && e.vol == v
    ensures var t := Step(s, e);
      && (Live(t.host, v) <==> Live(s.host, v) && !e.DaemonDied?)
      && (Linked(t.host, v) <==> if e.DaemonUp? && Live(s.host, v) then true else Linked(s.host, v) && !e.LinkLost?)
      && Reserved(t.host.minors, v) == Reserved(s.host.minors, v) + if e.DaemonUp? && Live(s.host, v) then 1 else 0
  {
    hide Reserved;
    if e.DaemonUp? && Live(s.host, v) { ReservedMore(s.host.minors, FirstFree(s.host.minors.Keys, e.pref), v, v); }
  }

  lemma StoppingForeign(s: State, e: Event, v: VolId)
    requires Stopping(s, v) && Foreign(e, v)
    ensures var t := Step(s, e); Stopping(t, v) && Replies(t, v) == Replies(s, v) && EntryOf(t, v) == EntryOf(s, v)
  {
    hide Step;
    OtherFrames(s, e, v);
  }

  /** From the deciding look on: the link is there at the end if it was and did not go, or came late;
      every late device keeps its minor. */
  lemma {:induction false} StopPending(owner: Owner, s: State, es: seq<Event>, v: VolId)
    requires Inv(owner, s) && OwnedEvents(owner, es) && NoNewCalls(es, v) && Stopping(s, v) && NextOk(es, v)
    ensures var t := Run(s, es); v !in t.frames ==>
      && !Live(t.host, v) && Replies(t, v) == Replies(s, v) + [Internal] && EntryOf(t, v) == EntryOf(s, v)
      && (Linked(t.host, v) <==> (Linked(s.host, v) && LinkLost(v) !in es) || (Live(s.host, v) && ComesLate(es, v)))
      && Reserved(t.host.minors, v) == Reserved(s.host.minors, v) + if Live(s.host, v) then LateDevices(es, v) else 0
    decreases |es|
  {
    hide Inv; hide Reserved; hide Step; hide ComesLate; hide Live; hide Linked; hide Stopping; hide Replies; hide EntryOf;
    if es != [] {
      var e, t := es[0], Step(s, es[0]);
      InvStep(owner, s, e);
      assert NoNewCall(e, v);
      assert LinkLost(v) in es <==> e == LinkLost(v) || LinkLost(v) in es[1..];
      LateFrom(es, v);
      if e.Op? && e.vol == v {
        StopEnds(s, v, e.o);
        LinkedByLinks(s.host, t.host, v);
        AfterTheCall(owner, t, es[1..], v);
      } else {
        StoppingForeign(s, e, v);
        if VolOf(e) != v { OthersKeepDevice(owner, s, e, v); } else { HostBeforeStop(s, e, v); }
        StopPending(owner, t, es[1..], v);
      }
    } else {
      assert v in s.frames by { IsStopping(s, v); }
    }
  }

  lemma IsStopping(s: State, v: VolId)
    requires Stopping(s, v)
    ensures v in s.frames
  {
  }

  lemma LinkedByLinks(h: Host, k: Host, v: VolId)
    requires k.links == h.links
    ensures Linked(k, v) == Linked(h, v)
  {
  }

  /** Either the wait is never given up, or the run falls into what comes before and the aftermath. */
  lemma {:induction false} SplitAtGivingUp(s: State, es: seq<Event>, v: VolId) returns (n: nat)
    requires HarmlessUntilGivenUp(s, es, v)
    ensures n <= |es| && HarmlessRun(s, es[..n], v)
    ensures n == |es| ==> Aftermath(s, es, v) == []
    ensures n < |es| ==> GivesUp(Run(s, es[..n]), es[n], v) && Aftermath(s, es, v) == es[n + 1..] && NextOk(es[n + 1..], v)
    decreases |es|
  {
    hide Step; hide Harmless; hide GivesUp;
    n := 0;
    if es != [] && !GivesUp(s, es[0], v) {
      var k := SplitAtGivingUp(Step(s, es[0]), es[1..], v);
      n := k + 1;
      assert es[..n][1..] == es[1..][..k] && es[..n][0] == es[0];
      if n < |es| { assert es[1..][k + 1..] == es[n + 1..]; }
    }
  }

  lemma GivingUpStops(owner: Owner, s: State, e: Event, v: VolId)
    requires Inv(owner, s) && GivesUp(s, e, v)
    ensures var t := Step(s, e);
      Stopping(t, v) && t.host == s.host && Replies(t, v) == Replies(s, v) && EntryOf(t, v) == EntryOf(s, v)
  {
    RequestsOwnVolume(owner, s, v);
    hide Inv;
  }

  /** At the deciding look the unit is loaded, and as many minors are reserved as before the call. */
  lemma WaitingUnit(b: State, s: State, e: Event, v: VolId)
    requires Conserved(b, v) && v !in b.frames && v !in b.suspect && Conserved(s, v) && v !in s.suspect && GivesUp(s, e, v)
    requires s.frames[v].req.call.Stage? && EntryOf(s, v) == EntryOf(b, v)
    requires Reserved(s.host.minors, v) + Accounted(b, v) == Reserved(b.host.minors, v) + Accounted(s, v)
    ensures Live(s.host, v) && !Linked(s.host, v) && !Live(b.host, v) && !Linked(b.host, v)
    ensures Reserved(s.host.minors, v) == Reserved(b.host.minors, v)
  {
    hide Reserved;
    assert Staged(s, v) == Staged(b, v);
  }

  /** What a stage finds when it gives up the wait. */
  lemma {:induction false} AtGivingUp(owner: Owner, b: State, req: Request, es: seq<Event>, e: Event)
    requires Inv(owner, b) && OwnedRequest(owner, req) && OwnedEvents(owner, es) && NoNewCalls(es, req.vol)
    requires req.call.Stage? && req.vol !in b.frames && Parse(req.vol.text).Some?
    requires Conserved(b, req.vol) && req.vol !in b.suspect
    requires HarmlessRun(b, [Begin(req)] + es, req.vol) && GivesUp(Run(b, [Begin(req)] + es), e, req.vol)
    ensures var v, s := req.vol, Run(b, [Begin(req)] + es);
      && Inv(owner, s) && Replies(s, v) == Replies(b, v) && EntryOf(s, v) == EntryOf(b, v)
      && Live(s.host, v) && !Linked(s.host, v) && !Live(b.host, v) && !Linked(b.host, v)
      && Reserved(s.host.minors, v) == Reserved(b.host.minors, v)
  {
    hide Step; hide Inv; hide Parse; hide HarmlessRun; hide Reserved; hide Conserved; hide Accounted; hide Live;
    hide Linked;
    hide GoodRestarts; hide SameMounts;
    var v, all := req.vol, [Begin(req)] + es;
    hide Run;
    InvRun(owner, b, all);
    StagesRoll(owner, b, req, es);
    NoRestartGood(b, all, v);
    ConservedRun(owner, b, all, v);
    UnitsExact(owner, b, all, v);
    MinorsExact(owner, b, all, v);
    WaitingUnit(b, Run(b, all), e, v);
  }

  /** Stage rollback, with its exact condition.  Giving up the wait stops the unit but deletes no device.
      So a stage that fails as above, with nothing going wrong on the host until then but that the
      device may come up after the deciding look, leaves unit, entry and mounts as they were; it leaves
      a link that was not there if and only if the device came up between that look and the end of the
      daemon and the link did not go afterwards, and one more minor for each time it came up then. */
  lemma {:induction false} LateDeviceStays(owner: Owner, b: State, req: Request, es: seq<Event>)
    requires Inv(owner, b) && OwnedRequest(owner, req) && OwnedEvents(owner, es) && NoNewCalls(es, req.vol)
    requires req.call.Stage? && req.vol !in b.frames && Parse(req.vol.text).Some?
    requires Conserved(b, req.vol) && req.vol !in b.suspect
    requires HarmlessUntilGivenUp(b, [Begin(req)] + es, req.vol)
    ensures var v, t, late := req.vol, Run(b, [Begin(req)] + es), Aftermath(b, [Begin(req)] + es, req.vol);
      v !in t.frames && Replies(t, v) != Replies(b, v) + [OK] ==>
        && Undone(owner, b, t, v)
        && (Live(t.host, v) <==> Live(b.host, v))
        && (Linked(t.host, v) <==> Linked(b.host, v) || ComesLate(late, v))
        && Reserved(t.host.minors, v) == Reserved(b.host.minors, v) + LateDevices(late, v)
  {
    hide Step; hide Inv; hide Parse; hide HarmlessRun; hide Reserved; hide Conserved; hide Live; hide Linked;
    hide Aftermath;
    hide HarmlessUntilGivenUp; hide SameMounts; hide GivesUp; hide Run; hide EntryOf; hide Replies;
    var v, all := req.vol, [Begin(req)] + es;
    var n := SplitAtGivingUp(b, all, v);
    if n == |all| {
      assert all[..n] == all;
      FailedStageRollsBack(owner, b, req, es);
    } else {
      if n == 0 { assert false by { assert all[..0] == []; NoCallNoGivingUp(b, all[0], v); } }
      var pre, e, late := es[..n - 1], all[n], all[n + 1..];
      assert all[..n] == [Begin(req)] + pre;
      AtGivingUp(owner, b, req, pre, e);
      var s := Run(b, all[..n]);
      GivingUpStops(owner, s, e, v);
      InvStep(owner, s, e);
      StopPending(owner, Step(s, e), late, v);
      assert all[..n] + [e] + late == all;
      RunSnoc(b, all[..n], e);
      RunConcat(b, all[..n] + [e], late);
      StagesRoll(owner, b, req, es);
      assert (Replies(b, v) + [Internal])[|Replies(b, v)|] == Internal;
    }
  }

  lemma {:induction false} NoCallNoGivingUp(b: State, e: Event, v: VolId)
    requires v !in b.frames
    ensures !GivesUp(Run(b, []), e, v)
  {
    hide Step;
  }

  // A unit that cannot be started

  /** When the call comes to starting the unit, it is loaded already, or the job is never dispatched. */
  predicate StartsInVain(s: State, es: seq<Event>, v: VolId)
    decreases |es|
  {
    es == [] ||
    if OwnStep(s, es[0], v) then Live(s.host, v) || (!es[0].o.ok && !es[0].o.did) else StartsInVain(Step(s, es[0]), es[1..], v)
  }

  /** Equal but for what is under suspicion. */
  predicate SameButSuspects(s: State, t: State) {
    s.host == t.host && s.volMap == t.volMap && s.frames == t.frames && s.replies == t.replies
  }

  lemma SuspectsDoNotMatter(s: State, t: State, e: Event)
    requires SameButSuspects(s, t)
    ensures SameButSuspects(Step(s, e), Step(t, e))
  {
    hide Act; hide Enter; hide Recover; hide DeviceUp; hide LinkDown; hide DaemonGone; hide Written; hide Doubted;
    hide Linked; hide Live;
  }

  /** s and t differ at most in the responses to v, and in what is under suspicion; v has no call. */
  predicate SameOutside(s: State, t: State, v: VolId) {
    && v !in s.frames && s.host == t.host && s.volMap == t.volMap && s.frames == t.frames && s.replies - {v} == t.replies - {v}
  }

  lemma SameOutsideStep(s: State, t: State, e: Event, v: VolId)
    requires SameOutside(s, t, v) && Foreign(e, v)
    ensures SameOutside(Step(s, e), Step(t, e), v)
  {
    hide Step; hide Replies;
    var u := t.(suspect := s.suspect);
    assert SameElsewhere(s, u, v) by { assert s.frames - {v} == t.frames; }
    SameForeignStep(s, u, e, v);
    SuspectsDoNotMatter(u, t, e);
    OtherFrames(s, e, v);
    assert Step(s, e).frames - {v} == Step(s, e).frames;
  }

  lemma {:induction false} SameOutsideRun(s: State, t: State, es: seq<Event>, v: VolId)
    requires SameOutside(s, t, v) && NoNewCalls(es, v)
    ensures SameOutside(Run(s, es), Run(t, Others(es, v)), v) && Replies(Run(s, es), v) == Replies(s, v)
    decreases |es|
  {
    hide Step; hide SameOutside; hide Replies;
    if es != [] {
      var e := es[0];
      assert NoNewCall(e, v);
      if Foreign(e, v) {
        SameOutsideStep(s, t, e, v);
        OtherFrames(s, e, v);
        assert Others(es, v)[1..] == Others(es[1..], v);
        SameOutsideRun(Step(s, e), Step(t, e), es[1..], v);
      } else {
        IsOutside(s, t, v);
        StepWithoutCall(s, v, e.o);
        assert [] + Others(es[1..], v) == Others(es[1..], v);
        SameOutsideRun(s, t, es[1..], v);
      }
    }
  }

  lemma IsOutside(s: State, t: State, v: VolId)
    requires SameOutside(s, t, v)
    ensures v !in s.frames
  {
  }

  predicate Starts(s: State, v: VolId) {
    v in s.frames && s.frames[v].req.vol == v && s.frames[v].pc.StartUblk?
  }

  /** A start that fails never takes a live unit down; one that fails before the job was handed to
      systemd changes nothing on the host, and one that fails after leaves the unit running. */
  lemma FailedStep(s: State, v: VolId, o: Outcome)
    requires Starts(s, v) && (Live(s.host, v) || !o.ok)
    ensures var t := Step(s, Op(v, o));
      && v !in t.frames && Replies(t, v) == Replies(s, v) + [Internal] && t.volMap == s.volMap
      && t.frames == s.frames - {v} && t.replies - {v} == s.replies - {v}
      && (Live(t.host, v) <==> Live(s.host, v) || o.did)
      && (Live(s.host, v) || !o.did ==> t.host == s.host)
  {
  }

  lemma {:induction false} StartingInVain(s: State, t: State, es: seq<Event>, v: VolId)
    requires SameElsewhere(s, t, v) && Starts(s, v) && NoNewCalls(es, v) && StartsInVain(s, es, v)
    ensures var r := Run(s, es); v !in r.frames ==>
      SameOutside(r, Run(t, Others(es, v)), v) && Replies(r, v) == Replies(s, v) + [Internal]
    decreases |es|
  {
    hide Step; hide Replies; hide SameElsewhere; hide SameOutside; hide Live;
    if es != [] {
      var e := es[0];
      assert NoNewCall(e, v);
      if Foreign(e, v) {
        assert Starts(Step(s, e), v) && Replies(Step(s, e), v) == Replies(s, v) by { OtherFrames(s, e, v); }
        SameForeignStep(s, t, e, v);
        assert Others(es, v)[1..] == Others(es[1..], v);
        StartingInVain(Step(s, e), Step(t, e), es[1..], v);
      } else {
        FailedStep(s, v, e.o);
        assert SameOutside(Step(s, e), t, v) by { IsElsewhere(s, t, v); BecomesOutside(s, Step(s, e), t, v); }
        assert [] + Others(es[1..], v) == Others(es[1..], v);
        SameOutsideRun(Step(s, e), t, es[1..], v);
      }
    }
  }

  lemma IsElsewhere(s: State, t: State, v: VolId)
    requires SameElsewhere(s, t, v)
    ensures s.host == t.host && s.volMap == t.volMap && s.frames - {v} == t.frames && s.replies - {v} == t.replies - {v}
  {
  }

  lemma BecomesOutside(s: State, r: State, t: State, v: VolId)
    requires SameElsewhere(s, t, v) && r.host == s.host && r.volMap == s.volMap
    requires r.frames == s.frames - {v} && r.replies - {v} == s.replies - {v}
    ensures SameOutside(r, t, v)
  {
  }

  /** A loaded unit cannot be started, unless its daemon dies first. */
  lemma {:induction false} LoadedStartsInVain(owner: Owner, s: State, es: seq<Event>, v: VolId)
    requires Inv(owner, s) && OwnedEvents(owner, es) && NoNewCalls(es, v) && Live(s.host, v) && DaemonDied(v) !in es
    ensures StartsInVain(s, es, v)
    decreases |es|
  {
    hide Inv; hide Step; hide Live;
    if es != [] && !OwnStep(s, es[0], v) {
      InvStep(owner, s, es[0]);
      assert NoNewCall(es[0], v);
      StaysLoaded(owner, s, es[0], v);
      LoadedStartsInVain(owner, Step(s, es[0]), es[1..], v);
    }
  }

  lemma StaysLoaded(owner: Owner, s: State, e: Event, v: VolId)
    requires Inv(owner, s) && OwnedEvent(owner, e) && NoNewCall(e, v) && Live(s.host, v) && e != DaemonDied(v) && !OwnStep(s, e, v)
    ensures Live(Step(s, e).host, v)
  {
    hide Inv; hide Act; hide Enter; hide FirstFree;
    if VolOf(e) != v { OthersKeepDevice(owner, s, e, v); }
  }

  /** A stage that comes to starting a unit which is loaded already - so any stage of a volume whose unit
      was loaded when it began and whose daemon does not die -, or whose start fails before the job is
      handed to systemd, is answered with Internal; host, map, other calls and their responses are then
      as other volumes and the host by itself would have made them without it. */
  lemma {:induction false} FailedStart(owner: Owner, b: State, req: Request, es: seq<Event>)
    requires Inv(owner, b) && OwnedRequest(owner, req) && OwnedEvents(owner, es) && NoNewCalls(es, req.vol)
    requires req.call.Stage? && req.vol !in b.frames && Enter(EntryOf(b, req.vol), req).Admit?
    requires StartsInVain(Step(b, Begin(req)), es, req.vol) || (Live(b.host, req.vol) && DaemonDied(req.vol) !in es)
    ensures var v := req.vol; var t, u := Run(b, [Begin(req)] + es), Run(b, Others(es, v));
      v !in t.frames ==>
        && t.host == u.host && t.volMap == u.volMap && t.frames == u.frames && t.replies - {v} == u.replies - {v}
        && Replies(t, v) == Replies(b, v) + [Internal]
  {
    hide Step; hide Inv; hide StartsInVain; hide Enter; hide Others;
    var v, s := req.vol, Step(b, Begin(req));
    assert ([Begin(req)] + es)[1..] == es;
    InvStep(owner, b, Begin(req));
    StageBegins(b, req);
    if !StartsInVain(s, es, v) { LoadedStartsInVain(owner, s, es, v); }
    StartingInVain(s, b, es, v);
  }

  lemma StageBegins(b: State, req: Request)
    requires req.call.Stage? && req.vol !in b.frames && Enter(EntryOf(b, req.vol), req).Admit?
    ensures var s := Step(b, Begin(req));
      Starts(s, req.vol) && s.host == b.host && SameElsewhere(s, b, req.vol) && Replies(s, req.vol) == Replies(b, req.vol)
  {
    hide Decimal.ParseInt64;
    assert Step(b, Begin(req)).frames - {req.vol} == b.frames;
  }
}
