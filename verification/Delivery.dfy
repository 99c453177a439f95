/** Calls end, and delivering one again after it took effect changes nothing. */
module Delivery {
  import opened Uuid
  import opened Types
  import opened HostModel
  import opened Machine
  import opened Effects
  import opened Invariant
  import opened Views
  import opened Mounts
  import Decimal

  // Every call ends

  function SiteRank(at: Site): nat {
    match at
    case UnstageUnmount => 11
    case UnpublishUnmount => 10
    case _ => 5
  }

  /** How many more steps a call can take at most. */
  function Rank(pc: PC): nat {
    match pc
    case StartUblk => 20
    case WaitLink => 19
    case StopAfterWait => 18
    case MkdirStaging => 17
    case ProbeCompat => 16
    case ProbeExisting => 15
    case Format => 14
    case CheckStaging(_) => 13
    case MountStaging(_) => 12
    case Insert => 11
    case DelResolve(_) => 10
    case DelStop(_, _) => 9
    case DelRun(_, _) => 8
    case UmStat(at) => SiteRank(at) + 2
    case UmCheck(at) => SiteRank(at) + 1
    case UmUnmount(at) => SiteRank(at)
    case RemovePath(_) => 4
    case DropEntry => 3
    case MkdirParent => 7
    case OpenTarget => 6
    case StatTarget => 5
    case MkdirTarget => 5
    case CheckTarget => 4
    case BindTarget => 3
    case RecordTarget => 2
    case StatMode => 9
    case ClearTarget => 3
  }

  predicate Descends(f: Frame, m: Move) {
    m.next.Go? ==> Rank(m.next.pc) < Rank(f.pc)
  }

  lemma CreateDescends(h: Host, f: Frame, o: Outcome)
    requires InCreate(f.pc)
    ensures Descends(f, CreateMove(h, f, o))
  {
  }

  lemma MountDescends(h: Host, f: Frame, o: Outcome)
    requires InMount(f.pc)
    ensures Descends(f, MountMove(h, f, o))
  {
    hide Blkid; hide Mkfs; hide IsMountPoint; hide MountDevice; hide MkdirAll; hide Parse;
  }

  lemma DeleteDescends(h: Host, f: Frame, o: Outcome)
    requires InDelete(f.pc)
    ensures Descends(f, DeleteMove(h, f, o))
  {
    hide StopUnit; hide ResolveUblkId; hide DeleteMinor;
  }

  lemma PublishDescends(h: Host, f: Frame, o: Outcome)
    requires InPublish(f.pc)
    ensures Descends(f, PublishMove(h, f, o))
  {
    hide Stat; hide IsMountPoint; hide MkdirAll; hide OpenOrCreate; hide BindDevice; hide BindPath;
  }

  lemma UnmountDescends(h: Host, f: Frame, o: Outcome)
    requires !InCreate(f.pc) && !InMount(f.pc) && !InDelete(f.pc) && !InPublish(f.pc)
    ensures Descends(f, UnmountMove(h, f, o))
  {
    hide Stat; hide IsMountPoint; hide UnmountTop; hide AfterRemove;
  }

  lemma ActDescends(h: Host, f: Frame, o: Outcome)
    ensures Descends(f, Act(h, f, o))
  {
    hide Descends;
    if InCreate(f.pc) { CreateDescends(h, f, o); }
    else if InMount(f.pc) { MountDescends(h, f, o); }
    else if InDelete(f.pc) { DeleteDescends(h, f, o); }
    else if InPublish(f.pc) { PublishDescends(h, f, o); }
    else { UnmountDescends(h, f, o); }
    hide CreateMove; hide MountMove; hide DeleteMove; hide PublishMove; hide UnmountMove;
  }

  /** How many of the events are steps of v's call. */
  function OwnSteps(es: seq<Event>, v: VolId): nat {
    if es == [] then 0 else (if es[0].Op? && es[0].vol == v then 1 else 0) + OwnSteps(es[1..], v)
  }

  predicate NoBegin(es: seq<Event>, v: VolId) {
    forall i | 0 <= i < |es| :: es[i].Begin? ==> es[i].req.vol != v
  }

  /** No call can be kept from ending: after as many steps of its own as its rank, plus one, it has
      been answered, whatever their outcomes and whatever else happens. */
  lemma {:induction false} CallsEnd(s: State, es: seq<Event>, v: VolId)
    requires NoBegin(es, v) && (v in s.frames ==> OwnSteps(es, v) > Rank(s.frames[v].pc))
    ensures v !in Run(s, es).frames
    decreases |es|
  {
    if es != [] {
      var e, t := es[0], Step(s, es[0]);
      if e.Op? {
        if e.vol in s.frames { ActDescends(s.host, s.frames[e.vol], e.o); }
        hide Act;
      } else {
        OtherEvents(s, e);
        hide Step; hide Enter;
      }
      hide Rank; hide Run;
      CallsEnd(t, es[1..], v);
      assert Run(s, es) == Run(t, es[1..]) by { RunConcat(s, [e], es[1..]); assert [e] + es[1..] == es; RunOne(s, e); }
    }
  }

  lemma {:induction false} RunOne(s: State, e: Event)
    ensures Run(s, [e]) == Step(s, e)
  {
    hide Step;
    assert [e][1..] == [];
  }

  // Delivering a call again

  /** The call's effect is there. */
  predicate InPlace(s: State, req: Request) {
    var v, layers := req.vol, Layers(s.host, req.target);
    match req.call
    case Stage => Staged(s, v)
    case Unstage => v !in s.volMap
    case Publish =>
      && v in s.volMap && s.volMap[v].targetPath == req.target
      && layers != [] && layers[|layers| - 1].Raw? == req.IsBlock()
    case Unpublish =>
      && layers == []
      && (v in s.volMap ==> s.volMap[v].targetPath == NO_PATH && KindOf(s.host, req.target) == Absent)
  }

  /** Steps of v's call, in order, whatever their outcomes. */
  predicate OwnOps(es: seq<Event>, v: VolId) {
    forall i | 0 <= i < |es| :: es[i].Op? && es[i].vol == v
  }

  /** None of the steps of v's calls fails. */
  predicate AllOwnOk(es: seq<Event>, v: VolId) {
    forall i | 0 <= i < |es| && es[i].Op? && es[i].vol == v :: es[i].o.ok
  }

  predicate ValidRequest(req: Request) {
    && req.vol.text != ""
    && (!req.call.Unpublish? ==> req.staging.text != "")
    && (req.call.Publish? || req.call.Unpublish? ==> req.target.text != "")
    && (req.call.Stage? ==> req.cap.Some? && Decimal.ParseInt64(req.size).Some?)
  }

  /** Same host and map; only responses were given and calls begun. */
  predicate SameGround(s: State, t: State) {
    s.host == t.host && s.volMap == t.volMap && s.suspect == t.suspect
  }

  /** How far a repeated call gets. */
  predicate Repeats(h: Host, req: Request, f: Frame) {
    && f.req == req
    && match req.call
       case Publish =>
         && InPublish(f.pc) && !f.pc.BindTarget?
         && (if req.IsBlock() then !f.pc.MkdirTarget? else f.pc.MkdirTarget? || f.pc.CheckTarget? || f.pc.RecordTarget?)
       case Unpublish =>
         || f.pc == UmStat(UnpublishUnmount)
         || (f.pc == UmCheck(UnpublishUnmount) && !f.known && KindOf(h, req.target) != Absent)
         || (f.known && (f.pc.StatMode? || f.pc == RemovePath(UnpublishCleanup) || f.pc.ClearTarget?))
       case _ => false
  }

  predicate MoveRepeats(b: State, req: Request, f: Frame, o: Outcome, m: Move) {
    && m.host == b.host && m.doubt.NoChange?
    && (m.next.Go? ==> Repeats(b.host, req, f.(pc := m.next.pc)))
    && (m.next.Done? ==> Written(b.volMap, req.vol, m.next.write) == b.volMap && (o.ok ==> m.next.code == OK))
  }

  lemma RepeatedPublishMove(b: State, req: Request, f: Frame, o: Outcome)
    requires req.call.Publish? && InPlace(b, req) && Repeats(b.host, req, f)
    ensures MoveRepeats(b, req, f, o, Act(b.host, f, o))
  {
    assert b.volMap[req.vol := b.volMap[req.vol].(targetPath := req.target)] == b.volMap;
  }

  lemma RepeatedUnmountMove(b: State, req: Request, f: Frame, o: Outcome)
    requires req.call.Unpublish? && InPlace(b, req) && Repeats(b.host, req, f) && f.known == (req.vol in b.volMap)
    ensures MoveRepeats(b, req, f, o, UnmountMove(b.host, f, o))
  {
    hide UnmountTop;
    if req.vol in b.volMap {
      assert b.volMap[req.vol := b.volMap[req.vol].(targetPath := NO_PATH)] == b.volMap;
    }
  }

  lemma RepeatedUnpublishMove(b: State, req: Request, f: Frame, o: Outcome)
    requires req.call.Unpublish? && InPlace(b, req) && Repeats(b.host, req, f) && f.known == (req.vol in b.volMap)
    ensures MoveRepeats(b, req, f, o, Act(b.host, f, o))
  {
    hide UnmountMove; hide MoveRepeats; hide InPlace; hide CreateMove; hide MountMove; hide DeleteMove; hide PublishMove;
    RepeatedUnmountMove(b, req, f, o);
  }

  lemma RepeatsCalls(h: Host, req: Request, f: Frame)
    requires Repeats(h, req, f)
    ensures req.call.Publish? || req.call.Unpublish?
  {
  }

  lemma RepeatedMove(b: State, req: Request, f: Frame, o: Outcome)
    requires InPlace(b, req) && Repeats(b.host, req, f) && f.known == (req.vol in b.volMap)
    ensures MoveRepeats(b, req, f, o, Act(b.host, f, o))
  {
    hide InPlace; hide Repeats; hide MoveRepeats; hide Act;
    RepeatsCalls(b.host, req, f);
    if req.call.Publish? { RepeatedPublishMove(b, req, f, o); } else { RepeatedUnpublishMove(b, req, f, o); }
  }

  /** The second list is the first with more successes. */
  predicate MoreOks(cs: seq<Code>, ds: seq<Code>) {
    |ds| <= |cs| && cs[..|ds|] == ds && forall i | |ds| <= i < |cs| :: cs[i].OK?
  }

  /** The states differ at most in the call in flight for v and the responses to v; t has none. */
  predicate SameElsewhere(s: State, t: State, v: VolId) {
    SameGround(s, t) && v !in t.frames && s.frames - {v} == t.frames && s.replies - {v} == t.replies - {v}
  }

  /** s is t, in which the call's effect is in place, but for a repetition of it that may be in flight
      and for the responses to repetitions, which are all successes if clean. */
  predicate Shadows(s: State, t: State, req: Request, clean: bool) {
    var v := req.vol;
    && SameElsewhere(s, t, v) && InPlace(t, req)
    && (v in s.frames ==> Repeats(s.host, req, s.frames[v]) && s.frames[v].known == (v in s.volMap))
    && (clean ==> MoreOks(Replies(s, v), Replies(t, v)))
  }

  lemma ShadowsCommit(s: State, t: State, req: Request, o: Outcome, m: Move, clean: bool)
    requires Shadows(s, t, req, clean) && (clean ==> o.ok) && req.vol in s.frames
    requires MoveRepeats(s, req, s.frames[req.vol], o, m)
    ensures Shadows(Commit(s, req.vol, m), t, req, clean)
  {
    hide Repeats; hide Written; hide InPlace;
    var v, u := req.vol, Commit(s, req.vol, m);
    assert u.frames - {v} == s.frames - {v} && u.replies - {v} == s.replies - {v};
    if m.next.Done? {
      assert Replies(u, v) == Replies(s, v) + [m.next.code];
      assert clean ==> (Replies(s, v) + [m.next.code])[..|Replies(t, v)|] == Replies(s, v)[..|Replies(t, v)|];
    }
  }

  lemma ShadowsOp(s: State, t: State, req: Request, o: Outcome, clean: bool)
    requires Shadows(s, t, req, clean) && (clean ==> o.ok)
    ensures Shadows(Step(s, Op(req.vol, o)), t, req, clean)
  {
    hide Act; hide Repeats; hide MoveRepeats; hide MoreOks;
    if req.vol in s.frames {
      assert InPlace(s, req) by { InPlaceOnGround(t, s, req); }
      RepeatedMove(s, req, s.frames[req.vol], o);
      hide InPlace;
      ShadowsCommit(s, t, req, o, Act(s.host, s.frames[req.vol], o), clean);
    }
  }

  lemma InPlaceOnGround(s: State, t: State, req: Request)
    requires SameGround(s, t) && InPlace(s, req)
    ensures InPlace(t, req)
  {
  }

  lemma RepeatEnters(t: State, req: Request)
    requires ValidRequest(req) && InPlace(t, req)
    ensures match Enter(EntryOf(t, req.vol), req)
      case Refuse(c) => c == OK
      case Admit(f) => Repeats(t.host, req, f) && f.known == (req.vol in t.volMap)
  {
    hide Decimal.ParseInt64;
  }

  lemma ShadowsBegin(s: State, t: State, req: Request, clean: bool)
    requires Shadows(s, t, req, clean) && ValidRequest(req)
    ensures Shadows(Step(s, Begin(req)), t, req, clean)
  {
    hide Enter; hide InPlace; hide Repeats; hide ValidRequest; hide Act; hide Reborn;
    RepeatEnters(t, req);
    var v, u := req.vol, Step(s, Begin(req));
    assert u.frames - {v} == s.frames - {v} && u.replies - {v} == s.replies - {v};
    if v !in s.frames && Enter(EntryOf(s, v), req).Refuse? {
      assert Replies(u, v) == Replies(s, v) + [OK];
      assert clean ==> (Replies(s, v) + [OK])[..|Replies(t, v)|] == Replies(s, v)[..|Replies(t, v)|];
    }
  }

  lemma MapsAgree<K, T>(m: map<K, T>, n: map<K, T>, v: K, w: K)
    requires m - {v} == n - {v} && w != v
    ensures (w in m <==> w in n) && (w in m ==> m[w] == n[w])
    ensures m - {w} - {v} == n - {w} - {v}
  {
    assert w in m - {v} <==> w in n - {v};
    assert w in m ==> (m - {v})[w] == m[w];
    assert w in n ==> (n - {v})[w] == n[w];
    assert m - {w} - {v} == m - {v} - {w};
    assert n - {w} - {v} == n - {v} - {w};
  }

  lemma UpdatesAgree<K, T>(m: map<K, T>, n: map<K, T>, v: K, w: K, x: T)
    requires m - {v} == n - {v} && w != v
    ensures m[w := x] - {v} == n[w := x] - {v}
  {
    assert m[w := x] - {v} == (m - {v})[w := x];
    assert n[w := x] - {v} == (n - {v})[w := x];
  }

  lemma CommitElsewhere(s: State, t: State, v: VolId, w: VolId, m: Move)
    requires SameElsewhere(s, t, v) && w != v && w in s.frames && w in t.frames
    ensures SameElsewhere(Commit(s, w, m), Commit(t, w, m), v)
  {
    hide Written; hide Doubted;
    assert t.frames == t.frames - {v};
    MapsAgree(s.frames, t.frames, v, w);
    MapsAgree(s.replies, t.replies, v, w);
    if m.next.Go? {
      UpdatesAgree(s.frames, t.frames, v, w, s.frames[w].(pc := m.next.pc));
    } else {
      UpdatesAgree(s.replies, t.replies, v, w, Replies(s, w) + [m.next.code]);
      assert t.frames - {w} == t.frames - {w} - {v};
    }
  }

  lemma OpenElsewhere(s: State, t: State, v: VolId, w: VolId, e: Entrance)
    requires SameElsewhere(s, t, v) && w != v
    ensures SameElsewhere(Open(s, w, e), Open(t, w, e), v)
  {
    MapsAgree(s.replies, t.replies, v, w);
    assert t.frames == t.frames - {v};
    if e.Refuse? {
      UpdatesAgree(s.replies, t.replies, v, w, Replies(s, w) + [e.code]);
    } else {
      UpdatesAgree(s.frames, t.frames, v, w, e.frame);
      assert t.frames[w := e.frame] == t.frames[w := e.frame] - {v};
    }
  }

  /** What is foreign to v happens in the same way whether or not a repetition is in flight. */
  lemma SameForeignStep(s: State, t: State, e: Event, v: VolId)
    requires SameElsewhere(s, t, v) && Foreign(e, v) && (v in s.frames ==> !s.frames[v].pc.StopAfterWait?)
    ensures SameElsewhere(Step(s, e), Step(t, e), v)
  {
    hide Act; hide Enter; hide DeviceUp; hide LinkDown; hide DaemonGone; hide Commit; hide Open; hide Recover;
    assert t.frames == t.frames - {v};
    if VolOf(e) != v {
      MapsAgree(s.frames, t.frames, v, VolOf(e));
    }
    match e
    case Begin(req) =>
      if req.vol !in s.frames { OpenElsewhere(s, t, v, req.vol, Enter(EntryOf(s, req.vol), req)); }
    case Op(w, o) =>
      if w in s.frames { CommitElsewhere(s, t, v, w, Act(s.host, s.frames[w], o)); }
    case _ =>
  }

  lemma InPlaceUndisturbed(owner: Owner, s: State, t: State, req: Request)
    requires Undisturbed(owner, s, t, req.vol) && OwnedRequest(owner, req) && InPlace(s, req)
    ensures InPlace(t, req)
  {
    assert EntryOf(s, req.vol) == EntryOf(t, req.vol);
  }

  lemma RepeatsUndisturbed(owner: Owner, s: State, t: State, req: Request, f: Frame)
    requires Undisturbed(owner, s, t, req.vol) && OwnedRequest(owner, req) && Repeats(s.host, req, f)
    ensures Repeats(t.host, req, f) && !f.pc.StopAfterWait?
  {
  }

  lemma ShadowsForeign(owner: Owner, s: State, t: State, req: Request, e: Event, clean: bool)
    requires Inv(owner, t) && OwnedRequest(owner, req) && OwnedEvent(owner, e) && Foreign(e, req.vol)
    requires Shadows(s, t, req, clean)
    ensures Shadows(Step(s, e), Step(t, e), req, clean)
  {
    hide Step; hide Inv; hide InPlace; hide Repeats; hide MoreOks; hide OwnedRequest; hide SamePathView;
    var v := req.vol;
    ForeignKeeps(owner, t, e, v);
    OtherFrames(s, e, v);
    InPlaceUndisturbed(owner, t, Step(t, e), req);
    if v in s.frames { RepeatsUndisturbed(owner, t, Step(t, e), req, s.frames[v]); }
    SameForeignStep(s, t, e, v);
    assert EntryOf(Step(s, e), v) == EntryOf(s, v);
  }

  /** The only calls for v are repetitions of req. */
  predicate OnlyRepeats(es: seq<Event>, req: Request) {
    forall i | 0 <= i < |es| :: !es[i].Restart? && (es[i].Begin? && es[i].req.vol == req.vol ==> es[i].req == req)
  }

  /** The events without the calls of v and their steps. */
  function Others(es: seq<Event>, v: VolId): seq<Event> {
    if es == [] then [] else (if Foreign(es[0], v) then [es[0]] else []) + Others(es[1..], v)
  }

  lemma {:induction false} ShadowsRun(owner: Owner, s: State, t: State, req: Request, es: seq<Event>, clean: bool)
    requires Inv(owner, t) && OwnedRequest(owner, req) && OwnedEvents(owner, es) && OnlyRepeats(es, req) && ValidRequest(req)
    requires Shadows(s, t, req, clean) && (clean ==> AllOwnOk(es, req.vol))
    ensures Shadows(Run(s, es), Run(t, Others(es, req.vol)), req, clean)
    decreases |es|
  {
    hide Step; hide Inv; hide Shadows; hide ValidRequest; hide OwnedRequest;
    if es != [] {
      var e, v, rest := es[0], req.vol, Others(es[1..], req.vol);
      if Foreign(e, v) {
        ShadowsForeign(owner, s, t, req, e, clean);
        InvStep(owner, t, e);
        assert ([e] + rest)[1..] == rest;
        ShadowsRun(owner, Step(s, e), Step(t, e), req, es[1..], clean);
      } else {
        assert [] + rest == rest;
        if e.Op? { ShadowsOp(s, t, req, e.o, clean); } else { ShadowsBegin(s, t, req, clean); }
        ShadowsRun(owner, Step(s, e), t, req, es[1..], clean);
      }
    }
  }

  lemma ShadowsItself(b: State, req: Request, clean: bool)
    requires req.vol !in b.frames && InPlace(b, req)
    ensures Shadows(b, b, req, clean)
  {
    hide InPlace;
    assert b.frames - {req.vol} == b.frames;
  }

  /** Delivering a call again when its effect is in place, once or more often, with any outcomes, and
      with anything that other volumes and the host do in between: host, map, the calls in flight for
      other volumes and their responses are at the end as if only the latter had happened.  If none of
      the repeated steps fails, every repetition is answered with success. */
  lemma {:induction false} RedeliveryChangesNothing(owner: Owner, b: State, req: Request, es: seq<Event>)
    requires Inv(owner, b) && OwnedRequest(owner, req) && OwnedEvents(owner, es) && OnlyRepeats(es, req)
    requires req.vol !in b.frames && ValidRequest(req) && InPlace(b, req)
    ensures var t, u := Run(b, es), Run(b, Others(es, req.vol));
      && SameGround(t, u) && t.frames - {req.vol} == u.frames && t.replies - {req.vol} == u.replies - {req.vol}
      && (AllOwnOk(es, req.vol) ==> MoreOks(Replies(t, req.vol), Replies(u, req.vol)))
  {
    hide Run; hide Inv; hide InPlace; hide ValidRequest; hide OwnedRequest; hide MoreOks; hide Repeats;
    ShadowsItself(b, req, AllOwnOk(es, req.vol));
    ShadowsRun(owner, b, b, req, es, AllOwnOk(es, req.vol));
  }

  // For unpublishing, that the effect is in place is also necessary

  /** How far an unpublication gets without changing anything although its effect is not in place. */
  predicate Pending(h: Host, f: Frame) {
    var p := f.req.target;
    match f.pc
    case UmStat(at) => at.UnpublishUnmount? || (at.UnpublishCleanup? && f.known && Layers(h, p) == [] && KindOf(h, p) == Dir)
    case UmCheck(at) =>
      || (at.UnpublishUnmount? && (Layers(h, p) != [] || (f.known && KindOf(h, p) != Absent)))
      || (at.UnpublishCleanup? && f.known && Layers(h, p) == [] && KindOf(h, p) == Dir)
    case UmUnmount(at) => at.UnpublishUnmount? && Layers(h, p) != []
    case StatMode => f.known && Layers(h, p) == []
    case RemovePath(at) => at.UnpublishCleanup? && f.known && Layers(h, p) == []
    case ClearTarget => f.known && Layers(h, p) == [] && KindOf(h, p) == Absent
    case _ => false
  }

  predicate MoveChanges(b: State, f: Frame, m: Move) {
    m.host != b.host || (m.next.Done? && Written(b.volMap, f.req.vol, m.next.write) != b.volMap)
  }

  lemma PendingMove(b: State, f: Frame)
    requires f.req.call.Unpublish? && f.known == (f.req.vol in b.volMap) && Pending(b.host, f) && !InPlace(b, f.req)
    ensures var m := UnmountMove(b.host, f, SUCCESS);
      MoveChanges(b, f, m) || (m.next.Go? && Pending(b.host, f.(pc := m.next.pc)))
  {
    var p, m := f.req.target, UnmountMove(b.host, f, SUCCESS);
    if f.pc.UmUnmount? {
      assert Layers(m.host, p) != Layers(b.host, p);
    } else if f.pc.RemovePath? && KindOf(b.host, p) != Absent {
      assert KindOf(m.host, p) != KindOf(b.host, p);
    } else if f.pc.ClearTarget? {
      assert Written(b.volMap, f.req.vol, m.next.write)[f.req.vol] != b.volMap[f.req.vol];
    }
  }

  lemma {:induction false} PendingChanges(b: State, s: State, req: Request)
    requires req.call.Unpublish? && !InPlace(b, req) && SameGround(b, s) && req.vol in s.frames
    requires var f := s.frames[req.vol]; f.req == req && f.known == (req.vol in b.volMap) && Pending(b.host, f)
    ensures exists es :: OwnOps(es, req.vol) && !SameGround(b, Run(s, es))
    decreases Rank(s.frames[req.vol].pc)
  {
    hide InPlace; hide UnmountMove; hide Rank; hide CreateMove; hide MountMove; hide DeleteMove; hide PublishMove;
    var f, op := s.frames[req.vol], Op(req.vol, SUCCESS);
    var t := Step(s, op);
    PendingMove(b, f);
    ActDescends(s.host, f, SUCCESS);
    assert Act(s.host, f, SUCCESS) == UnmountMove(b.host, f, SUCCESS);
    RunOne(s, op);
    if SameGround(b, t) {
      PendingChanges(b, t, req);
      var es :| OwnOps(es, req.vol) && !SameGround(b, Run(t, es));
      RunConcat(s, [op], es);
      assert OwnOps([op] + es, req.vol) && !SameGround(b, Run(s, [op] + es));
    } else {
      assert OwnOps([op], req.vol);
    }
  }

  /** NodeUnpublishVolume answers with success even if it could not remove the target; delivering it
      again is then not without effect.  It is, whatever its steps report, if and only if nothing is
      mounted at the target and, for a volume that the map has, the target is gone and no longer
      recorded. */
  lemma {:induction false} UnpublishRepeatsExactly(owner: Owner, b: State, req: Request)
    requires Inv(owner, b) && OwnedRequest(owner, req)
    requires req.call.Unpublish? && req.vol !in b.frames && ValidRequest(req)
    ensures InPlace(b, req) <==>
      forall es | OwnedEvents(owner, es) && OnlyRepeats(es, req) :: SameGround(Run(b, es), Run(b, Others(es, req.vol)))
  {
    hide Run; hide Inv; hide InPlace; hide Others; hide SameGround; hide OwnedRequest; hide ValidRequest;
    if InPlace(b, req) {
      forall es | OwnedEvents(owner, es) && OnlyRepeats(es, req)
        ensures SameGround(Run(b, es), Run(b, Others(es, req.vol)))
      {
        RedeliveryChangesNothing(owner, b, req, es);
      }
    } else {
      RepeatingChanges(owner, b, req);
    }
  }

  lemma {:induction false} RepeatingChanges(owner: Owner, b: State, req: Request)
    requires OwnedRequest(owner, req) && req.call.Unpublish? && req.vol !in b.frames && ValidRequest(req) && !InPlace(b, req)
    ensures exists es ::
      OwnedEvents(owner, es) && OnlyRepeats(es, req) && !SameGround(Run(b, es), Run(b, Others(es, req.vol)))
  {
    hide InPlace; hide OwnedRequest; hide Enter; hide Act; hide Run;
    var s, v := Step(b, Begin(req)), req.vol;
    UnpublishIsPending(b, req);
    PendingChanges(b, s, req);
    var es :| OwnOps(es, v) && !SameGround(b, Run(s, es));
    var all := [Begin(req)] + es;
    RunConcat(b, [Begin(req)], es);
    RunOne(b, Begin(req));
    NoOthers(all, v);
    assert OwnedEvents(owner, all) && OnlyRepeats(all, req);
    assert Run(b, []) == b by { RunNone(b); }
  }

  lemma {:induction false} RunNone(s: State)
    ensures Run(s, []) == s
  {
    hide Step;
  }

  lemma UnpublishIsPending(b: State, req: Request)
    requires req.call.Unpublish? && req.vol !in b.frames && ValidRequest(req)
    ensures var s := Step(b, Begin(req)); SameGround(b, s) && req.vol in s.frames
    ensures var f := Step(b, Begin(req)).frames[req.vol];
      f.req == req && f.known == (req.vol in b.volMap) && Pending(b.host, f)
  {
  }

  lemma {:induction false} NoOthers(es: seq<Event>, v: VolId)
    requires forall i | 0 <= i < |es| :: !Foreign(es[i], v)
    ensures Others(es, v) == []
    decreases |es|
  {
    if es != [] {
      NoOthers(es[1..], v);
    }
  }

  // A first delivery that succeeds puts the effect in place

  function Top(h: Host, p: Path): Option<Layer> {
    if Layers(h, p) == [] then None else Some(Layers(h, p)[|Layers(h, p)| - 1])
  }

  predicate RawTop(h: Host, p: Path, raw: bool) {
    Top(h, p).Some? ==> Top(h, p).value.Raw? == raw
  }

  /** What a call relies on at each step on its way to success. */
  predicate OnTheWay(h: Host, f: Frame) {
    var p, block := f.req.target, f.req.IsBlock();
    match f.req.call
    case Publish =>
      && InPublish(f.pc)
      && (block ==> !f.pc.MkdirTarget?)
      && (!block ==>
            && !f.pc.MkdirParent? && !f.pc.OpenTarget? && !f.pc.StatTarget?
            && RawTop(h, f.req.staging, false) && f.req.staging != p)
      && (f.pc.StatTarget? || f.pc.CheckTarget? || f.pc.RecordTarget? ==> RawTop(h, p, block))
      && (f.pc.BindTarget? ==> Layers(h, p) == [])
      && (f.pc.RecordTarget? ==> Layers(h, p) != [])
    case Unpublish =>
      && PcOk(f.req.call, f.pc)
      && |Layers(h, p)| <= 1
      && (f.pc.StatMode? || f.pc.ClearTarget? || f.pc.RemovePath?
          || ((f.pc.UmStat? || f.pc.UmCheck? || f.pc.UmUnmount?) && f.pc.at.UnpublishCleanup?) ==>
            f.known && Layers(h, p) == [])
      && f.pc != UmUnmount(UnpublishCleanup)
      && (f.pc.ClearTarget? ==> KindOf(h, p) == Absent)
    case _ => PcOk(f.req.call, f.pc) && DevOk(f)
  }

  /** What a move to success leaves. */
  predicate SuccessLeaves(req: Request, known: bool, m: Move)
    requires m.next.Done?
  {
    match req.call
    case Stage => m.next.write.Put? && m.next.write.entry.ublkPath != NoDevPath
    case Unstage => m.next.write.Drop?
    case Publish => m.next.write == SetTarget(req.target) && Top(m.host, req.target).Some? && RawTop(m.host, req.target, req.IsBlock())
    case Unpublish =>
      && Layers(m.host, req.target) == []
      && (known ==> m.next.write == SetTarget(NO_PATH) && KindOf(m.host, req.target) == Absent)
      && (!known ==> m.next.write.Keep?)
  }

  predicate MoveOnTheWay(f: Frame, m: Move) {
    && (m.next.Go? ==> OnTheWay(m.host, f.(pc := m.next.pc)))
    && (m.next.Done? && m.next.code == OK ==> SuccessLeaves(f.req, f.known, m))
  }

  lemma BindOnTheWay(h: Host, f: Frame, o: Outcome)
    requires f.req.call.Publish? && OnTheWay(h, f) && f.pc.BindTarget?
    ensures MoveOnTheWay(f, PublishMove(h, f, o))
  {
    hide Backing;
  }

  lemma CreationOnTheWay(h: Host, f: Frame, o: Outcome)
    requires f.req.call.Publish? && OnTheWay(h, f) && (f.pc.OpenTarget? || f.pc.MkdirTarget?)
    ensures MoveOnTheWay(f, PublishMove(h, f, o))
  {
    hide IsMountPoint; hide BindDevice; hide BindPath;
  }

  lemma CheckOnTheWay(h: Host, f: Frame, o: Outcome)
    requires f.req.call.Publish? && OnTheWay(h, f) && !f.pc.BindTarget? && !f.pc.OpenTarget? && !f.pc.MkdirTarget?
    ensures MoveOnTheWay(f, PublishMove(h, f, o))
  {
    hide BindDevice; hide BindPath; hide OpenOrCreate; hide MkdirAll;
  }

  lemma PublishOnTheWay(h: Host, f: Frame, o: Outcome)
    requires f.req.call.Publish? && OnTheWay(h, f)
    ensures MoveOnTheWay(f, PublishMove(h, f, o))
  {
    hide *;
    if f.pc.BindTarget? { BindOnTheWay(h, f, o); }
    else if f.pc.OpenTarget? || f.pc.MkdirTarget? { CreationOnTheWay(h, f, o); }
    else { CheckOnTheWay(h, f, o); }
  }

  lemma UnpublishOnTheWay(h: Host, f: Frame, o: Outcome)
    requires f.req.call.Unpublish? && OnTheWay(h, f) && o.ok
    ensures MoveOnTheWay(f, UnmountMove(h, f, o))
  {
    hide Top; hide RawTop;
  }

  lemma StagingOnTheWay(h: Host, f: Frame, o: Outcome)
    requires (f.req.call.Stage? || f.req.call.Unstage?) && OnTheWay(h, f)
    ensures MoveOnTheWay(f, Act(h, f, o))
  {
    ActStaysInCall(h, f, o);
    hide StartUnit; hide StopUnit; hide ResolveUblkId; hide DeleteMinor; hide IsMountPoint; hide Blkid; hide Mkfs;
    hide MountDevice; hide MkdirAll; hide Parse; hide UnmountTop; hide Stat; hide AfterRemove;
  }

  ghost predicate Delivering(b: State, s: State, req: Request) {
    var v := req.vol;
    if v in s.frames then
      && OnTheWay(s.host, s.frames[v]) && s.frames[v].req == req && Replies(s, v) == Replies(b, v)
      && s.frames[v].known == (v in s.volMap) && (req.call.Publish? ==> v in s.volMap) && ValidRequest(req)
    else
      exists c :: Replies(s, v) == Replies(b, v) + [c] && (c == OK ==> InPlace(s, req) && ValidRequest(req))
  }

  lemma DeliveringCommit(b: State, s: State, req: Request, m: Move)
    requires Delivering(b, s, req) && req.vol in s.frames && MoveOnTheWay(s.frames[req.vol], m)
    requires m.next.Done? && m.next.write.Put? ==> m.next.code == OK
    requires m.next.Done? && m.next.write.Drop? ==> m.next.code == OK
    ensures Delivering(b, Commit(s, req.vol, m), req)
  {
    hide OnTheWay; hide ValidRequest;
    var t := Commit(s, req.vol, m);
    if m.next.Done? {
      assert Replies(t, req.vol) == Replies(b, req.vol) + [m.next.code];
    }
  }

  lemma WritesWithSuccess(h: Host, f: Frame, o: Outcome)
    ensures var m := Act(h, f, o); m.next.Done? && !m.next.write.Keep? ==> m.next.code == OK
  {
    hide StartUnit; hide StopUnit; hide ResolveUblkId; hide DeleteMinor; hide Blkid; hide Mkfs; hide IsMountPoint;
    hide MountDevice; hide BindDevice; hide BindPath; hide UnmountTop; hide Stat; hide MkdirAll; hide OpenOrCreate;
    hide Remove; hide AfterRemove; hide Parse;
  }

  lemma DeliveringStep(b: State, s: State, req: Request, o: Outcome)
    requires Delivering(b, s, req) && (req.call.Unpublish? ==> o.ok)
    ensures Delivering(b, Step(s, Op(req.vol, o)), req)
  {
    if req.vol in s.frames {
      var f := s.frames[req.vol];
      WritesWithSuccess(s.host, f, o);
      if req.call.Publish? {
        PublishOnTheWay(s.host, f, o);
        assert Act(s.host, f, o) == PublishMove(s.host, f, o) by { hide PublishMove; }
      } else if req.call.Unpublish? {
        UnpublishOnTheWay(s.host, f, o);
        assert Act(s.host, f, o) == UnmountMove(s.host, f, o) by { hide UnmountMove; }
      } else {
        StagingOnTheWay(s.host, f, o);
      }
      hide Act; hide MoveOnTheWay; hide OnTheWay;
      DeliveringCommit(b, s, req, Act(s.host, f, o));
      hide Delivering;
    }
  }

  lemma OnTheWayUndisturbed(owner: Owner, h: Host, k: Host, f: Frame)
    requires SamePathView(owner, h, k, f.req.vol) && OwnedRequest(owner, f.req) && OnTheWay(h, f)
    ensures OnTheWay(k, f)
  {
  }

  lemma DeliveringForeign(owner: Owner, b: State, s: State, req: Request, e: Event)
    requires Inv(owner, s) && OwnedRequest(owner, req) && OwnedEvent(owner, e) && Foreign(e, req.vol)
    requires Delivering(b, s, req)
    ensures Delivering(b, Step(s, e), req)
  {
    hide Step; hide Inv; hide OnTheWay; hide InPlace; hide ValidRequest; hide OwnedRequest; hide SamePathView;
    var v, t := req.vol, Step(s, e);
    ForeignKeeps(owner, s, e, v);
    assert EntryOf(t, v) == EntryOf(s, v);
    if v in s.frames {
      OnTheWayUndisturbed(owner, s.host, t.host, s.frames[v]);
    } else {
      var c :| Replies(s, v) == Replies(b, v) + [c] && (c == OK ==> InPlace(s, req) && ValidRequest(req));
      if c == OK { InPlaceUndisturbed(owner, s, t, req); }
      assert Replies(t, v) == Replies(b, v) + [c];
    }
  }

  lemma {:induction false} DeliveringRun(owner: Owner, b: State, s: State, req: Request, es: seq<Event>)
    requires Inv(owner, s) && OwnedRequest(owner, req) && OwnedEvents(owner, es) && NoNewCalls(es, req.vol)
    requires Delivering(b, s, req) && (req.call.Unpublish? ==> AllOwnOk(es, req.vol))
    ensures Delivering(b, Run(s, es), req)
    decreases |es|
  {
    hide Step; hide Delivering; hide Inv; hide OwnedRequest;
    if es != [] {
      InvStep(owner, s, es[0]);
      if Foreign(es[0], req.vol) {
        DeliveringForeign(owner, b, s, req, es[0]);
      } else {
        DeliveringStep(b, s, req, es[0].o);
      }
      DeliveringRun(owner, b, Step(s, es[0]), req, es[1..]);
    }
  }

  /** What a first delivery asks of the host: nothing for staging and unstaging; for publishing,
      that the staging path shows no raw device; for unpublishing, no stacked mounts. */
  predicate Deliverable(s: State, req: Request) {
    && (req.call.Publish? && !req.IsBlock() ==> RawTop(s.host, req.staging, false) && req.staging != req.target)
    && (req.call.Unpublish? ==> |Layers(s.host, req.target)| <= 1)
  }

  /** A call that is let in is valid and on the way; one that is answered at once with success is
      valid and finds its effect in place. */
  lemma EnterOnTheWay(b: State, req: Request)
    requires Deliverable(b, req) && MapOk(b.volMap)
    ensures match Enter(EntryOf(b, req.vol), req)
      case Refuse(c) => c == OK ==> InPlace(b, req) && ValidRequest(req)
      case Admit(f) =>
        && OnTheWay(b.host, f) && f.req == req && f.known == (req.vol in b.volMap)
        && (req.call.Publish? ==> f.known) && ValidRequest(req)
  {
    hide Decimal.ParseInt64; hide Parse; hide RawTop;
    assert req.vol in b.volMap ==> EntryOk(req.vol, b.volMap[req.vol]);
  }

  lemma DeliveryBegins(b: State, req: Request)
    requires req.vol !in b.frames && Deliverable(b, req) && MapOk(b.volMap)
    ensures Delivering(b, Step(b, Begin(req)), req)
  {
    hide Enter; hide OnTheWay; hide Act; hide Reborn; hide Disturb; hide Commit; hide MapOk; hide Deliverable;
    hide ValidRequest;
    EnterOnTheWay(b, req);
    var s := Step(b, Begin(req));
    if Enter(EntryOf(b, req.vol), req).Refuse? {
      var c := Enter(EntryOf(b, req.vol), req).code;
      assert Replies(s, req.vol) == Replies(b, req.vol) + [c];
      assert InPlace(b, req) ==> InPlace(s, req);
    }
  }

  /** A call that is answered with success has put its effect in place, whatever else happened while
      it was in flight; for unpublishing, provided none of its steps failed, since it answers so even
      if it could not remove the target. */
  lemma {:induction false} SuccessPutsInPlace(owner: Owner, b: State, req: Request, es: seq<Event>)
    requires Inv(owner, b) && OwnedRequest(owner, req) && OwnedEvents(owner, es) && NoNewCalls(es, req.vol)
    requires req.vol !in b.frames && Deliverable(b, req) && (req.call.Unpublish? ==> AllOwnOk(es, req.vol))
    ensures var t := Run(b, [Begin(req)] + es);
      req.vol !in t.frames && Replies(t, req.vol) == Replies(b, req.vol) + [OK] ==> InPlace(t, req) && ValidRequest(req)
  {
    DeliveryBegins(b, req);
    InvStep(owner, b, Begin(req));
    DeliveringRun(owner, b, Step(b, Begin(req)), req, es);
    assert ([Begin(req)] + es)[1..] == es;
    assert Run(b, [Begin(req)] + es) == Run(Step(b, Begin(req)), es);
    hide Run; hide Step; hide InPlace; hide OnTheWay; hide Parse; hide ValidRequest; hide Inv; hide OwnedRequest;
    var t := Run(b, [Begin(req)] + es);
    if req.vol !in t.frames && Replies(t, req.vol) == Replies(b, req.vol) + [OK] {
      var c :| Replies(t, req.vol) == Replies(b, req.vol) + [c] && (c == OK ==> InPlace(t, req) && ValidRequest(req));
      assert (Replies(b, req.vol) + [c])[|Replies(b, req.vol)|] == c;
    }
  }

  // At-least-once delivery

  /** Same ground and same calls in flight: only the responses so far differ. */
  predicate SameButReplies(s: State, t: State) {
    SameGround(s, t) && s.frames == t.frames
  }

  /** The responses an event gives to calls of v. */
  function Answered(s: State, e: Event, v: VolId): seq<Code> {
    match e
    case Op(w, o) =>
      if w == v && v in s.frames then
        var m := Act(s.host, s.frames[v], o);
        if m.next.Done? then [m.next.code] else []
      else []
    case Begin(req) =>
      if req.vol == v && v !in s.frames then
        var entered := Enter(EntryOf(s, v), req);
        if entered.Refuse? then [entered.code] else []
      else []
    case _ => []
  }

  function AnsweredBy(s: State, es: seq<Event>, v: VolId): seq<Code>
    decreases |es|
  {
    if es == [] then [] else Answered(s, es[0], v) + AnsweredBy(Step(s, es[0]), es[1..], v)
  }

  /** The replies of a run are what its events answer. */
  lemma StepAnswers(s: State, e: Event, v: VolId)
    ensures Replies(Step(s, e), v) == Replies(s, v) + Answered(s, e, v)
  {
    hide Act; hide Enter; hide Recover; hide DeviceUp; hide LinkDown; hide DaemonGone; hide Written; hide Doubted;
    assert Replies(s, v) + [] == Replies(s, v);
  }

  lemma {:induction false} RunAnswers(s: State, es: seq<Event>, v: VolId)
    ensures Replies(Run(s, es), v) == Replies(s, v) + AnsweredBy(s, es, v)
    decreases |es|
  {
    hide Step; hide Answered; hide Replies;
    if es == [] {
      assert Replies(s, v) + [] == Replies(s, v);
    } else {
      StepAnswers(s, es[0], v);
      RunAnswers(Step(s, es[0]), es[1..], v);
      assert Replies(s, v) + Answered(s, es[0], v) + AnsweredBy(Step(s, es[0]), es[1..], v)
          == Replies(s, v) + (Answered(s, es[0], v) + AnsweredBy(Step(s, es[0]), es[1..], v));
    }
  }

  lemma SameLaterStep(s: State, t: State, e: Event)
    requires SameButReplies(s, t)
    ensures SameButReplies(Step(s, e), Step(t, e))
  {
    hide Act; hide Enter; hide Recover; hide DeviceUp; hide LinkDown; hide DaemonGone; hide Written; hide Doubted;
  }

  lemma {:induction false} SameLaterRun(s: State, t: State, es: seq<Event>, v: VolId)
    requires SameButReplies(s, t)
    ensures SameButReplies(Run(s, es), Run(t, es)) && AnsweredBy(s, es, v) == AnsweredBy(t, es, v)
    decreases |es|
  {
    if es != [] {
      SameLaterStep(s, t, es[0]);
      assert Answered(s, es[0], v) == Answered(t, es[0], v) by { hide Step; hide Act; hide Enter; }
      hide Step; hide Answered; hide SameButReplies;
      SameLaterRun(Step(s, es[0]), Step(t, es[0]), es[1..], v);
    }
  }

  /** At-least-once delivery, for all four calls, anywhere in a run.  A call is delivered and answered
      with success, whatever else happens while it is in flight.  Then it is delivered any number of
      times more, with any outcomes and again with anything else happening in between.  Host, map,
      calls in flight and the responses to other volumes are then as if it had been delivered only
      once and all else had happened the same, and so is every later response, whatever follows. */
  lemma {:induction false} AtLeastOnce(owner: Owner, b: State, req: Request, es: seq<Event>, ds: seq<Event>, fs: seq<Event>, w: VolId)
    requires Inv(owner, b) && OwnedRequest(owner, req) && OwnedEvents(owner, es) && OwnedEvents(owner, ds)
    requires req.vol !in b.frames && Deliverable(b, req)
    requires NoNewCalls(es, req.vol) && (req.call.Unpublish? ==> AllOwnOk(es, req.vol)) && OnlyRepeats(ds, req)
    requires var once := Run(b, [Begin(req)] + es);
      && req.vol !in once.frames && Replies(once, req.vol) == Replies(b, req.vol) + [OK]
      && req.vol !in Run(once, ds).frames
    ensures var once := Run(b, [Begin(req)] + es);
      var t, u := Run(once, ds), Run(once, Others(ds, req.vol));
      && SameButReplies(t, u) && t.replies - {req.vol} == u.replies - {req.vol}
      && SameButReplies(Run(t, fs), Run(u, fs)) && AnsweredBy(t, fs, w) == AnsweredBy(u, fs, w)
  {
    SuccessPutsInPlace(owner, b, req, es);
    assert OwnedEvents(owner, [Begin(req)] + es);
    InvRun(owner, b, [Begin(req)] + es);
    hide Run; hide InPlace; hide Deliverable; hide Inv; hide ValidRequest; hide OwnedRequest; hide AnsweredBy;
    var once := Run(b, [Begin(req)] + es);
    RedeliveryChangesNothing(owner, once, req, ds);
    var t, u := Run(once, ds), Run(once, Others(ds, req.vol));
    assert t.frames == t.frames - {req.vol};
    SameLaterRun(t, u, fs, w);
  }
}
