/** What unstages and unpublications take from the path they work on: at most two mounts, and then the
    path itself. */
module Cleanup {
  import opened Uuid
  import opened Types
  import opened HostModel
  import opened Machine
  import opened Effects
  import opened Invariant
  import opened Views
  import opened Mounts
  import opened StageSoundness
  import opened Delivery
  import opened Shortfalls
  import opened Answers

  function Below(layers: seq<Layer>): seq<Layer> {
    if layers == [] then [] else layers[..|layers| - 1]
  }

  /** What is at a path: its mounts, and what lies under them. */
  datatype Spot = Spot(layers: seq<Layer>, kind: Kind)
  {
    /** A directory shows, mounted or not. */
    predicate ShowsDir() {
      if layers == [] then kind == Dir else !layers[|layers| - 1].Raw?
    }

    function WithoutTop(): Spot {
      Spot(Below(layers), kind)
    }

    /** A busy path stays. */
    function WithoutPath(): Spot {
      if layers == [] then Spot([], Absent) else this
    }
  }

  function SpotAt(h: Host, p: Path): Spot {
    Spot(Layers(h, p), KindOf(h, p))
  }

  predicate TakesAway(req: Request) {
    req.call.Unstage? || req.call.Unpublish?
  }

  function WorkPath(req: Request): Path {
    if req.call.Unstage? then req.staging else req.target
  }

  /** Whether the cleanup unmounts once more before it removes the path: always in an unstage, and in an
      unpublish if a directory shows. */
  predicate UnmountsTwice(s: Spot, req: Request) {
    req.call.Unstage? || s.WithoutTop().ShowsDir()
  }

  /** What a call of which no step fails leaves at its path: one mount less, if there was one, and unless
      it is an unpublish of a volume that the map does not have, cleaned up. */
  function Cleaned(s: Spot, req: Request, known: bool): Spot {
    if req.call.Unpublish? && !known then s.WithoutTop()
    else (if UnmountsTwice(s, req) then s.WithoutTop().WithoutTop() else s.WithoutTop()).WithoutPath()
  }

  predicate AtFirst(pc: PC) {
    (pc.UmStat? || pc.UmCheck? || pc.UmUnmount?) && (pc.at.UnstageUnmount? || pc.at.UnpublishUnmount?)
  }

  predicate AtCleanup(pc: PC) {
    (pc.UmStat? || pc.UmCheck? || pc.UmUnmount?) && (pc.at.UnstageCleanup? || pc.at.UnpublishCleanup?)
  }

  /** Where a call of which no step has failed stands with its path. */
  predicate Cleans(s: Spot, h: Host, f: Frame) {
    var here := SpotAt(h, WorkPath(f.req));
    && (f.req.call.Unpublish? && !AtFirst(f.pc) ==> f.known)
    && (f.pc.UmUnmount? ==> here.layers != [])
    && (if AtFirst(f.pc) then here == s
        else if AtCleanup(f.pc) then here == s.WithoutTop() && UnmountsTwice(s, f.req)
        else if f.pc.RemovePath? then here == if UnmountsTwice(s, f.req) then s.WithoutTop().WithoutTop() else s.WithoutTop()
        else if f.pc.DropEntry? || f.pc.ClearTarget? then here == Cleaned(s, f.req, f.known)
        else here == s.WithoutTop())
  }

  predicate MoveCleans(s: Spot, f: Frame, m: Move) {
    if m.next.Go? then Cleans(s, m.host, f.(pc := m.next.pc))
    else m.next.code == OK && SpotAt(m.host, WorkPath(f.req)) == Cleaned(s, f.req, f.known)
  }

  lemma FirstUnmountCleans(s: Spot, h: Host, f: Frame, o: Outcome)
    requires TakesAway(f.req) && PcOk(f.req.call, f.pc) && Cleans(s, h, f) && o.ok && AtFirst(f.pc)
    ensures MoveCleans(s, f, UnmountMove(h, f, o))
  {
    hide AfterRemove;
  }

  lemma SecondUnmountCleans(s: Spot, h: Host, f: Frame, o: Outcome)
    requires TakesAway(f.req) && PcOk(f.req.call, f.pc) && Cleans(s, h, f) && o.ok && AtCleanup(f.pc)
    ensures MoveCleans(s, f, UnmountMove(h, f, o))
  {
    hide AfterRemove;
  }

  lemma RemovalCleans(s: Spot, h: Host, f: Frame, o: Outcome)
    requires TakesAway(f.req) && PcOk(f.req.call, f.pc) && Cleans(s, h, f) && o.ok
    requires !AtFirst(f.pc) && !AtCleanup(f.pc) && !InDelete(f.pc)
    ensures MoveCleans(s, f, UnmountMove(h, f, o))
  {
    hide UnmountTop; hide IsMountPoint; hide Below;
  }

  lemma TakesAwayMove(s: Spot, h: Host, f: Frame, o: Outcome)
    requires TakesAway(f.req) && PcOk(f.req.call, f.pc) && Cleans(s, h, f) && o.ok
    ensures MoveCleans(s, f, Act(h, f, o))
  {
    hide MoveCleans; hide UnmountMove; hide CreateMove; hide MountMove; hide PublishMove; hide DeleteMove;
    hide Cleans; hide AtFirst;
    hide AtCleanup;
    if InDelete(f.pc) { DeletionCleans(s, h, f, o); }
    else if AtFirst(f.pc) { FirstUnmountCleans(s, h, f, o); }
    else if AtCleanup(f.pc) { SecondUnmountCleans(s, h, f, o); }
    else { RemovalCleans(s, h, f, o); }
  }

  lemma DeletionCleans(s: Spot, h: Host, f: Frame, o: Outcome)
    requires f.req.call.Unstage? && PcOk(f.req.call, f.pc) && Cleans(s, h, f) && InDelete(f.pc)
    ensures MoveCleans(s, f, DeleteMove(h, f, o))
  {
    hide StopUnit; hide ResolveUblkId; hide DeleteMinor; hide Below;
    DeleteTouches(h, f, o);
  }

  /** The call is in flight at its path. */
  predicate Taking(b: State, s: State, req: Request) {
    req.vol in s.frames && s.frames[req.vol].req == req && Cleans(SpotAt(b.host, WorkPath(req)), s.host, s.frames[req.vol])
  }

  predicate Taken(b: State, t: State, req: Request, known: bool) {
    SpotAt(t.host, WorkPath(req)) == Cleaned(SpotAt(b.host, WorkPath(req)), req, known)
  }

  lemma WorkPathOwned(owner: Owner, req: Request)
    requires OwnedRequest(owner, req) && TakesAway(req)
    ensures owner(WorkPath(req)) == req.vol
  {
  }

  lemma SpotKept(owner: Owner, s: State, e: Event, v: VolId, p: Path)
    requires Inv(owner, s) && OwnedEvent(owner, e) && Foreign(e, v) && owner(p) == v
    ensures SpotAt(Step(s, e).host, p) == SpotAt(s.host, p)
  {
    hide Step; hide Inv; hide Layers; hide KindOf;
    ForeignKeeps(owner, s, e, v);
  }

  lemma TakingForeign(owner: Owner, b: State, s: State, e: Event, req: Request)
    requires Inv(owner, s) && OwnedRequest(owner, req) && OwnedEvent(owner, e) && Foreign(e, req.vol)
    requires TakesAway(req) && Taking(b, s, req)
    ensures var t := Step(s, e); Taking(b, t, req) && t.frames[req.vol] == s.frames[req.vol]
  {
    hide Step; hide Inv; hide OwnedRequest; hide SpotAt; hide Cleaned;
    WorkPathOwned(owner, req);
    SpotKept(owner, s, e, req.vol, WorkPath(req));
    OtherFrames(s, e, req.vol);
  }

  lemma TakingOp(owner: Owner, b: State, s: State, req: Request, o: Outcome)
    requires Inv(owner, s) && TakesAway(req) && Taking(b, s, req) && o.ok
    ensures var v, t := req.vol, Step(s, Op(req.vol, o));
      if v in t.frames then Taking(b, t, req) && t.frames[v].known == s.frames[v].known
      else Taken(b, t, req, s.frames[v].known) && Replies(t, v) == Replies(s, v) + [OK]
  {
    hide Act; hide Cleans; hide Cleaned; hide SpotAt;
    RequestsOwnVolume(owner, s, req.vol);
    TakesAwayMove(SpotAt(b.host, WorkPath(req)), s.host, s.frames[req.vol], o);
    hide Inv;
  }

  lemma {:induction false} SpotStays(owner: Owner, s: State, es: seq<Event>, v: VolId, p: Path)
    requires Inv(owner, s) && OwnedEvents(owner, es) && NoNewCalls(es, v) && v !in s.frames && owner(p) == v
    ensures SpotAt(Run(s, es).host, p) == SpotAt(s.host, p)
    decreases |es|
  {
    hide Inv; hide Step; hide SpotAt;
    if es != [] {
      var e := es[0];
      InvStep(owner, s, e);
      assert NoNewCall(e, v);
      if Foreign(e, v) {
        SpotKept(owner, s, e, v, p);
        OtherFrames(s, e, v);
      } else {
        StepWithoutCall(s, v, e.o);
      }
      SpotStays(owner, Step(s, e), es[1..], v, p);
    }
  }

  lemma {:induction false} TakingRun(owner: Owner, b: State, s: State, req: Request, es: seq<Event>)
    requires Inv(owner, s) && OwnedRequest(owner, req) && OwnedEvents(owner, es) && NoNewCalls(es, req.vol)
    requires TakesAway(req) && Taking(b, s, req) && AllOwnOk(es, req.vol)
    ensures var t := Run(s, es); req.vol !in t.frames ==> Taken(b, t, req, s.frames[req.vol].known)
    decreases |es|
  {
    hide Inv; hide Step; hide Taking; hide SpotAt; hide Cleaned; hide OwnedRequest;
    var v := req.vol;
    assert v in s.frames by { IsTaking(b, s, req); }
    if es != [] {
      var e, t := es[0], Step(s, es[0]);
      InvStep(owner, s, e);
      assert NoNewCall(e, v);
      assert AllOwnOk(es[1..], v) by { assert forall i | 0 <= i < |es[1..]| :: es[1..][i] == es[i + 1]; }
      if Foreign(e, v) {
        TakingForeign(owner, b, s, e, req);
        TakingRun(owner, b, t, req, es[1..]);
      } else {
        TakingOp(owner, b, s, req, e.o);
        if v in t.frames {
          TakingRun(owner, b, t, req, es[1..]);
        } else {
          WorkPathOwned(owner, req);
          SpotStays(owner, t, es[1..], v, WorkPath(req));
        }
      }
    }
  }

  lemma IsTaking(b: State, s: State, req: Request)
    requires Taking(b, s, req)
    ensures req.vol in s.frames
  {
  }

  lemma BeginsTaking(b: State, req: Request)
    requires TakesAway(req) && req.vol !in b.frames && AnswerAtOnce(EntryOf(b, req.vol), req) == None
    ensures var v, s := req.vol, Step(b, Begin(req)); Taking(b, s, req) && s.frames[v].known == (v in b.volMap)
  {
  }

  /** What an unstage or unpublish of which no step fails leaves at its path, whatever was there and
      whatever happens meanwhile. */
  lemma {:induction false} CleansExactly(owner: Owner, b: State, req: Request, es: seq<Event>)
    requires Inv(owner, b) && OwnedRequest(owner, req) && OwnedEvents(owner, es) && NoNewCalls(es, req.vol)
    requires TakesAway(req) && req.vol !in b.frames && AnswerAtOnce(EntryOf(b, req.vol), req) == None && AllOwnOk(es, req.vol)
    ensures var t := Run(b, [Begin(req)] + es); req.vol !in t.frames ==> Taken(b, t, req, req.vol in b.volMap)
  {
    hide Inv; hide Step; hide OwnedRequest; hide AnswerAtOnce; hide Taking; hide SpotAt; hide Cleaned;
    assert ([Begin(req)] + es)[1..] == es;
    InvStep(owner, b, Begin(req));
    BeginsTaking(b, req);
    TakingRun(owner, b, Step(b, Begin(req)), req, es);
  }

  // When the path stays

  /** A step of the cleanup fails after which the path is not removed.  Only a directory is unmounted once
      more before that by an unpublish. */
  predicate KeepsPath(h: Host, f: Frame, o: Outcome) {
    && (f.pc.RemovePath? || (AtCleanup(f.pc) && (f.req.call.Unstage? || KindOf(h, f.req.target) == Dir)))
    && !o.ok
  }

  predicate PathKept(s: State, es: seq<Event>, v: VolId)
    decreases |es|
  {
    es != [] && ((OwnStep(s, es[0], v) && KeepsPath(s.host, s.frames[v], es[0].o)) || PathKept(Step(s, es[0]), es[1..], v))
  }

  predicate AtEnd(pc: PC) {
    pc.DropEntry? || pc.ClearTarget?
  }

  /** A call that started with at most one mount and this kind of path, and has not yet come to an end of
      its cleanup. */
  predicate Cleaning(k: Kind, h: Host, f: Frame) {
    var p := WorkPath(f.req);
    && (f.req.call.Unpublish? ==> f.known)
    && f.pc != UmUnmount(UnstageCleanup) && f.pc != UmUnmount(UnpublishCleanup)
    && (if AtFirst(f.pc) then |Layers(h, p)| <= 1 else Layers(h, p) == [])
    && (AtEnd(f.pc) || KindOf(h, p) == k)
    && (f.req.call.Unpublish? && AtCleanup(f.pc) ==> k == Dir)
  }

  predicate MoveCleaning(k: Kind, h: Host, f: Frame, o: Outcome, m: Move) {
    var p := WorkPath(f.req);
    if m.next.Done? then
      m.next.code == Internal || (m.next.code == OK && AtEnd(f.pc) && KindOf(m.host, p) == KindOf(h, p))
    else
      && Cleaning(k, m.host, f.(pc := m.next.pc)) && !AtEnd(f.pc)
      && (if AtEnd(m.next.pc) then KindOf(m.host, p) == if KeepsPath(h, f, o) then k else Absent else !KeepsPath(h, f, o))
  }

  lemma FirstUnmountCleaning(k: Kind, h: Host, f: Frame, o: Outcome)
    requires TakesAway(f.req) && PcOk(f.req.call, f.pc) && Cleaning(k, h, f) && AtFirst(f.pc)
    ensures MoveCleaning(k, h, f, o, UnmountMove(h, f, o))
  {
    hide AfterRemove; hide Remove;
  }

  lemma CleanupCleaning(k: Kind, h: Host, f: Frame, o: Outcome)
    requires TakesAway(f.req) && PcOk(f.req.call, f.pc) && Cleaning(k, h, f) && !AtFirst(f.pc) && !InDelete(f.pc)
    ensures MoveCleaning(k, h, f, o, UnmountMove(h, f, o))
  {
    hide UnmountTop;
  }

  lemma DeletionCleaning(k: Kind, h: Host, f: Frame, o: Outcome)
    requires f.req.call.Unstage? && PcOk(f.req.call, f.pc) && Cleaning(k, h, f) && InDelete(f.pc)
    ensures MoveCleaning(k, h, f, o, DeleteMove(h, f, o))
  {
    hide StopUnit; hide ResolveUblkId; hide DeleteMinor;
    DeleteTouches(h, f, o);
  }

  lemma CleaningMove(k: Kind, h: Host, f: Frame, o: Outcome)
    requires TakesAway(f.req) && PcOk(f.req.call, f.pc) && Cleaning(k, h, f)
    ensures MoveCleaning(k, h, f, o, Act(h, f, o))
  {
    hide MoveCleaning; hide UnmountMove; hide CreateMove; hide MountMove; hide PublishMove; hide DeleteMove;
    hide Cleaning;
    hide AtFirst;
    if InDelete(f.pc) { DeletionCleaning(k, h, f, o); }
    else if AtFirst(f.pc) { FirstUnmountCleaning(k, h, f, o); }
    else { CleanupCleaning(k, h, f, o); }
  }

  predicate InCleaning(k: Kind, s: State, req: Request) {
    req.vol in s.frames && s.frames[req.vol].req == req && Cleaning(k, s.host, s.frames[req.vol])
  }

  lemma CleaningForeign(owner: Owner, k: Kind, s: State, e: Event, req: Request)
    requires Inv(owner, s) && OwnedRequest(owner, req) && OwnedEvent(owner, e) && Foreign(e, req.vol)
    requires TakesAway(req) && InCleaning(k, s, req)
    ensures var v, p, t := req.vol, WorkPath(req), Step(s, e);
      InCleaning(k, t, req) && t.frames[v] == s.frames[v] && Replies(t, v) == Replies(s, v) && KindOf(t.host, p) == KindOf(s.host, p)
  {
    hide Step; hide Inv; hide OwnedRequest; hide Layers; hide KindOf;
    WorkPathOwned(owner, req);
    ForeignKeeps(owner, s, e, req.vol);
    OtherFrames(s, e, req.vol);
  }

  lemma CleaningOp(owner: Owner, k: Kind, s: State, req: Request, o: Outcome)
    requires Inv(owner, s) && TakesAway(req) && InCleaning(k, s, req)
    ensures var v, p, t := req.vol, WorkPath(req), Step(s, Op(req.vol, o)); var f := s.frames[v];
      if v in t.frames then
        && InCleaning(k, t, req) && !AtEnd(f.pc) && Replies(t, v) == Replies(s, v)
        && (if AtEnd(t.frames[v].pc) then KindOf(t.host, p) == if KeepsPath(s.host, f, o) then k else Absent
            else !KeepsPath(s.host, f, o))
      else
        || Replies(t, v) == Replies(s, v) + [Internal]
        || (Replies(t, v) == Replies(s, v) + [OK] && AtEnd(f.pc) && KindOf(t.host, p) == KindOf(s.host, p))
  {
    hide Act; hide Cleaning; hide KeepsPath; hide KindOf;
    RequestsOwnVolume(owner, s, req.vol);
    CleaningMove(k, s.host, s.frames[req.vol], o);
    hide Inv;
  }

  /** At its end a call removes nothing more. */
  lemma EndKeepsNothing(h: Host, f: Frame, o: Outcome)
    requires AtEnd(f.pc)
    ensures !KeepsPath(h, f, o)
  {
  }

  lemma {:induction false} NoCallKeepsPath(s: State, es: seq<Event>, v: VolId)
    requires NoNewCalls(es, v) && v !in s.frames
    ensures !PathKept(s, es, v)
    decreases |es|
  {
    hide Step; hide KeepsPath;
    if es != [] {
      assert NoNewCall(es[0], v);
      if Foreign(es[0], v) { OtherFrames(s, es[0], v); } else { StepWithoutCall(s, v, es[0].o); }
      NoCallKeepsPath(Step(s, es[0]), es[1..], v);
    }
  }

  lemma {:induction false} CleaningRun(owner: Owner, k: Kind, s: State, req: Request, es: seq<Event>)
    requires Inv(owner, s) && OwnedRequest(owner, req) && OwnedEvents(owner, es) && NoNewCalls(es, req.vol)
    requires TakesAway(req) && InCleaning(k, s, req)
    ensures var v, p, t := req.vol, WorkPath(req), Run(s, es);
      v !in t.frames ==>
        || Replies(t, v) == Replies(s, v) + [Internal]
        || KindOf(t.host, p) == (if AtEnd(s.frames[v].pc) then KindOf(s.host, p) else if PathKept(s, es, v) then k else Absent)
    ensures AtEnd(s.frames[req.vol].pc) ==> !PathKept(s, es, req.vol)
    decreases |es|
  {
    hide Inv; hide Step; hide InCleaning; hide KeepsPath; hide KindOf; hide OwnedRequest; hide AtEnd; hide Replies;
    var v, p := req.vol, WorkPath(req);
    assert v in s.frames by { IsCleaning(k, s, req); }
    if es != [] {
      var e, t := es[0], Step(s, es[0]);
      InvStep(owner, s, e);
      assert NoNewCall(e, v);
      if Foreign(e, v) {
        CleaningForeign(owner, k, s, e, req);
        CleaningRun(owner, k, t, req, es[1..]);
      } else {
        if AtEnd(s.frames[v].pc) { EndKeepsNothing(s.host, s.frames[v], e.o); }
        CleaningOp(owner, k, s, req, e.o);
        if v in t.frames {
          CleaningRun(owner, k, t, req, es[1..]);
        } else {
          WorkPathOwned(owner, req);
          SpotStays(owner, t, es[1..], v, p);
          CallIsOver(owner, t, es[1..], v);
          NoCallKeepsPath(t, es[1..], v);
        }
      }
    }
  }

  lemma IsCleaning(k: Kind, s: State, req: Request)
    requires InCleaning(k, s, req)
    ensures req.vol in s.frames
  {
  }

  lemma BeginsCleaning(b: State, req: Request)
    requires TakesAway(req) && req.vol !in b.frames && req.vol in b.volMap && AnswerAtOnce(EntryOf(b, req.vol), req) == None
    requires |Layers(b.host, WorkPath(req))| <= 1
    ensures var v, s := req.vol, Step(b, Begin(req));
      InCleaning(KindOf(b.host, WorkPath(req)), s, req) && !AtEnd(s.frames[v].pc) && Replies(s, v) == Replies(b, v)
  {
  }

  /** When a successful unstage or unpublish of a volume that the map has leaves its path, whatever its
      steps report and whatever happens meanwhile: the path is what it was if a step of the cleanup fails
      that comes before the removal or is it, and else it is gone. */
  lemma {:induction false} PathStaysExactly(owner: Owner, b: State, req: Request, es: seq<Event>)
    requires Inv(owner, b) && OwnedRequest(owner, req) && OwnedEvents(owner, es) && NoNewCalls(es, req.vol)
    requires TakesAway(req) && req.vol !in b.frames && req.vol in b.volMap && AnswerAtOnce(EntryOf(b, req.vol), req) == None
    requires |Layers(b.host, WorkPath(req))| <= 1
    ensures var v, p, all := req.vol, WorkPath(req), [Begin(req)] + es; var t := Run(b, all);
      v !in t.frames && Replies(t, v) == Replies(b, v) + [OK] ==>
        KindOf(t.host, p) == if PathKept(b, all, v) then KindOf(b.host, p) else Absent
  {
    hide Inv; hide Step; hide OwnedRequest; hide AnswerAtOnce; hide InCleaning; hide KindOf; hide KeepsPath; hide Layers;
    var v, s := req.vol, Step(b, Begin(req));
    assert ([Begin(req)] + es)[1..] == es;
    InvStep(owner, b, Begin(req));
    BeginsCleaning(b, req);
    CleaningRun(owner, KindOf(b.host, WorkPath(req)), s, req, es);
    assert (Replies(b, v) + [OK])[|Replies(b, v)|] == OK;
    assert (Replies(b, v) + [Internal])[|Replies(b, v)|] == Internal;
  }
}
