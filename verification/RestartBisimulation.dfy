/** A plugin restarted at rest carries on as if nothing had happened: the node calls look at the
    map only for a key's presence and its device path, and those are rebuilt from the host. */
module RestartBisimulation {
  import opened Uuid
  import opened Types
  import opened HostModel
  import opened Machine
  import opened Invariant
  import opened Views
  import opened Recovery
  import opened Conservation
  import Decimal

  /** Maps that the calls cannot tell apart: same keys, same device paths. */
  predicate SameToCalls(m: map<VolId, Entry>, n: map<VolId, Entry>) {
    m.Keys == n.Keys && forall v | v in m :: m[v].ublkPath == n[v].ublkPath
  }

  /** Same host, same calls in flight, same responses so far, maps that calls cannot tell apart. */
  predicate Bisimilar(s: State, t: State) {
    s.host == t.host && s.frames == t.frames && s.replies == t.replies && SameToCalls(s.volMap, t.volMap)
  }

  lemma EnterSeesPathOnly(e: Option<Entry>, f: Option<Entry>, req: Request)
    requires e.Some? == f.Some? && (e.Some? ==> e.value.ublkPath == f.value.ublkPath)
    ensures Enter(e, req) == Enter(f, req)
  {
    hide Decimal.ParseInt64;
  }

  /** The relation is kept by every event: any step of any call with any outcome, anything the
      environment does, further restarts included. */
  lemma BisimilarStep(s: State, t: State, e: Event)
    requires Bisimilar(s, t)
    ensures Bisimilar(Step(s, e), Step(t, e))
  {
    hide Enter; hide Act; hide Recover; hide DeviceUp; hide LinkDown; hide DaemonGone; hide Doubted;
    if e.Begin? {
      EnterSeesPathOnly(EntryOf(s, e.req.vol), EntryOf(t, e.req.vol), e.req);
    }
  }

  lemma {:induction false} BisimilarRun(s: State, t: State, es: seq<Event>)
    requires Bisimilar(s, t)
    ensures Bisimilar(Run(s, es), Run(t, es))
    decreases |es|
  {
    if es != [] {
      BisimilarStep(s, t, es[0]);
      hide Step; hide Bisimilar;
      BisimilarRun(Step(s, es[0]), Step(t, es[0]), es[1..]);
    }
  }

  /** A restart of a plugin at rest cannot be told, if and only if the map has exactly the listed
      volumes whose link resolves, each with its device path. */
  lemma RestartInvisibleExactly(owner: Owner, s: State, listed: seq<VolId>)
    requires Inv(owner, s) && s.frames == map[] && AllParse(listed)
    ensures Bisimilar(s, Step(s, Restart(Some(listed)))) <==>
      forall v :: (v in s.volMap <==> Here(s.host, listed, v)) && (v in s.volMap ==> Staged(s, v))
  {
    hide Recover; hide Parse; hide Backing; hide LinksBacked; hide AllParse;
    var t := Step(s, Restart(Some(listed)));
    RecoverMeaning(map[], s.host, listed);
    if Bisimilar(s, t) {
      forall v ensures (v in s.volMap <==> Here(s.host, listed, v)) && (v in s.volMap ==> Staged(s, v)) {
        assert v in s.volMap.Keys <==> v in t.volMap.Keys;
      }
    }
  }

  /** Restart bisimulation: at rest, with no unit or link out of step with the map, and every
      volume that is up here listed under an ID that parses, dropping the map and rebuilding it
      changes no later response and no later effect on the host, whatever calls follow, with
      whatever outcomes and interleaving. */
  lemma {:induction false} RestartIsInvisible(owner: Owner, s: State, listed: seq<VolId>, es: seq<Event>)
    requires Inv(owner, s) && s.frames == map[]
    requires AllParse(listed) && forall v :: Conserved(s, v) && v !in s.suspect && (Linked(s.host, v) ==> v in listed)
    ensures var t := Run(s, [Restart(Some(listed))] + es);
      t.host == Run(s, es).host && t.replies == Run(s, es).replies && t.frames == Run(s, es).frames
  {
    hide Step; hide Parse;
    var r := Restart(Some(listed));
    forall v ensures (v in s.volMap <==> Here(s.host, listed, v)) && (v in s.volMap ==> Staged(s, v)) {
      assert Conserved(s, v) && (Linked(s.host, v) ==> v in listed);
      BackingIsVolume(s.host, v);
      hide LinksBacked; hide Backing;
    }
    RestartInvisibleExactly(owner, s, listed);
    assert ([r] + es)[1..] == es;
    BisimilarRun(s, Step(s, r), es);
  }
}
