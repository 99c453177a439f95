/** Concurrent calls for different volumes are serialisable although all host work runs outside
    the lock: any interleaving gives the same responses, map and host, up to ublk minor numbers,
    as a serial one with the same steps in which the calls begin in the same order. */
module Serialisability {
  import opened Types
  import opened HostModel
  import opened Machine
  import opened Invariant
  import opened Views

  predicate NoRestart(es: seq<Event>) {
    forall i | 0 <= i < |es| :: !es[i].Restart?
  }

  /** The events of one volume, in order. */
  function Of(es: seq<Event>, v: VolId): (r: seq<Event>)
    requires NoRestart(es)
    ensures |r| <= |es| && NoRestart(r)
    ensures forall i | 0 <= i < |r| :: VolOf(r[i]) == v
  {
    if es == [] then []
    else (if VolOf(es[0]) == v then [es[0]] else []) + Of(es[1..], v)
  }

  ghost predicate SameViews(owner: Owner, s: State, t: State) {
    forall v :: SameView(owner, s, t, v)
  }

  predicate Idle(s: State, v: VolId) {
    v !in s.frames
  }

  predicate Quiescent(s: State) {
    s.frames == map[]
  }

  lemma SameViewReflexive(owner: Owner, s: State, v: VolId)
    ensures SameView(owner, s, s, v)
  {
  }

  /** What a volume sees after a run depends only on what it saw before and on its own events. */
  lemma {:induction false} Projection(owner: Owner, s: State, es: seq<Event>, t: State, fs: seq<Event>, v: VolId)
    requires Inv(owner, s) && OwnedEvents(owner, es) && NoRestart(es)
    requires Inv(owner, t) && OwnedEvents(owner, fs) && NoRestart(fs)
    requires SameView(owner, s, t, v) && Of(es, v) == Of(fs, v)
    ensures SameView(owner, Run(s, es), Run(t, fs), v)
    decreases |es| + |fs|
  {
    hide SameView; hide Inv; hide Step;
    if es != [] && VolOf(es[0]) != v {
      StepIsLocal(owner, s, es[0], v);
      InvStep(owner, s, es[0]);
      Flip(owner, s, Step(s, es[0]), v);
      SameViewTransitive(owner, Step(s, es[0]), s, t, v);
      Projection(owner, Step(s, es[0]), es[1..], t, fs, v);
    } else if fs != [] && VolOf(fs[0]) != v {
      StepIsLocal(owner, t, fs[0], v);
      InvStep(owner, t, fs[0]);
      SameViewTransitive(owner, s, t, Step(t, fs[0]), v);
      Projection(owner, s, es, Step(t, fs[0]), fs[1..], v);
    } else if es != [] {
      assert es[0] == Of(es, v)[0] && Of(es[1..], v) == Of(es, v)[1..];
      assert fs != [] && fs[0] == Of(fs, v)[0] && Of(fs[1..], v) == Of(fs, v)[1..];
      StepAgrees(owner, s, t, es[0]);
      InvStep(owner, s, es[0]);
      InvStep(owner, t, fs[0]);
      Projection(owner, Step(s, es[0]), es[1..], Step(t, fs[0]), fs[1..], v);
    }
  }

  lemma Flip(owner: Owner, s: State, t: State, v: VolId)
    requires SameView(owner, s, t, v)
    ensures SameView(owner, t, s, v)
  {
  }

  // The serial order

  /** No step is made for a volume while another volume has a call in flight. */
  ghost predicate Serial(s: State, es: seq<Event>)
    requires NoRestart(es)
    decreases |es|
  {
    es == [] || (s.frames.Keys <= {VolOf(es[0])} && Serial(Step(s, es[0]), es[1..]))
  }

  /** The events that find their volume idle: the beginnings of calls, and what the environment
      does to idle volumes. */
  function Openers(s: State, es: seq<Event>): seq<Event>
    requires NoRestart(es)
    decreases |es|
  {
    if es == [] then []
    else (if Idle(s, VolOf(es[0])) then [es[0]] else []) + Openers(Step(s, es[0]), es[1..])
  }

  /** How many events of one volume it takes until the volume is idle again. */
  function BlockLength(s: State, es: seq<Event>, v: VolId): (n: nat)
    requires es != []
    ensures 1 <= n <= |es|
    decreases |es|
  {
    if |es| == 1 || Idle(Step(s, es[0]), v) then 1 else 1 + BlockLength(Step(s, es[0]), es[1..], v)
  }

  /** The events without the first n of volume v. */
  function Without(es: seq<Event>, v: VolId, n: nat): (r: seq<Event>)
    requires NoRestart(es) && n <= |Of(es, v)|
    ensures |r| == |es| - n && NoRestart(r)
    decreases |es|
  {
    if n == 0 then es
    else if VolOf(es[0]) == v then Without(es[1..], v, n - 1)
    else [es[0]] + Without(es[1..], v, n)
  }

  /** Each call moved up to where it begins. */
  function Serialised(s: State, es: seq<Event>): (r: seq<Event>)
    requires NoRestart(es)
    ensures |r| == |es| && NoRestart(r)
    decreases |es|
  {
    if es == [] then []
    else
      var v := VolOf(es[0]);
      var own := Of(es, v);
      var n := BlockLength(s, own, v);
      own[..n] + Serialised(Run(s, own[..n]), Without(es, v, n))
  }

  lemma {:induction false} OfConcat(es: seq<Event>, fs: seq<Event>, v: VolId)
    requires NoRestart(es) && NoRestart(fs)
    ensures Of(es + fs, v) == Of(es, v) + Of(fs, v)
    decreases |es|
  {
    if es == [] {
      assert es + fs == fs;
    } else {
      assert (es + fs)[1..] == es[1..] + fs;
      OfConcat(es[1..], fs, v);
    }
  }

  lemma {:induction false} OfOwn(es: seq<Event>, v: VolId, w: VolId)
    requires NoRestart(es) && forall i | 0 <= i < |es| :: VolOf(es[i]) == v
    ensures Of(es, w) == if w == v then es else []
    decreases |es|
  {
    if es != [] {
      OfOwn(es[1..], v, w);
    }
  }

  lemma {:induction false} OfWithout(es: seq<Event>, v: VolId, n: nat, w: VolId)
    requires NoRestart(es) && n <= |Of(es, v)|
    ensures Of(Without(es, v, n), w) == if w == v then Of(es, v)[n..] else Of(es, w)
    decreases |es|
  {
    if n > 0 {
      if VolOf(es[0]) == v {
        OfWithout(es[1..], v, n - 1, w);
      } else {
        OfWithout(es[1..], v, n, w);
        var rest := Without(es[1..], v, n);
        assert ([es[0]] + rest)[1..] == rest;
      }
    }
  }

  lemma {:induction false} OfOwned(owner: Owner, es: seq<Event>, v: VolId)
    requires NoRestart(es) && OwnedEvents(owner, es)
    ensures OwnedEvents(owner, Of(es, v))
    decreases |es|
  {
    if es != [] {
      OfOwned(owner, es[1..], v);
    }
  }

  lemma {:induction false} WithoutOwned(owner: Owner, es: seq<Event>, v: VolId, n: nat)
    requires NoRestart(es) && n <= |Of(es, v)| && OwnedEvents(owner, es)
    ensures OwnedEvents(owner, Without(es, v, n))
    decreases |es|
  {
    if n > 0 {
      WithoutOwned(owner, es[1..], v, if VolOf(es[0]) == v then n - 1 else n);
    }
  }

  /** Moving the first n events of v to the front keeps every volume's own order. */
  lemma {:induction false} MovedUp(es: seq<Event>, v: VolId, n: nat, tail: seq<Event>, w: VolId)
    requires NoRestart(es) && n <= |Of(es, v)| && NoRestart(tail)
    requires Of(tail, w) == Of(Without(es, v, n), w)
    ensures Of(Of(es, v)[..n] + tail, w) == Of(es, w)
  {
    hide Of; hide Without;
    var own := Of(es, v);
    OfWithout(es, v, n, w);
    OfOwn(own[..n], v, w);
    OfConcat(own[..n], tail, w);
    if w == v {
      assert own[..n] + own[n..] == own;
    }
  }

  /** Moving calls up keeps every volume's own order. */
  lemma {:induction false} SerialisedKeepsOrder(s: State, es: seq<Event>, w: VolId)
    requires NoRestart(es)
    ensures Of(Serialised(s, es), w) == Of(es, w)
    decreases |es|
  {
    if es != [] {
      var v := VolOf(es[0]);
      var n := BlockLength(s, Of(es, v), v);
      var t, rest := Run(s, Of(es, v)[..n]), Without(es, v, n);
      assert Serialised(s, es) == Of(es, v)[..n] + Serialised(t, rest);
      hide Run; hide BlockLength; hide Without; hide Of; hide Serialised;
      SerialisedKeepsOrder(t, rest, w);
      MovedUp(es, v, n, Serialised(t, rest), w);
    }
  }

  lemma {:induction false} SerialisedOwned(owner: Owner, s: State, es: seq<Event>)
    requires NoRestart(es) && OwnedEvents(owner, es)
    ensures OwnedEvents(owner, Serialised(s, es))
    decreases |es|
  {
    hide Run; hide BlockLength;
    if es != [] {
      var v := VolOf(es[0]);
      var n := BlockLength(s, Of(es, v), v);
      OfOwned(owner, es, v);
      WithoutOwned(owner, es, v, n);
      SerialisedOwned(owner, Run(s, Of(es, v)[..n]), Without(es, v, n));
    }
  }

  // The serial order is serial

  lemma StepKeepsOthersIdle(s: State, e: Event)
    requires !e.Restart?
    ensures Step(s, e).frames.Keys - {VolOf(e)} == s.frames.Keys - {VolOf(e)}
  {
    hide Act; hide Enter; hide DeviceUp;
  }

  lemma {:induction false} OwnRunKeepsOthersIdle(s: State, es: seq<Event>, v: VolId)
    requires NoRestart(es) && forall i | 0 <= i < |es| :: VolOf(es[i]) == v
    ensures Run(s, es).frames.Keys - {v} == s.frames.Keys - {v}
    ensures s.frames.Keys <= {v} ==> Serial(s, es)
    decreases |es|
  {
    hide Step;
    if es != [] {
      StepKeepsOthersIdle(s, es[0]);
      assert s.frames.Keys <= {v} ==> Step(s, es[0]).frames.Keys - {v} == {};
      OwnRunKeepsOthersIdle(Step(s, es[0]), es[1..], v);
    }
  }

  lemma {:induction false} SerialConcat(s: State, es: seq<Event>, fs: seq<Event>)
    requires NoRestart(es) && NoRestart(fs) && Serial(s, es) && Serial(Run(s, es), fs)
    ensures Serial(s, es + fs)
    decreases |es|
  {
    hide Step;
    if es == [] {
      assert es + fs == fs;
    } else {
      assert (es + fs)[1..] == es[1..] + fs;
      SerialConcat(Step(s, es[0]), es[1..], fs);
    }
  }

  /** A block ends with the volume idle, if the whole run does. */
  lemma {:induction false} BlockEndsIdle(s: State, es: seq<Event>, v: VolId)
    requires es != [] && Idle(Run(s, es), v)
    ensures Idle(Run(s, es[..BlockLength(s, es, v)]), v)
    decreases |es|
  {
    hide Step;
    var n := BlockLength(s, es, v);
    var t := Step(s, es[0]);
    assert es[..n][1..] == es[1..][..n - 1];
    if n > 1 {
      BlockEndsIdle(t, es[1..], v);
    } else {
      assert Run(s, es[..1]) == Run(t, []);
      assert |es| == 1 ==> es[1..] == [];
    }
  }

  /** Moving the first call up gives the same views. */
  lemma {:induction false} FirstBlock(owner: Owner, s: State, es: seq<Event>, v: VolId, n: nat, w: VolId)
    requires Inv(owner, s) && OwnedEvents(owner, es) && NoRestart(es) && n <= |Of(es, v)|
    ensures OwnedEvents(owner, Of(es, v)[..n]) && OwnedEvents(owner, Without(es, v, n))
    ensures SameView(owner, Run(s, es), Run(Run(s, Of(es, v)[..n]), Without(es, v, n)), w)
  {
    hide Run; hide SameView; hide Inv; hide Without; hide Step; hide Of;
    var block, rest := Of(es, v)[..n], Without(es, v, n);
    OfWithout(es, v, n, w);
    OfOwned(owner, es, v);
    WithoutOwned(owner, es, v, n);
    MovedUp(es, v, n, rest, w);
    SameViewReflexive(owner, s, w);
    Projection(owner, s, es, s, block + rest, w);
    RunConcat(s, block, rest);
  }

  lemma {:induction false} BlockIdle(owner: Owner, s: State, es: seq<Event>, v: VolId)
    requires Inv(owner, s) && OwnedEvents(owner, es) && NoRestart(es) && Of(es, v) != []
    requires Idle(Run(s, es), v)
    ensures Idle(Run(s, Of(es, v)[..BlockLength(s, Of(es, v), v)]), v)
  {
    hide Run; hide Step; hide Inv; hide BlockLength; hide Of;
    var own := Of(es, v);
    OfOwned(owner, es, v);
    OfOwn(own, v, v);
    SameViewReflexive(owner, s, v);
    Projection(owner, s, es, s, own, v);
    BlockEndsIdle(s, own, v);
  }

  lemma SameIdle(owner: Owner, s: State, t: State, w: VolId)
    requires SameView(owner, s, t, w)
    ensures Idle(s, w) <==> Idle(t, w)
  {
  }

  lemma AllIdle(t: State)
    requires forall w :: Idle(t, w)
    ensures Quiescent(t)
  {
    forall w ensures w !in t.frames { assert Idle(t, w); }
  }

  /** The first block leaves the whole plugin at rest, and so does what remains after it. */
  lemma {:induction false} QuiescentAfterBlock(owner: Owner, s: State, es: seq<Event>, v: VolId, own: seq<Event>, n: nat)
    requires Inv(owner, s) && OwnedEvents(owner, es) && NoRestart(es)
    requires own == Of(es, v) && own != [] && n == BlockLength(s, own, v)
    requires Quiescent(s) && Quiescent(Run(s, es))
    ensures Quiescent(Run(s, own[..n])) && Quiescent(Run(Run(s, own[..n]), Without(es, v, n)))
  {
    hide Run; hide Step; hide Inv; hide BlockLength; hide Of; hide SameView; hide Without;
    BlockIdle(owner, s, es, v);
    OwnRunKeepsOthersIdle(s, own[..n], v);
    forall w ensures Idle(Run(s, own[..n]), w) {
      assert w != v ==> (w in Run(s, own[..n]).frames.Keys - {v} <==> w in s.frames.Keys - {v});
    }
    AllIdle(Run(s, own[..n]));
    var t := Run(Run(s, own[..n]), Without(es, v, n));
    forall w ensures Idle(t, w) {
      FirstBlock(owner, s, es, v, n, w);
      SameIdle(owner, Run(s, es), t, w);
    }
    AllIdle(t);
  }

  lemma {:induction false} SerialisedIsSerial(owner: Owner, s: State, es: seq<Event>)
    requires Inv(owner, s) && OwnedEvents(owner, es) && NoRestart(es)
    requires Quiescent(s) && Quiescent(Run(s, es))
    ensures Serial(s, Serialised(s, es))
    decreases |es|
  {
    if es != [] {
      var v := VolOf(es[0]);
      var own := Of(es, v);
      assert own != [];
      var n := BlockLength(s, own, v);
      OfOwned(owner, es, v);
      var block, rest := own[..n], Without(es, v, n);
      var t := Run(s, block);
      assert Serialised(s, es) == block + Serialised(t, rest);
      hide Inv; hide Step; hide Run; hide Of; hide BlockLength; hide Without; hide SameView; hide Serial;
      QuiescentAfterBlock(owner, s, es, v, own, n);
      OwnRunKeepsOthersIdle(s, block, v);
      FirstBlock(owner, s, es, v, n, v);
      InvRun(owner, s, block);
      SerialisedIsSerial(owner, t, rest);
      SerialConcat(s, block, Serialised(t, rest));
    }
  }

  // Calls begin in the same order

  lemma {:induction false} OpenersOfBlock(s: State, own: seq<Event>, v: VolId, tail: seq<Event>)
    requires own != [] && NoRestart(own) && NoRestart(tail) && forall i | 0 <= i < |own| :: VolOf(own[i]) == v
    ensures var n := BlockLength(s, own, v);
      Openers(s, own[..n] + tail) == (if Idle(s, v) then [own[0]] else []) + Openers(Run(s, own[..n]), tail)
    decreases |own|
  {
    hide Step;
    var n := BlockLength(s, own, v);
    var t := Step(s, own[0]);
    assert (own[..n] + tail)[1..] == own[1..][..n - 1] + tail;
    assert own[..n][1..] == own[1..][..n - 1];
    if n > 1 {
      OpenersOfBlock(t, own[1..], v, tail);
    } else {
      assert own[1..][..0] + tail == tail;
    }
  }

  lemma {:induction false} OpenersAgree(owner: Owner, s: State, t: State, es: seq<Event>)
    requires Inv(owner, s) && Inv(owner, t) && OwnedEvents(owner, es) && NoRestart(es) && SameViews(owner, s, t)
    ensures Openers(s, es) == Openers(t, es)
    decreases |es|
  {
    if es != [] {
      var e := es[0];
      assert SameView(owner, s, t, VolOf(e));
      BothStep(owner, s, t, e);
      hide Step; hide Inv; hide SameView;
      OpenersAgree(owner, Step(s, e), Step(t, e), es[1..]);
    }
  }

  lemma BothStep(owner: Owner, s: State, t: State, e: Event)
    requires Inv(owner, s) && Inv(owner, t) && OwnedEvent(owner, e) && !e.Restart? && SameViews(owner, s, t)
    ensures Inv(owner, Step(s, e)) && Inv(owner, Step(t, e)) && SameViews(owner, Step(s, e), Step(t, e))
  {
    InvStep(owner, s, e);
    InvStep(owner, t, e);
    hide Step; hide Inv; hide SameView;
    forall v ensures SameView(owner, Step(s, e), Step(t, e), v) {
      assert SameView(owner, s, t, v);
      BothStepView(owner, s, t, e, v);
    }
  }

  lemma BothStepView(owner: Owner, s: State, t: State, e: Event, v: VolId)
    requires Inv(owner, s) && Inv(owner, t) && OwnedEvent(owner, e) && !e.Restart? && SameView(owner, s, t, v)
    ensures SameView(owner, Step(s, e), Step(t, e), v)
  {
    hide Step; hide Inv; hide SameView;
    if v == VolOf(e) {
      StepAgrees(owner, s, t, e);
    } else {
      StepIsLocal(owner, s, e, v);
      StepIsLocal(owner, t, e, v);
      Flip(owner, s, Step(s, e), v);
      SameViewTransitive(owner, Step(s, e), s, t, v);
      SameViewTransitive(owner, Step(s, e), t, Step(t, e), v);
    }
  }

  lemma {:induction false} BlockLengthAgrees(owner: Owner, s: State, t: State, own: seq<Event>, v: VolId)
    requires Inv(owner, s) && Inv(owner, t) && OwnedEvents(owner, own) && NoRestart(own) && own != []
    requires SameView(owner, s, t, v) && forall i | 0 <= i < |own| :: VolOf(own[i]) == v
    ensures BlockLength(s, own, v) == BlockLength(t, own, v)
    decreases |own|
  {
    hide Step; hide Inv;
    StepAgrees(owner, s, t, own[0]);
    InvStep(owner, s, own[0]);
    InvStep(owner, t, own[0]);
    if |own| > 1 {
      BlockLengthAgrees(owner, Step(s, own[0]), Step(t, own[0]), own[1..], v);
    }
  }

  /** Two states differ only in that t is done with the next n events of v. */
  ghost predicate Ahead(owner: Owner, s: State, t: State, own: seq<Event>, v: VolId, n: nat) {
    && n <= |own|
    && (forall w | w != v :: SameView(owner, s, t, w))
    && SameView(owner, Run(s, own[..n]), t, v)
    && (n > 0 ==> !Idle(s, v) && n == BlockLength(s, own, v))
  }

  lemma {:induction false} OpenersWithout(owner: Owner, s: State, t: State, es: seq<Event>, v: VolId, n: nat)
    requires Inv(owner, s) && Inv(owner, t) && OwnedEvents(owner, es) && NoRestart(es)
    requires Ahead(owner, s, t, Of(es, v), v, n)
    ensures Openers(s, es) == Openers(t, Without(es, v, n))
    decreases |es|
  {
    hide Step; hide Inv; hide SameView;
    var own := Of(es, v);
    OfOwned(owner, es, v);
    if n == 0 {
      assert own[..0] == [];
      OpenersAgree(owner, s, t, es);
    } else {
      var e, w := es[0], VolOf(es[0]);
      InvStep(owner, s, e);
      if w == v {
        AheadOwn(owner, s, t, own, v, n);
        OpenersWithout(owner, Step(s, e), t, es[1..], v, n - 1);
      } else {
        InvStep(owner, t, e);
        assert Of(es[1..], v) == own;
        assert Idle(s, w) <==> Idle(t, w) by { SameIdle(owner, s, t, w); }
        AheadOther(owner, s, t, own, v, n, e);
        OpenersWithout(owner, Step(s, e), Step(t, e), es[1..], v, n);
        var rest := Without(es[1..], v, n);
        assert ([e] + rest)[1..] == rest;
      }
    }
  }

  lemma AheadOwn(owner: Owner, s: State, t: State, own: seq<Event>, v: VolId, n: nat)
    requires Inv(owner, s) && OwnedEvents(owner, own) && NoRestart(own)
    requires Ahead(owner, s, t, own, v, n) && n > 0 && VolOf(own[0]) == v
    ensures Ahead(owner, Step(s, own[0]), t, own[1..], v, n - 1)
  {
    hide Step; hide Inv; hide SameView;
    var e := own[0];
    assert own[..n][1..] == own[1..][..n - 1];
    forall w | w != v ensures SameView(owner, Step(s, e), t, w) {
      StepIsLocal(owner, s, e, w);
      Flip(owner, s, Step(s, e), w);
      SameViewTransitive(owner, Step(s, e), s, t, w);
    }
  }

  lemma AheadOther(owner: Owner, s: State, t: State, own: seq<Event>, v: VolId, n: nat, e: Event)
    requires Inv(owner, s) && Inv(owner, t) && OwnedEvents(owner, own) && NoRestart(own) && OwnedEvent(owner, e)
    requires Ahead(owner, s, t, own, v, n) && n > 0 && !e.Restart? && VolOf(e) != v
    requires forall i | 0 <= i < |own| :: VolOf(own[i]) == v
    ensures Ahead(owner, Step(s, e), Step(t, e), own, v, n)
  {
    hide Step; hide Inv; hide SameView;
    forall w | w != v ensures SameView(owner, Step(s, e), Step(t, e), w) {
      BothStepView(owner, s, t, e, w);
    }
    InvStep(owner, s, e);
    StepIsLocal(owner, s, e, v);
    StepIsLocal(owner, t, e, v);
    SameIdle(owner, s, Step(s, e), v);
    BlockLengthAgrees(owner, s, Step(s, e), own, v);
    Flip(owner, s, Step(s, e), v);
    Projection(owner, Step(s, e), own[..n], s, own[..n], v);
    SameViewTransitive(owner, Run(Step(s, e), own[..n]), Run(s, own[..n]), t, v);
    SameViewTransitive(owner, Run(Step(s, e), own[..n]), t, Step(t, e), v);
  }

  lemma {:induction false} SerialisedOpeners(owner: Owner, s: State, es: seq<Event>)
    requires Inv(owner, s) && OwnedEvents(owner, es) && NoRestart(es)
    requires Quiescent(s) && Quiescent(Run(s, es))
    ensures Openers(s, Serialised(s, es)) == Openers(s, es)
    decreases |es|
  {
    hide Step; hide Inv; hide SameView; hide LinksBacked;
    if es != [] {
      var e, v := es[0], VolOf(es[0]);
      var own := Of(es, v);
      var n := BlockLength(s, own, v);
      var block, rest := own[..n], Without(es, v, n);
      var t := Run(s, block);
      QuiescentAfterBlock(owner, s, es, v, own, n);
      OfOwned(owner, es, v);
      InvStep(owner, s, e);
      InvRun(owner, s, block);
      AheadAfterFirst(owner, s, es);
      assert Of(es[1..], v) == own[1..];
      OpenersWithout(owner, Step(s, e), t, es[1..], v, n - 1);
      FirstBlock(owner, s, es, v, n, v);
      SerialisedOpeners(owner, t, rest);
      OpenersOfBlock(s, own, v, Serialised(t, rest));
    }
  }

  lemma {:induction false} AheadAfterFirst(owner: Owner, s: State, es: seq<Event>)
    requires Inv(owner, s) && OwnedEvents(owner, es) && NoRestart(es) && es != []
    ensures var v := VolOf(es[0]); var own := Of(es, v); var n := BlockLength(s, own, v);
      Ahead(owner, Step(s, es[0]), Run(s, own[..n]), own[1..], v, n - 1)
  {
    hide Inv; hide Step; hide SameView;
    var e, v := es[0], VolOf(es[0]);
    var own := Of(es, v);
    var n := BlockLength(s, own, v);
    var t := Run(s, own[..n]);
    OfOwned(owner, es, v);
    assert own[0] == e && own[..n][1..] == own[1..][..n - 1];
    SameViewReflexive(owner, t, v);
    InvStep(owner, s, e);
    forall w | w != v ensures SameView(owner, Step(s, e), t, w) {
      OfOwn(own[1..][..n - 1], v, w);
      SameViewReflexive(owner, Step(s, e), w);
      assert OwnedEvents(owner, own[1..][..n - 1]);
      Projection(owner, Step(s, e), [], Step(s, e), own[1..][..n - 1], w);
    }
  }

  /** Serialisability: an interleaved run from rest to rest has a serial counterpart with the
      same events of each volume in the same order, in which calls begin in the same order - so a
      call that was answered before another began still comes first - and which leaves every
      volume with the same responses, map entry, unit, link, number of minors, filesystem, mounts
      and paths. */
  lemma {:induction false} Serialisable(owner: Owner, s: State, es: seq<Event>)
    requires Inv(owner, s) && OwnedEvents(owner, es) && NoRestart(es)
    requires Quiescent(s) && Quiescent(Run(s, es))
    ensures exists fs ::
      && NoRestart(fs) && Serial(s, fs)
      && (forall v :: Of(fs, v) == Of(es, v))
      && Openers(s, fs) == Openers(s, es)
      && SameViews(owner, Run(s, es), Run(s, fs))
  {
    hide Inv; hide SameView; hide Run; hide Step;
    var fs := Serialised(s, es);
    SerialisedIsSerial(owner, s, es);
    SerialisedOpeners(owner, s, es);
    SerialisedOwned(owner, s, es);
    forall v ensures Of(fs, v) == Of(es, v) && SameView(owner, Run(s, es), Run(s, fs), v) {
      SerialisedKeepsOrder(s, es, v);
      SameViewReflexive(owner, s, v);
      Projection(owner, s, es, s, fs, v);
    }
  }

  /** The order of steps of different volumes does not matter at all: runs with the same events
      of each volume end in the same views, also with calls still in flight. */
  lemma {:induction false} InterleavingIrrelevant(owner: Owner, s: State, es: seq<Event>, fs: seq<Event>)
    requires Inv(owner, s) && OwnedEvents(owner, es) && OwnedEvents(owner, fs) && NoRestart(es) && NoRestart(fs)
    requires forall v :: Of(es, v) == Of(fs, v)
    ensures SameViews(owner, Run(s, es), Run(s, fs))
  {
    hide Inv; hide SameView; hide Run;
    forall v ensures SameView(owner, Run(s, es), Run(s, fs), v) {
      SameViewReflexive(owner, s, v);
      Projection(owner, s, es, s, fs, v);
    }
  }
}
