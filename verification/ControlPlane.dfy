/** The control plane as the plugins see it, the bounded retry with a new login, and what the
    controller's calls make of them. */
module ControlPlane {
  import opened Uuid
  import opened Types

  // One request to the control plane

  /** A virtual device.  Names and IDs are both texts by which a volume can be asked for. */
  datatype Vdev = Vdev(name: VolId, size: int)

  datatype Op = CreateVdev(name: VolId, size: int) | DeleteVdev(id: VolId) | GetVdev(key: VolId)

  datatype Reply = Created(id: VolId) | Deleted | Found(id: VolId, vdev: Vdev)

  /** An error as the retry loop examines it: whether it wraps the JWT library's expiry error, and
      its text. */
  datatype Error = Error(tokenExpired: bool, text: string)

  datatype Result = Ok(reply: Reply) | Err(error: Error)

  /** The devices, and whether the control plane would accept the token now in use. */
  datatype Plane = Plane(vdevs: map<VolId, Vdev>, tokenGood: bool)

  /** How a request with a good token fares.  Lost: it took effect, but an error came back.
      pick: the ID for a new device, or the device that a name resolves to. */
  datatype Verdict = Served(pick: VolId) | Lost(pick: VolId, error: Error) | Fault(error: Error)

  datatype Login = LoginFailed | Token(good: bool)

  /** One round of the retry loop: the request, and the login after it if there is one. */
  datatype Attempt = Attempt(verdict: Verdict, login: Login)

  datatype Tried = Tried(plane: Plane, result: Result)

  const EXPIRED := Error(true, "")

  function NotFound(): Error {
    Error(false, "vdev not found")
  }

  function Exhausted(): Error {
    Error(false, "operation failed after 2 retries")
  }

  predicate Contains(s: string, t: string) {
    t <= s || (s != "" && Contains(s[1..], t))
  }

  /** What the retry loop takes for a rejected token: any error whose text mentions "expired" or
      "Invalid Token", whatever it is about. */
  predicate LooksExpired(e: Error) {
    e.tokenExpired || Contains(e.text, "expired") || Contains(e.text, "Invalid Token")
  }

  /** What the control plane does when it serves a request, None if it has nothing to serve: a UUID
      is looked up directly, anything else as a name. */
  function Serve(vdevs: map<VolId, Vdev>, op: Op, pick: VolId): Option<(map<VolId, Vdev>, Reply)> {
    match op
    case CreateVdev(name, size) =>
      if pick in vdevs then None else Some((vdevs[pick := Vdev(name, size)], Created(pick)))
    case DeleteVdev(id) =>
      if id in vdevs then Some((vdevs - {id}, Deleted)) else None
    case GetVdev(key) =>
      if Parse(key.text).Some? then if key in vdevs then Some((vdevs, Found(key, vdevs[key]))) else None
      else if pick in vdevs && vdevs[pick].name == key then Some((vdevs, Found(pick, vdevs[pick])))
      else None
  }

  /** A request with the token in use; a token that is not good gets it rejected without effect. */
  function Try(p: Plane, op: Op, v: Verdict): Tried {
    if !p.tokenGood then Tried(p, Err(EXPIRED))
    else if v.Fault? then Tried(p, Err(v.error))
    else
      match Serve(p.vdevs, op, v.pick)
      case None => Tried(p, Err(if v.Lost? then v.error else NotFound()))
      case Some((vdevs, reply)) => Tried(p.(vdevs := vdevs), if v.Lost? then Err(v.error) else Ok(reply))
  }

  // The retry loop

  /** The request is made again, with a new login before, as long as it fails with what looks like
      a rejected token and there are rounds left. */
  function Retry(p: Plane, op: Op, tries: seq<Attempt>): Tried
    decreases |tries|
  {
    if tries == [] then Tried(p, Err(Exhausted()))
    else
      var t := Try(p, op, tries[0].verdict);
      if t.result.Ok? || !LooksExpired(t.result.error) || tries[0].login.LoginFailed? then t
      else Retry(t.plane.(tokenGood := tries[0].login.good), op, tries[1..])
  }

  /** The results of the requests that are made. */
  function Requests(p: Plane, op: Op, tries: seq<Attempt>): seq<Result>
    decreases |tries|
  {
    if tries == [] then []
    else
      var t := Try(p, op, tries[0].verdict);
      [t.result] +
      if t.result.Ok? || !LooksExpired(t.result.error) || tries[0].login.LoginFailed? then []
      else Requests(t.plane.(tokenGood := tries[0].login.good), op, tries[1..])
  }

  /** The request is made at most as often as there are rounds, and never again after a success or
      an error that does not look like a rejected token; a success is the last request's. */
  lemma {:induction false} RequestsAreBounded(p: Plane, op: Op, tries: seq<Attempt>)
    ensures var rs := Requests(p, op, tries);
      && |rs| <= |tries|
      && (forall i | 0 <= i < |rs| - 1 :: rs[i].Err? && LooksExpired(rs[i].error))
      && (Retry(p, op, tries).result.Ok? ==> rs != [] && Retry(p, op, tries).result == rs[|rs| - 1])
    decreases |tries|
  {
    hide LooksExpired; hide Try; hide Exhausted;
    if tries != [] {
      var t := Try(p, op, tries[0].verdict);
      if !(t.result.Ok? || !LooksExpired(t.result.error) || tries[0].login.LoginFailed?) {
        var q := t.plane.(tokenGood := tries[0].login.good);
        RequestsAreBounded(q, op, tries[1..]);
        var rest := Requests(q, op, tries[1..]);
        assert Requests(p, op, tries) == [t.result] + rest;
        forall i | 0 <= i < |rest| ensures ([t.result] + rest)[i + 1] == rest[i] {}
      }
    }
  }

  /** An error that looks like a rejected token means that the request had no effect. */
  predicate AuthHarmless(tries: seq<Attempt>) {
    forall i | 0 <= i < |tries| && tries[i].verdict.Lost? :: !LooksExpired(tries[i].verdict.error)
  }

  lemma {:induction false} LacksChar(s: string, t: string, c: char)
    requires c in t && c !in s
    ensures !Contains(s, t)
  {
    if s != "" && !(t <= s) {
      LacksChar(s[1..], t, c);
    }
  }

  lemma PlainError(e: Error)
    requires !e.tokenExpired && 'x' !in e.text && 'I' !in e.text
    ensures !LooksExpired(e)
  {
    assert 'x' == "expired"[1] && 'I' == "Invalid Token"[0];
    LacksChar(e.text, "expired", 'x');
    LacksChar(e.text, "Invalid Token", 'I');
  }

  predicate StandsIn(s: string, t: string, pre: string, post: string) {
    s == pre + t + post
  }

  lemma {:induction false} StandsThenContains(s: string, t: string, pre: string, post: string)
    requires StandsIn(s, t, pre, post)
    ensures Contains(s, t)
    decreases |pre|
  {
    if pre == "" {
      assert s[..|t|] == t;
    } else {
      assert s[1..] == pre[1..] + t + post;
      StandsThenContains(s[1..], t, pre[1..], post);
    }
  }

  lemma {:induction false} ContainsThenStands(s: string, t: string) returns (pre: string, post: string)
    requires Contains(s, t)
    ensures StandsIn(s, t, pre, post)
  {
    if t <= s {
      pre, post := "", s[|t|..];
    } else {
      pre, post := ContainsThenStands(s[1..], t);
      pre := [s[0]] + pre;
    }
  }

  /** A text contains another if that stands somewhere in it. */
  lemma {:induction false} ContainsExactly(s: string, t: string)
    ensures Contains(s, t) <==> exists pre, post :: StandsIn(s, t, pre, post)
  {
    hide StandsIn; hide Contains;
    if Contains(s, t) {
      var pre, post := ContainsThenStands(s, t);
    }
    if pre, post :| StandsIn(s, t, pre, post) {
      StandsThenContains(s, t, pre, post);
    }
  }

  /** Which errors lead to a new login: those that wrap the expiry error, and those whose text has the
      word "expired" or the words "Invalid Token" at any place. */
  lemma {:induction false} LooksExpiredExactly(e: Error)
    ensures LooksExpired(e) <==>
      || e.tokenExpired
      || (exists pre, post :: StandsIn(e.text, "expired", pre, post))
      || (exists pre, post :: StandsIn(e.text, "Invalid Token", pre, post))
  {
    hide Contains; hide StandsIn;
    ContainsExactly(e.text, "expired");
    ContainsExactly(e.text, "Invalid Token");
  }

  /** The error for a missing device does not look like a rejected token. */
  lemma NotFoundIsPlain()
    ensures !LooksExpired(NotFound())
  {
    hide LooksExpired;
    PlainError(NotFound());
  }

  lemma {:induction false} RetryAgain(p: Plane, op: Op, tries: seq<Attempt>)
    requires |tries| == MAX_RETRY && tries[0].login == Token(true)
    requires var t := Try(p, op, tries[0].verdict); t.result.Err? && LooksExpired(t.result.error)
    ensures Retry(p, op, tries) == Retry(Try(p, op, tries[0].verdict).plane.(tokenGood := true), op, [tries[1]])
  {
    hide Try; hide LooksExpired; hide Exhausted;
    assert tries[1..] == [tries[1]];
  }

  lemma {:induction false} RetryOnce(p: Plane, op: Op, a: Attempt)
    requires p.tokenGood && a.verdict.Served?
    ensures Retry(p, op, [a]) == Try(p, op, a.verdict)
  {
    NotFoundIsPlain();
    hide LooksExpired; hide Serve; hide NotFound; hide Exhausted;
  }

  /** A request that comes back with such a text is made again after a good login, and if it is then
      served, the caller has that reply - although the first may have taken effect. */
  lemma {:induction false} RetriedAfterMention(p: Plane, op: Op, tries: seq<Attempt>, pre: string, post: string)
    requires |tries| == MAX_RETRY && p.tokenGood && !tries[0].verdict.Served?
    requires tries[0].verdict.error.text == pre + "expired" + post || tries[0].verdict.error.text == pre + "Invalid Token" + post
    requires tries[0].login == Token(true) && tries[1].verdict.Served?
    ensures var first, t := Try(p, op, tries[0].verdict).plane, Retry(p, op, tries);
      var again := Serve(first.vdevs, op, tries[1].verdict.pick);
      && (tries[0].verdict.Fault? ==> first.vdevs == p.vdevs)
      && (if again.Some? then t.result == Ok(again.value.1) && t.plane.vdevs == again.value.0
          else t.result.Err? && t.plane.vdevs == first.vdevs)
  {
    var e := tries[0].verdict.error;
    assert StandsIn(e.text, "expired", pre, post) || StandsIn(e.text, "Invalid Token", pre, post);
    LooksExpiredExactly(e);
    hide LooksExpired; hide Serve; hide Retry; hide NotFound; hide StandsIn;
    RetryAgain(p, op, tries);
    RetryOnce(Try(p, op, tries[0].verdict).plane.(tokenGood := true), op, tries[1]);
  }

  /** If an error that looks like a rejected token means no effect, the login yields a token that is
      good for the next request, and that one is not rejected too, then retrying is making one
      request with a fresh token: the same result and the same effect. */
  lemma {:induction false} RetryIsOneRequest(p: Plane, op: Op, tries: seq<Attempt>)
    requires |tries| == MAX_RETRY && AuthHarmless(tries) && tries[0].login == Token(true)
    requires tries[1].verdict.Fault? ==> !LooksExpired(tries[1].verdict.error)
    ensures var first := Try(p, op, tries[0].verdict).result;
      Retry(p, op, tries) == Try(p.(tokenGood := true), op, tries[if first.Err? && LooksExpired(first.error) then 1 else 0].verdict)
  {
    NotFoundIsPlain();
    hide Contains; hide Serve; hide NotFound; hide Exhausted;
    var t := Try(p, op, tries[0].verdict);
    if t.result.Err? && LooksExpired(t.result.error) {
      assert tries[1..][0] == tries[1];
      assert t.plane.vdevs == p.vdevs;
    } else {
      assert p.tokenGood && p.(tokenGood := true) == p;
    }
  }

  // CreateVolume

  const DEFAULT_SIZE := 1024 * 1024 * 1024

  /** required: the capacity range's required bytes, if there is a capacity range. */
  datatype CreateRequest = CreateRequest(name: VolId, required: Option<int>, caps: seq<Capability>)
  {
    predicate Valid() {
      name.text != "" && required.Some? && caps != [] && (caps[0].Mount? || caps[0].Block?)
    }

    function Size(): int {
      if required.Some? && required.value != 0 then required.value else DEFAULT_SIZE
    }
  }

  datatype CreateResponse = Volume(id: VolId, size: int) | AlreadyExists | ResourceExhausted | InvalidArgument

  /** How one CreateVolume fares: the rounds of its lookup and those of its allocation. */
  datatype Course = Course(lookup: seq<Attempt>, alloc: seq<Attempt>)
  {
    predicate Valid() {
      |lookup| == MAX_RETRY && |alloc| == MAX_RETRY
    }
  }

  datatype Creation = Creation(plane: Plane, response: CreateResponse)

  /** Any error of the lookup is taken for the name being free. */
  function CreateVolume(p: Plane, req: CreateRequest, c: Course): Creation {
    if !req.Valid() then Creation(p, CreateResponse.InvalidArgument)
    else
      var found := Retry(p, GetVdev(req.name), c.lookup);
      if found.result.Ok? && found.result.reply.Found? then
        if found.result.reply.vdev.size != req.Size() then Creation(found.plane, AlreadyExists)
        else Creation(found.plane, Volume(found.result.reply.id, found.result.reply.vdev.size))
      else
        var made := Retry(found.plane, CreateVdev(req.name, req.Size()), c.alloc);
        if made.result.Ok? && made.result.reply.Created? then Creation(made.plane, Volume(made.result.reply.id, req.Size()))
        else Creation(made.plane, ResourceExhausted)
  }

  /** A device of this name exists. */
  predicate Present(p: Plane, name: VolId) {
    exists id | id in p.vdevs :: p.vdevs[id].name == name
  }

  /** No two devices have this name. */
  predicate Sole(p: Plane, name: VolId) {
    forall i, j | i in p.vdevs && j in p.vdevs && p.vdevs[i].name == name && p.vdevs[j].name == name :: i == j
  }

  /** The same devices, and perhaps one more, of this name and size. */
  predicate OneMore(p: Plane, q: Plane, name: VolId, size: int) {
    q.vdevs == p.vdevs || exists id | id in q.vdevs :: id !in p.vdevs && q.vdevs == p.vdevs[id := Vdev(name, size)]
  }

  lemma {:induction false} LookupLooks(p: Plane, key: VolId, tries: seq<Attempt>)
    ensures var t := Retry(p, GetVdev(key), tries);
      && t.plane.vdevs == p.vdevs
      && (t.result.Ok? ==> t.result.reply.Found? && t.result.reply.id in p.vdevs && p.vdevs[t.result.reply.id] == t.result.reply.vdev)
      && (t.result.Ok? && Parse(key.text).None? ==> t.result.reply.vdev.name == key)
      && (t.result.Ok? && Parse(key.text).Some? ==> t.result.reply.id == key)
    decreases |tries|
  {
    hide LooksExpired; hide Parse; hide NotFound; hide Exhausted;
    if tries != [] {
      var t := Try(p, GetVdev(key), tries[0].verdict);
      LookupLooks(t.plane.(tokenGood := tries[0].login.Token? && tries[0].login.good), key, tries[1..]);
    }
  }

  // What the rounds amount to, told by their verdicts, picks and logins alone

  /** The round's request fails with what looks like a rejected token. */
  predicate Rejected(good: bool, v: Verdict) {
    !good || (!v.Served? && LooksExpired(v.error))
  }

  /** And there is another round after it. */
  predicate Again(good: bool, a: Attempt) {
    Rejected(good, a.verdict) && a.login.Token?
  }

  /** Whether the token in use is good when the rounds are over. */
  function TokenAfter(good: bool, tries: seq<Attempt>): bool
    decreases |tries|
  {
    if tries == [] || !Again(good, tries[0]) then good else TokenAfter(tries[0].login.good, tries[1..])
  }

  /** A round that is reached is served and resolves the name to a device of that name. */
  predicate Finds(good: bool, vdevs: map<VolId, Vdev>, name: VolId, tries: seq<Attempt>)
    decreases |tries|
  {
    tries != [] &&
    var v := tries[0].verdict;
    || (good && v.Served? && v.pick in vdevs && vdevs[v.pick].name == name)
    || (Again(good, tries[0]) && Finds(tries[0].login.good, vdevs, name, tries[1..]))
  }

  /** A round of an allocation takes effect: it is made with a good token, it is served or lost, and
      the ID it is given is free. */
  predicate Effective(good: bool, taken: set<VolId>, v: Verdict) {
    good && !v.Fault? && v.pick !in taken
  }

  function TakenAfter(good: bool, taken: set<VolId>, v: Verdict): set<VolId> {
    if Effective(good, taken, v) then taken + {v.pick} else taken
  }

  /** The IDs of the devices that the rounds of an allocation make. */
  function Made(good: bool, taken: set<VolId>, tries: seq<Attempt>): seq<VolId>
    decreases |tries|
  {
    if tries == [] then []
    else
      var v := tries[0].verdict;
      var rest := if Again(good, tries[0]) then Made(tries[0].login.good, TakenAfter(good, taken, v), tries[1..]) else [];
      if Effective(good, taken, v) then [v.pick] + rest else rest
  }

  lemma TryIsRejected(p: Plane, op: Op, v: Verdict)
    ensures var r := Try(p, op, v).result;
      && (r.Err? && LooksExpired(r.error) <==> Rejected(p.tokenGood, v))
      && Try(p, op, v).plane.tokenGood == p.tokenGood
  {
    hide Contains; hide Parse; hide NotFound; hide Exhausted;
    NotFoundIsPlain();
  }

  /** A lookup by name succeeds exactly if a round finds the name, and changes nothing but the token. */
  lemma {:induction false} LookupFindsExactly(p: Plane, name: VolId, tries: seq<Attempt>)
    requires Parse(name.text).None?
    ensures var t := Retry(p, GetVdev(name), tries);
      && (t.result.Ok? <==> Finds(p.tokenGood, p.vdevs, name, tries))
      && t.plane == p.(tokenGood := TokenAfter(p.tokenGood, tries))
    decreases |tries|
  {
    hide LooksExpired; hide Parse; hide NotFound; hide Exhausted;
    if tries != [] {
      var t := Try(p, GetVdev(name), tries[0].verdict);
      TryIsRejected(p, GetVdev(name), tries[0].verdict);
      if Again(p.tokenGood, tries[0]) {
        LookupFindsExactly(t.plane.(tokenGood := tries[0].login.good), name, tries[1..]);
      }
    }
  }

  /** The devices of p and those made, each of this name and size. */
  ghost predicate With(p: Plane, q: Plane, made: seq<VolId>, name: VolId, size: int) {
    && (forall id :: id in q.vdevs <==> id in p.vdevs || id in made)
    && (forall id | id in p.vdevs :: id !in made && q.vdevs[id] == p.vdevs[id])
    && (forall id | id in made :: q.vdevs[id] == Vdev(name, size))
    && (forall i, j | 0 <= i < j < |made| :: made[i] != made[j])
  }

  lemma WithMore(p: Plane, q: Plane, r: Plane, id: VolId, made: seq<VolId>, name: VolId, size: int)
    requires id !in p.vdevs && q.vdevs == p.vdevs[id := Vdev(name, size)] && With(q, r, made, name, size)
    ensures With(p, r, [id] + made, name, size)
  {
    assert forall k :: k in [id] + made <==> k == id || k in made;
    assert q.vdevs[id] == Vdev(name, size);
  }

  /** An allocation makes exactly those devices; on success it returns the ID of the last. */
  lemma {:induction false} AllocMakes(p: Plane, name: VolId, size: int, tries: seq<Attempt>)
    ensures var t, made := Retry(p, CreateVdev(name, size), tries), Made(p.tokenGood, p.vdevs.Keys, tries);
      && With(p, t.plane, made, name, size)
      && (t.result.Ok? ==> made != [] && t.result.reply == Created(made[|made| - 1]))
    decreases |tries|
  {
    hide LooksExpired; hide NotFound; hide Exhausted; hide With;
    NoneMade(p, p, name, size);
    if tries != [] {
      var op, v := CreateVdev(name, size), tries[0].verdict;
      var t := Try(p, op, v);
      TryIsRejected(p, op, v);
      var q := t.plane.(tokenGood := tries[0].login.Token? && tries[0].login.good);
      assert q.vdevs.Keys == TakenAfter(p.tokenGood, p.vdevs.Keys, v);
      var rest := if Again(p.tokenGood, tries[0]) then Made(q.tokenGood, q.vdevs.Keys, tries[1..]) else [];
      var r := Retry(p, op, tries).plane;
      if Again(p.tokenGood, tries[0]) { AllocMakes(q, name, size, tries[1..]); } else { NoneMade(q, r, name, size); }
      if Effective(p.tokenGood, p.vdevs.Keys, v) {
        WithMore(p, q, r, v.pick, rest, name, size);
      } else {
        SameWith(p, q, r, rest, name, size);
      }
    }
  }

  lemma NoneMade(p: Plane, q: Plane, name: VolId, size: int)
    ensures p.vdevs == q.vdevs ==> With(p, q, [], name, size)
  {
  }

  lemma SameWith(p: Plane, q: Plane, r: Plane, made: seq<VolId>, name: VolId, size: int)
    requires p.vdevs == q.vdevs && With(q, r, made, name, size)
    ensures With(p, r, made, name, size)
  {
  }

  /** If errors that look like a rejected token mean no effect, at most one device is made. */
  lemma {:induction false} HarmlessMakesOne(good: bool, taken: set<VolId>, tries: seq<Attempt>)
    requires AuthHarmless(tries)
    ensures |Made(good, taken, tries)| <= 1
    decreases |tries|
  {
    hide LooksExpired;
    if tries != [] {
      assert tries[0].verdict.Lost? ==> !LooksExpired(tries[0].verdict.error);
      if Again(good, tries[0]) {
        forall i | 0 <= i < |tries[1..]| && tries[1..][i].verdict.Lost? ensures !LooksExpired(tries[1..][i].verdict.error) {
          assert tries[1..][i] == tries[i + 1];
        }
        HarmlessMakesOne(tries[0].login.good, TakenAfter(good, taken, tries[0].verdict), tries[1..]);
      }
    }
  }

  /** So an allocation makes at most one device then, and on success the one whose ID it returns. */
  lemma {:induction false} AllocMakesOne(p: Plane, name: VolId, size: int, tries: seq<Attempt>)
    requires AuthHarmless(tries)
    ensures var t := Retry(p, CreateVdev(name, size), tries);
      && OneMore(p, t.plane, name, size)
      && (t.result.Ok? ==> t.result.reply.Created? && t.result.reply.id !in p.vdevs
                           && t.plane.vdevs == p.vdevs[t.result.reply.id := Vdev(name, size)])
  {
    hide LooksExpired; hide Retry; hide Made; hide AuthHarmless;
    AllocMakes(p, name, size, tries);
    HarmlessMakesOne(p.tokenGood, p.vdevs.Keys, tries);
    var t, made := Retry(p, CreateVdev(name, size), tries), Made(p.tokenGood, p.vdevs.Keys, tries);
    if made == [] {
      assert t.plane.vdevs == p.vdevs;
    } else {
      assert made[0] in made && made[0] in t.plane.vdevs;
      assert t.plane.vdevs == p.vdevs[made[0] := Vdev(name, size)];
    }
  }

  /** How many devices of a name there may still be made without there being two. */
  function Room(p: Plane, name: VolId): nat {
    if Present(p, name) then 0 else 1
  }

  lemma SoleWith(p: Plane, q: Plane, made: seq<VolId>, name: VolId, size: int)
    requires Sole(p, name) && With(p, q, made, name, size)
    ensures Sole(q, name) <==> |made| <= Room(p, name)
    ensures made != [] || Present(p, name) ==> Present(q, name)
  {
    if made != [] {
      assert made[0] in made && q.vdevs[made[0]].name == name;
      if |made| > 1 { assert made[0] != made[1] && made[1] in made && q.vdevs[made[1]].name == name; }
    }
    if Present(p, name) {
      var one :| one in p.vdevs && p.vdevs[one].name == name;
      assert one in q.vdevs && q.vdevs[one].name == name;
    }
  }

  /** One allocation's exact condition: where the name is free, it ends with two devices of it if and
      only if the first round took effect but came back with what looks like a rejected token, and
      the second round, with a good token and another free ID, took effect too.  Where there is a
      device already, if and only if one of the rounds took effect.  With a token that is not good
      to begin with, the first round never does. */
  lemma {:induction false} ExpiredTextDuplicates(p: Plane, name: VolId, size: int, tries: seq<Attempt>)
    requires |tries| == MAX_RETRY && Sole(p, name)
    ensures var v, w := tries[0].verdict, tries[1].verdict;
      var first := p.tokenGood && !v.Fault? && v.pick !in p.vdevs;
      var again := (!p.tokenGood || (!v.Served? && LooksExpired(v.error))) && tries[0].login == Token(true);
      var second := again && !w.Fault? && w.pick !in p.vdevs;
      !Sole(Retry(p, CreateVdev(name, size), tries).plane, name) <==>
        if Present(p, name) then first || second else first && second && w.pick != v.pick
  {
    hide LooksExpired; hide NotFound; hide Exhausted; hide Retry; hide Sole; hide Present;
    AllocMakes(p, name, size, tries);
    SoleWith(p, Retry(p, CreateVdev(name, size), tries).plane, Made(p.tokenGood, p.vdevs.Keys, tries), name, size);
    MadeInTwo(p.tokenGood, p.vdevs.Keys, tries);
  }

  lemma {:induction false} MadeInTwo(good: bool, taken: set<VolId>, tries: seq<Attempt>)
    requires |tries| == 2
    ensures var v, w := tries[0].verdict, tries[1].verdict;
      var second := Again(good, tries[0]) && Effective(tries[0].login.good, TakenAfter(good, taken, v), w);
      |Made(good, taken, tries)| == (if Effective(good, taken, v) then 1 else 0) + (if second then 1 else 0)
  {
    hide LooksExpired; hide Effective; hide Rejected; hide TakenAfter;
    assert tries[1..][0] == tries[1] && tries[1..][1..] == [];
    if Again(good, tries[0]) {
      var good2, taken2 := tries[0].login.good, TakenAfter(good, taken, tries[0].verdict);
      assert |Made(good2, taken2, tries[1..])| == if Effective(good2, taken2, tries[1].verdict) then 1 else 0;
    }
  }

  // What one CreateVolume does

  /** The devices it makes: none if the lookup finds the name. */
  function CreateMakes(p: Plane, req: CreateRequest, c: Course): seq<VolId> {
    if Finds(p.tokenGood, p.vdevs, req.name, c.lookup) then []
    else Made(TokenAfter(p.tokenGood, c.lookup), p.vdevs.Keys, c.alloc)
  }

  /** What one CreateVolume does, for a name that is no UUID. */
  lemma {:induction false} CreateDoes(p: Plane, req: CreateRequest, c: Course)
    requires req.Valid() && Parse(req.name.text).None?
    ensures var r := CreateVolume(p, req, c);
      && With(p, r.plane, CreateMakes(p, req, c), req.name, req.Size())
      && (r.response.Volume? ==>
            && r.response.id in r.plane.vdevs && r.plane.vdevs[r.response.id] == Vdev(req.name, req.Size())
            && r.response.size == req.Size())
      && (r.response.AlreadyExists? ==> exists id | id in p.vdevs :: p.vdevs[id].name == req.name && p.vdevs[id].size != req.Size())
  {
    hide Retry; hide LooksExpired; hide Parse; hide Finds; hide Made; hide With;
    LookupLooks(p, req.name, c.lookup);
    LookupFindsExactly(p, req.name, c.lookup);
    var found := Retry(p, GetVdev(req.name), c.lookup);
    AllocMakes(found.plane, req.name, req.Size(), c.alloc);
    NoneMade(p, found.plane, req.name, req.Size());
    var made := Retry(found.plane, CreateVdev(req.name, req.Size()), c.alloc);
    var ids := Made(found.plane.tokenGood, p.vdevs.Keys, c.alloc);
    SameWith(p, found.plane, made.plane, ids, req.name, req.Size());
    if ids != [] { LastMade(p, made.plane, ids, req.name, req.Size()); }
  }

  lemma LastMade(p: Plane, q: Plane, made: seq<VolId>, name: VolId, size: int)
    requires made != [] && With(p, q, made, name, size)
    ensures var id := made[|made| - 1]; id in q.vdevs && q.vdevs[id] == Vdev(name, size)
  {
    assert made[|made| - 1] in made;
  }

  /** The condition under which a call leaves two devices where there was at most one: its lookup
      does not find the name, and its allocation makes one although there is one, or two. */
  predicate Doubles(p: Plane, req: CreateRequest, c: Course) {
    |CreateMakes(p, req, c)| > Room(p, req.name)
  }

  lemma DuplicatesExactly(p: Plane, req: CreateRequest, c: Course)
    requires req.Valid() && Parse(req.name.text).None? && Sole(p, req.name)
    ensures Sole(CreateVolume(p, req, c).plane, req.name) <==> !Doubles(p, req, c)
  {
    hide CreateVolume; hide CreateMakes; hide Parse; hide With; hide Sole; hide Present;
    CreateDoes(p, req, c);
    SoleWith(p, CreateVolume(p, req, c).plane, CreateMakes(p, req, c), req.name, req.Size());
  }

  // Repeated CreateVolume calls

  /** The same CreateVolume over and over, one after the other. */
  function CreateAll(p: Plane, req: CreateRequest, cs: seq<Course>): Plane
    decreases |cs|
  {
    if cs == [] then p else CreateAll(CreateVolume(p, req, cs[0]).plane, req, cs[1..])
  }

  function Responses(p: Plane, req: CreateRequest, cs: seq<Course>): (rs: seq<CreateResponse>)
    ensures |rs| == |cs|
    decreases |cs|
  {
    if cs == [] then []
    else [CreateVolume(p, req, cs[0]).response] + Responses(CreateVolume(p, req, cs[0]).plane, req, cs[1..])
  }

  /** One of the calls doubles the name. */
  predicate Duplicates(p: Plane, req: CreateRequest, cs: seq<Course>)
    decreases |cs|
  {
    cs != [] && (Doubles(p, req, cs[0]) || Duplicates(CreateVolume(p, req, cs[0]).plane, req, cs[1..]))
  }

  lemma {:induction false} NotSoleStays(p: Plane, req: CreateRequest, cs: seq<Course>)
    requires req.Valid() && Parse(req.name.text).None? && !Sole(p, req.name)
    ensures !Sole(CreateAll(p, req, cs), req.name)
    decreases |cs|
  {
    hide CreateVolume; hide Parse; hide CreateMakes;
    if cs != [] {
      CreateDoes(p, req, cs[0]);
      var q := CreateVolume(p, req, cs[0]).plane;
      var i, j :| i in p.vdevs && j in p.vdevs && p.vdevs[i].name == req.name && p.vdevs[j].name == req.name && i != j;
      assert i in q.vdevs && j in q.vdevs && q.vdevs[i].name == req.name && q.vdevs[j].name == req.name;
      NotSoleStays(q, req, cs[1..]);
    }
  }

  /** Exactly-once creation, with its exact condition: however often a CreateVolume is repeated, with
      tokens expiring, replies lost and requests failing in any pattern, there is at most one device
      of the name if and only if none of the calls doubles it. */
  lemma {:induction false} SoleExactly(p: Plane, req: CreateRequest, cs: seq<Course>)
    requires req.Valid() && Parse(req.name.text).None? && Sole(p, req.name)
    ensures Sole(CreateAll(p, req, cs), req.name) <==> !Duplicates(p, req, cs)
    decreases |cs|
  {
    hide CreateVolume; hide Parse; hide Doubles; hide Sole;
    if cs != [] {
      DuplicatesExactly(p, req, cs[0]);
      var q := CreateVolume(p, req, cs[0]).plane;
      if Sole(q, req.name) {
        SoleExactly(q, req, cs[1..]);
      } else {
        NotSoleStays(q, req, cs[1..]);
      }
    }
  }

  /** Once there is a device, calls return it or fail; they make no other. */
  lemma {:induction false} CreatesReturn(p: Plane, req: CreateRequest, cs: seq<Course>, id: VolId)
    requires req.Valid() && Parse(req.name.text).None? && Sole(p, req.name) && !Duplicates(p, req, cs)
    requires id in p.vdevs && p.vdevs[id].name == req.name
    ensures CreateAll(p, req, cs).vdevs == p.vdevs
    ensures forall i | 0 <= i < |cs| && Responses(p, req, cs)[i].Volume? :: Responses(p, req, cs)[i] == Volume(id, req.Size())
    decreases |cs|
  {
    hide CreateVolume; hide Parse; hide CreateMakes;
    if cs != [] {
      CreateDoes(p, req, cs[0]);
      var r := CreateVolume(p, req, cs[0]);
      assert Present(p, req.name) && !Doubles(p, req, cs[0]);
      assert r.plane.vdevs == p.vdevs;
      CreatesReturn(r.plane, req, cs[1..], id);
      var rest := Responses(r.plane, req, cs[1..]);
      forall i | 0 <= i < |cs| && Responses(p, req, cs)[i].Volume? ensures Responses(p, req, cs)[i] == Volume(id, req.Size()) {
        if i > 0 { assert ([r.response] + rest)[i] == rest[i - 1]; }
      }
    }
  }

  /** And all successful calls return the same ID, that of a device with the name and the size asked
      for. */
  lemma {:induction false} CreatesAgree(p: Plane, req: CreateRequest, cs: seq<Course>, i: nat, j: nat)
    requires req.Valid() && Parse(req.name.text).None? && Sole(p, req.name) && !Duplicates(p, req, cs)
    requires i < |cs| && j < |cs| && Responses(p, req, cs)[i].Volume? && Responses(p, req, cs)[j].Volume?
    ensures var q := CreateAll(p, req, cs); var r := Responses(p, req, cs)[i];
      r == Responses(p, req, cs)[j] && r.id in q.vdevs && q.vdevs[r.id] == Vdev(req.name, req.Size()) && r.size == req.Size()
    decreases |cs|
  {
    hide CreateVolume; hide Parse; hide Doubles; hide With; hide CreateMakes;
    CreateDoes(p, req, cs[0]);
    DuplicatesExactly(p, req, cs[0]);
    var r := CreateVolume(p, req, cs[0]);
    var rest := Responses(r.plane, req, cs[1..]);
    assert forall k | 0 < k < |cs| :: ([r.response] + rest)[k] == rest[k - 1];
    if r.response.Volume? {
      CreatesReturn(r.plane, req, cs[1..], r.response.id);
    } else {
      CreatesAgree(r.plane, req, cs[1..], i - 1, j - 1);
    }
  }

  /** A round that is reached with a good token is served. */
  predicate ReachesService(good: bool, tries: seq<Attempt>)
    decreases |tries|
  {
    tries != []
    && ((good && tries[0].verdict.Served?) || (Again(good, tries[0]) && ReachesService(tries[0].login.good, tries[1..])))
  }

  /** A name that is there resolves to its device. */
  predicate TrueIndex(p: Plane, name: VolId, tries: seq<Attempt>) {
    forall i | 0 <= i < |tries| && tries[i].verdict.Served? && Present(p, name) ::
      tries[i].verdict.pick in p.vdevs && p.vdevs[tries[i].verdict.pick].name == name
  }

  /** Every call's lookup gets through in the end and resolves the name truly, and errors of its
      allocation that look like a rejected token mean no effect. */
  predicate LookupsServed(p: Plane, req: CreateRequest, cs: seq<Course>)
    decreases |cs|
  {
    cs == []
    || (&& ReachesService(p.tokenGood, cs[0].lookup) && TrueIndex(p, req.name, cs[0].lookup) && AuthHarmless(cs[0].alloc)
        && LookupsServed(CreateVolume(p, req, cs[0]).plane, req, cs[1..]))
  }

  lemma {:induction false} ServedFinds(good: bool, p: Plane, name: VolId, tries: seq<Attempt>)
    requires ReachesService(good, tries) && TrueIndex(p, name, tries) && Present(p, name)
    ensures Finds(good, p.vdevs, name, tries)
    decreases |tries|
  {
    hide LooksExpired; hide Present;
    if good && tries[0].verdict.Served? {
      assert tries[0].verdict.pick in p.vdevs;
    } else {
      assert forall i | 0 <= i < |tries[1..]| :: tries[1..][i] == tries[i + 1];
      ServedFinds(tries[0].login.good, p, name, tries[1..]);
    }
  }

  /** Exactly-once creation: if lookups get through in the end and resolve truly, and errors that
      look like a rejected token mean no effect, no pattern of expiring tokens and lost replies makes
      a second device of the name, and all successes return the same ID and size. */
  lemma {:induction false} ExactlyOnce(p: Plane, req: CreateRequest, cs: seq<Course>)
    requires req.Valid() && Parse(req.name.text).None? && Sole(p, req.name) && LookupsServed(p, req, cs)
    ensures !Duplicates(p, req, cs) && Sole(CreateAll(p, req, cs), req.name)
    ensures forall i, j | 0 <= i < |cs| && 0 <= j < |cs| && Responses(p, req, cs)[i].Volume? && Responses(p, req, cs)[j].Volume? ::
      Responses(p, req, cs)[i] == Responses(p, req, cs)[j]
  {
    NeverDoubles(p, req, cs);
    hide LookupsServed; hide Duplicates; hide Sole; hide Parse; hide CreateAll; hide Responses;
    SoleExactly(p, req, cs);
    forall i, j | 0 <= i < |cs| && 0 <= j < |cs| && Responses(p, req, cs)[i].Volume? && Responses(p, req, cs)[j].Volume?
      ensures Responses(p, req, cs)[i] == Responses(p, req, cs)[j]
    {
      CreatesAgree(p, req, cs, i, j);
    }
  }

  lemma {:induction false} NeverDoubles(p: Plane, req: CreateRequest, cs: seq<Course>)
    requires LookupsServed(p, req, cs)
    ensures !Duplicates(p, req, cs)
    decreases |cs|
  {
    hide CreateVolume; hide Present; hide ReachesService; hide TrueIndex; hide AuthHarmless; hide Finds; hide Made;
    if cs != [] {
      HarmlessMakesOne(TokenAfter(p.tokenGood, cs[0].lookup), p.vdevs.Keys, cs[0].alloc);
      if Present(p, req.name) { ServedFinds(p.tokenGood, p, req.name, cs[0].lookup); }
      NeverDoubles(CreateVolume(p, req, cs[0]).plane, req, cs[1..]);
    }
  }

  const TIMEOUT := Attempt(Fault(Error(false, "timeout")), LoginFailed)

  lemma {:induction false} TimeoutIsAnError(p: Plane, op: Op)
    requires p.tokenGood
    ensures Retry(p, op, [TIMEOUT, TIMEOUT]) == Tried(p, Err(TIMEOUT.verdict.error))
  {
    PlainError(TIMEOUT.verdict.error);
    hide LooksExpired; hide NotFound; hide Exhausted;
  }

  /** It does happen: a lookup that times out, and the name has two devices. */
  lemma LookupFaultDuplicates(name: VolId, first: VolId, second: VolId)
    requires name.text != "" && Parse(name.text).None? && first != second
    ensures var p := Plane(map[first := Vdev(name, DEFAULT_SIZE)], true);
      var req := CreateRequest(name, Some(0), [Block]);
      var served := Attempt(Served(second), LoginFailed);
      var r := CreateVolume(p, req, Course([TIMEOUT, TIMEOUT], [served, served]));
      r.response == Volume(second, DEFAULT_SIZE) && !Sole(r.plane, name)
  {
    var p := Plane(map[first := Vdev(name, DEFAULT_SIZE)], true);
    TimeoutIsAnError(p, GetVdev(name));
    hide LooksExpired; hide Parse; hide NotFound; hide Exhausted;
    var q := p.vdevs[second := Vdev(name, DEFAULT_SIZE)];
    assert q[first].name == name && q[second].name == name;
  }

  // DeleteVolume

  datatype DeleteResponse = DeleteOk | DeleteInternal | DeleteInvalid

  datatype Deletion = Deletion(plane: Plane, response: DeleteResponse)

  /** Any error of the lookup is taken for the volume being gone. */
  function DeleteVolume(p: Plane, id: VolId, lookup: seq<Attempt>, removal: seq<Attempt>): Deletion {
    if id.text == "" then Deletion(p, DeleteInvalid)
    else
      var found := Retry(p, GetVdev(id), lookup);
      if found.result.Err? then Deletion(found.plane, DeleteOk)
      else
        var removed := Retry(found.plane, DeleteVdev(id), removal);
        Deletion(removed.plane, if removed.result.Ok? then DeleteOk else DeleteInternal)
  }

  lemma {:induction false} RemovalRemoves(p: Plane, id: VolId, tries: seq<Attempt>)
    ensures var t := Retry(p, DeleteVdev(id), tries);
      && (t.plane.vdevs == p.vdevs || t.plane.vdevs == p.vdevs - {id})
      && (t.result.Ok? ==> t.plane.vdevs == p.vdevs - {id})
    decreases |tries|
  {
    hide LooksExpired; hide NotFound; hide Exhausted;
    if tries != [] {
      var t := Try(p, DeleteVdev(id), tries[0].verdict);
      var q := t.plane.(tokenGood := tries[0].login.Token? && tries[0].login.good);
      RemovalRemoves(q, id, tries[1..]);
      assert p.vdevs - {id} - {id} == p.vdevs - {id};
    }
  }

  /** A DeleteVolume touches no other device, and one that reports success leaves the device in place
      if and only if the device was there and the lookup came back with an error. */
  lemma {:induction false} DeletesExactly(p: Plane, id: VolId, lookup: seq<Attempt>, removal: seq<Attempt>)
    ensures var r := DeleteVolume(p, id, lookup, removal);
      && r.plane.vdevs - {id} == p.vdevs - {id}
      && (r.response.DeleteOk? ==>
            (id in r.plane.vdevs <==> id in p.vdevs && Retry(p, GetVdev(id), lookup).result.Err?))
  {
    LookupLooks(p, id, lookup);
    RemovalRemoves(Retry(p, GetVdev(id), lookup).plane, id, removal);
    hide Retry; hide Parse;
    assert p.vdevs - {id} - {id} == p.vdevs - {id};
  }
}
