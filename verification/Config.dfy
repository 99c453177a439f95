/** The configuration manager: requests to the control plane with a renewed login, and the recovery
    of the node's volume map. */
module Config {
  import opened Uuid
  import opened Types
  import opened ControlPlane
  import opened HostModel
  import opened Machine
  import opened NodeTypes

  /** The control plane's client and the login service; how they fare is not the plugin's to say. */
  class CpClient {
    var plane: Plane

    constructor (p: Plane)
      ensures plane == p
    {
      plane := p;
    }

    method Send(op: Op) returns (r: Result, ghost v: Verdict)
      modifies this
      ensures Tried(plane, r) == Try(old(plane), op, v)
    {
      var verdict: Verdict := *;
      var t := Try(plane, op, verdict);
      plane, r, v := t.plane, t.result, verdict;
    }

    method Login() returns (ok: bool, ghost l: Login)
      modifies this
      ensures ok == l.Token? && plane == if l.Token? then old(plane).(tokenGood := l.good) else old(plane)
    {
      var login: Login := *;
      if login.Token? {
        plane := plane.(tokenGood := login.good);
      }
      ok, l := login.Token?, login;
    }
  }

  /** All these rounds ended with a renewed login, the last of them in q. */
  ghost predicate Renewed(p: Plane, op: Op, tries: seq<Attempt>, q: Plane)
    decreases |tries|
  {
    if tries == [] then p == q
    else
      var t := Try(p, op, tries[0].verdict);
      && t.result.Err? && LooksExpired(t.result.error) && tries[0].login.Token?
      && Renewed(t.plane.(tokenGood := tries[0].login.good), op, tries[1..], q)
  }

  lemma {:induction false} RenewedThen(p: Plane, op: Op, tries: seq<Attempt>, q: Plane, rest: seq<Attempt>)
    requires Renewed(p, op, tries, q)
    ensures Retry(p, op, tries + rest) == Retry(q, op, rest)
    decreases |tries|
  {
    hide LooksExpired; hide Try;
    if tries == [] {
      assert tries + rest == rest;
    } else {
      assert (tries + rest)[1..] == tries[1..] + rest;
      RenewedThen(Try(p, op, tries[0].verdict).plane.(tokenGood := tries[0].login.good), op, tries[1..], q, rest);
    }
  }

  lemma {:induction false} RenewedAgain(p: Plane, op: Op, tries: seq<Attempt>, q: Plane, a: Attempt)
    requires Renewed(p, op, tries, q) && a.login.Token?
    requires Try(q, op, a.verdict).result.Err? && LooksExpired(Try(q, op, a.verdict).result.error)
    ensures Renewed(p, op, tries + [a], Try(q, op, a.verdict).plane.(tokenGood := a.login.good))
    decreases |tries|
  {
    hide LooksExpired; hide Try;
    if tries == [] {
      assert tries + [a] == [a] && [a][1..] == [];
    } else {
      assert (tries + [a])[1..] == tries[1..] + [a];
      RenewedAgain(Try(p, op, tries[0].verdict).plane.(tokenGood := tries[0].login.good), op, tries[1..], q, a);
    }
  }

  lemma {:induction false} EndsHere(p: Plane, op: Op, tries: seq<Attempt>, q: Plane, a: Attempt, unused: seq<Attempt>)
    requires Renewed(p, op, tries, q) && a.login.LoginFailed?
    ensures Retry(p, op, tries + ([a] + unused)) == Try(q, op, a.verdict)
  {
    hide Try; hide LooksExpired;
    RenewedThen(p, op, tries, q, [a] + unused);
    assert ([a] + unused)[0] == a;
  }

  class ConfigManager {
    const client: CpClient

    constructor (client: CpClient)
      ensures this.client == client
    {
      this.client := client;
    }

    method UserLogin() returns (ok: bool, ghost l: Login)
      modifies client
      ensures ok == l.Token? && client.plane == if l.Token? then old(client.plane).(tokenGood := l.good) else old(client.plane)
    {
      ok, l := client.Login();
    }

    /** Logs in again if the error looks like a rejected token. */
    method VerifyTokenExpiryAndReLogin(exp: Error) returns (ok: bool, ghost l: Login)
      modifies client
      ensures !LooksExpired(exp) ==> !ok && client.plane == old(client.plane)
      ensures LooksExpired(exp) ==>
        ok == l.Token? && client.plane == if l.Token? then old(client.plane).(tokenGood := l.good) else old(client.plane)
    {
      l := LoginFailed;
      if exp.tokenExpired || Contains(exp.text, "expired") || Contains(exp.text, "Invalid Token") {
        ok, l := UserLogin();
      } else {
        ok := false;
      }
    }

    /** Makes a request, and again after a new login while it fails with what looks like a rejected
        token, MAX_RETRY times at most. */
    method RetryAuth(op: Op) returns (r: Result, ghost tries: seq<Attempt>)
      modifies client
      ensures |tries| == MAX_RETRY && Tried(client.plane, r) == Retry(old(client.plane), op, tries)
    {
      ghost var p := client.plane;
      hide Try; hide LooksExpired;
      tries := [];
      for i := 0 to MAX_RETRY
        invariant |tries| == i && Renewed(p, op, tries, client.plane)
      {
        ghost var q := client.plane;
        ghost var v, l;
        r, v := client.Send(op);
        ghost var unused := seq(MAX_RETRY - i - 1, _ => TIMEOUT);
        if r.Ok? {
          EndsHere(p, op, tries, q, Attempt(v, LoginFailed), unused);
          tries := tries + ([Attempt(v, LoginFailed)] + unused);
          return;
        }
        var ok;
        ok, l := VerifyTokenExpiryAndReLogin(r.error);
        if !ok {
          EndsHere(p, op, tries, q, Attempt(v, LoginFailed), unused);
          tries := tries + ([Attempt(v, LoginFailed)] + unused);
          return;
        }
        RenewedAgain(p, op, tries, q, Attempt(v, l));
        tries := tries + [Attempt(v, l)];
      }
      RenewedThen(p, op, tries, client.plane, []);
      assert tries + [] == tries;
      r := Err(Exhausted());
    }

    method AllocVdev(name: VolId, requiredSize: int) returns (id: Option<VolId>, ghost tries: seq<Attempt>)
      modifies client
      ensures |tries| == MAX_RETRY
      ensures var made := Retry(old(client.plane), CreateVdev(name, requiredSize), tries);
        client.plane == made.plane && id == if made.result.Ok? && made.result.reply.Created? then Some(made.result.reply.id) else None
    {
      var r;
      r, tries := RetryAuth(CreateVdev(name, requiredSize));
      id := if r.Ok? && r.reply.Created? then Some(r.reply.id) else None;
    }

    method RemoveVolume(volumeID: VolId) returns (ok: bool, ghost tries: seq<Attempt>)
      modifies client
      ensures |tries| == MAX_RETRY
      ensures var removed := Retry(old(client.plane), DeleteVdev(volumeID), tries);
        client.plane == removed.plane && ok == removed.result.Ok?
    {
      var r;
      r, tries := RetryAuth(DeleteVdev(volumeID));
      ok := r.Ok?;
    }

    /** Looks a volume up by its ID, or by its name if the text is no UUID. */
    method GetVolume(volumeID: VolId) returns (found: Option<(VolId, Vdev)>, ghost tries: seq<Attempt>)
      modifies client
      ensures |tries| == MAX_RETRY
      ensures var looked := Retry(old(client.plane), GetVdev(volumeID), tries);
        && client.plane == looked.plane && (found.Some? <==> looked.result.Ok?)
        && (found.Some? ==> looked.result == Ok(Found(found.value.0, found.value.1)))
    {
      var r;
      r, tries := RetryAuth(GetVdev(volumeID));
      LookupLooks(old(client.plane), volumeID, tries);
      hide Retry;
      found := if r.Ok? && r.reply.Found? then Some((r.reply.id, r.reply.vdev)) else None;
    }

    /** One volume of the recovery: its entry, a new one if there is none, gets the parsed ID and,
        if there is one, the device path. */
    method Adopt(node: Node, volID: VolId) returns (ok: bool)
      requires node.Valid()
      modifies node, node.volMap.Values
      ensures node.Valid() && ok == Parse(volID.text).Some?
      ensures forall v | v in node.volMap :: node.volMap[v] in old(node.volMap.Values) || fresh(node.volMap[v])
      ensures var entry := (if volID in old(node.entries) then old(node.entries)[volID] else BARE_ENTRY).(volId := Parse(volID.text));
        node.entries == old(node.entries)[volID := if ok then entry.(ublkPath := UblkByUUIDPath(volID)) else entry]
    {
      hide Parse; hide Node.Valid;
      var nv := node.Lookup(volID);
      if nv == null {
        nv := new NodeVolume(None, NoDevPath, NoMode, NO_PATH);
        node.Insert(volID, nv);
      }
      var parsed := Parse(volID.text);
      node.SetVolId(volID, nv, parsed);
      if parsed.None? {
        return false;
      }
      node.SetUblkPath(volID, nv, UblkByUUIDPath(volID));
      return true;
    }

    /** Fills the volume map at startup from the control plane's list, None if there was none to
        get: a volume is adopted if its link resolves on this host.  The first ID that does not
        parse ends it. */
    method UpdateNodeVolumeMap(node: Node, host: Host, listed: Option<seq<VolId>>) returns (ok: bool)
      requires node.Valid()
      modifies node, node.volMap.Values
      ensures node.Valid()
      ensures listed.None? ==> !ok && node.entries == old(node.entries)
      ensures listed.Some? ==> (node.entries, ok) == Recover(old(node.entries), host, listed.value)
    {
      if listed.None? {
        return false;
      }
      hide Parse; hide Backing; hide Node.Valid;
      var i := 0;
      while i < |listed.value|
        invariant i <= |listed.value| && node.Valid()
        invariant forall v | v in node.volMap :: node.volMap[v] in old(node.volMap.Values) || fresh(node.volMap[v])
        invariant Recover(node.entries, host, listed.value[i..]) == Recover(old(node.entries), host, listed.value)
      {
        var volID := listed.value[i];
        assert listed.value[i..][0] == volID && listed.value[i..][1..] == listed.value[i + 1..];
        if Backing(host, UblkByUUIDPath(volID)).Some? {
          ok := Adopt(node, volID);
          if !ok {
            return;
          }
        }
        i := i + 1;
      }
      return true;
    }
  }
}
