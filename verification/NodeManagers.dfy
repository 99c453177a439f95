/** The device and mount managers of the node plugin. */
module NodeManagers {
  import opened Uuid
  import opened Types
  import opened HostModel
  import opened Machine
  import opened NodeHost

  const WAIT := 30000
  const PAUSE := 500

  /** Looks at the link from time t0 on: at least a pause apart, beginning before the deadline, and
      all but the last one in vain. */
  predicate Sightings(seen: seq<Sighting>, t0: int) {
    && |seen| <= WAIT / PAUSE
    && (forall i | 0 <= i < |seen| :: seen[i].at >= t0 + PAUSE * i)
    && (forall i | 0 <= i < |seen| - 1 :: !seen[i].linked && seen[i].at + PAUSE <= seen[i + 1].at && seen[i].at + PAUSE < t0 + WAIT)
  }

  /** Looks take no time and pauses are exact. */
  predicate OnTime(seen: seq<Sighting>, t0: int) {
    forall i | 0 <= i < |seen| :: seen[i].at == t0 + PAUSE * i
  }

  /** A wait that is on time finds every link that appears within 29.5 seconds and stays. */
  lemma WaitFindsLink(seen: seq<Sighting>, t0: int, visible: int -> bool, appears: int)
    requires seen != [] && Sightings(seen, t0) && OnTime(seen, t0)
    requires !seen[|seen| - 1].linked ==> |seen| == WAIT / PAUSE
    requires forall i | 0 <= i < |seen| :: seen[i].linked == visible(seen[i].at)
    requires appears <= t0 + 29500 && forall t | t >= appears :: visible(t)
    ensures seen[|seen| - 1].linked
    ensures forall i | 0 <= i < |seen| - 1 :: seen[i].at < appears
  {
    assert |seen| == WAIT / PAUSE ==> seen[|seen| - 1].at == t0 + 29500;
  }

  /** In milliseconds: at most 60 looks, half a second apart at least, all but the last within 29.5
      seconds - and on time, one at each half second from the first moment on. */
  lemma WaitLooks(seen: seq<Sighting>, t0: int)
    requires Sightings(seen, t0)
    ensures |seen| <= 60
    ensures forall i | 0 <= i < |seen| - 1 :: seen[i].at + 500 <= seen[i + 1].at && seen[i].at < t0 + 29500
    ensures OnTime(seen, t0) ==> forall i | 0 <= i < |seen| :: seen[i].at == t0 + 500 * i
    ensures OnTime(seen, t0) && |seen| == WAIT / PAUSE ==> |seen| == 60
  {
  }

  /** All looks so far were in vain, and each was followed by a pause. */
  predicate Waiting(seen: seq<Sighting>, t0: int, now: int, onTime: bool) {
    && Sightings(seen, t0)
    && now >= t0 + PAUSE * |seen|
    && (seen != [] ==> !seen[|seen| - 1].linked && now >= seen[|seen| - 1].at + PAUSE)
    && (onTime ==> OnTime(seen, t0) && now == t0 + PAUSE * |seen|)
  }

  lemma StartWaiting(t0: int)
    ensures Waiting([], t0, t0, true)
  {
  }

  lemma LookAgain(seen: seq<Sighting>, t0: int, now: int, onTime: bool, s: Sighting)
    requires Waiting(seen, t0, now, onTime) && now < t0 + WAIT && s.at >= now
    ensures Sightings(seen + [s], t0)
    ensures onTime && s.at == now ==> OnTime(seen + [s], t0)
  {
  }

  lemma WaitOn(seen: seq<Sighting>, t0: int, now: int, onTime: bool, s: Sighting, later: int)
    requires Waiting(seen, t0, now, onTime) && now < t0 + WAIT && s.at >= now && !s.linked && later >= s.at + PAUSE
    ensures Waiting(seen + [s], t0, later, onTime && s.at == now && later == s.at + PAUSE)
  {
    LookAgain(seen, t0, now, onTime, s);
  }

  lemma WaitedInVain(seen: seq<Sighting>, t0: int, now: int, onTime: bool)
    requires Waiting(seen, t0, now, onTime) && now >= t0 + WAIT && seen != []
    ensures Sightings(seen, t0) && !seen[|seen| - 1].linked
    ensures onTime ==> OnTime(seen, t0) && |seen| == WAIT / PAUSE
  {
  }

  class UblkManager {
    const host: HostSystem

    constructor (host: HostSystem)
      ensures this.host == host
    {
      this.host := host;
    }

    /** Polls for the link, and gives up after 30 seconds: no more than 60 looks, and a path only
        if one of them saw the link. */
    method WaitForByUUIDLink(v: VolId) returns (path: DevPath, ok: bool, ghost seen: seq<Sighting>, ghost onTime: bool)
      requires host.At(WaitLink) && v == host.F().req.vol == host.call.vol
      modifies host
      ensures host.Goes(AfterWait(old(host.F()), ok)) && (ok ==> path == UblkByUUIDPath(v))
      ensures seen != [] && Sightings(seen, old(host.now)) && ok == seen[|seen| - 1].linked
      ensures onTime ==> OnTime(seen, old(host.now)) && (!ok ==> |seen| == WAIT / PAUSE)
    {
      hide Sightings; hide OnTime; hide Run; hide Replies; hide Written; hide CallLog; hide Waiting;
      path, seen, onTime := UblkByUUIDPath(v), [], true;
      var deadline := host.now + WAIT;
      ghost var t0, r0 := host.now, host.run;
      ghost var looked := host.log;
      StartWaiting(t0);
      while host.now < deadline
        invariant host.At(WaitLink) && host.SameCall() && SameCalls(r0, host.run)
        invariant Waiting(seen, t0, host.now, onTime)
        invariant seen == [] ==> host.now == t0
        invariant seen != [] ==>
          looked != [] && HostSince(looked, host.log) && !Linked(Run(host.start, looked).host, host.call.vol)
        decreases deadline - host.now
      {
        ghost var begun, before, timely := host.now, seen, onTime;
        var linked := host.Lstat(path);
        LookAgain(seen, t0, begun, onTime, Sighting(host.now, linked));
        seen := seen + [Sighting(host.now, linked)];
        onTime := onTime && host.now == begun;
        if linked {
          host.SeeLink();
          return path, true, seen, onTime;
        }
        looked := host.log;
        ghost var asleep := host.now;
        host.Sleep(PAUSE);
        onTime := onTime && host.now == asleep + PAUSE;
        WaitOn(before, t0, begun, timely, Sighting(asleep, false), host.now);
      }
      WaitedInVain(seen, t0, host.now, onTime);
      host.GiveUp(looked);
      return NoDevPath, false, seen, onTime;
    }

    /** Starts the volume's daemon and waits for its device.  A start that fails ends it there; if
        the device does not show, the daemon is stopped again. */
    method CreateUblkDevice(v: VolId) returns (path: DevPath, ok: bool)
      requires host.At(StartUblk) && v == host.F().req.vol == host.call.vol
      modifies host
      ensures ok ==> path == UblkByUUIDPath(v) && host.Goes(AfterWait(old(host.F()), true))
      ensures !ok ==> path == NoDevPath && host.Goes(Done(Internal, Keep))
    {
      ghost var r0 := host.run;
      var started := host.StartUnit(v);
      if !started {
        return NoDevPath, false;
      }
      ghost var r1 := host.run;
      ghost var seen, onTime;
      path, ok, seen, onTime := WaitForByUUIDLink(v);
      MovedTwice(r0, r1, host.run, v, WaitLink, AfterWait(old(host.F()), ok));
      hide Moved;
      if !ok {
        ghost var r2 := host.run;
        var _ := host.StopUnit(v);
        MovedTwice(r0, r2, host.run, v, StopAfterWait, Done(Internal, Keep));
        return NoDevPath, false;
      }
    }

    /** Takes a volume's device down.  Its minor is looked up first, since the link may go away with
        the daemon; without a device path there is none to look up and only the daemon is stopped. */
    method DeleteUblkDevice(v: VolId, path: DevPath, ghost why: Reason) returns (ok: bool)
      requires host.At(Delete(path, why)) && v == host.F().req.vol == host.call.vol && path == host.F().dev
      modifies host
      ensures host.Goes(AfterDelete(why))
    {
      ghost var r0 := host.run;
      var id: Option<nat> := None;
      if path != NoDevPath {
        id := host.ResolveUblkId(path);
        if id.None? {
          return false;
        }
      }
      ghost var r1 := host.run;
      var stopped := host.StopUnit(v);
      if !stopped || id.None? {
        if path != NoDevPath { MovedTwice(r0, r1, host.run, v, DelStop(why, id), AfterDelete(why)); }
        return stopped;
      }
      ghost var r2 := host.run;
      MovedTwice(r0, r1, r2, v, DelStop(why, id), Go(DelRun(why, id.value)));
      ok := host.UblkDel(id.value);
      MovedTwice(r0, r2, host.run, v, DelRun(why, id.value), AfterDelete(why));
    }
  }

  class MountManager {
    const host: HostSystem

    constructor (host: HostSystem)
      ensures this.host == host
    {
      this.host := host;
    }

    /** Whether a device may be mounted as the type asked for: that type must be supported, and so
        must be whatever filesystem is on the device. */
    method ValidateFilesystemCompatibility(dev: DevPath, requested: FsType) returns (ok: bool)
      requires host.Valid() && (requested.Supported() ==> host.At(ProbeCompat) && dev == host.F().dev)
      modifies host
      ensures ok ==> requested.Supported() && old(host.InCall()) && host.Goes(Go(ProbeExisting))
      ensures !ok ==> if requested.Supported() then old(host.InCall()) && host.Goes(MountFailure(old(host.F()))) else unchanged(host)
    {
      if !requested.Supported() {
        return false;
      }
      var existing := host.Blkid(dev);
      return existing.Some? && (existing.value == NoFs || existing.value.Supported());
    }

    /** mkfs knows the three supported types. */
    method FormatDevice(dev: DevPath, t: FsType) returns (ok: bool)
      requires host.At(Format) && dev == host.F().dev && t == host.F().req.FsType()
      modifies host
      ensures if t.Supported() then host.Goes(AfterMkfs(old(host.F()), ok)) else !ok && unchanged(host)
    {
      if !t.Supported() {
        return false;
      }
      ok := host.Mkfs(dev, t);
    }

    /** Mounts the device at the path, as the filesystem that is on it; only if there is none, one of
        the type asked for is made first.  A path that is mounted already is left as it is. */
    method FormatAndMountDevice(dev: DevPath, target: Path, requested: FsType) returns (ok: bool)
      requires host.At(MkdirStaging) && dev == host.F().dev && target == host.F().req.staging && requested == host.F().req.FsType()
      modifies host
      ensures host.Goes(if ok then Go(Insert) else MountFailure(old(host.F())))
    {
      hide Moved; hide FsType.Supported; hide Run; hide CallLog;
      ghost var v, r0, f0 := host.call.vol, host.run, host.F();
      ghost var failed := Delete(f0.dev, MountFailed);
      ok := host.MkdirAll(target);
      if !ok {
        return;
      }
      ghost var r1 := host.run;
      MovedOnce(r0, r1, v, if requested.Supported() then ProbeCompat else failed);
      ok := ValidateFilesystemCompatibility(dev, requested);
      if !ok {
        if requested.Supported() { MovedTwice(r0, r1, host.run, v, ProbeCompat, Go(failed)); }
        return;
      }
      ghost var r2 := host.run;
      MovedTwice(r0, r1, r2, v, ProbeCompat, Go(ProbeExisting));
      var existing := host.Blkid(dev);
      if existing.None? {
        MovedTwice(r0, r2, host.run, v, ProbeExisting, Go(failed));
        return false;
      }
      MovedTwice(r0, r2, host.run, v, ProbeExisting, AfterBlkid(f0.(pc := ProbeExisting), existing));
      var mountFsType, needsFormatting := requested, false;
      if existing.value == NoFs {
        needsFormatting := true;
      } else {
        mountFsType := existing.value;
      }
      if needsFormatting {
        ghost var r3 := host.run;
        ok := FormatDevice(dev, requested);
        MovedTwice(r0, r3, host.run, v, Format, AfterMkfs(f0, ok));
        if !ok {
          return;
        }
      }
      ghost var r4 := host.run;
      ok := MountUnlessMounted(dev, target, mountFsType);
      MovedTwice(r0, r4, host.run, v, CheckStaging(mountFsType), if ok then Go(Insert) else Go(failed));
    }

    /** The end of FormatAndMountDevice, from where the type is settled. */
    method MountUnlessMounted(dev: DevPath, target: Path, mountFsType: FsType) returns (ok: bool)
      requires host.At(CheckStaging(mountFsType)) && dev == host.F().dev && target == host.F().req.staging
      modifies host
      ensures host.Goes(if ok then Go(Insert) else MountFailure(old(host.F())))
    {
      ghost var v, r0, f0 := host.call.vol, host.run, host.F();
      var mounted := host.IsMountPoint(target);
      if mounted.Mounted? {
        return true;
      }
      if !mounted.NotMounted? {
        return false;
      }
      ghost var r1 := host.run;
      ok := host.MountDevice(dev, target, mountFsType);
      MovedTwice(r0, r1, host.run, v, MountStaging(mountFsType), if ok then Go(Insert) else MountFailure(f0));
    }

    /** Unmounts the path, if it is there and mounted. */
    method Unmount(target: Path, ghost at: Site) returns (ok: bool)
      requires host.At(UmStat(at)) && target == SitePath(host.F().req, at)
      modifies host
      ensures host.Goes(AfterUnmount(old(host.F()), at, ok))
    {
      ghost var v, r0, f0 := host.call.vol, host.run, host.F();
      var found := host.Stat(target);
      if found.NotExist? {
        return true;
      }
      if !found.Exists? {
        return false;
      }
      ghost var r1 := host.run;
      MovedOnce(r0, r1, v, UmCheck(at));
      hide Moved;
      var mounted := host.IsMountPoint(target);
      MovedTwice(r0, r1, host.run, v, UmCheck(at), AfterCheck(f0.(pc := UmCheck(at)), mounted));
      if mounted.CheckFailed? {
        return false;
      }
      if !mounted.Mounted? {
        return true;
      }
      ghost var r2 := host.run;
      ok := host.Unmount(target);
      MovedTwice(r0, r2, host.run, v, UmUnmount(at), AfterUnmount(f0, at, ok));
    }

    /** Unmounts the path and removes it, if it is empty. */
    method CleanupMountPoint(target: Path, ghost at: Site) returns (ok: bool)
      requires at.UnstageCleanup? || at.UnpublishCleanup?
      requires host.At(UmStat(at)) && target == SitePath(host.F().req, at)
      modifies host
      ensures host.Goes(AfterCleanup(at))
    {
      ghost var v, r0 := host.call.vol, host.run;
      ok := Unmount(target, at);
      if !ok {
        return;
      }
      ghost var r1 := host.run;
      MovedOnce(r0, r1, v, RemovePath(at));
      hide Moved;
      var removed := host.Remove(target);
      MovedTwice(r0, r1, host.run, v, RemovePath(at), AfterCleanup(at));
      ok := !removed.RemoveFailed?;
    }

    /** Binds a raw device to a target that is there, unless something is mounted at it already. */
    method BindRawBlock(source: DevPath, target: Path) returns (ok: bool)
      requires host.At(StatTarget) && host.F().req.IsBlock() && source == host.F().dev && target == host.F().req.target
      modifies host
      ensures host.Goes(OrFail(RecordTarget, ok))
    {
      ghost var v, r0, f0 := host.call.vol, host.run, host.F();
      var info := host.Stat(target);
      if !info.Exists? {
        return false;
      }
      ghost var r1 := host.run;
      MovedOnce(r0, r1, v, CheckTarget);
      hide Moved;
      var mounted := host.IsMountPoint(target);
      MovedTwice(r0, r1, host.run, v, CheckTarget, AfterCheck(f0.(pc := CheckTarget), mounted));
      if mounted.Mounted? {
        return true;
      }
      if !mounted.NotMounted? {
        return false;
      }
      ghost var r2 := host.run;
      ok := host.BindDevice(source, target);
      MovedTwice(r0, r2, host.run, v, BindTarget, OrFail(RecordTarget, ok));
    }

    /** Binds the staging path to the target, which is made if need be, unless something is mounted
        at the target already. */
    method BindMount(source: Path, target: Path) returns (ok: bool)
      requires host.At(MkdirTarget) && !host.F().req.IsBlock() && source == host.F().req.staging && target == host.F().req.target
      modifies host
      ensures host.Goes(OrFail(RecordTarget, ok))
    {
      ghost var v, r0, f0 := host.call.vol, host.run, host.F();
      ok := host.MkdirAll(target);
      if !ok {
        return;
      }
      ghost var r1 := host.run;
      MovedOnce(r0, r1, v, CheckTarget);
      hide Moved;
      var mounted := host.IsMountPoint(target);
      MovedTwice(r0, r1, host.run, v, CheckTarget, AfterCheck(f0.(pc := CheckTarget), mounted));
      if mounted.Mounted? {
        return true;
      }
      if !mounted.NotMounted? {
        return false;
      }
      ghost var r2 := host.run;
      ok := host.BindPath(source, target);
      MovedTwice(r0, r2, host.run, v, BindTarget, OrFail(RecordTarget, ok));
    }
  }
}
