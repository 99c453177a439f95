/** The host the node plugin drives, and what each primitive does to it.  A primitive is given
    an outcome chosen by the environment and returns the new host and what it reports. */
module HostModel {
  import opened Uuid
  import opened Types

  datatype Kind = Absent | File | Dir

  /** What one mount layer shows: the filesystem on a volume's device, the raw device, or a
      directory that was bound while nothing was mounted on it. */
  datatype Layer = Device(vol: VolId, fsType: FsType) | Raw(vol: VolId) | Plain(path: Path)

  /** units:  loaded systemd units, by name
      links:  by-uuid links, by device path, with the ublk minor they resolve to
      minors: reserved ublk minors, with the volume each one backs
      fs:     type of the filesystem on each volume's device, where there is one
      mounts: mount layers of each path, the top one last
      kinds:  what lies under the mounts of each path */
  datatype Host = Host(units: set<Unit>, links: map<DevPath, nat>, minors: map<nat, VolId>,
                       fs: map<VolId, FsType>, mounts: map<Path, seq<Layer>>, kinds: map<Path, Kind>)

  /** What blkid says: the truth, that there is no such device, nothing although it may be
      wrong (it failed for another reason), or some type although it may be wrong. */
  datatype Probe = Truth | NoDevice | Silence | Claim(fsType: FsType)

  /** ok: the primitive reports success.  did: a failed start, stop, delete or mkfs took effect
      all the same.  probe: what blkid says. */
  datatype Outcome = Outcome(ok: bool, did: bool, probe: Probe)

  /** The host after a primitive, and whether it reported success. */
  datatype Effect = Effect(host: Host, ok: bool)

  const SUCCESS := Outcome(true, false, Truth)

  function Layers(h: Host, p: Path): seq<Layer> {
    if p in h.mounts then h.mounts[p] else []
  }

  function KindOf(h: Host, p: Path): Kind {
    if p in h.kinds then h.kinds[p] else Absent
  }

  function FsOn(h: Host, v: VolId): FsType {
    if v in h.fs then h.fs[v] else NoFs
  }

  /** The volume behind a device path, if the path resolves. */
  function Backing(h: Host, dev: DevPath): Option<VolId> {
    if dev in h.links && h.links[dev] in h.minors then Some(h.minors[h.links[dev]]) else None
  }

  function FirstFree(used: set<nat>, n: nat): (r: nat)
    ensures r !in used && r >= n
    decreases |used|
  {
    if n !in used then n
    else
      var r := FirstFree(used - {n}, n + 1);
      r
  }

  // Systemd and the ublk driver

  /** A loaded unit name cannot be started again. */
  function StartUnit(h: Host, v: VolId, o: Outcome): Effect {
    if UblkUnitName(v) in h.units then Effect(h, false)
    else Effect(if o.ok || o.did then h.(units := h.units + {UblkUnitName(v)}) else h, o.ok)
  }

  /** Stopping a unit that does not exist counts as success. */
  function StopUnit(h: Host, v: VolId, o: Outcome): Effect {
    Effect(if o.ok || o.did then h.(units := h.units - {UblkUnitName(v)}) else h, o.ok)
  }

  function ResolveUblkId(h: Host, dev: DevPath, o: Outcome): Option<nat> {
    if o.ok && Backing(h, dev).Some? then Some(h.links[dev]) else None
  }

  /** `ublk del -n id`: the minor is freed and links to it go away. */
  function DeleteMinor(h: Host, id: nat, o: Outcome): Effect {
    Effect(if o.ok || o.did then
       h.(minors := h.minors - {id}, links := map d | d in h.links && h.links[d] != id :: h.links[d])
     else h,
     o.ok)
  }

  /** A running daemon brings up a device on a free minor of the kernel's choice, and udev
      points the volume's link at it. */
  function DeviceUp(h: Host, v: VolId, pref: nat): Host {
    if UblkUnitName(v) in h.units then
      var m := FirstFree(h.minors.Keys, pref);
      h.(minors := h.minors[m := v], links := h.links[UblkByUUIDPath(v) := m])
    else h
  }

  /** Udev may take a link down: when the unit has been stopped, but also when a daemon has died and
      systemd keeps its unit loaded to start it again. */
  function LinkDown(h: Host, v: VolId): Host {
    h.(links := h.links - {UblkByUUIDPath(v)})
  }

  // Filesystems on devices

  /** None is the "No such device" error; every other failure reads as no filesystem. */
  function Blkid(h: Host, dev: DevPath, o: Outcome): Option<FsType> {
    match o.probe
    case Truth => if Backing(h, dev).Some? then Some(FsOn(h, Backing(h, dev).value)) else Some(NoFs)
    case NoDevice => None
    case Silence => Some(NoFs)
    case Claim(t) => Some(t)
  }

  function Mkfs(h: Host, dev: DevPath, t: FsType, o: Outcome): Effect {
    if Backing(h, dev).None? then Effect(h, false)
    else Effect(if o.ok || o.did then h.(fs := h.fs[Backing(h, dev).value := t]) else h, o.ok)
  }

  // Mount table and paths

  datatype MountPoint = Mounted | NotMounted | NoSuchPath | CheckFailed

  function IsMountPoint(h: Host, p: Path, o: Outcome): MountPoint {
    if !o.ok then CheckFailed
    else if Layers(h, p) != [] then Mounted
    else if KindOf(h, p) == Absent then NoSuchPath
    else NotMounted
  }

  function Push(h: Host, p: Path, l: Layer): Host {
    h.(mounts := h.mounts[p := Layers(h, p) + [l]])
  }

  function MountDevice(h: Host, dev: DevPath, p: Path, t: FsType, o: Outcome): Effect {
    if o.ok && Backing(h, dev).Some? then Effect(Push(h, p, Device(Backing(h, dev).value, t)), true) else Effect(h, false)
  }

  function BindDevice(h: Host, dev: DevPath, p: Path, o: Outcome): Effect {
    if o.ok && Backing(h, dev).Some? then Effect(Push(h, p, Raw(Backing(h, dev).value)), true) else Effect(h, false)
  }

  /** A bind mount shows what is visible at its source. */
  function BindPath(h: Host, src: Path, p: Path, o: Outcome): Effect {
    var layers := Layers(h, src);
    if !o.ok then Effect(h, false)
    else if layers != [] then Effect(Push(h, p, layers[|layers| - 1]), true)
    else if KindOf(h, src) != Absent then Effect(Push(h, p, Plain(src)), true)
    else Effect(h, false)
  }

  function UnmountTop(h: Host, p: Path, o: Outcome): Effect {
    var layers := Layers(h, p);
    if o.ok && layers != [] then Effect(h.(mounts := h.mounts[p := layers[..|layers| - 1]]), true) else Effect(h, false)
  }

  datatype StatResult = Exists(isDir: bool) | NotExist | StatFailed

  function Stat(h: Host, p: Path, o: Outcome): StatResult {
    var layers := Layers(h, p);
    if !o.ok then StatFailed
    else if layers != [] then Exists(!layers[|layers| - 1].Raw?)
    else match KindOf(h, p)
      case Absent => NotExist
      case File => Exists(false)
      case Dir => Exists(true)
  }

  /** Creates the last component of the path; how its parents fare is part of the outcome. */
  function MkdirAll(h: Host, p: Path, o: Outcome): Effect {
    match Stat(h, p, o)
    case StatFailed => Effect(h, false)
    case Exists(isDir) => Effect(h, isDir)
    case NotExist => Effect(h.(kinds := h.kinds[p := Dir]), true)
  }

  function OpenOrCreate(h: Host, p: Path, o: Outcome): Effect {
    match Stat(h, p, o)
    case StatFailed => Effect(h, false)
    case Exists(isDir) => Effect(h, !isDir)
    case NotExist => Effect(h.(kinds := h.kinds[p := File]), true)
  }

  datatype RemoveResult = Removed | Gone | RemoveFailed

  /** A busy path cannot be removed; a directory that is not empty is an unsuccessful outcome. */
  function Remove(h: Host, p: Path, o: Outcome): RemoveResult {
    if !o.ok || Layers(h, p) != [] then RemoveFailed else if KindOf(h, p) == Absent then Gone else Removed
  }

  function AfterRemove(h: Host, p: Path, o: Outcome): Host {
    if Remove(h, p, o).Removed? then h.(kinds := h.kinds[p := Absent]) else h
  }
}
