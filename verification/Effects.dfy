/** Which parts of the host the steps of a call can touch. */
module Effects {
  import opened Uuid
  import opened Types
  import opened HostModel
  import opened Machine

  /** All paths but p look the same. */
  ghost predicate SamePathsBut(h: Host, k: Host, p: Path) {
    forall q | q != p :: Layers(k, q) == Layers(h, q) && KindOf(k, q) == KindOf(h, q)
  }

  ghost predicate SamePaths(h: Host, k: Host) {
    k.mounts == h.mounts && k.kinds == h.kinds
  }

  ghost predicate SameDevices(h: Host, k: Host) {
    k.units == h.units && k.links == h.links && k.minors == h.minors
  }

  ghost predicate SameUnitsBut(h: Host, k: Host, v: VolId) {
    forall u | u != UblkUnitName(v) :: u in k.units <==> u in h.units
  }

  /** A step of v takes nothing from the other volumes' units and devices. */
  ghost predicate OthersKept(h: Host, k: Host, v: VolId) {
    && (forall m | m in h.minors && h.minors[m] != v :: m in k.minors && k.minors[m] == h.minors[m])
    && (forall dev | dev in h.links && dev != UblkByUUIDPath(v) :: dev in k.links && k.links[dev] == h.links[dev])
    && (forall dev | dev in k.links && dev != UblkByUUIDPath(v) :: dev in h.links)
    && (forall u | u != UblkUnitName(v) :: u in k.units <==> u in h.units)
  }

  /** Whether a step may change the mounts or the kind of a path. */
  predicate WorksOn(f: Frame, q: Path) {
    match f.pc
    case UmStat(at) => q == SitePath(f.req, at)
    case UmCheck(at) => q == SitePath(f.req, at)
    case UmUnmount(at) => q == SitePath(f.req, at)
    case RemovePath(at) => q == SitePath(f.req, at)
    case _ => (InMount(f.pc) && q == f.req.staging) || (InPublish(f.pc) && q == f.req.target)
  }

  ghost predicate SameOtherPaths(h: Host, k: Host, f: Frame) {
    forall q | !WorksOn(f, q) :: Layers(k, q) == Layers(h, q) && KindOf(k, q) == KindOf(h, q)
  }

  lemma BindDeviceTouches(h: Host, dev: DevPath, p: Path, o: Outcome)
    ensures SamePathsBut(h, BindDevice(h, dev, p, o).host, p)
  {
  }

  lemma BindPathTouches(h: Host, src: Path, p: Path, o: Outcome)
    ensures SamePathsBut(h, BindPath(h, src, p, o).host, p)
  {
  }

  lemma CreationTouches(h: Host, p: Path, o: Outcome)
    ensures SamePathsBut(h, MkdirAll(h, p, o).host, p)
    ensures SamePathsBut(h, OpenOrCreate(h, p, o).host, p)
  {
    hide Stat;
  }

  lemma CreateTouches(h: Host, f: Frame, o: Outcome)
    requires InCreate(f.pc)
    ensures var k := CreateMove(h, f, o).host;
      SameUnitsBut(h, k, f.req.vol) && k.links == h.links && k.minors == h.minors && k.fs == h.fs && SamePaths(h, k)
  {
  }

  lemma MountTouches(h: Host, f: Frame, o: Outcome)
    requires InMount(f.pc)
    ensures SameDevices(h, MountMove(h, f, o).host)
    ensures SamePathsBut(h, MountMove(h, f, o).host, f.req.staging)
    ensures !f.pc.Format? ==> MountMove(h, f, o).host.fs == h.fs
  {
    hide Parse;
  }

  /** mkfs writes the requested type to the device behind the path, or nothing. */
  lemma FormatTouches(h: Host, f: Frame, o: Outcome)
    requires f.pc.Format?
    ensures var k := MountMove(h, f, o).host;
      k.fs == h.fs || (Backing(h, f.dev).Some? && k.fs == h.fs[Backing(h, f.dev).value := f.req.FsType()])
  {
    hide Backing;
  }

  lemma DeleteTouches(h: Host, f: Frame, o: Outcome)
    requires InDelete(f.pc)
    ensures var k := DeleteMove(h, f, o).host;
      && SameUnitsBut(h, k, f.req.vol) && k.fs == h.fs && SamePaths(h, k)
      && (!f.pc.DelRun? ==> k.links == h.links && k.minors == h.minors)
  {
  }

  lemma PublishKeepsDevices(h: Host, f: Frame, o: Outcome)
    requires InPublish(f.pc)
    ensures var k := PublishMove(h, f, o).host; SameDevices(h, k) && k.fs == h.fs
  {
  }

  lemma PublishKeepsPaths(h: Host, f: Frame, o: Outcome)
    requires InPublish(f.pc)
    ensures SamePathsBut(h, PublishMove(h, f, o).host, f.req.target)
  {
    BindDeviceTouches(h, f.dev, f.req.target, o);
    BindPathTouches(h, f.req.staging, f.req.target, o);
    CreationTouches(h, f.req.target, o);
    hide BindPath; hide BindDevice; hide MkdirAll; hide OpenOrCreate; hide Stat; hide IsMountPoint;
  }

  lemma UnmountKeepsDevices(h: Host, f: Frame, o: Outcome)
    requires !InMount(f.pc) && !InPublish(f.pc)
    ensures var k := UnmountMove(h, f, o).host; SameDevices(h, k) && k.fs == h.fs
  {
  }

  lemma UnmountKeepsPaths(h: Host, f: Frame, o: Outcome)
    requires !InMount(f.pc) && !InPublish(f.pc)
    ensures SameOtherPaths(h, UnmountMove(h, f, o).host, f)
  {
  }

  /** Together: a step keeps the links and minors unless it is `ublk del`, the units of other
      volumes, and all paths but the one it works on; only mkfs changes what is on a device. */
  lemma ActTouches(h: Host, f: Frame, o: Outcome)
    ensures var k := Act(h, f, o).host;
      && SameOtherPaths(h, k, f)
      && (!f.pc.DelRun? ==> k.links == h.links && k.minors == h.minors)
      && SameUnitsBut(h, k, f.req.vol)
      && (!f.pc.Format? ==> k.fs == h.fs)
      && (k.fs == h.fs || (Backing(h, f.dev).Some? && k.fs == h.fs[Backing(h, f.dev).value := f.req.FsType()]))
  {
    hide CreateMove; hide MountMove; hide DeleteMove; hide PublishMove; hide UnmountMove; hide Backing;
    if InCreate(f.pc) { CreateTouches(h, f, o); }
    else if InMount(f.pc) {
      MountTouches(h, f, o);
      if f.pc.Format? { FormatTouches(h, f, o); }
    }
    else if InDelete(f.pc) { DeleteTouches(h, f, o); }
    else if InPublish(f.pc) { PublishKeepsDevices(h, f, o); PublishKeepsPaths(h, f, o); }
    else { UnmountKeepsDevices(h, f, o); UnmountKeepsPaths(h, f, o); }
  }
}
