/** The values the driver passes around: identifiers, the names derived from them, requests and
    responses of the four node calls, and the entries of the node's volume map. */
module Types {
  import opened Uuid

  const MAX_RETRY := 2

  datatype VolId = VolId(text: string)

  datatype Path = Path(text: string)

  /** A device path as the driver keeps it: none, or the link udev creates for a volume. */
  datatype DevPath = NoDevPath | ByUuid(vol: VolId)
  {
    function Text(): string {
      if NoDevPath? then "" else "/dev/disk/by-uuid/" + vol.text
    }
  }

  function UblkByUUIDPath(v: VolId): DevPath {
    ByUuid(v)
  }

  /** The systemd unit that runs a volume's daemon. */
  datatype Unit = UblkUnit(vol: VolId)
  {
    function Text(): string {
      "niova-ublk-" + vol.text + ".service"
    }
  }

  function UblkUnitName(v: VolId): Unit {
    UblkUnit(v)
  }

  /** Device paths and unit names may stand for their texts, which are a volume's ID between fixed words:
      different ones have different texts. */
  lemma TextsIdentify(d: DevPath, e: DevPath, u: Unit, w: Unit, v: VolId)
    ensures d.Text() == e.Text() ==> d == e
    ensures u.Text() == w.Text() ==> u == w
    ensures d == UblkByUUIDPath(v) <==> d.Text() == "/dev/disk/by-uuid/" + v.text
    ensures u == UblkUnitName(v) <==> u.Text() == "niova-ublk-" + v.text + ".service"
  {
    if d.ByUuid? { assert d.Text()[18..] == d.vol.text; }
    if e.ByUuid? { assert e.Text()[18..] == e.vol.text; }
    assert u.Text()[11..|u.Text()| - 8] == u.vol.text;
    assert w.Text()[11..|w.Text()| - 8] == w.vol.text;
    var path, name := "/dev/disk/by-uuid/" + v.text, "niova-ublk-" + v.text + ".service";
    assert path[18..] == v.text && name[11..|name| - 8] == v.text;
  }

  /** A filesystem type as blkid and mkfs name it; NoFs is the empty name. */
  datatype FsType = NoFs | Ext4 | Ext3 | Xfs | OtherFs(name: string)
  {
    predicate Supported() {
      Ext4? || Ext3? || Xfs?
    }
  }

  /** The access type of a volume capability; neither is set when a caller fills in none. */
  datatype Capability = Block | Mount(fsType: FsType) | NoAccessType

  datatype CallKind = Stage | Unstage | Publish | Unpublish

  /** A node call with the fields its handler reads; the others are ignored. */
  datatype Request = Request(call: CallKind, vol: VolId, staging: Path, target: Path,
                             cap: Option<Capability>, size: string)
  {
    predicate IsBlock() {
      cap.Some? && cap.value.Block?
    }

    function FsType(): FsType {
      if cap.Some? && cap.value.Mount? && cap.value.fsType != NoFs then cap.value.fsType else Ext4
    }
  }

  datatype Code = OK | InvalidArgument | FailedPrecondition | Internal

  datatype VolumeMode = NoMode | BLOCK_MODE | MOUNT_MODE

  /** A volume map entry.  A VolID of None stands for whatever a failed parse left behind. */
  datatype Entry = Entry(volId: Option<Uuid>, ublkPath: DevPath, mode: VolumeMode,
                         stagingPath: Path, targetPath: Path)

  const NO_PATH := Path("")
  const BARE_ENTRY := Entry(None, NoDevPath, NoMode, NO_PATH, NO_PATH)
}
