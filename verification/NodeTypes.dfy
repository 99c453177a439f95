/** The volume map as the node plugin holds it: one record per volume, changed in place.  Each
    method is what the plugin does under its lock at one place. */
module NodeTypes {
  import opened Uuid
  import opened Types

  class NodeVolume {
    var volId: Option<Uuid>
    var ublkPath: DevPath
    var volumeMode: VolumeMode
    var stagingPath: Path
    var targetPath: Path

    constructor (volId: Option<Uuid>, ublkPath: DevPath, volumeMode: VolumeMode, stagingPath: Path)
      ensures View() == Entry(volId, ublkPath, volumeMode, stagingPath, NO_PATH)
    {
      this.volId, this.ublkPath, this.volumeMode, this.stagingPath := volId, ublkPath, volumeMode, stagingPath;
      targetPath := NO_PATH;
    }

    function View(): Entry
      reads this
    {
      Entry(volId, ublkPath, volumeMode, stagingPath, targetPath)
    }
  }

  class Node {
    var volMap: map<VolId, NodeVolume>
    // What the map says: the records' contents by key.
    ghost var entries: map<VolId, Entry>

    /** The records are as entries says, and no two keys share one. */
    ghost predicate Valid()
      reads this, volMap.Values
    {
      && volMap.Keys == entries.Keys
      && (forall v | v in volMap :: volMap[v].View() == entries[v])
      && (forall v, w | v in volMap && w in volMap && volMap[v] == volMap[w] :: v == w)
    }

    constructor ()
      ensures Valid() && volMap == map[] && entries == map[]
    {
      volMap, entries := map[], map[];
    }

    method Lookup(v: VolId) returns (nodeVol: NodeVolume?)
      requires Valid()
      ensures nodeVol == null <==> v !in entries
      ensures nodeVol != null ==> v in volMap && nodeVol == volMap[v] && nodeVol.ublkPath == entries[v].ublkPath
    {
      nodeVol := if v in volMap then volMap[v] else null;
    }

    method Insert(v: VolId, nodeVol: NodeVolume)
      requires Valid() && nodeVol !in volMap.Values
      modifies this
      ensures Valid() && volMap == old(volMap)[v := nodeVol] && entries == old(entries)[v := nodeVol.View()]
    {
      volMap := volMap[v := nodeVol];
      entries := entries[v := nodeVol.View()];
    }

    method Delete(v: VolId)
      requires Valid()
      modifies this
      ensures Valid() && entries == old(entries) - {v}
    {
      volMap, entries := volMap - {v}, entries - {v};
    }

    method SetVolId(v: VolId, nodeVol: NodeVolume, volId: Option<Uuid>)
      requires Valid() && v in volMap && nodeVol == volMap[v]
      modifies `entries, nodeVol
      ensures Valid() && v in old(entries) && entries == old(entries)[v := old(entries)[v].(volId := volId)]
    {
      nodeVol.volId := volId;
      entries := entries[v := nodeVol.View()];
    }

    method SetUblkPath(v: VolId, nodeVol: NodeVolume, path: DevPath)
      requires Valid() && v in volMap && nodeVol == volMap[v]
      modifies `entries, nodeVol
      ensures Valid() && v in old(entries) && entries == old(entries)[v := old(entries)[v].(ublkPath := path)]
    {
      nodeVol.ublkPath := path;
      entries := entries[v := nodeVol.View()];
    }

    method SetTarget(v: VolId, nodeVol: NodeVolume, target: Path)
      requires Valid() && v in volMap && nodeVol == volMap[v]
      modifies `entries, nodeVol
      ensures Valid() && v in old(entries) && entries == old(entries)[v := old(entries)[v].(targetPath := target)]
    {
      nodeVol.targetPath := target;
      entries := entries[v := nodeVol.View()];
    }
  }
}
