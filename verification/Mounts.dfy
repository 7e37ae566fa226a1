/** Which volumes of an instance a backup or a restore mounts. */
module Mounts {
  import opened Values

  type Volume = string

  const NGINX_SUFFIX := "_nginx_volume"
  const L4_PORTS := "l4_ports.json"

  predicate HasSuffix(s: string, suffix: string) {
    |s| >= |suffix| && s[|s| - |suffix|..] == suffix
  }

  /** A volume of the instance that is not its regenerated nginx volume. */
  predicate IsDataVolume(name: Volume, id: string) {
    id + "_" <= name && !HasSuffix(name, NGINX_SUFFIX)
  }

  /** The name the compose file gives the volume. */
  function ComposeName(name: Volume, id: string): string {
    if id + "_" <= name then name[|id| + 1..] else name
  }

  type Classes = map<string, string>

  predicate Classified(name: Volume, id: string, classes: Classes) {
    var c := ComposeName(name, id);
    c in classes && classes[c] in {"data", "regenerable", "database"}
  }

  predicate IsData(name: Volume, id: string, classes: Classes) {
    var c := ComposeName(name, id);
    c in classes && classes[c] == "data"
  }

  /** The volumes docker lists for the instance, its nginx volume excepted. */
  method DataVolumes(names: seq<Volume>, id: string) returns (vols: seq<Volume>)
    ensures forall v :: v in vols <==> v in names && IsDataVolume(v, id)
    ensures forall v :: v in vols <==>
      v in names && id + "_" <= v && !(|v| >= 13 && v[|v| - 13..] == "_nginx_volume")
  {
    vols := [];
    for i := 0 to |names|
      invariant forall v :: v in vols <==> v in names[..i] && IsDataVolume(v, id)
    {
      if id + "_" <= names[i] && !HasSuffix(names[i], NGINX_SUFFIX) {
        vols := vols + [names[i]];
      }
    }
  }

  /** _backup_mounts: every one of them, and the L4 port file when the instance has one. */
  method BackupMounts(vols: seq<Volume>, l4: bool) returns (mounts: seq<Volume>)
    ensures forall v :: v in mounts <==> v in vols || (l4 && v == L4_PORTS)
  {
    mounts := vols;
    if l4 {
      mounts := mounts + [L4_PORTS];
    }
  }

  /** _hot_backup_mounts: refused unless every volume is classified; otherwise the data volumes, and the L4
      port file only along with some. */
  method HotBackupMounts(vols: seq<Volume>, id: string, classes: Classes, l4: bool)
    returns (r: Result<seq<Volume>, string>)
    ensures r.Err? <==> exists v :: v in vols && !Classified(v, id, classes)
    ensures r.Err? ==> r.error == "volume_unclassified"
    ensures r.Ok? ==>
      forall v :: v in r.value <==>
        || (v in vols && IsData(v, id, classes))
        || (v == L4_PORTS && l4 && exists u :: u in vols && IsData(u, id, classes))
  {
    var mounts: seq<Volume> := [];
    for i := 0 to |vols|
      invariant forall v :: v in vols[..i] ==> Classified(v, id, classes)
      invariant forall v :: v in mounts <==> v in vols[..i] && IsData(v, id, classes)
    {
      var c := ComposeName(vols[i], id);
      if c in classes && classes[c] == "data" {
        mounts := mounts + [vols[i]];
      } else if c !in classes || classes[c] !in {"regenerable", "database"} {
        assert !Classified(vols[i], id, classes);
        return Err("volume_unclassified");
      }
    }
    if mounts != [] && l4 {
      assert mounts[0] in mounts;
      mounts := mounts + [L4_PORTS];
    }
    assert forall v :: v in vols ==> Classified(v, id, classes);
    return Ok(mounts);
  }
}
