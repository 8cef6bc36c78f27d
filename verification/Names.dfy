/** Names of child objects (internal/common/pod.go and the three getFull*Name functions). */
module Names {
  import opened Types

  predicate IsVolume(kind: Kind) {
    kind.PVC? || kind.DataVolume? || kind.VirtualDisk?
  }

  function FullName(u: Uid): string {
    "sandbox-" + u
  }

  function KindPrefix(kind: Kind): string {
    match kind
    case PVC => "sandbox-pvc-"
    case DataVolume => "sandbox-dv-"
    case VirtualDisk => "sandbox-vd-"
    case _ => "sandbox-"
  }

  function VolumeName(kind: Kind, u: Uid, name: string): string {
    KindPrefix(kind) + u + "-" + name
  }

  /** The key could be the name of a child of Sandbox `u`. */
  predicate OwnName(u: Uid, key: ChildKey) {
    if IsVolume(key.kind) then VolumeName(key.kind, u, "") <= key.name else key.name == FullName(u)
  }

  lemma VolumeNameIsOwn(kind: Kind, u: Uid, namespace: string, name: string)
    requires IsVolume(kind)
    ensures OwnName(u, ChildKey(kind, namespace, VolumeName(kind, u, name)))
  {
    assert VolumeName(kind, u, name) == VolumeName(kind, u, "") + name;
  }

  /** Volume names are injective in the kind, the UID and the volume's name together. */
  lemma VolumeNameInjective(kind1: Kind, u: Uid, n: string, kind2: Kind, v: Uid, m: string)
    requires IsVolume(kind1) && IsVolume(kind2)
    requires VolumeName(kind1, u, n) == VolumeName(kind2, v, m)
    ensures kind1 == kind2 && u == v && n == m
  {
    var a, b := VolumeName(kind1, u, n), VolumeName(kind2, v, m);
    assert a[8] == KindPrefix(kind1)[8] && b[8] == KindPrefix(kind2)[8];
    var p := |KindPrefix(kind1)|;
    assert u == a[p..p + UID_LENGTH] && v == b[p..p + UID_LENGTH];
    assert n == a[p + UID_LENGTH + 1..] && m == b[p + UID_LENGTH + 1..];
  }

  /** No workload has the name of a volume, of whatever Sandbox. */
  lemma FullNameDisjoint(u: Uid, kind: Kind, v: Uid, name: string)
    requires IsVolume(kind)
    ensures FullName(u) != VolumeName(kind, v, name)
  {
    assert |FullName(u)| == 8 + UID_LENGTH < |VolumeName(kind, v, name)|;
  }

  /** No object name can belong to two Sandboxes. */
  lemma OwnNameUnique(u: Uid, v: Uid, key: ChildKey)
    requires OwnName(u, key) && OwnName(v, key)
    ensures u == v
  {
    if IsVolume(key.kind) {
      var p := |KindPrefix(key.kind)|;
      assert u == VolumeName(key.kind, u, "")[p..p + UID_LENGTH] == key.name[p..p + UID_LENGTH];
      assert v == VolumeName(key.kind, v, "")[p..p + UID_LENGTH] == key.name[p..p + UID_LENGTH];
    } else {
      assert u == key.name[8..] && v == key.name[8..];
    }
  }
}
