/** What Create and Delete have met when they end, and the order in which they go about it. */
module Order {
  import opened Types
  import opened Names
  import opened Volumes
  import opened Backends
  import opened Cluster
  import opened Passes
  import opened PassSafety
  import opened Traces
  import opened Contents

  // ---------------------------------------------------------------- nothing is forgotten

  /** A name that the backend needs for this spec. */
  ghost predicate Wanted(p: Pass, t: SandboxType, spec: TemplateSpec, ck: ChildKey) {
    && ck.namespace == p.key.namespace
    && match ck.kind
       case Pod => t == PodType && ck.name == "sandbox-" + p.uid && spec.pod.Some?
       case VMI => t == KubevirtType && ck.name == "sandbox-" + p.uid && spec.vmi.Some?
       case VM => t == DVPType && ck.name == "sandbox-" + p.uid && spec.vm.Some?
       case PVC =>
         && (t == PodType || t == KubevirtType)
         && exists i :: 0 <= i < |spec.volumes| && ck.name == PvcName(p.uid, spec.volumes[i].name)
                        && spec.volumes[i].pvc.Some?
       case DataVolume =>
         && t == KubevirtType
         && exists i :: 0 <= i < |spec.volumes| && ck.name == DataVolumeName(p.uid, spec.volumes[i].name)
                        && spec.volumes[i].dataVolume.Some?
       case VirtualDisk =>
         && t == DVPType
         && exists i :: 0 <= i < |spec.volumes| && ck.name == VirtualDiskName(p.uid, spec.volumes[i].name)
                        && spec.volumes[i].virtualDisk.Some?
  }

  lemma {:induction false} VolumeIsMade(u: Uid, namespace: string, kind: Kind, volumes: seq<Volume>, i: nat)
    returns (j: nat)
    requires i < |volumes| && VolumeSpec(volumes[i], kind).Some?
    ensures j < |MakeVolumes(u, namespace, kind, volumes)|
    ensures MakeVolumes(u, namespace, kind, volumes)[j].key
            == ChildKey(kind, namespace, VolumeName(kind, u, volumes[i].name))
    decreases i
  {
    if i == 0 {
      j := 0;
    } else {
      j := VolumeIsMade(u, namespace, kind, volumes[1..], i - 1);
      j := if VolumeSpec(volumes[0], kind).Some? then j + 1 else j;
    }
  }

  lemma WantedIsMade(p: Pass, t: SandboxType, spec: TemplateSpec, ck: ChildKey)
    requires Wanted(p, t, spec, ck)
    ensures t != NoType
    ensures !IsVolume(ck.kind) ==> ck == WorkloadKey(t, p.key.namespace, p.uid) && HasWorkload(t, spec)
    ensures IsVolume(ck.kind) ==>
      var made := MakeVolumes(p.uid, p.key.namespace, ck.kind, spec.volumes);
      ck.kind in VolumeKinds(t) && exists j :: 0 <= j < |made| && made[j].key == ck
  {
    if IsVolume(ck.kind) {
      var i :| 0 <= i < |spec.volumes| && VolumeSpec(spec.volumes[i], ck.kind).Some?
               && ck.name == VolumeName(ck.kind, p.uid, spec.volumes[i].name);
      var j := VolumeIsMade(p.uid, p.key.namespace, ck.kind, spec.volumes, i);
    }
  }

  ghost predicate HasAt(tr: seq<Event>, j: nat, ck: ChildKey)
    requires j < |tr|
  {
    ck in tr[j].store.children
  }

  /** The key was in some store between these two points. */
  ghost predicate Seen(tr: seq<Event>, from: nat, ck: ChildKey) {
    exists j :: from <= j < |tr| && HasAt(tr, j, ck)
  }

  lemma SeenLater(w: World, w1: World, w': World, ck: ChildKey)
    requires w.trace != [] && w.trace <= w1.trace <= w'.trace
    ensures Seen(w1.trace, |w.trace| - 1, ck) ==> Seen(w'.trace, |w.trace| - 1, ck)
    ensures Seen(w'.trace, |w1.trace| - 1, ck) ==> Seen(w'.trace, |w.trace| - 1, ck)
  {
    if Seen(w1.trace, |w.trace| - 1, ck) {
      var j :| |w.trace| - 1 <= j < |w1.trace| && HasAt(w1.trace, j, ck);
      assert HasAt(w'.trace, j, ck);
    }
  }

  lemma SeenNow(w: World, w': World, ck: ChildKey)
    requires w.trace != [] && w.trace <= w'.trace && Tidy(w') && ck in w'.store.children
    ensures Seen(w'.trace, |w.trace| - 1, ck)
  {
    assert HasAt(w'.trace, |w'.trace| - 1, ck);
  }

  lemma {:induction false} CreateMissingSees(p: Pass, existing: set<ChildKey>, wanted: seq<NewChild>, w: World, j: nat)
    requires Tidy(w) && j < |wanted| && CreateMissing(p, existing, wanted, w).1 && wanted[j].key !in existing
    ensures Seen(CreateMissing(p, existing, wanted, w).0.trace, |w.trace| - 1, wanted[j].key)
    decreases |wanted|
  {
    var w' := CreateMissing(p, existing, wanted, w).0;
    CreateMissingDoes(p, existing, wanted, w);
    if wanted[0].key in existing {
      CreateMissingSees(p, existing, wanted[1..], w, j - 1);
    } else {
      CreateChildDoes(p, wanted[0], w);
      var w1 := CreateChild(p, wanted[0], w).0;
      CreateMissingDoes(p, existing, wanted[1..], w1);
      if j == 0 {
        SeenNow(w, w1, wanted[0].key);
        SeenLater(w, w1, w', wanted[0].key);
      } else {
        CreateMissingSees(p, existing, wanted[1..], w1, j - 1);
        SeenLater(w, w1, w', wanted[j].key);
      }
    }
  }

  lemma CreateVolumesSees(p: Pass, kind: Kind, wanted: seq<NewChild>, w: World, j: nat)
    requires Tidy(w) && j < |wanted| && CreateVolumes(p, kind, wanted, w).1
    ensures Seen(CreateVolumes(p, kind, wanted, w).0.trace, |w.trace| - 1, wanted[j].key)
  {
    TurnDoes(p, w);
    ListOwnedIs(p, kind, w);
    var (w1, existing) := ListOwned(p, kind, w);
    var keys := KeySet(existing.value);
    CreateMissingDoes(p, keys, wanted, w1);
    var w' := CreateVolumes(p, kind, wanted, w).0;
    if wanted[j].key in keys {
      assert wanted[j].key in existing.value;
      SeenNow(w, w1, wanted[j].key);
    } else {
      CreateMissingSees(p, keys, wanted, w1, j);
    }
    SeenLater(w, w1, w', wanted[j].key);
  }

  lemma CreateVolumesDoes(p: Pass, kind: Kind, wanted: seq<NewChild>, w: World)
    requires Tidy(w)
    ensures Does(p, w, CreateVolumes(p, kind, wanted, w).0, true, false)
  {
    TurnDoes(p, w);
    var (w1, existing) := ListOwned(p, kind, w);
    Loosen(p, w, w1, true, false);
    if existing.Some? {
      CreateMissingDoes(p, KeySet(existing.value), wanted, w1);
      Then(p, w, w1, CreateVolumes(p, kind, wanted, w).0, true, false);
    }
  }

  lemma {:induction false} CreateKindsSees(
    p: Pass, kinds: seq<Kind>, kind: Kind, volumes: seq<Volume>, w: World, j: nat)
    requires Tidy(w) && kind in kinds && CreateKinds(p, kinds, volumes, w).1
    requires j < |MakeVolumes(p.uid, p.key.namespace, kind, volumes)|
    ensures Seen(CreateKinds(p, kinds, volumes, w).0.trace, |w.trace| - 1,
                 MakeVolumes(p.uid, p.key.namespace, kind, volumes)[j].key)
    decreases |kinds|
  {
    var wanted := MakeVolumes(p.uid, p.key.namespace, kinds[0], volumes);
    var key := MakeVolumes(p.uid, p.key.namespace, kind, volumes)[j].key;
    CreateVolumesDoes(p, kinds[0], wanted, w);
    var w1 := CreateVolumes(p, kinds[0], wanted, w).0;
    CreateKindsDoes(p, kinds[1..], volumes, w1);
    if kind == kinds[0] {
      CreateVolumesSees(p, kind, wanted, w, j);
    } else {
      CreateKindsSees(p, kinds[1..], kind, volumes, w1, j);
    }
    SeenLater(w, w1, CreateKinds(p, kinds, volumes, w).0, key);
  }

  lemma EnsureWorkloadSees(p: Pass, t: SandboxType, spec: TemplateSpec, w: World)
    requires Tidy(w) && HasWorkload(t, spec) && EnsureWorkload(p, t, spec, w).1
    ensures Seen(EnsureWorkload(p, t, spec, w).0.trace, |w.trace| - 1, WorkloadKey(t, p.key.namespace, p.uid))
  {
    var key := WorkloadKey(t, p.key.namespace, p.uid);
    TurnDoes(p, w);
    EnsureWorkloadDoes(p, t, spec, w);
    var (w1, found) := GetChild(p.key, key, w);
    var w' := EnsureWorkload(p, t, spec, w).0;
    if found.Found? {
      DeleteChildDoes(p, key, w1);
      SeenNow(w, w1, key);
      SeenLater(w, w1, w', key);
    } else {
      SeenNow(w, w', key);
    }
  }

  /** A Create that succeeds has met or made every child that the backend needs for the spec. */
  lemma CreateForgetsNothing(p: Pass, t: SandboxType, spec: TemplateSpec, w: World, ck: ChildKey)
    requires Tidy(w) && Wanted(p, t, spec, ck) && Create(p, t, spec, w).1
    ensures Seen(Create(p, t, spec, w).0.trace, |w.trace| - 1, ck)
  {
    WantedIsMade(p, t, spec, ck);
    CreateKindsDoes(p, VolumeKinds(t), spec.volumes, w);
    var w1 := CreateKinds(p, VolumeKinds(t), spec.volumes, w).0;
    EnsureWorkloadDoes(p, t, spec, w1);
    var w' := Create(p, t, spec, w).0;
    if IsVolume(ck.kind) {
      var made := MakeVolumes(p.uid, p.key.namespace, ck.kind, spec.volumes);
      var j :| 0 <= j < |made| && made[j].key == ck;
      CreateKindsSees(p, VolumeKinds(t), ck.kind, spec.volumes, w, j);
    } else {
      EnsureWorkloadSees(p, t, spec, w1);
    }
    SeenLater(w, w1, w', ck);
  }

  // ---------------------------------------------------------------- volumes before the workload, and after it

  /** Before this step every volume that the backend needs for the spec was met. */
  ghost predicate VolumesMet(p: Pass, t: SandboxType, spec: TemplateSpec, tr: seq<Event>, from: nat, i: nat)
    requires i <= |tr|
  {
    forall ck :: Wanted(p, t, spec, ck) && IsVolume(ck.kind) ==> Seen(tr[..i], from, ck)
  }

  /** A step that adds a workload comes after that. */
  ghost predicate WorkloadAfterAt(p: Pass, t: SandboxType, spec: TemplateSpec, tr: seq<Event>, from: nat, i: nat)
    requires 0 < i < |tr|
  {
    tr[i].actor.Controller?
    && (exists ck | ck in tr[i].store.children :: ck !in tr[i - 1].store.children && !IsVolume(ck.kind)) ==>
      VolumesMet(p, t, spec, tr, from, i)
  }

  const VOLUME_KINDS := {PVC, DataVolume, VirtualDisk}

  /** A step of a pass adds only children of these kinds. */
  ghost predicate KindsOnlyAt(kinds: set<Kind>, tr: seq<Event>, i: nat)
    requires 0 < i < |tr|
  {
    tr[i].actor.Controller? ==>
      forall ck | ck in tr[i].store.children :: ck in tr[i - 1].store.children || ck.kind in kinds
  }

  ghost predicate KindsOnly(kinds: set<Kind>, w: World, w': World) {
    && Tidy(w) && Tidy(w') && w.trace <= w'.trace
    && forall i :: |w.trace| <= i < |w'.trace| ==> KindsOnlyAt(kinds, w'.trace, i)
  }

  lemma ThenKindsOnly(kinds: set<Kind>, w: World, w1: World, w': World)
    requires KindsOnly(kinds, w, w1) && KindsOnly(kinds, w1, w')
    ensures KindsOnly(kinds, w, w')
  {
    forall i | |w.trace| <= i < |w'.trace|
      ensures KindsOnlyAt(kinds, w'.trace, i)
    {
      if i < |w1.trace| {
        assert KindsOnlyAt(kinds, w1.trace, i);
      }
    }
  }

  lemma QuietKindsOnly(kinds: set<Kind>, p: Pass, w: World, w': World)
    requires Does(p, w, w', false, false)
    ensures KindsOnly(kinds, w, w')
  {
    forall i | |w.trace| <= i < |w'.trace|
      ensures KindsOnlyAt(kinds, w'.trace, i)
    {
      assert OnlyAt(p, w'.trace, i, false, false);
    }
  }

  lemma CreateKindOnly(kinds: set<Kind>, p: Pass, new_: NewChild, w: World)
    requires Tidy(w) && new_.key.kind in kinds
    ensures KindsOnly(kinds, w, CreateChild(p, new_, w).0)
  {
    TurnDoes(p, w);
    var w1, w' := Turn(p.key, w).0, CreateChild(p, new_, w).0;
    QuietKindsOnly(kinds, p, w, w1);
    if w' != w1 {
      assert KindsOnly(kinds, w1, w');
      ThenKindsOnly(kinds, w, w1, w');
    }
  }

  lemma {:induction false} CreateMissingKindsOnly(
    kinds: set<Kind>, p: Pass, existing: set<ChildKey>, wanted: seq<NewChild>, w: World)
    requires Tidy(w) && forall j :: 0 <= j < |wanted| ==> wanted[j].key.kind in kinds
    ensures KindsOnly(kinds, w, CreateMissing(p, existing, wanted, w).0)
    decreases |wanted|
  {
    if wanted != [] {
      assert forall j :: 0 <= j < |wanted[1..]| ==> wanted[1..][j] == wanted[j + 1];
      if wanted[0].key in existing {
        CreateMissingKindsOnly(kinds, p, existing, wanted[1..], w);
      } else {
        CreateKindOnly(kinds, p, wanted[0], w);
        var (w1, ok) := CreateChild(p, wanted[0], w);
        if ok {
          CreateMissingKindsOnly(kinds, p, existing, wanted[1..], w1);
          ThenKindsOnly(kinds, w, w1, CreateMissing(p, existing, wanted, w).0);
        }
      }
    }
  }

  lemma CreateVolumesKindsOnly(kinds: set<Kind>, p: Pass, kind: Kind, volumes: seq<Volume>, w: World)
    requires Tidy(w) && IsVolume(kind) && kind in kinds
    ensures KindsOnly(kinds, w, CreateVolumes(p, kind, MakeVolumes(p.uid, p.key.namespace, kind, volumes), w).0)
  {
    var wanted := MakeVolumes(p.uid, p.key.namespace, kind, volumes);
    MadeFrom(p.uid, p.key.namespace, kind, volumes);
    TurnDoes(p, w);
    var (w1, existing) := ListOwned(p, kind, w);
    QuietKindsOnly(kinds, p, w, w1);
    if existing.Some? {
      CreateMissingKindsOnly(kinds, p, KeySet(existing.value), wanted, w1);
      ThenKindsOnly(kinds, w, w1, CreateVolumes(p, kind, wanted, w).0);
    }
  }

  lemma {:induction false} CreateKindsVolumesOnly(p: Pass, kinds: seq<Kind>, volumes: seq<Volume>, w: World)
    requires Tidy(w) && forall i :: 0 <= i < |kinds| ==> IsVolume(kinds[i])
    ensures KindsOnly(VOLUME_KINDS, w, CreateKinds(p, kinds, volumes, w).0)
    decreases |kinds|
  {
    if kinds != [] {
      CreateVolumesKindsOnly(VOLUME_KINDS, p, kinds[0], volumes, w);
      var wanted := MakeVolumes(p.uid, p.key.namespace, kinds[0], volumes);
      var (w1, ok) := CreateVolumes(p, kinds[0], wanted, w);
      if ok {
        CreateKindsVolumesOnly(p, kinds[1..], volumes, w1);
        ThenKindsOnly(VOLUME_KINDS, w, w1, CreateKinds(p, kinds, volumes, w).0);
      }
    }
  }

  lemma MetBefore(p: Pass, t: SandboxType, spec: TemplateSpec, w: World, w1: World, tr: seq<Event>, i: nat)
    requires Tidy(w) && CreateKinds(p, VolumeKinds(t), spec.volumes, w) == (w1, true)
    requires w1.trace <= tr && |w1.trace| <= i <= |tr|
    ensures w.trace != [] && VolumesMet(p, t, spec, tr, |w.trace| - 1, i)
  {
    forall ck | Wanted(p, t, spec, ck) && IsVolume(ck.kind)
      ensures Seen(tr[..i], |w.trace| - 1, ck)
    {
      WantedIsMade(p, t, spec, ck);
      var made := MakeVolumes(p.uid, p.key.namespace, ck.kind, spec.volumes);
      var n :| 0 <= n < |made| && made[n].key == ck;
      CreateKindsSees(p, VolumeKinds(t), ck.kind, spec.volumes, w, n);
      var j :| |w.trace| - 1 <= j < |w1.trace| && HasAt(w1.trace, j, ck);
      assert HasAt(tr[..i], j, ck);
    }
  }

  /** Volumes first: Create makes the workload only after every volume that the spec asks for was met or made. */
  lemma VolumesComeFirst(p: Pass, t: SandboxType, spec: TemplateSpec, w: World, i: nat)
    requires Tidy(w) && t != NoType && |w.trace| <= i < |Create(p, t, spec, w).0.trace|
    ensures WorkloadAfterAt(p, t, spec, Create(p, t, spec, w).0.trace, |w.trace| - 1, i)
  {
    var w' := Create(p, t, spec, w).0;
    if GateOpen(w.gates, t) {
      CreateKindsVolumesOnly(p, VolumeKinds(t), spec.volumes, w);
      var (w1, ok) := CreateKinds(p, VolumeKinds(t), spec.volumes, w);
      if ok {
        EnsureWorkloadDoes(p, t, spec, w1);
      }
      if i < |w1.trace| {
        assert KindsOnlyAt(VOLUME_KINDS, w1.trace, i);
      } else {
        MetBefore(p, t, spec, w, w1, w'.trace, i);
      }
    }
  }

  /** A step that adds a claim comes after every data volume that the spec asks for was met. */
  ghost predicate ClaimAfterAt(p: Pass, spec: TemplateSpec, tr: seq<Event>, from: nat, i: nat)
    requires 0 < i < |tr|
  {
    tr[i].actor.Controller?
    && (exists ck | ck in tr[i].store.children :: ck !in tr[i - 1].store.children && ck.kind == PVC) ==>
      forall ck :: Wanted(p, KubevirtType, spec, ck) && ck.kind == DataVolume ==> Seen(tr[..i], from, ck)
  }

  lemma DataVolumesMet(p: Pass, spec: TemplateSpec, w: World, w1: World, tr: seq<Event>, i: nat, ck: ChildKey)
    requires Tidy(w) && Wanted(p, KubevirtType, spec, ck) && ck.kind == DataVolume
    requires CreateVolumes(p, DataVolume, MakeVolumes(p.uid, p.key.namespace, DataVolume, spec.volumes), w)
             == (w1, true)
    requires w1.trace <= tr && |w1.trace| <= i <= |tr|
    ensures Seen(tr[..i], |w.trace| - 1, ck)
  {
    WantedIsMade(p, KubevirtType, spec, ck);
    var made := MakeVolumes(p.uid, p.key.namespace, DataVolume, spec.volumes);
    var n :| 0 <= n < |made| && made[n].key == ck;
    CreateVolumesSees(p, DataVolume, made, w, n);
    var j :| |w.trace| - 1 <= j < |w1.trace| && HasAt(w1.trace, j, ck);
    assert HasAt(tr[..i], j, ck);
  }

  /** With KubeVirt, data volumes come before claims. */
  lemma DataVolumesComeFirst(p: Pass, spec: TemplateSpec, w: World, i: nat)
    requires Tidy(w) && |w.trace| <= i < |CreateKinds(p, VolumeKinds(KubevirtType), spec.volumes, w).0.trace|
    ensures ClaimAfterAt(p, spec, CreateKinds(p, VolumeKinds(KubevirtType), spec.volumes, w).0.trace, |w.trace| - 1, i)
  {
    var kinds := VolumeKinds(KubevirtType);
    var w' := CreateKinds(p, kinds, spec.volumes, w).0;
    var wanted := MakeVolumes(p.uid, p.key.namespace, DataVolume, spec.volumes);
    assert kinds[0] == DataVolume;
    CreateVolumesKindsOnly({DataVolume}, p, DataVolume, spec.volumes, w);
    var (w1, ok) := CreateVolumes(p, DataVolume, wanted, w);
    if ok {
      CreateKindsDoes(p, kinds[1..], spec.volumes, w1);
    }
    if i < |w1.trace| {
      assert KindsOnlyAt({DataVolume}, w1.trace, i);
    } else {
      forall ck | Wanted(p, KubevirtType, spec, ck) && ck.kind == DataVolume
        ensures Seen(w'.trace[..i], |w.trace| - 1, ck)
      {
        DataVolumesMet(p, spec, w, w1, w'.trace, i, ck);
      }
    }
  }

  // A terminating pass goes the other way round.

  ghost predicate GoneAt(tr: seq<Event>, j: nat, ck: ChildKey)
    requires j < |tr|
  {
    ck in tr[j].store.children ==> tr[j].store.children[ck].deleting
  }

  ghost predicate GoneBefore(tr: seq<Event>, from: nat, i: nat, ck: ChildKey)
    requires i <= |tr|
  {
    exists j :: from <= j < i && GoneAt(tr, j, ck)
  }

  /** A step that removes or marks this child. */
  ghost predicate DropsAt(tr: seq<Event>, i: nat, ck: ChildKey)
    requires 0 < i < |tr|
  {
    && tr[i].actor.Controller? && ck in tr[i - 1].store.children
    && (ck in tr[i].store.children ==> tr[i].store.children[ck] != tr[i - 1].store.children[ck])
  }

  /** No step between two worlds drops a volume. */
  ghost predicate SparesAt(tr: seq<Event>, i: nat)
    requires 0 < i < |tr|
  {
    forall ck: ChildKey :: IsVolume(ck.kind) ==> !DropsAt(tr, i, ck)
  }

  ghost predicate Spares(w: World, w': World) {
    && Tidy(w) && Tidy(w') && w.trace <= w'.trace
    && forall i :: |w.trace| <= i < |w'.trace| ==> SparesAt(w'.trace, i)
  }

  lemma ThenSpares(w: World, w1: World, w': World)
    requires Spares(w, w1) && Spares(w1, w')
    ensures Spares(w, w')
  {
    forall i | |w.trace| <= i < |w'.trace|
      ensures SparesAt(w'.trace, i)
    {
      if i < |w1.trace| {
        assert SparesAt(w1.trace, i);
      }
    }
  }

  lemma TurnSpares(k: Key, w: World)
    requires Tidy(w)
    ensures Spares(w, Turn(k, w).0)
  {
  }

  lemma DeleteChildSpares(p: Pass, key: ChildKey, w: World)
    requires Tidy(w) && !IsVolume(key.kind)
    ensures Spares(w, DeleteChild(p, key, w).0)
  {
    TurnSpares(p.key, w);
    var w1, w' := Turn(p.key, w).0, DeleteChild(p, key, w).0;
    if w' != w1 {
      assert Spares(w1, w');
      ThenSpares(w, w1, w');
    }
  }

  lemma DeleteWorkloadSpares(p: Pass, t: SandboxType, w: World)
    requires Tidy(w) && t != NoType
    ensures Spares(w, DeleteWorkload(p, t, w).0)
  {
    var key := WorkloadKey(t, p.key.namespace, p.uid);
    TurnSpares(p.key, w);
    var (w1, found) := GetChild(p.key, key, w);
    if found.Found? {
      DeleteChildSpares(p, key, w1);
      ThenSpares(w, w1, DeleteChild(p, key, w1).0);
    }
  }

  lemma WorkloadIsGone(p: Pass, t: SandboxType, w: World)
    requires Tidy(w) && t != NoType
    ensures var (w', ok) := DeleteWorkload(p, t, w);
      && Tidy(w') && w.trace <= w'.trace
      && (ok ==> GoneAt(w'.trace, |w'.trace| - 1, WorkloadKey(t, p.key.namespace, p.uid)))
  {
  }

  /** The workload first: Delete removes or marks a volume only after it has met the workload absent or marked. */
  lemma WorkloadGoesFirst(p: Pass, t: SandboxType, w: World, i: nat, ck: ChildKey)
    requires Tidy(w) && t != NoType && IsVolume(ck.kind) && |w.trace| <= i < |Delete(p, t, w).0.trace|
    ensures DropsAt(Delete(p, t, w).0.trace, i, ck) ==>
      GoneBefore(Delete(p, t, w).0.trace, |w.trace| - 1, i, WorkloadKey(t, p.key.namespace, p.uid))
  {
    var tr := Delete(p, t, w).0.trace;
    DeleteWorkloadDoes(p, t, w);
    var (w1, ok) := DeleteWorkload(p, t, w);
    if ok {
      DeleteKindsDoes(p, VolumeKinds(t), w1);
    }
    DeleteWorkloadSpares(p, t, w);
    WorkloadIsGone(p, t, w);
    if i < |w1.trace| {
      assert SparesAt(w1.trace, i) && tr[i] == w1.trace[i] && tr[i - 1] == w1.trace[i - 1];
    } else {
      assert GoneAt(tr, |w1.trace| - 1, WorkloadKey(t, p.key.namespace, p.uid));
    }
  }
}
