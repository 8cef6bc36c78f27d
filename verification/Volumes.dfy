/** Volume objects built from a template, and how references to them are rewritten
    (makeVolumes and mutate* functions of pvc.go, kubevirt.go, dvp.go and pod.go). */
module Volumes {
  import opened Types
  import opened Names

  // ---------------------------------------------------------------- building

  /** newPVC, newDataVolume, newVirtualDisk */
  function NewVolume(u: Uid, namespace: string, kind: Kind, name: string, spec: string): NewChild {
    NewChild(ChildKey(kind, namespace, VolumeName(kind, u, name)),
             Child(Some(u), false, PhaseUnset, [], VolumePayload(spec)))
  }

  function MakeVolumes(u: Uid, namespace: string, kind: Kind, volumes: seq<Volume>): seq<NewChild> {
    if volumes == [] then []
    else
      (match VolumeSpec(volumes[0], kind)
       case None => []
       case Some(spec) => [NewVolume(u, namespace, kind, volumes[0].name, spec)])
      + MakeVolumes(u, namespace, kind, volumes[1..])
  }

  lemma {:induction false} MakeVolumesConcat(u: Uid, namespace: string, kind: Kind, a: seq<Volume>, b: seq<Volume>)
    ensures MakeVolumes(u, namespace, kind, a + b) ==
            MakeVolumes(u, namespace, kind, a) + MakeVolumes(u, namespace, kind, b)
  {
    if a == [] {
      assert a + b == b;
    } else {
      assert (a + b)[1..] == a[1..] + b;
      MakeVolumesConcat(u, namespace, kind, a[1..], b);
    }
  }

  /** makePersistentVolumeClaims, makeDataVolumes, makeVirtualDisks */
  method BuildVolumes(u: Uid, namespace: string, kind: Kind, spec: TemplateSpec) returns (volumes: seq<NewChild>)
    ensures volumes == MakeVolumes(u, namespace, kind, spec.volumes)
  {
    volumes := [];
    for i := 0 to |spec.volumes|
      invariant volumes == MakeVolumes(u, namespace, kind, spec.volumes[..i])
    {
      var volumeSpec := spec.volumes[i];
      MakeVolumesConcat(u, namespace, kind, spec.volumes[..i], [volumeSpec]);
      assert spec.volumes[..i] + [volumeSpec] == spec.volumes[..i + 1];
      if VolumeSpec(volumeSpec, kind).Some? {
        volumes := volumes + [NewVolume(u, namespace, kind, volumeSpec.name, VolumeSpec(volumeSpec, kind).value)];
      }
    }
    assert spec.volumes[..|spec.volumes|] == spec.volumes;
  }

  /** Some template volume has this name and a spec of this kind. */
  ghost predicate IsTemplateVolume(volumes: seq<Volume>, kind: Kind, name: string) {
    exists i :: 0 <= i < |volumes| && volumes[i].name == name && VolumeSpec(volumes[i], kind).Some?
  }

  predicate DistinctNames(volumes: seq<Volume>) {
    forall i, j :: 0 <= i < j < |volumes| ==> volumes[i].name != volumes[j].name
  }

  function ObjectNames(objects: seq<NewChild>): set<string> {
    set i | 0 <= i < |objects| :: objects[i].key.name
  }

  predicate DistinctKeys(objects: seq<NewChild>) {
    forall i, j :: 0 <= i < j < |objects| ==> objects[i].key != objects[j].key
  }

  /** Each object comes from a template volume, carries the Sandbox's own name and is controlled by it. */
  lemma {:induction false} MadeFrom(u: Uid, namespace: string, kind: Kind, volumes: seq<Volume>)
    requires IsVolume(kind)
    ensures forall j :: 0 <= j < |MakeVolumes(u, namespace, kind, volumes)| ==>
      var made := MakeVolumes(u, namespace, kind, volumes)[j];
      && made.key.kind == kind && made.key.namespace == namespace && OwnName(u, made.key)
      && made.child.owner == Some(u) && !made.child.deleting
      && exists i :: 0 <= i < |volumes| && VolumeSpec(volumes[i], kind).Some?
                     && made.key.name == VolumeName(kind, u, volumes[i].name)
  {
    if volumes != [] {
      MadeFrom(u, namespace, kind, volumes[1..]);
      VolumeNameIsOwn(kind, u, namespace, volumes[0].name);
      var rest := MakeVolumes(u, namespace, kind, volumes[1..]);
      var head := |MakeVolumes(u, namespace, kind, volumes)| - |rest|;
      forall j | 0 <= j < |rest|
        ensures exists i :: 0 <= i < |volumes| && VolumeSpec(volumes[i], kind).Some?
                            && rest[j].key.name == VolumeName(kind, u, volumes[i].name)
      {
        var i :| 0 <= i < |volumes[1..]| && VolumeSpec(volumes[1..][i], kind).Some?
                 && rest[j].key.name == VolumeName(kind, u, volumes[1..][i].name);
        assert volumes[1..][i] == volumes[i + 1];
      }
      forall j | head <= j < |MakeVolumes(u, namespace, kind, volumes)|
        ensures MakeVolumes(u, namespace, kind, volumes)[j] == rest[j - head]
      {
      }
    }
  }

  /** A full name is among the made objects exactly when the short one is a template volume of that kind. */
  lemma {:induction false} MadeExactly(u: Uid, namespace: string, kind: Kind, volumes: seq<Volume>, name: string)
    requires IsVolume(kind)
    ensures VolumeName(kind, u, name) in ObjectNames(MakeVolumes(u, namespace, kind, volumes)) <==>
            IsTemplateVolume(volumes, kind, name)
  {
    var made := MakeVolumes(u, namespace, kind, volumes);
    if VolumeName(kind, u, name) in ObjectNames(made) {
      MadeFrom(u, namespace, kind, volumes);
      var j :| 0 <= j < |made| && made[j].key.name == VolumeName(kind, u, name);
      var i :| 0 <= i < |volumes| && VolumeSpec(volumes[i], kind).Some?
               && made[j].key.name == VolumeName(kind, u, volumes[i].name);
      VolumeNameInjective(kind, u, name, kind, u, volumes[i].name);
    }
    if IsTemplateVolume(volumes, kind, name) {
      var i :| 0 <= i < |volumes| && volumes[i].name == name && VolumeSpec(volumes[i], kind).Some?;
      MakeVolumesConcat(u, namespace, kind, volumes[..i], volumes[i..]);
      assert volumes[..i] + volumes[i..] == volumes;
      var j := |MakeVolumes(u, namespace, kind, volumes[..i])|;
      assert made[j] == MakeVolumes(u, namespace, kind, volumes[i..])[0];
      assert made[j].key.name == VolumeName(kind, u, name);
    }
  }

  /** Distinct volume names give distinct objects, for lists of any length. */
  lemma {:induction false} MadeDistinct(u: Uid, namespace: string, kind: Kind, volumes: seq<Volume>)
    requires IsVolume(kind) && DistinctNames(volumes)
    ensures DistinctKeys(MakeVolumes(u, namespace, kind, volumes))
  {
    if volumes != [] {
      var rest := MakeVolumes(u, namespace, kind, volumes[1..]);
      MadeDistinct(u, namespace, kind, volumes[1..]);
      MadeFrom(u, namespace, kind, volumes[1..]);
      forall j | 0 <= j < |rest|
        ensures rest[j].key.name != VolumeName(kind, u, volumes[0].name)
      {
        var i :| 0 <= i < |volumes[1..]| && rest[j].key.name == VolumeName(kind, u, volumes[1..][i].name);
        assert volumes[1..][i] == volumes[i + 1];
        if rest[j].key.name == VolumeName(kind, u, volumes[0].name) {
          VolumeNameInjective(kind, u, volumes[1..][i].name, kind, u, volumes[0].name);
        }
      }
    }
  }

  // ---------------------------------------------------------------- rewriting

  function Renamed(kind: Kind, u: Uid, made: set<string>, name: string): string {
    if VolumeName(kind, u, name) in made then VolumeName(kind, u, name) else name
  }

  function RewriteRefs(u: Uid, vds: set<string>, refs: seq<BlockDeviceRef>): seq<BlockDeviceRef> {
    seq(|refs|, i requires 0 <= i < |refs| =>
      if refs[i].isVirtualDisk then refs[i].(name := Renamed(VirtualDisk, u, vds, refs[i].name)) else refs[i])
  }

  function RewriteVm(u: Uid, vds: set<string>, spec: VmSpec): VmSpec {
    spec.(refs := RewriteRefs(u, vds, spec.refs))
  }

  function RewriteClaims(u: Uid, pvcs: set<string>, volumes: seq<PodVolume>): seq<PodVolume> {
    seq(|volumes|, i requires 0 <= i < |volumes| =>
      if volumes[i].claim.Some?
      then volumes[i].(claim := Some(Renamed(PVC, u, pvcs, volumes[i].claim.value)))
      else volumes[i])
  }

  function RewriteMounts(u: Uid, pvcs: set<string>, mounts: seq<string>): seq<string> {
    seq(|mounts|, j requires 0 <= j < |mounts| => Renamed(PVC, u, pvcs, mounts[j]))
  }

  function RewritePod(u: Uid, pvcs: set<string>, spec: PodSpec): PodSpec {
    spec.(volumes := RewriteClaims(u, pvcs, spec.volumes),
          containers := seq(|spec.containers|, i requires 0 <= i < |spec.containers| =>
            Container(RewriteMounts(u, pvcs, spec.containers[i].mounts))))
  }

  /** Only a DataVolume reference is rewritten: the claim branch looks the name up and stores nothing. */
  function RewriteVmiVolume(u: Uid, dvs: set<string>, v: VmiVolume): VmiVolume {
    if v.dataVolume.Some? then v.(dataVolume := Some(Renamed(DataVolume, u, dvs, v.dataVolume.value))) else v
  }

  /** Both lookups use the disk's own name; the claim's wins when both match. */
  function RewriteDisk(u: Uid, dvs: set<string>, pvcs: set<string>, d: VmiDisk): VmiDisk {
    if !d.isDisk then d
    else if VolumeName(PVC, u, d.name) in pvcs then d.(name := VolumeName(PVC, u, d.name))
    else d.(name := Renamed(DataVolume, u, dvs, d.name))
  }

  function RewriteVmi(u: Uid, dvs: set<string>, pvcs: set<string>, spec: VmiSpec): VmiSpec {
    spec.(volumes := seq(|spec.volumes|, i requires 0 <= i < |spec.volumes| =>
            RewriteVmiVolume(u, dvs, spec.volumes[i])),
          disks := seq(|spec.disks|, i requires 0 <= i < |spec.disks| =>
            RewriteDisk(u, dvs, pvcs, spec.disks[i])))
  }

  // ---------------------------------------------------------------- workload objects, rewritten in place

  method CollectNames(objects: seq<NewChild>) returns (names: set<string>)
    ensures names == ObjectNames(objects)
  {
    names := {};
    for i := 0 to |objects|
      invariant names == ObjectNames(objects[..i])
    {
      names := names + {objects[i].key.name};
      assert objects[..i + 1][..i] == objects[..i];
      assert forall j :: 0 <= j < i ==> objects[..i + 1][j] == objects[..i][j];
    }
    assert objects[..|objects|] == objects;
  }

  class VirtualMachine {
    var refs: seq<BlockDeviceRef>
    const rest: string

    constructor (spec: VmSpec)
      ensures Spec() == spec
    {
      refs, rest := spec.refs, spec.rest;
    }

    function Spec(): VmSpec
      reads this
    {
      VmSpec(refs, rest)
    }

    /** mutateDVPVMVolumes */
    method MutateVolumes(u: Uid, vds: seq<NewChild>)
      modifies this
      ensures Spec() == RewriteVm(u, ObjectNames(vds), old(Spec()))
    {
      var vdsMap := CollectNames(vds);
      for i := 0 to |refs|
        invariant |refs| == |old(refs)|
        invariant forall j :: 0 <= j < i ==> refs[j] == RewriteRefs(u, vdsMap, old(refs))[j]
        invariant forall j :: i <= j < |refs| ==> refs[j] == old(refs)[j]
      {
        if refs[i].isVirtualDisk {
          var fullName := VolumeName(VirtualDisk, u, refs[i].name);
          if fullName in vdsMap {
            refs := refs[i := refs[i].(name := fullName)];
          }
        }
      }
    }
  }

  class PodObject {
    var volumes: seq<PodVolume>
    var containers: seq<Container>
    const rest: string

    constructor (spec: PodSpec)
      ensures Spec() == spec
    {
      volumes, containers, rest := spec.volumes, spec.containers, spec.rest;
    }

    function Spec(): PodSpec
      reads this
    {
      PodSpec(volumes, containers, rest)
    }

    /** mutatePodPVCs */
    method MutatePVCs(u: Uid, pvcs: seq<NewChild>)
      modifies this
      ensures Spec() == RewritePod(u, ObjectNames(pvcs), old(Spec()))
    {
      var pvcsMap := CollectNames(pvcs);
      for i := 0 to |volumes|
        invariant |volumes| == |old(volumes)| && containers == old(containers)
        invariant forall j :: 0 <= j < i ==> volumes[j] == RewriteClaims(u, pvcsMap, old(volumes))[j]
        invariant forall j :: i <= j < |volumes| ==> volumes[j] == old(volumes)[j]
      {
        if volumes[i].claim.Some? {
          var fullName := VolumeName(PVC, u, volumes[i].claim.value);
          if fullName in pvcsMap {
            volumes := volumes[i := volumes[i].(claim := Some(fullName))];
          }
        }
      }
      for i := 0 to |containers|
        invariant |containers| == |old(containers)|
        invariant volumes == RewriteClaims(u, pvcsMap, old(volumes))
        invariant forall k :: 0 <= k < i ==>
          containers[k] == Container(RewriteMounts(u, pvcsMap, old(containers)[k].mounts))
        invariant forall k :: i <= k < |containers| ==> containers[k] == old(containers)[k]
      {
        var mounts := containers[i].mounts;
        for j := 0 to |mounts|
          invariant |mounts| == |old(containers)[i].mounts|
          invariant forall k :: 0 <= k < j ==> mounts[k] == RewriteMounts(u, pvcsMap, old(containers)[i].mounts)[k]
          invariant forall k :: j <= k < |mounts| ==> mounts[k] == old(containers)[i].mounts[k]
        {
          var fullName := VolumeName(PVC, u, mounts[j]);
          if fullName in pvcsMap {
            mounts := mounts[j := fullName];
          }
        }
        assert mounts == RewriteMounts(u, pvcsMap, old(containers)[i].mounts);
        containers := containers[i := Container(mounts)];
      }
      assert containers == RewritePod(u, pvcsMap, old(Spec())).containers;
    }
  }

  class VirtualMachineInstance {
    var volumes: seq<VmiVolume>
    var disks: seq<VmiDisk>
    const rest: string

    constructor (spec: VmiSpec)
      ensures Spec() == spec
    {
      volumes, disks, rest := spec.volumes, spec.disks, spec.rest;
    }

    function Spec(): VmiSpec
      reads this
    {
      VmiSpec(volumes, disks, rest)
    }

    /** mutateKubevirtVMIVolumes */
    method MutateVolumes(u: Uid, dvs: seq<NewChild>, pvcs: seq<NewChild>)
      modifies this
      ensures Spec() == RewriteVmi(u, ObjectNames(dvs), ObjectNames(pvcs), old(Spec()))
    {
      var dvsMap := CollectNames(dvs);
      var pvcsMap := CollectNames(pvcs);
      for i := 0 to |volumes|
        invariant |volumes| == |old(volumes)| && disks == old(disks)
        invariant forall j :: 0 <= j < i ==> volumes[j] == RewriteVmiVolume(u, dvsMap, old(volumes)[j])
        invariant forall j :: i <= j < |volumes| ==> volumes[j] == old(volumes)[j]
      {
        var volume := volumes[i];
        if volume.dataVolume.Some? {
          var fullName := VolumeName(DataVolume, u, volume.dataVolume.value);
          if fullName !in dvsMap {
            continue;
          }
          volumes := volumes[i := volume.(dataVolume := Some(fullName))];
        }
        if volume.claim.Some? {
          var fullName := VolumeName(PVC, u, volume.claim.value);
          if fullName !in pvcsMap {
            continue;
          }
        }
      }
      for i := 0 to |disks|
        invariant |disks| == |old(disks)|
        invariant volumes == RewriteVmi(u, dvsMap, pvcsMap, old(Spec())).volumes
        invariant forall j :: 0 <= j < i ==> disks[j] == RewriteDisk(u, dvsMap, pvcsMap, old(disks)[j])
        invariant forall j :: i <= j < |disks| ==> disks[j] == old(disks)[j]
      {
        var disk := disks[i];
        if disk.isDisk {
          var fullDVName := VolumeName(DataVolume, u, disk.name);
          if fullDVName in dvsMap {
            disks := disks[i := disk.(name := fullDVName)];
          }
          var fullPVCName := VolumeName(PVC, u, disk.name);
          if fullPVCName in pvcsMap {
            disks := disks[i := disk.(name := fullPVCName)];
          }
        }
      }
    }
  }

  // ---------------------------------------------------------------- what rewriting preserves

  /** A name is replaced exactly when it is a template volume of the kind, and then by the name of exactly one of
      the objects that Create makes. */
  lemma RenamedExactly(u: Uid, namespace: string, kind: Kind, volumes: seq<Volume>, name: string)
    requires IsVolume(kind) && DistinctNames(volumes)
    ensures var made := MakeVolumes(u, namespace, kind, volumes);
      var renamed := Renamed(kind, u, ObjectNames(made), name);
      if IsTemplateVolume(volumes, kind, name) then
        && renamed == VolumeName(kind, u, name)
        && exists j :: 0 <= j < |made| && made[j].key.name == renamed
                       && forall k :: 0 <= k < |made| && made[k].key.name == renamed ==> k == j
      else renamed == name
  {
    var made := MakeVolumes(u, namespace, kind, volumes);
    MadeExactly(u, namespace, kind, volumes, name);
    MadeDistinct(u, namespace, kind, volumes);
    MadeFrom(u, namespace, kind, volumes);
    if IsTemplateVolume(volumes, kind, name) {
      var renamed := VolumeName(kind, u, name);
      var j :| 0 <= j < |made| && made[j].key.name == renamed;
      forall k | 0 <= k < |made| && made[k].key.name == renamed
        ensures k == j
      {
        assert made[k].key == made[j].key;
      }
    }
  }

  /** A reference after rewriting: the unique made object for a template volume, the same name otherwise. */
  ghost predicate Resolved(u: Uid, namespace: string, kind: Kind, volumes: seq<Volume>, was: string, is_: string) {
    var made := MakeVolumes(u, namespace, kind, volumes);
    if IsTemplateVolume(volumes, kind, was) then
      && is_ == VolumeName(kind, u, was)
      && exists j :: 0 <= j < |made| && made[j].key.name == is_
                     && forall k :: 0 <= k < |made| && made[k].key.name == is_ ==> k == j
    else is_ == was
  }

  /** Disk references of a DVP machine: every VirtualDisk reference resolves; every other one, the order and the
      number of references are unchanged. */
  lemma RewriteVmResolves(u: Uid, namespace: string, volumes: seq<Volume>, spec: VmSpec)
    requires DistinctNames(volumes)
    ensures var after := RewriteVm(u, ObjectNames(MakeVolumes(u, namespace, VirtualDisk, volumes)), spec);
      && after.rest == spec.rest && |after.refs| == |spec.refs|
      && forall i :: 0 <= i < |spec.refs| ==>
        && after.refs[i].isVirtualDisk == spec.refs[i].isVirtualDisk
        && if spec.refs[i].isVirtualDisk
           then Resolved(u, namespace, VirtualDisk, volumes, spec.refs[i].name, after.refs[i].name)
           else after.refs[i] == spec.refs[i]
  {
    forall i | 0 <= i < |spec.refs| {
      RenamedExactly(u, namespace, VirtualDisk, volumes, spec.refs[i].name);
    }
  }

  /** Claims of a pod resolve; volume names and volumes without a claim stay. */
  lemma RewritePodResolves(u: Uid, namespace: string, volumes: seq<Volume>, spec: PodSpec)
    requires DistinctNames(volumes)
    ensures var after := RewritePod(u, ObjectNames(MakeVolumes(u, namespace, PVC, volumes)), spec);
      && after.rest == spec.rest
      && |after.volumes| == |spec.volumes| && |after.containers| == |spec.containers|
      && forall i :: 0 <= i < |spec.volumes| ==>
        && after.volumes[i].name == spec.volumes[i].name
        && match spec.volumes[i].claim
           case None => after.volumes[i].claim == None
           case Some(claim) =>
             && after.volumes[i].claim.Some?
             && Resolved(u, namespace, PVC, volumes, claim, after.volumes[i].claim.value)
  {
    forall i | 0 <= i < |spec.volumes| && spec.volumes[i].claim.Some? {
      RenamedExactly(u, namespace, PVC, volumes, spec.volumes[i].claim.value);
    }
  }

  /** DataVolume references of a virtual machine instance resolve. Claims never change, so one names a created
      claim only if the template itself wrote the full name. */
  lemma RewriteVmiResolves(u: Uid, namespace: string, volumes: seq<Volume>, spec: VmiSpec)
    requires DistinctNames(volumes)
    ensures
      var pvcs := ObjectNames(MakeVolumes(u, namespace, PVC, volumes));
      var after := RewriteVmi(u, ObjectNames(MakeVolumes(u, namespace, DataVolume, volumes)), pvcs, spec);
      && after.rest == spec.rest
      && |after.volumes| == |spec.volumes| && |after.disks| == |spec.disks|
      && forall i :: 0 <= i < |spec.volumes| ==>
        && after.volumes[i].name == spec.volumes[i].name
        && after.volumes[i].claim == spec.volumes[i].claim
        && (spec.volumes[i].claim.Some? ==>
              (after.volumes[i].claim.value in pvcs <==>
               exists name :: IsTemplateVolume(volumes, PVC, name)
                              && spec.volumes[i].claim.value == VolumeName(PVC, u, name)))
        && match spec.volumes[i].dataVolume
           case None => after.volumes[i].dataVolume == None
           case Some(dv) =>
             && after.volumes[i].dataVolume.Some?
             && Resolved(u, namespace, DataVolume, volumes, dv, after.volumes[i].dataVolume.value)
  {
    forall i | 0 <= i < |spec.volumes| && spec.volumes[i].dataVolume.Some? {
      RenamedExactly(u, namespace, DataVolume, volumes, spec.volumes[i].dataVolume.value);
    }
    forall i | 0 <= i < |spec.volumes| && spec.volumes[i].claim.Some? {
      MadeNames(u, namespace, PVC, volumes, spec.volumes[i].claim.value);
    }
  }

  lemma MadeNames(u: Uid, namespace: string, kind: Kind, volumes: seq<Volume>, fullName: string)
    requires IsVolume(kind)
    ensures fullName in ObjectNames(MakeVolumes(u, namespace, kind, volumes)) <==>
            exists name :: IsTemplateVolume(volumes, kind, name) && fullName == VolumeName(kind, u, name)
  {
    var made := MakeVolumes(u, namespace, kind, volumes);
    MadeFrom(u, namespace, kind, volumes);
    if fullName in ObjectNames(made) {
      var j :| 0 <= j < |made| && made[j].key.name == fullName;
      var i :| 0 <= i < |volumes| && VolumeSpec(volumes[i], kind).Some?
               && made[j].key.name == VolumeName(kind, u, volumes[i].name);
      assert IsTemplateVolume(volumes, kind, volumes[i].name);
    }
    forall name | IsTemplateVolume(volumes, kind, name) && fullName == VolumeName(kind, u, name)
      ensures fullName in ObjectNames(made)
    {
      MadeExactly(u, namespace, kind, volumes, name);
    }
  }

  ghost predicate PodHasVolume(spec: PodSpec, name: string) {
    exists i :: 0 <= i < |spec.volumes| && spec.volumes[i].name == name
  }

  ghost predicate MountsResolve(spec: PodSpec) {
    forall i, j :: 0 <= i < |spec.containers| && 0 <= j < |spec.containers[i].mounts| ==>
      PodHasVolume(spec, spec.containers[i].mounts[j])
  }

  /** Mounts are renamed but the pod volumes they name are not, so a pod whose mounts resolved keeps that exactly
      when every mount that names a PVC template volume also has a pod volume under the full name. */
  lemma MountsResolveAfter(u: Uid, namespace: string, volumes: seq<Volume>, spec: PodSpec)
    requires MountsResolve(spec)
    ensures
      MountsResolve(RewritePod(u, ObjectNames(MakeVolumes(u, namespace, PVC, volumes)), spec)) <==>
      (forall i, j |
        && 0 <= i < |spec.containers| && 0 <= j < |spec.containers[i].mounts|
        && IsTemplateVolume(volumes, PVC, spec.containers[i].mounts[j]) ::
        PodHasVolume(spec, VolumeName(PVC, u, spec.containers[i].mounts[j])))
  {
    var pvcs := ObjectNames(MakeVolumes(u, namespace, PVC, volumes));
    var after := RewritePod(u, pvcs, spec);
    forall name
      ensures PodHasVolume(after, name) <==> PodHasVolume(spec, name)
    {
      assert forall i :: 0 <= i < |spec.volumes| ==> after.volumes[i].name == spec.volumes[i].name;
    }
    forall i, j | 0 <= i < |spec.containers| && 0 <= j < |spec.containers[i].mounts|
      ensures after.containers[i].mounts[j] ==
        if IsTemplateVolume(volumes, PVC, spec.containers[i].mounts[j])
        then VolumeName(PVC, u, spec.containers[i].mounts[j]) else spec.containers[i].mounts[j]
    {
      MadeExactly(u, namespace, PVC, volumes, spec.containers[i].mounts[j]);
    }
    assert forall i :: 0 <= i < |spec.containers| ==>
      |after.containers[i].mounts| == |spec.containers[i].mounts|;
  }

  ghost predicate VmiHasVolume(spec: VmiSpec, name: string) {
    exists i :: 0 <= i < |spec.volumes| && spec.volumes[i].name == name
  }

  ghost predicate DisksResolve(spec: VmiSpec) {
    forall i :: 0 <= i < |spec.disks| ==> VmiHasVolume(spec, spec.disks[i].name)
  }

  /** The same for the disks of a virtual machine instance, whose volumes keep their names too. */
  lemma DisksResolveAfter(u: Uid, namespace: string, volumes: seq<Volume>, spec: VmiSpec)
    requires DisksResolve(spec)
    ensures
      DisksResolve(RewriteVmi(u, ObjectNames(MakeVolumes(u, namespace, DataVolume, volumes)),
                              ObjectNames(MakeVolumes(u, namespace, PVC, volumes)), spec)) <==>
      (forall i :: 0 <= i < |spec.disks| && spec.disks[i].isDisk ==>
        var name := spec.disks[i].name;
        if IsTemplateVolume(volumes, PVC, name) then VmiHasVolume(spec, VolumeName(PVC, u, name))
        else IsTemplateVolume(volumes, DataVolume, name) ==> VmiHasVolume(spec, VolumeName(DataVolume, u, name)))
  {
    var dvs := ObjectNames(MakeVolumes(u, namespace, DataVolume, volumes));
    var pvcs := ObjectNames(MakeVolumes(u, namespace, PVC, volumes));
    var after := RewriteVmi(u, dvs, pvcs, spec);
    forall name
      ensures VmiHasVolume(after, name) <==> VmiHasVolume(spec, name)
    {
      assert forall i :: 0 <= i < |spec.volumes| ==> after.volumes[i].name == spec.volumes[i].name;
    }
    forall i | 0 <= i < |spec.disks|
      ensures after.disks[i].name ==
        var name := spec.disks[i].name;
        if !spec.disks[i].isDisk then name
        else if IsTemplateVolume(volumes, PVC, name) then VolumeName(PVC, u, name)
        else if IsTemplateVolume(volumes, DataVolume, name) then VolumeName(DataVolume, u, name)
        else name
    {
      MadeExactly(u, namespace, PVC, volumes, spec.disks[i].name);
      MadeExactly(u, namespace, DataVolume, volumes, spec.disks[i].name);
    }
  }
}
