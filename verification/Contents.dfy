/** What the children are that a pass makes: names, owners and payloads, written out for each backend. */
module Contents {
  import opened Types
  import opened Names
  import opened Volumes
  import opened Backends
  import opened Cluster
  import opened Passes
  import opened PassSafety
  import opened Safety
  import opened Traces
  import Branches
  import Runs

  // ---------------------------------------------------------------- the payloads

  /** The short name is that of a template volume of this kind. */
  ghost predicate HasPvc(spec: TemplateSpec, name: string) {
    exists i :: 0 <= i < |spec.volumes| && spec.volumes[i].name == name && spec.volumes[i].pvc.Some?
  }

  ghost predicate HasDataVolume(spec: TemplateSpec, name: string) {
    exists i :: 0 <= i < |spec.volumes| && spec.volumes[i].name == name && spec.volumes[i].dataVolume.Some?
  }

  ghost predicate HasVirtualDisk(spec: TemplateSpec, name: string) {
    exists i :: 0 <= i < |spec.volumes| && spec.volumes[i].name == name && spec.volumes[i].virtualDisk.Some?
  }

  /** A reference is renamed exactly when it names a template volume. */
  predicate Refers(named: bool, full: string, was: string, now: string) {
    now == if named then full else was
  }

  function PvcName(u: Uid, name: string): string {
    "sandbox-pvc-" + u + "-" + name
  }

  function DataVolumeName(u: Uid, name: string): string {
    "sandbox-dv-" + u + "-" + name
  }

  function VirtualDiskName(u: Uid, name: string): string {
    "sandbox-vd-" + u + "-" + name
  }

  /** The template's pod with claims and mounts that name PVC template volumes renamed, and nothing else changed. */
  ghost predicate IsPodOf(u: Uid, spec: TemplateSpec, was: PodSpec, pod: PodSpec) {
    && pod.rest == was.rest && |pod.volumes| == |was.volumes| && |pod.containers| == |was.containers|
    && (forall i :: 0 <= i < |was.volumes| ==>
          && pod.volumes[i].name == was.volumes[i].name
          && (pod.volumes[i].claim.Some? <==> was.volumes[i].claim.Some?)
          && (was.volumes[i].claim.Some? ==>
                var name := was.volumes[i].claim.value;
                Refers(HasPvc(spec, name), PvcName(u, name), name, pod.volumes[i].claim.value)))
    && (forall i :: 0 <= i < |was.containers| ==> |pod.containers[i].mounts| == |was.containers[i].mounts|)
    && (forall i, j :: 0 <= i < |was.containers| && 0 <= j < |was.containers[i].mounts| ==>
          var name := was.containers[i].mounts[j];
          Refers(HasPvc(spec, name), PvcName(u, name), name, pod.containers[i].mounts[j]))
  }

  /** The template's machine instance: DataVolume references and disks renamed, a disk after a claim first; claims
      stay. */
  ghost predicate IsVmiOf(u: Uid, spec: TemplateSpec, was: VmiSpec, vmi: VmiSpec) {
    && vmi.rest == was.rest && |vmi.volumes| == |was.volumes| && |vmi.disks| == |was.disks|
    && (forall i :: 0 <= i < |was.volumes| ==>
          && vmi.volumes[i].name == was.volumes[i].name && vmi.volumes[i].claim == was.volumes[i].claim
          && (vmi.volumes[i].dataVolume.Some? <==> was.volumes[i].dataVolume.Some?)
          && (was.volumes[i].dataVolume.Some? ==>
                var name := was.volumes[i].dataVolume.value;
                Refers(HasDataVolume(spec, name), DataVolumeName(u, name), name, vmi.volumes[i].dataVolume.value)))
    && (forall i :: 0 <= i < |was.disks| ==>
          var name := was.disks[i].name;
          && vmi.disks[i].isDisk == was.disks[i].isDisk
          && vmi.disks[i].name ==
             if !was.disks[i].isDisk then name
             else if HasPvc(spec, name) then PvcName(u, name)
             else if HasDataVolume(spec, name) then DataVolumeName(u, name)
             else name)
  }

  /** The template's machine: VirtualDisk references renamed. */
  ghost predicate IsVmOf(u: Uid, spec: TemplateSpec, was: VmSpec, vm: VmSpec) {
    && vm.rest == was.rest && |vm.refs| == |was.refs|
    && forall i :: 0 <= i < |was.refs| ==>
         var name := was.refs[i].name;
         && vm.refs[i].isVirtualDisk == was.refs[i].isVirtualDisk
         && Refers(was.refs[i].isVirtualDisk && HasVirtualDisk(spec, name), VirtualDiskName(u, name), name,
                   vm.refs[i].name)
  }

  lemma Named(u: Uid, namespace: string, kind: Kind, spec: TemplateSpec, name: string)
    requires IsVolume(kind)
    ensures VolumeName(kind, u, name) in ObjectNames(MakeVolumes(u, namespace, kind, spec.volumes)) <==>
      match kind
      case PVC => HasPvc(spec, name)
      case DataVolume => HasDataVolume(spec, name)
      case _ => HasVirtualDisk(spec, name)
    ensures VolumeName(kind, u, name) ==
      match kind
      case PVC => PvcName(u, name)
      case DataVolume => DataVolumeName(u, name)
      case _ => VirtualDiskName(u, name)
  {
    MadeExactly(u, namespace, kind, spec.volumes, name);
  }

  lemma PodIs(u: Uid, namespace: string, spec: TemplateSpec, was: PodSpec)
    ensures IsPodOf(u, spec, was, RewritePod(u, ObjectNames(MakeVolumes(u, namespace, PVC, spec.volumes)), was))
  {
    forall name: string {
      Named(u, namespace, PVC, spec, name);
    }
  }

  lemma VmiIs(u: Uid, namespace: string, spec: TemplateSpec, was: VmiSpec)
    ensures IsVmiOf(u, spec, was, RewriteVmi(u, ObjectNames(MakeVolumes(u, namespace, DataVolume, spec.volumes)),
                                             ObjectNames(MakeVolumes(u, namespace, PVC, spec.volumes)), was))
  {
    forall name: string {
      Named(u, namespace, PVC, spec, name);
    }
    forall name: string {
      Named(u, namespace, DataVolume, spec, name);
    }
  }

  lemma VmIs(u: Uid, namespace: string, spec: TemplateSpec, was: VmSpec)
    ensures IsVmOf(u, spec, was, RewriteVm(u, ObjectNames(MakeVolumes(u, namespace, VirtualDisk, spec.volumes)), was))
  {
    forall name: string {
      Named(u, namespace, VirtualDisk, spec, name);
    }
  }

  // ---------------------------------------------------------------- the children

  /** The child belongs to the backend, has its name and its payload from this spec, and is controlled by the
      Sandbox. */
  ghost predicate IsChildOf(p: Pass, t: SandboxType, spec: TemplateSpec, ck: ChildKey, child: Child) {
    && ck.namespace == p.key.namespace
    && child.owner == Some(p.uid) && !child.deleting && child.phase == PhaseUnset && child.messages == []
    && match ck.kind
       case Pod =>
         && t == PodType && ck.name == "sandbox-" + p.uid && spec.pod.Some?
         && child.payload.PodPayload? && IsPodOf(p.uid, spec, spec.pod.value, child.payload.pod)
       case VMI =>
         && t == KubevirtType && ck.name == "sandbox-" + p.uid && spec.vmi.Some?
         && child.payload.VmiPayload? && IsVmiOf(p.uid, spec, spec.vmi.value, child.payload.vmi)
       case VM =>
         && t == DVPType && ck.name == "sandbox-" + p.uid && spec.vm.Some?
         && child.payload.VmPayload? && IsVmOf(p.uid, spec, spec.vm.value, child.payload.vm)
       case PVC =>
         && (t == PodType || t == KubevirtType)
         && exists i :: 0 <= i < |spec.volumes| && ck.name == PvcName(p.uid, spec.volumes[i].name)
                        && spec.volumes[i].pvc.Some? && child.payload == VolumePayload(spec.volumes[i].pvc.value)
       case DataVolume =>
         && t == KubevirtType
         && exists i :: 0 <= i < |spec.volumes| && ck.name == DataVolumeName(p.uid, spec.volumes[i].name)
                        && spec.volumes[i].dataVolume.Some?
                        && child.payload == VolumePayload(spec.volumes[i].dataVolume.value)
       case VirtualDisk =>
         && t == DVPType
         && exists i :: 0 <= i < |spec.volumes| && ck.name == VirtualDiskName(p.uid, spec.volumes[i].name)
                        && spec.volumes[i].virtualDisk.Some?
                        && child.payload == VolumePayload(spec.volumes[i].virtualDisk.value)
  }

  lemma WorkloadIsChild(p: Pass, t: SandboxType, spec: TemplateSpec)
    requires HasWorkload(t, spec)
    ensures var new_ := NewWorkload(t, p.key.namespace, p.uid, spec); IsChildOf(p, t, spec, new_.key, new_.child)
  {
    match t
    case PodType => PodIs(p.uid, p.key.namespace, spec, spec.pod.value);
    case KubevirtType => VmiIs(p.uid, p.key.namespace, spec, spec.vmi.value);
    case DVPType => VmIs(p.uid, p.key.namespace, spec, spec.vm.value);
  }

  /** A made volume comes from one of the template volumes. */
  lemma {:induction false} MadeVolume(u: Uid, namespace: string, kind: Kind, volumes: seq<Volume>, j: nat)
    returns (i: nat)
    requires j < |MakeVolumes(u, namespace, kind, volumes)|
    ensures i < |volumes| && VolumeSpec(volumes[i], kind).Some?
    ensures MakeVolumes(u, namespace, kind, volumes)[j]
            == NewVolume(u, namespace, kind, volumes[i].name, VolumeSpec(volumes[i], kind).value)
    decreases volumes
  {
    var head := if VolumeSpec(volumes[0], kind).Some? then 1 else 0;
    if j < head {
      i := 0;
    } else {
      i := MadeVolume(u, namespace, kind, volumes[1..], j - head);
      i := i + 1;
    }
  }

  lemma VolumeIsChild(p: Pass, t: SandboxType, spec: TemplateSpec, kind: Kind, j: nat)
    requires kind in VolumeKinds(t) && j < |MakeVolumes(p.uid, p.key.namespace, kind, spec.volumes)|
    ensures var new_ := MakeVolumes(p.uid, p.key.namespace, kind, spec.volumes)[j];
      IsChildOf(p, t, spec, new_.key, new_.child)
  {
    var i := MadeVolume(p.uid, p.key.namespace, kind, spec.volumes, j);
    Named(p.uid, p.key.namespace, kind, spec, spec.volumes[i].name);
  }

  // ---------------------------------------------------------------- every child that a pass makes

  /** A step of a pass adds only such children. */
  ghost predicate AddsAt(p: Pass, t: SandboxType, spec: TemplateSpec, tr: seq<Event>, i: nat)
    requires 0 < i < |tr|
  {
    tr[i].actor.Controller? ==>
      forall ck :: ck in tr[i].store.children && ck !in tr[i - 1].store.children ==>
        IsChildOf(p, t, spec, ck, tr[i].store.children[ck])
  }

  ghost predicate Adds(p: Pass, t: SandboxType, spec: TemplateSpec, w: World, w': World) {
    && Tidy(w) && Tidy(w') && w.trace <= w'.trace
    && forall i :: |w.trace| <= i < |w'.trace| ==> AddsAt(p, t, spec, w'.trace, i)
  }

  lemma ThenAdds(p: Pass, t: SandboxType, spec: TemplateSpec, w: World, w1: World, w': World)
    requires Adds(p, t, spec, w, w1) && Adds(p, t, spec, w1, w')
    ensures Adds(p, t, spec, w, w')
  {
    forall i | |w.trace| <= i < |w'.trace|
      ensures AddsAt(p, t, spec, w'.trace, i)
    {
      if i < |w1.trace| {
        assert AddsAt(p, t, spec, w1.trace, i);
      }
    }
  }

  lemma AddsNothing(p: Pass, t: SandboxType, spec: TemplateSpec, w: World, w': World, reports: bool)
    requires Does(p, w, w', false, reports)
    ensures Adds(p, t, spec, w, w')
  {
    forall i | |w.trace| <= i < |w'.trace|
      ensures AddsAt(p, t, spec, w'.trace, i)
    {
      assert OnlyAt(p, w'.trace, i, false, reports);
    }
  }

  lemma CreateChildAdds(p: Pass, t: SandboxType, spec: TemplateSpec, new_: NewChild, w: World)
    requires Tidy(w) && IsChildOf(p, t, spec, new_.key, new_.child)
    ensures Adds(p, t, spec, w, CreateChild(p, new_, w).0)
  {
    TurnDoes(p, w);
    var w1, w' := Turn(p.key, w).0, CreateChild(p, new_, w).0;
    AddsNothing(p, t, spec, w, w1, false);
    if w' != w1 {
      assert Adds(p, t, spec, w1, w');
      ThenAdds(p, t, spec, w, w1, w');
    }
  }

  ghost predicate AllChildren(p: Pass, t: SandboxType, spec: TemplateSpec, wanted: seq<NewChild>) {
    forall i :: 0 <= i < |wanted| ==> IsChildOf(p, t, spec, wanted[i].key, wanted[i].child)
  }

  lemma {:induction false} CreateMissingAdds(
    p: Pass, t: SandboxType, spec: TemplateSpec, existing: set<ChildKey>, wanted: seq<NewChild>, w: World)
    requires Tidy(w) && AllChildren(p, t, spec, wanted)
    ensures Adds(p, t, spec, w, CreateMissing(p, existing, wanted, w).0)
    decreases |wanted|
  {
    if wanted == [] {
      assert Adds(p, t, spec, w, w);
    } else {
      assert forall i :: 0 <= i < |wanted[1..]| ==> wanted[1..][i] == wanted[i + 1];
      assert AllChildren(p, t, spec, wanted[1..]);
      if wanted[0].key in existing {
        CreateMissingAdds(p, t, spec, existing, wanted[1..], w);
      } else {
        CreateChildAdds(p, t, spec, wanted[0], w);
        var (w1, ok) := CreateChild(p, wanted[0], w);
        if ok {
          CreateMissingAdds(p, t, spec, existing, wanted[1..], w1);
          ThenAdds(p, t, spec, w, w1, CreateMissing(p, existing, wanted, w).0);
        }
      }
    }
  }

  lemma {:induction false} CreateKindsAdds(
    p: Pass, t: SandboxType, spec: TemplateSpec, kinds: seq<Kind>, w: World)
    requires Tidy(w) && forall i :: 0 <= i < |kinds| ==> kinds[i] in VolumeKinds(t)
    ensures Adds(p, t, spec, w, CreateKinds(p, kinds, spec.volumes, w).0)
    decreases |kinds|
  {
    if kinds == [] {
      assert Adds(p, t, spec, w, w);
    } else {
      var wanted := MakeVolumes(p.uid, p.key.namespace, kinds[0], spec.volumes);
      forall j | 0 <= j < |wanted|
        ensures IsChildOf(p, t, spec, wanted[j].key, wanted[j].child)
      {
        VolumeIsChild(p, t, spec, kinds[0], j);
      }
      TurnDoes(p, w);
      var (w1, existing) := ListOwned(p, kinds[0], w);
      AddsNothing(p, t, spec, w, w1, false);
      if existing.Some? {
        CreateMissingAdds(p, t, spec, KeySet(existing.value), wanted, w1);
        var (w2, ok) := CreateVolumes(p, kinds[0], wanted, w);
        ThenAdds(p, t, spec, w, w1, w2);
        if ok {
          CreateKindsAdds(p, t, spec, kinds[1..], w2);
          ThenAdds(p, t, spec, w, w2, CreateKinds(p, kinds, spec.volumes, w).0);
        }
      }
    }
  }

  lemma EnsureWorkloadAdds(p: Pass, t: SandboxType, spec: TemplateSpec, w: World)
    requires Tidy(w) && t != NoType
    ensures Adds(p, t, spec, w, EnsureWorkload(p, t, spec, w).0)
  {
    EnsureWorkloadIs(p, t, spec, w);
    TurnDoes(p, w);
    var w1, w' := Turn(p.key, w).0, EnsureWorkload(p, t, spec, w).0;
    var key := WorkloadKey(t, p.key.namespace, p.uid);
    AddsNothing(p, t, spec, w, w1, false);
    DeleteChildDoes(p, key, w1);
    AddsNothing(p, t, spec, w1, DeleteChild(p, key, w1).0, false);
    ThenAdds(p, t, spec, w, w1, DeleteChild(p, key, w1).0);
    if HasWorkload(t, spec) {
      var new_ := NewWorkload(t, p.key.namespace, p.uid, spec);
      WorkloadIsChild(p, t, spec);
      CreateChildAdds(p, t, spec, new_, w1);
      ThenAdds(p, t, spec, w, w1, CreateChild(p, new_, w1).0);
    }
  }

  lemma CreateAdds(p: Pass, t: SandboxType, spec: TemplateSpec, w: World)
    requires Tidy(w) && t != NoType
    ensures Adds(p, t, spec, w, Create(p, t, spec, w).0)
  {
    if GateOpen(w.gates, t) {
      CreateKindsAdds(p, t, spec, VolumeKinds(t), w);
      var (w1, ok) := CreateKinds(p, VolumeKinds(t), spec.volumes, w);
      if ok {
        EnsureWorkloadAdds(p, t, spec, w1);
        ThenAdds(p, t, spec, w, w1, Create(p, t, spec, w).0);
      }
    } else {
      assert Adds(p, t, spec, w, w);
    }
  }

  // ---------------------------------------------------------------- a whole pass

  /** The spec that a pass may create from: the inline one; that of the named template, in a store of this pass; or what
      decoding the reply of a patch left in it. */
  ghost predicate UsedSpec(obj: Sandbox, ticks: seq<Tick>, tr: seq<Event>, from: nat, i: nat, spec: TemplateSpec)
    requires i <= |tr|
  {
    || obj.spec.templateSpec == Some(spec)
    || (obj.spec.templateSpec.None? && exists h :: from <= h < i && ShowsSpec(tr, h, obj.spec.template, spec))
    || exists j :: 0 <= j < |ticks| && ticks[j].decoded == Some(spec)
  }

  ghost predicate ShowsSpec(tr: seq<Event>, h: nat, name: string, spec: TemplateSpec)
    requires h < |tr|
  {
    name in tr[h].store.templates && tr[h].store.templates[name].spec == spec
  }

  /** The backend: the stored type, or else the one that the spec which was looked up selects. */
  ghost predicate UsedType(obj: Sandbox, tr: seq<Event>, from: nat, i: nat, t: SandboxType)
    requires i <= |tr|
  {
    if obj.status.kind != NoType then t == obj.status.kind
    else if obj.spec.templateSpec.Some? then Selects(obj.spec.templateSpec.value, t)
    else exists h :: from <= h < i && SelectsAt(tr, h, obj.spec.template, t)
  }

  ghost predicate SelectsAt(tr: seq<Event>, h: nat, name: string, t: SandboxType)
    requires h < |tr|
  {
    name in tr[h].store.templates && Selects(tr[h].store.templates[name].spec, t)
  }

  /** A pod goes before a KubeVirt instance, and that before a DVP machine. */
  predicate Selects(spec: TemplateSpec, t: SandboxType) {
    match t
    case PodType => spec.pod.Some?
    case KubevirtType => spec.pod.None? && spec.vmi.Some?
    case DVPType => spec.pod.None? && spec.vmi.None? && spec.vm.Some?
    case NoType => spec.pod.None? && spec.vmi.None? && spec.vm.None?
  }

  /** What this step adds is what such a spec and such a type make. */
  ghost predicate MadeAt(p: Pass, obj: Sandbox, ticks: seq<Tick>, tr: seq<Event>, from: nat, i: nat)
    requires 0 < i < |tr|
  {
    MakesAt(tr, i) ==>
      exists t, spec :: && UsedSpec(obj, ticks, tr, from, i, spec) && UsedType(obj, tr, from, i, t)
                        && AddsAt(p, t, spec, tr, i)
  }

  ghost predicate AllMade(p: Pass, obj: Sandbox, ticks: seq<Tick>, tr: seq<Event>, from: nat) {
    forall i :: from < i < |tr| ==> MadeAt(p, obj, ticks, tr, from, i)
  }

  lemma NothingMade(p: Pass, obj: Sandbox, ticks: seq<Tick>, w: World, w': World, reports: bool)
    requires Does(p, w, w', false, reports)
    ensures AllMade(p, obj, ticks, w'.trace, |w.trace| - 1)
  {
    var from := |w.trace| - 1;
    forall i | from < i < |w'.trace|
      ensures MadeAt(p, obj, ticks, w'.trace, from, i)
    {
      assert OnlyAt(p, w'.trace, i, false, reports);
    }
  }

  /** Children come only after the lookup and the protection have settled spec and type. */
  lemma MadeAfterwards(p: Pass, obj: Sandbox, ticks: seq<Tick>, w: World, w2: World, w': World, t: SandboxType,
                       spec: TemplateSpec)
    requires Does(p, w, w2, false, false) && Adds(p, t, spec, w2, w')
    requires UsedSpec(obj, ticks, w2.trace, |w.trace| - 1, |w2.trace|, spec)
    requires UsedType(obj, w2.trace, |w.trace| - 1, |w2.trace|, t)
    ensures AllMade(p, obj, ticks, w'.trace, |w.trace| - 1)
  {
    var from := |w.trace| - 1;
    forall i | from < i < |w'.trace|
      ensures MadeAt(p, obj, ticks, w'.trace, from, i)
    {
      if i < |w2.trace| {
        assert OnlyAt(p, w2.trace, i, false, false);
      } else {
        assert AddsAt(p, t, spec, w'.trace, i);
        StaysUsed(obj, ticks, w2.trace, w'.trace, from, |w2.trace|, i, t, spec);
      }
    }
  }

  lemma StaysUsed(obj: Sandbox, ticks: seq<Tick>, tr: seq<Event>, longer: seq<Event>, from: nat, i: nat, j: nat,
                  t: SandboxType, spec: TemplateSpec)
    requires tr <= longer && i <= |tr| && i <= j <= |longer|
    requires UsedSpec(obj, ticks, tr, from, i, spec) && UsedType(obj, tr, from, i, t)
    ensures UsedSpec(obj, ticks, longer, from, j, spec) && UsedType(obj, longer, from, j, t)
  {
    var name := obj.spec.template;
    forall h | from <= h < i
      ensures ShowsSpec(tr, h, name, spec) ==> ShowsSpec(longer, h, name, spec)
      ensures SelectsAt(tr, h, name, t) ==> SelectsAt(longer, h, name, t)
    {
      assert tr[h] == longer[h];
    }
  }

  lemma DetectSelects(spec: TemplateSpec)
    ensures Selects(spec, DetectSandboxType(Some(spec)))
  {
  }

  /** What the lookup found is in the store of that moment. */
  lemma LookupShows(p: Pass, obj: Sandbox, w: World)
    requires Tidy(w) && p == PassFor(p.key, obj)
    ensures var (w1, resolved, r) := HandleTemplateSpec(p, obj, w);
      && Does(p, w, w1, false, false)
      && (r.Resolution? && r.spec.Some? ==>
            && (obj.spec.templateSpec.Some? ==> obj.spec.templateSpec == r.spec)
            && (obj.spec.templateSpec.None? ==>
                  ShowsSpec(w1.trace, |w1.trace| - 1, obj.spec.template, r.spec.value)))
  {
    LookupDoes(p, obj, w);
  }

  lemma LookupUses(p: Pass, obj: Sandbox, ticks: seq<Tick>, w: World, w1: World, r: Resolution)
    requires Tidy(w) && p == PassFor(p.key, obj) && HandleTemplateSpec(p, obj, w) == (w1, obj, r)
    requires r.Resolution? && r.spec.Some?
    ensures |w.trace| <= |w1.trace| && UsedSpec(obj, ticks, w1.trace, |w.trace| - 1, |w1.trace|, r.spec.value)
    ensures UsedType(obj, w1.trace, |w.trace| - 1, |w1.trace|, WithType(obj, r.spec).status.kind)
  {
    LookupShows(p, obj, w);
    DetectSelects(r.spec.value);
    if obj.spec.templateSpec.None? {
      assert SelectsAt(w1.trace, |w1.trace| - 1, obj.spec.template, DetectSandboxType(r.spec));
    }
  }

  /** The ticks that a pass has left are among those it started with. */
  ghost predicate Rest(ticks: seq<Tick>, w: World) {
    forall i :: 0 <= i < |w.script| ==> w.script[i] in ticks
  }

  lemma LookupRest(p: Pass, obj: Sandbox, ticks: seq<Tick>, w: World)
    requires Rest(ticks, w)
    ensures Rest(ticks, HandleTemplateSpec(p, obj, w).0)
  {
  }

  /** The spec after protection is the one looked up, or one that a tick decoded. */
  lemma ProtectUses(p: Pass, template: Option<Template>, ticks: seq<Tick>, spec: TemplateSpec, w: World)
    requires Rest(ticks, w)
    ensures var (w', ok, used) := Protect(p, template, spec, w);
      used == spec || exists j :: 0 <= j < |ticks| && ticks[j].decoded == Some(used)
  {
    var (w', ok, used) := Protect(p, template, spec, w);
    if used != spec {
      var tick := Turn(p.key, w).1;
      assert tick.decoded == Some(used) && w.script != [] && tick == w.script[0];
      assert tick in ticks;
    }
  }

  lemma ActiveMakes(p: Pass, obj: Sandbox, ticks: seq<Tick>, r: Resolution, w: World, w1: World)
    requires Tidy(w) && p == PassFor(p.key, obj) && HandleTemplateSpec(p, obj, w) == (w1, obj, r) && Rest(ticks, w)
    requires r.Resolution? && r.spec.Some? && WithType(obj, r.spec).status.kind != NoType
    ensures var w' := HandleActive(p, WithType(obj, r.spec), r.template, r.spec.value, w1).0;
      AllMade(p, obj, ticks, w'.trace, |w.trace| - 1)
  {
    var typed := WithType(obj, r.spec);
    LookupDoes(p, obj, w);
    ProtectDoes(p, r.template, r.spec.value, w1);
    var (w2, ok, used) := Protect(p, r.template, r.spec.value, w1);
    Then(p, w, w1, w2, false, false);
    if ok {
      LookupRest(p, obj, ticks, w);
      ProtectUses(p, r.template, ticks, r.spec.value, w1);
      LookupUses(p, obj, ticks, w, w1, r);
      StaysUsed(obj, ticks, w1.trace, w2.trace, |w.trace| - 1, |w1.trace|, |w2.trace|, typed.status.kind, r.spec.value);
      assert UsedSpec(obj, ticks, w2.trace, |w.trace| - 1, |w2.trace|, used);
      var w' := HandleActive(p, typed, r.template, r.spec.value, w1).0;
      CreateAndReportAdds(p, AddFinalizer(typed), used, w2);
      MadeAfterwards(p, obj, ticks, w, w2, w', typed.status.kind, used);
    } else {
      NothingMade(p, obj, ticks, w, w2, false);
    }
  }

  lemma CreateAndReportAdds(p: Pass, held: Sandbox, spec: TemplateSpec, w: World)
    requires Tidy(w) && held.status.kind != NoType
    ensures Adds(p, held.status.kind, spec, w, CreateAndReport(p, held, spec, w).0)
  {
    var t := held.status.kind;
    CreateAdds(p, t, spec, w);
    var (w1, created) := Create(p, t, spec, w);
    if created && GateOpen(w1.gates, t) {
      TurnDoes(p, w1);
      AddsNothing(p, t, spec, w1, Turn(p.key, w1).0, false);
      ThenAdds(p, t, spec, w, w1, CreateAndReport(p, held, spec, w).0);
    }
  }

  lemma ReconcileMakes(p: Pass, obj: Sandbox, ticks: seq<Tick>, w: World)
    requires Tidy(w) && p == PassFor(p.key, obj) && Rest(ticks, w)
    ensures AllMade(p, obj, ticks, Reconcile(p, obj, w).0.trace, |w.trace| - 1)
  {
    Branches.LookupLeavesSpec(p, obj, w);
    LookupDoes(p, obj, w);
    var (w1, resolved, r) := HandleTemplateSpec(p, obj, w);
    if r.LookupFailed? {
      NothingMade(p, obj, ticks, w, w1, false);
    } else {
      var typed := WithType(resolved, r.spec);
      if typed.deleting || IsTTLExpired(typed, w1.store.now) || r.terminating || r.spec.None?
         || typed.status.kind == NoType {
        PassiveMakes(p, obj, ticks, typed, r, w, w1);
      } else {
        ActiveMakes(p, obj, ticks, r, w, w1);
      }
    }
  }

  lemma PassiveMakes(p: Pass, obj: Sandbox, ticks: seq<Tick>, typed: Sandbox, r: Resolution, w: World, w1: World)
    requires Does(p, w, w1, false, false) && r.Resolution?
    requires typed.deleting || IsTTLExpired(typed, w1.store.now) || r.terminating || r.spec.None?
             || typed.status.kind == NoType
    ensures AllMade(p, obj, ticks, HandleResolved(p, typed, r, w1).0.trace, |w.trace| - 1)
  {
    var w' := HandleResolved(p, typed, r, w1).0;
    if typed.deleting {
      HandleTerminatingDoes(p, WithReady(typed, Report(False, ReasonTerminating, "")), r.template, w1);
      Then(p, w, w1, w', false, false);
    } else if IsTTLExpired(typed, w1.store.now) {
      DeleteSandboxDoes(p, typed, w1);
      Then(p, w, w1, w', false, false);
    }
    NothingMade(p, obj, ticks, w, w', false);
  }

  lemma UpdateMakes(p: Pass, obj: Sandbox, ticks: seq<Tick>, w: World, w2: World, w': World)
    requires Tidy(w) && w.trace <= w2.trace && AllMade(p, obj, ticks, w2.trace, |w.trace| - 1)
    requires Does(p, w2, w', false, true)
    ensures AllMade(p, obj, ticks, w'.trace, |w.trace| - 1)
  {
    var from := |w.trace| - 1;
    forall i | from < i < |w'.trace|
      ensures MadeAt(p, obj, ticks, w'.trace, from, i)
    {
      if i < |w2.trace| {
        assert MadeAt(p, obj, ticks, w2.trace, from, i);
        if MakesAt(w2.trace, i) {
          var t, spec :| UsedSpec(obj, ticks, w2.trace, from, i, spec) && UsedType(obj, w2.trace, from, i, t)
                         && AddsAt(p, t, spec, w2.trace, i);
          StaysUsed(obj, ticks, w2.trace, w'.trace, from, i, i, t, spec);
          assert AddsAt(p, t, spec, w'.trace, i);
        }
      } else {
        assert OnlyAt(p, w'.trace, i, false, true);
      }
    }
  }

  lemma ReadPassMakes(p: Pass, obj: Sandbox, ticks: seq<Tick>, w: World)
    requires Tidy(w) && p == PassFor(p.key, obj) && Rest(ticks, w)
    ensures var (w2, copy, outcome) := Reconcile(p, obj, w);
      var tr := Update(p, obj, copy, w2).0.trace;
      w.trace <= tr && AllMade(p, obj, ticks, tr, |w.trace| - 1)
  {
    ReconcileMakes(p, obj, ticks, w);
    ReconcileDoes(p, obj, w);
    var (w2, copy, outcome) := Reconcile(p, obj, w);
    UpdateDoes(p, obj, copy, w2);
    UpdateMakes(p, obj, ticks, w, w2, Update(p, obj, copy, w2).0);
  }

  /** The Sandbox that the pass read is in the a-th store, and this step makes what that pass should. */
  ghost predicate MadeForRead(k: Key, ticks: seq<Tick>, tr: seq<Event>, a: nat, i: nat)
    requires a < i < |tr|
  {
    k in tr[a].store.sandboxes
    && MadeAt(PassFor(k, tr[a].store.sandboxes[k]), tr[a].store.sandboxes[k], ticks, tr, a, i)
  }

  ghost predicate MadeWithin(k: Key, ticks: seq<Tick>, tr: seq<Event>, from: nat, i: nat)
    requires i < |tr|
  {
    exists a :: from <= a < i && MadeForRead(k, ticks, tr, a, i)
  }

  ghost predicate StepMade(k: Key, ticks: seq<Tick>, tr: seq<Event>, from: nat, i: nat)
    requires 0 < i < |tr|
  {
    MakesAt(tr, i) ==> MadeWithin(k, ticks, tr, from, i)
  }

  ghost predicate PassMade(k: Key, ticks: seq<Tick>, tr: seq<Event>, from: nat) {
    forall i :: from < i < |tr| ==> StepMade(k, ticks, tr, from, i)
  }

  lemma ReadFirst(k: Key, obj: Sandbox, ticks: seq<Tick>, w: World, w1: World, tr: seq<Event>)
    requires w.trace != [] && w.trace <= w1.trace <= tr && Tidy(w1)
    requires forall i :: |w.trace| <= i < |w1.trace| ==> w1.trace[i].actor.Outside?
    requires k in w1.store.sandboxes && w1.store.sandboxes[k] == obj
    requires AllMade(PassFor(k, obj), obj, ticks, tr, |w1.trace| - 1)
    ensures PassMade(k, ticks, tr, |w.trace| - 1)
  {
    var from, a := |w.trace| - 1, |w1.trace| - 1;
    assert tr[a] == w1.trace[a];
    forall i | from < i < |tr|
      ensures StepMade(k, ticks, tr, from, i)
    {
      if i <= a {
        assert tr[i] == w1.trace[i];
      } else {
        assert MadeAt(PassFor(k, obj), obj, ticks, tr, a, i);
        assert MadeForRead(k, ticks, tr, a, i);
      }
    }
  }

  lemma NothingRead(k: Key, ticks: seq<Tick>, w: World, w1: World)
    requires w.trace != [] && w.trace <= w1.trace
    requires forall i :: |w.trace| <= i < |w1.trace| ==> w1.trace[i].actor.Outside?
    ensures PassMade(k, ticks, w1.trace, |w.trace| - 1)
  {
  }

  lemma RunPassMakes(k: Key, w: World)
    requires Tidy(w)
    ensures PassMade(k, w.script, RunPass(k, w).0.trace, |w.trace| - 1)
  {
    var (w1, found) := GetSandbox(k, w);
    NothingRead(k, w.script, w, w1);
    if found.Found? {
      var obj := found.value;
      ReadPassMakes(PassFor(k, obj), obj, w.script, w1);
      ReadFirst(k, obj, w.script, w, w1, RunPass(k, w).0.trace);
    }
  }

  lemma ByPassMakes(k: Key, w: World, script: seq<Tick>, w': World)
    requires Tidy(w) && ByPass(k, w, script, w')
    ensures PassMade(k, script, w'.trace, |w.trace| - 1)
  {
    RunPassMakes(k, w.(script := script));
  }

  lemma StartTidy(k: Key, scripts: seq<seq<Tick>>, ws: seq<World>, n: nat)
    requires IsScripted(k, scripts, ws) && Good(k, ws[0]) && 0 < n < |ws|
    ensures Tidy(ws[n - 1])
  {
    ScriptedIsRun(k, scripts, ws);
    Runs.RunGood(k, ws, n - 1);
  }

  lemma FollowsIsBy(k: Key, scripts: seq<seq<Tick>>, ws: seq<World>, n: nat, w: World, script: seq<Tick>, w': World)
    requires IsScripted(k, scripts, ws) && 0 < n < |ws|
    requires w == ws[n - 1] && script == scripts[n - 1] && w' == ws[n]
    ensures ByPass(k, w, script, w')
  {
    assert FollowsScript(k, scripts, ws, n);
  }

  lemma FollowsMakes(k: Key, scripts: seq<seq<Tick>>, ws: seq<World>, n: nat, w: World, script: seq<Tick>, w': World)
    requires IsScripted(k, scripts, ws) && 0 < n < |ws| && Tidy(w)
    requires w == ws[n - 1] && script == scripts[n - 1] && w' == ws[n]
    ensures PassMade(k, script, w'.trace, |w.trace| - 1)
  {
    FollowsIsBy(k, scripts, ws, n, w, script, w');
    ByPassMakes(k, w, script, w');
  }

  lemma EachPassMakes(k: Key, scripts: seq<seq<Tick>>, ws: seq<World>, n: nat)
    requires IsScripted(k, scripts, ws) && Good(k, ws[0]) && 0 < n < |ws|
    ensures ws[n - 1].trace != [] && PassMade(k, scripts[n - 1], ws[n].trace, |ws[n - 1].trace| - 1)
  {
    StartTidy(k, scripts, ws, n);
    FollowsMakes(k, scripts, ws, n, ws[n - 1], scripts[n - 1], ws[n]);
  }

  /** Every child that any step of any run makes has, for the Sandbox that its pass read and the backend and the spec
      that this pass used, the right kind, name, owner and payload, with references to the Sandbox's own volumes
      renamed. */
  lemma ChildrenAreRight(k: Key, scripts: seq<seq<Tick>>, ws: seq<World>, n: nat, i: nat)
    requires IsScripted(k, scripts, ws) && Good(k, ws[0]) && InPass(ws, n, i) && MakesAt(ws[n].trace, i)
    ensures MadeWithin(k, scripts[n - 1], ws[n].trace, |ws[n - 1].trace| - 1, i)
  {
    EachPassMakes(k, scripts, ws, n);
    assert StepMade(k, scripts[n - 1], ws[n].trace, |ws[n - 1].trace| - 1, i);
  }
}
