/** The three backends as objects (pod.go, kubevirt.go, dvp.go, pvc.go): each method makes exactly the calls of the
    corresponding function of the pass, in the same order, and stops at the same failures. */
module Sandboxers {
  import opened Types
  import opened Volumes
  import opened Backends
  import opened Cluster
  import opened Client
  import Passes

  lemma {:induction false} ControlledConcat(
    u: Uid, a: seq<(ChildKey, Option<Uid>)>, b: seq<(ChildKey, Option<Uid>)>)
    ensures Passes.Controlled(u, a + b) == Passes.Controlled(u, a) + Passes.Controlled(u, b)
  {
    if a == [] {
      assert a + b == b;
    } else {
      assert (a + b)[0] == a[0] && (a + b)[1..] == a[1..] + b;
      ControlledConcat(u, a[1..], b);
      var head: seq<ChildKey> := if a[0].1 == Some(u) then [a[0].0] else [];
      var rest, tail := Passes.Controlled(u, a[1..]), Passes.Controlled(u, b);
      assert head + (rest + tail) == (head + rest) + tail;
    }
  }

  /** The passes written with the kinds of each backend spelled out. */
  lemma OneKind(p: Pass, kind: Kind, volumes: seq<Volume>, w: World)
    ensures Passes.CreateKinds(p, [kind], volumes, w)
            == Passes.CreateVolumes(p, kind, MakeVolumes(p.uid, p.key.namespace, kind, volumes), w)
    ensures Passes.DeleteKinds(p, [kind], w) == Passes.DeleteVolumes(p, kind, w)
  {
    assert [kind][1..] == [];
  }

  lemma TwoKinds(p: Pass, kind1: Kind, kind2: Kind, volumes: seq<Volume>, w: World)
    ensures Passes.CreateKinds(p, [kind1, kind2], volumes, w) ==
      var (w1, ok) := Passes.CreateVolumes(p, kind1, MakeVolumes(p.uid, p.key.namespace, kind1, volumes), w);
      if !ok then (w1, false)
      else Passes.CreateVolumes(p, kind2, MakeVolumes(p.uid, p.key.namespace, kind2, volumes), w1)
    ensures Passes.DeleteKinds(p, [kind1, kind2], w) ==
      var (w1, ok) := Passes.DeleteVolumes(p, kind1, w);
      if !ok then (w1, false) else Passes.DeleteVolumes(p, kind2, w1)
  {
    assert [kind1, kind2][1..] == [kind2];
    var wanted := MakeVolumes(p.uid, p.key.namespace, kind1, volumes);
    OneKind(p, kind2, volumes, Passes.CreateVolumes(p, kind1, wanted, w).0);
    OneKind(p, kind2, volumes, Passes.DeleteVolumes(p, kind1, w).0);
  }

  /** Volumes of one kind: pvcManager, and the same loops in the machine backends. */
  class VolumeManager {
    const client: ApiClient
    const kind: Kind

    constructor (client: ApiClient, kind: Kind)
      ensures this.client == client && this.kind == kind
    {
      this.client, this.kind := client, kind;
    }

    method GetOwned(p: Pass) returns (result: Option<seq<ChildKey>>)
      modifies client
      ensures (client.world, result) == Passes.ListOwned(p, kind, old(client.world))
    {
      var listed := client.ListChildren(p.key, kind, p.key.namespace);
      if listed.None? {
        return None;
      }
      var items := listed.value;
      var owned: seq<ChildKey> := [];
      for i := 0 to |items|
        invariant owned == Passes.Controlled(p.uid, items[..i])
        invariant client.world == Cluster.ListChildren(p.key, kind, p.key.namespace, old(client.world)).0
      {
        ControlledConcat(p.uid, items[..i], [items[i]]);
        assert items[..i] + [items[i]] == items[..i + 1];
        if items[i].1 == Some(p.uid) {
          owned := owned + [items[i].0];
        }
      }
      assert items[..|items|] == items;
      return Some(owned);
    }

    method CreateMissing(p: Pass, wanted: seq<NewChild>) returns (ok: bool)
      modifies client
      ensures (client.world, ok) == Passes.CreateVolumes(p, kind, wanted, old(client.world))
    {
      var existing := GetOwned(p);
      if existing.None? {
        return false;
      }
      var keys := existing.value;
      var existMap: set<ChildKey> := {};
      for i := 0 to |keys|
        invariant existMap == set j | 0 <= j < i :: keys[j]
        invariant client.world == Passes.ListOwned(p, kind, old(client.world)).0
      {
        existMap := existMap + {keys[i]};
      }
      assert existMap == Passes.KeySet(keys);
      ghost var listed := client.world;
      for i := 0 to |wanted|
        invariant Passes.CreateMissing(p, existMap, wanted, listed)
               == Passes.CreateMissing(p, existMap, wanted[i..], client.world)
      {
        assert wanted[i..][0] == wanted[i] && wanted[i..][1..] == wanted[i + 1..];
        if wanted[i].key in existMap {
          continue;
        }
        ok := client.CreateChild(p, wanted[i]);
        if !ok {
          return false;
        }
      }
      return true;
    }

    method DeleteOwned(p: Pass) returns (ok: bool)
      modifies client
      ensures (client.world, ok) == Passes.DeleteVolumes(p, kind, old(client.world))
    {
      var owned := GetOwned(p);
      if owned.None? {
        return false;
      }
      var keys := owned.value;
      ghost var listed := client.world;
      for i := 0 to |keys|
        invariant Passes.DeleteAll(p, keys, listed) == Passes.DeleteAll(p, keys[i..], client.world)
      {
        assert keys[i..][0] == keys[i] && keys[i..][1..] == keys[i + 1..];
        ok := client.DeleteChild(p, keys[i]);
        if !ok {
          return false;
        }
      }
      return true;
    }
  }

  /** What Delete of the three backends has in common: the workload by name. */
  method DeleteNamed(client: ApiClient, p: Pass, key: ChildKey) returns (ok: bool)
    modifies client
    ensures var (w1, found) := Cluster.GetChild(p.key, key, old(client.world));
      (client.world, ok) ==
        if found.Failed? then (w1, false)
        else if found.NotFound? then (w1, true)
        else Cluster.DeleteChild(p, key, w1)
  {
    var found := client.GetChild(p.key, key);
    match found
    case Failed => return false;
    case NotFound => return true;
    case Found(_) => ok := client.DeleteChild(p, key);
  }

  method CollectMessages(messages: seq<string>) returns (message: string)
    ensures message == Join(NonEmpty(messages))
  {
    var msgs: seq<string> := [];
    for i := 0 to |messages|
      invariant msgs == NonEmpty(messages[..i])
    {
      NonEmptyConcat(messages[..i], [messages[i]]);
      assert messages[..i] + [messages[i]] == messages[..i + 1];
      if messages[i] != "" {
        msgs := msgs + [messages[i]];
      }
    }
    assert messages[..|messages|] == messages;
    message := Join(msgs);
  }

  class PodSandboxer {
    const client: ApiClient
    const pvcManager: VolumeManager

    constructor (client: ApiClient)
      ensures Valid() && this.client == client
    {
      this.client := client;
      pvcManager := new VolumeManager(client, PVC);
    }

    predicate Valid() {
      pvcManager.client == client && pvcManager.kind == PVC
    }

    method Create(p: Pass, spec: TemplateSpec) returns (ok: bool)
      requires Valid()
      modifies client
      ensures (client.world, ok) == Passes.Create(p, PodType, spec, old(client.world))
    {
      var pvcsForCreate := BuildVolumes(p.uid, p.key.namespace, PVC, spec);
      OneKind(p, PVC, spec.volumes, client.world);
      ok := pvcManager.CreateMissing(p, pvcsForCreate);
      if !ok {
        return false;
      }
      var key := WorkloadKey(PodType, p.key.namespace, p.uid);
      var found := client.GetChild(p.key, key);
      match found
      case Failed => return false;
      case Found(pod) =>
        if PhaseReason(Pod, pod.phase) != ReasonFailed {
          return true;
        }
        ok := client.DeleteChild(p, key);
      case NotFound =>
        if spec.pod.Some? {
          var pod := new PodObject(spec.pod.value);
          pod.MutatePVCs(p.uid, pvcsForCreate);
          ok := client.CreateChild(
            p, NewChild(key, Child(Some(p.uid), false, PhaseUnset, [], PodPayload(pod.Spec()))));
        }
    }

    method Delete(p: Pass) returns (ok: bool)
      requires Valid()
      modifies client
      ensures (client.world, ok) == Passes.Delete(p, PodType, old(client.world))
    {
      ok := DeleteNamed(client, p, WorkloadKey(PodType, p.key.namespace, p.uid));
      OneKind(p, PVC, [], client.world);
      if ok {
        ok := pvcManager.DeleteOwned(p);
      }
    }

    method Status(p: Pass) returns (r: Option<Passes.Report>)
      modifies client
      ensures (client.world, r) == Passes.GetStatus(p, PodType, old(client.world))
    {
      var found := client.GetChild(p.key, WorkloadKey(PodType, p.key.namespace, p.uid));
      if found.Failed? {
        return None;
      }
      var status, reason, message := False, ReasonPending, "";
      if found.Found? {
        reason := PhaseReason(Pod, found.value.phase);
        if reason == ReasonReady {
          status := True;
        } else if reason == ReasonFailed {
          message := if found.value.messages == [] then "" else found.value.messages[0];
        }
      }
      return Some(Passes.Report(status, reason, message));
    }
  }

  class KubevirtSandboxer {
    const client: ApiClient
    const dvManager: VolumeManager
    const pvcManager: VolumeManager

    constructor (client: ApiClient)
      ensures Valid() && this.client == client
    {
      this.client := client;
      dvManager := new VolumeManager(client, DataVolume);
      pvcManager := new VolumeManager(client, PVC);
    }

    predicate Valid() {
      && dvManager.client == client && dvManager.kind == DataVolume
      && pvcManager.client == client && pvcManager.kind == PVC
    }

    method Create(p: Pass, spec: TemplateSpec) returns (ok: bool)
      requires Valid()
      modifies client
      ensures (client.world, ok) == Passes.Create(p, KubevirtType, spec, old(client.world))
    {
      if KubevirtGate !in client.world.gates {
        return false;
      }
      TwoKinds(p, DataVolume, PVC, spec.volumes, client.world);
      var dvsForCreate := BuildVolumes(p.uid, p.key.namespace, DataVolume, spec);
      ok := dvManager.CreateMissing(p, dvsForCreate);
      if !ok {
        return false;
      }
      var pvcsForCreate := BuildVolumes(p.uid, p.key.namespace, PVC, spec);
      ok := pvcManager.CreateMissing(p, pvcsForCreate);
      if !ok {
        return false;
      }
      var key := WorkloadKey(KubevirtType, p.key.namespace, p.uid);
      var found := client.GetChild(p.key, key);
      match found
      case Failed => return false;
      case Found(vmi) =>
        if PhaseReason(VMI, vmi.phase) != ReasonFailed {
          return true;
        }
        ok := client.DeleteChild(p, key);
      case NotFound =>
        if spec.vmi.Some? {
          var vmi := new VirtualMachineInstance(spec.vmi.value);
          vmi.MutateVolumes(p.uid, dvsForCreate, pvcsForCreate);
          ok := client.CreateChild(
            p, NewChild(key, Child(Some(p.uid), false, PhaseUnset, [], VmiPayload(vmi.Spec()))));
        }
    }

    method Delete(p: Pass) returns (ok: bool)
      requires Valid()
      modifies client
      ensures (client.world, ok) == Passes.Delete(p, KubevirtType, old(client.world))
    {
      if KubevirtGate !in client.world.gates {
        return false;
      }
      ok := DeleteNamed(client, p, WorkloadKey(KubevirtType, p.key.namespace, p.uid));
      TwoKinds(p, DataVolume, PVC, [], client.world);
      if !ok {
        return false;
      }
      ok := dvManager.DeleteOwned(p);
      if !ok {
        return false;
      }
      ok := pvcManager.DeleteOwned(p);
    }

    method Status(p: Pass) returns (r: Option<Passes.Report>)
      modifies client
      ensures (client.world, r) == Passes.GetStatus(p, KubevirtType, old(client.world))
    {
      if KubevirtGate !in client.world.gates {
        return None;
      }
      var found := client.GetChild(p.key, WorkloadKey(KubevirtType, p.key.namespace, p.uid));
      if found.Failed? {
        return None;
      }
      var status, reason, message := False, ReasonPending, "";
      if found.Found? {
        reason := PhaseReason(VMI, found.value.phase);
        if reason == ReasonReady {
          status := True;
        } else if reason == ReasonFailed {
          message := CollectMessages(found.value.messages);
        }
      }
      return Some(Passes.Report(status, reason, message));
    }
  }

  class DVPSandboxer {
    const client: ApiClient
    const vdManager: VolumeManager

    constructor (client: ApiClient)
      ensures Valid() && this.client == client
    {
      this.client := client;
      vdManager := new VolumeManager(client, VirtualDisk);
    }

    predicate Valid() {
      vdManager.client == client && vdManager.kind == VirtualDisk
    }

    method Create(p: Pass, spec: TemplateSpec) returns (ok: bool)
      requires Valid()
      modifies client
      ensures (client.world, ok) == Passes.Create(p, DVPType, spec, old(client.world))
    {
      if DVPGate !in client.world.gates {
        return false;
      }
      OneKind(p, VirtualDisk, spec.volumes, client.world);
      var vdsForCreate := BuildVolumes(p.uid, p.key.namespace, VirtualDisk, spec);
      ok := vdManager.CreateMissing(p, vdsForCreate);
      if !ok {
        return false;
      }
      var key := WorkloadKey(DVPType, p.key.namespace, p.uid);
      var found := client.GetChild(p.key, key);
      match found
      case Failed => return false;
      case Found(vm) =>
        if PhaseReason(VM, vm.phase) != ReasonFailed {
          return true;
        }
        ok := client.DeleteChild(p, key);
      case NotFound =>
        if spec.vm.Some? {
          var vm := new VirtualMachine(spec.vm.value);
          vm.MutateVolumes(p.uid, vdsForCreate);
          ok := client.CreateChild(
            p, NewChild(key, Child(Some(p.uid), false, PhaseUnset, [], VmPayload(vm.Spec()))));
        }
    }

    method Delete(p: Pass) returns (ok: bool)
      requires Valid()
      modifies client
      ensures (client.world, ok) == Passes.Delete(p, DVPType, old(client.world))
    {
      if DVPGate !in client.world.gates {
        return false;
      }
      ok := DeleteNamed(client, p, WorkloadKey(DVPType, p.key.namespace, p.uid));
      OneKind(p, VirtualDisk, [], client.world);
      if ok {
        ok := vdManager.DeleteOwned(p);
      }
    }

    method Status(p: Pass) returns (r: Option<Passes.Report>)
      modifies client
      ensures (client.world, r) == Passes.GetStatus(p, DVPType, old(client.world))
    {
      if DVPGate !in client.world.gates {
        return None;
      }
      var found := client.GetChild(p.key, WorkloadKey(DVPType, p.key.namespace, p.uid));
      if found.Failed? {
        return None;
      }
      var status, reason, message := False, ReasonPending, "";
      if found.Found? {
        reason := PhaseReason(VM, found.value.phase);
        if reason == ReasonReady {
          status := True;
        } else if reason == ReasonFailed {
          message := CollectMessages(found.value.messages);
        }
      }
      return Some(Passes.Report(status, reason, message));
    }
  }
}
