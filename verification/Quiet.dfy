/** Convergence: what passes achieve when nobody interferes, no call fails and deletions are immediate. */
module Quiet {
  import opened Types
  import opened Names
  import opened Volumes
  import opened Backends
  import opened Cluster
  import opened Passes
  import opened PassSafety

  /** Nothing is left in the script, and List returns everything it should. */
  ghost predicate QuietWorld(w: World) {
    w.script == [] && forall keys :: Enumerates(w.order(keys), keys)
  }

  /** `w` with another store, reached through whatever events `w'` recorded. */
  function Moved(w: World, s: Store, w': World): World {
    w.(store := s, trace := w'.trace)
  }

  type Children = map<ChildKey, Child>

  // ---------------------------------------------------------------- volumes

  function AddMissing(wanted: seq<NewChild>, children: Children): Children {
    if wanted == [] then children
    else AddMissing(wanted[1..],
                    if wanted[0].key in children then children else children[wanted[0].key := wanted[0].child])
  }

  lemma {:induction false} AddMissingIs(wanted: seq<NewChild>, children: Children)
    ensures var after := AddMissing(wanted, children);
      && (forall ck :: ck in children ==> ck in after && after[ck] == children[ck])
      && (forall i :: 0 <= i < |wanted| ==> wanted[i].key in after)
      && (forall ck :: ck in after && ck !in children ==>
            exists i :: 0 <= i < |wanted| && wanted[i].key == ck && after[ck] == wanted[i].child)
      && ((forall i :: 0 <= i < |wanted| ==> wanted[i].key in children) ==> after == children)
  {
    if wanted != [] {
      var next := if wanted[0].key in children then children else children[wanted[0].key := wanted[0].child];
      AddMissingIs(wanted[1..], next);
      assert wanted == [wanted[0]] + wanted[1..];
      forall ck | ck in AddMissing(wanted, children) && ck !in children
        ensures exists i :: 0 <= i < |wanted| && wanted[i].key == ck
                            && AddMissing(wanted, children)[ck] == wanted[i].child
      {
        if ck in next {
          assert ck == wanted[0].key;
        } else {
          var i :| 0 <= i < |wanted[1..]| && wanted[1..][i].key == ck
                   && AddMissing(wanted, children)[ck] == wanted[1..][i].child;
          assert wanted[i + 1] == wanted[1..][i];
        }
      }
      if forall i :: 0 <= i < |wanted| ==> wanted[i].key in children {
        assert forall i :: 0 <= i < |wanted[1..]| ==> wanted[1..][i] == wanted[i + 1];
      }
    }
  }

  lemma {:induction false} CreateMissingQuiet(p: Pass, existing: set<ChildKey>, wanted: seq<NewChild>, w: World)
    requires w.script == [] && DistinctKeys(wanted)
    requires forall i :: 0 <= i < |wanted| ==> (wanted[i].key in existing <==> wanted[i].key in w.store.children)
    ensures var (w', ok) := CreateMissing(p, existing, wanted, w);
      && ok && w' == Moved(w, w.store.(children := AddMissing(wanted, w.store.children)), w')
      && ((forall i :: 0 <= i < |wanted| ==> wanted[i].key in w.store.children) ==> w' == w)
    decreases |wanted|
  {
    if wanted != [] {
      assert forall i :: 0 <= i < |wanted[1..]| ==> wanted[1..][i] == wanted[i + 1];
      assert DistinctKeys(wanted[1..]);
      if wanted[0].key in existing {
        CreateMissingQuiet(p, existing, wanted[1..], w);
      } else {
        var w1 := CreateChild(p, wanted[0], w).0;
        CreateMissingQuiet(p, existing, wanted[1..], w1);
      }
    }
  }

  /** Nobody else holds a name that this Sandbox's volumes need. */
  predicate Unsquatted(u: Uid, wanted: seq<NewChild>, children: Children) {
    forall i :: 0 <= i < |wanted| && wanted[i].key in children ==> children[wanted[i].key].owner == Some(u)
  }

  lemma CreateVolumesQuiet(p: Pass, kind: Kind, volumes: seq<Volume>, w: World)
    requires QuietWorld(w) && IsVolume(kind) && DistinctNames(volumes)
    requires Unsquatted(p.uid, MakeVolumes(p.uid, p.key.namespace, kind, volumes), w.store.children)
    ensures var wanted := MakeVolumes(p.uid, p.key.namespace, kind, volumes);
      var (w', ok) := CreateVolumes(p, kind, wanted, w);
      && ok && w' == Moved(w, w.store.(children := AddMissing(wanted, w.store.children)), w')
      && ((forall i :: 0 <= i < |wanted| ==> wanted[i].key in w.store.children) ==> w' == w)
  {
    var wanted := MakeVolumes(p.uid, p.key.namespace, kind, volumes);
    var (w1, keys) := ListOwned(p, kind, w);
    ListOwnedIs(p, kind, w);
    MadeDistinct(p.uid, p.key.namespace, kind, volumes);
    MadeFrom(p.uid, p.key.namespace, kind, volumes);
    forall i | 0 <= i < |wanted|
      ensures wanted[i].key in KeySet(keys.value) <==> wanted[i].key in w.store.children
    {
      assert wanted[i].key in KeySet(keys.value) <==> wanted[i].key in keys.value;
      assert wanted[i] == MakeVolumes(p.uid, p.key.namespace, kind, volumes)[i];
    }
    CreateMissingQuiet(p, KeySet(keys.value), wanted, w);
  }

  function AddKinds(p: Pass, kinds: seq<Kind>, volumes: seq<Volume>, children: Children): Children {
    if kinds == [] then children
    else AddKinds(p, kinds[1..], volumes,
                  AddMissing(MakeVolumes(p.uid, p.key.namespace, kinds[0], volumes), children))
  }

  /** The names of this Sandbox's volumes of these kinds are free or its own. */
  ghost predicate AllUnsquatted(p: Pass, kinds: seq<Kind>, volumes: seq<Volume>, children: Children) {
    forall i :: 0 <= i < |kinds| ==>
      Unsquatted(p.uid, MakeVolumes(p.uid, p.key.namespace, kinds[i], volumes), children)
  }

  ghost predicate AllPresent(p: Pass, kinds: seq<Kind>, volumes: seq<Volume>, children: Children) {
    forall i, j :: 0 <= i < |kinds| && 0 <= j < |MakeVolumes(p.uid, p.key.namespace, kinds[i], volumes)| ==>
      MakeVolumes(p.uid, p.key.namespace, kinds[i], volumes)[j].key in children
  }

  lemma AddMissingUnsquatted(p: Pass, kind: Kind, kinds: seq<Kind>, volumes: seq<Volume>, children: Children)
    requires IsVolume(kind) && AllUnsquatted(p, kinds, volumes, children)
    ensures AllUnsquatted(p, kinds, volumes,
                          AddMissing(MakeVolumes(p.uid, p.key.namespace, kind, volumes), children))
  {
    MadeFrom(p.uid, p.key.namespace, kind, volumes);
    AddMissingIs(MakeVolumes(p.uid, p.key.namespace, kind, volumes), children);
  }

  lemma {:induction false} AddKindsFrame(p: Pass, kinds: seq<Kind>, volumes: seq<Volume>, children: Children)
    requires forall i :: 0 <= i < |kinds| ==> IsVolume(kinds[i])
    ensures var after := AddKinds(p, kinds, volumes, children);
      && (forall ck :: ck in children ==> ck in after && after[ck] == children[ck])
      && (forall ck :: ck in after && ck !in children ==> IsVolume(ck.kind) && after[ck].owner == Some(p.uid))
    decreases |kinds|
  {
    if kinds != [] {
      var wanted := MakeVolumes(p.uid, p.key.namespace, kinds[0], volumes);
      AddMissingIs(wanted, children);
      MadeFrom(p.uid, p.key.namespace, kinds[0], volumes);
      AddKindsFrame(p, kinds[1..], volumes, AddMissing(wanted, children));
    }
  }

  lemma {:induction false} AddKindsPresent(p: Pass, kinds: seq<Kind>, volumes: seq<Volume>, children: Children)
    requires forall i :: 0 <= i < |kinds| ==> IsVolume(kinds[i])
    ensures AllPresent(p, kinds, volumes, AddKinds(p, kinds, volumes, children))
    decreases |kinds|
  {
    if kinds != [] {
      var wanted := MakeVolumes(p.uid, p.key.namespace, kinds[0], volumes);
      var next := AddMissing(wanted, children);
      AddMissingIs(wanted, children);
      AddKindsPresent(p, kinds[1..], volumes, next);
      AddKindsFrame(p, kinds[1..], volumes, next);
      forall i, j | 0 <= i < |kinds| && 0 <= j < |MakeVolumes(p.uid, p.key.namespace, kinds[i], volumes)|
        ensures MakeVolumes(p.uid, p.key.namespace, kinds[i], volumes)[j].key in AddKinds(p, kinds, volumes, children)
      {
        assert i > 0 ==> kinds[i] == kinds[1..][i - 1];
      }
    }
  }

  lemma {:induction false} AddKindsIdle(p: Pass, kinds: seq<Kind>, volumes: seq<Volume>, children: Children)
    requires AllPresent(p, kinds, volumes, children)
    ensures AddKinds(p, kinds, volumes, children) == children
    decreases |kinds|
  {
    if kinds != [] {
      AddMissingIs(MakeVolumes(p.uid, p.key.namespace, kinds[0], volumes), children);
      assert forall i :: 0 <= i < |kinds[1..]| ==> kinds[1..][i] == kinds[i + 1];
      AddKindsIdle(p, kinds[1..], volumes, children);
    }
  }

  /** Every wanted volume is there; nothing else appeared and nothing changed. */
  lemma AddKindsIs(p: Pass, kinds: seq<Kind>, volumes: seq<Volume>, children: Children)
    requires forall i :: 0 <= i < |kinds| ==> IsVolume(kinds[i])
    ensures var after := AddKinds(p, kinds, volumes, children);
      && AllPresent(p, kinds, volumes, after)
      && (forall ck :: ck in children ==> ck in after && after[ck] == children[ck])
      && (forall ck :: ck in after && ck !in children ==> IsVolume(ck.kind) && after[ck].owner == Some(p.uid))
      && (AllPresent(p, kinds, volumes, children) ==> after == children)
  {
    AddKindsFrame(p, kinds, volumes, children);
    AddKindsPresent(p, kinds, volumes, children);
    if AllPresent(p, kinds, volumes, children) {
      AddKindsIdle(p, kinds, volumes, children);
    }
  }

  lemma {:induction false} CreateKindsQuiet(p: Pass, kinds: seq<Kind>, volumes: seq<Volume>, w: World)
    requires QuietWorld(w) && DistinctNames(volumes) && AllUnsquatted(p, kinds, volumes, w.store.children)
    requires forall i :: 0 <= i < |kinds| ==> IsVolume(kinds[i])
    ensures var (w', ok) := CreateKinds(p, kinds, volumes, w);
      && ok && w' == Moved(w, w.store.(children := AddKinds(p, kinds, volumes, w.store.children)), w')
      && (AllPresent(p, kinds, volumes, w.store.children) ==> w' == w)
    decreases |kinds|
  {
    if kinds != [] {
      CreateVolumesQuiet(p, kinds[0], volumes, w);
      var w1 := CreateVolumes(p, kinds[0], MakeVolumes(p.uid, p.key.namespace, kinds[0], volumes), w).0;
      AddMissingUnsquatted(p, kinds[0], kinds, volumes, w.store.children);
      assert forall i :: 0 <= i < |kinds[1..]| ==> kinds[1..][i] == kinds[i + 1];
      CreateKindsQuiet(p, kinds[1..], volumes, w1);
    }
  }

  // ---------------------------------------------------------------- the workload, and all children together

  /** Failed: 2, missing: 1, otherwise 0. */
  function WorkloadRank(key: ChildKey, children: Children): nat {
    if key !in children then 1
    else if PhaseReason(key.kind, children[key].phase) == ReasonFailed then 2
    else 0
  }

  function NextWorkload(p: Pass, t: SandboxType, spec: TemplateSpec, children: Children): Children
    requires HasWorkload(t, spec)
  {
    var key := WorkloadKey(t, p.key.namespace, p.uid);
    match WorkloadRank(key, children)
    case 0 => children
    case 1 => children[key := NewWorkload(t, p.key.namespace, p.uid, spec).child]
    case _ => children - {key}
  }

  /** The children after one quiet Create: missing volumes appear; a failed workload goes, a missing one appears. */
  function NextChildren(p: Pass, t: SandboxType, spec: TemplateSpec, children: Children): Children
    requires HasWorkload(t, spec)
  {
    NextWorkload(p, t, spec, AddKinds(p, VolumeKinds(t), spec.volumes, children))
  }

  ghost predicate CreateReady(p: Pass, t: SandboxType, spec: TemplateSpec, gates: set<Gate>, children: Children) {
    && HasWorkload(t, spec) && GateOpen(gates, t) && DistinctNames(spec.volumes)
    && AllUnsquatted(p, VolumeKinds(t), spec.volumes, children)
  }

  /** Every volume exists and the workload exists and has not failed. */
  ghost predicate Complete(p: Pass, t: SandboxType, spec: TemplateSpec, children: Children)
    requires t != NoType
  {
    && AllPresent(p, VolumeKinds(t), spec.volumes, children)
    && WorkloadRank(WorkloadKey(t, p.key.namespace, p.uid), children) == 0
  }

  lemma EnsureWorkloadQuiet(p: Pass, t: SandboxType, spec: TemplateSpec, w: World)
    requires QuietWorld(w) && HasWorkload(t, spec)
    ensures var (w', ok) := EnsureWorkload(p, t, spec, w);
      && ok && w' == Moved(w, w.store.(children := NextWorkload(p, t, spec, w.store.children)), w')
      && (WorkloadRank(WorkloadKey(t, p.key.namespace, p.uid), w.store.children) == 0 ==> w' == w)
  {
  }

  lemma CreateQuiet(p: Pass, t: SandboxType, spec: TemplateSpec, w: World)
    requires QuietWorld(w) && CreateReady(p, t, spec, w.gates, w.store.children)
    ensures var (w', ok) := Create(p, t, spec, w);
      && ok && w' == Moved(w, w.store.(children := NextChildren(p, t, spec, w.store.children)), w')
      && (Complete(p, t, spec, w.store.children) ==> w' == w)
  {
    CreateKindsQuiet(p, VolumeKinds(t), spec.volumes, w);
    var w1 := CreateKinds(p, VolumeKinds(t), spec.volumes, w).0;
    EnsureWorkloadQuiet(p, t, spec, w1);
  }

  /** Volumes do not depend on what happens to another key. */
  lemma OffVolumes(p: Pass, kinds: seq<Kind>, volumes: seq<Volume>, key: ChildKey, c: Children, c': Children)
    requires forall i :: 0 <= i < |kinds| ==> IsVolume(kinds[i])
    requires !IsVolume(key.kind) && forall ck :: ck != key ==> (ck in c <==> ck in c') && (ck in c ==> c[ck] == c'[ck])
    ensures AllPresent(p, kinds, volumes, c) ==> AllPresent(p, kinds, volumes, c')
    ensures AllUnsquatted(p, kinds, volumes, c) ==> AllUnsquatted(p, kinds, volumes, c')
  {
    forall i, j | 0 <= i < |kinds| && 0 <= j < |MakeVolumes(p.uid, p.key.namespace, kinds[i], volumes)|
      ensures MakeVolumes(p.uid, p.key.namespace, kinds[i], volumes)[j].key != key
    {
      MadeFrom(p.uid, p.key.namespace, kinds[i], volumes);
    }
  }

  lemma AddKindsUnsquatted(p: Pass, kinds: seq<Kind>, volumes: seq<Volume>, children: Children)
    requires (forall i :: 0 <= i < |kinds| ==> IsVolume(kinds[i])) && AllUnsquatted(p, kinds, volumes, children)
    ensures AllUnsquatted(p, kinds, volumes, AddKinds(p, kinds, volumes, children))
  {
    AddKindsIs(p, kinds, volumes, children);
    var after := AddKinds(p, kinds, volumes, children);
    forall i | 0 <= i < |kinds|
      ensures Unsquatted(p.uid, MakeVolumes(p.uid, p.key.namespace, kinds[i], volumes), after)
    {
      assert Unsquatted(p.uid, MakeVolumes(p.uid, p.key.namespace, kinds[i], volumes), children);
    }
  }

  /** One quiet Create leaves no volume missing and brings the workload one step closer. */
  lemma NextChildrenIs(p: Pass, t: SandboxType, spec: TemplateSpec, gates: set<Gate>, children: Children)
    requires CreateReady(p, t, spec, gates, children)
    ensures var after := NextChildren(p, t, spec, children);
      var key := WorkloadKey(t, p.key.namespace, p.uid);
      && CreateReady(p, t, spec, gates, after)
      && AllPresent(p, VolumeKinds(t), spec.volumes, after)
      && WorkloadRank(key, after) == (if WorkloadRank(key, children) == 0 then 0 else WorkloadRank(key, children) - 1)
      && (WorkloadRank(key, children) == 0 ==> after[key] == children[key])
      && (WorkloadRank(key, children) == 1 ==> after[key].phase == PhaseUnset)
  {
    AddKindsIs(p, VolumeKinds(t), spec.volumes, children);
    AddKindsUnsquatted(p, VolumeKinds(t), spec.volumes, children);
    var key := WorkloadKey(t, p.key.namespace, p.uid);
    var c := AddKinds(p, VolumeKinds(t), spec.volumes, children);
    assert WorkloadRank(key, c) == WorkloadRank(key, children);
    OffVolumes(p, VolumeKinds(t), spec.volumes, key, c, NextWorkload(p, t, spec, c));
  }
}
