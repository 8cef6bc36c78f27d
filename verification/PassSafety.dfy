/** Every pass, under every script, keeps the invariant at each of its writes. */
module PassSafety {
  import opened Types
  import opened Names
  import opened Volumes
  import opened Backends
  import opened Cluster
  import opened Passes
  import opened Safety

  // ---------------------------------------------------------------- creating

  lemma {:induction false} CreateMissingRunning(
    p: Pass, obj: Sandbox, fs: set<Fact>, existing: set<ChildKey>, wanted: seq<NewChild>, w: World)
    requires Running(p, obj, fs, w) && MayCreate(obj, fs)
    requires forall i :: 0 <= i < |wanted| ==> Proper(w.rules, p, obj, wanted[i])
    ensures var w' := CreateMissing(p, existing, wanted, w).0;
      Running(p, obj, fs, w') && Continues(w, w')
    decreases |wanted|
  {
    if wanted != [] {
      if wanted[0].key in existing {
        CreateMissingRunning(p, obj, fs, existing, wanted[1..], w);
      } else {
        CreateChildRunning(p, obj, fs, wanted[0], w);
        var (w1, ok) := CreateChild(p, wanted[0], w);
        if ok {
          CreateMissingRunning(p, obj, fs, existing, wanted[1..], w1);
        }
      }
    }
  }

  /** A backend that a pass may work with: the stored one, and the expected one where the type can be told. */
  predicate RightType(rules: Rules, obj: Sandbox, t: SandboxType) {
    (Covered(rules, obj) ==> t == ExpectedType(rules, obj)) && (obj.status.kind != NoType ==> t == obj.status.kind)
  }

  predicate Fitting(rules: Rules, obj: Sandbox, kind: Kind) {
    && (Covered(rules, obj) ==> Handles(ExpectedType(rules, obj), kind))
    && (obj.status.kind != NoType ==> Handles(obj.status.kind, kind))
  }

  lemma MadeProper(rules: Rules, p: Pass, obj: Sandbox, kind: Kind, volumes: seq<Volume>, made: seq<NewChild>)
    requires IsVolume(kind) && Fitting(rules, obj, kind)
    requires made == MakeVolumes(p.uid, p.key.namespace, kind, volumes)
    ensures forall i :: 0 <= i < |made| ==> Proper(rules, p, obj, made[i])
  {
    MadeFrom(p.uid, p.key.namespace, kind, volumes);
    forall i | 0 <= i < |made|
      ensures Proper(rules, p, obj, made[i])
    {
      assert made[i] == MakeVolumes(p.uid, p.key.namespace, kind, volumes)[i];
    }
  }

  lemma CreateVolumesRunning(p: Pass, obj: Sandbox, fs: set<Fact>, kind: Kind, wanted: seq<NewChild>, w: World)
    requires Running(p, obj, fs, w) && MayCreate(obj, fs)
    requires forall i :: 0 <= i < |wanted| ==> Proper(w.rules, p, obj, wanted[i])
    ensures var w' := CreateVolumes(p, kind, wanted, w).0;
      Running(p, obj, fs, w') && Continues(w, w')
  {
    TurnRunning(p, obj, fs, w);
    var (w1, existing) := ListOwned(p, kind, w);
    if existing.Some? {
      CreateMissingRunning(p, obj, fs, KeySet(existing.value), wanted, w1);
    }
  }

  lemma {:induction false} CreateKindsRunning(
    p: Pass, obj: Sandbox, fs: set<Fact>, kinds: seq<Kind>, volumes: seq<Volume>, w: World)
    requires Running(p, obj, fs, w) && MayCreate(obj, fs)
    requires forall i :: 0 <= i < |kinds| ==>
      IsVolume(kinds[i]) && Fitting(w.rules, obj, kinds[i])
    ensures var w' := CreateKinds(p, kinds, volumes, w).0;
      Running(p, obj, fs, w') && Continues(w, w')
    decreases |kinds|
  {
    if kinds != [] {
      var wanted := MakeVolumes(p.uid, p.key.namespace, kinds[0], volumes);
      MadeProper(w.rules, p, obj, kinds[0], volumes, wanted);
      CreateVolumesRunning(p, obj, fs, kinds[0], wanted, w);
      var (w1, ok) := CreateVolumes(p, kinds[0], wanted, w);
      if ok {
        CreateKindsRunning(p, obj, fs, kinds[1..], volumes, w1);
      }
    }
  }

  lemma WorkloadProper(rules: Rules, p: Pass, obj: Sandbox, t: SandboxType, spec: TemplateSpec)
    requires HasWorkload(t, spec) && RightType(rules, obj, t)
    ensures Proper(rules, p, obj, NewWorkload(t, p.key.namespace, p.uid, spec))
  {
  }

  /** The pod, VMI or VM: at most one write after the lookup. */
  lemma EnsureWorkloadIs(p: Pass, t: SandboxType, spec: TemplateSpec, w: World)
    requires t != NoType
    ensures var key := WorkloadKey(t, p.key.namespace, p.uid);
      var w1, w' := Turn(p.key, w).0, EnsureWorkload(p, t, spec, w).0;
      || w' == w1 || w' == DeleteChild(p, key, w1).0
      || (HasWorkload(t, spec) && w' == CreateChild(p, NewWorkload(t, p.key.namespace, p.uid, spec), w1).0)
  {
  }

  lemma EnsureWorkloadRunning(p: Pass, obj: Sandbox, fs: set<Fact>, t: SandboxType, spec: TemplateSpec, w: World)
    requires Running(p, obj, fs, w) && MayCreate(obj, fs)
    requires t != NoType && RightType(w.rules, obj, t)
    ensures var w' := EnsureWorkload(p, t, spec, w).0;
      Running(p, obj, fs, w') && Continues(w, w')
  {
    EnsureWorkloadIs(p, t, spec, w);
    TurnRunning(p, obj, fs, w);
    var w1 := Turn(p.key, w).0;
    DeleteChildRunning(p, obj, fs, WorkloadKey(t, p.key.namespace, p.uid), w1);
    if HasWorkload(t, spec) {
      WorkloadProper(w1.rules, p, obj, t, spec);
      CreateChildRunning(p, obj, fs, NewWorkload(t, p.key.namespace, p.uid, spec), w1);
    }
  }

  lemma KindsFit(rules: Rules, obj: Sandbox, t: SandboxType)
    requires t != NoType && RightType(rules, obj, t)
    ensures forall i :: 0 <= i < |VolumeKinds(t)| ==>
      IsVolume(VolumeKinds(t)[i]) && Fitting(rules, obj, VolumeKinds(t)[i])
  {
  }

  lemma CreateRunning(p: Pass, obj: Sandbox, fs: set<Fact>, t: SandboxType, spec: TemplateSpec, w: World)
    requires Running(p, obj, fs, w) && MayCreate(obj, fs)
    requires t != NoType && RightType(w.rules, obj, t)
    ensures var w' := Create(p, t, spec, w).0;
      Running(p, obj, fs, w') && Continues(w, w')
  {
    if GateOpen(w.gates, t) {
      KindsFit(w.rules, obj, t);
      CreateKindsRunning(p, obj, fs, VolumeKinds(t), spec.volumes, w);
      var (w1, ok) := CreateKinds(p, VolumeKinds(t), spec.volumes, w);
      if ok {
        EnsureWorkloadRunning(p, obj, fs, t, spec, w1);
      }
    }
  }

  // ---------------------------------------------------------------- deleting

  lemma WorkloadGone(rules: Rules, p: Pass, t: SandboxType, s: Store)
    requires Safe(rules, p.key, s) && t != NoType
    requires var key := WorkloadKey(t, p.key.namespace, p.uid); key in s.children ==> s.children[key].deleting
    ensures Holds(Gone({WorkloadKind(t)}), rules, p, s)
  {
    if IsAt(p.key, p.uid, s) {
      forall ck | OwnedBy(s, ck, p.uid) && ck.kind == WorkloadKind(t)
        ensures s.children[ck].deleting
      {
        assert ck == WorkloadKey(t, p.key.namespace, p.uid);
      }
    }
  }

  lemma DeleteWorkloadRunning(p: Pass, obj: Sandbox, fs: set<Fact>, t: SandboxType, w: World)
    requires Running(p, obj, fs, w) && t != NoType
    ensures var (w', ok) := DeleteWorkload(p, t, w);
      && Running(p, obj, fs, w') && Continues(w, w')
      && (ok ==> Holds(Gone({WorkloadKind(t)}), w'.rules, p, w'.store))
  {
    var key := WorkloadKey(t, p.key.namespace, p.uid);
    TurnRunning(p, obj, fs, w);
    var (w1, found) := GetChild(p.key, key, w);
    if found.Found? {
      DeleteChildRunning(p, obj, fs, key, w1);
    }
    var (w', ok) := DeleteWorkload(p, t, w);
    if ok {
      GoodIsSafe(p.key, w');
      WorkloadGone(w'.rules, p, t, w'.store);
    }
  }

  lemma KeySetSplit(keys: seq<ChildKey>)
    requires keys != []
    ensures KeySet(keys) == {keys[0]} + KeySet(keys[1..])
  {
    assert forall i :: 0 < i < |keys| ==> keys[i] == keys[1..][i - 1];
    assert forall i :: 0 <= i < |keys[1..]| ==> keys[1..][i] == keys[i + 1];
  }

  lemma DeleteListedRunning(
    p: Pass, obj: Sandbox, fs: set<Fact>, kind: Kind, listed: set<ChildKey>, done: set<ChildKey>, ck: ChildKey,
    w: World)
    requires Running(p, obj, fs, w) && OnlyListed(kind, listed, done) in fs && OwnName(p.uid, ck)
    ensures var (w', ok) := DeleteChild(p, ck, w);
      && Running(p, obj, fs, w') && Continues(w, w')
      && (ok ==> Holds(OnlyListed(kind, listed, done + {ck}), w'.rules, p, w'.store))
  {
    DeleteChildRunning(p, obj, fs, ck, w);
    var w' := DeleteChild(p, ck, w).0;
    assert Holds(OnlyListed(kind, listed, done), w'.rules, p, w'.store);
  }

  lemma {:induction false} DeleteAllRunning(
    p: Pass, obj: Sandbox, fs: set<Fact>, kind: Kind, listed: set<ChildKey>, done: set<ChildKey>, keys: seq<ChildKey>,
    w: World)
    requires Running(p, obj, fs, w) && OnlyListed(kind, listed, done) in fs
    requires forall i :: 0 <= i < |keys| ==> OwnName(p.uid, keys[i])
    ensures var (w', ok) := DeleteAll(p, keys, w);
      && Running(p, obj, fs, w') && Continues(w, w')
      && (ok ==> Holds(OnlyListed(kind, listed, done + KeySet(keys)), w'.rules, p, w'.store))
    decreases |keys|
  {
    if keys == [] {
      assert done + KeySet(keys) == done;
      assert Holds(OnlyListed(kind, listed, done), w.rules, p, w.store);
    } else {
      DeleteListedRunning(p, obj, fs, kind, listed, done, keys[0], w);
      var (w1, ok) := DeleteChild(p, keys[0], w);
      if ok {
        var f := OnlyListed(kind, listed, done + {keys[0]});
        WithFact(p, obj, fs, f, w1);
        DeleteAllRunning(p, obj, fs + {f}, kind, listed, done + {keys[0]}, keys[1..], w1);
        KeySetSplit(keys);
        assert done + {keys[0]} + KeySet(keys[1..]) == done + KeySet(keys);
        Weaken(p, obj, fs + {f}, fs, DeleteAll(p, keys[1..], w1).0);
      }
    }
  }

  lemma {:induction false} ControlledIs(u: Uid, listed: seq<(ChildKey, Option<Uid>)>)
    ensures forall i :: 0 <= i < |listed| && listed[i].1 == Some(u) ==> listed[i].0 in Controlled(u, listed)
    ensures forall ck :: ck in Controlled(u, listed) ==> exists i :: 0 <= i < |listed| && listed[i] == (ck, Some(u))
  {
    if listed != [] {
      ControlledIs(u, listed[1..]);
      assert listed == [listed[0]] + listed[1..];
      forall ck | ck in Controlled(u, listed)
        ensures exists i :: 0 <= i < |listed| && listed[i] == (ck, Some(u))
      {
        if listed[0] == (ck, Some(u)) {
        } else {
          assert ck in Controlled(u, listed[1..]);
          var i :| 0 <= i < |listed[1..]| && listed[1..][i] == (ck, Some(u));
          assert listed[i + 1] == (ck, Some(u));
        }
      }
    }
  }

  /** A successful listing returns exactly the children of the kind that the Sandbox controls in its namespace. */
  lemma ListOwnedIs(p: Pass, kind: Kind, w: World)
    ensures var (w1, keys) := ListOwned(p, kind, w);
      && w1 == Turn(p.key, w).0
      && (keys.Some? ==> forall ck :: ck in keys.value <==>
            OwnedBy(w1.store, ck, p.uid) && ck.kind == kind && ck.namespace == p.key.namespace)
  {
    var (w1, listed) := ListChildren(p.key, kind, p.key.namespace, w);
    if listed.Some? {
      var found := InNamespace(w1.store, kind, p.key.namespace);
      ControlledIs(p.uid, listed.value);
      forall ck | OwnedBy(w1.store, ck, p.uid) && ck.kind == kind && ck.namespace == p.key.namespace
        ensures ck in Controlled(p.uid, listed.value)
      {
        assert ck in found && ck in w.order(found);
        var i :| 0 <= i < |w.order(found)| && w.order(found)[i] == ck;
        assert listed.value[i] == (ck, Some(p.uid));
      }
    }
  }

  lemma ListedFact(rules: Rules, p: Pass, kind: Kind, keys: seq<ChildKey>, s: Store)
    requires Safe(rules, p.key, s)
    requires forall ck :: ck in keys <==> OwnedBy(s, ck, p.uid) && ck.kind == kind && ck.namespace == p.key.namespace
    ensures Holds(OnlyListed(kind, KeySet(keys), {}), rules, p, s)
    ensures forall i :: 0 <= i < |keys| ==> OwnName(p.uid, keys[i])
  {
    if IsAt(p.key, p.uid, s) {
      forall ck | OwnedBy(s, ck, p.uid) && ck.kind == kind
        ensures ck in KeySet(keys)
      {
        assert ck in keys;
      }
    }
    forall i | 0 <= i < |keys|
      ensures OwnName(p.uid, keys[i])
    {
      assert keys[i] in keys;
    }
  }

  lemma GoneFact(rules: Rules, p: Pass, kind: Kind, gone: set<Kind>, listed: set<ChildKey>, s: Store)
    requires Holds(OnlyListed(kind, listed, listed), rules, p, s) && Holds(Gone(gone), rules, p, s)
    ensures Holds(Gone(gone + {kind}), rules, p, s)
  {
  }

  lemma DeleteVolumesRunning(p: Pass, obj: Sandbox, fs: set<Fact>, kind: Kind, gone: set<Kind>, w: World)
    requires Running(p, obj, fs, w) && Gone(gone) in fs
    ensures var (w', ok) := DeleteVolumes(p, kind, w);
      && Running(p, obj, fs, w') && Continues(w, w')
      && (ok ==> Holds(Gone(gone + {kind}), w'.rules, p, w'.store))
  {
    TurnRunning(p, obj, fs, w);
    ListOwnedIs(p, kind, w);
    var (w1, keys) := ListOwned(p, kind, w);
    if keys.Some? {
      GoodIsSafe(p.key, w1);
      ListedFact(w1.rules, p, kind, keys.value, w1.store);
      var listed := KeySet(keys.value);
      var f := OnlyListed(kind, listed, {});
      WithFact(p, obj, fs, f, w1);
      DeleteAllRunning(p, obj, fs + {f}, kind, listed, {}, keys.value, w1);
      var (w', ok) := DeleteVolumes(p, kind, w);
      Weaken(p, obj, fs + {f}, fs, w');
      if ok {
        assert {} + listed == listed;
        GoneFact(w'.rules, p, kind, gone, listed, w'.store);
      }
    }
  }

  function Kinds(kinds: seq<Kind>): set<Kind> {
    set i | 0 <= i < |kinds| :: kinds[i]
  }

  lemma KindsSplit(kinds: seq<Kind>)
    requires kinds != []
    ensures Kinds(kinds) == {kinds[0]} + Kinds(kinds[1..])
  {
    assert forall i :: 0 < i < |kinds| ==> kinds[i] == kinds[1..][i - 1];
    assert forall i :: 0 <= i < |kinds[1..]| ==> kinds[1..][i] == kinds[i + 1];
  }

  lemma {:induction false} DeleteKindsRunning(
    p: Pass, obj: Sandbox, fs: set<Fact>, kinds: seq<Kind>, gone: set<Kind>, w: World)
    requires Running(p, obj, fs, w) && Gone(gone) in fs
    ensures var (w', ok) := DeleteKinds(p, kinds, w);
      && Running(p, obj, fs, w') && Continues(w, w')
      && (ok ==> Holds(Gone(gone + Kinds(kinds)), w'.rules, p, w'.store))
    decreases |kinds|
  {
    if kinds == [] {
      assert gone + Kinds(kinds) == gone;
    } else {
      DeleteVolumesRunning(p, obj, fs, kinds[0], gone, w);
      var (w1, ok) := DeleteVolumes(p, kinds[0], w);
      if ok {
        var f := Gone(gone + {kinds[0]});
        WithFact(p, obj, fs, f, w1);
        DeleteKindsRunning(p, obj, fs + {f}, kinds[1..], gone + {kinds[0]}, w1);
        KindsSplit(kinds);
        assert gone + {kinds[0]} + Kinds(kinds[1..]) == gone + Kinds(kinds);
        Weaken(p, obj, fs + {f}, fs, DeleteKinds(p, kinds[1..], w1).0);
      }
    }
  }

  function HandledKinds(t: SandboxType): set<Kind>
    requires t != NoType
  {
    {WorkloadKind(t)} + Kinds(VolumeKinds(t))
  }

  /** After a successful Delete no child of a kind the backend handles is alive. */
  lemma DeleteRunning(p: Pass, obj: Sandbox, fs: set<Fact>, t: SandboxType, w: World)
    requires Running(p, obj, fs, w) && t != NoType
    ensures var (w', ok) := Delete(p, t, w);
      && Running(p, obj, fs, w') && Continues(w, w')
      && (ok ==> Holds(Gone(HandledKinds(t)), w'.rules, p, w'.store))
  {
    if GateOpen(w.gates, t) {
      DeleteWorkloadRunning(p, obj, fs, t, w);
      var (w1, ok) := DeleteWorkload(p, t, w);
      if ok {
        var f := Gone({WorkloadKind(t)});
        WithFact(p, obj, fs, f, w1);
        DeleteKindsRunning(p, obj, fs + {f}, VolumeKinds(t), {WorkloadKind(t)}, w1);
        Weaken(p, obj, fs + {f}, fs, DeleteKinds(p, VolumeKinds(t), w1).0);
      }
    }
  }
}
