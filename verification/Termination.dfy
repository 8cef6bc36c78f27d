/** Quiet passes for a Sandbox that is being deleted: two of them remove its children and let it go. */
module Termination {
  import opened Types
  import opened Conditions
  import opened Finalizers
  import opened Backends
  import opened Cluster
  import opened Passes
  import opened PassSafety
  import opened Quiet
  import opened Steps
  import MetaUpdater

  // ---------------------------------------------------------------- deleting children

  predicate Distinct(keys: seq<ChildKey>) {
    forall i, j :: 0 <= i < j < |keys| ==> keys[i] != keys[j]
  }

  lemma {:induction false} DeleteAllQuiet(p: Pass, keys: seq<ChildKey>, w: World)
    requires w.script == []
    requires forall i :: 0 <= i < |keys| ==> keys[i] in w.store.children
    requires Distinct(keys)
    ensures var (w', ok) := DeleteAll(p, keys, w);
      ok && w' == Moved(w, w.store.(children := w.store.children - KeySet(keys)), w')
    decreases |keys|
  {
    if keys == [] {
      assert KeySet(keys) == {};
      assert w.store.children - {} == w.store.children;
    } else {
      var w1 := DeleteChild(p, keys[0], w).0;
      assert forall i :: 0 <= i < |keys[1..]| ==> keys[1..][i] == keys[i + 1];
      assert Distinct(keys[1..]);
      DeleteAllQuiet(p, keys[1..], w1);
      KeySetSplit(keys);
      assert w.store.children - {keys[0]} - KeySet(keys[1..]) == w.store.children - KeySet(keys);
    }
  }

  lemma {:induction false} ControlledDistinct(u: Uid, listed: seq<(ChildKey, Option<Uid>)>)
    requires forall i, j :: 0 <= i < j < |listed| ==> listed[i].0 != listed[j].0
    ensures Distinct(Controlled(u, listed))
  {
    if listed != [] {
      assert forall i :: 0 <= i < |listed[1..]| ==> listed[1..][i] == listed[i + 1];
      ControlledDistinct(u, listed[1..]);
      ControlledIs(u, listed[1..]);
      var rest := Controlled(u, listed[1..]);
      forall j | 0 <= j < |rest|
        ensures rest[j] != listed[0].0
      {
        assert rest[j] in rest;
        var i :| 0 <= i < |listed[1..]| && listed[1..][i] == (rest[j], Some(u));
        assert listed[i + 1].0 == rest[j];
      }
      if listed[0].1 == Some(u) {
        assert Controlled(u, listed) == [listed[0].0] + rest;
        assert Distinct([listed[0].0] + rest);
      } else {
        assert Controlled(u, listed) == rest;
      }
    }
  }

  /** The volumes of a kind that the Sandbox controls. */
  function OwnVolumes(p: Pass, kind: Kind, children: Children): set<ChildKey> {
    set ck | ck in children && ck.kind == kind && ck.namespace == p.key.namespace && children[ck].owner == Some(p.uid)
  }

  lemma DeleteVolumesQuiet(p: Pass, kind: Kind, w: World)
    requires QuietWorld(w)
    ensures var (w', ok) := DeleteVolumes(p, kind, w);
      ok && w' == Moved(w, w.store.(children := w.store.children - OwnVolumes(p, kind, w.store.children)), w')
  {
    var (w1, listed) := ListChildren(p.key, kind, p.key.namespace, w);
    ListOwnedIs(p, kind, w);
    var keys := Controlled(p.uid, listed.value);
    assert ListOwned(p, kind, w).1 == Some(keys);
    var found := InNamespace(w.store, kind, p.key.namespace);
    assert forall i :: 0 <= i < |listed.value| ==> listed.value[i].0 == w.order(found)[i];
    ControlledDistinct(p.uid, listed.value);
    forall i | 0 <= i < |keys|
      ensures keys[i] in w.store.children
    {
      assert keys[i] in keys;
    }
    DeleteAllQuiet(p, keys, w);
    assert KeySet(keys) == OwnVolumes(p, kind, w.store.children) by {
      assert forall ck :: ck in KeySet(keys) <==> ck in keys;
    }
  }

  function DropKinds(p: Pass, kinds: seq<Kind>, children: Children): Children {
    if kinds == [] then children
    else DropKinds(p, kinds[1..], children - OwnVolumes(p, kinds[0], children))
  }

  lemma {:induction false} DeleteKindsQuiet(p: Pass, kinds: seq<Kind>, w: World)
    requires QuietWorld(w)
    ensures var (w', ok) := DeleteKinds(p, kinds, w);
      ok && w' == Moved(w, w.store.(children := DropKinds(p, kinds, w.store.children)), w')
    decreases |kinds|
  {
    if kinds != [] {
      DeleteVolumesQuiet(p, kinds[0], w);
      DeleteKindsQuiet(p, kinds[1..], DeleteVolumes(p, kinds[0], w).0);
    }
  }

  /** Exactly the Sandbox's volumes of these kinds are gone. */
  lemma {:induction false} DropKindsIs(p: Pass, kinds: seq<Kind>, children: Children)
    ensures var after := DropKinds(p, kinds, children);
      && (forall ck :: ck in after ==> ck in children && after[ck] == children[ck])
      && (forall ck :: ck in children ==>
            (ck !in after <==>
             ck.kind in kinds && ck.namespace == p.key.namespace && children[ck].owner == Some(p.uid)))
    decreases |kinds|
  {
    if kinds != [] {
      DropKindsIs(p, kinds[1..], children - OwnVolumes(p, kinds[0], children));
      assert kinds == [kinds[0]] + kinds[1..];
    }
  }

  /** The children after a quiet Delete. */
  function Remaining(p: Pass, t: SandboxType, children: Children): Children {
    if t == NoType then children
    else DropKinds(p, VolumeKinds(t), children - {WorkloadKey(t, p.key.namespace, p.uid)})
  }

  lemma DeleteQuiet(p: Pass, t: SandboxType, w: World)
    requires QuietWorld(w) && GateOpen(w.gates, t)
    ensures var (w', ok) := DeleteChildren(p, t, w);
      ok && w' == Moved(w, w.store.(children := Remaining(p, t, w.store.children)), w')
  {
    if t != NoType {
      var key := WorkloadKey(t, p.key.namespace, p.uid);
      var (w1, ok) := DeleteWorkload(p, t, w);
      assert key !in w.store.children ==> w.store.children - {key} == w.store.children;
      DeleteKindsQuiet(p, VolumeKinds(t), w1);
    }
  }

  /** Delete removes the workload's name and the Sandbox's own volumes of the handled kinds, and nothing else. */
  lemma RemainingIs(p: Pass, t: SandboxType, children: Children)
    ensures var after := Remaining(p, t, children);
      && (forall ck :: ck in after ==> ck in children && after[ck] == children[ck])
      && (forall ck :: ck in children ==>
            (ck !in after <==>
             && t != NoType
             && (|| ck == WorkloadKey(t, p.key.namespace, p.uid)
                 || (ck.kind in VolumeKinds(t) && ck.namespace == p.key.namespace
                     && children[ck].owner == Some(p.uid)))))
  {
    if t != NoType {
      DropKindsIs(p, VolumeKinds(t), children - {WorkloadKey(t, p.key.namespace, p.uid)});
    }
  }

  // ---------------------------------------------------------------- the pass

  /** A Sandbox marked for deletion whose backend, if it has one, may run. */
  ghost predicate Ending(k: Key, w: World) {
    && QuietWorld(w) && k in w.store.sandboxes && w.store.sandboxes[k].deleting
    && GateOpen(w.gates, ChosenType(w.store, w.store.sandboxes[k]))
  }

  const TERMINATING := Report(False, ReasonTerminating, "")

  lemma {:induction false} SetOverrides(c: Condition, d: Condition, conditions: seq<Condition>)
    requires c.kind == d.kind
    ensures SetCondition(d, SetCondition(c, conditions)) == SetCondition(d, conditions)
  {
    if conditions != [] {
      if conditions[0].kind == c.kind {
        assert ([c] + conditions[1..])[1..] == conditions[1..];
      } else {
        SetOverrides(c, d, conditions[1..]);
        assert ([conditions[0]] + SetCondition(c, conditions[1..]))[1..] == SetCondition(c, conditions[1..]);
      }
    }
  }

  /** The copy a successful terminating pass leaves. */
  function EndCopy(s: Store, sb: Sandbox): Sandbox {
    RemoveFinalizer(WithReady(sb.(status := sb.status.(kind := ChosenType(s, sb))), TERMINATING))
  }

  /** The terminating condition overrides whatever the lookup put there. */
  lemma EndCopyAfter(s: Store, sb: Sandbox, report: Report)
    ensures RemoveFinalizer(WithReady(WithType(WithReady(sb, report), VisibleSpec(s, sb)), TERMINATING))
            == EndCopy(s, sb)
    ensures RemoveFinalizer(WithReady(WithType(sb, VisibleSpec(s, sb)), TERMINATING)) == EndCopy(s, sb)
    ensures WithType(WithReady(sb, report), VisibleSpec(s, sb)).status.kind == ChosenType(s, sb)
  {
    SetOverrides(ReadyCondition(sb, report), ReadyCondition(sb, TERMINATING), sb.status.conditions);
  }

  lemma LookupQuiet(p: Pass, sb: Sandbox, w: World)
    requires w.script == []
    ensures var (w', resolved, r) := HandleTemplateSpec(p, sb, w);
      && w' == w && r.Resolution? && r.spec == VisibleSpec(w.store, sb)
      && (r.template.Some? <==>
            sb.spec.templateSpec.None? && sb.spec.template != "" && sb.spec.template in w.store.templates)
      && (r.template.Some? ==> r.template.value == w.store.templates[sb.spec.template])
      && RemoveFinalizer(WithReady(WithType(resolved, r.spec), TERMINATING)) == EndCopy(w.store, sb)
      && WithType(resolved, r.spec).status.kind == ChosenType(w.store, sb)
  {
    EndCopyAfter(w.store, sb, Report(False, ReasonPending, NOT_FOUND_MESSAGE));
    EndCopyAfter(w.store, sb, Report(False, ReasonTerminating, TerminatingMessage(sb.spec.template)));
  }

  /** Templates may have gone, but none has appeared or got another spec. */
  ghost predicate SpecsKept(s: Store, s': Store) {
    forall n :: n in s'.templates ==> n in s.templates && s'.templates[n].spec == s.templates[n].spec
  }

  lemma UnprotectQuiet(p: Pass, template: Option<Template>, w: World)
    requires w.script == []
    requires template.Some? ==> p.template in w.store.templates && template.value == w.store.templates[p.template]
    ensures var (w', ok) := Unprotect(p, template, w);
      && ok && w' == Moved(w, w.store.(templates := w'.store.templates), w')
      && SpecsKept(w.store, w'.store)
      && (template.Some? && p.template in w'.store.templates ==>
            !Carries(w'.store.templates[p.template].meta.finalizers))
  {
    if template.Some? && template.value.meta.finalizers != [] {
      var fs := template.value.meta.finalizers;
      ForeignShape(fs);
      ApplyFinalizerPatch(fs, Foreign(fs), template.value.meta);
    }
  }

  /** The template that the Sandbox names does not carry the finalizer, or is gone. */
  predicate Released(s: Store, sb: Sandbox) {
    sb.spec.templateSpec.None? && sb.spec.template in s.templates && sb.spec.template != "" ==>
      !Carries(s.templates[sb.spec.template].meta.finalizers)
  }

  lemma ReconcileEnds(k: Key, w: World)
    requires Ending(k, w)
    ensures var sb := w.store.sandboxes[k];
      var p := PassFor(k, sb);
      var (w', copy, outcome) := Reconcile(p, sb, w);
      && outcome == Requeue(0) && copy == EndCopy(w.store, sb)
      && w' == Moved(w, w.store.(children := Remaining(p, ChosenType(w.store, sb), w.store.children),
                                 templates := w'.store.templates), w')
      && Released(w'.store, sb) && SpecsKept(w.store, w'.store)
  {
    var sb := w.store.sandboxes[k];
    var p := PassFor(k, sb);
    var t := ChosenType(w.store, sb);
    LookupQuiet(p, sb, w);
    var (w1, resolved, r) := HandleTemplateSpec(p, sb, w);
    var marked := WithReady(WithType(resolved, r.spec), TERMINATING);
    DeleteQuiet(p, t, w);
    UnprotectQuiet(p, r.template, DeleteChildren(p, t, w).0);
    assert HandleTerminating(p, marked, r.template, w).1 == RemoveFinalizer(marked);
  }

  ghost predicate OthersKept(k: Key, s: Store, s': Store) {
    forall k' :: k' != k ==>
      (k' in s'.sandboxes <==> k' in s.sandboxes) && (k' in s.sandboxes ==> s'.sandboxes[k'] == s.sandboxes[k'])
  }

  lemma WriteStatusQuiet(p: Pass, obj: Sandbox, copy: Sandbox, w: World)
    requires w.script == [] && p.key in w.store.sandboxes && w.store.sandboxes[p.key] == obj
    requires copy.version == obj.version
    ensures var (w', written, ok) := StatusUpdate(p, obj, copy, w);
      && ok && w' == Moved(w, w.store.(sandboxes := w'.store.sandboxes, revision := w'.store.revision), w')
      && OthersKept(p.key, w.store, w'.store) && p.key in w'.store.sandboxes
      && w'.store.sandboxes[p.key] == obj.(status := copy.status, version := w'.store.sandboxes[p.key].version,
                                           past := w'.store.sandboxes[p.key].past)
      && (written == copy || (written == copy.(meta := obj.meta) && obj.status != copy.status))
  {
  }

  lemma ReleaseQuiet(p: Pass, obj: Sandbox, copy: Sandbox, w: World)
    requires w.script == [] && p.key in w.store.sandboxes && w.store.sandboxes[p.key].meta == obj.meta
    requires copy.meta == RemoveFinalizer(obj).meta || copy.meta == obj.meta
    ensures var (w', ok) := MetaUpdate(p, obj, copy, w);
      && ok && w' == Moved(w, w.store.(sandboxes := w'.store.sandboxes, revision := w'.store.revision), w')
      && OthersKept(p.key, w.store, w'.store)
      && (p.key in w'.store.sandboxes ==>
            w'.store.sandboxes[p.key]
            == w.store.sandboxes[p.key].(meta := copy.meta, version := w'.store.sandboxes[p.key].version,
                                         past := w'.store.sandboxes[p.key].past))
      && (obj.meta != copy.meta && copy.meta.finalizers == [] && w.store.sandboxes[p.key].deleting ==>
            p.key !in w'.store.sandboxes)
      && (copy.meta.finalizers != [] ==> p.key in w'.store.sandboxes)
  {
    ForeignShape(obj.meta.finalizers);
    if obj.meta != copy.meta {
      PatchSandboxResult(p, obj.meta, copy.meta, w);
      MetaUpdater.MetaPatchCorrect(obj.meta, copy.meta, w.store.sandboxes[p.key].meta);
    }
  }

  /** Writing back the copy of a terminating pass: the finalizer goes, unless the status written first was copied
      back; in that case the status is right from then on. */
  lemma UpdateEnds(p: Pass, obj: Sandbox, copy: Sandbox, w: World)
    requires w.script == [] && p.key in w.store.sandboxes && w.store.sandboxes[p.key] == obj && obj.deleting
    requires copy == obj.(status := copy.status, meta := RemoveFinalizer(obj).meta)
    ensures var (w', ok) := Update(p, obj, copy, w);
      && ok && w' == Moved(w, w.store.(sandboxes := w'.store.sandboxes, revision := w'.store.revision), w')
      && OthersKept(p.key, w.store, w'.store)
      && (p.key in w'.store.sandboxes ==>
            var sb := w'.store.sandboxes[p.key];
            && sb == obj.(status := copy.status, meta := sb.meta, version := sb.version,
                          past := sb.past)
            && (|| (sb.meta == obj.meta && obj.status != copy.status)
                || (sb.meta == copy.meta && (obj.meta == copy.meta || copy.meta.finalizers != []))))
      && (Foreign(obj.meta.finalizers) != [] ==> p.key in w'.store.sandboxes)
  {
    WriteStatusQuiet(p, obj, copy, w);
    var (w1, written, ok1) := StatusUpdate(p, obj, copy, w);
    ForeignShape(obj.meta.finalizers);
    ReleaseQuiet(p, obj, written, w1);
  }

  /** One quiet terminating pass: what its backend handles is gone, and the finalizer too unless a status was
      written. */
  lemma PassEnds(k: Key, w: World)
    requires Ending(k, w)
    ensures var sb := w.store.sandboxes[k];
      var w' := RunPass(k, w).0;
      && w'.script == [] && w'.order == w.order && w'.gates == w.gates
      && w'.store.children == Remaining(PassFor(k, sb), ChosenType(w.store, sb), w.store.children)
      && Released(w'.store, sb) && SpecsKept(w.store, w'.store)
      && OthersKept(k, w.store, w'.store)
      && (k in w'.store.sandboxes ==>
            var sb' := w'.store.sandboxes[k];
            && sb' == sb.(status := EndCopy(w.store, sb).status, meta := sb'.meta, version := sb'.version,
                          past := sb'.past)
            && (|| (sb'.meta == sb.meta && sb.status != EndCopy(w.store, sb).status)
                || (!Protected(sb') && (!Protected(sb) || Foreign(sb.meta.finalizers) != []))))
      && (Foreign(sb.meta.finalizers) != [] ==> k in w'.store.sandboxes)
  {
    ReconcileEnds(k, w);
    var sb := w.store.sandboxes[k];
    var p := PassFor(k, sb);
    var (w2, copy, outcome) := Reconcile(p, sb, w);
    UpdateEnds(p, sb, copy, w2);
    ForeignShape(sb.meta.finalizers);
  }

  lemma RemainingTwice(p: Pass, t: SandboxType, children: Children)
    ensures Remaining(p, t, Remaining(p, t, children)) == Remaining(p, t, children)
  {
    RemainingIs(p, t, children);
    RemainingIs(p, t, Remaining(p, t, children));
  }

  /** Termination: after two quiet passes the Sandbox is gone, if nobody else's finalizer holds it, and no longer
      carries the controller's; its workload and all its volumes of the kinds its type handles are removed, and every
      other object is as it was. */
  lemma TwoPassesEnd(k: Key, ws: seq<World>)
    requires IsQuietRun(k, ws) && |ws| == 3 && Ending(k, ws[0])
    ensures var w, s := ws[0], ws[2].store;
      var sb := w.store.sandboxes[k];
      var t := ChosenType(w.store, sb);
      && (k in s.sandboxes ==> s.sandboxes[k].uid == sb.uid && !Protected(s.sandboxes[k]))
      && (Protected(sb) && Foreign(sb.meta.finalizers) == [] ==> k !in s.sandboxes)
      && (forall ck :: ck in s.children ==> ck in w.store.children && s.children[ck] == w.store.children[ck])
      && (forall ck :: ck in w.store.children ==>
            (ck !in s.children <==>
             && t != NoType
             && (|| ck == WorkloadKey(t, k.namespace, sb.uid)
                 || (ck.kind in VolumeKinds(t) && ck.namespace == k.namespace && OwnedBy(w.store, ck, sb.uid)))))
  {
    assert FollowsQuietly(k, ws, 1) && FollowsQuietly(k, ws, 2);
    var w, w1 := ws[0], ws[1];
    var sb := w.store.sandboxes[k];
    var t := ChosenType(w.store, sb);
    var p := PassFor(k, sb);
    PassEnds(k, w);
    RemainingIs(p, t, w.store.children);
    RemainingTwice(p, t, w.store.children);
    if k in w1.store.sandboxes {
      SecondPass(k, w, w1);
    } else {
      AbsentPass(k, w1);
    }
  }

  lemma AbsentPass(k: Key, w: World)
    requires w.script == [] && k !in w.store.sandboxes
    ensures RunPass(k, w).0 == w
  {
  }

  /** What the first of two passes left looks to the second as it did to the first. */
  lemma EndAgain(s: Store, s': Store, sb: Sandbox, sb': Sandbox)
    requires SpecsKept(s, s')
    requires sb' == sb.(status := EndCopy(s, sb).status, meta := sb'.meta, version := sb'.version, past := sb'.past)
    ensures ChosenType(s', sb') == ChosenType(s, sb)
    ensures EndCopy(s', sb').status == sb'.status
  {
    SetThenGet(ReadyCondition(sb, TERMINATING), sb.status.conditions);
    SetTwice(ReadyCondition(sb, TERMINATING), sb.status.conditions);
  }

  lemma SecondPass(k: Key, w: World, w1: World)
    requires Ending(k, w) && w1 == RunPass(k, w).0 && k in w1.store.sandboxes
    ensures var sb := w.store.sandboxes[k];
      var s := RunPass(k, w1).0.store;
      && (k in s.sandboxes ==> s.sandboxes[k].uid == sb.uid && !Protected(s.sandboxes[k]))
      && (Protected(sb) && Foreign(sb.meta.finalizers) == [] ==> k !in s.sandboxes)
      && s.children == Remaining(PassFor(k, sb), ChosenType(w.store, sb), w1.store.children)
  {
    PassEnds(k, w);
    var sb, sb1 := w.store.sandboxes[k], w1.store.sandboxes[k];
    EndAgain(w.store, w1.store, sb, sb1);
    assert PassFor(k, sb1) == PassFor(k, sb);
    PassEnds(k, w1);
    ForeignShape(sb.meta.finalizers);
  }
}
