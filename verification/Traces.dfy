/** What the steps of one pass are, in order: which of them make children and which store a status, and what the pass
    has met before. */
module Traces {
  import opened Types
  import opened Finalizers
  import opened Backends
  import opened Volumes
  import opened Cluster
  import opened Passes
  import opened Safety
  import opened Steps
  import opened ReconcileSafety
  import opened Runs
  import opened Branches
  import MetaUpdater
  import Patches

  // ---------------------------------------------------------------- the calls of a pass, by what they change

  /** The Sandbox under `k` is the same one, with another status. */
  predicate Restated(k: Key, s: Store, t: Store) {
    k in t.sandboxes && IsAt(k, t.sandboxes[k].uid, s) && t.sandboxes[k].status != s.sandboxes[k].status
  }

  /** A step of the pass for `p` makes children only if it `makes`, and changes the status only if it `reports`. */
  ghost predicate OnlyAt(p: Pass, tr: seq<Event>, i: nat, makes: bool, reports: bool)
    requires 0 < i < |tr|
  {
    tr[i].actor.Controller? ==>
      && tr[i].actor.uid == p.uid && tr[i].actor.template == p.template
      && (Creates(tr[i - 1].store, tr[i].store) ==> makes)
      && (Restated(p.key, tr[i - 1].store, tr[i].store) ==> reports)
  }

  /** So do all steps between two worlds. */
  ghost predicate Does(p: Pass, w: World, w': World, makes: bool, reports: bool) {
    && Tidy(w) && Tidy(w') && w.trace <= w'.trace
    && forall i :: |w.trace| <= i < |w'.trace| ==> OnlyAt(p, w'.trace, i, makes, reports)
  }

  lemma Then(p: Pass, w: World, w1: World, w': World, makes: bool, reports: bool)
    requires Does(p, w, w1, makes, reports) && Does(p, w1, w', makes, reports)
    ensures Does(p, w, w', makes, reports)
  {
    forall i | |w.trace| <= i < |w'.trace|
      ensures OnlyAt(p, w'.trace, i, makes, reports)
    {
      if i < |w1.trace| {
        assert OnlyAt(p, w1.trace, i, makes, reports);
      }
    }
  }

  lemma Loosen(p: Pass, w: World, w': World, makes: bool, reports: bool)
    requires Does(p, w, w', false, false)
    ensures Does(p, w, w', makes, reports)
  {
    forall i | |w.trace| <= i < |w'.trace|
      ensures OnlyAt(p, w'.trace, i, makes, reports)
    {
      assert OnlyAt(p, w'.trace, i, false, false);
    }
  }

  lemma TurnDoes(p: Pass, w: World)
    requires Tidy(w)
    ensures Does(p, w, Turn(p.key, w).0, false, false)
  {
  }

  lemma PushDoes(p: Pass, w: World, w1: World, call: Call, s: Store, makes: bool, reports: bool)
    requires Does(p, w, w1, false, false)
    requires Creates(w1.store, s) ==> makes
    requires Restated(p.key, w1.store, s) ==> reports
    ensures Does(p, w, Push(w1, Controller(p.uid, p.template, call), s), makes, reports)
  {
    Loosen(p, w, w1, makes, reports);
    var w' := Push(w1, Controller(p.uid, p.template, call), s);
    forall i | |w.trace| <= i < |w'.trace|
      ensures OnlyAt(p, w'.trace, i, makes, reports)
    {
      if i < |w1.trace| {
        assert OnlyAt(p, w1.trace, i, makes, reports);
      }
    }
  }

  lemma CreateChildDoes(p: Pass, new_: NewChild, w: World)
    requires Tidy(w)
    ensures Does(p, w, CreateChild(p, new_, w).0, true, false)
  {
    TurnDoes(p, w);
    var w1, w' := Turn(p.key, w).0, CreateChild(p, new_, w).0;
    Loosen(p, w, w1, true, false);
    PushDoes(p, w, w1, Plain, w'.store, true, false);
  }

  lemma DeleteChildDoes(p: Pass, ck: ChildKey, w: World)
    requires Tidy(w)
    ensures Does(p, w, DeleteChild(p, ck, w).0, false, false)
  {
    TurnDoes(p, w);
    PushDoes(p, w, Turn(p.key, w).0, Plain, DeleteChild(p, ck, w).0.store, false, false);
  }

  lemma SettleDoes(p: Pass, w: World, w1: World, call: Call, sb: Sandbox)
    requires Does(p, w, w1, false, false) && p.key in w1.store.sandboxes
    requires sb.status == w1.store.sandboxes[p.key].status
    ensures Does(p, w, Push(w1, Controller(p.uid, p.template, call), Settle(w1.store, p.key, sb)), false, false)
  {
    PushDoes(p, w, w1, call, Settle(w1.store, p.key, sb), false, false);
  }

  lemma DeleteSandboxDoes(p: Pass, read: Sandbox, w: World)
    requires Tidy(w)
    ensures Does(p, w, DeleteSandbox(p, read, w).0, false, false)
  {
    TurnDoes(p, w);
    var w1 := Turn(p.key, w).0;
    if p.key in w1.store.sandboxes {
      SettleDoes(p, w, w1, Expire(Protected(read)), w1.store.sandboxes[p.key].(deleting := true));
    }
  }

  lemma UpdateStatusDoes(p: Pass, copy: Sandbox, w: World)
    requires Tidy(w)
    ensures Does(p, w, UpdateStatus(p, copy, w).0, false, true)
  {
    TurnDoes(p, w);
    var w1, w' := Turn(p.key, w).0, UpdateStatus(p, copy, w).0;
    Loosen(p, w, w1, false, true);
    PushDoes(p, w, w1, Plain, w'.store, false, true);
  }

  lemma PatchSandboxDoes(p: Pass, was: Meta, will: Meta, w: World)
    requires Tidy(w)
    ensures Does(p, w, PatchSandbox(p, MetaUpdater.MetaPatch(was, will), w).0, false, false)
  {
    TurnDoes(p, w);
    PatchSandboxResult(p, was, will, w);
    var w1 := Turn(p.key, w).0;
    if p.key in w1.store.sandboxes {
      var a := w1.store.sandboxes[p.key];
      SettleDoes(p, w, w1, Plain, Remember(a.(meta := MetaUpdater.Merged(was, will, a.meta))));
    }
  }

  lemma PatchTemplateDoes(p: Pass, name: string, ops: seq<Patches.Operation>, w: World)
    requires Tidy(w)
    ensures Does(p, w, PatchTemplate(p, name, ops, w).0, false, false)
  {
    TurnDoes(p, w);
    PushDoes(p, w, Turn(p.key, w).0, Plain, PatchTemplate(p, name, ops, w).0.store, false, false);
  }

  // ---------------------------------------------------------------- the parts of a pass

  lemma {:induction false} DeleteAllDoes(p: Pass, keys: seq<ChildKey>, w: World)
    requires Tidy(w)
    ensures Does(p, w, DeleteAll(p, keys, w).0, false, false)
    decreases |keys|
  {
    if keys != [] {
      DeleteChildDoes(p, keys[0], w);
      var (w1, ok) := DeleteChild(p, keys[0], w);
      if ok {
        DeleteAllDoes(p, keys[1..], w1);
        Then(p, w, w1, DeleteAll(p, keys, w).0, false, false);
      }
    }
  }

  lemma {:induction false} DeleteKindsDoes(p: Pass, kinds: seq<Kind>, w: World)
    requires Tidy(w)
    ensures Does(p, w, DeleteKinds(p, kinds, w).0, false, false)
    decreases |kinds|
  {
    if kinds != [] {
      TurnDoes(p, w);
      var (w1, keys) := ListOwned(p, kinds[0], w);
      if keys.Some? {
        DeleteAllDoes(p, keys.value, w1);
        var (w2, ok) := DeleteVolumes(p, kinds[0], w);
        Then(p, w, w1, w2, false, false);
        if ok {
          DeleteKindsDoes(p, kinds[1..], w2);
          Then(p, w, w2, DeleteKinds(p, kinds, w).0, false, false);
        }
      }
    }
  }

  lemma DeleteWorkloadDoes(p: Pass, t: SandboxType, w: World)
    requires Tidy(w) && t != NoType
    ensures Does(p, w, DeleteWorkload(p, t, w).0, false, false)
  {
    var key := WorkloadKey(t, p.key.namespace, p.uid);
    TurnDoes(p, w);
    var (w1, found) := GetChild(p.key, key, w);
    if found.Found? {
      DeleteChildDoes(p, key, w1);
      Then(p, w, w1, DeleteWorkload(p, t, w).0, false, false);
    }
  }

  lemma DeleteChildrenDoes(p: Pass, t: SandboxType, w: World)
    requires Tidy(w)
    ensures Does(p, w, DeleteChildren(p, t, w).0, false, false)
  {
    if t != NoType && GateOpen(w.gates, t) {
      DeleteWorkloadDoes(p, t, w);
      var (w1, ok) := DeleteWorkload(p, t, w);
      if ok {
        DeleteKindsDoes(p, VolumeKinds(t), w1);
        Then(p, w, w1, Delete(p, t, w).0, false, false);
      }
    }
  }

  lemma HandleTerminatingDoes(p: Pass, copy: Sandbox, template: Option<Template>, w: World)
    requires Tidy(w)
    ensures Does(p, w, HandleTerminating(p, copy, template, w).0, false, false)
  {
    DeleteChildrenDoes(p, copy.status.kind, w);
    var (w1, deleted) := DeleteChildren(p, copy.status.kind, w);
    if deleted && template.Some? && UnprotectPatch(template.value.meta.finalizers).Some? {
      PatchTemplateDoes(p, p.template, UnprotectPatch(template.value.meta.finalizers).value, w1);
      Then(p, w, w1, HandleTerminating(p, copy, template, w).0, false, false);
    }
  }

  lemma {:induction false} CreateMissingDoes(p: Pass, existing: set<ChildKey>, wanted: seq<NewChild>, w: World)
    requires Tidy(w)
    ensures Does(p, w, CreateMissing(p, existing, wanted, w).0, true, false)
    decreases |wanted|
  {
    if wanted != [] {
      if wanted[0].key in existing {
        CreateMissingDoes(p, existing, wanted[1..], w);
      } else {
        CreateChildDoes(p, wanted[0], w);
        var (w1, ok) := CreateChild(p, wanted[0], w);
        if ok {
          CreateMissingDoes(p, existing, wanted[1..], w1);
          Then(p, w, w1, CreateMissing(p, existing, wanted, w).0, true, false);
        }
      }
    }
  }

  lemma {:induction false} CreateKindsDoes(p: Pass, kinds: seq<Kind>, volumes: seq<Volume>, w: World)
    requires Tidy(w)
    ensures Does(p, w, CreateKinds(p, kinds, volumes, w).0, true, false)
    decreases |kinds|
  {
    if kinds != [] {
      var wanted := MakeVolumes(p.uid, p.key.namespace, kinds[0], volumes);
      TurnDoes(p, w);
      var (w1, existing) := ListOwned(p, kinds[0], w);
      Loosen(p, w, w1, true, false);
      if existing.Some? {
        CreateMissingDoes(p, KeySet(existing.value), wanted, w1);
        var (w2, ok) := CreateVolumes(p, kinds[0], wanted, w);
        Then(p, w, w1, w2, true, false);
        if ok {
          CreateKindsDoes(p, kinds[1..], volumes, w2);
          Then(p, w, w2, CreateKinds(p, kinds, volumes, w).0, true, false);
        }
      }
    }
  }

  lemma EnsureWorkloadDoes(p: Pass, t: SandboxType, spec: TemplateSpec, w: World)
    requires Tidy(w) && t != NoType
    ensures Does(p, w, EnsureWorkload(p, t, spec, w).0, true, false)
  {
    var key := WorkloadKey(t, p.key.namespace, p.uid);
    TurnDoes(p, w);
    var (w1, found) := GetChild(p.key, key, w);
    Loosen(p, w, w1, true, false);
    var w' := EnsureWorkload(p, t, spec, w).0;
    if found.Found? {
      DeleteChildDoes(p, key, w1);
      Loosen(p, w1, DeleteChild(p, key, w1).0, true, false);
      if w' != w1 {
        Then(p, w, w1, w', true, false);
      }
    } else if found.NotFound? && HasWorkload(t, spec) {
      CreateChildDoes(p, NewWorkload(t, p.key.namespace, p.uid, spec), w1);
      Then(p, w, w1, w', true, false);
    }
  }

  lemma CreateDoes(p: Pass, t: SandboxType, spec: TemplateSpec, w: World)
    requires Tidy(w) && t != NoType
    ensures Does(p, w, Create(p, t, spec, w).0, true, false)
  {
    if GateOpen(w.gates, t) {
      CreateKindsDoes(p, VolumeKinds(t), spec.volumes, w);
      var (w1, ok) := CreateKinds(p, VolumeKinds(t), spec.volumes, w);
      if ok {
        EnsureWorkloadDoes(p, t, spec, w1);
        Then(p, w, w1, Create(p, t, spec, w).0, true, false);
      }
    }
  }

  lemma CreateAndReportDoes(p: Pass, held: Sandbox, spec: TemplateSpec, w: World)
    requires Tidy(w) && held.status.kind != NoType
    ensures Does(p, w, CreateAndReport(p, held, spec, w).0, true, false)
  {
    var t := held.status.kind;
    CreateDoes(p, t, spec, w);
    var (w1, created) := Create(p, t, spec, w);
    if created && GateOpen(w1.gates, t) {
      TurnDoes(p, w1);
      Loosen(p, w1, Turn(p.key, w1).0, true, false);
      Then(p, w, w1, CreateAndReport(p, held, spec, w).0, true, false);
    }
  }

  lemma LookupDoes(p: Pass, copy: Sandbox, w: World)
    requires Tidy(w)
    ensures Does(p, w, HandleTemplateSpec(p, copy, w).0, false, false)
  {
    TurnDoes(p, w);
  }

  lemma ProtectDoes(p: Pass, template: Option<Template>, spec: TemplateSpec, w: World)
    requires Tidy(w)
    ensures Does(p, w, Protect(p, template, spec, w).0, false, false)
  {
    if template.Some? && ProtectPatch(template.value.meta.finalizers).Some? {
      PatchTemplateDoes(p, p.template, ProtectPatch(template.value.meta.finalizers).value, w);
    }
  }

  lemma MetaUpdateDoes(p: Pass, obj: Sandbox, copy: Sandbox, w: World)
    requires Tidy(w)
    ensures Does(p, w, MetaUpdate(p, obj, copy, w).0, false, false)
  {
    if obj.meta != copy.meta {
      PatchSandboxDoes(p, obj.meta, copy.meta, w);
    }
  }

  lemma UpdateDoes(p: Pass, obj: Sandbox, copy: Sandbox, w: World)
    requires Tidy(w)
    ensures Does(p, w, Update(p, obj, copy, w).0, false, true)
  {
    UpdateStatusDoes(p, copy, w);
    var (w1, written, ok) := StatusUpdate(p, obj, copy, w);
    if ok {
      MetaUpdateDoes(p, obj, written, w1);
      Loosen(p, w1, MetaUpdate(p, obj, written, w1).0, false, true);
      if obj.status != copy.status {
        Then(p, w, w1, Update(p, obj, copy, w).0, false, true);
      }
    }
  }

  // ---------------------------------------------------------------- no child before its template is held

  ghost predicate MakesAt(tr: seq<Event>, i: nat)
    requires 0 < i < |tr|
  {
    tr[i].actor.Controller? && Creates(tr[i - 1].store, tr[i].store)
  }

  ghost predicate UsableAt(tr: seq<Event>, h: nat, name: string)
    requires h < |tr|
  {
    name in tr[h].store.templates && !tr[h].store.templates[name].deleting
  }

  ghost predicate HeldAt(tr: seq<Event>, h: nat, name: string)
    requires h < |tr|
  {
    TemplateHeld(tr[h].store, name)
  }

  /** Between these two points the template was there without a deletion mark, and then it carried the finalizer; an
      inline spec needs neither. */
  ghost predicate Prepared(sb: Sandbox, tr: seq<Event>, from: nat, i: nat)
    requires i <= |tr|
  {
    sb.spec.templateSpec.Some?
    || exists g, h :: from <= g <= h < i && UsableAt(tr, g, sb.spec.template) && HeldAt(tr, h, sb.spec.template)
  }

  lemma LookupFinds(p: Pass, obj: Sandbox, w: World)
    requires p == PassFor(p.key, obj)
    ensures var (w1, resolved, r) := HandleTemplateSpec(p, obj, w);
      r.Resolution? && !r.terminating && r.spec.Some? && obj.spec.templateSpec.None? ==>
        && r.template.Some? && p.template in w1.store.templates
        && w1.store.templates[p.template] == r.template.value && !r.template.value.deleting
  {
  }

  lemma ProtectHolds(p: Pass, template: Template, spec: TemplateSpec, w: World)
    requires Carries(template.meta.finalizers) ==> TemplateHeld(w.store, p.template)
    ensures var (w1, ok, used) := Protect(p, Some(template), spec, w); ok ==> TemplateHeld(w1.store, p.template)
  {
    var fs := template.meta.finalizers;
    if !Carries(fs) {
      AddedKeepsForeign(fs);
      PatchTemplateResult(p, fs, Added(fs), w);
    }
  }

  /** Up to the first child of an active pass. */
  lemma ActivePrepares(p: Pass, obj: Sandbox, w: World, w1: World, r: Resolution, w2: World)
    requires Tidy(w) && p == PassFor(p.key, obj) && HandleTemplateSpec(p, obj, w) == (w1, obj, r)
    requires r.Resolution? && !r.terminating && r.spec.Some?
    requires var (w', ok, used) := Protect(p, r.template, r.spec.value, w1); w' == w2 && ok
    ensures Does(p, w, w2, false, false) && Prepared(obj, w2.trace, |w.trace| - 1, |w2.trace|)
  {
    LookupDoes(p, obj, w);
    ProtectDoes(p, r.template, r.spec.value, w1);
    Then(p, w, w1, w2, false, false);
    LookupFinds(p, obj, w);
    if obj.spec.templateSpec.None? {
      ProtectHolds(p, r.template.value, r.spec.value, w1);
      assert w2.trace[|w1.trace| - 1] == w1.trace[|w1.trace| - 1];
      assert UsableAt(w2.trace, |w1.trace| - 1, p.template) && HeldAt(w2.trace, |w2.trace| - 1, p.template);
    }
  }

  /** Every child that is made between two worlds comes after the preparation. */
  ghost predicate AllPrepared(obj: Sandbox, tr: seq<Event>, from: nat) {
    forall i :: from < i < |tr| && MakesAt(tr, i) ==> !obj.deleting && Prepared(obj, tr, from, i)
  }

  lemma NoneMade(p: Pass, obj: Sandbox, w: World, w': World, reports: bool)
    requires Does(p, w, w', false, reports)
    ensures AllPrepared(obj, w'.trace, |w.trace| - 1)
  {
    forall i | |w.trace| <= i < |w'.trace|
      ensures !MakesAt(w'.trace, i)
    {
      assert OnlyAt(p, w'.trace, i, false, reports);
    }
  }

  lemma StaysPrepared(sb: Sandbox, tr: seq<Event>, longer: seq<Event>, from: nat, i: nat, j: nat)
    requires tr <= longer && i <= |tr| && i <= j <= |longer| && Prepared(sb, tr, from, i)
    ensures Prepared(sb, longer, from, j)
  {
    if sb.spec.templateSpec.None? {
      var g, h :| from <= g <= h < i && UsableAt(tr, g, sb.spec.template) && HeldAt(tr, h, sb.spec.template);
      assert UsableAt(longer, g, sb.spec.template) && HeldAt(longer, h, sb.spec.template);
    }
  }

  lemma MadeAfter(p: Pass, obj: Sandbox, w: World, w2: World, w': World)
    requires Does(p, w, w2, false, false) && Does(p, w2, w', true, false) && !obj.deleting
    requires Prepared(obj, w2.trace, |w.trace| - 1, |w2.trace|)
    ensures AllPrepared(obj, w'.trace, |w.trace| - 1)
  {
    forall i | |w.trace| <= i < |w'.trace|
      ensures MakesAt(w'.trace, i) ==> Prepared(obj, w'.trace, |w.trace| - 1, i)
    {
      if i < |w2.trace| {
        assert OnlyAt(p, w2.trace, i, false, false);
      } else {
        StaysPrepared(obj, w2.trace, w'.trace, |w.trace| - 1, |w2.trace|, i);
      }
    }
  }

  lemma ResolvedDoes(p: Pass, obj: Sandbox, typed: Sandbox, r: Resolution, w: World, w1: World)
    requires Tidy(w) && p == PassFor(p.key, obj) && r.Resolution? && HandleTemplateSpec(p, obj, w).0 == w1
    requires HandleTemplateSpec(p, obj, w).2 == r && typed.deleting == obj.deleting
    requires !r.terminating && r.spec.Some? ==> HandleTemplateSpec(p, obj, w).1 == obj
    ensures var w' := HandleResolved(p, typed, r, w1).0;
      Does(p, w, w', true, false) && AllPrepared(obj, w'.trace, |w.trace| - 1)
  {
    LookupDoes(p, obj, w);
    var w' := HandleResolved(p, typed, r, w1).0;
    if typed.deleting {
      var marked := WithReady(typed, Report(False, ReasonTerminating, ""));
      HandleTerminatingDoes(p, marked, r.template, w1);
      Quietly(p, obj, w, w1, w');
    } else if IsTTLExpired(typed, w1.store.now) {
      DeleteSandboxDoes(p, typed, w1);
      Quietly(p, obj, w, w1, w');
    } else if r.terminating || r.spec.None? || typed.status.kind == NoType {
      Quietly(p, obj, w, w, w1);
    } else {
      ActiveDoes(p, obj, typed, r, w, w1);
    }
  }

  lemma Quietly(p: Pass, obj: Sandbox, w: World, w1: World, w': World)
    requires Does(p, w, w1, false, false) && Does(p, w1, w', false, false)
    ensures Does(p, w, w', true, false) && AllPrepared(obj, w'.trace, |w.trace| - 1)
  {
    Then(p, w, w1, w', false, false);
    NoneMade(p, obj, w, w', false);
    Loosen(p, w, w', true, false);
  }

  lemma ActiveDoes(p: Pass, obj: Sandbox, typed: Sandbox, r: Resolution, w: World, w1: World)
    requires Tidy(w) && p == PassFor(p.key, obj) && HandleTemplateSpec(p, obj, w) == (w1, obj, r) && !obj.deleting
    requires r.Resolution? && !r.terminating && r.spec.Some? && typed.status.kind != NoType
    ensures var w' := HandleActive(p, typed, r.template, r.spec.value, w1).0;
      Does(p, w, w', true, false) && AllPrepared(obj, w'.trace, |w.trace| - 1)
  {
    LookupDoes(p, obj, w);
    ProtectDoes(p, r.template, r.spec.value, w1);
    var (w2, ok, used) := Protect(p, r.template, r.spec.value, w1);
    if ok {
      ActivePrepares(p, obj, w, w1, r, w2);
      CreateAndReportDoes(p, AddFinalizer(typed), used, w2);
      var w' := HandleActive(p, typed, r.template, r.spec.value, w1).0;
      MadeAfter(p, obj, w, w2, w');
      Loosen(p, w, w2, true, false);
      Then(p, w, w2, w', true, false);
    } else {
      Quietly(p, obj, w, w1, w2);
    }
  }

  lemma ReconcileDoes(p: Pass, obj: Sandbox, w: World)
    requires Tidy(w) && p == PassFor(p.key, obj)
    ensures var w' := Reconcile(p, obj, w).0;
      Does(p, w, w', true, false) && AllPrepared(obj, w'.trace, |w.trace| - 1)
  {
    LookupLeavesSpec(p, obj, w);
    var (w1, resolved, r) := HandleTemplateSpec(p, obj, w);
    if r.LookupFailed? {
      LookupDoes(p, obj, w);
      Quietly(p, obj, w, w, w1);
    } else {
      ResolvedDoes(p, obj, WithType(resolved, r.spec), r, w, w1);
    }
  }

  // ---------------------------------------------------------------- the status that a pass stores

  ghost predicate ReportsAt(k: Key, tr: seq<Event>, i: nat)
    requires 0 < i < |tr|
  {
    tr[i].actor.Controller? && Restated(k, tr[i - 1].store, tr[i].store)
  }

  /** A changed status is this one, and of the Sandbox that was read. */
  ghost predicate TellsAt(p: Pass, obj: Sandbox, status: Status, tr: seq<Event>, i: nat)
    requires 0 < i < |tr|
  {
    ReportsAt(p.key, tr, i) ==>
      IsAt(p.key, p.uid, tr[i].store) && tr[i].store.sandboxes[p.key].status == status != obj.status
  }

  ghost predicate Tells(p: Pass, obj: Sandbox, status: Status, w: World, w': World)
    requires w.trace != []
  {
    w.trace <= w'.trace && forall i :: |w.trace| <= i < |w'.trace| ==> TellsAt(p, obj, status, w'.trace, i)
  }

  lemma SilentTells(p: Pass, obj: Sandbox, status: Status, w: World, w': World)
    requires Does(p, w, w', false, false)
    ensures Tells(p, obj, status, w, w')
  {
    forall i | |w.trace| <= i < |w'.trace|
      ensures TellsAt(p, obj, status, w'.trace, i)
    {
      assert OnlyAt(p, w'.trace, i, false, false);
    }
  }

  lemma ThenTells(p: Pass, obj: Sandbox, status: Status, w: World, w1: World, w': World)
    requires w.trace != [] && w1.trace != [] && Tells(p, obj, status, w, w1) && Tells(p, obj, status, w1, w')
    ensures Tells(p, obj, status, w, w')
  {
    forall i | |w.trace| <= i < |w'.trace|
      ensures TellsAt(p, obj, status, w'.trace, i)
    {
      if i < |w1.trace| {
        assert TellsAt(p, obj, status, w1.trace, i);
      }
    }
  }

  lemma WriteTells(p: Pass, obj: Sandbox, status: Status, w: World, s: Store)
    requires Tidy(w) && IsAt(p.key, p.uid, w.store) && w.store.sandboxes[p.key].status == obj.status
    requires IsAt(p.key, p.uid, s) && s.sandboxes[p.key].status == status
    ensures Tells(p, obj, status, w, Push(w, By(p), s))
  {
  }

  /** The status write stores the copy's status over the very Sandbox that was read. */
  lemma UpdateStatusTells(p: Pass, obj: Sandbox, copy: Sandbox, w: World)
    requires Running(p, obj, {Known(obj)}, w) && copy.version == obj.version
    ensures Tells(p, obj, copy.status, w, UpdateStatus(p, copy, w).0)
  {
    TurnRunning(p, obj, {Known(obj)}, w);
    TurnDoes(p, w);
    UpdateStatusResult(p, copy, w);
    var w1, w' := Turn(p.key, w).0, UpdateStatus(p, copy, w).0;
    SilentTells(p, obj, copy.status, w, w1);
    if w' != w1 {
      assert Holds(Known(obj), w1.rules, p, w1.store);
      WriteTells(p, obj, copy.status, w1, w'.store);
      ThenTells(p, obj, copy.status, w, w1, w');
    }
  }

  lemma UpdateTells(p: Pass, obj: Sandbox, copy: Sandbox, w: World)
    requires Running(p, obj, {Known(obj)}, w) && copy.version == obj.version
    ensures Tells(p, obj, copy.status, w, Update(p, obj, copy, w).0)
  {
    UpdateStatusDoes(p, copy, w);
    UpdateStatusTells(p, obj, copy, w);
    var (w1, written, ok) := StatusUpdate(p, obj, copy, w);
    if ok {
      MetaUpdateDoes(p, obj, written, w1);
      SilentTells(p, obj, copy.status, w1, MetaUpdate(p, obj, written, w1).0);
      ThenTells(p, obj, copy.status, w, w1, MetaUpdate(p, obj, written, w1).0);
    }
  }

  // ---------------------------------------------------------------- every step of a pass

  /** The Sandbox that the pass is for, as it was read in the a-th store. */
  ghost predicate ReadAt(tr: seq<Event>, a: nat, p: Pass)
    requires a < |tr|
  {
    && IsAt(p.key, p.uid, tr[a].store) && !tr[a].store.sandboxes[p.key].deleting
    && tr[a].store.sandboxes[p.key].spec.template == p.template
  }

  /** The Sandbox was read, unmarked, and after that everything was prepared. */
  ghost predicate WellPrepared(tr: seq<Event>, from: nat, i: nat, p: Pass)
    requires i <= |tr|
  {
    exists a :: from <= a < i && ReadAt(tr, a, p) && Prepared(tr[a].store.sandboxes[p.key], tr, a, i)
  }

  ghost predicate ReadyAt(p: Pass, t: SandboxType, tr: seq<Event>, j: nat)
    requires j < |tr|
  {
    t != NoType && SeenReady(p, t, tr[j].store)
  }

  /** The workload was in a phase mapped to Ready somewhere between these two points. */
  ghost predicate ReadyBetween(p: Pass, t: SandboxType, tr: seq<Event>, from: nat, i: nat)
    requires i <= |tr|
  {
    exists j :: from <= j < i && ReadyAt(p, t, tr, j)
  }

  /** A step that makes a child comes after the preparation for it, and one that stores Ready after a ready workload
      was there. */
  ghost predicate RightAt(k: Key, tr: seq<Event>, from: nat, i: nat)
    requires 0 < i < |tr|
  {
    tr[i].actor.Controller? ==>
      var p := Pass(k, tr[i].actor.uid, tr[i].actor.template);
      && (MakesAt(tr, i) ==> WellPrepared(tr, from, i, p))
      && (ReportsAt(k, tr, i) && SaysReady(tr[i].store.sandboxes[k].status.conditions) ==>
            && IsAt(k, p.uid, tr[i].store)
            && ReadyBetween(p, tr[i].store.sandboxes[k].status.kind, tr, from, i))
  }

  ghost predicate PassRight(k: Key, tr: seq<Event>, from: nat) {
    forall i :: from < i < |tr| ==> RightAt(k, tr, from, i)
  }

  lemma EarlyRight(p: Pass, obj: Sandbox, w: World, w2: World, w': World, i: nat)
    requires Does(p, w, w2, true, false) && AllPrepared(obj, w2.trace, |w.trace| - 1) && w2.trace <= w'.trace
    requires p == PassFor(p.key, obj) && p.key in w.store.sandboxes && w.store.sandboxes[p.key] == obj
    requires |w.trace| <= i < |w2.trace|
    ensures RightAt(p.key, w'.trace, |w.trace| - 1, i)
  {
    var tr, a := w'.trace, |w.trace| - 1;
    assert OnlyAt(p, w2.trace, i, true, false);
    assert tr[a] == w.trace[a] && tr[i] == w2.trace[i] && tr[i - 1] == w2.trace[i - 1];
    if MakesAt(tr, i) {
      assert MakesAt(w2.trace, i);
      StaysPrepared(obj, w2.trace, tr, a, i, i);
      assert ReadAt(tr, a, p);
    }
  }

  lemma LateRight(p: Pass, obj: Sandbox, status: Status, w: World, w2: World, w': World, i: nat)
    requires Tidy(w) && w.trace <= w2.trace && Does(p, w2, w', false, true) && Tells(p, obj, status, w2, w')
    requires status != obj.status && SaysReady(status.conditions) ==>
      status.kind != NoType && SeenReady(p, status.kind, w2.store)
    requires |w2.trace| <= i < |w'.trace|
    ensures RightAt(p.key, w'.trace, |w.trace| - 1, i)
  {
    var tr, j := w'.trace, |w2.trace| - 1;
    assert OnlyAt(p, tr, i, false, true) && TellsAt(p, obj, status, tr, i);
    assert tr[j] == w2.trace[j];
    if ReportsAt(p.key, tr, i) && SaysReady(status.conditions) {
      assert ReadyAt(p, status.kind, tr, j);
    }
  }

  lemma BothRight(p: Pass, obj: Sandbox, status: Status, w: World, w2: World, w': World)
    requires Does(p, w, w2, true, false) && AllPrepared(obj, w2.trace, |w.trace| - 1)
    requires Does(p, w2, w', false, true) && Tells(p, obj, status, w2, w')
    requires p == PassFor(p.key, obj) && p.key in w.store.sandboxes && w.store.sandboxes[p.key] == obj
    requires status != obj.status && SaysReady(status.conditions) ==>
      status.kind != NoType && SeenReady(p, status.kind, w2.store)
    ensures w.trace <= w'.trace && PassRight(p.key, w'.trace, |w.trace| - 1)
  {
    var from := |w.trace| - 1;
    forall i | from < i < |w'.trace|
      ensures RightAt(p.key, w'.trace, from, i)
    {
      if i < |w2.trace| {
        EarlyRight(p, obj, w, w2, w', i);
      } else {
        LateRight(p, obj, status, w, w2, w', i);
      }
    }
  }

  /** A pass that has read its Sandbox. */
  lemma ReadPassRight(p: Pass, obj: Sandbox, w: World)
    requires Good(p.key, w) && p == PassFor(p.key, obj)
    requires p.key in w.store.sandboxes && w.store.sandboxes[p.key] == obj
    ensures var (w2, copy, outcome) := Reconcile(p, obj, w);
      var tr := Update(p, obj, copy, w2).0.trace;
      w.trace <= tr && PassRight(p.key, tr, |w.trace| - 1)
  {
    GoodIsSafe(p.key, w);
    ReadEstablishes(p.key, w);
    ReconcileRunning(p, obj, w);
    ReadyWriteWasSeen(p, obj, w);
    ReconcileDoes(p, obj, w);
    var (w2, copy, outcome) := Reconcile(p, obj, w);
    Weaken(p, obj, LateFacts(obj), {Known(obj)}, w2);
    UpdateDoes(p, obj, copy, w2);
    UpdateTells(p, obj, copy, w2);
    BothRight(p, obj, copy.status, w, w2, Update(p, obj, copy, w2).0);
  }

  lemma ReadFirst(k: Key, w: World, w1: World, tr: seq<Event>)
    requires w.trace != [] && w.trace <= w1.trace <= tr
    requires forall i :: |w.trace| <= i < |w1.trace| ==> w1.trace[i].actor.Outside?
    requires PassRight(k, tr, |w1.trace| - 1)
    ensures PassRight(k, tr, |w.trace| - 1)
  {
    var from := |w.trace| - 1;
    forall i | from < i < |tr|
      ensures RightAt(k, tr, from, i)
    {
      if i < |w1.trace| {
        assert tr[i] == w1.trace[i];
      } else {
        assert RightAt(k, tr, |w1.trace| - 1, i);
        Sooner(k, tr, from, |w1.trace| - 1, i);
      }
    }
  }

  lemma Sooner(k: Key, tr: seq<Event>, from: nat, later: nat, i: nat)
    requires 0 < i < |tr| && from <= later && RightAt(k, tr, later, i)
    ensures RightAt(k, tr, from, i)
  {
  }

  lemma RunPassRight(k: Key, w: World)
    requires Good(k, w)
    ensures w.trace <= RunPass(k, w).0.trace && PassRight(k, RunPass(k, w).0.trace, |w.trace| - 1)
  {
    TurnGood(k, w);
    var (w1, found) := GetSandbox(k, w);
    ReadFirst(k, w, w1, w1.trace);
    if found.Found? {
      ReadPassRight(PassFor(k, found.value), found.value, w1);
      ReadFirst(k, w, w1, RunPass(k, w).0.trace);
    }
  }

  lemma ByPassRight(k: Key, w: World, script: seq<Tick>, w': World)
    requires Good(k, w) && ByPass(k, w, script, w')
    ensures w.trace <= w'.trace && PassRight(k, w'.trace, |w.trace| - 1)
  {
    RunPassRight(k, w.(script := script));
  }

  // ---------------------------------------------------------------- the theorems

  /** The i-th store of the history was made in the n-th pass of the run. */
  ghost predicate InPass(ws: seq<World>, n: nat, i: nat) {
    0 < n < |ws| && 0 < |ws[n - 1].trace| <= i < |ws[n].trace|
  }

  lemma SomePassRight(k: Key, w: World, w': World)
    requires Good(k, w) && BySomePass(k, w, w')
    ensures w.trace != [] && PassRight(k, w'.trace, |w.trace| - 1)
  {
    var script :| ByPass(k, w, script, w');
    ByPassRight(k, w, script, w');
  }

  lemma FollowsSome(k: Key, ws: seq<World>, n: nat, w: World, w': World)
    requires IsRun(k, ws) && 0 < n < |ws| && w == ws[n - 1] && w' == ws[n]
    ensures BySomePass(k, w, w')
  {
    assert Follows(k, ws, n);
  }

  lemma FollowsRight(k: Key, ws: seq<World>, n: nat, w: World, w': World)
    requires IsRun(k, ws) && 0 < n < |ws| && w == ws[n - 1] && w' == ws[n] && Good(k, w)
    ensures w.trace != [] && PassRight(k, w'.trace, |w.trace| - 1)
  {
    FollowsSome(k, ws, n, w, w');
    SomePassRight(k, w, w');
  }

  lemma EachPassRight(k: Key, ws: seq<World>, n: nat)
    requires IsRun(k, ws) && Good(k, ws[0]) && 0 < n < |ws|
    ensures ws[n - 1].trace != [] && PassRight(k, ws[n].trace, |ws[n - 1].trace| - 1)
  {
    RunGood(k, ws, n - 1);
    FollowsRight(k, ws, n, ws[n - 1], ws[n]);
  }

  /** No child before its template is held, for shared templates too: when a step of a pass makes a child, that pass
      has read its Sandbox without a deletion mark, then (unless the spec is inline) the template that it names was
      there without one, and after that, in a store before this step, it carried the finalizer. */
  lemma NoChildBeforeTemplate(k: Key, ws: seq<World>, n: nat, i: nat)
    requires IsRun(k, ws) && Good(k, ws[0]) && InPass(ws, n, i) && MakesAt(ws[n].trace, i)
    ensures var tr := ws[n].trace;
      WellPrepared(tr, |ws[n - 1].trace| - 1, i, Pass(k, tr[i].actor.uid, tr[i].actor.template))
  {
    EachPassRight(k, ws, n);
    assert RightAt(k, ws[n].trace, |ws[n - 1].trace| - 1, i);
  }

  /** No Ready without a ready workload: when a step of a pass stores a new status that says Ready, it does so for the
      Sandbox that the pass is for, and in a store of that pass before this step its workload was in a phase mapped to
      Ready. */
  lemma ReadyChangeWasSeen(k: Key, ws: seq<World>, n: nat, i: nat)
    requires IsRun(k, ws) && Good(k, ws[0]) && InPass(ws, n, i) && ReportsAt(k, ws[n].trace, i)
    requires SaysReady(ws[n].trace[i].store.sandboxes[k].status.conditions)
    ensures var tr := ws[n].trace;
      && IsAt(k, tr[i].actor.uid, tr[i].store)
      && ReadyBetween(Pass(k, tr[i].actor.uid, tr[i].actor.template), tr[i].store.sandboxes[k].status.kind, tr,
                      |ws[n - 1].trace| - 1, i)
  {
    EachPassRight(k, ws, n);
    assert RightAt(k, ws[n].trace, |ws[n - 1].trace| - 1, i);
  }
}
