/** What a pass answers and what it publishes, with the failures of its calls written out. */
module Outcomes {
  import opened Types
  import opened Conditions
  import opened Finalizers
  import opened Volumes
  import opened Backends
  import opened Cluster
  import opened Passes
  import opened Safety
  import opened Steps
  import opened Traces
  import opened Order
  import opened Phases
  import opened Termination
  import MetaUpdater
  import Patches

  // ---------------------------------------------------------------- the calls that were made, and how they went

  /** The calls between two worlds used up the ticks that the script has lost. */
  ghost predicate Consumes(w: World, w': World) {
    |w'.script| <= |w.script| && w'.script == w.script[|w.script| - |w'.script|..]
  }

  /** Each of these calls was served and answered. */
  ghost predicate AllServed(w: World, w': World)
    requires Consumes(w, w')
  {
    forall i :: 0 <= i < |w.script| - |w'.script| ==> w.script[i].fate == Served
  }

  /** A call that was not served is the last one, and then there is no success. */
  ghost predicate Ran(w: World, w': World, ok: bool) {
    && Consumes(w, w') && (ok ==> AllServed(w, w'))
    && forall i :: 0 <= i < |w.script| - |w'.script| - 1 ==> w.script[i].fate == Served
  }

  lemma ThenRan(w: World, w1: World, w': World, ok: bool)
    requires Ran(w, w1, true) && Ran(w1, w', ok)
    ensures Ran(w, w', ok)
  {
    var m := |w.script| - |w1.script|;
    assert forall i :: 0 <= i < |w1.script| ==> w1.script[i] == w.script[m + i];
    forall i | 0 <= i < |w.script| - |w'.script| && (ok || i < |w.script| - |w'.script| - 1)
      ensures w.script[i].fate == Served
    {
      if i >= m {
        assert w1.script[i - m] == w.script[i];
      }
    }
  }

  lemma ThenConsumes(w: World, w1: World, w': World)
    requires Consumes(w, w1) && Consumes(w1, w')
    ensures Consumes(w, w')
  {
  }

  lemma TurnRan(k: Key, w: World)
    ensures var (w1, t) := Turn(k, w); Ran(w, w1, t.fate == Served)
  {
  }

  lemma {:induction false} DeleteAllRan(p: Pass, keys: seq<ChildKey>, w: World)
    ensures var (w', ok) := DeleteAll(p, keys, w); Ran(w, w', ok)
    decreases |keys|
  {
    if keys != [] {
      TurnRan(p.key, w);
      var (w1, ok) := DeleteChild(p, keys[0], w);
      if ok {
        DeleteAllRan(p, keys[1..], w1);
        ThenRan(w, w1, DeleteAll(p, keys, w).0, DeleteAll(p, keys, w).1);
      }
    }
  }

  lemma {:induction false} DeleteKindsRan(p: Pass, kinds: seq<Kind>, w: World)
    ensures var (w', ok) := DeleteKinds(p, kinds, w); Ran(w, w', ok)
    decreases |kinds|
  {
    if kinds != [] {
      TurnRan(p.key, w);
      var (w1, keys) := ListOwned(p, kinds[0], w);
      if keys.Some? {
        DeleteAllRan(p, keys.value, w1);
        var (w2, ok) := DeleteVolumes(p, kinds[0], w);
        ThenRan(w, w1, w2, ok);
        if ok {
          DeleteKindsRan(p, kinds[1..], w2);
          ThenRan(w, w2, DeleteKinds(p, kinds, w).0, DeleteKinds(p, kinds, w).1);
        }
      }
    }
  }

  lemma DeleteWorkloadRan(p: Pass, t: SandboxType, w: World)
    requires t != NoType
    ensures var (w', ok) := DeleteWorkload(p, t, w); Ran(w, w', ok)
  {
    var key := WorkloadKey(t, p.key.namespace, p.uid);
    TurnRan(p.key, w);
    var (w1, found) := GetChild(p.key, key, w);
    if found.Found? {
      TurnRan(p.key, w1);
      ThenRan(w, w1, DeleteChild(p, key, w1).0, DeleteChild(p, key, w1).1);
    }
  }

  lemma DeleteChildrenRan(p: Pass, t: SandboxType, w: World)
    ensures var (w', ok) := DeleteChildren(p, t, w); Ran(w, w', ok)
  {
    if t != NoType && GateOpen(w.gates, t) {
      DeleteWorkloadRan(p, t, w);
      var (w1, ok) := DeleteWorkload(p, t, w);
      if ok {
        DeleteKindsRan(p, VolumeKinds(t), w1);
        ThenRan(w, w1, Delete(p, t, w).0, Delete(p, t, w).1);
      }
    }
  }

  lemma UnprotectRan(p: Pass, template: Option<Template>, w: World)
    ensures var (w', ok) := Unprotect(p, template, w); Ran(w, w', ok)
  {
    TurnRan(p.key, w);
  }

  lemma HandleTerminatingRan(p: Pass, copy: Sandbox, template: Option<Template>, w: World)
    ensures var (w', done, ok) := HandleTerminating(p, copy, template, w); Ran(w, w', ok)
  {
    DeleteChildrenRan(p, copy.status.kind, w);
    var (w1, deleted) := DeleteChildren(p, copy.status.kind, w);
    if deleted {
      UnprotectRan(p, template, w1);
      var (w2, freed) := Unprotect(p, template, w1);
      ThenRan(w, w1, w2, freed);
    }
  }

  lemma {:induction false} CreateMissingRan(p: Pass, existing: set<ChildKey>, wanted: seq<NewChild>, w: World)
    ensures var (w', ok) := CreateMissing(p, existing, wanted, w); Ran(w, w', ok)
    decreases |wanted|
  {
    if wanted != [] {
      if wanted[0].key in existing {
        CreateMissingRan(p, existing, wanted[1..], w);
      } else {
        TurnRan(p.key, w);
        var (w1, ok) := CreateChild(p, wanted[0], w);
        if ok {
          CreateMissingRan(p, existing, wanted[1..], w1);
          ThenRan(w, w1, CreateMissing(p, existing, wanted, w).0, CreateMissing(p, existing, wanted, w).1);
        }
      }
    }
  }

  lemma {:induction false} CreateKindsRan(p: Pass, kinds: seq<Kind>, volumes: seq<Volume>, w: World)
    ensures var (w', ok) := CreateKinds(p, kinds, volumes, w); Ran(w, w', ok)
    decreases |kinds|
  {
    if kinds != [] {
      var wanted := MakeVolumes(p.uid, p.key.namespace, kinds[0], volumes);
      TurnRan(p.key, w);
      var (w1, existing) := ListOwned(p, kinds[0], w);
      if existing.Some? {
        CreateMissingRan(p, KeySet(existing.value), wanted, w1);
        var (w2, ok) := CreateVolumes(p, kinds[0], wanted, w);
        ThenRan(w, w1, w2, ok);
        if ok {
          CreateKindsRan(p, kinds[1..], volumes, w2);
          ThenRan(w, w2, CreateKinds(p, kinds, volumes, w).0, CreateKinds(p, kinds, volumes, w).1);
        }
      }
    }
  }

  lemma EnsureWorkloadRan(p: Pass, t: SandboxType, spec: TemplateSpec, w: World)
    requires t != NoType
    ensures var (w', ok) := EnsureWorkload(p, t, spec, w); Ran(w, w', ok)
  {
    var key := WorkloadKey(t, p.key.namespace, p.uid);
    TurnRan(p.key, w);
    var (w1, found) := GetChild(p.key, key, w);
    var (w', ok) := EnsureWorkload(p, t, spec, w);
    if !found.Failed? && w' != w1 {
      TurnRan(p.key, w1);
      ThenRan(w, w1, w', ok);
    }
  }

  lemma CreateRan(p: Pass, t: SandboxType, spec: TemplateSpec, w: World)
    requires t != NoType
    ensures var (w', ok) := Create(p, t, spec, w); Ran(w, w', ok)
  {
    if GateOpen(w.gates, t) {
      CreateKindsRan(p, VolumeKinds(t), spec.volumes, w);
      var (w1, ok) := CreateKinds(p, VolumeKinds(t), spec.volumes, w);
      if ok {
        EnsureWorkloadRan(p, t, spec, w1);
        ThenRan(w, w1, Create(p, t, spec, w).0, Create(p, t, spec, w).1);
      }
    }
  }

  lemma CreateAndReportRan(p: Pass, held: Sandbox, spec: TemplateSpec, w: World)
    requires held.status.kind != NoType
    ensures var (w', copy, outcome) := CreateAndReport(p, held, spec, w); Ran(w, w', outcome.Requeue?)
  {
    CreateRan(p, held.status.kind, spec, w);
    var (w1, created) := Create(p, held.status.kind, spec, w);
    if created {
      TurnRan(p.key, w1);
      var (w2, report) := GetStatus(p, held.status.kind, w1);
      ThenRan(w, w1, w2, report.Some?);
    }
  }

  lemma HandleActiveRan(p: Pass, copy: Sandbox, template: Option<Template>, spec: TemplateSpec, w: World)
    requires copy.status.kind != NoType
    ensures var (w', done, outcome) := HandleActive(p, copy, template, spec, w); Ran(w, w', outcome.Requeue?)
  {
    TurnRan(p.key, w);
    var (w1, ok, used) := Protect(p, template, spec, w);
    assert Ran(w, w1, ok);
    if ok {
      CreateAndReportRan(p, AddFinalizer(copy), used, w1);
      var (w', done, outcome) := HandleActive(p, copy, template, spec, w);
      ThenRan(w, w1, w', outcome.Requeue?);
    }
  }

  lemma HandleResolvedRan(p: Pass, typed: Sandbox, r: Resolution, w: World)
    requires r.Resolution?
    ensures var (w', copy, outcome) := HandleResolved(p, typed, r, w); Ran(w, w', outcome.Requeue?)
  {
    if typed.deleting {
      HandleTerminatingRan(p, WithReady(typed, Report(False, ReasonTerminating, "")), r.template, w);
    } else if IsTTLExpired(typed, w.store.now) {
      TurnRan(p.key, w);
    } else if !r.terminating && r.spec.Some? && typed.status.kind != NoType {
      HandleActiveRan(p, typed, r.template, r.spec.value, w);
    }
  }

  /** The inner pass stops at the first call that is not served, and then ends with an error. */
  lemma ReconcileRan(p: Pass, obj: Sandbox, w: World)
    ensures var (w', copy, outcome) := Reconcile(p, obj, w); Ran(w, w', outcome.Requeue?)
  {
    TurnRan(p.key, w);
    var (w1, resolved, r) := HandleTemplateSpec(p, obj, w);
    if r.Resolution? {
      var typed := WithType(resolved, r.spec);
      HandleResolvedRan(p, typed, r, w1);
      ThenRan(w, w1, HandleResolved(p, typed, r, w1).0, HandleResolved(p, typed, r, w1).2.Requeue?);
    }
  }

  lemma StatusUpdateRan(p: Pass, obj: Sandbox, copy: Sandbox, w: World)
    ensures var (w', written, ok) := StatusUpdate(p, obj, copy, w); Ran(w, w', ok)
  {
    TurnRan(p.key, w);
  }

  lemma PatchSandboxRan(p: Pass, ops: seq<Patches.Operation>, w: World)
    ensures var (w', reply) := PatchSandbox(p, ops, w); Ran(w, w', !reply.Failed?)
  {
    TurnRan(p.key, w);
  }

  lemma UpdateRan(p: Pass, obj: Sandbox, copy: Sandbox, w: World)
    ensures var (w', ok) := Update(p, obj, copy, w); Ran(w, w', ok)
  {
    StatusUpdateRan(p, obj, copy, w);
    var (w1, written, ok) := StatusUpdate(p, obj, copy, w);
    if ok && obj.meta != written.meta {
      PatchSandboxRan(p, MetaUpdater.MetaPatch(obj.meta, written.meta), w1);
      ThenRan(w, w1, MetaUpdate(p, obj, written, w1).0, MetaUpdate(p, obj, written, w1).1);
    }
  }

  /** No failure is swallowed: a pass that ends without an error has had every one of its calls served. */
  lemma NoFailureSwallowed(k: Key, w: World)
    ensures var (w', outcome) := RunPass(k, w);
      Consumes(w, w') && (outcome.Requeue? ==> AllServed(w, w'))
  {
    TurnRan(k, w);
    var (w1, found) := GetSandbox(k, w);
    if found.Found? {
      ReadPassRan(k, found.value, w, w1);
    }
  }

  lemma ReadPassRan(k: Key, obj: Sandbox, w: World, w1: World)
    requires GetSandbox(k, w) == (w1, Found(obj)) && Ran(w, w1, true)
    ensures var (w', outcome) := RunPass(k, w); Consumes(w, w') && (outcome.Requeue? ==> AllServed(w, w'))
  {
    var p := PassFor(k, obj);
    ReconcileRan(p, obj, w1);
    var (w2, copy, inner) := Reconcile(p, obj, w1);
    UpdateRan(p, obj, copy, w2);
    var (w3, ok) := Update(p, obj, copy, w2);
    if inner.Requeue? {
      ThenRan(w1, w2, w3, ok);
      ThenRan(w, w1, w3, ok);
    } else {
      ThenConsumes(w1, w2, w3);
      ThenConsumes(w, w1, w3);
    }
  }

  // ---------------------------------------------------------------- what the working copy says

  /** The Ready condition of the copy, written out; conditions of other types are as they were. */
  ghost predicate Says(copy: Sandbox, obj: Sandbox, status: ConditionStatus, reason: Reason, message: string) {
    && GetCondition("Ready", copy.status.conditions)
       == Some(Condition("Ready", status, reason, message, obj.generation))
    && forall kind :: kind != "Ready" ==>
         GetCondition(kind, copy.status.conditions) == GetCondition(kind, obj.status.conditions)
  }

  lemma WithReadySays(copy: Sandbox, obj: Sandbox, report: Report)
    requires copy.status.conditions == obj.status.conditions && copy.generation == obj.generation
    ensures Says(WithReady(copy, report), obj, report.status, report.reason, report.message)
  {
    SetThenGet(ReadyCondition(copy, report), copy.status.conditions);
  }

  /** Without a usable template an active Sandbox that has not expired gets no further: a failed lookup is an error and
      says nothing, a missing template and one marked for deletion are reported, and no template at all is not. */
  lemma LookupTold(p: Pass, obj: Sandbox, w: World)
    requires !obj.deleting && obj.spec.templateSpec.None?
    ensures var (w1, tick) := Turn(p.key, w);
      var (w', copy, outcome) := Reconcile(p, obj, w);
      var name, s := obj.spec.template, w1.store;
      if name == "" then
        w.store.now <= obj.created + obj.spec.ttl && obj.status.kind == NoType ==>
          w' == w && copy == obj && outcome == Requeue(0)
      else if tick.fate != Served then w' == w1 && copy == obj && outcome == Error
      else s.now <= obj.created + obj.spec.ttl ==>
        && (name !in s.templates ==>
              && w' == w1 && copy == obj.(status := copy.status) && outcome == Requeue(0)
              && Says(copy, obj, False, ReasonPending, "SandboxTemplate \"\" not found"))
        && (name in s.templates && s.templates[name].deleting ==>
              && w' == w1 && copy == obj.(status := copy.status) && outcome == Requeue(0)
              && Says(copy, obj, False, ReasonTerminating,
                      "SandboxTemplate \"" + name + "\" is terminating, rejected for use."))
  {
    WithReadySays(obj, obj, Report(False, ReasonPending, NOT_FOUND_MESSAGE));
    WithReadySays(obj, obj, Report(False, ReasonTerminating, TerminatingMessage(obj.spec.template)));
  }

  // ---------------------------------------------------------------- the active branch

  /** An active pass that has found a usable spec in time; `w1` is the world after the lookup. */
  ghost predicate IsActive(p: Pass, obj: Sandbox, w: World, w1: World, r: Resolution) {
    && p == PassFor(p.key, obj) && !obj.deleting && HandleTemplateSpec(p, obj, w) == (w1, obj, r)
    && r.Resolution? && !r.terminating && r.spec.Some? && w1.store.now <= obj.created + obj.spec.ttl
    && WithType(obj, r.spec).status.kind != NoType
  }

  /** The copy has the finalizer once more than other parties left it, and the type. */
  ghost predicate IsHeld(copy: Sandbox, obj: Sandbox, t: SandboxType) {
    && copy == obj.(status := copy.status, meta := obj.meta.(finalizers := copy.meta.finalizers))
    && FINALIZER in copy.meta.finalizers && Foreign(copy.meta.finalizers) == Foreign(obj.meta.finalizers)
    && copy.status.kind == t
  }

  lemma HeldIs(typed: Sandbox, obj: Sandbox)
    requires typed == obj.(status := typed.status)
    ensures IsHeld(AddFinalizer(typed), obj, typed.status.kind)
  {
    AddedKeepsForeign(obj.meta.finalizers);
    CarriesIsMember(Added(obj.meta.finalizers));
  }

  lemma ActiveIs(p: Pass, obj: Sandbox, w: World, w1: World, r: Resolution)
    requires IsActive(p, obj, w, w1, r)
    ensures Reconcile(p, obj, w) == HandleActive(p, WithType(obj, r.spec), r.template, r.spec.value, w1)
  {
  }

  /** When the template cannot be protected, the pass ends with an error; the copy has type and finalizer, and its
      conditions are as they were. */
  lemma ProtectFailureTold(p: Pass, obj: Sandbox, w: World, w1: World, r: Resolution)
    requires IsActive(p, obj, w, w1, r) && !Protect(p, r.template, r.spec.value, w1).1
    ensures var (w', copy, outcome) := Reconcile(p, obj, w);
      && w' == Protect(p, r.template, r.spec.value, w1).0 && outcome == Error
      && IsHeld(copy, obj, WithType(obj, r.spec).status.kind)
      && copy.status.conditions == obj.status.conditions
  {
    ActiveIs(p, obj, w, w1, r);
    HeldIs(WithType(obj, r.spec), obj);
  }

  /** The branches after protection, for a Create and a status read that went as they did. */
  lemma ReportIs(p: Pass, held: Sandbox, obj: Sandbox, spec: TemplateSpec, w: World, w3: World, created: bool,
                 w4: World, report: Option<Report>)
    requires held.status.kind != NoType && IsHeld(held, obj, held.status.kind)
    requires held.status.conditions == obj.status.conditions
    requires Create(p, held.status.kind, spec, w) == (w3, created)
    requires GetStatus(p, held.status.kind, w3) == (w4, report)
    ensures var (w', copy, outcome) := CreateAndReport(p, held, spec, w);
      && IsHeld(copy, obj, held.status.kind)
      && (!created ==>
            && w' == w3 && outcome == Error
            && Says(copy, obj, False, ReasonFailed, "Failed to create sandbox."))
      && (created && report.None? ==>
            w' == w4 && outcome == Error && copy.status.conditions == obj.status.conditions)
      && (created && report.Some? ==>
            && w' == w4
            && outcome == Requeue(if obj.spec.ttl == 0 then 0 else obj.created + obj.spec.ttl - w4.store.now)
            && Says(copy, obj, report.value.status, report.value.reason, report.value.message))
  {
    WithReadySays(held, obj, Report(False, ReasonFailed, "Failed to create sandbox."));
    if report.Some? {
      WithReadySays(held, obj, report.value);
    }
  }

  /** What an active pass answers and publishes once the template is protected (`used` is the spec from then on). A
      closed gate, and any call of Create that is not served, make it publish False/Failed and end with an error. If
      Create succeeds, a failed status read is an error that publishes nothing; otherwise what Status tells is
      published, and the next pass is due when the Sandbox expires. */
  lemma ActiveTold(p: Pass, obj: Sandbox, w: World, w1: World, r: Resolution, w2: World, used: TemplateSpec)
    requires IsActive(p, obj, w, w1, r) && Protect(p, r.template, r.spec.value, w1) == (w2, true, used)
    ensures var t := WithType(obj, r.spec).status.kind;
      var (w3, created) := Create(p, t, used, w2);
      var (w4, report) := GetStatus(p, t, w3);
      var (w', copy, outcome) := Reconcile(p, obj, w);
      && Consumes(w2, w3)
      && IsHeld(copy, obj, t)
      && (!Permitted(w2.gates, t) || !AllServed(w2, w3) ==> !created)
      && (!created ==>
            && w' == w3 && outcome == Error
            && Says(copy, obj, False, ReasonFailed, "Failed to create sandbox."))
      && (created && report.None? ==>
            w' == w4 && outcome == Error && copy.status.conditions == obj.status.conditions)
      && (created && report.Some? ==>
            && w' == w4
            && outcome == Requeue(if obj.spec.ttl == 0 then 0 else obj.created + obj.spec.ttl - w4.store.now)
            && Says(copy, obj, report.value.status, report.value.reason, report.value.message)
            && Phases.Tells(report.value, Phases.WorkloadOf(t, p.key.namespace, p.uid), w'.store))
  {
    var typed := WithType(obj, r.spec);
    var t := typed.status.kind;
    ActiveIs(p, obj, w, w1, r);
    HeldIs(typed, obj);
    CreateRan(p, t, used, w2);
    var (w3, created) := Create(p, t, used, w2);
    var (w4, report) := GetStatus(p, t, w3);
    StatusExactly(p, t, w3);
    ReportIs(p, AddFinalizer(typed), obj, used, w2, w3, created, w4, report);
  }

  lemma SeenAtLast(p: Pass, held: Sandbox, spec: TemplateSpec, w: World, ck: ChildKey)
    requires Tidy(w) && held.status.kind != NoType && Wanted(p, held.status.kind, spec, ck)
    requires CreateAndReport(p, held, spec, w).2.Requeue?
    ensures Seen(CreateAndReport(p, held, spec, w).0.trace, |w.trace| - 1, ck)
  {
    var t := held.status.kind;
    CreateForgetsNothing(p, t, spec, w, ck);
    CreateDoes(p, t, spec, w);
    var w1 := Create(p, t, spec, w).0;
    TurnDoes(p, w1);
    SeenLater(w, w1, CreateAndReport(p, held, spec, w).0, ck);
  }

  /** Nothing is forgotten: an active pass that ends without an error has met or made every child that the spec in use
      asks for. */
  lemma ActiveForgetsNothing(p: Pass, obj: Sandbox, w: World, w1: World, r: Resolution, w2: World, used: TemplateSpec,
                             ck: ChildKey)
    requires Tidy(w) && IsActive(p, obj, w, w1, r) && Protect(p, r.template, r.spec.value, w1) == (w2, true, used)
    requires Reconcile(p, obj, w).2.Requeue? && Wanted(p, WithType(obj, r.spec).status.kind, used, ck)
    ensures Seen(Reconcile(p, obj, w).0.trace, |w.trace| - 1, ck)
  {
    var held := AddFinalizer(WithType(obj, r.spec));
    ActiveIs(p, obj, w, w1, r);
    LookupDoes(p, obj, w);
    ProtectDoes(p, r.template, r.spec.value, w1);
    Then(p, w, w1, w2, false, false);
    SeenAtLast(p, held, used, w2, ck);
    CreateAndReportDoes(p, held, used, w2);
    SeenLater(w, w2, CreateAndReport(p, held, used, w2).0, ck);
  }

  // ---------------------------------------------------------------- the terminating branch

  /** A terminating pass whose backend may not run makes no call after the lookup and ends with an error. */
  lemma GateHoldsEnd(p: Pass, obj: Sandbox, w: World)
    requires obj.deleting && obj.status.kind != NoType && !Permitted(w.gates, obj.status.kind)
    ensures var (w', copy, outcome) := Reconcile(p, obj, w);
      w' == HandleTemplateSpec(p, obj, w).0 && outcome == Error && copy.meta == obj.meta
  {
    var (w1, resolved, r) := HandleTemplateSpec(p, obj, w);
    assert w1.gates == w.gates && resolved.status.kind == obj.status.kind && resolved.deleting;
  }

  ghost predicate FreeAt(tr: seq<Event>, j: nat, name: string)
    requires j < |tr|
  {
    !TemplateHeld(tr[j].store, name)
  }

  ghost predicate Freed(tr: seq<Event>, from: nat, name: string) {
    exists j :: from <= j < |tr| && FreeAt(tr, j, name)
  }

  lemma UnprotectFrees(p: Pass, template: Template, w: World)
    requires Tidy(w) && Unprotect(p, Some(template), w).1 && template.meta.finalizers != []
    ensures !TemplateHeld(Unprotect(p, Some(template), w).0.store, p.template)
  {
    var fs := template.meta.finalizers;
    ForeignShape(fs);
    PatchTemplateResult(p, fs, Foreign(fs), w);
  }

  lemma UnprotectDoes(p: Pass, template: Option<Template>, w: World)
    requires Tidy(w)
    ensures Does(p, w, Unprotect(p, template, w).0, false, false)
  {
    if template.Some? && UnprotectPatch(template.value.meta.finalizers).Some? {
      PatchTemplateDoes(p, p.template, UnprotectPatch(template.value.meta.finalizers).value, w);
    }
  }

  /** A template that was met free, or is freed by the pass. */
  lemma TerminatingFrees(p: Pass, copy: Sandbox, template: Option<Template>, w: World)
    requires Tidy(w) && HandleTerminating(p, copy, template, w).2
    requires match template
             case None => !TemplateHeld(w.store, p.template)
             case Some(t) => p.template in w.store.templates && w.store.templates[p.template] == t
    ensures var tr := HandleTerminating(p, copy, template, w).0.trace;
      w.trace <= tr && Freed(tr, |w.trace| - 1, p.template)
  {
    var w1 := DeleteChildren(p, copy.status.kind, w).0;
    DeleteChildrenDoes(p, copy.status.kind, w);
    UnprotectDoes(p, template, w1);
    var w2 := Unprotect(p, template, w1).0;
    Then(p, w, w1, w2, false, false);
    if template.Some? && template.value.meta.finalizers != [] {
      UnprotectFrees(p, template.value, w1);
      assert FreeAt(w2.trace, |w2.trace| - 1, p.template);
    } else {
      assert w2.trace[|w.trace| - 1] == w.trace[|w.trace| - 1];
      assert FreeAt(w2.trace, |w.trace| - 1, p.template);
    }
  }

  /** The branch itself. */
  lemma TerminatingIs(p: Pass, obj: Sandbox, w: World)
    requires obj.deleting
    ensures var (w1, resolved, r) := HandleTemplateSpec(p, obj, w);
      r.Resolution? ==>
        var marked := WithReady(WithType(resolved, r.spec), Report(False, ReasonTerminating, ""));
        var (w', copy, ok) := HandleTerminating(p, marked, r.template, w1);
        && marked == obj.(status := marked.status)
        && Reconcile(p, obj, w) == (w', copy, if ok then Requeue(0) else Error)
  {
  }

  lemma RemovedIs(marked: Sandbox, obj: Sandbox)
    requires marked == obj.(status := marked.status)
    ensures FINALIZER !in RemoveFinalizer(marked).meta.finalizers
    ensures Foreign(RemoveFinalizer(marked).meta.finalizers) == Foreign(obj.meta.finalizers)
  {
    ForeignShape(obj.meta.finalizers);
    CarriesIsMember(Foreign(obj.meta.finalizers));
  }

  /** Letting go exactly: a terminating pass ends with an error and leaves the finalizers of the copy alone, or it ends
      without one and takes exactly the controller's finalizer off the copy. Then all its calls were served, and the
      template that the Sandbox names did not carry the finalizer in some store of this pass. */
  lemma LetGoExactly(p: Pass, obj: Sandbox, w: World)
    requires Tidy(w) && obj.deleting && p == PassFor(p.key, obj)
    ensures var (w', copy, outcome) := Reconcile(p, obj, w);
      && copy == obj.(status := copy.status, meta := obj.meta.(finalizers := copy.meta.finalizers))
      && (outcome == Error || outcome == Requeue(0))
      && (outcome == Error ==> copy.meta == obj.meta)
      && (outcome == Requeue(0) ==>
            && FINALIZER !in copy.meta.finalizers && Foreign(copy.meta.finalizers) == Foreign(obj.meta.finalizers)
            && Consumes(w, w') && AllServed(w, w')
            && (obj.spec.templateSpec.None? && obj.spec.template != "" ==>
                  Freed(w'.trace, |w.trace| - 1, obj.spec.template)))
  {
    ReconcileRan(p, obj, w);
    TerminatingIs(p, obj, w);
    LookupDoes(p, obj, w);
    var (w1, resolved, r) := HandleTemplateSpec(p, obj, w);
    if r.Resolution? {
      var marked := WithReady(WithType(resolved, r.spec), Report(False, ReasonTerminating, ""));
      RemovedIs(marked, obj);
      if Reconcile(p, obj, w).2.Requeue? && obj.spec.templateSpec.None? && obj.spec.template != "" {
        TerminatingFrees(p, marked, r.template, w1);
        FreedSooner(w, w1, Reconcile(p, obj, w).0.trace, obj.spec.template);
      }
    }
  }

  lemma FreedSooner(w: World, w1: World, tr: seq<Event>, name: string)
    requires w.trace != [] && w.trace <= w1.trace && Freed(tr, |w1.trace| - 1, name)
    ensures Freed(tr, |w.trace| - 1, name)
  {
  }

  // ---------------------------------------------------------------- the outer pass

  /** What the inner pass leaves to be written back. */
  ghost predicate CopyOf(copy: Sandbox, obj: Sandbox) {
    && copy == obj.(status := copy.status, meta := copy.meta)
    && (|| copy.meta == obj.meta || (!obj.deleting && copy.meta == AddFinalizer(obj).meta)
        || (obj.deleting && copy.meta == RemoveFinalizer(obj).meta))
  }

  lemma ActiveCopy(p: Pass, typed: Sandbox, obj: Sandbox, template: Option<Template>, spec: TemplateSpec, w: World)
    requires typed == obj.(status := typed.status) && !obj.deleting && typed.status.kind != NoType
    ensures CopyOf(HandleActive(p, typed, template, spec, w).1, obj)
  {
  }

  lemma ReconcileCopy(p: Pass, obj: Sandbox, w: World)
    ensures var (w', copy, outcome) := Reconcile(p, obj, w);
      CopyOf(copy, obj) && (outcome == Error && obj.deleting ==> copy.meta == obj.meta)
  {
    var (w1, resolved, r) := HandleTemplateSpec(p, obj, w);
    if r.Resolution? {
      var typed := WithType(resolved, r.spec);
      if obj.deleting {
        TerminatingIs(p, obj, w);
      } else if !IsTTLExpired(typed, w1.store.now) && !r.terminating && r.spec.Some? && typed.status.kind != NoType {
        ActiveCopy(p, typed, obj, r.template, r.spec.value, w1);
      }
    }
  }

  /** A write-back that nobody disturbs stores the copy's status and finalizers; if the status write copied the stored
      metadata back, the finalizers are left for the next pass. */
  lemma UndisturbedUpdate(p: Pass, obj: Sandbox, copy: Sandbox, w: World)
    requires w.script == [] && p.key in w.store.sandboxes && w.store.sandboxes[p.key] == obj && CopyOf(copy, obj)
    ensures var (w', ok) := Update(p, obj, copy, w);
      && ok
      && (p.key in w'.store.sandboxes ==>
            var sb := w'.store.sandboxes[p.key];
            && sb.uid == obj.uid && sb.spec == obj.spec && sb.status == copy.status
            && sb.meta == if w.copyBack && copy.status != obj.status then obj.meta else copy.meta)
      && (!obj.deleting || copy.meta.finalizers != [] ==> p.key in w'.store.sandboxes)
  {
    WriteStatusQuiet(p, obj, copy, w);
    var (w1, written, ok1) := StatusUpdate(p, obj, copy, w);
    assert written.meta == if w.copyBack && copy.status != obj.status then obj.meta else copy.meta;
    if !obj.deleting && obj.meta != written.meta {
      PatchSandboxResult(p, obj.meta, written.meta, w1);
      MetaUpdater.MetaPatchCorrect(obj.meta, written.meta, obj.meta);
    } else {
      ReleaseQuiet(p, obj, written, w1);
    }
  }

  /** A pass that reads no Sandbox does nothing more: one that is gone is no error, a failed read is. */
  lemma NothingToDo(k: Key, w: World)
    ensures var (w1, tick) := Turn(k, w);
      && (tick.fate != Served ==> RunPass(k, w) == (w1, Error))
      && (tick.fate == Served && k !in w1.store.sandboxes ==> RunPass(k, w) == (w1, Requeue(0)))
  {
  }

  /** The outer pass answers what the inner one did, or an error of its own; and it answers just that, when nobody
      disturbs the write-back. */
  lemma OuterAnswers(k: Key, obj: Sandbox, w: World, w1: World)
    requires GetSandbox(k, w) == (w1, Found(obj))
    ensures var (w2, copy, inner) := Reconcile(PassFor(k, obj), obj, w1);
      var (w', outcome) := RunPass(k, w);
      && (outcome == Error || outcome == inner)
      && (w2.script == [] && k in w2.store.sandboxes && w2.store.sandboxes[k] == obj ==> outcome == inner)
  {
    var p := PassFor(k, obj);
    ReconcileCopy(p, obj, w1);
    var (w2, copy, inner) := Reconcile(p, obj, w1);
    if w2.script == [] && k in w2.store.sandboxes && w2.store.sandboxes[k] == obj {
      UndisturbedUpdate(p, obj, copy, w2);
    }
  }

  /** A failed inner pass is written back: when nobody disturbs that, the stored status is the copy's, and so are the
      finalizers, unless the status write copied the stored ones back; the pass still ends with the error. */
  lemma FailureIsStored(k: Key, obj: Sandbox, w: World, w1: World)
    requires GetSandbox(k, w) == (w1, Found(obj)) && Reconcile(PassFor(k, obj), obj, w1).2 == Error
    requires var w2 := Reconcile(PassFor(k, obj), obj, w1).0;
      w2.script == [] && k in w2.store.sandboxes && w2.store.sandboxes[k] == obj
    ensures var (w2, copy, inner) := Reconcile(PassFor(k, obj), obj, w1);
      var (w', outcome) := RunPass(k, w);
      && outcome == Error && IsAt(k, obj.uid, w'.store)
      && var sb := w'.store.sandboxes[k];
         && sb.status == copy.status
         && sb.meta.finalizers
            == if w2.copyBack && copy.status != obj.status then obj.meta.finalizers else copy.meta.finalizers
  {
    var p := PassFor(k, obj);
    ReconcileCopy(p, obj, w1);
    var (w2, copy, inner) := Reconcile(p, obj, w1);
    UndisturbedUpdate(p, obj, copy, w2);
  }

  /** A Sandbox that has gone before its metadata is patched is no error. */
  lemma GonePatchIsNoError(p: Pass, obj: Sandbox, copy: Sandbox, w: World)
    requires obj.status == copy.status && obj.meta != copy.meta
    requires var (w1, tick) := Turn(p.key, w); tick.fate == Served && p.key !in w1.store.sandboxes
    ensures Update(p, obj, copy, w) == (Turn(p.key, w).0, true)
  {
  }
}
