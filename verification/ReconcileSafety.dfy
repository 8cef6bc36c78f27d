/** From the inner pass to whole runs: every store a run goes through is safe. */
module ReconcileSafety {
  import opened Types
  import opened Conditions
  import opened Finalizers
  import opened Backends
  import opened Cluster
  import opened Passes
  import opened Safety
  import opened Steps
  import opened PassSafety

  // ---------------------------------------------------------------- the working copy

  /** The copy differs from the Sandbox that was read in status and finalizers only, and its status may be stored. */
  ghost predicate CopyOk(rules: Rules, obj: Sandbox, copy: Sandbox) {
    && copy == obj.(status := copy.status, meta := copy.meta)
    && ProperStatus(rules, obj, copy.status)
  }

  predicate Truthful(report: Report) {
    report.status == True <==> report.reason == ReasonReady
  }

  lemma WithReadyOk(rules: Rules, obj: Sandbox, copy: Sandbox, report: Report)
    requires CopyOk(rules, obj, copy) && Truthful(report) && (report.status == True ==> copy.status.kind != NoType)
    ensures CopyOk(rules, obj, WithReady(copy, report)) && WithReady(copy, report).meta == copy.meta
    ensures WithReady(copy, report).status.kind == copy.status.kind
  {
    SetReadyOk(ReadyCondition(copy, report), copy.status.conditions);
    SetThenGet(ReadyCondition(copy, report), copy.status.conditions);
  }

  // ---------------------------------------------------------------- looking up the template

  /** Where the template is inline or held, a Sandbox whose type nobody can tell has no live child. */
  lemma UntypedIsEmpty(rules: Rules, p: Pass, obj: Sandbox, spec: Option<TemplateSpec>, s: Store)
    requires Safe(rules, p.key, s) && p == PassFor(p.key, obj) && Holds(Known(obj), rules, p, s)
    requires Firm(rules, obj) && DetectSandboxType(spec) == NoType
    requires obj.spec.templateSpec.Some? ==> spec == obj.spec.templateSpec
    requires obj.spec.templateSpec.None? && obj.spec.template != "" ==>
      (if p.template in s.templates then spec == Some(s.templates[p.template].spec) else spec == None)
    ensures Holds(NothingLive, rules, p, s)
  {
    if IsAt(p.key, p.uid, s) {
      assert forall ck :: OwnedBy(s, ck, p.uid) ==> Live(s, ck, p.uid) || s.children[ck].deleting;
    }
  }

  /** What a lookup tells in the store it was made in: the template it found, the type of a covered Sandbox, and,
      where the template is inline or held, that a Sandbox without a type has no live child. */
  ghost predicate Informs(rules: Rules, p: Pass, obj: Sandbox, r: Resolution, s: Store) {
    r.Resolution? ==>
      && (r.template.Some? ==> obj.spec.templateSpec.None?)
      && (r.template.None? && r.spec.Some? ==> obj.spec.templateSpec.Some?)
      && (r.template.Some? && Carries(r.template.value.meta.finalizers) ==> Holds(Held, rules, p, s))
      && (Covered(rules, obj) && r.spec.Some? ==> DetectSandboxType(r.spec) == ExpectedType(rules, obj))
      && (Firm(rules, obj) && DetectSandboxType(r.spec) == NoType ==> Holds(NothingLive, rules, p, s))
  }

  lemma LookupInforms(rules: Rules, p: Pass, obj: Sandbox, s: Store)
    requires Safe(rules, p.key, s) && p == PassFor(p.key, obj) && Holds(Known(obj), rules, p, s)
    ensures obj.spec.templateSpec.Some? ==> Informs(rules, p, obj, Resolution(None, obj.spec.templateSpec, false), s)
    ensures obj.spec.templateSpec.None? && (obj.spec.template == "" || p.template !in s.templates) ==>
      Informs(rules, p, obj, Resolution(None, None, false), s)
    ensures obj.spec.templateSpec.None? && obj.spec.template != "" && p.template in s.templates ==>
      var t := s.templates[p.template];
      forall terminating :: Informs(rules, p, obj, Resolution(Some(t), Some(t.spec), terminating), s)
  {
    if Firm(rules, obj) {
      if obj.spec.templateSpec.Some? {
        if DetectSandboxType(obj.spec.templateSpec) == NoType {
          UntypedIsEmpty(rules, p, obj, obj.spec.templateSpec, s);
        }
      } else if obj.spec.template == "" || p.template !in s.templates {
        UntypedIsEmpty(rules, p, obj, None, s);
      } else if DetectSandboxType(Some(s.templates[p.template].spec)) == NoType {
        UntypedIsEmpty(rules, p, obj, Some(s.templates[p.template].spec), s);
      }
    }
  }

  lemma HandleTemplateSpecCopy(p: Pass, obj: Sandbox, rules: Rules, w: World)
    requires CopyOk(rules, obj, obj)
    ensures var resolved := HandleTemplateSpec(p, obj, w).1;
      CopyOk(rules, obj, resolved) && resolved.meta == obj.meta && resolved.status.kind == obj.status.kind
  {
    WithReadyOk(rules, obj, obj, Report(False, ReasonPending, NOT_FOUND_MESSAGE));
    WithReadyOk(rules, obj, obj, Report(False, ReasonTerminating, TerminatingMessage(obj.spec.template)));
  }

  lemma HandleTemplateSpecRunning(p: Pass, obj: Sandbox, fs: set<Fact>, w: World)
    requires Running(p, obj, fs, w)
    ensures var (w1, resolved, r) := HandleTemplateSpec(p, obj, w);
      Running(p, obj, fs, w1) && Continues(w, w1) && Informs(w1.rules, p, obj, r, w1.store)
  {
    TurnRunning(p, obj, fs, w);
    GoodIsSafe(p.key, w);
    LookupInforms(w.rules, p, obj, w.store);
    var w1 := Turn(p.key, w).0;
    GoodIsSafe(p.key, w1);
    LookupInforms(w1.rules, p, obj, w1.store);
  }

  lemma TypedOk(rules: Rules, obj: Sandbox, resolved: Sandbox, spec: Option<TemplateSpec>)
    requires CopyOk(rules, obj, resolved) && resolved.status.kind == obj.status.kind
    requires Covered(rules, obj) && spec.Some? ==> DetectSandboxType(spec) == ExpectedType(rules, obj)
    ensures CopyOk(rules, obj, WithType(resolved, spec)) && WithType(resolved, spec).meta == resolved.meta
  {
  }

  // ---------------------------------------------------------------- protecting and releasing the template

  lemma ProtectRunning(
    p: Pass, obj: Sandbox, fs: set<Fact>, template: Option<Template>, spec: TemplateSpec, w: World)
    requires Running(p, obj, fs, w)
    requires template.Some? && Carries(template.value.meta.finalizers) ==> Holds(Held, w.rules, p, w.store)
    ensures var (w', ok, used) := Protect(p, template, spec, w);
      && Running(p, obj, fs, w') && Continues(w, w')
      && (ok && template.Some? ==> Holds(Held, w'.rules, p, w'.store))
  {
    if template.Some? && !Carries(template.value.meta.finalizers) {
      var was := template.value.meta.finalizers;
      AddedKeepsForeign(was);
      PatchTemplateRunning(p, obj, fs, was, was + [FINALIZER], w);
    }
  }

  lemma UnprotectRunning(p: Pass, obj: Sandbox, fs: set<Fact>, template: Option<Template>, w: World)
    requires Running(p, obj, fs, w) && MayRelease(w.rules, fs)
    ensures var (w', ok) := Unprotect(p, template, w);
      Running(p, obj, fs, w') && Continues(w, w')
  {
    if template.Some? && template.value.meta.finalizers != [] {
      var was := template.value.meta.finalizers;
      ForeignShape(was);
      PatchTemplateRunning(p, obj, fs, was, Foreign(was), w);
    }
  }

  // ---------------------------------------------------------------- the terminating branch

  /** Deleting everything its type handles leaves a covered Sandbox with no live child at all. */
  lemma HandledIsAll(rules: Rules, p: Pass, obj: Sandbox, t: SandboxType, s: Store)
    requires Safe(rules, p.key, s) && p == PassFor(p.key, obj) && Holds(Known(obj), rules, p, s)
    requires Covered(rules, obj) && t != NoType && t == ExpectedType(rules, obj)
    requires Holds(Gone(HandledKinds(t)), rules, p, s)
    ensures Holds(NothingLive, rules, p, s)
  {
    if IsAt(p.key, p.uid, s) {
      assert forall kind :: Handles(t, kind) <==> kind in HandledKinds(t);
      assert forall ck :: OwnedBy(s, ck, p.uid) ==> Live(s, ck, p.uid) || s.children[ck].deleting;
    }
  }

  /** What a terminating pass needs for a Sandbox of this kind has been deleted. */
  ghost predicate Deleted(p: Pass, obj: Sandbox, kind: SandboxType, w: World) {
    AllHold(EmptyFacts(w.rules, obj, kind), w.rules, p, w.store)
  }

  lemma GoneIsClear(rules: Rules, p: Pass, t: SandboxType, s: Store)
    requires t != NoType && Holds(Gone(HandledKinds(t)), rules, p, s)
    ensures Holds(ClearOf(t), rules, p, s)
  {
    assert forall kind :: Handles(t, kind) <==> kind in HandledKinds(t);
  }

  lemma TerminatingDeletes(p: Pass, obj: Sandbox, fs: set<Fact>, t: SandboxType, w: World)
    requires Running(p, obj, fs, w)
    requires Covered(w.rules, obj) ==> t == NoType || t == ExpectedType(w.rules, obj)
    requires t == NoType ==> Deleted(p, obj, NoType, w)
    ensures var (w', ok) := DeleteChildren(p, t, w);
      && Running(p, obj, fs, w') && Continues(w, w') && (ok ==> Deleted(p, obj, t, w'))
  {
    if t != NoType {
      DeleteRunning(p, obj, fs, t, w);
      var (w', ok) := Delete(p, t, w);
      if ok {
        GoneIsClear(w'.rules, p, t, w'.store);
        if Firm(w'.rules, obj) {
          GoodIsSafe(p.key, w');
          HandledIsAll(w'.rules, p, obj, t, w'.store);
        }
      }
    }
  }

  lemma ReleaseRunning(
    p: Pass, obj: Sandbox, fs: set<Fact>, kind: SandboxType, template: Option<Template>, w: World)
    requires Running(p, obj, fs, w) && Held !in fs && Deleting in fs && Deleted(p, obj, kind, w)
    ensures var w' := Unprotect(p, template, w).0;
      Running(p, obj, fs, w') && Continues(w, w') && Deleted(p, obj, kind, w')
  {
    var more := EmptyFacts(w.rules, obj, kind);
    WithFacts(p, obj, fs, more, w);
    UnprotectRunning(p, obj, fs + more, template, w);
    Weaken(p, obj, fs + more, fs, Unprotect(p, template, w).0);
  }

  /** The finalizer comes off the copy only when nothing is alive. */
  lemma HandleTerminatingRunning(
    p: Pass, obj: Sandbox, fs: set<Fact>, copy: Sandbox, template: Option<Template>, w: World)
    requires Running(p, obj, fs, w) && Held !in fs && Deleting in fs
    requires Covered(w.rules, obj) ==> copy.status.kind == NoType || copy.status.kind == ExpectedType(w.rules, obj)
    requires copy.status.kind == NoType ==> Deleted(p, obj, NoType, w)
    ensures var (w', done, ok) := HandleTerminating(p, copy, template, w);
      && Running(p, obj, fs, w') && Continues(w, w')
      && (done == copy || (done == RemoveFinalizer(copy) && Deleted(p, obj, copy.status.kind, w')))
  {
    TerminatingDeletes(p, obj, fs, copy.status.kind, w);
    var (w1, deleted) := DeleteChildren(p, copy.status.kind, w);
    if deleted {
      ReleaseRunning(p, obj, fs, copy.status.kind, template, w1);
    }
  }

  // ---------------------------------------------------------------- the active branch

  /** A status is reported true only for a workload that was just seen in a phase mapped to ready. */
  lemma ReportTruthful(p: Pass, t: SandboxType, w: World)
    requires t != NoType && GetStatus(p, t, w).1.Some?
    ensures Truthful(GetStatus(p, t, w).1.value)
    ensures GetStatus(p, t, w).1.value.status == True ==>
      var key := WorkloadKey(t, p.key.namespace, p.uid);
      var s := GetStatus(p, t, w).0.store;
      key in s.children && PhaseReason(key.kind, s.children[key].phase) == ReasonReady
  {
  }

  lemma HandleActiveCopy(
    p: Pass, obj: Sandbox, rules: Rules, copy: Sandbox, template: Option<Template>, spec: TemplateSpec, w: World)
    requires CopyOk(rules, obj, copy) && copy.meta == obj.meta && copy.status.kind != NoType
    ensures var done := HandleActive(p, copy, template, spec, w).1;
      CopyOk(rules, obj, done) && done.meta == AddFinalizer(obj).meta && done.status.kind == copy.status.kind
  {
    var held := AddFinalizer(copy);
    WithReadyOk(rules, obj, held, Report(False, ReasonFailed, "Failed to create sandbox."));
    var (w1, protected_, used) := Protect(p, template, spec, w);
    var (w2, created) := Create(p, copy.status.kind, used, w1);
    var report := GetStatus(p, copy.status.kind, w2).1;
    if report.Some? {
      ReportTruthful(p, copy.status.kind, w2);
      WithReadyOk(rules, obj, held, report.value);
    }
  }

  lemma GetStatusRunning(p: Pass, obj: Sandbox, fs: set<Fact>, t: SandboxType, w: World)
    requires Running(p, obj, fs, w) && t != NoType
    ensures Running(p, obj, fs, GetStatus(p, t, w).0) && Continues(w, GetStatus(p, t, w).0)
  {
    TurnRunning(p, obj, fs, w);
  }

  predicate ForActive(obj: Sandbox, fs: set<Fact>) {
    && NotReleased in fs && StatusIs(obj.status) in fs && (StillProtected in fs || Unheld in fs)
    && forall f | f in fs :: AboutActive(f)
  }

  lemma CreateAndReportRunning(p: Pass, obj: Sandbox, fs: set<Fact>, held: Sandbox, spec: TemplateSpec, w: World)
    requires Running(p, obj, fs, w) && MayCreate(obj, fs)
    requires held.status.kind != NoType && RightType(w.rules, obj, held.status.kind)
    ensures var w' := CreateAndReport(p, held, spec, w).0;
      Running(p, obj, fs, w') && Continues(w, w')
  {
    var t := held.status.kind;
    CreateRunning(p, obj, fs, t, spec, w);
    var (w1, created) := Create(p, t, spec, w);
    if created {
      GetStatusRunning(p, obj, fs, t, w1);
    }
  }

  lemma HeldCreateRunning(p: Pass, obj: Sandbox, fs: set<Fact>, held: Sandbox, spec: TemplateSpec, w: World)
    requires Running(p, obj, fs, w) && ForActive(obj, fs) && Holds(Held, w.rules, p, w.store)
    requires held.status.kind != NoType && RightType(w.rules, obj, held.status.kind)
    ensures var w' := CreateAndReport(p, held, spec, w).0;
      Running(p, obj, fs, w') && Continues(w, w')
  {
    WithFact(p, obj, fs, Held, w);
    CreateAndReportRunning(p, obj, fs + {Held}, held, spec, w);
    Weaken(p, obj, fs + {Held}, fs, CreateAndReport(p, held, spec, w).0);
  }

  lemma HandleActiveRunning(
    p: Pass, obj: Sandbox, fs: set<Fact>, copy: Sandbox, template: Option<Template>, spec: TemplateSpec, w: World)
    requires Running(p, obj, fs, w) && ForActive(obj, fs) && copy.status.kind != NoType
    requires RightType(w.rules, obj, copy.status.kind)
    requires obj.spec.templateSpec.None? ==> template.Some?
    requires template.Some? && Carries(template.value.meta.finalizers) ==> Holds(Held, w.rules, p, w.store)
    ensures var w' := HandleActive(p, copy, template, spec, w).0;
      Running(p, obj, fs, w') && Continues(w, w')
  {
    var held := AddFinalizer(copy);
    ProtectRunning(p, obj, fs, template, spec, w);
    var (w1, ok, used) := Protect(p, template, spec, w);
    if ok {
      if template.Some? {
        HeldCreateRunning(p, obj, fs, held, used, w1);
      } else {
        CreateAndReportRunning(p, obj, fs, held, used, w1);
      }
    }
  }

  // ---------------------------------------------------------------- the whole pass

  /** What the outer pass may write back. */
  ghost predicate Writable(p: Pass, obj: Sandbox, copy: Sandbox, w: World) {
    && CopyOk(w.rules, obj, copy)
    && (copy.meta == obj.meta || (copy.meta == AddFinalizer(obj).meta && copy.status.kind != NoType)
        || (obj.deleting && copy.meta == RemoveFinalizer(obj).meta && Deleted(p, obj, copy.status.kind, w)))
  }

  lemma TerminatingBranch(p: Pass, obj: Sandbox, fs: set<Fact>, typed: Sandbox, template: Option<Template>, w: World)
    requires Running(p, obj, fs, w) && Held !in fs && Deleting in fs && obj.deleting
    requires CopyOk(w.rules, obj, typed) && typed.meta == obj.meta
    requires typed.status.kind == NoType ==> Deleted(p, obj, NoType, w)
    ensures var (w', copy, ok) :=
        HandleTerminating(p, WithReady(typed, Report(False, ReasonTerminating, "")), template, w);
      Running(p, obj, fs, w') && Continues(w, w') && Writable(p, obj, copy, w')
  {
    var marked := WithReady(typed, Report(False, ReasonTerminating, ""));
    WithReadyOk(w.rules, obj, typed, Report(False, ReasonTerminating, ""));
    HandleTerminatingRunning(p, obj, fs, marked, template, w);
  }

  lemma ActiveBranch(p: Pass, obj: Sandbox, fs: set<Fact>, typed: Sandbox, template: Option<Template>,
                     spec: TemplateSpec, w: World)
    requires Running(p, obj, fs, w) && ForActive(obj, fs) && typed.status.kind != NoType
    requires CopyOk(w.rules, obj, typed) && typed.meta == obj.meta
    requires obj.spec.templateSpec.None? ==> template.Some?
    requires template.Some? && Carries(template.value.meta.finalizers) ==> Holds(Held, w.rules, p, w.store)
    ensures var (w', copy, outcome) := HandleActive(p, typed, template, spec, w);
      Running(p, obj, fs, w') && Continues(w, w') && Writable(p, obj, copy, w')
  {
    HandleActiveCopy(p, obj, w.rules, typed, template, spec, w);
    HandleActiveRunning(p, obj, fs, typed, template, spec, w);
  }

  /** The facts a pass starts from, and those that are left when it writes back. */
  function ReadFacts(obj: Sandbox): set<Fact> {
    {Known(obj), StatusIs(obj.status)} + (if Protected(obj) then {StillProtected} else {})
    + (if obj.deleting then {Deleting} else {NotReleased})
    + (if !obj.deleting && !Protected(obj) then {Unheld} else {})
  }

  function LateFacts(obj: Sandbox): set<Fact> {
    if obj.deleting then ReadFacts(obj) else {Known(obj), StatusIs(obj.status)}
  }

  lemma ActiveResolved(p: Pass, obj: Sandbox, typed: Sandbox, r: Resolution, w: World)
    requires Running(p, obj, ReadFacts(obj), w) && CopyOk(w.rules, obj, typed) && typed.meta == obj.meta
    requires r.Resolution? && Informs(w.rules, p, obj, r, w.store)
    requires typed.status.kind == NoType ==> DetectSandboxType(r.spec) == NoType
    requires !obj.deleting && !IsTTLExpired(typed, w.store.now)
    ensures var (w', copy, outcome) := HandleResolved(p, typed, r, w);
      && Running(p, obj, LateFacts(obj), w') && Continues(w, w') && Writable(p, obj, copy, w')
  {
    var fs, late := ReadFacts(obj), LateFacts(obj);
    if r.terminating || r.spec.None? || typed.status.kind == NoType {
      Weaken(p, obj, fs, late, w);
    } else {
      ActiveBranch(p, obj, fs, typed, r.template, r.spec.value, w);
      Weaken(p, obj, fs, late, HandleActive(p, typed, r.template, r.spec.value, w).0);
    }
  }

  lemma ResolvedRunning(p: Pass, obj: Sandbox, typed: Sandbox, r: Resolution, w: World)
    requires Running(p, obj, ReadFacts(obj), w) && CopyOk(w.rules, obj, typed) && typed.meta == obj.meta
    requires r.Resolution? && Informs(w.rules, p, obj, r, w.store)
    requires typed.status.kind == NoType ==> DetectSandboxType(r.spec) == NoType
    ensures var (w', copy, outcome) := HandleResolved(p, typed, r, w);
      && Running(p, obj, LateFacts(obj), w') && Continues(w, w') && Writable(p, obj, copy, w')
  {
    if typed.deleting {
      TerminatingBranch(p, obj, ReadFacts(obj), typed, r.template, w);
    } else if IsTTLExpired(typed, w.store.now) {
      DeleteSandboxRunning(p, obj, ReadFacts(obj), LateFacts(obj), typed, w);
    } else {
      ActiveResolved(p, obj, typed, r, w);
    }
  }

  lemma ReconcileRunning(p: Pass, obj: Sandbox, w: World)
    requires Running(p, obj, ReadFacts(obj), w) && CopyOk(w.rules, obj, obj)
    ensures var (w', copy, outcome) := Reconcile(p, obj, w);
      && Running(p, obj, LateFacts(obj), w') && Continues(w, w') && Writable(p, obj, copy, w')
  {
    HandleTemplateSpecRunning(p, obj, ReadFacts(obj), w);
    HandleTemplateSpecCopy(p, obj, w.rules, w);
    var (w1, resolved, r) := HandleTemplateSpec(p, obj, w);
    if r.Resolution? {
      TypedOk(w1.rules, obj, resolved, r.spec);
      ResolvedRunning(p, obj, WithType(resolved, r.spec), r, w1);
    } else {
      Weaken(p, obj, ReadFacts(obj), LateFacts(obj), w1);
    }
  }
}
