/** What a single pass does, branch by branch, under any script (sandbox_reconciler.go). */
module Branches {
  import opened Types
  import opened Conditions
  import opened Backends
  import opened Cluster
  import opened Passes
  import opened Safety
  import opened ReconcileSafety

  // ---------------------------------------------------------------- time to live

  /** TTL exactness. Let t1 be the clock after the template lookup and t2 the clock after the status was read. Once
      the lookup succeeded, an active Sandbox is deleted by name exactly when t1 is past creation plus TTL; otherwise,
      if children and status are handled, the pass asks to be called again exactly at creation plus TTL, which is in
      the future exactly when t2 has not reached it. */
  lemma TtlExact(p: Pass, obj: Sandbox, w: World)
    requires !obj.deleting && obj.spec.ttl != 0
    ensures var (w1, resolved, r) := HandleTemplateSpec(p, obj, w);
      var (w', copy, outcome) := Reconcile(p, obj, w);
      r.Resolution? ==>
        var typed := WithType(resolved, r.spec);
        if w1.store.now > obj.created + obj.spec.ttl then
          && w' == DeleteSandbox(p, typed, w1).0
          && outcome == (if DeleteSandbox(p, typed, w1).1 then Requeue(0) else Error)
        else if r.terminating || r.spec.None? || typed.status.kind == NoType then
          w' == w1 && outcome == Requeue(0)
        else outcome.Requeue? ==>
          && w'.store.now + outcome.after == obj.created + obj.spec.ttl
          && (outcome.after > 0 <==> w'.store.now < obj.created + obj.spec.ttl)
  {
    var (w1, resolved, r) := HandleTemplateSpec(p, obj, w);
    assert resolved.created == obj.created && resolved.spec == obj.spec;
  }

  /** A pass whose two clock reads enclose the moment of expiry neither deletes nor asks for a later pass: a delay of
      zero or less schedules nothing. */
  lemma TtlGap(p: Pass, obj: Sandbox, w: World)
    requires !obj.deleting && obj.spec.ttl != 0
    requires var (w1, resolved, r) := HandleTemplateSpec(p, obj, w);
      && r.Resolution? && r.spec.Some? && !r.terminating && WithType(resolved, r.spec).status.kind != NoType
      && w1.store.now <= obj.created + obj.spec.ttl
    requires Reconcile(p, obj, w).2.Requeue?
    ensures var (w1, resolved, r) := HandleTemplateSpec(p, obj, w);
      var (w', copy, outcome) := Reconcile(p, obj, w);
      && w' == HandleActive(p, WithType(resolved, r.spec), r.template, r.spec.value, w1).0
      && (outcome.after <= 0 <==> obj.created + obj.spec.ttl <= w'.store.now)
  {
    TtlExact(p, obj, w);
  }

  /** The two functions agree on what is overdue exactly when the TTL is not zero or the Sandbox is not older than the
      clock: with a zero TTL it expires right after creation and is yet never scheduled. */
  lemma TtlAgree(sb: Sandbox, now: int)
    ensures (IsTTLExpired(sb, now) <==> NextSync(sb, now) < 0) <==> (sb.spec.ttl != 0 || now <= sb.created)
  {
  }

  /** That case does not occur: a Sandbox that went through the defaulting webhook has no zero TTL, and no other
      Sandbox can enter a run. */
  lemma {:induction false} TtlNeverZero(k: Key, u: Uid, w: World, i: nat)
    requires Good(k, w) && i < |w.trace| && IsAt(k, u, w.trace[i].store)
    requires k in w.trace[0].store.sandboxes ==> w.trace[0].store.sandboxes[k].spec.ttl != 0
    ensures w.trace[i].store.sandboxes[k].spec.ttl != 0
    decreases i
  {
    if i > 0 {
      var s, t := w.trace[i - 1].store, w.trace[i].store;
      assert StepAt(w.rules, k, w.trace, i);
      if IsAt(k, u, s) {
        TtlNeverZero(k, u, w, i - 1);
      }
    }
  }

  // ---------------------------------------------------------------- the Ready condition

  lemma LookupNeverSaysReady(p: Pass, obj: Sandbox, w: World)
    ensures var resolved := HandleTemplateSpec(p, obj, w).1;
      SaysReady(resolved.status.conditions) ==> resolved.status.conditions == obj.status.conditions
  {
    SetThenGet(ReadyCondition(obj, Report(False, ReasonPending, NOT_FOUND_MESSAGE)), obj.status.conditions);
    SetThenGet(ReadyCondition(obj, Report(False, ReasonTerminating, TerminatingMessage(obj.spec.template))),
               obj.status.conditions);
  }

  lemma EndNeverSaysReady(p: Pass, typed: Sandbox, template: Option<Template>, w: World)
    ensures !SaysReady(HandleTerminating(p, WithReady(typed, Report(False, ReasonTerminating, "")), template, w)
                       .1.status.conditions)
  {
    SetThenGet(ReadyCondition(typed, Report(False, ReasonTerminating, "")), typed.status.conditions);
  }

  /** The workload is stored in a phase that means ready. */
  predicate SeenReady(p: Pass, t: SandboxType, s: Store)
    requires t != NoType
  {
    var key := WorkloadKey(t, p.key.namespace, p.uid);
    key in s.children && PhaseReason(key.kind, s.children[key].phase) == ReasonReady
  }

  lemma ActiveReadyWasSeen(p: Pass, typed: Sandbox, template: Option<Template>, spec: TemplateSpec, w: World)
    requires typed.status.kind != NoType
    requires SaysReady(HandleActive(p, typed, template, spec, w).1.status.conditions)
    ensures var (w', copy, outcome) := HandleActive(p, typed, template, spec, w);
      && copy.status.kind == typed.status.kind
      && (|| copy.status.conditions == typed.status.conditions
          || SeenReady(p, typed.status.kind, w'.store))
  {
    var t := typed.status.kind;
    SetThenGet(ReadyCondition(typed, Report(False, ReasonFailed, "Failed to create sandbox.")),
               typed.status.conditions);
    var (w1, ok, used) := Protect(p, template, spec, w);
    var w2 := Create(p, t, used, w1).0;
    var report := GetStatus(p, t, w2).1;
    if report.Some? {
      ReportTruthful(p, t, w2);
      SetThenGet(ReadyCondition(typed, report.value), typed.status.conditions);
    }
  }

  /** A copy that says Ready either says so since it was read, or saw its workload in a phase that means ready, at
      the end of this very pass. */
  lemma ReadyWasSeen(p: Pass, obj: Sandbox, w: World)
    requires SaysReady(Reconcile(p, obj, w).1.status.conditions)
    ensures var (w', copy, outcome) := Reconcile(p, obj, w);
      || copy.status.conditions == obj.status.conditions
      || (copy.status.kind != NoType && SeenReady(p, copy.status.kind, w'.store))
  {
    LookupNeverSaysReady(p, obj, w);
    LookupLeavesSpec(p, obj, w);
    var (w1, resolved, r) := HandleTemplateSpec(p, obj, w);
    if r.Resolution? {
      var typed := WithType(resolved, r.spec);
      EndNeverSaysReady(p, typed, r.template, w1);
      assert !typed.deleting;
      if !IsTTLExpired(typed, w1.store.now) && !r.terminating && r.spec.Some? && typed.status.kind != NoType {
        ActiveReadyWasSeen(p, typed, r.template, r.spec.value, w1);
      }
    }
  }

  /** A usable spec comes with an untouched copy. */
  lemma LookupLeavesSpec(p: Pass, obj: Sandbox, w: World)
    ensures var (w1, resolved, r) := HandleTemplateSpec(p, obj, w);
      r.Resolution? && r.spec.Some? && !r.terminating ==> resolved == obj
  {
  }

  lemma ActiveKeepsKind(p: Pass, copy: Sandbox, template: Option<Template>, spec: TemplateSpec, w: World)
    requires copy.status.kind != NoType
    ensures HandleActive(p, copy, template, spec, w).1.status.kind == copy.status.kind
  {
  }

  lemma KindKept(p: Pass, obj: Sandbox, w: World)
    requires obj.status.kind != NoType
    ensures Reconcile(p, obj, w).1.status.kind == obj.status.kind
  {
    var (w1, resolved, r) := HandleTemplateSpec(p, obj, w);
    assert resolved.status.kind == obj.status.kind;
    if r.Resolution? {
      var marked := WithReady(resolved, Report(False, ReasonTerminating, ""));
      TerminatingKeepsStatus(p, marked, r.template, w1);
      if r.spec.Some? {
        ActiveKeepsKind(p, resolved, r.template, r.spec.value, w1);
      }
    }
  }

  /** So whenever a pass has a status to store that says Ready, it saw the workload ready. `StatusOk` holds of every
      status that a run stores. */
  lemma ReadyWriteWasSeen(p: Pass, obj: Sandbox, w: World)
    requires StatusOk(obj.status)
    ensures var (w', copy, outcome) := Reconcile(p, obj, w);
      copy.status != obj.status && SaysReady(copy.status.conditions) ==>
        copy.status.kind != NoType && SeenReady(p, copy.status.kind, w'.store)
  {
    var copy := Reconcile(p, obj, w).1;
    if SaysReady(copy.status.conditions) {
      ReadyWasSeen(p, obj, w);
      if obj.status.kind != NoType {
        KindKept(p, obj, w);
      }
    }
  }

  lemma TerminatingKeepsStatus(p: Pass, copy: Sandbox, template: Option<Template>, w: World)
    ensures HandleTerminating(p, copy, template, w).1.status == copy.status
  {
  }

  /** The list says that the Sandbox is terminating. */
  predicate SaysTerminating(generation: int, conditions: seq<Condition>) {
    GetCondition(READY, conditions) == Some(Condition(READY, False, ReasonTerminating, "", generation))
  }

  /** The working copy of a Sandbox being deleted says False and Terminating exactly when the template lookup did not
      fail or the stored status said so before; if the lookup failed, the copy is as it was read and the pass ends
      there. */
  lemma TerminatingIsMarked(p: Pass, obj: Sandbox, w: World)
    requires obj.deleting
    ensures var (w1, resolved, r) := HandleTemplateSpec(p, obj, w);
      var (w', copy, outcome) := Reconcile(p, obj, w);
      && (SaysTerminating(obj.generation, copy.status.conditions) <==>
          r.Resolution? || SaysTerminating(obj.generation, obj.status.conditions))
      && (r.LookupFailed? ==> w' == w1 && copy == obj && outcome == Error)
  {
    var (w1, resolved, r) := HandleTemplateSpec(p, obj, w);
    assert resolved.deleting && resolved.generation == obj.generation;
    if r.Resolution? {
      var typed := WithType(resolved, r.spec);
      var marked := WithReady(typed, Report(False, ReasonTerminating, ""));
      SetThenGet(ReadyCondition(typed, Report(False, ReasonTerminating, "")), typed.status.conditions);
      TerminatingKeepsStatus(p, marked, r.template, w1);
      assert Reconcile(p, obj, w).1 == HandleTerminating(p, marked, r.template, w1).1;
    }
  }

  /** So one failing lookup is enough: a Sandbox that names a template and is deleted before any pass reported on it
      goes through this pass without being marked. */
  lemma TerminatingUnmarked(p: Pass, obj: Sandbox, w: World)
    requires obj.deleting && obj.status.conditions == [] && obj.spec.templateSpec.None? && obj.spec.template != ""
    requires w.script != [] && w.script[0].fate != Served
    ensures var copy := Reconcile(p, obj, w).1;
      copy == obj && !SaysTerminating(obj.generation, copy.status.conditions)
  {
    TerminatingIsMarked(p, obj, w);
    assert HandleTemplateSpec(p, obj, w).2.LookupFailed?;
  }
}
