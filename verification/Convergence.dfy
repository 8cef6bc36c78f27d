/** Quiet passes for an active Sandbox: two of them reach a fixed point with everything in place. */
module Convergence {
  import opened Types
  import opened Conditions
  import opened Finalizers
  import opened Volumes
  import opened Backends
  import opened Cluster
  import opened Passes
  import opened Quiet
  import opened Steps
  import MetaUpdater

  function TypeAt(k: Key, w: World): SandboxType
    requires k in w.store.sandboxes
  {
    ChosenType(w.store, w.store.sandboxes[k])
  }

  /** An active Sandbox that has not expired, whose spec can be seen, is admitted and can be built: nobody else holds
      a name it needs. Nothing is assumed about its own children, status, finalizers or about what an earlier pass
      left half done. */
  ghost predicate Viable(k: Key, w: World) {
    && QuietWorld(w) && k in w.store.sandboxes
    && var sb := w.store.sandboxes[k];
       && !sb.deleting && !IsTTLExpired(sb, w.store.now)
       && VisibleSpec(w.store, sb).Some?
       && (sb.spec.templateSpec.None? ==> !w.store.templates[sb.spec.template].deleting)
       && TypeAt(k, w) != NoType
       && CreateReady(PassFor(k, sb), TypeAt(k, w), VisibleSpec(w.store, sb).value, w.gates, w.store.children)
  }

  function WorkloadAt(k: Key, w: World): ChildKey
    requires k in w.store.sandboxes && TypeAt(k, w) != NoType
  {
    WorkloadKey(TypeAt(k, w), k.namespace, w.store.sandboxes[k].uid)
  }

  function ReportFor(key: ChildKey, children: Children): Report {
    WorkloadReport(key.kind, if key in children then Some(children[key]) else None)
  }

  /** The report is the same before and after a workload that was missing is created. */
  lemma ReportSteady(p: Pass, t: SandboxType, spec: TemplateSpec, gates: set<Gate>, children: Children)
    requires CreateReady(p, t, spec, gates, children)
    requires WorkloadRank(WorkloadKey(t, p.key.namespace, p.uid), children) < 2
    ensures var key := WorkloadKey(t, p.key.namespace, p.uid);
      ReportFor(key, NextChildren(p, t, spec, children)) == ReportFor(key, children)
  {
    NextChildrenIs(p, t, spec, gates, children);
  }

  // ---------------------------------------------------------------- the inner pass

  function HeldTemplates(s: Store, sb: Sandbox): map<string, Template>
    requires sb.spec.templateSpec.None? ==> sb.spec.template in s.templates
  {
    if sb.spec.templateSpec.Some? then s.templates
    else
      var t := s.templates[sb.spec.template];
      s.templates[sb.spec.template := t.(meta := t.meta.(finalizers := Added(t.meta.finalizers)))]
  }

  lemma ProtectQuiet(k: Key, w: World)
    requires Viable(k, w)
    ensures var sb := w.store.sandboxes[k];
      var template := if sb.spec.templateSpec.Some? then None else Some(w.store.templates[sb.spec.template]);
      var spec := VisibleSpec(w.store, sb).value;
      var (w', ok, used) := Protect(PassFor(k, sb), template, spec, w);
      && ok && used == spec && w' == Moved(w, w.store.(templates := HeldTemplates(w.store, sb)), w')
      && (sb.spec.templateSpec.None? && Carries(template.value.meta.finalizers) ==>
            w' == w && HeldTemplates(w.store, sb) == w.store.templates)
      && (sb.spec.templateSpec.Some? ==> w' == w)
  {
    var sb := w.store.sandboxes[k];
    if sb.spec.templateSpec.None? {
      var t := w.store.templates[sb.spec.template];
      ApplyFinalizerPatch(t.meta.finalizers, t.meta.finalizers + [FINALIZER], t.meta);
    }
  }

  /** The store after the inner pass: the template is held and the children moved on. */
  function InnerStore(k: Key, w: World): Store
    requires k in w.store.sandboxes && VisibleSpec(w.store, w.store.sandboxes[k]).Some?
    requires TypeAt(k, w) != NoType && HasWorkload(TypeAt(k, w), VisibleSpec(w.store, w.store.sandboxes[k]).value)
  {
    var sb := w.store.sandboxes[k];
    w.store.(templates := HeldTemplates(w.store, sb),
             children := NextChildren(PassFor(k, sb), TypeAt(k, w), VisibleSpec(w.store, sb).value, w.store.children))
  }

  function InnerCopy(k: Key, w: World): Sandbox
    requires k in w.store.sandboxes && VisibleSpec(w.store, w.store.sandboxes[k]).Some?
    requires TypeAt(k, w) != NoType && HasWorkload(TypeAt(k, w), VisibleSpec(w.store, w.store.sandboxes[k]).value)
  {
    var sb := w.store.sandboxes[k];
    WithReady(AddFinalizer(WithType(sb, VisibleSpec(w.store, sb))),
              ReportFor(WorkloadAt(k, w), InnerStore(k, w).children))
  }

  /** Nothing is left to do but status and finalizer of the Sandbox itself. */
  ghost predicate Built(k: Key, w: World) {
    && Viable(k, w)
    && var sb := w.store.sandboxes[k];
       && Complete(PassFor(k, sb), TypeAt(k, w), VisibleSpec(w.store, sb).value, w.store.children)
       && (sb.spec.templateSpec.None? ==> Carries(w.store.templates[sb.spec.template].meta.finalizers))
  }

  lemma GetStatusQuiet(p: Pass, t: SandboxType, w: World)
    requires w.script == [] && t != NoType && GateOpen(w.gates, t)
    ensures GetStatus(p, t, w) == (w, Some(ReportFor(WorkloadKey(t, p.key.namespace, p.uid), w.store.children)))
  {
  }

  lemma HandleActiveQuiet(k: Key, w: World)
    requires Viable(k, w)
    ensures var sb := w.store.sandboxes[k];
      var template := if sb.spec.templateSpec.Some? then None else Some(w.store.templates[sb.spec.template]);
      var spec := VisibleSpec(w.store, sb);
      var (w', copy, outcome) := HandleActive(PassFor(k, sb), WithType(sb, spec), template, spec.value, w);
      && w' == Moved(w, InnerStore(k, w), w') && copy == InnerCopy(k, w) && outcome.Requeue?
      && (Built(k, w) ==> w' == w)
  {
    var sb := w.store.sandboxes[k];
    var p := PassFor(k, sb);
    var spec := VisibleSpec(w.store, sb);
    var t := TypeAt(k, w);
    var template := if sb.spec.templateSpec.Some? then None else Some(w.store.templates[sb.spec.template]);
    ProtectQuiet(k, w);
    var w1 := Protect(p, template, spec.value, w).0;
    CreateQuiet(p, t, spec.value, w1);
    var w2 := Create(p, t, spec.value, w1).0;
    assert w2.store == InnerStore(k, w);
    GetStatusQuiet(p, t, w2);
  }

  lemma ReconcileQuiet(k: Key, w: World)
    requires Viable(k, w)
    ensures var sb := w.store.sandboxes[k];
      var (w', copy, outcome) := Reconcile(PassFor(k, sb), sb, w);
      && w' == Moved(w, InnerStore(k, w), w') && copy == InnerCopy(k, w) && outcome.Requeue?
      && (Built(k, w) ==> w' == w)
  {
    HandleActiveQuiet(k, w);
  }

  // ---------------------------------------------------------------- the outer pass

  /** The stored Sandbox after the outer pass wrote back a copy; its version and past are the server's. */
  function Written(copyBack: bool, obj: Sandbox, copy: Sandbox, version: nat, past: Past): Sandbox {
    obj.(status := copy.status, meta := if copyBack && obj.status != copy.status then obj.meta else copy.meta,
         version := version, past := past)
  }

  lemma UpdateQuiet(p: Pass, obj: Sandbox, copy: Sandbox, w: World)
    requires w.script == [] && p.key in w.store.sandboxes && w.store.sandboxes[p.key] == obj && !obj.deleting
    requires copy == obj.(status := copy.status, meta := AddFinalizer(obj).meta)
    ensures var (w', ok) := Update(p, obj, copy, w);
      && ok && p.key in w'.store.sandboxes
      && var sb := w'.store.sandboxes[p.key];
         && sb == Written(w.copyBack, obj, copy, sb.version, sb.past)
         && w' == Moved(w, w.store.(sandboxes := w.store.sandboxes[p.key := sb], revision := w'.store.revision), w')
         && (obj.status == copy.status && obj.meta == copy.meta ==> w' == w)
  {
    var (w1, written, ok1) := StatusUpdate(p, obj, copy, w);
    assert ok1;
    if obj.meta != written.meta {
      PatchSandboxResult(p, obj.meta, written.meta, w1);
      MetaUpdater.MetaPatchCorrect(obj.meta, written.meta, w1.store.sandboxes[p.key].meta);
    }
  }

  /** The stored status names the type and reports the workload as it is. */
  ghost predicate Reported(k: Key, w: World) {
    && k in w.store.sandboxes && TypeAt(k, w) != NoType
    && var sb := w.store.sandboxes[k];
       && sb.status.kind == TypeAt(k, w)
       && GetCondition(READY, sb.status.conditions)
          == Some(ReadyCondition(sb, ReportFor(WorkloadAt(k, w), w.store.children)))
  }

  /** One quiet pass from any viable store. */
  lemma PassQuiet(k: Key, w: World)
    requires Viable(k, w)
    ensures var w' := RunPass(k, w).0;
      && k in w'.store.sandboxes
      && var sb, sb' := w.store.sandboxes[k], w'.store.sandboxes[k];
         && sb' == Written(w.copyBack, sb, InnerCopy(k, w), sb'.version, sb'.past)
         && w' == Moved(w, InnerStore(k, w).(sandboxes := w.store.sandboxes[k := sb'], revision := w'.store.revision),
                        w')
         && (Built(k, w) && sb.status == InnerCopy(k, w).status && sb.meta == InnerCopy(k, w).meta ==> w' == w)
  {
    ReconcileQuiet(k, w);
    var obj := w.store.sandboxes[k];
    var p := PassFor(k, obj);
    var (w2, copy, outcome) := Reconcile(p, obj, w);
    UpdateQuiet(p, obj, copy, w2);
  }

  /** After one quiet pass every volume exists, the template is held, the status is right, and the workload is one
      step closer; the finalizer is stored unless this pass also wrote a status that was copied back. */
  lemma OnePass(k: Key, w: World)
    requires Viable(k, w)
    ensures var w' := RunPass(k, w).0;
      && Viable(k, w') && Reported(k, w') && TypeAt(k, w') == TypeAt(k, w)
      && w'.store.sandboxes[k].uid == w.store.sandboxes[k].uid
      && w'.store.children == InnerStore(k, w).children
      && AllPresent(PassFor(k, w'.store.sandboxes[k]), VolumeKinds(TypeAt(k, w')),
                    VisibleSpec(w'.store, w'.store.sandboxes[k]).value.volumes, w'.store.children)
      && WorkloadRank(WorkloadAt(k, w'), w'.store.children) ==
         (if WorkloadRank(WorkloadAt(k, w), w.store.children) == 0 then 0
          else WorkloadRank(WorkloadAt(k, w), w.store.children) - 1)
      && (w'.store.sandboxes[k].spec.templateSpec.None? ==>
            Carries(w'.store.templates[w'.store.sandboxes[k].spec.template].meta.finalizers))
      && (w.store.sandboxes[k].status == InnerCopy(k, w).status || !w.copyBack ==> Protected(w'.store.sandboxes[k]))
      && (Protected(w.store.sandboxes[k]) ==> w'.store.sandboxes[k].meta == w.store.sandboxes[k].meta)
  {
    PassQuiet(k, w);
    var sb := w.store.sandboxes[k];
    var p := PassFor(k, sb);
    var t := TypeAt(k, w);
    var spec := VisibleSpec(w.store, sb).value;
    NextChildrenIs(p, t, spec, w.gates, w.store.children);
    AddedKeepsForeign(sb.meta.finalizers);
    if sb.spec.templateSpec.None? {
      AddedKeepsForeign(w.store.templates[sb.spec.template].meta.finalizers);
    }
    SetThenGet(ReadyCondition(sb, ReportFor(WorkloadAt(k, w), InnerStore(k, w).children)), sb.status.conditions);
    var w' := RunPass(k, w).0;
    var sb' := w'.store.sandboxes[k];
    assert VisibleSpec(w'.store, sb') == VisibleSpec(w.store, sb);
    assert PassFor(k, sb') == p;
  }

  /** How far the children of a viable Sandbox are from complete: missing volumes first, then the workload. */
  ghost function Missing(k: Key, w: World): nat
    requires Viable(k, w)
  {
    |MissingKeys(PassFor(k, w.store.sandboxes[k]), VolumeKinds(TypeAt(k, w)),
                 VisibleSpec(w.store, w.store.sandboxes[k]).value.volumes, w.store.children)|
  }

  function MissingKeys(p: Pass, kinds: seq<Kind>, volumes: seq<Volume>, children: Children): set<ChildKey> {
    set i, j | 0 <= i < |kinds| && 0 <= j < |MakeVolumes(p.uid, p.key.namespace, kinds[i], volumes)|
               && MakeVolumes(p.uid, p.key.namespace, kinds[i], volumes)[j].key !in children ::
      MakeVolumes(p.uid, p.key.namespace, kinds[i], volumes)[j].key
  }

  function Rank(k: Key, w: World): nat
    requires k in w.store.sandboxes && TypeAt(k, w) != NoType
  {
    WorkloadRank(WorkloadAt(k, w), w.store.children)
  }

  lemma MissingNone(p: Pass, kinds: seq<Kind>, volumes: seq<Volume>, children: Children)
    ensures |MissingKeys(p, kinds, volumes, children)| == 0 <==> AllPresent(p, kinds, volumes, children)
  {
    var missing := MissingKeys(p, kinds, volumes, children);
    if AllPresent(p, kinds, volumes, children) {
      assert missing == {};
    }
    if |missing| == 0 {
      forall i, j | 0 <= i < |kinds| && 0 <= j < |MakeVolumes(p.uid, p.key.namespace, kinds[i], volumes)|
        ensures MakeVolumes(p.uid, p.key.namespace, kinds[i], volumes)[j].key in children
      {
        assert MakeVolumes(p.uid, p.key.namespace, kinds[i], volumes)[j].key !in missing;
      }
    }
  }

  lemma {:induction false} StaysViable(k: Key, ws: seq<World>, i: nat)
    requires IsQuietRun(k, ws) && Viable(k, ws[0]) && i < |ws|
    ensures Viable(k, ws[i])
  {
    if i > 0 {
      StaysViable(k, ws, i - 1);
      assert FollowsQuietly(k, ws, i);
      OnePass(k, ws[i - 1]);
    }
  }

  /** The measure: the pair (missing volumes, workload rank) strictly decreases in every pass of a quiet run until it
      is zero, from any store, including one that a volume loop left half done. */
  lemma MeasureDecreases(k: Key, ws: seq<World>, i: nat)
    requires IsQuietRun(k, ws) && Viable(k, ws[0]) && 0 < i < |ws|
    ensures Viable(k, ws[i - 1]) && Viable(k, ws[i])
    ensures Missing(k, ws[i]) == 0
    ensures Rank(k, ws[i]) == if Rank(k, ws[i - 1]) == 0 then 0 else Rank(k, ws[i - 1]) - 1
    ensures (Missing(k, ws[i - 1]), Rank(k, ws[i - 1])) != (0, 0) ==>
      || Missing(k, ws[i]) < Missing(k, ws[i - 1])
      || (Missing(k, ws[i]) == Missing(k, ws[i - 1]) && Rank(k, ws[i]) < Rank(k, ws[i - 1]))
  {
    StaysViable(k, ws, i - 1);
    assert FollowsQuietly(k, ws, i);
    OnePass(k, ws[i - 1]);
    var w := ws[i];
    var sb := w.store.sandboxes[k];
    MissingNone(PassFor(k, sb), VolumeKinds(TypeAt(k, w)), VisibleSpec(w.store, sb).value.volumes, w.store.children);
  }

  /** Everything is in place: children, template finalizer, own finalizer and status. */
  ghost predicate Settled(k: Key, w: World) {
    Built(k, w) && Reported(k, w) && Protected(w.store.sandboxes[k])
  }

  /** A reported status survives a pass that does not find the workload failed. */
  lemma StatusSteady(k: Key, w: World)
    requires Viable(k, w) && Reported(k, w) && Rank(k, w) < 2
    ensures w.store.sandboxes[k].status == InnerCopy(k, w).status
  {
    var sb := w.store.sandboxes[k];
    ReportSteady(PassFor(k, sb), TypeAt(k, w), VisibleSpec(w.store, sb).value, w.gates, w.store.children);
    SetTwice(ReadyCondition(sb, ReportFor(WorkloadAt(k, w), w.store.children)), sb.status.conditions);
  }

  lemma SettledStep(k: Key, ws: seq<World>, i: nat)
    requires 0 < i < |ws| && FollowsQuietly(k, ws, i) && Settled(k, ws[i - 1])
    ensures ws[i] == ws[i - 1]
  {
    StatusSteady(k, ws[i - 1]);
    PassQuiet(k, ws[i - 1]);
  }

  /** A settled store is a fixed point: no further pass writes anything at all. */
  lemma {:induction false} SettledIsFixed(k: Key, ws: seq<World>, m: nat, i: nat)
    requires IsQuietRun(k, ws) && m <= i < |ws| && Settled(k, ws[m])
    ensures ws[i] == ws[m]
    decreases i
  {
    if m < i {
      SettledIsFixed(k, ws, m, i - 1);
      SettledStep(k, ws, i);
    }
  }

  /** Convergence: two quiet passes settle any viable store, whatever earlier passes left behind and whether or not
      status writes copy metadata back; every longer quiet run ends there. */
  lemma RunsSettle(k: Key, ws: seq<World>, i: nat)
    requires IsQuietRun(k, ws) && Viable(k, ws[0]) && 2 <= i < |ws|
    ensures Settled(k, ws[2]) && ws[i] == ws[2]
  {
    assert FollowsQuietly(k, ws, 1) && FollowsQuietly(k, ws, 2);
    OnePass(k, ws[0]);
    StatusSteady(k, ws[1]);
    OnePass(k, ws[1]);
    SettledIsFixed(k, ws, 2, i);
  }
}
