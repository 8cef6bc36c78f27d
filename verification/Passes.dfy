/** One pass of the controller over one Sandbox, as a function of the world it meets: every client call in order,
    each meeting its own tick of the script (sandbox_reconciler.go, the three backends, base_reconciler.go). */
module Passes {
  import opened Types
  import opened Conditions
  import opened Finalizers
  import opened Volumes
  import opened Backends
  import opened Cluster
  import MetaUpdater

  // ---------------------------------------------------------------- volumes

  /** The keys in a listing that the Sandbox controls. */
  function Controlled(u: Uid, listed: seq<(ChildKey, Option<Uid>)>): seq<ChildKey> {
    if listed == [] then []
    else (if listed[0].1 == Some(u) then [listed[0].0] else []) + Controlled(u, listed[1..])
  }

  /** getPVCs, getDVs, getVDs */
  function ListOwned(p: Pass, kind: Kind, w: World): (World, Option<seq<ChildKey>>) {
    var (w1, listed) := ListChildren(p.key, kind, p.key.namespace, w);
    (w1, if listed.None? then None else Some(Controlled(p.uid, listed.value)))
  }

  function CreateMissing(p: Pass, existing: set<ChildKey>, wanted: seq<NewChild>, w: World): (World, bool) {
    if wanted == [] then (w, true)
    else if wanted[0].key in existing then CreateMissing(p, existing, wanted[1..], w)
    else
      var (w1, ok) := CreateChild(p, wanted[0], w);
      if !ok then (w1, false) else CreateMissing(p, existing, wanted[1..], w1)
  }

  function KeySet(keys: seq<ChildKey>): set<ChildKey> {
    set i | 0 <= i < |keys| :: keys[i]
  }

  function CreateVolumes(p: Pass, kind: Kind, wanted: seq<NewChild>, w: World): (World, bool) {
    var (w1, existing) := ListOwned(p, kind, w);
    if existing.None? then (w1, false) else CreateMissing(p, KeySet(existing.value), wanted, w1)
  }

  function CreateKinds(p: Pass, kinds: seq<Kind>, volumes: seq<Volume>, w: World): (World, bool) {
    if kinds == [] then (w, true)
    else
      var (w1, ok) := CreateVolumes(p, kinds[0], MakeVolumes(p.uid, p.key.namespace, kinds[0], volumes), w);
      if !ok then (w1, false) else CreateKinds(p, kinds[1..], volumes, w1)
  }

  function DeleteAll(p: Pass, keys: seq<ChildKey>, w: World): (World, bool) {
    if keys == [] then (w, true)
    else
      var (w1, ok) := DeleteChild(p, keys[0], w);
      if !ok then (w1, false) else DeleteAll(p, keys[1..], w1)
  }

  function DeleteVolumes(p: Pass, kind: Kind, w: World): (World, bool) {
    var (w1, keys) := ListOwned(p, kind, w);
    if keys.None? then (w1, false) else DeleteAll(p, keys.value, w1)
  }

  function DeleteKinds(p: Pass, kinds: seq<Kind>, w: World): (World, bool) {
    if kinds == [] then (w, true)
    else
      var (w1, ok) := DeleteVolumes(p, kinds[0], w);
      if !ok then (w1, false) else DeleteKinds(p, kinds[1..], w1)
  }

  // ---------------------------------------------------------------- Sandboxer: Create, Delete, Status

  function EnsureWorkload(p: Pass, t: SandboxType, spec: TemplateSpec, w: World): (World, bool)
    requires t != NoType
  {
    var key := WorkloadKey(t, p.key.namespace, p.uid);
    var (w1, found) := GetChild(p.key, key, w);
    match found
    case Failed => (w1, false)
    case Found(child) =>
      if PhaseReason(key.kind, child.phase) != ReasonFailed then (w1, true) else DeleteChild(p, key, w1)
    case NotFound =>
      if HasWorkload(t, spec) then CreateChild(p, NewWorkload(t, p.key.namespace, p.uid, spec), w1) else (w1, true)
  }

  function Create(p: Pass, t: SandboxType, spec: TemplateSpec, w: World): (World, bool)
    requires t != NoType
  {
    if !GateOpen(w.gates, t) then (w, false)
    else
      var (w1, ok) := CreateKinds(p, VolumeKinds(t), spec.volumes, w);
      if !ok then (w1, false) else EnsureWorkload(p, t, spec, w1)
  }

  function DeleteWorkload(p: Pass, t: SandboxType, w: World): (World, bool)
    requires t != NoType
  {
    var key := WorkloadKey(t, p.key.namespace, p.uid);
    var (w1, found) := GetChild(p.key, key, w);
    match found
    case Failed => (w1, false)
    case NotFound => (w1, true)
    case Found(_) => DeleteChild(p, key, w1)
  }

  function Delete(p: Pass, t: SandboxType, w: World): (World, bool)
    requires t != NoType
  {
    if !GateOpen(w.gates, t) then (w, false)
    else
      var (w1, ok) := DeleteWorkload(p, t, w);
      if !ok then (w1, false) else DeleteKinds(p, VolumeKinds(t), w1)
  }

  datatype Report = Report(status: ConditionStatus, reason: Reason, message: string)

  function WorkloadReport(kind: Kind, found: Option<Child>): Report {
    match found
    case None => Report(False, ReasonPending, "")
    case Some(child) =>
      match PhaseReason(kind, child.phase)
      case ReasonReady => Report(True, ReasonReady, "")
      case ReasonFailed => Report(False, ReasonFailed, FailureMessage(kind, child))
      case reason => Report(False, reason, "")
  }

  function GetStatus(p: Pass, t: SandboxType, w: World): (World, Option<Report>)
    requires t != NoType
  {
    if !GateOpen(w.gates, t) then (w, None)
    else
      var key := WorkloadKey(t, p.key.namespace, p.uid);
      var (w1, found) := GetChild(p.key, key, w);
      match found
      case Failed => (w1, None)
      case NotFound => (w1, Some(WorkloadReport(key.kind, None)))
      case Found(child) => (w1, Some(WorkloadReport(key.kind, Some(child))))
  }

  // ---------------------------------------------------------------- the inner pass

  datatype Resolution =
    | LookupFailed
    | Resolution(template: Option<Template>, spec: Option<TemplateSpec>, terminating: bool)

  function ReadyCondition(copy: Sandbox, report: Report): Condition {
    Condition(READY, report.status, report.reason, report.message, copy.generation)
  }

  function WithReady(copy: Sandbox, report: Report): Sandbox {
    copy.(status := copy.status.(conditions := SetCondition(ReadyCondition(copy, report), copy.status.conditions)))
  }

  /** The name in this message is empty: it is read from the object that was not found. */
  const NOT_FOUND_MESSAGE := "SandboxTemplate \"\" not found"

  function TerminatingMessage(name: string): string {
    "SandboxTemplate \"" + name + "\" is terminating, rejected for use."
  }

  /** handleTemplateSpec; also returns the working copy. */
  function HandleTemplateSpec(p: Pass, copy: Sandbox, w: World): (World, Sandbox, Resolution) {
    if copy.spec.templateSpec.Some? then (w, copy, Resolution(None, copy.spec.templateSpec, false))
    else if copy.spec.template == "" then (w, copy, Resolution(None, None, false))
    else
      var (w1, found) := GetTemplate(p.key, copy.spec.template, w);
      match found
      case Failed => (w1, copy, LookupFailed)
      case NotFound =>
        (w1, WithReady(copy, Report(False, ReasonPending, NOT_FOUND_MESSAGE)), Resolution(None, None, false))
      case Found(t) =>
        if t.deleting then
          (w1, WithReady(copy, Report(False, ReasonTerminating, TerminatingMessage(copy.spec.template))),
           Resolution(Some(t), Some(t.spec), true))
        else (w1, copy, Resolution(Some(t), Some(t.spec), false))
  }

  /** Also returns the spec to go on with: it is part of the template that the reply is decoded into. */
  function Protect(p: Pass, template: Option<Template>, spec: TemplateSpec, w: World): (World, bool, TemplateSpec) {
    if template.None? then (w, true, spec)
    else
      match ProtectPatch(template.value.meta.finalizers)
      case None => (w, true, spec)
      case Some(ops) =>
        var (w1, ok, decoded) := PatchTemplate(p, p.template, ops, w);
        (w1, ok, if decoded.Some? then decoded.value else spec)
  }

  function Unprotect(p: Pass, template: Option<Template>, w: World): (World, bool) {
    if template.None? then (w, true)
    else
      match UnprotectPatch(template.value.meta.finalizers)
      case None => (w, true)
      case Some(ops) =>
        var (w1, ok, decoded) := PatchTemplate(p, p.template, ops, w);
        (w1, ok)
  }

  function AddFinalizer(copy: Sandbox): Sandbox {
    copy.(meta := copy.meta.(finalizers := Added(copy.meta.finalizers)))
  }

  function RemoveFinalizer(copy: Sandbox): Sandbox {
    copy.(meta := copy.meta.(finalizers := Foreign(copy.meta.finalizers)))
  }

  /** Without a type there is no backend and nothing to delete. */
  function DeleteChildren(p: Pass, t: SandboxType, w: World): (World, bool) {
    if t == NoType then (w, true) else Delete(p, t, w)
  }

  /** handleTerminating: everything is deleted before the template and then the Sandbox are let go. */
  function HandleTerminating(p: Pass, copy: Sandbox, template: Option<Template>, w: World): (World, Sandbox, bool) {
    var (w1, deleted) := DeleteChildren(p, copy.status.kind, w);
    if !deleted then (w1, copy, false)
    else
      var (w2, freed) := Unprotect(p, template, w1);
      if !freed then (w2, copy, false) else (w2, RemoveFinalizer(copy), true)
  }

  predicate IsTTLExpired(copy: Sandbox, now: int) {
    now > copy.created + copy.spec.ttl
  }

  function NextSync(copy: Sandbox, now: int): int {
    if copy.spec.ttl == 0 then 0 else copy.created + copy.spec.ttl - now
  }

  datatype Outcome = Requeue(after: int) | Error

  function FromBool(ok: bool): Outcome {
    if ok then Requeue(0) else Error
  }

  /** Children and status of an active Sandbox. */
  function CreateAndReport(p: Pass, held: Sandbox, spec: TemplateSpec, w: World): (World, Sandbox, Outcome)
    requires held.status.kind != NoType
  {
    var (w1, created) := Create(p, held.status.kind, spec, w);
    if !created then (w1, WithReady(held, Report(False, ReasonFailed, "Failed to create sandbox.")), Error)
    else
      var (w2, report) := GetStatus(p, held.status.kind, w1);
      if report.None? then (w2, held, Error)
      else (w2, WithReady(held, report.value), Requeue(NextSync(held, w2.store.now)))
  }

  /** Finalizers first: its own on the working copy, then the template's in the store. */
  function HandleActive(p: Pass, copy: Sandbox, template: Option<Template>, spec: TemplateSpec, w: World)
    : (World, Sandbox, Outcome)
    requires copy.status.kind != NoType
  {
    var held := AddFinalizer(copy);
    var (w1, protected_, used) := Protect(p, template, spec, w);
    if !protected_ then (w1, held, Error) else CreateAndReport(p, held, used, w1)
  }

  /** The type is fixed the first time a spec is seen. */
  function WithType(copy: Sandbox, spec: Option<TemplateSpec>): Sandbox {
    if copy.status.kind != NoType then copy
    else copy.(status := copy.status.(kind := DetectSandboxType(spec)))
  }

  /** The spec that can be seen in a store: the inline one, or that of the named template. */
  function VisibleSpec(s: Store, sb: Sandbox): Option<TemplateSpec> {
    if sb.spec.templateSpec.Some? then sb.spec.templateSpec
    else if sb.spec.template != "" && sb.spec.template in s.templates then Some(s.templates[sb.spec.template].spec)
    else None
  }

  /** The type that a pass starting in this store would work with. */
  function ChosenType(s: Store, sb: Sandbox): SandboxType {
    WithType(sb, VisibleSpec(s, sb)).status.kind
  }

  /** After the lookup: terminate, expire, wait, or keep going. */
  function HandleResolved(p: Pass, typed: Sandbox, r: Resolution, w: World): (World, Sandbox, Outcome)
    requires r.Resolution?
  {
    if typed.deleting then
      var marked := WithReady(typed, Report(False, ReasonTerminating, ""));
      var (w1, done, ok) := HandleTerminating(p, marked, r.template, w);
      (w1, done, FromBool(ok))
    else if IsTTLExpired(typed, w.store.now) then
      var (w1, ok) := DeleteSandbox(p, typed, w);
      (w1, typed, FromBool(ok))
    else if r.terminating || r.spec.None? || typed.status.kind == NoType then (w, typed, Requeue(0))
    else HandleActive(p, typed, r.template, r.spec.value, w)
  }

  /** Reconciler.Reconcile on a working copy. */
  function Reconcile(p: Pass, copy: Sandbox, w: World): (World, Sandbox, Outcome) {
    var (w1, resolved, r) := HandleTemplateSpec(p, copy, w);
    if r.LookupFailed? then (w1, resolved, Error) else HandleResolved(p, WithType(resolved, r.spec), r, w1)
  }

  // ---------------------------------------------------------------- the outer pass

  /** statusUpdater.Update: write only on difference; also returns the working copy. */
  function StatusUpdate(p: Pass, obj: Sandbox, copy: Sandbox, w: World): (World, Sandbox, bool) {
    if obj.status == copy.status then (w, copy, true)
    else
      var (w1, meta) := UpdateStatus(p, copy, w);
      if meta.None? then (w1, copy, false) else (w1, copy.(meta := meta.value), true)
  }

  /** metaUpdater.Update: a Sandbox that is gone is no error. */
  function MetaUpdate(p: Pass, obj: Sandbox, copy: Sandbox, w: World): (World, bool) {
    if obj.meta == copy.meta then (w, true)
    else
      var (w1, reply) := PatchSandbox(p, MetaUpdater.MetaPatch(obj.meta, copy.meta), w);
      (w1, !reply.Failed?)
  }

  /** BaseReconciler.update */
  function Update(p: Pass, obj: Sandbox, copy: Sandbox, w: World): (World, bool) {
    var (w1, written, ok) := StatusUpdate(p, obj, copy, w);
    if !ok then (w1, false) else MetaUpdate(p, obj, written, w1)
  }

  function PassFor(k: Key, obj: Sandbox): Pass {
    Pass(k, obj.uid, obj.spec.template)
  }

  /** BaseReconciler.Reconcile: what the inner pass made of the copy is written back even when it failed. */
  function RunPass(k: Key, w: World): (World, Outcome) {
    var (w1, found) := GetSandbox(k, w);
    match found
    case Failed => (w1, Error)
    case NotFound => (w1, Requeue(0))
    case Found(obj) =>
      var (w2, copy, outcome) := Reconcile(PassFor(k, obj), obj, w1);
      var (w3, ok) := Update(PassFor(k, obj), obj, copy, w2);
      (w3, if ok then outcome else Error)
  }

  /** `w'` comes from `w` by one pass, whose calls meet these ticks. */
  ghost predicate ByPass(k: Key, w: World, script: seq<Tick>, w': World) {
    w' == RunPass(k, w.(script := script)).0
  }

  /** What meets the calls is settled when the pass starts. */
  ghost predicate BySomePass(k: Key, w: World, w': World) {
    exists script :: ByPass(k, w, script, w')
  }

  /** The i-th world comes from the one before it by one pass, whatever meets its calls. */
  ghost predicate Follows(k: Key, ws: seq<World>, i: nat)
    requires 0 < i < |ws|
  {
    BySomePass(k, ws[i - 1], ws[i])
  }

  /** Any number of passes for one Sandbox, one after the other. */
  ghost predicate IsRun(k: Key, ws: seq<World>) {
    ws != [] && forall i :: 0 < i < |ws| ==> Follows(k, ws, i)
  }

  /** A run whose passes meet these scripts, one each. */
  ghost predicate IsScripted(k: Key, scripts: seq<seq<Tick>>, ws: seq<World>) {
    |ws| == |scripts| + 1 && forall i :: 0 < i < |ws| ==> FollowsScript(k, scripts, ws, i)
  }

  ghost predicate FollowsScript(k: Key, scripts: seq<seq<Tick>>, ws: seq<World>, i: nat)
    requires 0 < i < |ws| == |scripts| + 1
  {
    ByPass(k, ws[i - 1], scripts[i - 1], ws[i])
  }

  lemma ScriptedIsRun(k: Key, scripts: seq<seq<Tick>>, ws: seq<World>)
    requires IsScripted(k, scripts, ws)
    ensures IsRun(k, ws)
  {
    forall i | 0 < i < |ws|
      ensures Follows(k, ws, i)
    {
      assert FollowsScript(k, scripts, ws, i);
    }
  }

  /** A run in which no tick is left: nobody interferes and no call fails. */
  ghost predicate FollowsQuietly(k: Key, ws: seq<World>, i: nat)
    requires 0 < i < |ws|
  {
    ws[i - 1].script == [] && ws[i] == RunPass(k, ws[i - 1]).0
  }

  ghost predicate IsQuietRun(k: Key, ws: seq<World>) {
    ws != [] && forall i :: 0 < i < |ws| ==> FollowsQuietly(k, ws, i)
  }

  lemma QuietRunIsRun(k: Key, ws: seq<World>)
    requires IsQuietRun(k, ws)
    ensures IsRun(k, ws)
  {
    forall i | 0 < i < |ws|
      ensures Follows(k, ws, i)
    {
      assert FollowsQuietly(k, ws, i);
      assert ByPass(k, ws[i - 1], [], ws[i]);
    }
  }
}
