/** How a Sandbox that carries the finalizer can leave live children behind: exactly when its stored type does not
    handle them. Each case is a whole run that starts with a fresh Sandbox. */
module Leaks {
  import opened Types
  import opened Names
  import opened Volumes
  import opened Finalizers
  import opened Backends
  import opened Cluster
  import opened Passes
  import opened Safety
  import opened Steps
  import opened Runs
  import opened Quiet
  import opened Convergence
  import opened Termination
  import opened Limits
  import opened Scripts
  import MetaUpdater

  // ---------------------------------------------------------------- the start

  predicate FreshSandbox(sb: Sandbox) {
    && sb.spec.template != "" && sb.spec.templateSpec.None? && sb.spec.ttl > 0 && sb.created == 0
    && !sb.deleting && sb.past == Past(false, false) && !Protected(sb) && sb.status == Status(NoType, [])
  }

  predicate PodTemplate(t: Template) {
    t.meta.finalizers == [] && !t.deleting && IsPodSpec(t.spec)
  }

  predicate MachineTemplate(t: Template) {
    && t.meta.finalizers == [] && !t.deleting
    && t.spec.pod.None? && t.spec.vmi.None? && t.spec.vm.Some? && t.spec.volumes == []
  }

  /** A store with one Sandbox and the template it names. */
  function Lone(k: Key, sb: Sandbox, t: Template): Store {
    Store(0, sb.version, {sb.uid}, map[k := sb], map[sb.spec.template := t], map[])
  }

  function StartWorld(rules: Rules, gates: set<Gate>, order: set<ChildKey> -> seq<ChildKey>, s: Store): World {
    World(rules, gates, false, order, [], s, [Event(Outside, s)])
  }

  lemma StartIsSafe(rules: Rules, gates: set<Gate>, order: set<ChildKey> -> seq<ChildKey>, k: Key, sb: Sandbox,
                    t: Template)
    requires FreshSandbox(sb) && StableTypes(rules, Lone(k, sb, t))
    ensures Good(k, StartWorld(rules, gates, order, Lone(k, sb, t)))
  {
    var s := Lone(k, sb, t);
    assert Safe(rules, k, s);
    StartGood(k, StartWorld(rules, gates, order, s));
  }

  function Carrying(t: Template): Template {
    t.(meta := t.meta.(finalizers := [FINALIZER]))
  }

  /** The patch that protects a template lands on the template that has the name by then. */
  lemma ProtectLands(k: Key, sb: Sandbox, first: Template, second: Template, spec: TemplateSpec, w: World, tick: Tick)
    requires first.meta.finalizers == second.meta.finalizers == [] && !second.deleting
    requires w.script != [] && w.script[0] == tick && tick.fate == Served
    requires var (w1, t) := Turn(k, w); sb.spec.template in w1.store.templates
                                        && w1.store.templates[sb.spec.template] == second
    ensures var w1 := Turn(k, w).0;
      var s := w1.store.(templates := w1.store.templates[sb.spec.template := Carrying(second)]);
      Protect(PassFor(k, sb), Some(first), spec, w)
      == (Push(w1, By(PassFor(k, sb)), s), true, if tick.decoded.Some? then tick.decoded.value else spec)
  {
    ApplyFinalizerPatch([], [FINALIZER], second.meta);
    assert [] + [FINALIZER] == [FINALIZER];
    assert ProtectPatch(first.meta.finalizers) == Some(FinalizerPatch([], [FINALIZER]));
  }

  /** The inner pass for a fresh Sandbox and a pod template, when nothing happens but, before the protecting patch,
      what `tick` brings. */
  function PodCopy(sb: Sandbox, spec: TemplateSpec): Sandbox {
    WithReady(AddFinalizer(WithType(sb, Some(spec))), PENDING)
  }

  function Used(spec: TemplateSpec, tick: Tick): TemplateSpec {
    if tick.decoded.Some? then tick.decoded.value else spec
  }

  ghost predicate PodPass(k: Key, sb: Sandbox, first: Template, second: Template, w: World, tick: Tick) {
    && FreshSandbox(sb) && PodTemplate(first) && second.meta.finalizers == [] && !second.deleting
    && w.store == Lone(k, sb, first) && CalmFor(w, 1) && |w.script| >= 6 && w.script[1] == tick
    && tick.fate == Served && tick.env == Lone(k, sb, second) && IsPodSpec(Used(first.spec, tick))
    && Rely(w.rules, k, Lone(k, sb, first), Lone(k, sb, second))
    && (forall i :: 2 <= i < 6 ==> w.script[i] == Calm(0))
    && Enumerates(w.order({}), {})
  }

  function PodStore(k: Key, sb: Sandbox, second: Template, spec: TemplateSpec): Store
    requires IsPodSpec(spec)
  {
    WithPod(PassFor(k, sb), spec, Lone(k, sb, Carrying(second)))
  }

  lemma PodProtect(k: Key, sb: Sandbox, first: Template, second: Template, w: World, tick: Tick)
    requires PodPass(k, sb, first, second, w, tick)
    ensures var w1 := w.(script := w.script[1..]);
      var (w', ok, used) := Protect(PassFor(k, sb), Some(first), first.spec, w1);
      && ok && used == Used(first.spec, tick)
      && w' == w.(script := w.script[2..], store := Lone(k, sb, Carrying(second)), trace := w'.trace)
  {
    var w1 := w.(script := w.script[1..]);
    assert w1.script[0] == tick && w1.script[1..] == w.script[2..];
    ProtectLands(k, sb, first, second, first.spec, w1, tick);
  }

  lemma PodReconcile(k: Key, sb: Sandbox, first: Template, second: Template, w: World, tick: Tick)
    requires PodPass(k, sb, first, second, w, tick)
    ensures var (w', copy, outcome) := Reconcile(PassFor(k, sb), sb, w);
      && w' == w.(script := w.script[6..], store := PodStore(k, sb, second, Used(first.spec, tick)), trace := w'.trace)
      && copy == PodCopy(sb, first.spec)
  {
    var p := PassFor(k, sb);
    CalmTurn(k, w);
    var w1 := w.(script := w.script[1..]);
    assert HandleTemplateSpec(p, sb, w) == (w1, sb, Resolution(Some(first), Some(first.spec), false));
    PodProtect(k, sb, first, second, w, tick);
    var (w2, ok, used) := Protect(p, Some(first), first.spec, w1);
    assert InNamespace(w2.store, PVC, k.namespace) == {};
    var held := AddFinalizer(WithType(sb, Some(first.spec)));
    ReportCalm(p, held, used, w2);
    assert w2.script[4..] == w.script[6..];
    assert Reconcile(p, sb, w) == CreateAndReport(p, held, used, w2);
  }

  // ---------------------------------------------------------------- a template created again with another type

  /** The lookup sees a pod template; before the protecting patch it is deleted and created again for a machine; the
      patch only tests the finalizers, so it lands on the new one; the status write fails at the end. */
  function RaceScript(k: Key, sb: Sandbox, second: Template, decoded: Option<TemplateSpec>): seq<Tick> {
    [Calm(0), Calm(0), Tick(Lone(k, sb, second), Served, false, false, decoded),
     Calm(0), Calm(0), Calm(0), Calm(0), Calm(0).(fate := Refused)]
  }

  ghost predicate RaceCase(sb: Sandbox, first: Template, second: Template, decoded: Option<TemplateSpec>) {
    && FreshSandbox(sb) && PodTemplate(first) && MachineTemplate(second)
    && (decoded.Some? ==> IsPodSpec(decoded.value))
  }

  ghost predicate RaceWorld(k: Key, sb: Sandbox, first: Template, w: World) {
    && w == StartWorld(Rules(true, false, map[]), {DVPGate}, w.order, Lone(k, sb, first))
    && forall keys :: Enumerates(w.order(keys), keys)
  }

  lemma RefusedUpdate(p: Pass, obj: Sandbox, copy: Sandbox, w: World)
    requires w.script == [Calm(w.store.now).(fate := Refused)] && copy.status != obj.status
    ensures Update(p, obj, copy, w).0 == w.(script := [])
  {
    assert w.script[1..] == [];
  }

  lemma RaceRead(k: Key, sb: Sandbox, first: Template, second: Template, decoded: Option<TemplateSpec>, w: World)
    requires RaceCase(sb, first, second, decoded) && RaceWorld(k, sb, first, w)
    ensures var script := RaceScript(k, sb, second, decoded);
      var w1 := w.(script := script[1..]);
      && GetSandbox(k, w.(script := script)) == (w1, Found(sb))
      && PodPass(k, sb, first, second, w1, script[2])
  {
    var script := RaceScript(k, sb, second, decoded);
    CalmTurn(k, w.(script := script));
    RetypeAllowed(k, sb, first, second, w.rules);
  }

  lemma RetypeAllowed(k: Key, sb: Sandbox, first: Template, second: Template, rules: Rules)
    requires FreshSandbox(sb) && first.meta.finalizers == second.meta.finalizers == []
    requires StableTypes(rules, Lone(k, sb, second))
    ensures Rely(rules, k, Lone(k, sb, first), Lone(k, sb, second))
  {
  }

  /** The pass made a live pod, and the type is not stored. */
  lemma RacePass(k: Key, sb: Sandbox, first: Template, second: Template, decoded: Option<TemplateSpec>, w: World,
                 w': World)
    requires RaceCase(sb, first, second, decoded) && RaceWorld(k, sb, first, w)
    requires ByPass(k, w, RaceScript(k, sb, second, decoded), w')
    ensures var used := if decoded.Some? then decoded.value else first.spec;
      w' == w.(script := [], store := PodStore(k, sb, second, used), trace := w'.trace)
  {
    var script := RaceScript(k, sb, second, decoded);
    RaceRead(k, sb, first, second, decoded, w);
    var w1 := w.(script := script[1..]);
    PassIs(k, w.(script := script), sb, w1);
    PodReconcile(k, sb, first, second, w1, script[2]);
    var (w2, copy, outcome) := Reconcile(PassFor(k, sb), sb, w1);
    assert w2.script == [script[7]];
    RefusedUpdate(PassFor(k, sb), sb, copy, w2);
  }

  /** Type agreement fails without the `stable` rule: from now on every pass, terminating ones included, works with the
      other backend, which never looks at pods. */
  lemma RetypedTemplateDisagrees(k: Key, sb: Sandbox, first: Template, second: Template, decoded: Option<TemplateSpec>,
                                 ws: seq<World>)
    requires IsScripted(k, [RaceScript(k, sb, second, decoded)], ws)
    requires RaceCase(sb, first, second, decoded) && RaceWorld(k, sb, first, ws[0])
    ensures IsRun(k, ws) && Good(k, ws[0]) && ws[0].rules.sole
    ensures var s := ws[1].store;
      var pod := WorkloadKey(PodType, k.namespace, sb.uid);
      && s.sandboxes == map[k := sb] && TemplateHeld(s, sb.spec.template) && Live(s, pod, sb.uid)
      && ChosenType(s, sb) == DVPType && !Handles(ChosenType(s, sb), pod.kind)
  {
    ScriptedIsRun(k, [RaceScript(k, sb, second, decoded)], ws);
    StartIsSafe(ws[0].rules, ws[0].gates, ws[0].order, k, sb, first);
    assert FollowsScript(k, [RaceScript(k, sb, second, decoded)], ws, 1);
    RacePass(k, sb, first, second, decoded, ws[0], ws[1]);
  }

  // ---------------------------------------------------------------- and how that Sandbox leaves

  /** The pod is live, while the stored type and the finalizer are there and speak of another backend. */
  ghost predicate Mismatched(k: Key, sb: Sandbox, w: World) {
    && QuietWorld(w) && w.gates == {DVPGate} && w.rules == Rules(true, false, map[]) && k in w.store.sandboxes
    && (var b := w.store.sandboxes[k];
        && b.uid == sb.uid && b.spec == sb.spec && b.status.kind == DVPType
        && b.meta.finalizers == Added(sb.meta.finalizers))
    && Live(w.store, WorkloadKey(PodType, k.namespace, sb.uid), sb.uid)
  }

  lemma RacedIsViable(k: Key, sb: Sandbox, second: Template, used: TemplateSpec, w: World)
    requires FreshSandbox(sb) && MachineTemplate(second) && IsPodSpec(used) && QuietWorld(w) && w.gates == {DVPGate}
    requires w.store == PodStore(k, sb, second, used)
    ensures Viable(k, w) && TypeAt(k, w) == DVPType
  {
    assert forall kind :: MakeVolumes(sb.uid, k.namespace, kind, []) == [];
  }

  /** The next pass works with the machine template: it stores that type and the finalizer, and leaves the pod. */
  lemma MachinePass(k: Key, sb: Sandbox, second: Template, used: TemplateSpec, w: World, w': World)
    requires FreshSandbox(sb) && MachineTemplate(second) && IsPodSpec(used) && QuietWorld(w) && !w.copyBack
    requires w.gates == {DVPGate} && w.rules == Rules(true, false, map[])
    requires w.store == PodStore(k, sb, second, used) && ByPass(k, w, [], w')
    ensures Mismatched(k, sb, w')
  {
    RacedIsViable(k, sb, second, used, w);
    assert w.(script := []) == w;
    PassQuiet(k, w);
    var p := PassFor(k, sb);
    var pod := WorkloadKey(PodType, k.namespace, sb.uid);
    AddKindsIs(p, VolumeKinds(DVPType), second.spec.volumes, w.store.children);
    assert pod in InnerStore(k, w).children && InnerStore(k, w).children[pod] == w.store.children[pod];
  }

  function Mark(k: Key, s: Store): Store
    requires k in s.sandboxes
  {
    s.(sandboxes := s.sandboxes[k := s.sandboxes[k].(deleting := true, version := s.revision + 1)],
       revision := s.revision + 1)
  }

  lemma MarkAllowed(rules: Rules, k: Key, s: Store)
    requires Safe(rules, k, s) && k in s.sandboxes
    ensures Rely(rules, k, s, Mark(k, s))
  {
  }

  /** A user deletes the Sandbox. */
  lemma MarkPass(k: Key, sb: Sandbox, w: World, w': World)
    requires Mismatched(k, sb, w) && Good(k, w) && ByPass(k, w, Meanwhile(Mark(k, w.store)), w')
    ensures Mismatched(k, sb, w') && Ending(k, w')
  {
    GoodIsSafe(k, w);
    MarkAllowed(w.rules, k, w.store);
    FailedRead(k, w, Mark(k, w.store));
  }

  /** The script of the whole run: the race, a pass in peace, the deletion; then everything is quiet. */
  function MismatchScripts(k: Key, sb: Sandbox, second: Template, decoded: Option<TemplateSpec>, ws: seq<World>,
                           quiet: nat): seq<seq<Tick>>
    requires |ws| > 2 && k in ws[2].store.sandboxes
  {
    [RaceScript(k, sb, second, decoded), [], Meanwhile(Mark(k, ws[2].store))] + seq(quiet, i => [])
  }

  ghost predicate MismatchRun(k: Key, sb: Sandbox, first: Template, second: Template, decoded: Option<TemplateSpec>,
                              ws: seq<World>, quiet: nat) {
    && |ws| == quiet + 4 && RaceCase(sb, first, second, decoded) && RaceWorld(k, sb, first, ws[0])
    && k in ws[2].store.sandboxes && IsScripted(k, MismatchScripts(k, sb, second, decoded, ws, quiet), ws)
  }

  /** The first two passes. */
  lemma MismatchMade(k: Key, sb: Sandbox, first: Template, second: Template, decoded: Option<TemplateSpec>,
                     ws: seq<World>, quiet: nat)
    requires MismatchRun(k, sb, first, second, decoded, ws, quiet)
    ensures Mismatched(k, sb, ws[2]) && ByPass(k, ws[2], Meanwhile(Mark(k, ws[2].store)), ws[3])
  {
    var scripts := MismatchScripts(k, sb, second, decoded, ws, quiet);
    assert FollowsScript(k, scripts, ws, 1) && FollowsScript(k, scripts, ws, 2) && FollowsScript(k, scripts, ws, 3);
    RacePass(k, sb, first, second, decoded, ws[0], ws[1]);
    MachinePass(k, sb, second, if decoded.Some? then decoded.value else first.spec, ws[1], ws[2]);
  }

  lemma MismatchGood(k: Key, sb: Sandbox, first: Template, second: Template, decoded: Option<TemplateSpec>,
                     ws: seq<World>, quiet: nat)
    requires MismatchRun(k, sb, first, second, decoded, ws, quiet)
    ensures IsRun(k, ws) && Good(k, ws[0]) && Good(k, ws[2]) && Good(k, ws[3])
  {
    ScriptedIsRun(k, MismatchScripts(k, sb, second, decoded, ws, quiet), ws);
    StartIsSafe(ws[0].rules, ws[0].gates, ws[0].order, k, sb, first);
    RunGood(k, ws, 2);
    RunGood(k, ws, 3);
  }

  lemma MismatchReached(k: Key, sb: Sandbox, first: Template, second: Template, decoded: Option<TemplateSpec>,
                        ws: seq<World>, quiet: nat)
    requires MismatchRun(k, sb, first, second, decoded, ws, quiet)
    ensures IsRun(k, ws) && Good(k, ws[0])
    ensures Mismatched(k, sb, ws[2]) && Good(k, ws[3]) && Mismatched(k, sb, ws[3]) && Ending(k, ws[3])
  {
    MismatchMade(k, sb, first, second, decoded, ws, quiet);
    MismatchGood(k, sb, first, second, decoded, ws, quiet);
    MarkPass(k, sb, ws[2], ws[3]);
  }

  /** Two passes of a run in which nothing is left to happen. */
  lemma QuietPair(k: Key, scripts: seq<seq<Tick>>, ws: seq<World>, m: nat)
    requires IsScripted(k, scripts, ws) && m + 2 < |ws| && scripts[m] == scripts[m + 1] == []
    requires Ending(k, ws[m])
    ensures IsQuietRun(k, [ws[m], ws[m + 1], ws[m + 2]])
  {
    assert FollowsScript(k, scripts, ws, m + 1) && FollowsScript(k, scripts, ws, m + 2);
    assert ws[m].(script := []) == ws[m];
    PassEnds(k, ws[m]);
    assert ws[m + 1].(script := []) == ws[m + 1];
    var tail := [ws[m], ws[m + 1], ws[m + 2]];
    assert FollowsQuietly(k, tail, 1) && FollowsQuietly(k, tail, 2);
  }

  lemma MismatchLeaves(k: Key, sb: Sandbox, ws: seq<World>)
    requires IsQuietRun(k, ws) && |ws| == 3 && Good(k, ws[0]) && Mismatched(k, sb, ws[0]) && Ending(k, ws[0])
    requires sb.meta.finalizers == []
    ensures k !in ws[2].store.sandboxes && Live(ws[2].store, WorkloadKey(PodType, k.namespace, sb.uid), sb.uid)
  {
    assert Added([]) == [FINALIZER];
    OursAlone([FINALIZER]);
    GoodIsSafe(k, ws[0]);
    LeavesExactly(k, ws, WorkloadKey(PodType, k.namespace, sb.uid));
  }

  /** Cleanup safety needs agreement: this Sandbox, the only user of its template, carries the finalizer and has a
      stored type; it leaves with a live child. */
  lemma CleanupNeedsAgreement(k: Key, sb: Sandbox, first: Template, second: Template, decoded: Option<TemplateSpec>,
                              ws: seq<World>)
    requires MismatchRun(k, sb, first, second, decoded, ws, 2) && sb.meta.finalizers == []
    ensures IsRun(k, ws) && Good(k, ws[0]) && ws[0].rules.sole
    ensures CarriesAt(k, sb.uid, ws[2].store) && ws[2].store.sandboxes[k].status.kind != NoType
    ensures k !in ws[5].store.sandboxes
    ensures Live(ws[5].store, WorkloadKey(PodType, k.namespace, sb.uid), sb.uid)
  {
    MismatchReached(k, sb, first, second, decoded, ws, 2);
    QuietPair(k, MismatchScripts(k, sb, second, decoded, ws, 2), ws, 3);
    MismatchLeaves(k, sb, [ws[3], ws[4], ws[5]]);
  }

  lemma PodRemains(k: Key, sb: Sandbox, w: World)
    requires Mismatched(k, sb, w)
    ensures var pod := WorkloadKey(PodType, k.namespace, sb.uid);
      var after := Remaining(PassFor(k, w.store.sandboxes[k]), DVPType, w.store.children);
      pod in after && after[pod] == w.store.children[pod]
  {
    RemainingIs(PassFor(k, w.store.sandboxes[k]), DVPType, w.store.children);
  }

  lemma ForeignStays(sb: Sandbox)
    requires !Protected(sb) && sb.meta.finalizers != []
    ensures Foreign(Added(sb.meta.finalizers)) != []
  {
    AddedKeepsForeign(sb.meta.finalizers);
    ForeignShape(sb.meta.finalizers);
  }

  lemma ReleasedAlive(k: Key, sb: Sandbox, w: World, w': World)
    requires FreshSandbox(sb) && sb.meta.finalizers != []
    requires Mismatched(k, sb, w) && Ending(k, w) && ByPass(k, w, [], w')
    ensures IsAt(k, sb.uid, w'.store) && Live(w'.store, WorkloadKey(PodType, k.namespace, sb.uid), sb.uid)
    ensures !TemplateHeld(w'.store, sb.spec.template)
  {
    assert w.(script := []) == w;
    ForeignStays(sb);
    PodRemains(k, sb, w);
    PassEnds(k, w);
  }

  /** Template protection of a marked Sandbox needs the stable type: one terminating pass lets the template go while
      the Sandbox, held by somebody else's finalizer, is still there with its live child. */
  lemma ProtectionNeedsStable(k: Key, sb: Sandbox, first: Template, second: Template, decoded: Option<TemplateSpec>,
                              ws: seq<World>)
    requires MismatchRun(k, sb, first, second, decoded, ws, 1) && sb.meta.finalizers != []
    ensures IsRun(k, ws) && Good(k, ws[0]) && ws[0].rules.sole
    ensures IsAt(k, sb.uid, ws[4].store)
    ensures Live(ws[4].store, WorkloadKey(PodType, k.namespace, sb.uid), sb.uid)
    ensures !TemplateHeld(ws[4].store, sb.spec.template)
  {
    MismatchReached(k, sb, first, second, decoded, ws, 1);
    assert FollowsScript(k, MismatchScripts(k, sb, second, decoded, ws, 1), ws, 4);
    ReleasedAlive(k, sb, ws[3], ws[4]);
  }

  // ---------------------------------------------------------------- a type that is forgotten

  /** A Sandbox created under the same name, for the same template. */
  predicate IsHeir(a: Sandbox, b: Sandbox) {
    && FreshSandbox(b) && b.uid != a.uid && b.meta.finalizers == [] && b.version == a.version + 2
    && b.spec.template == a.spec.template
  }

  /** The store after the inner pass for `a` and its status write. */
  function AfterStatus(k: Key, a: Sandbox, t: Template): Store
    requires IsPodSpec(t.spec)
  {
    var status := PodCopy(a, t.spec).status;
    WithSandbox(PodStore(k, a, t, t.spec).(revision := a.version), k, Remember(a.(status := status)))
  }

  function Inherited(k: Key, s: Store, b: Sandbox): Store {
    s.(sandboxes := s.sandboxes[k := b], used := s.used + {b.uid}, revision := b.version)
  }

  /** A pass in peace up to its very last call: before the metadata patch the Sandbox goes and its heir comes. */
  function HeirScript(k: Key, a: Sandbox, t: Template, b: Sandbox): seq<Tick>
    requires IsPodSpec(t.spec)
  {
    [Calm(0), Calm(0), Tick(Lone(k, a, t), Served, false, false, None), Calm(0), Calm(0), Calm(0), Calm(0), Calm(0),
     Tick(Inherited(k, AfterStatus(k, a, t), b), Served, false, false, None)]
  }

  /** The heir carries the finalizer, and has no type. */
  function Anointed(b: Sandbox): Sandbox {
    Remember(b.(meta := b.meta.(finalizers := [FINALIZER]))).(version := b.version + 1)
  }

  ghost predicate HeirCase(k: Key, a: Sandbox, t: Template, b: Sandbox, w: World) {
    && FreshSandbox(a) && a.meta.finalizers == [] && PodTemplate(t) && IsHeir(a, b)
    && w == StartWorld(Rules(false, true, map[a.spec.template := PodType]), {}, w.order, Lone(k, a, t))
    && forall keys :: Enumerates(w.order(keys), keys)
  }

  lemma HeirRead(k: Key, a: Sandbox, t: Template, b: Sandbox, w: World)
    requires HeirCase(k, a, t, b, w)
    ensures var script := HeirScript(k, a, t, b);
      var w1 := w.(script := script[1..]);
      && GetSandbox(k, w.(script := script)) == (w1, Found(a)) && PodPass(k, a, t, t, w1, script[2])
  {
    CalmTurn(k, w.(script := HeirScript(k, a, t, b)));
    RetypeAllowed(k, a, t, t, w.rules);
  }

  lemma HeirStatus(k: Key, a: Sandbox, t: Template, w: World)
    requires FreshSandbox(a) && PodTemplate(t) && w.store == PodStore(k, a, t, t.spec)
    requires w.script != [] && w.script[0] == Calm(0)
    ensures StatusUpdate(PassFor(k, a), a, PodCopy(a, t.spec), w)
            == (Push(w.(script := w.script[1..]), By(PassFor(k, a)), AfterStatus(k, a, t)), PodCopy(a, t.spec), true)
  {
    CalmTurn(k, w);
  }

  lemma HeirAllowed(k: Key, a: Sandbox, t: Template, b: Sandbox, rules: Rules)
    requires FreshSandbox(a) && PodTemplate(t) && IsHeir(a, b)
    requires rules == Rules(false, true, map[a.spec.template := PodType])
    ensures Rely(rules, k, AfterStatus(k, a, t), Inherited(k, AfterStatus(k, a, t), b))
  {
  }

  /** After the first pass: the heir carries the finalizer that was meant for its predecessor. */
  function HeirStore(k: Key, a: Sandbox, t: Template, b: Sandbox): Store
    requires IsPodSpec(t.spec)
  {
    WithSandbox(Inherited(k, AfterStatus(k, a, t), b), k, Remember(b.(meta := b.meta.(finalizers := [FINALIZER]))))
  }

  lemma HeirPatch(k: Key, a: Sandbox, t: Template, b: Sandbox, w: World)
    requires FreshSandbox(a) && a.meta.finalizers == [] && PodTemplate(t) && IsHeir(a, b)
    requires w.rules == Rules(false, true, map[a.spec.template := PodType]) && w.store == AfterStatus(k, a, t)
    requires w.script == [Tick(Inherited(k, AfterStatus(k, a, t), b), Served, false, false, None)]
    ensures var w' := MetaUpdate(PassFor(k, a), a, PodCopy(a, t.spec), w).0;
      w' == w.(script := [], store := HeirStore(k, a, t, b), trace := w'.trace)
  {
    HeirAllowed(k, a, t, b, w.rules);
    var will := PodCopy(a, t.spec).meta;
    assert [] + [FINALIZER] == [FINALIZER] && will == a.meta.(finalizers := [FINALIZER]);
    MetaUpdater.MetaPatchCorrect(a.meta, will, b.meta);
    assert w.script[1..] == [];
  }

  lemma HeirPass(k: Key, a: Sandbox, t: Template, b: Sandbox, w: World, w': World)
    requires HeirCase(k, a, t, b, w) && ByPass(k, w, HeirScript(k, a, t, b), w')
    ensures w' == w.(script := [], store := HeirStore(k, a, t, b), trace := w'.trace)
  {
    var script := HeirScript(k, a, t, b);
    var p := PassFor(k, a);
    HeirRead(k, a, t, b, w);
    var w1 := w.(script := script[1..]);
    PassIs(k, w.(script := script), a, w1);
    PodReconcile(k, a, t, t, w1, script[2]);
    var (w2, copy, outcome) := Reconcile(p, a, w1);
    assert w2.script == script[7..] && script[7..][1..] == [script[8]];
    HeirStatus(k, a, t, w2);
    HeirPatch(k, a, t, b, Push(w2.(script := script[8..]), By(p), AfterStatus(k, a, t)));
  }

  // The second pass makes the heir's pod, and its status write is refused.

  const LAST_REFUSED: seq<Tick> :=
    [Calm(0), Calm(0), Calm(0), Calm(0), Calm(0), Calm(0), Calm(0).(fate := Refused)]

  function OrphanStore(k: Key, a: Sandbox, t: Template, b: Sandbox): Store
    requires IsPodSpec(t.spec)
  {
    WithPod(PassFor(k, b), t.spec, HeirStore(k, a, t, b))
  }

  lemma OtherPod(k: Key, a: Sandbox, t: Template, b: Sandbox)
    requires IsPodSpec(t.spec) && IsHeir(a, b)
    ensures WorkloadKey(PodType, k.namespace, b.uid) !in HeirStore(k, a, t, b).children
  {
    assert FullName(a.uid)[8..] == a.uid && FullName(b.uid)[8..] == b.uid;
  }

  lemma OrphanReconcile(k: Key, a: Sandbox, t: Template, b: Sandbox, w: World)
    requires FreshSandbox(a) && PodTemplate(t) && IsHeir(a, b) && w.store == HeirStore(k, a, t, b)
    requires w.script == LAST_REFUSED[1..] && forall keys :: Enumerates(w.order(keys), keys)
    ensures var (w', copy, outcome) := Reconcile(PassFor(k, Anointed(b)), Anointed(b), w);
      && w' == w.(script := [LAST_REFUSED[6]], store := OrphanStore(k, a, t, b), trace := w'.trace)
      && copy.status.kind == PodType
  {
    var h := Anointed(b);
    var p := PassFor(k, h);
    CalmTurn(k, w);
    var w1 := w.(script := w.script[1..]);
    OursAlone([FINALIZER]);
    assert HandleTemplateSpec(p, h, w) == (w1, h, Resolution(Some(Carrying(t)), Some(t.spec), false));
    var held := AddFinalizer(WithType(h, Some(t.spec)));
    assert Protect(p, Some(Carrying(t)), t.spec, w1) == (w1, true, t.spec);
    OtherPod(k, a, t, b);
    ReportCalm(p, held, t.spec, w1);
    assert w1.script[4..] == [LAST_REFUSED[6]];
    assert Reconcile(p, h, w) == CreateAndReport(p, held, t.spec, w1);
  }

  lemma OrphanRead(k: Key, a: Sandbox, t: Template, b: Sandbox, w: World)
    requires IsPodSpec(t.spec) && FreshSandbox(a) && w.store == HeirStore(k, a, t, b)
    ensures GetSandbox(k, w.(script := LAST_REFUSED)) == (w.(script := LAST_REFUSED[1..]), Found(Anointed(b)))
  {
    CalmTurn(k, w.(script := LAST_REFUSED));
  }

  lemma OrphanPass(k: Key, a: Sandbox, t: Template, b: Sandbox, w: World, w': World)
    requires FreshSandbox(a) && PodTemplate(t) && IsHeir(a, b) && w.store == HeirStore(k, a, t, b)
    requires forall keys :: Enumerates(w.order(keys), keys)
    requires ByPass(k, w, LAST_REFUSED, w')
    ensures w' == w.(script := [], store := OrphanStore(k, a, t, b), trace := w'.trace)
  {
    var h := Anointed(b);
    var w1 := w.(script := LAST_REFUSED[1..]);
    OrphanRead(k, a, t, b, w);
    PassIs(k, w.(script := LAST_REFUSED), h, w1);
    OrphanReconcile(k, a, t, b, w1);
    var (w2, copy, outcome) := Reconcile(PassFor(k, h), h, w1);
    RefusedUpdate(PassFor(k, h), h, copy, w2);
  }

  // Then another user of the template lets it go, it is deleted, and so is the heir.

  function Forgotten(k: Key, s: Store): Store
    requires k in s.sandboxes
  {
    Mark(k, s).(templates := map[])
  }

  lemma ForgottenAllowed(rules: Rules, k: Key, s: Store)
    requires Safe(rules, k, s) && k in s.sandboxes && !rules.sole
    ensures Rely(rules, k, s, Forgotten(k, s))
  {
  }

  function ForgottenScripts(k: Key, a: Sandbox, t: Template, b: Sandbox): seq<seq<Tick>>
    requires IsPodSpec(t.spec)
  {
    [HeirScript(k, a, t, b), LAST_REFUSED, Meanwhile(Forgotten(k, OrphanStore(k, a, t, b))), [], []]
  }

  lemma OrphanReached(k: Key, a: Sandbox, t: Template, b: Sandbox, ws: seq<World>)
    requires IsPodSpec(t.spec) && IsScripted(k, ForgottenScripts(k, a, t, b), ws) && HeirCase(k, a, t, b, ws[0])
    ensures ws[1] == ws[0].(script := [], store := HeirStore(k, a, t, b), trace := ws[1].trace)
    ensures ws[2] == ws[0].(script := [], store := OrphanStore(k, a, t, b), trace := ws[2].trace)
    ensures ByPass(k, ws[2], Meanwhile(Forgotten(k, OrphanStore(k, a, t, b))), ws[3])
  {
    var scripts := ForgottenScripts(k, a, t, b);
    assert FollowsScript(k, scripts, ws, 1) && FollowsScript(k, scripts, ws, 2) && FollowsScript(k, scripts, ws, 3);
    HeirPass(k, a, t, b, ws[0], ws[1]);
    OrphanPass(k, a, t, b, ws[1], ws[2]);
  }

  lemma ForgottenGood(k: Key, a: Sandbox, t: Template, b: Sandbox, ws: seq<World>)
    requires IsPodSpec(t.spec) && IsScripted(k, ForgottenScripts(k, a, t, b), ws) && HeirCase(k, a, t, b, ws[0])
    ensures IsRun(k, ws) && Good(k, ws[0]) && Good(k, ws[2]) && Good(k, ws[3])
  {
    ScriptedIsRun(k, ForgottenScripts(k, a, t, b), ws);
    StartIsSafe(ws[0].rules, ws[0].gates, ws[0].order, k, a, t);
    RunGood(k, ws, 2);
    RunGood(k, ws, 3);
  }

  /** The heir, marked, without a type, with a live pod. */
  lemma ForgottenReached(k: Key, a: Sandbox, t: Template, b: Sandbox, ws: seq<World>)
    requires IsPodSpec(t.spec) && IsScripted(k, ForgottenScripts(k, a, t, b), ws) && HeirCase(k, a, t, b, ws[0])
    ensures IsRun(k, ws) && Good(k, ws[0]) && Good(k, ws[3])
    ensures CarriesAt(k, b.uid, ws[1].store)
    ensures ws[3].script == [] && ws[3].order == ws[0].order && ws[3].gates == {}
    ensures ws[3].store == Forgotten(k, OrphanStore(k, a, t, b))
  {
    ForgottenGood(k, a, t, b, ws);
    OrphanReached(k, a, t, b, ws);
    GoodIsSafe(k, ws[2]);
    ForgottenAllowed(ws[2].rules, k, ws[2].store);
    FailedRead(k, ws[2], Forgotten(k, ws[2].store));
    OursAlone([FINALIZER]);
  }

  lemma ForgottenEnds(k: Key, a: Sandbox, t: Template, b: Sandbox, w: World)
    requires IsPodSpec(t.spec) && IsHeir(a, b) && QuietWorld(w) && w.gates == {}
    requires w.store == Forgotten(k, OrphanStore(k, a, t, b))
    ensures Ending(k, w) && w.store.sandboxes[k].uid == b.uid
    ensures Protected(w.store.sandboxes[k]) && Foreign(w.store.sandboxes[k].meta.finalizers) == []
    ensures ChosenType(w.store, w.store.sandboxes[k]) == NoType
    ensures Live(w.store, WorkloadKey(PodType, k.namespace, b.uid), b.uid)
  {
    OursAlone([FINALIZER]);
  }

  lemma UntypedLeaves(k: Key, u: Uid, ws: seq<World>, ck: ChildKey)
    requires IsQuietRun(k, ws) && |ws| == 3 && Good(k, ws[0]) && Ending(k, ws[0])
    requires ws[0].store.sandboxes[k].uid == u
    requires Protected(ws[0].store.sandboxes[k]) && Foreign(ws[0].store.sandboxes[k].meta.finalizers) == []
    requires ChosenType(ws[0].store, ws[0].store.sandboxes[k]) == NoType
    requires Live(ws[0].store, ck, u) && ck.namespace == k.namespace
    ensures k !in ws[2].store.sandboxes && Live(ws[2].store, ck, u)
  {
    GoodIsSafe(k, ws[0]);
    LeavesExactly(k, ws, ck);
  }

  /** Cleanup safety without a stored type needs the template for itself, also when types are stable: the heir carries
      the finalizer, nobody can tell its type, and it leaves with its live pod. */
  lemma CleanupNeedsSole(k: Key, a: Sandbox, t: Template, b: Sandbox, ws: seq<World>)
    requires IsPodSpec(t.spec) && IsScripted(k, ForgottenScripts(k, a, t, b), ws) && HeirCase(k, a, t, b, ws[0])
    ensures IsRun(k, ws) && Good(k, ws[0]) && ws[0].rules.stable
    ensures CarriesAt(k, b.uid, ws[1].store) && k !in ws[5].store.sandboxes
    ensures Live(ws[5].store, WorkloadKey(PodType, k.namespace, b.uid), b.uid)
  {
    ForgottenReached(k, a, t, b, ws);
    ForgottenEnds(k, a, t, b, ws[3]);
    QuietPair(k, ForgottenScripts(k, a, t, b), ws, 3);
    UntypedLeaves(k, b.uid, [ws[3], ws[4], ws[5]], WorkloadKey(PodType, k.namespace, b.uid));
  }
}
