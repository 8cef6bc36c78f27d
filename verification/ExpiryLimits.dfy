/** Where expiry is weaker than it looks: a delete by name can meet a successor, and a pass can straddle the moment of
    expiry (sandbox_reconciler.go). */
module ExpiryLimits {
  import opened Types
  import opened Backends
  import opened Cluster
  import opened Passes
  import opened Safety
  import opened ReconcileSafety
  import opened Runs
  import opened Scripts
  import opened Convergence

  // ---------------------------------------------------------------- the delete meets another Sandbox

  /** Counting from the world in which a pass read `obj`: the expiry delete takes effect on an active Sandbox that is
      not `obj` and has not expired. */
  ghost predicate MeetsAnother(k: Key, obj: Sandbox, w: World) {
    var (w1, resolved, r) := HandleTemplateSpec(PassFor(k, obj), obj, w);
    var (w2, t) := Turn(k, w1);
    && r.Resolution? && IsTTLExpired(obj, w1.store.now) && t.fate != Refused && k in w2.store.sandboxes
    && var v := w2.store.sandboxes[k];
       v.uid != obj.uid && !v.deleting && !Expired(v, w2.store.now)
  }

  lemma ProtectedIsMet(k: Key, obj: Sandbox, w: World)
    requires Good(k, w) && k in w.store.sandboxes && w.store.sandboxes[k] == obj && Protected(obj)
    ensures IsAt(k, obj.uid, Turn(k, HandleTemplateSpec(PassFor(k, obj), obj, w).0).0.store)
  {
    var p := PassFor(k, obj);
    ReadEstablishes(k, w);
    HandleTemplateSpecRunning(p, obj, ReadFacts(obj), w);
    var w1 := HandleTemplateSpec(p, obj, w).0;
    TurnRunning(p, obj, ReadFacts(obj), w1);
    var w2 := Turn(k, w1).0;
    assert Holds(StillProtected, w2.rules, p, w2.store);
  }

  /** A Sandbox created under the same name right now, with time to live and no finalizer. */
  predicate IsSuccessor(s: Store, b: Sandbox) {
    && b.uid !in s.used && b.version == s.revision + 1 && b.created == s.now && b.spec.ttl > 0
    && !b.deleting && b.meta.finalizers == [] && b.past == Past(false, false) && b.status == Status(NoType, [])
  }

  function Replaced(k: Key, s: Store, b: Sandbox): Store {
    s.(sandboxes := s.sandboxes[k := b], used := s.used + {b.uid}, revision := s.revision + 1)
  }

  lemma ReplacedIsAllowed(rules: Rules, k: Key, s: Store, obj: Sandbox, b: Sandbox)
    requires Safe(rules, k, s) && k in s.sandboxes && s.sandboxes[k] == obj && !Protected(obj) && IsSuccessor(s, b)
    ensures Rely(rules, k, s, Replaced(k, s, b))
  {
    var t := Replaced(k, s, b);
    assert forall ck :: ck in s.children && s.children[ck].owner.Some? ==> s.children[ck].owner.value in s.used;
    assert forall ck :: !OwnedBy(t, ck, b.uid);
  }

  predicate LooksUp(obj: Sandbox) {
    obj.spec.templateSpec.None? && obj.spec.template != ""
  }

  /** Nothing happens until the delete; just before it, the expired Sandbox goes and its successor comes. */
  function SuccessorScript(k: Key, s: Store, obj: Sandbox, b: Sandbox): seq<Tick> {
    (if LooksUp(obj) then [Calm(s.now)] else []) + [Tick(Replaced(k, s, b), Served, false, false, None)]
  }

  lemma LookupCalm(k: Key, s: Store, obj: Sandbox, b: Sandbox, w: World)
    requires w.store == s && w.script == SuccessorScript(k, s, obj, b)
    ensures var (w1, resolved, r) := HandleTemplateSpec(PassFor(k, obj), obj, w);
      && r.Resolution? && w1 == w.(script := [Tick(Replaced(k, s, b), Served, false, false, None)])
      && resolved == obj.(status := resolved.status)
  {
    if LooksUp(obj) {
      CalmTurn(k, w);
      assert w.script[1..] == [Tick(Replaced(k, s, b), Served, false, false, None)];
    }
  }

  lemma SuccessorTurn(k: Key, s: Store, obj: Sandbox, b: Sandbox, w: World)
    requires Safe(w.rules, k, s) && k in s.sandboxes && s.sandboxes[k] == obj && !Protected(obj) && IsSuccessor(s, b)
    requires w.store == s && w.script == [Tick(Replaced(k, s, b), Served, false, false, None)]
    ensures Turn(k, w) == (Push(w.(script := []), Outside, Replaced(k, s, b)), w.script[0])
  {
    ReplacedIsAllowed(w.rules, k, s, obj, b);
    assert w.script[1..] == [];
  }

  /** The delete of an expired Sandbox can meet another one exactly when the Sandbox that was read did not carry the
      finalizer: for every safe store with an active expired Sandbox. */
  lemma ExpiryMeetsAnother(k: Key, rules: Rules, s: Store, obj: Sandbox, b: Sandbox)
    requires Safe(rules, k, s) && k in s.sandboxes && s.sandboxes[k] == obj && !obj.deleting && Expired(obj, s.now)
    requires IsSuccessor(s, b)
    ensures (exists w: World :: w.rules == rules && w.store == s && Good(k, w) && MeetsAnother(k, obj, w))
            <==> !Protected(obj)
  {
    if Protected(obj) {
      forall w: World | w.rules == rules && w.store == s && Good(k, w)
        ensures !MeetsAnother(k, obj, w)
      {
        ProtectedIsMet(k, obj, w);
      }
    } else {
      var w := World(rules, {}, false, keys => [], SuccessorScript(k, s, obj, b), s, [Event(Outside, s)]);
      StartGood(k, w);
      LookupCalm(k, s, obj, b, w);
      SuccessorTurn(k, s, obj, b, HandleTemplateSpec(PassFor(k, obj), obj, w).0);
      assert MeetsAnother(k, obj, w);
    }
  }

  lemma GoneUpdate(p: Pass, obj: Sandbox, copy: Sandbox, w: World)
    requires w.script == [] && p.key !in w.store.sandboxes && copy.meta == obj.meta
    ensures Update(p, obj, copy, w).0 == w
  {
  }

  lemma SuccessorDelete(k: Key, s: Store, obj: Sandbox, b: Sandbox, typed: Sandbox, w: World)
    requires Safe(w.rules, k, s) && k in s.sandboxes && s.sandboxes[k] == obj && !Protected(obj) && IsSuccessor(s, b)
    requires w.store == s && w.script == [Tick(Replaced(k, s, b), Served, false, false, None)] && typed.meta == obj.meta
    ensures var (w', ok) := DeleteSandbox(PassFor(k, obj), typed, w);
      var s1 := Replaced(k, s, b);
      var s2 := s1.(sandboxes := s1.sandboxes - {k});
      && w'.script == [] && w'.store == s2
      && w'.trace == w.trace + [Event(Outside, s1)]
                   + [Event(Controller(obj.uid, obj.spec.template, Expire(false)), s2)]
  {
    SuccessorTurn(k, s, obj, b, w);
  }

  lemma SuccessorReconcile(k: Key, s: Store, obj: Sandbox, b: Sandbox, w: World)
    requires Safe(w.rules, k, s) && k in s.sandboxes && s.sandboxes[k] == obj && !Protected(obj) && IsSuccessor(s, b)
    requires !obj.deleting && Expired(obj, s.now) && w.store == s && w.script == SuccessorScript(k, s, obj, b)
    ensures var (w', copy, outcome) := Reconcile(PassFor(k, obj), obj, w);
      var s1 := Replaced(k, s, b);
      var s2 := s1.(sandboxes := s1.sandboxes - {k});
      && copy.meta == obj.meta && w'.script == [] && w'.store == s2
      && w'.trace == w.trace + [Event(Outside, s1)]
                   + [Event(Controller(obj.uid, obj.spec.template, Expire(false)), s2)]
  {
    var p := PassFor(k, obj);
    LookupCalm(k, s, obj, b, w);
    var (w1, resolved, r) := HandleTemplateSpec(p, obj, w);
    var typed := WithType(resolved, r.spec);
    assert !typed.deleting && IsTTLExpired(typed, w1.store.now) && Protected(typed) == Protected(obj);
    assert Reconcile(p, obj, w) == HandleResolved(p, typed, r, w1);
    SuccessorDelete(k, s, obj, b, typed, w1);
  }

  /** The whole run: the pass for the expired Sandbox ends with the delete of its successor, which is active and has
      not expired. */
  lemma SuccessorExpires(k: Key, s: Store, obj: Sandbox, b: Sandbox, ws: seq<World>)
    requires IsScripted(k, [[Calm(s.now)] + SuccessorScript(k, s, obj, b)], ws)
    requires ws[0].store == s && ws[0].trace == [Event(Outside, s)] && Safe(ws[0].rules, k, s)
    requires k in s.sandboxes && s.sandboxes[k] == obj
    requires !obj.deleting && Expired(obj, s.now) && !Protected(obj) && IsSuccessor(s, b)
    ensures IsRun(k, ws) && Good(k, ws[0])
    ensures var tr := History(ws);
      && |tr| == 3 && tr[2].actor == Controller(obj.uid, obj.spec.template, Expire(false))
      && ActiveAt(k, b.uid, tr[1].store) && !Expired(b, tr[1].store.now) && tr[1].store.sandboxes[k] == b
      && k !in tr[2].store.sandboxes && tr[2].store == ws[1].store
  {
    var scripts := [[Calm(s.now)] + SuccessorScript(k, s, obj, b)];
    ScriptedIsRun(k, scripts, ws);
    StartGood(k, ws[0]);
    assert FollowsScript(k, scripts, ws, 1);
    SuccessorPass(k, s, obj, b, ws[0], ws[1]);
  }

  lemma SuccessorPass(k: Key, s: Store, obj: Sandbox, b: Sandbox, w: World, w': World)
    requires ByPass(k, w, [Calm(s.now)] + SuccessorScript(k, s, obj, b), w')
    requires w.store == s && w.trace == [Event(Outside, s)] && Safe(w.rules, k, s)
    requires k in s.sandboxes && s.sandboxes[k] == obj
    requires !obj.deleting && Expired(obj, s.now) && !Protected(obj) && IsSuccessor(s, b)
    ensures var s1 := Replaced(k, s, b);
      var s2 := s1.(sandboxes := s1.sandboxes - {k});
      && w'.store == s2
      && w'.trace == [Event(Outside, s), Event(Outside, s1),
                      Event(Controller(obj.uid, obj.spec.template, Expire(false)), s2)]
  {
    var script := [Calm(s.now)] + SuccessorScript(k, s, obj, b);
    var w0 := w.(script := script);
    CalmTurn(k, w0);
    assert script[1..] == SuccessorScript(k, s, obj, b);
    var w1 := w.(script := script[1..]);
    PassIs(k, w0, obj, w1);
    SuccessorReconcile(k, s, obj, b, w1);
    var (w2, copy, outcome) := Reconcile(PassFor(k, obj), obj, w1);
    GoneUpdate(PassFor(k, obj), obj, copy, w2);
  }

  // ---------------------------------------------------------------- a pass straddles the moment of expiry

  /** Three calm calls, and then time passes. */
  function StraddleScript(s: Store, late: int): seq<Tick> {
    [Calm(s.now), Calm(s.now), Calm(s.now), Tick(s.(now := late), Served, false, false, None)]
  }

  /** An active Sandbox with a pod, no volumes and time to live left, whose pod is there and has not failed. */
  ghost predicate StraddleCase(w: World, k: Key, sb: Sandbox, late: int) {
    && Safe(w.rules, k, w.store) && k in w.store.sandboxes && w.store.sandboxes[k] == sb && !sb.deleting
    && sb.spec.ttl != 0 && sb.spec.templateSpec.Some? && IsPodSpec(sb.spec.templateSpec.value)
    && sb.status.kind in {NoType, PodType}
    && (var pod := WorkloadKey(PodType, k.namespace, sb.uid);
        pod in w.store.children && PhaseReason(Pod, w.store.children[pod].phase) != ReasonFailed)
    && w.store.now <= sb.created + sb.spec.ttl <= late && ListsClaims(w, w.store, k.namespace)
  }

  lemma LaterIsAllowed(rules: Rules, k: Key, s: Store, late: int)
    requires Safe(rules, k, s) && s.now <= late
    ensures Rely(rules, k, s, s.(now := late))
  {
  }

  lemma StatusLate(k: Key, sb: Sandbox, late: int, w: World)
    requires StraddleCase(w, k, sb, late) && w.script == StraddleScript(w.store, late)[3..]
    ensures var (w', report) := GetStatus(PassFor(k, sb), PodType, w);
      report.Some? && w' == w.(script := [], store := w.store.(now := late), trace := w'.trace)
  {
    LaterIsAllowed(w.rules, k, w.store, late);
    assert w.script == [Tick(w.store.(now := late), Served, false, false, None)];
    assert w.script[1..] == [];
  }

  lemma Reports(p: Pass, held: Sandbox, sb: Sandbox, spec: TemplateSpec, late: int, w: World, w1: World, w2: World,
                report: Report)
    requires held == sb.(status := held.status, meta := held.meta) && held.status.kind == PodType && sb.spec.ttl != 0
    requires Create(p, PodType, spec, w) == (w1, true) && GetStatus(p, PodType, w1) == (w2, Some(report))
    requires w2 == w.(script := [], store := w.store.(now := late), trace := w2.trace)
    ensures var (w', copy, outcome) := CreateAndReport(p, held, spec, w);
      && w' == w.(script := [], store := w.store.(now := late), trace := w'.trace)
      && copy == held.(status := copy.status) && outcome == Requeue(sb.created + sb.spec.ttl - late)
  {
  }

  lemma FindsPod(k: Key, sb: Sandbox, late: int, w: World)
    requires StraddleCase(w, k, sb, late) && w.script == StraddleScript(w.store, late)[1..]
    ensures var w1 := w.(script := StraddleScript(w.store, late)[3..]);
      Create(PassFor(k, sb), PodType, sb.spec.templateSpec.value, w) == (w1, true)
  {
    FindPodCalm(PassFor(k, sb), sb.spec.templateSpec.value, w);
    assert w.script[2..] == StraddleScript(w.store, late)[3..];
  }

  lemma ReportLate(k: Key, held: Sandbox, sb: Sandbox, late: int, w: World)
    requires StraddleCase(w, k, sb, late) && w.script == StraddleScript(w.store, late)[1..]
    requires held == sb.(status := held.status, meta := held.meta) && held.status.kind == PodType
    ensures var (w', copy, outcome) := CreateAndReport(PassFor(k, sb), held, sb.spec.templateSpec.value, w);
      && w' == w.(script := [], store := w.store.(now := late), trace := w'.trace)
      && copy == held.(status := copy.status) && outcome == Requeue(sb.created + sb.spec.ttl - late)
  {
    var p := PassFor(k, sb);
    var w1 := w.(script := StraddleScript(w.store, late)[3..]);
    FindsPod(k, sb, late, w);
    StatusLate(k, sb, late, w1);
    var (w2, report) := GetStatus(p, PodType, w1);
    Reports(p, held, sb, sb.spec.templateSpec.value, late, w, w1, w2, report.value);
  }

  lemma ActiveStraddles(k: Key, sb: Sandbox, late: int, w: World)
    requires StraddleCase(w, k, sb, late) && w.script == StraddleScript(w.store, late)[1..]
    ensures var (w', copy, outcome) := Reconcile(PassFor(k, sb), sb, w);
      && w' == w.(script := [], store := w.store.(now := late), trace := w'.trace)
      && copy == sb.(status := copy.status, meta := AddFinalizer(sb).meta)
      && outcome == Requeue(sb.created + sb.spec.ttl - late)
  {
    var p := PassFor(k, sb);
    var spec := sb.spec.templateSpec;
    assert HandleTemplateSpec(p, sb, w) == (w, sb, Resolution(None, spec, false));
    var held := AddFinalizer(WithType(sb, spec));
    ReportLate(k, held, sb, late, w);
    assert Reconcile(p, sb, w) == CreateAndReport(p, held, spec.value, w);
  }

  /** The gap happens: the pass starts in time and ends at or after the moment of expiry. It asks for a delay of zero
      or less, which schedules nothing, and leaves the expired Sandbox stored and unmarked. */
  lemma TtlGapHappens(k: Key, sb: Sandbox, late: int, w: World)
    requires StraddleCase(w, k, sb, late) && w.trace == [Event(Outside, w.store)]
    ensures Good(k, w)
    ensures var (w', outcome) := RunPass(k, w.(script := StraddleScript(w.store, late)));
      var delay := sb.created + sb.spec.ttl - late;
      && delay <= 0 && outcome == Requeue(delay)
      && ActiveAt(k, sb.uid, w'.store) && w'.store.now == late >= sb.created + sb.spec.ttl
  {
    var p := PassFor(k, sb);
    var script := StraddleScript(w.store, late);
    StartGood(k, w);
    CalmTurn(k, w.(script := script));
    var w0 := w.(script := script[1..]);
    assert GetSandbox(k, w.(script := script)) == (w0, Found(sb));
    ActiveStraddles(k, sb, late, w0);
    var (w1, copy, outcome) := Reconcile(p, sb, w0);
    UpdateQuiet(p, sb, copy, w1);
  }
}
