/** Runs spelled out call by call: what an active pass for a pod without volumes does when nothing happens before its
    calls, and how outside events come between passes. */
module Scripts {
  import opened Types
  import opened Volumes
  import opened Backends
  import opened Cluster
  import opened Passes

  /** Nothing happens before this call: the proposed store is older than the clock, so it is never taken. */
  function Calm(now: int): Tick {
    Tick(Store(now - 1, 0, {}, map[], map[], map[]), Served, false, false, None)
  }

  lemma CalmTurn(k: Key, w: World)
    requires w.script != [] && w.script[0] == Calm(w.store.now)
    ensures Turn(k, w) == (w.(script := w.script[1..]), w.script[0])
  {
  }

  /** The first `n` calls are calm. */
  predicate CalmFor(w: World, n: nat) {
    n <= |w.script| && forall i :: 0 <= i < n ==> w.script[i] == Calm(w.store.now)
  }

  /** The server's list of the claims in a namespace is complete. */
  ghost predicate ListsClaims(w: World, s: Store, namespace: string) {
    Enumerates(w.order(InNamespace(s, PVC, namespace)), InNamespace(s, PVC, namespace))
  }

  lemma NoVolumesCalm(p: Pass, w: World)
    requires CalmFor(w, 1) && ListsClaims(w, w.store, p.key.namespace)
    ensures CreateKinds(p, [PVC], [], w) == (w.(script := w.script[1..]), true)
  {
    CalmTurn(p.key, w);
    var w1 := w.(script := w.script[1..]);
    assert MakeVolumes(p.uid, p.key.namespace, PVC, []) == [];
    assert CreateVolumes(p, PVC, [], w) == (w1, true);
    assert CreateKinds(p, [PVC][1..], [], w1) == (w1, true);
  }

  predicate IsPodSpec(spec: TemplateSpec) {
    spec.pod.Some? && spec.volumes == []
  }

  function WithPod(p: Pass, spec: TemplateSpec, s: Store): Store
    requires IsPodSpec(spec)
  {
    var new_ := NewWorkload(PodType, p.key.namespace, p.uid, spec);
    s.(children := s.children[new_.key := new_.child])
  }

  /** Three calm calls create a missing pod. */
  lemma CreatePodCalm(p: Pass, spec: TemplateSpec, w: World)
    requires IsPodSpec(spec) && CalmFor(w, 3) && ListsClaims(w, w.store, p.key.namespace)
    requires WorkloadKey(PodType, p.key.namespace, p.uid) !in w.store.children
    ensures Create(p, PodType, spec, w)
            == (Push(w.(script := w.script[3..]), By(p), WithPod(p, spec, w.store)), true)
  {
    NoVolumesCalm(p, w);
    var w1 := w.(script := w.script[1..]);
    CalmTurn(p.key, w1);
    var w2 := w.(script := w.script[2..]);
    assert w1.script[1..] == w2.script;
    CalmTurn(p.key, w2);
    assert w2.script[1..] == w.script[3..];
  }

  /** Two calm calls find a pod that has not failed. */
  lemma FindPodCalm(p: Pass, spec: TemplateSpec, w: World)
    requires IsPodSpec(spec) && CalmFor(w, 2) && ListsClaims(w, w.store, p.key.namespace)
    requires var key := WorkloadKey(PodType, p.key.namespace, p.uid);
      key in w.store.children && PhaseReason(Pod, w.store.children[key].phase) != ReasonFailed
    ensures Create(p, PodType, spec, w) == (w.(script := w.script[2..]), true)
  {
    NoVolumesCalm(p, w);
    var w1 := w.(script := w.script[1..]);
    CalmTurn(p.key, w1);
    assert w1.script[1..] == w.script[2..];
  }

  const PENDING := Report(False, ReasonPending, "")

  lemma NewPodPending(p: Pass, spec: TemplateSpec, w: World)
    requires IsPodSpec(spec) && CalmFor(w, 1) && w.store == WithPod(p, spec, w.store)
    ensures GetStatus(p, PodType, w) == (w.(script := w.script[1..]), Some(PENDING))
  {
    CalmTurn(p.key, w);
  }

  /** Four calm calls create a missing pod and report it as pending. */
  lemma ReportCalm(p: Pass, held: Sandbox, spec: TemplateSpec, w: World)
    requires held.status.kind == PodType && IsPodSpec(spec) && CalmFor(w, 4)
    requires ListsClaims(w, w.store, p.key.namespace)
    requires WorkloadKey(PodType, p.key.namespace, p.uid) !in w.store.children
    ensures var (w', copy, outcome) := CreateAndReport(p, held, spec, w);
      && w' == Push(w.(script := w.script[4..]), By(p), WithPod(p, spec, w.store))
      && copy == WithReady(held, PENDING) && outcome.Requeue?
  {
    CreatePodCalm(p, spec, w);
    var w1 := Create(p, PodType, spec, w).0;
    NewPodPending(p, spec, w1);
    assert w1.script[1..] == w.script[4..];
  }

  /** The pass once its Sandbox is read. */
  lemma PassIs(k: Key, w: World, obj: Sandbox, w1: World)
    requires GetSandbox(k, w) == (w1, Found(obj))
    ensures var (w2, copy, outcome) := Reconcile(PassFor(k, obj), obj, w1);
      RunPass(k, w).0 == Update(PassFor(k, obj), obj, copy, w2).0
  {
  }

  // ---------------------------------------------------------------- outside events between passes

  /** A pass that fails to read its Sandbox does nothing; what happened before its call has happened. */
  function Meanwhile(s: Store): seq<Tick> {
    [Tick(s, Refused, false, false, None)]
  }

  lemma FailedRead(k: Key, w: World, s: Store)
    requires Rely(w.rules, k, w.store, s)
    ensures ByPass(k, w, Meanwhile(s), Push(w.(script := []), Outside, s))
    ensures forall w' :: ByPass(k, w, Meanwhile(s), w') ==> w' == Push(w.(script := []), Outside, s)
  {
    assert Meanwhile(s)[1..] == [];
  }
}
