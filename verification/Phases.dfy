/** What phases mean, written out: the report on a workload, its restart, and the state that quiet passes end in. */
module Phases {
  import opened Types
  import opened Conditions
  import opened Names
  import opened Finalizers
  import opened Volumes
  import opened Backends
  import opened Cluster
  import opened Passes
  import opened Quiet
  import opened Convergence
  import opened Contents
  import opened Order

  /** The phases in which a workload of each kind counts as failed. */
  predicate Crashed(kind: Kind, phase: Phase) {
    match kind
    case Pod => phase in {PhaseFailed, PhaseSucceeded, PhaseUnknown}
    case VMI => phase in {PhaseFailed, PhaseSucceeded, PhaseUnknown}
    case VM => phase in {PhaseTerminating, PhaseStopped, PhaseStopping, PhasePause, PhaseDegraded}
    case _ => false
  }

  predicate Permitted(gates: set<Gate>, t: SandboxType) {
    match t
    case KubevirtType => KubevirtGate in gates
    case DVPType => DVPGate in gates
    case _ => true
  }

  /** The workload object of each backend. */
  function WorkloadOf(t: SandboxType, namespace: string, u: Uid): ChildKey
    requires t != NoType
  {
    match t
    case PodType => ChildKey(Pod, namespace, "sandbox-" + u)
    case KubevirtType => ChildKey(VMI, namespace, "sandbox-" + u)
    case DVPType => ChildKey(VM, namespace, "sandbox-" + u)
  }

  // ---------------------------------------------------------------- messages

  predicate Blank(messages: seq<string>) {
    forall m | m in messages :: m == ""
  }

  /** The messages that are not empty, one per line; read from the end. */
  function Lines(messages: seq<string>): string {
    if messages == [] then ""
    else
      var before, last := messages[..|messages| - 1], messages[|messages| - 1];
      if last == "" then Lines(before)
      else if Blank(before) then last
      else Lines(before) + "\n" + last
  }

  lemma {:induction false} JoinAppend(lines: seq<string>, last: string)
    requires lines != []
    ensures Join(lines + [last]) == Join(lines) + "\n" + last
  {
    if |lines| == 1 {
      assert (lines + [last])[1..] == [last];
    } else {
      assert (lines + [last])[1..] == lines[1..] + [last];
      JoinAppend(lines[1..], last);
    }
  }

  lemma {:induction false} NonEmptyNone(messages: seq<string>)
    ensures NonEmpty(messages) == [] <==> Blank(messages)
  {
    if messages != [] {
      NonEmptyNone(messages[1..]);
      if messages[0] != "" {
        assert messages[0] in messages && NonEmpty(messages)[0] == messages[0];
      } else {
        assert forall m :: m in messages <==> m == messages[0] || m in messages[1..];
        assert NonEmpty(messages) == NonEmpty(messages[1..]);
      }
    }
  }

  lemma {:induction false} JoinIsLines(messages: seq<string>)
    ensures Join(NonEmpty(messages)) == Lines(messages)
    decreases |messages|
  {
    if messages != [] {
      var before, last := messages[..|messages| - 1], messages[|messages| - 1];
      assert before + [last] == messages;
      NonEmptyConcat(before, [last]);
      JoinIsLines(before);
      NonEmptyNone(before);
      if last != "" {
        assert NonEmpty([last]) == [last];
        if NonEmpty(before) != [] {
          JoinAppend(NonEmpty(before), last);
        } else {
          assert [] + [last] == [last];
        }
      } else {
        assert NonEmpty([last]) == [];
        assert NonEmpty(before) + [] == NonEmpty(before);
      }
    }
  }

  // ---------------------------------------------------------------- the report

  /** What is told about a stored workload, or about its absence. */
  ghost predicate Tells(r: Report, ck: ChildKey, s: Store) {
    if ck !in s.children then r == Report(False, ReasonPending, "")
    else
      var child := s.children[ck];
      if child.phase == PhaseRunning then r == Report(True, ReasonReady, "")
      else if !Crashed(ck.kind, child.phase) then r == Report(False, ReasonPending, "")
      else
        && r.status == False && r.reason == ReasonFailed
        && r.message == if ck.kind != Pod then Lines(child.messages)
                        else if child.messages == [] then "" else child.messages[0]
  }

  lemma ReportTells(ck: ChildKey, s: Store)
    requires ck.kind in {Pod, VMI, VM}
    ensures Tells(WorkloadReport(ck.kind, if ck in s.children then Some(s.children[ck]) else None), ck, s)
  {
    if ck in s.children {
      JoinIsLines(s.children[ck].messages);
    }
  }

  /** Status answers exactly when the gate is open and its one call is served: True and Ready for a running workload,
      False and Failed with the workload's messages for a crashed one, False and Pending otherwise. */
  lemma StatusExactly(p: Pass, t: SandboxType, w: World)
    requires t != NoType
    ensures var (w', r) := GetStatus(p, t, w);
      var (w1, tick) := Turn(p.key, w);
      && (r.Some? <==> Permitted(w.gates, t) && tick.fate == Served)
      && w' == (if Permitted(w.gates, t) then w1 else w)
      && (r.Some? ==> Tells(r.value, WorkloadOf(t, p.key.namespace, p.uid), w'.store))
  {
    ReportTells(WorkloadKey(t, p.key.namespace, p.uid), Turn(p.key, w).0.store);
  }

  // ---------------------------------------------------------------- the restart

  lemma {:induction false} AddKindsChildren(
    p: Pass, t: SandboxType, spec: TemplateSpec, kinds: seq<Kind>, children: Children)
    requires forall i :: 0 <= i < |kinds| ==> kinds[i] in VolumeKinds(t)
    ensures var after := AddKinds(p, kinds, spec.volumes, children);
      forall ck :: ck in after && ck !in children ==> IsChildOf(p, t, spec, ck, after[ck])
    decreases |kinds|
  {
    if kinds != [] {
      var wanted := MakeVolumes(p.uid, p.key.namespace, kinds[0], spec.volumes);
      var next := AddMissing(wanted, children);
      AddMissingIs(wanted, children);
      forall j | 0 <= j < |wanted|
        ensures IsChildOf(p, t, spec, wanted[j].key, wanted[j].child)
      {
        VolumeIsChild(p, t, spec, kinds[0], j);
      }
      AddKindsChildren(p, t, spec, kinds[1..], next);
      AddKindsIs(p, kinds[1..], spec.volumes, next);
    }
  }

  lemma PresentIsWanted(p: Pass, t: SandboxType, spec: TemplateSpec, children: Children)
    requires t != NoType && AllPresent(p, VolumeKinds(t), spec.volumes, children)
    ensures forall ck :: Wanted(p, t, spec, ck) && ck.kind != WorkloadOf(t, p.key.namespace, p.uid).kind ==>
      ck in children
  {
    forall ck | Wanted(p, t, spec, ck) && ck.kind != WorkloadOf(t, p.key.namespace, p.uid).kind
      ensures ck in children
    {
      WantedIsMade(p, t, spec, ck);
      var made := MakeVolumes(p.uid, p.key.namespace, ck.kind, spec.volumes);
      var j :| 0 <= j < |made| && made[j].key == ck;
      var i :| 0 <= i < |VolumeKinds(t)| && VolumeKinds(t)[i] == ck.kind;
    }
  }

  /** A workload that runs or starts stays as it is, a crashed one is removed, a missing one is made; every volume is
      there afterwards; what is new is what the spec asks for, and all else is as it was. */
  ghost predicate Restarts(p: Pass, t: SandboxType, spec: TemplateSpec, was: Children, now: Children)
    requires t != NoType
  {
    var key := WorkloadOf(t, p.key.namespace, p.uid);
    && (key in was ==> (key !in now <==> Crashed(key.kind, was[key].phase)))
    && (key !in was ==> key in now)
    && (forall ck :: ck in was && ck != key ==> ck in now)
    && (forall ck :: ck in was && ck in now ==> now[ck] == was[ck])
    && (forall ck :: ck in now && ck !in was ==> IsChildOf(p, t, spec, ck, now[ck]))
    && (forall ck :: Wanted(p, t, spec, ck) && ck != key ==> ck in now)
  }

  lemma WantedOther(p: Pass, t: SandboxType, spec: TemplateSpec, now: Children)
    requires t != NoType && AllPresent(p, VolumeKinds(t), spec.volumes, now)
    ensures forall ck :: Wanted(p, t, spec, ck) && ck != WorkloadOf(t, p.key.namespace, p.uid) ==> ck in now
  {
    PresentIsWanted(p, t, spec, now);
  }

  /** The step of the workload, after the volumes. */
  lemma NextWorkloadIs(p: Pass, t: SandboxType, spec: TemplateSpec, c: Children)
    requires HasWorkload(t, spec)
    ensures var key := WorkloadOf(t, p.key.namespace, p.uid);
      var now := NextWorkload(p, t, spec, c);
      && (key in c ==> (key !in now <==> Crashed(key.kind, c[key].phase)))
      && (key !in c ==> key in now && IsChildOf(p, t, spec, key, now[key]))
      && (forall ck :: ck != key ==> (ck in now <==> ck in c))
      && (forall ck :: ck in c && ck in now ==> now[ck] == c[ck])
  {
    WorkloadIsChild(p, t, spec);
  }

  /** The volumes came first (`c`), then the workload. */
  lemma RestartsFrom(p: Pass, t: SandboxType, spec: TemplateSpec, was: Children, c: Children, now: Children)
    requires t != NoType
    requires forall ck :: ck in was ==> ck in c && c[ck] == was[ck]
    requires forall ck :: ck in c && ck !in was ==> IsVolume(ck.kind) && IsChildOf(p, t, spec, ck, c[ck])
    requires var key := WorkloadOf(t, p.key.namespace, p.uid);
      && (key in c ==> (key !in now <==> Crashed(key.kind, c[key].phase)))
      && (key !in c ==> key in now && IsChildOf(p, t, spec, key, now[key]))
      && (forall ck :: ck != key ==> (ck in now <==> ck in c))
      && (forall ck :: ck in c && ck in now ==> now[ck] == c[ck])
    requires forall ck :: Wanted(p, t, spec, ck) && ck != WorkloadOf(t, p.key.namespace, p.uid) ==> ck in now
    ensures Restarts(p, t, spec, was, now)
  {
  }

  lemma NextRestarts(p: Pass, t: SandboxType, spec: TemplateSpec, was: Children)
    requires HasWorkload(t, spec)
    requires AllPresent(p, VolumeKinds(t), spec.volumes, NextChildren(p, t, spec, was))
    ensures Restarts(p, t, spec, was, NextChildren(p, t, spec, was))
  {
    var c := AddKinds(p, VolumeKinds(t), spec.volumes, was);
    AddKindsFrame(p, VolumeKinds(t), spec.volumes, was);
    AddKindsChildren(p, t, spec, VolumeKinds(t), was);
    NextWorkloadIs(p, t, spec, c);
    WantedOther(p, t, spec, NextChildren(p, t, spec, was));
    RestartsFrom(p, t, spec, was, c, NextChildren(p, t, spec, was));
  }

  lemma RestartExactly(p: Pass, t: SandboxType, spec: TemplateSpec, w: World)
    requires QuietWorld(w) && CreateReady(p, t, spec, w.gates, w.store.children)
    ensures t != NoType
    ensures var (w', ok) := Create(p, t, spec, w); ok && Restarts(p, t, spec, w.store.children, w'.store.children)
  {
    CreateQuiet(p, t, spec, w);
    NextChildrenIs(p, t, spec, w.gates, w.store.children);
    NextRestarts(p, t, spec, w.store.children);
  }

  lemma NothingToEnsure(p: Pass, t: SandboxType, spec: TemplateSpec, w: World)
    requires w.script == [] && t != NoType && !HasWorkload(t, spec)
    requires WorkloadKey(t, p.key.namespace, p.uid) !in w.store.children
    ensures EnsureWorkload(p, t, spec, w) == (w, true)
  {
  }

  lemma VolumesAlone(p: Pass, t: SandboxType, spec: TemplateSpec, was: Children)
    requires t != NoType && !HasWorkload(t, spec) && WorkloadOf(t, p.key.namespace, p.uid) !in was
    ensures var now := AddKinds(p, VolumeKinds(t), spec.volumes, was);
      && WorkloadOf(t, p.key.namespace, p.uid) !in now
      && forall ck :: Wanted(p, t, spec, ck) ==> ck in now
  {
    AddKindsFrame(p, VolumeKinds(t), spec.volumes, was);
    AddKindsPresent(p, VolumeKinds(t), spec.volumes, was);
    PresentIsWanted(p, t, spec, AddKinds(p, VolumeKinds(t), spec.volumes, was));
  }

  /** A spec that has no workload for the stored type is no error: the volumes are completed, no workload is made. */
  lemma NoWorkloadIsNoError(p: Pass, t: SandboxType, spec: TemplateSpec, w: World)
    requires QuietWorld(w) && t != NoType && Permitted(w.gates, t) && DistinctNames(spec.volumes)
    requires AllUnsquatted(p, VolumeKinds(t), spec.volumes, w.store.children)
    requires WorkloadOf(t, p.key.namespace, p.uid) !in w.store.children
    requires match t
             case PodType => spec.pod.None?
             case KubevirtType => spec.vmi.None?
             case DVPType => spec.vm.None?
    ensures var (w', ok) := Create(p, t, spec, w);
      && ok && WorkloadOf(t, p.key.namespace, p.uid) !in w'.store.children
      && forall ck :: Wanted(p, t, spec, ck) ==> ck in w'.store.children
  {
    CreateKindsQuiet(p, VolumeKinds(t), spec.volumes, w);
    var w1 := CreateKinds(p, VolumeKinds(t), spec.volumes, w).0;
    VolumesAlone(p, t, spec, w.store.children);
    NothingToEnsure(p, t, spec, w1);
  }

  // ---------------------------------------------------------------- the settled state

  /** What a settled store holds: every child that the spec asks for, its workload not crashed, the stored status in
      agreement with its phase, and the controller's finalizer on Sandbox and template. */
  lemma SettledMeans(k: Key, w: World)
    requires Settled(k, w)
    ensures var sb := w.store.sandboxes[k];
      var p, t, spec := PassFor(k, sb), sb.status.kind, VisibleSpec(w.store, sb).value;
      && t != NoType && (forall ck :: Wanted(p, t, spec, ck) ==> ck in w.store.children)
      && var key := WorkloadOf(t, k.namespace, sb.uid);
         && key in w.store.children && !Crashed(key.kind, w.store.children[key].phase)
         && GetCondition("Ready", sb.status.conditions) == Some(
              if w.store.children[key].phase == PhaseRunning
              then Condition("Ready", True, ReasonReady, "", sb.generation)
              else Condition("Ready", False, ReasonPending, "", sb.generation))
         && FINALIZER in sb.meta.finalizers
         && (sb.spec.templateSpec.None? ==> FINALIZER in w.store.templates[sb.spec.template].meta.finalizers)
  {
    var sb := w.store.sandboxes[k];
    PresentIsWanted(PassFor(k, sb), sb.status.kind, VisibleSpec(w.store, sb).value, w.store.children);
    CarriesIsMember(sb.meta.finalizers);
    if sb.spec.templateSpec.None? {
      CarriesIsMember(w.store.templates[sb.spec.template].meta.finalizers);
    }
  }

  /** A Sandbox without a stored type settles with the type that its spec selects: pod before KubeVirt before DVP. */
  lemma SettlesSelected(k: Key, ws: seq<World>, i: nat)
    requires IsQuietRun(k, ws) && Viable(k, ws[0]) && 2 <= i < |ws|
    requires ws[0].store.sandboxes[k].status.kind == NoType
    ensures Settled(k, ws[i])
    ensures Selects(VisibleSpec(ws[0].store, ws[0].store.sandboxes[k]).value, ws[i].store.sandboxes[k].status.kind)
  {
    RunsSettle(k, ws, i);
    assert FollowsQuietly(k, ws, 1) && FollowsQuietly(k, ws, 2);
    OnePass(k, ws[0]);
    OnePass(k, ws[1]);
    DetectSelects(VisibleSpec(ws[0].store, ws[0].store.sandboxes[k]).value);
  }
}
