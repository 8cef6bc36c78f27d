/** The three kinds of sandbox: which workload and volumes each one handles, and how it reads a phase
    (internal/common/sandbox.go, sandboxer.go and the phase maps). */
module Backends {
  import opened Types
  import opened Names
  import opened Volumes

  /** DetectSandboxType: the first workload spec that is set decides. */
  function DetectSandboxType(spec: Option<TemplateSpec>): SandboxType {
    if spec.None? then NoType
    else if spec.value.pod.Some? then PodType
    else if spec.value.vmi.Some? then KubevirtType
    else if spec.value.vm.Some? then DVPType
    else NoType
  }

  function WorkloadKind(t: SandboxType): Kind
    requires t != NoType
  {
    match t
    case PodType => Pod
    case KubevirtType => VMI
    case DVPType => VM
  }

  /** Kinds of volume the backend creates and deletes, in that order. */
  function VolumeKinds(t: SandboxType): (kinds: seq<Kind>)
    ensures forall i :: 0 <= i < |kinds| ==> IsVolume(kinds[i])
  {
    match t
    case NoType => []
    case PodType => [PVC]
    case KubevirtType => [DataVolume, PVC]
    case DVPType => [VirtualDisk]
  }

  predicate Handles(t: SandboxType, kind: Kind) {
    t != NoType && (kind == WorkloadKind(t) || kind in VolumeKinds(t))
  }

  predicate GateOpen(gates: set<Gate>, t: SandboxType) {
    && (t == KubevirtType ==> KubevirtGate in gates)
    && (t == DVPType ==> DVPGate in gates)
  }

  /** getReasonFrom*Phase: phases missing from a map count as pending. */
  function PhaseReason(kind: Kind, phase: Phase): Reason {
    match kind
    case Pod =>
      (match phase
       case PhaseRunning => ReasonReady
       case PhaseFailed | PhaseSucceeded | PhaseUnknown => ReasonFailed
       case _ => ReasonPending)
    case VMI =>
      (match phase
       case PhaseRunning => ReasonReady
       case PhaseSucceeded | PhaseFailed | PhaseUnknown => ReasonFailed
       case _ => ReasonPending)
    case VM =>
      (match phase
       case PhaseRunning => ReasonReady
       case PhaseTerminating | PhaseStopped | PhaseStopping | PhasePause | PhaseDegraded => ReasonFailed
       case _ => ReasonPending)
    case _ => ReasonPending
  }

  function NonEmpty(messages: seq<string>): seq<string> {
    if messages == [] then []
    else (if messages[0] != "" then [messages[0]] else []) + NonEmpty(messages[1..])
  }

  lemma {:induction false} NonEmptyConcat(a: seq<string>, b: seq<string>)
    ensures NonEmpty(a + b) == NonEmpty(a) + NonEmpty(b)
  {
    if a == [] {
      assert a + b == b;
    } else {
      assert (a + b)[1..] == a[1..] + b;
      NonEmptyConcat(a[1..], b);
    }
  }

  /** strings.Join(lines, newline) */
  function Join(lines: seq<string>): string {
    if lines == [] then "" else if |lines| == 1 then lines[0] else lines[0] + "\n" + Join(lines[1..])
  }

  /** The message of a failed workload: a pod's own message, or a machine's non-empty condition messages. */
  function FailureMessage(kind: Kind, child: Child): string {
    if kind == Pod then (if child.messages == [] then "" else child.messages[0])
    else Join(NonEmpty(child.messages))
  }

  function WorkloadKey(t: SandboxType, namespace: string, u: Uid): ChildKey
    requires t != NoType
  {
    ChildKey(WorkloadKind(t), namespace, FullName(u))
  }

  predicate HasWorkload(t: SandboxType, spec: TemplateSpec) {
    match t
    case NoType => false
    case PodType => spec.pod.Some?
    case KubevirtType => spec.vmi.Some?
    case DVPType => spec.vm.Some?
  }

  /** newPod, newKubevirtVMI, newDVPVM, with references to the sandbox's own volumes rewritten. */
  function NewWorkload(t: SandboxType, namespace: string, u: Uid, spec: TemplateSpec): NewChild
    requires HasWorkload(t, spec)
  {
    var pvcs := ObjectNames(MakeVolumes(u, namespace, PVC, spec.volumes));
    var dvs := ObjectNames(MakeVolumes(u, namespace, DataVolume, spec.volumes));
    var vds := ObjectNames(MakeVolumes(u, namespace, VirtualDisk, spec.volumes));
    var payload :=
      match t
      case PodType => PodPayload(RewritePod(u, pvcs, spec.pod.value))
      case KubevirtType => VmiPayload(RewriteVmi(u, dvs, pvcs, spec.vmi.value))
      case DVPType => VmPayload(RewriteVm(u, vds, spec.vm.value));
    NewChild(WorkloadKey(t, namespace, u), Child(Some(u), false, PhaseUnset, [], payload))
  }
}
