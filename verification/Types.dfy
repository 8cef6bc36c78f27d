/** The objects the sandbox controller works with, and the API-server store that holds them. */
module Types {

  datatype Option<+T> = None | Some(value: T)

  // ---------------------------------------------------------------- names

  const UID_LENGTH: nat := 36

  predicate UidChar(c: char) {
    '0' <= c <= '9' || 'a' <= c <= 'f' || c == '-'
  }

  /** Object UIDs: one fixed length, hexadecimal digits and dashes. */
  type Uid = u: string | |u| == UID_LENGTH && forall i :: 0 <= i < |u| ==> UidChar(u[i])
    witness seq(UID_LENGTH, i => '0')

  /** Namespaced name of a Sandbox. */
  datatype Key = Key(namespace: string, name: string)

  /** The controller's own finalizer. */
  const FINALIZER := "sandbox.io/protect-by-sandbox-controller"

  // ---------------------------------------------------------------- specs

  datatype SandboxType = NoType | PodType | DVPType | KubevirtType

  datatype Kind = Pod | VMI | VM | PVC | DataVolume | VirtualDisk

  datatype Gate = KubevirtGate | DVPGate

  datatype PodVolume = PodVolume(name: string, claim: Option<string>)
  datatype Container = Container(mounts: seq<string>)
  datatype PodSpec = PodSpec(volumes: seq<PodVolume>, containers: seq<Container>, rest: string)

  datatype VmiVolume = VmiVolume(name: string, dataVolume: Option<string>, claim: Option<string>)
  datatype VmiDisk = VmiDisk(name: string, isDisk: bool)
  datatype VmiSpec = VmiSpec(volumes: seq<VmiVolume>, disks: seq<VmiDisk>, rest: string)

  datatype BlockDeviceRef = BlockDeviceRef(isVirtualDisk: bool, name: string)
  datatype VmSpec = VmSpec(refs: seq<BlockDeviceRef>, rest: string)

  datatype Volume = Volume(name: string, pvc: Option<string>, dataVolume: Option<string>, virtualDisk: Option<string>)

  datatype TemplateSpec = TemplateSpec(
    pod: Option<PodSpec>, vmi: Option<VmiSpec>, vm: Option<VmSpec>, volumes: seq<Volume>)

  /** The volume's spec for one kind of volume object, if it has one. */
  function VolumeSpec(v: Volume, kind: Kind): Option<string> {
    match kind
    case PVC => v.pvc
    case DataVolume => v.dataVolume
    case VirtualDisk => v.virtualDisk
    case _ => None
  }

  // ---------------------------------------------------------------- metadata, conditions

  datatype Meta = Meta(finalizers: seq<string>, annotations: map<string, string>, labels: map<string, string>)

  datatype ConditionStatus = True | False | Unknown

  datatype Reason = ReasonUnknown | ReasonReady | ReasonPending | ReasonFailed | ReasonTerminating

  datatype Condition = Condition(
    kind: string, status: ConditionStatus, reason: Reason, message: string, generation: int)

  const READY := "Ready"

  // ---------------------------------------------------------------- stored objects

  datatype Phase =
    | PhaseUnset | PhasePending | PhaseScheduling | PhaseScheduled | PhaseRunning | PhaseSucceeded | PhaseFailed
    | PhaseUnknown | PhaseTerminating | PhaseStopped | PhaseStopping | PhaseStarting | PhaseMigrating | PhasePause
    | PhaseDegraded | PhaseOther(code: nat)

  datatype Payload =
    | PodPayload(pod: PodSpec)
    | VmiPayload(vmi: VmiSpec)
    | VmPayload(vm: VmSpec)
    | VolumePayload(spec: string)

  datatype ChildKey = ChildKey(kind: Kind, namespace: string, name: string)

  /** A workload or volume object; `owner` is the Sandbox that controls it, if one does. */
  datatype Child = Child(
    owner: Option<Uid>, deleting: bool, phase: Phase, messages: seq<string>, payload: Payload)

  datatype NewChild = NewChild(key: ChildKey, child: Child)

  datatype Status = Status(kind: SandboxType, conditions: seq<Condition>)

  datatype SandboxSpec = SandboxSpec(template: string, templateSpec: Option<TemplateSpec>, ttl: int)

  /** What the stored object has been: `carried` says that it carried FINALIZER, `bound` that it did so while its
      status named a type. No code reads it. */
  datatype Past = Past(carried: bool, bound: bool)

  datatype Sandbox = Sandbox(
    uid: Uid, created: int, generation: int, spec: SandboxSpec, meta: Meta, deleting: bool, version: nat,
    status: Status, past: Past)

  datatype Template = Template(spec: TemplateSpec, meta: Meta, deleting: bool)

  /** `used` holds every Sandbox UID ever issued; `revision` is the last object version handed out. */
  datatype Store = Store(
    now: int, revision: nat, used: set<Uid>, sandboxes: map<Key, Sandbox>, templates: map<string, Template>,
    children: map<ChildKey, Child>)
}
