# sandbox-mommy: a model of the controller, its patches and the console stream

The project models four parts of sandbox-mommy and proves what they promise together.

1. **The sandbox controller over an API-server store.** A `Store` holds Sandboxes, templates, workloads (Pod, VMI, VM)
   and volumes (PVC, DataVolume, VirtualDisk). Every client call is one step: before it, everybody else may change the
   store; the call itself may fail; a deletion may only mark the object. `Passes` writes one pass as a function of the
   world it meets, call by call. `Sandboxers` and `Controller` write the same code as objects with fields, loops and
   early returns, and each method is proved to make exactly that function's calls and changes. The theorems are about
   runs: any number of passes for one Sandbox name under any script of interference and failures.
2. **Finalizer and metadata patches** as compare-and-set (RFC 6902), under every interleaving of stale patches.
3. **The console stream**: bytes over WebSocket messages, the connect/stream handshake, and the retry loop of `Attach`.
4. **The exact pieces the rest needs**: child names, reference rewriting, JSON Pointer escaping (RFC 6901), admission.

Modules, bottom up: `Types`, `Names`, `Patches`, `Finalizers`, `MetaUpdater`, `Conditions`, `Volumes`, `Backends`,
`Admission`, `Cluster` (store, calls, what others may do), `Passes` (one pass), `Safety`, `Steps`, `PassSafety`,
`ReconcileSafety`, `Runs` (safety of every run), `Interleavings` (passes for many names at once), `Quiet`,
`Convergence`, `Termination` (progress without interference), `Branches` (single passes), `Traces` (the steps of a pass
in order), `Contents` (what the children are that a pass makes), `Order` (what Create and Delete do first, and what they
must have met), `Phases` (what phases mean), `Outcomes` (what a pass answers and publishes), `Limits`, `Scripts`,
`Leaks`, `Exactness` and `ExpiryLimits` (where exactly the guarantees end), `Client`, `Sandboxers`, `Controller` (the
same passes as objects), `Stream`, `Handshake`, `Attach`.

## Assumptions

- Reads are linearizable, and there is at most one pass at a time for one Sandbox. Passes for other Sandboxes run
  concurrently, and `Interleavings.EveryViewGood` proves that they may: of any interleaving, what each name sees is a
  good history.
- Specs are immutable (the CEL rules in `api/core/v1alpha1/sandbox_types.go:30` and `sandboxtemplate_types.go:33`).
- UIDs are never used twice, have one fixed length and consist of hexadecimal digits and dashes.
- An absent finalizer list, annotation map or label map is the empty one.
- The server refuses to add a finalizer to an object that is being deleted; an object marked for deletion goes when
  its last finalizer does; a status write needs the version that was read; a metadata patch does not.
- Only passes create children that a Sandbox controls, under the names the passes give them; nobody else adds or
  removes the controller's finalizer on a Sandbox, or writes a Sandbox's status. Others may do everything else, at any
  call: create, edit, delete and recreate Sandboxes and templates, change phases, delete children, edit other
  finalizers, labels and annotations.
- Two assumptions on templates are explicit switches (`Cluster.Rules`). `sole`: only this Sandbox's own passes take the
  controller's finalizer off the template it names. `stable`: a template name always stands for the same detected type.
  They matter only for Sandboxes that name a template; each theorem asks for the one it needs, and `Leaks` shows, with
  runs from a fresh Sandbox, that it does.
- A call is served, refused, or served although the caller gets an error (a lost reply).
- Every Sandbox that enters a run went through the defaulting webhook.
- Write errors of a WebSocket connection stick: after one, the connection sends nothing more.
- What a status write copies back into the caller's object is chosen by each call: either its metadata stays, or it
  becomes the stored metadata.
- What decoding the reply of a patch leaves in the caller's template is chosen by each call: either its spec stays, or
  it becomes any other. Children are created from that spec, with the backend chosen before.
- A requeue delay of zero or less schedules nothing. The clock moves only between calls. Lists come in any order.
- Retrying in `Attach`: the ticker is ready once the timeout has passed, and a sleep lasts at least one second.

## Findings

- **Cleanup needs agreement, and a recreated template can break it.** The protecting patch tests finalizers only. If a
  template is deleted and created again with another type between lookup and patch, and the status write then fails,
  the Sandbox controls a live pod while every later pass works with another backend (`Leaks.RetypedTemplateDisagrees`).
  It then leaves with that pod (`Leaks.CleanupNeedsAgreement`). What cleanup needs is not a stable template but
  agreement: from a store where the Sandbox carries the finalizer and has a stored type, some run lets it leave with a
  live child if and only if the stored type does not handle them all (`Exactness.CleanupExactly`,
  `Exactness.TypedIsAgreed`), and agreement, once there, stays (`Runs.AgreementStays`).
- **A type that is not stored can be forgotten.** A pass stores the type before it puts the finalizer on its own Sandbox
  (`Runs.OwnFinalizerIsTyped`), so cleanup holds for shared templates (`Runs.SharedCleanup`). But the metadata patch
  states no UID: one meant for an earlier Sandbox of the same name can put the finalizer on its successor, which has no
  type. If that one's status write fails and another user lets the template go, it leaves with its pod
  (`Leaks.CleanupNeedsSole`, a run from a fresh Sandbox). Without a stored type, live children can be left behind if
  and only if the type cannot be told all the time (`Exactness.CleanupExactly`).
- **A template is protected for one user only.** A terminating pass takes the finalizer off the template without looking
  for other users (`Limits.SharedTemplateReleased`), though the message in
  `internal/controller/sandboxtemplate/sandboxtemplate_reconciler.go:54` promises protection for all.
- **A terminating pass leaves False/Terminating in its copy exactly when the template lookup did not fail or the stored
  status said so before** (`Branches.TerminatingIsMarked`, with a failing case in `Branches.TerminatingUnmarked`).
- **TTL gap.** A pass whose two clock reads enclose the moment of expiry neither deletes nor requeues
  (`Branches.TtlGap`, such a pass in `ExpiryLimits.TtlGapHappens`).
- **The expiry delete goes by name.** It states no UID (`internal/controller/sandbox/sandbox_reconciler.go:86`), so it can
  meet a fresh Sandbox of the same name, exactly when the expired one was read without the finalizer
  (`ExpiryLimits.ExpiryMeetsAnother`, a run in `ExpiryLimits.SuccessorExpires`).
- **The last buffer can be lost unheard.** The error of closing a message is dropped, so a copy can report success
  although its last message did not get out (`Stream.CopyTo`, `Stream.SilentLoss`). A write reports success without
  delivering its bytes if and only if the connection breaks under its message and only closing it shows
  (`Stream.BinaryWriter.Write`).
- **Claims of a VirtualMachineInstance are never rewritten** (`Volumes.RewriteVmiResolves`); pod mounts and VMI disks are
  renamed although the volumes they name are not, and `Volumes.MountsResolveAfter` and `Volumes.DisksResolveAfter` say
  exactly when they still resolve.
- `UnprotectObject` rewrites every non-empty list, also one without the finalizer (`Finalizers.BuildUnprotectPatch`).
- The "not found" message has an empty name: it is read from the object that was not found, which the model takes to be
  left unset by the client.

## Model

| member | source | states |
|---|---|---|
| Runs.CleanupSafety | internal/controller/sandbox/sandbox_reconciler.go:166-189 | in every run, a Sandbox that carried the finalizer when its stored type handled its live children leaves the store only when every child it controls is absent or marked for deletion, whatever happens to templates; without a stored type it is enough that the type can be told all the time |
| Runs.SharedCleanup | internal/controller/sandbox/sandbox_reconciler.go:181-185 | the same with any number of users of a template with a stable type, from the point where a pass for this very Sandbox put the finalizer on it |
| Runs.CleanupFromScratch | internal/controller/sandbox/sandbox_reconciler.go:166-189 | the same for runs that start without the Sandbox in any well-formed store |
| Runs.HandledNeverLeft | internal/controller/sandbox/sandbox_reconciler.go:173-188 | in every run and without any condition, a Sandbox that carried the finalizer while its type was stored leaves no live child of a kind that type handles |
| Runs.AgreementStays | internal/controller/sandbox/sandbox_reconciler.go:69-73 | once a stored type handles all live children, it does at every later point at which the same Sandbox is stored, whatever happens to templates |
| Exactness.CleanupExactly | internal/controller/sandbox/sandbox_reconciler.go:166-189 | from any good store where the Sandbox carries the finalizer, and has a stored type whose gate is open or else a live child: some run lets it leave with a live child if and only if its stored type, if any, does not handle them all and its type cannot be told all the time |
| Exactness.TypedIsAgreed | internal/controller/sandbox/sandbox_reconciler.go:69-73 | with a stored type that condition is just that the type does not handle all live children |
| Runs.NoLateChildren | internal/controller/sandbox/sandbox_reconciler.go:93-98 | in every run, no step of a pass makes a child for a Sandbox that has carried the finalizer and is not stored any more |
| Runs.OwnFinalizerIsTyped | pkg/controller/reconciler/base_reconciler.go:96-102 | in every run only passes put the finalizer on a Sandbox, and one for this very Sandbox does so only after the type is stored |
| Runs.TypeAgreement | internal/controller/sandbox/sandbox_reconciler.go:69-73 | for an inline spec or a stable type, the backend a terminating pass would choose handles the kind of a live child exactly when the type is stored or the spec can be seen; which is always so with an inline spec or a template not released by others |
| Runs.TypeNeverChanges | internal/controller/sandbox/sandbox_reconciler.go:69-71 | a stored type never changes, whatever templates do |
| Runs.TemplateProtection | internal/controller/sandbox/sandbox_reconciler.go:93-98 | while a Sandbox that alone releases its template has a live child, the template exists and carries the finalizer; once the Sandbox is marked, also its type must be stable |
| Runs.ReadyInvariant | internal/controller/sandbox/sandbox_reconciler.go:109-117 | at every point of every run at most one Ready condition is stored, true exactly when its reason is Ready |
| Runs.NoEarlyExpiry | internal/controller/sandbox/sandbox_reconciler.go:84-87 | in every run, a step of a pass that marks or removes any active Sandbox is the expiry delete; its own Sandbox has then expired, and it is its own if the Sandbox it read carried the finalizer |
| Runs.Isolation | internal/controller/sandbox/pvc.go:92-120 | in every run, each step of a pass leaves the children of every other UID exactly as they are, also after the name was taken over, makes none for others, and leaves every Sandbox of another name as it is |
| Runs.PassesCompose | internal/controller/sandbox/dvp.go:152-167 | in every run, each step of a pass is an allowed outside step for the passes of any other name, unless that one relies on being the only user of the same template |
| Runs.GuaranteeIsRely | internal/controller/sandbox/kubevirt.go:162-177 | what a pass may do is within what a pass for any other Sandbox tolerates, so concurrent passes compose |
| Interleavings.EveryViewGood | internal/controller/sandbox/sandbox_reconciler.go:52-120 | for passes of any number of names whose calls, reads too, interleave in any way over one store, what each name sees is a good history under its own assumptions on templates: no pass is assumed to behave towards others, all are proved to, step by step |
| Interleavings.RunIsJoint | internal/controller/sandbox/sandbox_reconciler.go:52-120 | every run whose outside steps nobody minds is such an interleaving, whichever stores its reads met |
| Interleavings.CleanupTogether | internal/controller/sandbox/sandbox_reconciler.go:166-189 | cleanup safety for every Sandbox at once in such an interleaving |
| Runs.RunGood | pkg/controller/reconciler/base_reconciler.go:51-90 | every store of every run satisfies the invariant and every step between two stores is allowed |
| Runs.RunPassGood | pkg/controller/reconciler/base_reconciler.go:58-89 | one whole pass, its writes after a failed inner pass included, keeps the invariant at each write |
| Runs.EmptyIsSafe | internal/controller/sandbox/sandbox_reconciler.go:52-120 | every well-formed store without the Sandbox satisfies the invariant, so runs may start there |
| Runs.MetaUpdateRunning | pkg/controller/reconciler/meta_updater.go:30-61 | the metadata write keeps the invariant and the stored status for every copy that a pass may write back |
| Runs.StatusUpdateRunning | pkg/controller/reconciler/status_updater.go:26-31 | the status write keeps the invariant and all that the pass has established, whatever it copies back |
| ReconcileSafety.ReconcileRunning | internal/controller/sandbox/sandbox_reconciler.go:52-120 | the inner pass keeps the invariant at each call, and what it leaves in the working copy may be written back |
| ReconcileSafety.HandleTerminatingRunning | internal/controller/sandbox/sandbox_reconciler.go:166-189 | the finalizer comes off the copy only when no child is alive that the type handles, and none at all if the type can be told, under any interference and failure |
| ReconcileSafety.HandleActiveRunning | internal/controller/sandbox/sandbox_reconciler.go:93-119 | protecting, creating and reporting keep the invariant at every write; no child appears before its template is held, if nobody else releases that (`Traces.NoChildBeforeTemplate` says it of shared templates) |
| Traces.NoChildBeforeTemplate | internal/controller/sandbox/sandbox_reconciler.go:89-98 | in every run, a step of a pass that makes a child comes after stores of that same pass in which its Sandbox was unmarked, then, unless the spec is inline, the named template was there unmarked, and then that carried the finalizer; shared templates included |
| ReconcileSafety.LookupInforms | internal/controller/sandbox/sandbox_reconciler.go:122-164 | what a template lookup tells: the type, if it is inline or stable, and that a Sandbox without a type has no live child, if nobody else releases its template |
| ReconcileSafety.HandledIsAll | internal/controller/sandbox/sandbox_reconciler.go:173-179 | deleting all kinds the expected backend handles leaves no live child, if the type is inline or stable |
| PassSafety.DeleteRunning | internal/controller/sandbox/kubevirt.go:89-113 | after a Delete that reports success no child of a handled kind is alive, although others act between its calls |
| PassSafety.DeleteVolumesRunning | internal/controller/sandbox/pvc.go:92-103 | list-then-delete of one kind ends with every controlled volume of the kind absent or marked |
| PassSafety.CreateRunning | internal/controller/sandbox/kubevirt.go:38-87 | Create keeps the invariant at every write, also when it stops halfway |
| PassSafety.ListOwnedIs | internal/controller/sandbox/pvc.go:105-120 | a successful listing returns exactly the controlled children of the kind in the namespace |
| Cluster.RelyTransitive | internal/controller/sandbox/sandbox_reconciler.go:52-120 | any burst of outside activity between two calls counts as one step |
| Convergence.MeasureDecreases | internal/controller/sandbox/kubevirt.go:43-86 | in quiet passes (missing volumes, workload rank) strictly decreases until it is zero, from any store |
| Convergence.OnePass | internal/controller/sandbox/pod.go:34-61 | one quiet pass leaves no volume missing, the template held, the status right and the workload one step closer |
| Convergence.RunsSettle | internal/controller/sandbox/sandbox_reconciler.go:93-119 | two quiet passes settle any viable store, whatever earlier passes left half done, and every longer quiet run ends there |
| Convergence.SettledIsFixed | pkg/controller/reconciler/base_reconciler.go:96-102 | from a settled store on, no pass of a quiet run writes anything |
| Quiet.AddKindsIs | internal/controller/sandbox/pvc.go:71-90 | the quiet volume loops add every missing volume, change nothing that is there, and do nothing when all are there |
| Quiet.NextChildrenIs | internal/controller/sandbox/dvp.go:32-77 | one quiet Create leaves no volume missing and lowers the workload rank by one (failed, missing, fine) |
| Termination.TwoPassesEnd | internal/controller/sandbox/sandbox_reconciler.go:75-82 | two quiet terminating passes remove exactly the workload and the controlled volumes of handled kinds, and release the Sandbox |
| Termination.PassEnds | internal/controller/sandbox/sandbox_reconciler.go:166-189 | what one quiet terminating pass removes, releases and stores |
| Termination.RemainingIs | internal/controller/sandbox/dvp.go:79-103 | Delete removes the workload's name and the Sandbox's own volumes of the handled kinds, and nothing else |
| Outcomes.NoFailureSwallowed | pkg/controller/reconciler/base_reconciler.go:51-90 | no failure is swallowed: a pass that ends without an error has had every one of its calls served |
| Outcomes.ReconcileRan | internal/controller/sandbox/sandbox_reconciler.go:52-120 | the inner pass stops at the first call that is not served, and then ends with an error |
| Outcomes.LookupTold | internal/controller/sandbox/sandbox_reconciler.go:122-164 | for an active Sandbox a failed lookup is an error that publishes nothing; a missing and a terminating template each publish their condition, message and all, and end the pass without an error or a further call |
| Outcomes.ProtectFailureTold | internal/controller/sandbox/sandbox_reconciler.go:93-96 | when the template cannot be protected, the pass ends with an error; the copy has type and finalizer, and its conditions are as read |
| Outcomes.ActiveTold | internal/controller/sandbox/sandbox_reconciler.go:98-119 | a closed gate or a call of Create that is not served publishes False/Failed "Failed to create sandbox." and ends with an error; a failed status read is an error that publishes nothing; otherwise what the stored workload's phase means is published, and the next pass is due when the Sandbox expires |
| Outcomes.ActiveForgetsNothing | internal/controller/sandbox/sandbox_reconciler.go:98-119 | an active pass that ends without an error has met or made every volume and workload that the spec in use asks for |
| Outcomes.LetGoExactly | internal/controller/sandbox/sandbox_reconciler.go:166-189 | a terminating pass ends without an error exactly when it takes the controller's finalizer, and no other, off the copy; then all its calls were served, and the named template did not carry the finalizer in some store of that pass |
| Outcomes.GateHoldsEnd | internal/controller/sandbox/kubevirt.go:89-92 | with the gate of the stored type closed, a terminating pass makes no call after the lookup, ends with an error and lets nothing go |
| Outcomes.OuterAnswers | pkg/controller/reconciler/base_reconciler.go:72-89 | the outer pass answers what the inner one did or an error, and just that when nobody disturbs the write-back |
| Outcomes.FailureIsStored | pkg/controller/reconciler/base_reconciler.go:72-83 | after a failed inner pass whose write-back nobody disturbs, the stored status is the working copy's and so are the finalizers, unless the status write copied the stored ones back |
| Outcomes.UndisturbedUpdate | pkg/controller/reconciler/base_reconciler.go:96-102 | the same for the copy of any pass: an undisturbed write-back succeeds and stores status and metadata of the copy |
| Contents.ChildrenAreRight | internal/controller/sandbox/pod.go:52-58 | in every run, each child that a step of a pass makes has, for the Sandbox that pass read and the backend and spec it used, the right kind, literal name, owner and payload: the template volume's own spec, or the workload's spec with exactly the references to template volumes renamed |
| Order.CreateForgetsNothing | internal/controller/sandbox/kubevirt.go:38-87 | a Create that succeeds has met or made every child the backend needs for the spec, under interference |
| Order.VolumesComeFirst | internal/controller/sandbox/dvp.go:32-77 | Create makes the workload only after every volume that the spec asks for was met or made |
| Order.DataVolumesComeFirst | internal/controller/sandbox/kubevirt.go:43-64 | with KubeVirt, a claim is made only after every data volume that the spec asks for was met or made |
| Order.WorkloadGoesFirst | internal/controller/sandbox/kubevirt.go:89-113 | Delete removes or marks a volume only after it has met the workload absent or marked |
| Phases.StatusExactly | internal/controller/sandbox/pod.go:76-127 | Status answers exactly when the gate is open and its call is served; True/Ready exactly for PhaseRunning, False/Failed with the messages exactly for the kind's own failed phases, False/Pending otherwise and when nothing is stored |
| Phases.RestartExactly | internal/controller/sandbox/pod.go:34-61 | one quiet Create leaves a workload alone unless its phase is one of the failed ones, then it is removed; a missing one is made; volumes are completed, new children are as the spec asks, all else stays |
| Phases.NoWorkloadIsNoError | internal/controller/sandbox/pod.go:52-60 | a spec without a workload for the stored type is no error: volumes are completed and no workload is made |
| Phases.SettledMeans | internal/controller/sandbox/sandbox_reconciler.go:93-119 | what the settled state of quiet runs holds, written out: every child asked for, no failed workload, the Ready condition in agreement with its phase, and the finalizer on Sandbox and template |
| Phases.SettlesSelected | internal/common/sandbox.go:5-19 | a Sandbox without a stored type settles with the one its spec selects: pod before KubeVirt before DVP |
| Branches.TtlExact | internal/controller/sandbox/sandbox_reconciler.go:84-91 | after a successful lookup an active Sandbox is deleted exactly when the clock is past creation plus TTL; otherwise the delay ends exactly there and is positive exactly before it |
| Branches.TtlGap | internal/controller/sandbox/sandbox_reconciler.go:232-242 | a pass that starts in time does not delete, and asks for no later pass exactly when its second clock read has reached the expiry |
| ExpiryLimits.TtlGapHappens | internal/controller/sandbox/sandbox_reconciler.go:84-119 | a pass in which time passes the expiry between two reads: delay of zero or less, and the expired Sandbox is still stored and active |
| ExpiryLimits.ExpiryMeetsAnother | internal/controller/sandbox/sandbox_reconciler.go:84-87 | the expiry delete can meet an unexpired Sandbox other than the one read exactly when the one read did not carry the finalizer |
| ExpiryLimits.SuccessorExpires | internal/controller/sandbox/sandbox_reconciler.go:84-87 | a run in which the pass for an expired Sandbox deletes its fresh successor of the same name |
| Branches.TtlAgree | internal/controller/sandbox/sandbox_reconciler.go:232-242 | the two TTL functions agree on being overdue exactly when the TTL is not zero or no time has passed |
| Branches.TtlNeverZero | internal/controller/sandbox/sandbox_webhook.go:55-67 | no Sandbox in a run has a zero TTL if the one it starts with has none, as each one that enters has a spec from the defaulter |
| Admission.DefaultedExactly | internal/controller/sandbox/sandbox_webhook.go:55-67 | the specs that come out of the defaulter are exactly those with a TTL that is not zero, and those it leaves alone |
| Traces.ReadyChangeWasSeen | internal/controller/sandbox/sandbox_reconciler.go:109-117 | in every run, each step of a pass that stores a new status that says Ready does so for the Sandbox the pass is for, after a store of that same pass in which its workload was in a phase mapped to Ready |
| Branches.ReadyWriteWasSeen | internal/controller/sandbox/sandbox_reconciler.go:109-117 | a pass that has a new Ready status to store saw its workload in a phase mapped to Ready at the end of its reads |
| Branches.ReadyWasSeen | internal/controller/sandbox/kubevirt.go:115-148 | a working copy that says Ready says so since it was read, or saw a ready workload at the end of this pass |
| Branches.TerminatingIsMarked | internal/controller/sandbox/sandbox_reconciler.go:75-80 | the copy of a deleted Sandbox says False/Terminating exactly when the lookup did not fail or the stored status said so before |
| Limits.SurvivesExactly | internal/controller/sandbox/sandbox_reconciler.go:173-179 | after two quiet terminating passes a child is still there exactly when the chosen type, if any, does not handle its kind |
| Limits.LeavesExactly | internal/controller/sandbox/sandbox_reconciler.go:173-188 | a Sandbox held by this finalizer alone is then gone, with a live child exactly when its kind is not handled |
| Leaks.CleanupNeedsAgreement | internal/controller/sandbox/sandbox_reconciler.go:166-189 | a run from a fresh Sandbox, the only user of its template, in which it carries the finalizer, has a stored type, and leaves with a live child of another kind |
| Leaks.CleanupNeedsSole | pkg/controller/reconciler/meta_updater.go:30-61 | a run from a fresh Sandbox, with stable types, in which its successor gets the finalizer by a stale patch, never a stored type, and leaves with its live pod |
| Leaks.ProtectionNeedsStable | internal/controller/sandbox/sandbox_reconciler.go:181-185 | a run from a fresh Sandbox, the only user of its template, in which it loses the template while it is marked and has a live child |
| Limits.SharedTemplateReleased | internal/controller/sandbox/sandbox_reconciler.go:181-185 | with two users, one terminating pass frees the template of the other, whose child is alive |
| Leaks.RetypedTemplateDisagrees | internal/controller/sandbox/sandbox_reconciler.go:93-98 | a run from a fresh Sandbox in which a template created again with another type leaves a live child of a kind no later pass handles |
| Controller.BaseReconciler.Reconcile | pkg/controller/reconciler/base_reconciler.go:51-90 | read, copy, reconcile, write back on success and on error: exactly one pass of the model |
| Controller.BaseReconciler.ReconcileMany | pkg/controller/reconciler/base_reconciler.go:51-90 | passes one after the other are exactly a run, to which all theorems about runs apply |
| Controller.BaseReconciler.Update | pkg/controller/reconciler/base_reconciler.go:96-102 | status first, metadata only when that did not fail |
| Controller.BaseReconciler.UpdateStatus | pkg/controller/reconciler/status_updater.go:26-31 | a write only on difference, and what it copies back |
| Controller.BaseReconciler.UpdateMeta | pkg/controller/reconciler/meta_updater.go:30-61 | the metadata patch; a Sandbox that is gone is no error |
| Controller.Reconciler.Reconcile | internal/controller/sandbox/sandbox_reconciler.go:52-120 | the inner pass on the working copy, every branch and early return, equals the model's pass |
| Controller.Reconciler.HandleTemplateSpec | internal/controller/sandbox/sandbox_reconciler.go:122-164 | inline spec, missing, terminating and usable template, with the condition each one sets |
| Controller.Reconciler.HandleTerminating | internal/controller/sandbox/sandbox_reconciler.go:166-189 | delete, unprotect, then drop the finalizer, stopping at the first failure |
| Controller.Reconciler.HandleActive | internal/controller/sandbox/sandbox_reconciler.go:93-119 | own finalizer on the copy, template protected, then children and report, from the spec that the reply of the patch leaves |
| Controller.Reconciler.CreateAndReport | internal/controller/sandbox/sandbox_reconciler.go:98-119 | create, or publish the failure; then publish the status and the time of the next pass |
| Controller.Reconciler.Protect | pkg/controller/util/protect.go:15-45 | the protecting patch is sent exactly when the template read does not carry the finalizer, and its reply is decoded into the template in use |
| Controller.Reconciler.Unprotect | pkg/controller/util/protect.go:60-83 | the releasing patch is sent for every non-empty list |
| Sandboxers.PodSandboxer.Create | internal/controller/sandbox/pod.go:34-61 | volumes, then a failed pod is deleted or a missing one created with rewritten claims |
| Sandboxers.PodSandboxer.Delete | internal/controller/sandbox/pod.go:63-74 | the pod by name, then the claims |
| Sandboxers.PodSandboxer.Status | internal/controller/sandbox/pod.go:76-99 | phase to status, reason and message |
| Sandboxers.KubevirtSandboxer.Create | internal/controller/sandbox/kubevirt.go:38-87 | gate, data volumes, claims, then the instance |
| Sandboxers.KubevirtSandboxer.Delete | internal/controller/sandbox/kubevirt.go:89-113 | gate, the instance by name, data volumes, claims |
| Sandboxers.KubevirtSandboxer.Status | internal/controller/sandbox/kubevirt.go:115-148 | phase to status and reason, and the joined non-empty condition messages of a failure |
| Sandboxers.DVPSandboxer.Create | internal/controller/sandbox/dvp.go:32-77 | gate, disks, then the machine with rewritten references |
| Sandboxers.DVPSandboxer.Delete | internal/controller/sandbox/dvp.go:79-103 | gate, the machine by name, disks |
| Sandboxers.DVPSandboxer.Status | internal/controller/sandbox/dvp.go:105-138 | phase to status and reason, and the joined non-empty condition messages of a failure |
| Sandboxers.VolumeManager.CreateMissing | internal/controller/sandbox/pvc.go:71-90 | the loop creates each wanted volume whose key is not among the owned ones, and stops at a failure |
| Sandboxers.VolumeManager.DeleteOwned | internal/controller/sandbox/pvc.go:92-103 | the loop deletes each owned volume and stops at a failure |
| Sandboxers.VolumeManager.GetOwned | internal/controller/sandbox/pvc.go:105-120 | the controlled objects of the listing, in order |
| Finalizers.NoLostFinalizers | pkg/controller/util/protect.go:27-83 | under every interleaving of stale patches and foreign edits, other parties' finalizers are what their edits alone make of them, whatever those do to the controller's, and that one occurs at most once unless somebody else stored it twice |
| Finalizers.BuildProtectPatch | pkg/controller/util/protect.go:27-45 | the compare-and-set that appends the finalizer, or nothing if it is there |
| Finalizers.BuildUnprotectPatch | pkg/controller/util/protect.go:60-83 | the compare-and-set to the foreign finalizers; nothing only for an empty list |
| Finalizers.ForeignShape | pkg/controller/util/protect.go:61-69 | the loop's result has no own finalizer and is the list itself exactly when it had none |
| MetaUpdater.MetaPatchCorrect | pkg/controller/reconciler/meta_updater.go:30-82 | applied to any stored object the patch stores exactly the changed fields if none was raced, else fails as a whole; it touches no other field and is empty exactly when nothing changed |
| MetaUpdater.BuildPatch | pkg/controller/reconciler/meta_updater.go:30-56 | the appended operations are the metadata patch; none is sent when nothing changed |
| Patches.ApplyConcat | pkg/patch/patch.go:26-28 | appended operations run after the earlier ones and only if those succeeded |
| Patches.ApplyCompareAndSet | pkg/patch/patch.go:63-69 | a test and a replace of one path store the value exactly when the old one is still there |
| Patches.UnescapeEscape | pkg/patch/patch.go:71-73 | the two-pass decoding of RFC 6901 section 4 undoes the escape on every string |
| Patches.EscapeUnescape | pkg/patch/patch.go:71-73 | every reference token is the escape of what it decodes to |
| Patches.EscapeIsToken | pkg/patch/patch.go:71-73 | the escape has no slash and every tilde is followed by 0 or 1 |
| Patches.EscapeInjective | pkg/patch/patch.go:71-73 | different strings have different escapes |
| Conditions.SetThenGet | pkg/controller/condition/condition.go:62-73 | after a set the condition is found, others are as before, and none is duplicated |
| Conditions.SetTwice | pkg/controller/condition/condition.go:71-73 | setting again changes nothing, and setting what is there changes nothing |
| Conditions.SetReadyOk | pkg/controller/condition/condition.go:71-73 | a truthful Ready condition keeps the list well-formed |
| Conditions.FindCondition | pkg/controller/condition/condition.go:62-69 | the loop finds the first condition of the type |
| Volumes.MadeExactly | internal/controller/sandbox/pvc.go:14-22 | a full name is among the objects Create makes exactly when the short one is a template volume of the kind |
| Volumes.MadeDistinct | internal/controller/sandbox/kubevirt.go:179-187 | distinct volume names make distinct objects, for lists of any length |
| Volumes.MadeFrom | internal/controller/sandbox/dvp.go:169-177 | each object comes from a template volume, has the Sandbox's own name and is controlled by it |
| Volumes.BuildVolumes | internal/controller/sandbox/kubevirt.go:179-187 | the appending loop makes one object per template volume of the kind, in order |
| Volumes.RewriteVmResolves | internal/controller/sandbox/dvp.go:199-213 | a VirtualDisk reference is renamed exactly when it names a template disk, to exactly one made object; all else, order and length stay |
| Volumes.RewritePodResolves | internal/controller/sandbox/pod.go:149-162 | the same for pod claims |
| Volumes.RewriteVmiResolves | internal/controller/sandbox/kubevirt.go:229-253 | the same for DataVolume references; claims never change |
| Volumes.MountsResolveAfter | internal/controller/sandbox/pod.go:163-170 | exactly when renamed pod mounts still name a pod volume |
| Volumes.DisksResolveAfter | internal/controller/sandbox/kubevirt.go:255-266 | exactly when renamed disks still name a VMI volume |
| Volumes.VirtualMachine.MutateVolumes | internal/controller/sandbox/dvp.go:199-213 | the in-place loop equals the rewriting function |
| Volumes.PodObject.MutatePVCs | internal/controller/sandbox/pod.go:149-171 | the in-place nested loops equal the rewriting function |
| Volumes.VirtualMachineInstance.MutateVolumes | internal/controller/sandbox/kubevirt.go:229-268 | the in-place loops equal the rewriting function |
| Names.VolumeNameInjective | internal/controller/sandbox/kubevirt.go:270-274 | volume names determine kind, UID and short name together |
| Names.FullNameDisjoint | internal/common/pod.go:5-11 | no workload has the name of a volume, of whatever Sandbox |
| Names.OwnNameUnique | internal/common/pod.go:5-11 | no object name can belong to two Sandboxes |
| Admission.AdmissionSound | internal/controller/service/volume_validator.go:15-57 | an admitted spec makes distinct names in and across kinds, and its detected backend passes its gate, two workload kinds included |
| Admission.ValidateVolumes | internal/controller/service/volume_validator.go:15-27 | accepts exactly lists with distinct names |
| Admission.ValidateType | internal/controller/service/volume_validator.go:31-57 | accepts exactly specs whose first workload and volumes pass their gates |
| Admission.ValidateSandboxCreate | internal/controller/sandbox/sandbox_webhook.go:27-43 | both validators for an inline spec, acceptance for a named template |
| Admission.AdmittedSandbox.Default | internal/controller/sandbox/sandbox_webhook.go:55-67 | a zero TTL becomes one hour, any other stays |
| Stream.BinaryReader.Read | api/client/kubeclient/websocket.go:62-97 | delivered bytes plus pending bytes are the pending bytes before; progress or the end; close code 1000 and EOF end as EOF, every other end as the connection's own error |
| Stream.BinaryReader.Open | api/client/kubeclient/websocket.go:66-74 | the next message, or the connection's error when there is none |
| Stream.BinaryReader.ReadOpen | api/client/kubeclient/websocket.go:78-90 | the open message's own read, closed as soon as it reports anything |
| Stream.CopyFrom | api/client/kubeclient/websocket.go:35-37 | the sink receives exactly the binary payloads, in order; there is no error exactly after an EOF or close code 1000, and else it is the connection's own |
| Stream.CopyTo | api/client/kubeclient/websocket.go:39-55 | a prefix of the source goes out, in binary messages; without an error everything was read and counted, and went out unless the connection broke under the last buffer; an error is the source's or the one that broke the connection |
| Stream.BinaryWriter.Write | api/client/kubeclient/websocket.go:47-55 | one message per call, sent, refused or cut; a write without an error has delivered fewer bytes exactly when the message was cut short and only closing it shows; then the next call fails |
| Stream.SilentLoss | api/client/kubeclient/websocket.go:52-54 | a write that reports success and delivers nothing, for any bytes |
| Stream.RoundTrip | api/client/kubeclient/websocket.go:35-41 | CopyTo and then CopyFrom is the identity on bytes, for any chunking, buffers and text messages in between |
| Stream.TransportKeepsBytes | api/client/kubeclient/websocket.go:76-95 | splitting messages and mixing in text keeps the binary bytes |
| Handshake.OneResult | api/client/kubeclient/async.go:104-109 | in every run the caller gets at most one of connection and error, and keeps it |
| Handshake.ClosedAfterDone | api/client/kubeclient/async.go:177-183 | a dialled connection is closed only after done is closed |
| Handshake.NoSendBlocks | api/client/kubeclient/streamer.go:28-41 | no channel send blocks for ever, and none at all once Stream has returned |
| Handshake.DoneClosedOnce | api/client/kubeclient/streamer.go:24-26 | one call of Stream closes done exactly once |
| Handshake.NoDeadlock | api/client/kubeclient/async.go:26-38 | the only states in which nothing can move by itself; unless still dialling, the caller has then got exactly one result |
| Handshake.RunsAreBounded | api/client/kubeclient/async.go:72-109 | no run goes on for ever |
| Attach.Attach | api/client/kubeclient/sandbox.go:29-69 | a connection is the one the last attempt made and a failure is that attempt's own error; one attempt without a timeout, never a timeout then; with one, the answer of the retry loop after no more attempts than started seconds |
| Attach.RetryLoop | api/client/kubeclient/sandbox.go:37-66 | exactly one answer is sent; every attempt but the last ended with status 400; the answer is the connection of the last attempt, its error, which is not status 400, or a timeout really reached |
| Attach.StartExactly | api/client/kubeclient/sandbox.go:58-60 | an attempt starts after all earlier ones, a second of sleep after each, and what each sleep took longer |
| Attach.BoundIsMet | api/client/kubeclient/sandbox.go:38-61 | the bound on attempts is met when every attempt is refused at once with status 400 |
| Attach.AttemptBound | api/client/kubeclient/sandbox.go:38-61 | any outcome takes at most ceil(timeout / 1s) attempts |
| Attach.OutcomeUnique | api/client/kubeclient/sandbox.go:37-66 | durations and results of the attempts determine the answer and the number of attempts |

## Left out

- Runs.CleanupSafety: asks at one point that the stored type handles the live children, or that the type can be told all
  the time. Otherwise it is false of every Sandbox with an open gate that has a stored type or a live child by then
  (`Exactness.CleanupExactly`).
- Runs.TypeAgreement: asks for an inline spec or a stable type, because without it is false
  (`Leaks.RetypedTemplateDisagrees`); where a type is stored, `Runs.AgreementStays` and `Exactness.CleanupExactly` ask
  for nothing of the kind.
- Runs.TemplateProtection: asks that only this Sandbox's passes release the template, because with a second user it is
  false (`Limits.SharedTemplateReleased`), and for a marked Sandbox also for a stable type, because without it is false
  (`Leaks.ProtectionNeedsStable`).
- Exactness.CleanupExactly: asks for an open gate, as with a closed one no terminating pass succeeds, and without a
  stored type for a live child, as there is nothing to leave behind yet.
- Stream.BinaryReader.Read: the `CloseMessage` branch (websocket.go:91-92) is not modelled, as the library's NextReader
  returns only text and binary messages; close frames arrive as its error.
- Stream.CopyFrom: the destination accepts every write; a destination that fails or writes less is io.Copy's own matter.
- Handshake.DoneClosedOnce: the caller streams at most once; a second call of Stream would close a closed channel.
- Attach.RetryLoop: the send on the unbuffered channel always meets the waiting caller.
- `AsConn`, deadlines, TLS, URLs, the HTTP round trip and `enrichError`: I/O around libraries not shown.
- In-place rewriting shares slices with the template spec it was copied from; the model rewrites a copy of its own. The
  shared spec is never written back.
- `lastTransitionTime` of conditions, events, logging, and fields of workloads other than volumes, claims, mounts, disks
  and block-device references (kept as `rest`).
- The guards of ConditionBuilder against empty status and reason: no empty value exists in the model's types.
- `RemoveCondition`, `Clone`, and the add and remove operations of `pkg/patch/patch.go`: not used by the core.
- The SandboxTemplate reconciler, the validator wrapper and feature-gate parsing: easy members without a hard claim.
- `internal/apiserver/registry/sandbox/rest/stream.go`: its reader drops the tail of a message larger than the buffer.
- Work queues, caches, garbage collection, kubelets, KubeVirt and DVP: only the store contract above is kept.
- The CLI, terminal handling and generated code.
