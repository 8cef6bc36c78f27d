/** The reconcilers as objects (sandbox_reconciler.go, base_reconciler.go and the two updaters): the working copy and
    the condition builder are changed step by step, and every method is one function of the pass. */
module Controller {
  import opened Types
  import opened Conditions
  import opened Finalizers
  import opened Backends
  import opened Cluster
  import opened Client
  import opened Sandboxers
  import Passes
  import MetaUpdater

  /** The working copy that the inner pass changes. */
  class SandboxObject {
    var value: Sandbox

    constructor (value: Sandbox)
      ensures this.value == value
    {
      this.value := value;
    }

    /** condition.SetCondition on the object's own list. */
    method SetCondition(cb: ConditionBuilder)
      modifies this
      ensures value == old(value).(status := old(value).status.(
        conditions := Conditions.SetCondition(cb.cond, old(value).status.conditions)))
    {
      value := value.(status := value.status.(
        conditions := Conditions.SetCondition(cb.cond, value.status.conditions)));
    }
  }

  /** The builder is set up for reports about this Sandbox. */
  ghost predicate BuilderFor(cb: ConditionBuilder, sb: Sandbox)
    reads cb
  {
    cb.cond.kind == READY && cb.cond.generation == sb.generation
  }

  class Reconciler {
    const client: ApiClient
    const pods: PodSandboxer
    const vmis: KubevirtSandboxer
    const vms: DVPSandboxer

    constructor (client: ApiClient)
      ensures Valid() && this.client == client
    {
      this.client := client;
      pods := new PodSandboxer(client);
      vmis := new KubevirtSandboxer(client);
      vms := new DVPSandboxer(client);
    }

    predicate Valid() {
      && pods.Valid() && vmis.Valid() && vms.Valid()
      && pods.client == client && vmis.client == client && vms.client == client
    }

    // The sandboxer interface: the stored type selects the backend.

    method Create(p: Pass, t: SandboxType, spec: TemplateSpec) returns (ok: bool)
      requires Valid() && t != NoType
      modifies client
      ensures (client.world, ok) == Passes.Create(p, t, spec, old(client.world))
    {
      match t
      case PodType => ok := pods.Create(p, spec);
      case DVPType => ok := vms.Create(p, spec);
      case KubevirtType => ok := vmis.Create(p, spec);
    }

    method Delete(p: Pass, t: SandboxType) returns (ok: bool)
      requires Valid() && t != NoType
      modifies client
      ensures (client.world, ok) == Passes.Delete(p, t, old(client.world))
    {
      match t
      case PodType => ok := pods.Delete(p);
      case DVPType => ok := vms.Delete(p);
      case KubevirtType => ok := vmis.Delete(p);
    }

    method Status(p: Pass, t: SandboxType) returns (r: Option<Passes.Report>)
      requires Valid() && t != NoType
      modifies client
      ensures (client.world, r) == Passes.GetStatus(p, t, old(client.world))
    {
      match t
      case PodType => r := pods.Status(p);
      case DVPType => r := vms.Status(p);
      case KubevirtType => r := vmis.Status(p);
    }

    /** ProtectObjects for the one template that may be there; `used` is the spec afterwards. */
    method Protect(p: Pass, template: Option<Template>, spec: TemplateSpec) returns (ok: bool, used: TemplateSpec)
      modifies client
      ensures (client.world, ok, used) == Passes.Protect(p, template, spec, old(client.world))
    {
      used := spec;
      if template.None? {
        return true, used;
      }
      var ops := BuildProtectPatch(template.value.meta.finalizers);
      if ops.None? {
        return true, used;
      }
      var decoded;
      ok, decoded := client.PatchTemplate(p, p.template, ops.value);
      if decoded.Some? {
        used := decoded.value;
      }
    }

    method Unprotect(p: Pass, template: Option<Template>) returns (ok: bool)
      modifies client
      ensures (client.world, ok) == Passes.Unprotect(p, template, old(client.world))
    {
      if template.None? {
        return true;
      }
      var ops := BuildUnprotectPatch(template.value.meta.finalizers);
      if ops.None? {
        return true;
      }
      var decoded;
      ok, decoded := client.PatchTemplate(p, p.template, ops.value);
    }

    /** The builder's Status, Reason and Message in a row, then SetCondition. */
    method Publish(sandbox: SandboxObject, cb: ConditionBuilder, report: Passes.Report)
      requires BuilderFor(cb, sandbox.value)
      modifies sandbox, cb
      ensures sandbox.value == Passes.WithReady(old(sandbox.value), report)
      ensures BuilderFor(cb, sandbox.value)
    {
      cb.Status(report.status);
      cb.Reason(report.reason);
      cb.Message(report.message);
      sandbox.SetCondition(cb);
    }

    method HandleTemplateSpec(p: Pass, sandbox: SandboxObject, cb: ConditionBuilder)
      returns (r: Passes.Resolution)
      requires BuilderFor(cb, sandbox.value)
      modifies client, sandbox, cb
      ensures (client.world, sandbox.value, r)
           == Passes.HandleTemplateSpec(p, old(sandbox.value), old(client.world))
      ensures BuilderFor(cb, sandbox.value)
    {
      if sandbox.value.spec.templateSpec.Some? {
        return Passes.Resolution(None, sandbox.value.spec.templateSpec, false);
      }
      var template: Option<Template> := None;
      var spec: Option<TemplateSpec> := None;
      var terminating := false;
      if sandbox.value.spec.template != "" {
        var found := client.GetTemplate(p.key, sandbox.value.spec.template);
        match found {
          case Failed =>
            return Passes.LookupFailed;
          case NotFound =>
            Publish(sandbox, cb, Passes.Report(False, ReasonPending, Passes.NOT_FOUND_MESSAGE));
          case Found(t) =>
            if t.deleting {
              var message := Passes.TerminatingMessage(sandbox.value.spec.template);
              Publish(sandbox, cb, Passes.Report(False, ReasonTerminating, message));
              terminating := true;
            }
            template, spec := Some(t), Some(t.spec);
        }
      }
      return Passes.Resolution(template, spec, terminating);
    }

    method HandleTerminating(p: Pass, sandbox: SandboxObject, template: Option<Template>) returns (ok: bool)
      requires Valid()
      modifies client, sandbox
      ensures (client.world, sandbox.value, ok)
           == Passes.HandleTerminating(p, old(sandbox.value), template, old(client.world))
    {
      if sandbox.value.status.kind != NoType {
        ok := Delete(p, sandbox.value.status.kind);
        if !ok {
          return false;
        }
      }
      if template.Some? {
        ok := Unprotect(p, template);
        if !ok {
          return false;
        }
      }
      var meta := sandbox.value.meta;
      sandbox.value := sandbox.value.(meta := meta.(finalizers := Foreign(meta.finalizers)));
      return true;
    }

    // The part of Reconcile after the early returns, in two steps.

    method CreateAndReport(p: Pass, sandbox: SandboxObject, cb: ConditionBuilder, spec: TemplateSpec)
      returns (outcome: Passes.Outcome)
      requires Valid() && sandbox.value.status.kind != NoType && BuilderFor(cb, sandbox.value)
      modifies client, sandbox, cb
      ensures (client.world, sandbox.value, outcome)
           == Passes.CreateAndReport(p, old(sandbox.value), spec, old(client.world))
    {
      var ok := Create(p, sandbox.value.status.kind, spec);
      if !ok {
        Publish(sandbox, cb, Passes.Report(False, ReasonFailed, "Failed to create sandbox."));
        return Passes.Error;
      }
      var report := Status(p, sandbox.value.status.kind);
      if report.None? {
        return Passes.Error;
      }
      Publish(sandbox, cb, report.value);
      return Passes.Requeue(Passes.NextSync(sandbox.value, client.world.store.now));
    }

    method HandleActive(p: Pass, sandbox: SandboxObject, cb: ConditionBuilder, template: Option<Template>,
                        spec: TemplateSpec)
      returns (outcome: Passes.Outcome)
      requires Valid() && sandbox.value.status.kind != NoType && BuilderFor(cb, sandbox.value)
      modifies client, sandbox, cb
      ensures (client.world, sandbox.value, outcome)
           == Passes.HandleActive(p, old(sandbox.value), template, spec, old(client.world))
    {
      var meta := sandbox.value.meta;
      sandbox.value := sandbox.value.(meta := meta.(finalizers := Added(meta.finalizers)));
      var ok, used := Protect(p, template, spec);
      if !ok {
        return Passes.Error;
      }
      outcome := CreateAndReport(p, sandbox, cb, used);
    }

    method Reconcile(p: Pass, sandbox: SandboxObject) returns (outcome: Passes.Outcome)
      requires Valid()
      modifies client, sandbox
      ensures (client.world, sandbox.value, outcome)
           == Passes.Reconcile(p, old(sandbox.value), old(client.world))
    {
      var cb := new ConditionBuilder(READY);
      cb.Generation(sandbox.value.generation);
      cb.Status(False);
      cb.Reason(ReasonPending);

      var r := HandleTemplateSpec(p, sandbox, cb);
      if r.LookupFailed? {
        return Passes.Error;
      }
      if sandbox.value.status.kind == NoType {
        sandbox.value := sandbox.value.(status := sandbox.value.status.(kind := DetectSandboxType(r.spec)));
      }
      if sandbox.value.deleting {
        Publish(sandbox, cb, Passes.Report(False, ReasonTerminating, ""));
        var ok := HandleTerminating(p, sandbox, r.template);
        return Passes.FromBool(ok);
      }
      if Passes.IsTTLExpired(sandbox.value, client.world.store.now) {
        var ok := client.DeleteSandbox(p, sandbox.value);
        return Passes.FromBool(ok);
      }
      if r.terminating || r.spec.None? || sandbox.value.status.kind == NoType {
        return Passes.Requeue(0);
      }
      outcome := HandleActive(p, sandbox, cb, r.template, r.spec.value);
    }
  }

  class BaseReconciler {
    const client: ApiClient
    const reconciler: Reconciler

    constructor (client: ApiClient)
      ensures Valid() && this.client == client
    {
      this.client := client;
      reconciler := new Reconciler(client);
    }

    predicate Valid() {
      reconciler.Valid() && reconciler.client == client
    }

    /** statusUpdater.Update */
    method UpdateStatus(p: Pass, oldObj: Sandbox, newObj: SandboxObject) returns (ok: bool)
      modifies client, newObj
      ensures (client.world, newObj.value, ok)
           == Passes.StatusUpdate(p, oldObj, old(newObj.value), old(client.world))
    {
      if oldObj.status == newObj.value.status {
        return true;
      }
      var meta := client.UpdateStatus(p, newObj.value);
      if meta.None? {
        return false;
      }
      newObj.value := newObj.value.(meta := meta.value);
      return true;
    }

    /** metaUpdater.Update */
    method UpdateMeta(p: Pass, oldObj: Sandbox, newObj: SandboxObject) returns (ok: bool)
      modifies client
      ensures (client.world, ok) == Passes.MetaUpdate(p, oldObj, newObj.value, old(client.world))
    {
      var ops := MetaUpdater.BuildPatch(oldObj.meta, newObj.value.meta);
      if ops.None? {
        return true;
      }
      var reply := client.PatchSandbox(p, ops.value);
      return !reply.Failed?;
    }

    method Update(p: Pass, oldObj: Sandbox, newObj: SandboxObject) returns (ok: bool)
      modifies client, newObj
      ensures (client.world, ok) == Passes.Update(p, oldObj, old(newObj.value), old(client.world))
    {
      ok := UpdateStatus(p, oldObj, newObj);
      if !ok {
        return false;
      }
      ok := UpdateMeta(p, oldObj, newObj);
    }

    /** One pass: read, copy, reconcile the copy, write back on success and on error. */
    method Reconcile(k: Key) returns (outcome: Passes.Outcome)
      requires Valid()
      modifies client
      ensures (client.world, outcome) == Passes.RunPass(k, old(client.world))
    {
      var found := client.GetSandbox(k);
      match found
      case Failed => return Passes.Error;
      case NotFound => return Passes.Requeue(0);
      case Found(obj) =>
        var objCopy := new SandboxObject(obj);
        var p := Passes.PassFor(k, obj);
        var result := reconciler.Reconcile(p, objCopy);
        var ok := Update(p, obj, objCopy);
        if !ok {
          return Passes.Error;
        }
        return result;
    }

    /** The work queue: passes for one Sandbox, one after the other, are a run. */
    method ReconcileMany(k: Key, n: nat) returns (ghost ws: seq<World>)
      requires Valid()
      modifies client
      ensures Passes.IsRun(k, ws) && |ws| == n + 1 && ws[0] == old(client.world) && ws[n] == client.world
    {
      ws := [client.world];
      for i := 0 to n
        invariant |ws| == i + 1 && ws[0] == old(client.world) && ws[i] == client.world
        invariant Passes.IsRun(k, ws)
      {
        ghost var longer := ws;
        var outcome := Reconcile(k);
        ws := ws + [client.world];
        forall j | 0 < j < |ws|
          ensures Passes.Follows(k, ws, j)
        {
          if j < i + 1 {
            assert Passes.Follows(k, longer, j);
          } else {
            assert longer[i].(script := longer[i].script) == longer[i];
            assert Passes.ByPass(k, longer[i], longer[i].script, client.world);
          }
        }
      }
    }
  }
}
