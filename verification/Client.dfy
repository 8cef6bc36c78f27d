/** The client every controller object shares: each call advances the world by one call of the Cluster model. */
module Client {
  import opened Types
  import opened Cluster
  import Patches

  class ApiClient {
    var world: World

    constructor (world: World)
      ensures this.world == world
    {
      this.world := world;
    }

    method GetSandbox(k: Key) returns (r: Reply<Sandbox>)
      modifies this
      ensures (world, r) == Cluster.GetSandbox(k, old(world))
    {
      var (w, reply) := Cluster.GetSandbox(k, world);
      world, r := w, reply;
    }

    method GetTemplate(k: Key, name: string) returns (r: Reply<Template>)
      modifies this
      ensures (world, r) == Cluster.GetTemplate(k, name, old(world))
    {
      var (w, reply) := Cluster.GetTemplate(k, name, world);
      world, r := w, reply;
    }

    method GetChild(k: Key, ck: ChildKey) returns (r: Reply<Child>)
      modifies this
      ensures (world, r) == Cluster.GetChild(k, ck, old(world))
    {
      var (w, reply) := Cluster.GetChild(k, ck, world);
      world, r := w, reply;
    }

    method ListChildren(k: Key, kind: Kind, namespace: string) returns (r: Option<seq<(ChildKey, Option<Uid>)>>)
      modifies this
      ensures (world, r) == Cluster.ListChildren(k, kind, namespace, old(world))
    {
      var (w, reply) := Cluster.ListChildren(k, kind, namespace, world);
      world, r := w, reply;
    }

    method CreateChild(p: Pass, child: NewChild) returns (ok: bool)
      modifies this
      ensures (world, ok) == Cluster.CreateChild(p, child, old(world))
    {
      var (w, reply) := Cluster.CreateChild(p, child, world);
      world, ok := w, reply;
    }

    method DeleteChild(p: Pass, ck: ChildKey) returns (ok: bool)
      modifies this
      ensures (world, ok) == Cluster.DeleteChild(p, ck, old(world))
    {
      var (w, reply) := Cluster.DeleteChild(p, ck, world);
      world, ok := w, reply;
    }

    method DeleteSandbox(p: Pass, read: Sandbox) returns (ok: bool)
      modifies this
      ensures (world, ok) == Cluster.DeleteSandbox(p, read, old(world))
    {
      var (w, reply) := Cluster.DeleteSandbox(p, read, world);
      world, ok := w, reply;
    }

    method UpdateStatus(p: Pass, obj: Sandbox) returns (r: Option<Meta>)
      modifies this
      ensures (world, r) == Cluster.UpdateStatus(p, obj, old(world))
    {
      var (w, reply) := Cluster.UpdateStatus(p, obj, world);
      world, r := w, reply;
    }

    method PatchSandbox(p: Pass, ops: seq<Patches.Operation>) returns (r: Reply<Meta>)
      modifies this
      ensures (world, r) == Cluster.PatchSandbox(p, ops, old(world))
    {
      var (w, reply) := Cluster.PatchSandbox(p, ops, world);
      world, r := w, reply;
    }

    method PatchTemplate(p: Pass, name: string, ops: seq<Patches.Operation>)
      returns (ok: bool, decoded: Option<TemplateSpec>)
      modifies this
      ensures (world, ok, decoded) == Cluster.PatchTemplate(p, name, ops, old(world))
    {
      var (w, reply, spec) := Cluster.PatchTemplate(p, name, ops, world);
      world, ok, decoded := w, reply, spec;
    }
  }
}
