/** The API server as the controller sees it: a store, calls on it, and everyone else who changes it meanwhile. */
module Cluster {
  import opened Types
  import opened Names
  import opened Backends
  import opened Admission
  import opened Finalizers
  import Patches

  // ---------------------------------------------------------------- well-formed stores

  /** UIDs are unique, every controlled child carries its Sandbox's name, versions were handed out by the server. */
  predicate WellFormed(s: Store) {
    && (forall k1, k2 | k1 in s.sandboxes && k2 in s.sandboxes ::
          s.sandboxes[k1].uid == s.sandboxes[k2].uid ==> k1 == k2)
    && (forall k | k in s.sandboxes :: s.sandboxes[k].uid in s.used && s.sandboxes[k].version <= s.revision)
    && (forall ck | ck in s.children :: s.children[ck].owner.Some? ==>
          s.children[ck].owner.value in s.used && OwnName(s.children[ck].owner.value, ck))
  }

  predicate Protected(sb: Sandbox) {
    Carries(sb.meta.finalizers)
  }

  predicate IsAt(k: Key, u: Uid, s: Store) {
    k in s.sandboxes && s.sandboxes[k].uid == u
  }

  predicate OwnedBy(s: Store, ck: ChildKey, u: Uid) {
    ck in s.children && s.children[ck].owner == Some(u)
  }

  // ---------------------------------------------------------------- what everyone else may do

  /** Assumptions about templates. `sole`: nobody but the focal Sandbox's own pass takes the controller's finalizer
      off the template it names. `stable`: a template name always stands for the same detected type, also when the
      template is deleted and created again. */
  datatype Rules = Rules(sole: bool, stable: bool, types: map<string, SandboxType>)

  predicate StableTypes(rules: Rules, s: Store) {
    rules.stable ==>
      forall n | n in s.templates ::
        n in rules.types && DetectSandboxType(Some(s.templates[n].spec)) == rules.types[n]
  }

  /** A Sandbox created since `s`: its UID is new, the defaulting webhook has seen its spec, and it has neither status
      nor the controller's finalizer. */
  predicate IsNew(s: Store, b: Sandbox) {
    && b.uid !in s.used && b.version > s.revision && b.spec == Defaulted(b.spec)
    && !Protected(b) && b.past == Past(false, false) && b.status == Status(NoType, [])
  }

  /** The same Sandbox later: spec fixed, status and the controller's finalizer untouched by others. */
  predicate IsLater(s: Store, a: Sandbox, b: Sandbox) {
    && b.uid == a.uid && b.spec == a.spec && b.created == a.created && b.status == a.status
    && b.past == a.past && (a.deleting ==> b.deleting)
    && Ours(b.meta.finalizers) == Ours(a.meta.finalizers)
    && (b == a || b.version > s.revision)
  }

  /** Users, kubelets, other controllers and passes for other Sandboxes, as seen by the passes for `k`. They may do
      anything except what this forbids; it is transitive, so one step stands for any number. */
  predicate Rely(rules: Rules, k: Key, s: Store, t: Store) {
    && s.now <= t.now && s.revision <= t.revision && s.used <= t.used
    && WellFormed(t) && StableTypes(rules, t)
    && (forall k' | k' in t.sandboxes ::
          (k' in s.sandboxes && s.sandboxes[k'].uid == t.sandboxes[k'].uid) || t.sandboxes[k'].uid !in s.used)
    && (k in t.sandboxes ==>
          if k in s.sandboxes && s.sandboxes[k].uid == t.sandboxes[k].uid
          then IsLater(s, s.sandboxes[k], t.sandboxes[k]) else IsNew(s, t.sandboxes[k]))
    && (k in s.sandboxes && Protected(s.sandboxes[k]) ==> IsAt(k, s.sandboxes[k].uid, t))
    && (k in t.sandboxes ==>
          forall ck | ck in t.children :: OwnedBy(t, ck, t.sandboxes[k].uid) ==>
            && OwnedBy(s, ck, t.sandboxes[k].uid)
            && (s.children[ck].deleting ==> t.children[ck].deleting))
    && (rules.sole && k in t.sandboxes && IsAt(k, t.sandboxes[k].uid, s) ==>
          var n := t.sandboxes[k].spec.template;
          n in s.templates && Carries(s.templates[n].meta.finalizers) ==>
            n in t.templates && Carries(t.templates[n].meta.finalizers))
  }

  /** Any burst of outside activity is one step. */
  lemma RelyTransitive(rules: Rules, k: Key, s: Store, t: Store, r: Store)
    requires WellFormed(s)
    requires Rely(rules, k, s, t) && Rely(rules, k, t, r)
    ensures Rely(rules, k, s, r)
  {
    if k in r.sandboxes {
      var u := r.sandboxes[k].uid;
      if IsAt(k, u, s) {
        assert u in t.used;
        assert IsAt(k, u, t);
      }
      forall ck | ck in r.children && OwnedBy(r, ck, u)
        ensures OwnedBy(s, ck, u) && (s.children[ck].deleting ==> r.children[ck].deleting)
      {
        assert OwnedBy(t, ck, u) && u in t.used;
        assert IsAt(k, u, t);
      }
    }
  }

  // ---------------------------------------------------------------- runs

  /** What the history remembers of a write: whether it is the delete of an expired Sandbox, and then whether the
      Sandbox that the pass had read carried the finalizer. */
  datatype Call = Plain | Expire(carried: bool)

  datatype Actor = Outside | Controller(uid: Uid, template: string, call: Call)

  /** A store the server went through, and who produced it. */
  datatype Event = Event(actor: Actor, store: Store)

  /** What becomes of a call: it is served, it is refused, or it is served and the caller gets an error all the same
      (a time-out, a lost connection). */
  datatype Fate = Served | Refused | ReplyLost

  /** What meets one client call: what others make of the store just before it, the call's fate, whether a deleted
      child is held by its own finalizers or grace period, whether a status write copies the stored metadata back into
      the caller's object, and what decoding the reply of a patch leaves in the spec of the caller's template. */
  datatype Tick = Tick(env: Store, fate: Fate, held: bool, copyBack: bool, decoded: Option<TemplateSpec>)

  /** `script` has a tick for each coming call; when it is used up nobody interferes and nothing fails. `order` is
      the server's listing order. `trace` is every store so far, oldest first. */
  datatype World = World(
    rules: Rules, gates: set<Gate>, copyBack: bool, order: set<ChildKey> -> seq<ChildKey>,
    script: seq<Tick>, store: Store, trace: seq<Event>)

  function Push(w: World, actor: Actor, s: Store): World {
    w.(store := s, trace := w.trace + [Event(actor, s)])
  }

  /** The trace ends in the current store. */
  predicate Tidy(w: World) {
    w.trace != [] && w.trace[|w.trace| - 1].store == w.store
  }

  /** The start of a client call. */
  function Turn(k: Key, w: World): (World, Tick) {
    if w.script == [] then (w, Tick(w.store, Served, false, w.copyBack, None))
    else
      var w1 := w.(script := w.script[1..]);
      (if Rely(w.rules, k, w.store, w.script[0].env) then Push(w1, Outside, w.script[0].env) else w1, w.script[0])
  }

  datatype Reply<+T> = Found(value: T) | NotFound | Failed

  /** The focal key, and the Sandbox and template a pass works for. */
  datatype Pass = Pass(key: Key, uid: Uid, template: string)

  function By(p: Pass): Actor {
    Controller(p.uid, p.template, Plain)
  }

  // ---------------------------------------------------------------- reads

  function GetSandbox(k: Key, w: World): (World, Reply<Sandbox>) {
    var (w1, t) := Turn(k, w);
    (w1, if t.fate != Served then Failed
         else if k in w1.store.sandboxes then Found(w1.store.sandboxes[k]) else NotFound)
  }

  function GetTemplate(k: Key, name: string, w: World): (World, Reply<Template>) {
    var (w1, t) := Turn(k, w);
    (w1, if t.fate != Served then Failed
         else if name in w1.store.templates then Found(w1.store.templates[name]) else NotFound)
  }

  function GetChild(k: Key, ck: ChildKey, w: World): (World, Reply<Child>) {
    var (w1, t) := Turn(k, w);
    (w1, if t.fate != Served then Failed
         else if ck in w1.store.children then Found(w1.store.children[ck]) else NotFound)
  }

  /** All children of one kind in a namespace. */
  function InNamespace(s: Store, kind: Kind, namespace: string): set<ChildKey> {
    set ck | ck in s.children && ck.kind == kind && ck.namespace == namespace
  }

  predicate Enumerates(list: seq<ChildKey>, keys: set<ChildKey>) {
    && (forall i, j :: 0 <= i < j < |list| ==> list[i] != list[j])
    && (forall ck | ck in keys :: ck in list)
    && (forall i :: 0 <= i < |list| ==> list[i] in keys)
  }

  /** List returns every matching key once, with its owner, in the server's order. */
  function ListChildren(k: Key, kind: Kind, namespace: string, w: World)
    : (World, Option<seq<(ChildKey, Option<Uid>)>>)
  {
    var (w1, t) := Turn(k, w);
    var found := InNamespace(w1.store, kind, namespace);
    var listed := w.order(found);
    if t.fate != Served || !Enumerates(listed, found) then (w1, None)
    else (w1, Some(seq(|listed|, i requires 0 <= i < |listed| =>
      assert listed[i] in found; (listed[i], w1.store.children[listed[i]].owner))))
  }

  // ---------------------------------------------------------------- writes

  /** Create fails when the name is taken. */
  function CreateChild(p: Pass, new_: NewChild, w: World): (World, bool) {
    var (w1, t) := Turn(p.key, w);
    if t.fate == Refused || new_.key in w1.store.children then (w1, false)
    else (Push(w1, By(p), w1.store.(children := w1.store.children[new_.key := new_.child])), t.fate == Served)
  }

  /** Delete fails when there is nothing to delete; a held object is only marked. */
  function DeleteChild(p: Pass, ck: ChildKey, w: World): (World, bool) {
    var (w1, t) := Turn(p.key, w);
    if t.fate == Refused || ck !in w1.store.children then (w1, false)
    else
      var children := if t.held then w1.store.children[ck := w1.store.children[ck].(deleting := true)]
                      else w1.store.children - {ck};
      (Push(w1, By(p), w1.store.(children := children)), t.fate == Served)
  }

  /** The stored object with its past brought up to date. */
  function Remember(sb: Sandbox): Sandbox {
    sb.(past := Past(sb.past.carried || Protected(sb),
                     sb.past.bound || (Protected(sb) && sb.status.kind != NoType)))
  }

  /** An object marked for deletion leaves the store when its last finalizer does. */
  function Settle(s: Store, k: Key, sb: Sandbox): Store {
    if sb.deleting && sb.meta.finalizers == [] then s.(sandboxes := s.sandboxes - {k})
    else s.(sandboxes := s.sandboxes[k := sb.(version := s.revision + 1)], revision := s.revision + 1)
  }

  /** The delete names the object and not its UID: it meets whichever Sandbox has the name by then. */
  function DeleteSandbox(p: Pass, read: Sandbox, w: World): (World, bool) {
    var (w1, t) := Turn(p.key, w);
    if t.fate == Refused || p.key !in w1.store.sandboxes then (w1, false)
    else
      var s := Settle(w1.store, p.key, w1.store.sandboxes[p.key].(deleting := true));
      (Push(w1, Controller(p.uid, p.template, Expire(Protected(read))), s), t.fate == Served)
  }

  /** Only the status is stored, and only over the version that was read. The reply is the metadata the caller's
      object has afterwards. */
  function UpdateStatus(p: Pass, obj: Sandbox, w: World): (World, Option<Meta>) {
    var (w1, t) := Turn(p.key, w);
    if t.fate == Refused || p.key !in w1.store.sandboxes || w1.store.sandboxes[p.key].version != obj.version
    then (w1, None)
    else
      var stored := w1.store.sandboxes[p.key];
      var sb := Remember(stored.(status := obj.status)).(version := w1.store.revision + 1);
      var s := w1.store.(sandboxes := w1.store.sandboxes[p.key := sb], revision := w1.store.revision + 1);
      (Push(w1, By(p), s),
       if t.fate != Served then None else Some(if t.copyBack then stored.meta else obj.meta))
  }

  /** The server adds no finalizer to an object that is being deleted. */
  predicate AddsToDeleting(deleting: bool, was: Meta, will: Meta) {
    deleting && exists f | f in will.finalizers :: f !in was.finalizers
  }

  function PatchSandbox(p: Pass, ops: seq<Patches.Operation>, w: World): (World, Reply<Meta>) {
    var (w1, t) := Turn(p.key, w);
    if t.fate == Refused then (w1, Failed)
    else if p.key !in w1.store.sandboxes then (w1, if t.fate == Served then NotFound else Failed)
    else
      var stored := w1.store.sandboxes[p.key];
      match Patches.Apply(ops, stored.meta)
      case None => (w1, Failed)
      case Some(m) =>
        if AddsToDeleting(stored.deleting, stored.meta, m) then (w1, Failed)
        else
          (Push(w1, By(p), Settle(w1.store, p.key, Remember(stored.(meta := m)))),
           if t.fate == Served then Found(m) else Failed)
  }

  /** The third result is the spec that the caller's template has afterwards, unless it is the one it had. */
  function PatchTemplate(p: Pass, name: string, ops: seq<Patches.Operation>, w: World)
    : (World, bool, Option<TemplateSpec>)
  {
    var (w1, t) := Turn(p.key, w);
    if t.fate == Refused || name !in w1.store.templates then (w1, false, None)
    else
      var stored := w1.store.templates[name];
      match Patches.Apply(ops, stored.meta)
      case None => (w1, false, None)
      case Some(m) =>
        if AddsToDeleting(stored.deleting, stored.meta, m) then (w1, false, None)
        else
          var templates := if stored.deleting && m.finalizers == [] then w1.store.templates - {name}
                           else w1.store.templates[name := stored.(meta := m)];
          (Push(w1, By(p), w1.store.(templates := templates)), t.fate == Served, t.decoded)
  }
}
