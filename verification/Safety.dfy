/** What every store of every run satisfies, and what every step between two stores may do. */
module Safety {
  import opened Types
  import opened Names
  import opened Conditions
  import opened Finalizers
  import opened Backends
  import opened Cluster
  import opened Passes

  // ---------------------------------------------------------------- the invariant

  /** The Sandbox has an inline spec, or a template whose name keeps its type. */
  predicate Covered(rules: Rules, sb: Sandbox) {
    sb.spec.templateSpec.Some? || rules.stable
  }

  /** The type can be told whenever children are there: it is inline, or stable and nobody else may release the
      template that shows it. */
  predicate Firm(rules: Rules, sb: Sandbox) {
    sb.spec.templateSpec.Some? || (rules.stable && rules.sole)
  }

  /** The type this Sandbox has whenever its spec can be seen. */
  function ExpectedType(rules: Rules, sb: Sandbox): SandboxType {
    if sb.spec.templateSpec.Some? then DetectSandboxType(sb.spec.templateSpec)
    else if sb.spec.template != "" && sb.spec.template in rules.types then rules.types[sb.spec.template]
    else NoType
  }

  ghost predicate Live(s: Store, ck: ChildKey, u: Uid) {
    OwnedBy(s, ck, u) && !s.children[ck].deleting
  }

  /** Every child of `u` is absent or marked for deletion. */
  ghost predicate AllGone(s: Store, u: Uid) {
    forall ck :: OwnedBy(s, ck, u) ==> s.children[ck].deleting
  }

  /** The type is stored, and its backend handles every live child. */
  ghost predicate Agreed(s: Store, sb: Sandbox) {
    sb.status.kind != NoType && forall ck :: Live(s, ck, sb.uid) ==> Handles(sb.status.kind, ck.kind)
  }

  /** No live child is left that the backend of the stored type handles. */
  ghost predicate Cleared(s: Store, sb: Sandbox) {
    forall ck :: Live(s, ck, sb.uid) ==> !Handles(sb.status.kind, ck.kind)
  }

  ghost predicate TemplateHeld(s: Store, n: string) {
    n in s.templates && Carries(s.templates[n].meta.finalizers)
  }

  predicate SaysReady(conditions: seq<Condition>) {
    GetCondition(READY, conditions).Some? && GetCondition(READY, conditions).value.status == True
  }

  predicate StatusOk(status: Status) {
    ReadyOk(status.conditions) && (status.kind == NoType ==> !SaysReady(status.conditions))
  }

  predicate Expired(sb: Sandbox, now: int) {
    now > sb.created + sb.spec.ttl
  }

  /** A Sandbox that carries the finalizer has done so, and is bound to its type if it has one. */
  predicate PastOk(sb: Sandbox) {
    && (Protected(sb) ==> sb.past.carried)
    && (Protected(sb) && sb.status.kind != NoType ==> sb.past.bound)
    && (sb.past.bound ==> sb.past.carried && sb.status.kind != NoType)
  }

  /** What a Sandbox that gave the finalizer back has left: nothing that a bound type handles, and nothing at all where
      the type could be told all the time. */
  ghost predicate Emptied(rules: Rules, s: Store, sb: Sandbox) {
    (sb.past.bound ==> Cleared(s, sb)) && (Firm(rules, sb) ==> AllGone(s, sb.uid))
  }

  /** Children agree with a type that can be told; while one is there, the template is held, up to the deletion mark at
      least; and the finalizer is only given back after the mark, with nothing left. */
  ghost predicate SafeSandbox(rules: Rules, k: Key, s: Store, sb: Sandbox) {
    && PastOk(sb) && StatusOk(sb.status)
    && (forall ck :: OwnedBy(s, ck, sb.uid) ==> ck.namespace == k.namespace)
    && (Covered(rules, sb) ==>
          && (sb.status.kind == NoType || sb.status.kind == ExpectedType(rules, sb))
          && (forall ck :: Live(s, ck, sb.uid) ==> Handles(ExpectedType(rules, sb), ck.kind)))
    && (sb.spec.templateSpec.None? && rules.sole && (!sb.deleting || rules.stable) && !AllGone(s, sb.uid) ==>
          TemplateHeld(s, sb.spec.template))
    && (sb.past.carried && !Protected(sb) ==> sb.deleting && Emptied(rules, s, sb))
  }

  ghost predicate Safe(rules: Rules, k: Key, s: Store) {
    && WellFormed(s) && StableTypes(rules, s)
    && (k in s.sandboxes ==> SafeSandbox(rules, k, s, s.sandboxes[k]))
  }

  // ---------------------------------------------------------------- steps

  /** What both the environment and the controller keep from one store to the next. */
  ghost predicate Evolves(rules: Rules, k: Key, s: Store, t: Store) {
    && s.used <= t.used && s.now <= t.now && s.revision <= t.revision
    && (k in t.sandboxes && !IsAt(k, t.sandboxes[k].uid, s) ==> t.sandboxes[k].uid !in s.used)
    && (k in t.sandboxes && IsAt(k, t.sandboxes[k].uid, s) ==>
          var a, b := s.sandboxes[k], t.sandboxes[k];
          && b.spec == a.spec && b.created == a.created
          && (a.deleting ==> b.deleting)
          && (a.past.carried ==> b.past.carried) && (a.past.bound ==> b.past.bound)
          && (a.status.kind != NoType ==> b.status.kind == a.status.kind)
          && (Agreed(s, a) ==> Agreed(t, b)))
    && (k in s.sandboxes && !IsAt(k, s.sandboxes[k].uid, t) ==>
          s.sandboxes[k].past.carried ==> Emptied(rules, s, s.sandboxes[k]))
  }

  /** The Sandbox with this UID is stored under `k` and carries the controller's finalizer. */
  predicate CarriesAt(k: Key, u: Uid, s: Store) {
    IsAt(k, u, s) && Protected(s.sandboxes[k])
  }

  /** The Sandbox with this UID is stored and not marked for deletion. */
  predicate ActiveAt(k: Key, u: Uid, s: Store) {
    IsAt(k, u, s) && !s.sandboxes[k].deleting
  }

  /** Only the expiry delete ends an active Sandbox under the pass's name. If that is the Sandbox the pass is for, its
      TTL has run out at that very step; and it is, if the Sandbox that was read carried the finalizer. */
  ghost predicate Expiry(p: Pass, call: Call, s: Store, t: Store) {
    p.key in s.sandboxes ==>
      var v := s.sandboxes[p.key].uid;
      ActiveAt(p.key, v, s) && !ActiveAt(p.key, v, t) ==>
        && call.Expire?
        && (v == p.uid ==> Expired(s.sandboxes[p.key], s.now))
        && (call.carried ==> v == p.uid)
  }

  /** What a pass for `p` may do to the rest of the store: nothing to other Sandboxes or their children, and to
      templates only taking its own finalizer on or off the one its Sandbox names. On its own Sandbox it puts the
      finalizer only after the type is stored. */
  ghost predicate Guarantee(p: Pass, s: Store, t: Store) {
    && t.now == s.now && t.used == s.used && s.revision <= t.revision && p.uid in s.used
    && (p.key in t.sandboxes ==> IsAt(p.key, t.sandboxes[p.key].uid, s))
    && (CarriesAt(p.key, p.uid, t) && !CarriesAt(p.key, p.uid, s) ==> t.sandboxes[p.key].status.kind != NoType)
    && (forall k' :: k' != p.key ==>
          && (k' in s.sandboxes <==> k' in t.sandboxes)
          && (k' in s.sandboxes ==> t.sandboxes[k'] == s.sandboxes[k'] && s.sandboxes[k'].uid != p.uid))
    && (forall ck :: ck in s.children && ck !in t.children ==> OwnName(p.uid, ck))
    && (forall ck :: ck in t.children && ck in s.children && t.children[ck] != s.children[ck] ==>
          OwnName(p.uid, ck) && t.children[ck] == s.children[ck].(deleting := true))
    && (forall ck :: ck in t.children && ck !in s.children ==>
          OwnName(p.uid, ck) && t.children[ck].owner == Some(p.uid))
    && (forall n :: n != p.template ==>
          && (n in s.templates <==> n in t.templates)
          && (n in s.templates ==> t.templates[n] == s.templates[n]))
    && (forall n :: n in t.templates ==>
          && n in s.templates && t.templates[n].spec == s.templates[n].spec
          && Foreign(t.templates[n].meta.finalizers) == Foreign(s.templates[n].meta.finalizers))
  }

  ghost predicate Step(rules: Rules, k: Key, s: Store, e: Event) {
    && Evolves(rules, k, s, e.store)
    && match e.actor
       case Outside => Rely(rules, k, s, e.store)
       case Controller(u, n, call) => Guarantee(Pass(k, u, n), s, e.store) && Expiry(Pass(k, u, n), call, s, e.store)
  }

  predicate Creates(s: Store, t: Store) {
    exists ck | ck in t.children :: ck !in s.children
  }

  /** In none of the first `n` stores does this Sandbox carry the finalizer. */
  ghost predicate NeverCarried(k: Key, u: Uid, tr: seq<Event>, n: nat)
    requires n <= |tr|
  {
    forall h :: 0 <= h < n ==> !CarriesAt(k, u, tr[h].store)
  }

  /** A pass makes a child while its Sandbox is stored, or for one that has never carried the finalizer. */
  ghost predicate MadeWell(k: Key, tr: seq<Event>, i: nat)
    requires 0 < i < |tr|
  {
    tr[i].actor.Controller? && Creates(tr[i - 1].store, tr[i].store) ==>
      IsAt(k, tr[i].actor.uid, tr[i - 1].store) || NeverCarried(k, tr[i].actor.uid, tr, i)
  }

  ghost predicate SafeAt(rules: Rules, k: Key, tr: seq<Event>, i: nat)
    requires i < |tr|
  {
    Safe(rules, k, tr[i].store)
  }

  ghost predicate StepAt(rules: Rules, k: Key, tr: seq<Event>, i: nat)
    requires 0 < i < |tr|
  {
    Step(rules, k, tr[i - 1].store, tr[i]) && MadeWell(k, tr, i)
  }

  /** All stores of a history are safe and all its steps are allowed. */
  ghost predicate GoodHistory(rules: Rules, k: Key, tr: seq<Event>) {
    && (forall i :: 0 <= i < |tr| ==> SafeAt(rules, k, tr, i))
    && (forall i :: 0 < i < |tr| ==> StepAt(rules, k, tr, i))
  }

  /** The trace ends in the current store, and it is a good history. */
  ghost predicate Good(k: Key, w: World) {
    Tidy(w) && GoodHistory(w.rules, k, w.trace)
  }

  /** Nothing but the store, the script and the trace moves, and the trace only grows. */
  predicate Continues(w: World, w': World) {
    && w'.rules == w.rules && w'.gates == w.gates && w'.copyBack == w.copyBack
    && w.trace <= w'.trace
    && w.store.used <= w'.store.used
    && w.store.now <= w'.store.now
  }

  lemma PushGood(k: Key, w: World, actor: Actor, s: Store)
    requires Good(k, w) && Safe(w.rules, k, s) && Step(w.rules, k, w.store, Event(actor, s))
    requires actor.Controller? && Creates(w.store, s) ==>
      IsAt(k, actor.uid, w.store) || NeverCarried(k, actor.uid, w.trace, |w.trace|)
    ensures Good(k, Push(w, actor, s)) && Push(w, actor, s).store == s
    ensures Continues(w, Push(w, actor, s))
  {
    HistoryGrows(w.rules, k, w.trace, Event(actor, s));
  }

  lemma HistoryGrows(rules: Rules, k: Key, tr: seq<Event>, e: Event)
    requires tr != [] && GoodHistory(rules, k, tr)
    requires Safe(rules, k, e.store) && Step(rules, k, tr[|tr| - 1].store, e)
    requires e.actor.Controller? && Creates(tr[|tr| - 1].store, e.store) ==>
      IsAt(k, e.actor.uid, tr[|tr| - 1].store) || NeverCarried(k, e.actor.uid, tr, |tr|)
    ensures GoodHistory(rules, k, tr + [e])
  {
    var longer := tr + [e];
    forall i | 0 <= i < |longer|
      ensures SafeAt(rules, k, longer, i)
    {
      assert i < |tr| ==> SafeAt(rules, k, tr, i);
    }
    forall i | 0 < i < |longer|
      ensures StepAt(rules, k, longer, i)
    {
      if i < |tr| {
        assert StepAt(rules, k, tr, i);
        SameMaking(k, tr, longer, i);
      }
    }
  }

  lemma SameMaking(k: Key, tr: seq<Event>, longer: seq<Event>, i: nat)
    requires 0 < i < |tr| && tr <= longer && MadeWell(k, tr, i)
    ensures MadeWell(k, longer, i)
  {
    assert forall h :: 0 <= h < |tr| ==> longer[h] == tr[h];
  }

  lemma GoodIsSafe(k: Key, w: World)
    requires Good(k, w)
    ensures Safe(w.rules, k, w.store)
  {
    assert SafeAt(w.rules, k, w.trace, |w.trace| - 1);
  }

  // ---------------------------------------------------------------- facts a pass relies on between its calls

  /** What a pass for `p` has established and no one else undoes, while its Sandbox is still there. */
  datatype Fact =
    | Known(obj: Sandbox)              // the Sandbox that was read
    | StillProtected                   // its stored object carries the finalizer
    | NotReleased                      // it was active when read: it carries the finalizer, if it ever did
    | Unheld                           // it does not carry the finalizer, and never did before
    | StatusIs(status: Status)         // its stored status
    | Deleting
    | Gone(kinds: set<Kind>)           // no live child of these kinds
    | ClearOf(handled: SandboxType)       // no live child that this type handles
    | NothingLive                      // no live child at all
    | Held                             // its template carries the finalizer
    | OnlyListed(kind: Kind, listed: set<ChildKey>, done: set<ChildKey>)

  ghost predicate Holds(f: Fact, rules: Rules, p: Pass, s: Store) {
    match f
    case Known(obj) =>
      && p == PassFor(p.key, obj) && p.uid in s.used && obj.version <= s.revision
      && (forall k' :: k' in s.sandboxes && k' != p.key ==> s.sandboxes[k'].uid != p.uid)
      && (IsAt(p.key, p.uid, s) ==>
            var sb := s.sandboxes[p.key];
            && sb.spec == obj.spec && sb.created == obj.created && (obj.deleting ==> sb.deleting)
            && (obj.status.kind != NoType ==> sb.status.kind == obj.status.kind))
      && (p.key in s.sandboxes && s.sandboxes[p.key].version == obj.version ==> s.sandboxes[p.key] == obj)
      && (p.key in s.sandboxes && !IsAt(p.key, p.uid, s) ==>
            forall ck :: !OwnedBy(s, ck, s.sandboxes[p.key].uid))
    case StillProtected => IsAt(p.key, p.uid, s) && Protected(s.sandboxes[p.key])
    case NotReleased =>
      IsAt(p.key, p.uid, s) && s.sandboxes[p.key].past.carried ==> Protected(s.sandboxes[p.key])
    case Unheld => !CarriesAt(p.key, p.uid, s)
    case StatusIs(status) => IsAt(p.key, p.uid, s) ==> s.sandboxes[p.key].status == status
    case Deleting => IsAt(p.key, p.uid, s) ==> s.sandboxes[p.key].deleting
    case Gone(kinds) =>
      IsAt(p.key, p.uid, s) ==> forall ck :: OwnedBy(s, ck, p.uid) && ck.kind in kinds ==> s.children[ck].deleting
    case ClearOf(t) =>
      IsAt(p.key, p.uid, s) ==> forall ck :: OwnedBy(s, ck, p.uid) && Handles(t, ck.kind) ==> s.children[ck].deleting
    case NothingLive => IsAt(p.key, p.uid, s) ==> AllGone(s, p.uid)
    case Held => rules.sole && IsAt(p.key, p.uid, s) ==> TemplateHeld(s, p.template)
    case OnlyListed(kind, listed, done) =>
      IsAt(p.key, p.uid, s) ==>
        forall ck :: OwnedBy(s, ck, p.uid) && ck.kind == kind ==>
          ck in listed && (ck in done ==> s.children[ck].deleting)
  }

  ghost predicate AllHold(fs: set<Fact>, rules: Rules, p: Pass, s: Store) {
    forall f :: f in fs ==> Holds(f, rules, p, s)
  }

  /** Once the Sandbox has left its key it never comes back. */
  lemma NeverBack(rules: Rules, k: Key, u: Uid, s: Store, t: Store)
    requires Evolves(rules, k, s, t) && u in s.used && !IsAt(k, u, s)
    ensures !IsAt(k, u, t) && u in t.used
  {
  }

  lemma RelyEvolves(rules: Rules, k: Key, s: Store, t: Store)
    requires Safe(rules, k, s) && Rely(rules, k, s, t)
    ensures Evolves(rules, k, s, t)
  {
  }

  /** Fewer live children, and the Sandbox as it was but for its metadata and a deletion mark. */
  lemma FewerSafe(rules: Rules, k: Key, s: Store, a: Sandbox, t: Store, b: Sandbox)
    requires SafeSandbox(rules, k, s, a)
    requires b.uid == a.uid && b.spec == a.spec && b.status == a.status && b.past == a.past
    requires (a.deleting ==> b.deleting) && Protected(b) == Protected(a)
    requires forall ck :: OwnedBy(t, ck, a.uid) ==>
      OwnedBy(s, ck, a.uid) && (s.children[ck].deleting ==> t.children[ck].deleting)
    requires rules.sole && TemplateHeld(s, a.spec.template) ==> TemplateHeld(t, a.spec.template)
    ensures SafeSandbox(rules, k, t, b)
  {
    assert forall ck :: Live(t, ck, a.uid) ==> Live(s, ck, a.uid);
    assert AllGone(s, a.uid) ==> AllGone(t, a.uid);
  }

  lemma RelySafeLater(rules: Rules, k: Key, s: Store, t: Store)
    requires Safe(rules, k, s) && Rely(rules, k, s, t) && k in t.sandboxes && IsAt(k, t.sandboxes[k].uid, s)
    ensures SafeSandbox(rules, k, t, t.sandboxes[k])
  {
    FewerSafe(rules, k, s, s.sandboxes[k], t, t.sandboxes[k]);
  }

  lemma RelySafe(rules: Rules, k: Key, s: Store, t: Store)
    requires Safe(rules, k, s) && Rely(rules, k, s, t)
    ensures Safe(rules, k, t)
  {
    if k in t.sandboxes {
      var u := t.sandboxes[k].uid;
      if IsAt(k, u, s) {
        RelySafeLater(rules, k, s, t);
      } else {
        assert forall ck :: !OwnedBy(t, ck, u);
      }
    }
  }

  lemma RelyKeepsFact(f: Fact, rules: Rules, p: Pass, s: Store, t: Store)
    requires Safe(rules, p.key, s) && Rely(rules, p.key, s, t) && p.uid in s.used
    requires Holds(f, rules, p, s)
    requires f == Held ==> IsAt(p.key, p.uid, t) ==> t.sandboxes[p.key].spec.template == p.template
    ensures Holds(f, rules, p, t)
  {
    RelyEvolves(rules, p.key, s, t);
    if !IsAt(p.key, p.uid, s) {
      NeverBack(rules, p.key, p.uid, s, t);
    }
  }

  // ---------------------------------------------------------------- calls keep the run good and the facts true

  /** A pass in progress: the run so far is good and these facts hold. */
  ghost predicate Running(p: Pass, obj: Sandbox, fs: set<Fact>, w: World) {
    && Good(p.key, w) && p == PassFor(p.key, obj)
    && Known(obj) in fs && AllHold(fs, w.rules, p, w.store)
    && (Unheld in fs ==> NeverCarried(p.key, p.uid, w.trace, |w.trace|))
  }

  lemma TurnRunning(p: Pass, obj: Sandbox, fs: set<Fact>, w: World)
    requires Running(p, obj, fs, w)
    ensures Running(p, obj, fs, Turn(p.key, w).0) && Continues(w, Turn(p.key, w).0)
  {
    GoodIsSafe(p.key, w);
    assert Holds(Known(obj), w.rules, p, w.store);
    if w.script != [] && Rely(w.rules, p.key, w.store, w.script[0].env) {
      var t := w.script[0].env;
      RelyEvolves(w.rules, p.key, w.store, t);
      RelySafe(w.rules, p.key, w.store, t);
      PushGood(p.key, w.(script := w.script[1..]), Outside, t);
      RelyKeepsFact(Known(obj), w.rules, p, w.store, t);
      forall f | f in fs
        ensures Holds(f, w.rules, p, t)
      {
        if IsAt(p.key, p.uid, t) && !IsAt(p.key, p.uid, w.store) {
          NeverBack(w.rules, p.key, p.uid, w.store, t);
        }
        RelyKeepsFact(f, w.rules, p, w.store, t);
      }
    }
  }

  lemma WithFact(p: Pass, obj: Sandbox, fs: set<Fact>, f: Fact, w: World)
    requires Running(p, obj, fs, w) && Holds(f, w.rules, p, w.store) && f != Unheld
    ensures Running(p, obj, fs + {f}, w)
  {
  }

  lemma WithFacts(p: Pass, obj: Sandbox, fs: set<Fact>, more: set<Fact>, w: World)
    requires Running(p, obj, fs, w) && AllHold(more, w.rules, p, w.store) && Unheld !in more
    ensures Running(p, obj, fs + more, w)
  {
  }

  lemma Weaken(p: Pass, obj: Sandbox, fs: set<Fact>, fewer: set<Fact>, w: World)
    requires Running(p, obj, fs, w) && fewer <= fs && Known(obj) in fewer
    ensures Running(p, obj, fewer, w)
  {
  }

  /** A write of the pass becomes the next event of the run. */
  lemma CommitCall(p: Pass, obj: Sandbox, fs: set<Fact>, call: Call, w: World, s: Store)
    requires Running(p, obj, fs, w) && AllHold(fs, w.rules, p, s)
    requires Safe(w.rules, p.key, s) && Evolves(w.rules, p.key, w.store, s)
    requires Guarantee(p, w.store, s) && Expiry(p, call, w.store, s)
    requires Creates(w.store, s) ==> StillProtected in fs || Unheld in fs
    ensures var w' := Push(w, Controller(p.uid, p.template, call), s);
      Running(p, obj, fs, w') && Continues(w, w')
  {
    assert StillProtected in fs ==> Holds(StillProtected, w.rules, p, w.store);
    assert Unheld in fs ==> Holds(Unheld, w.rules, p, s);
    PushGood(p.key, w, Controller(p.uid, p.template, call), s);
  }

  lemma Commit(p: Pass, obj: Sandbox, fs: set<Fact>, w: World, s: Store)
    requires Running(p, obj, fs, w) && AllHold(fs, w.rules, p, s)
    requires Safe(w.rules, p.key, s) && Evolves(w.rules, p.key, w.store, s)
    requires Guarantee(p, w.store, s) && Expiry(p, Plain, w.store, s)
    requires Creates(w.store, s) ==> StillProtected in fs || Unheld in fs
    ensures Running(p, obj, fs, Push(w, By(p), s)) && Continues(w, Push(w, By(p), s))
  {
    CommitCall(p, obj, fs, Plain, w, s);
  }

  /** Facts that creating a child cannot break. */
  predicate AboutActive(f: Fact) {
    f.Known? || f.NotReleased? || f.Held? || f.StatusIs? || f.StillProtected? || f.Unheld?
  }

  /** The child is one that Create may make for `obj`. */
  ghost predicate Proper(rules: Rules, p: Pass, obj: Sandbox, new_: NewChild) {
    && OwnName(p.uid, new_.key) && new_.key.namespace == p.key.namespace
    && new_.child.owner == Some(p.uid) && !new_.child.deleting
    && (Covered(rules, obj) ==> Handles(ExpectedType(rules, obj), new_.key.kind))
    && (obj.status.kind != NoType ==> Handles(obj.status.kind, new_.key.kind))
  }

  /** The facts with which a pass may create children. */
  predicate MayCreate(obj: Sandbox, fs: set<Fact>) {
    && NotReleased in fs && StatusIs(obj.status) in fs && (StillProtected in fs || Unheld in fs)
    && (obj.spec.templateSpec.None? ==> Held in fs)
    && forall f | f in fs :: AboutActive(f)
  }

  function WithChild(s: Store, new_: NewChild): Store {
    s.(children := s.children[new_.key := new_.child])
  }

  lemma CreateWellFormed(rules: Rules, u: Uid, new_: NewChild, s: Store)
    requires WellFormed(s) && StableTypes(rules, s) && u in s.used
    requires new_.child.owner == Some(u) && OwnName(u, new_.key)
    ensures WellFormed(WithChild(s, new_)) && StableTypes(rules, WithChild(s, new_))
  {
  }

  /** One child more, for the Sandbox itself. */
  lemma CreateOwnSafe(rules: Rules, p: Pass, obj: Sandbox, new_: NewChild, s: Store, sb: Sandbox)
    requires SafeSandbox(rules, p.key, s, sb) && sb.uid == p.uid && sb.spec == obj.spec && p == PassFor(p.key, obj)
    requires sb.status == obj.status && new_.key !in s.children && Proper(rules, p, obj, new_)
    requires sb.past.carried ==> Protected(sb)
    requires obj.spec.templateSpec.None? && rules.sole ==> TemplateHeld(s, p.template)
    ensures SafeSandbox(rules, p.key, WithChild(s, new_), sb)
  {
    var s' := WithChild(s, new_);
    assert forall ck :: OwnedBy(s', ck, p.uid) <==> OwnedBy(s, ck, p.uid) || ck == new_.key;
    assert forall ck :: Live(s', ck, p.uid) ==> ck == new_.key || Live(s, ck, p.uid);
  }

  lemma CreateOtherSafe(rules: Rules, k: Key, u: Uid, new_: NewChild, s: Store, sb: Sandbox)
    requires SafeSandbox(rules, k, s, sb) && new_.child.owner == Some(u) && u != sb.uid && new_.key !in s.children
    requires forall ck :: !OwnedBy(s, ck, sb.uid)
    ensures SafeSandbox(rules, k, WithChild(s, new_), sb)
  {
    assert forall ck :: OwnedBy(WithChild(s, new_), ck, sb.uid) ==> OwnedBy(s, ck, sb.uid);
  }

  lemma CreateSafe(rules: Rules, p: Pass, obj: Sandbox, new_: NewChild, s: Store)
    requires Safe(rules, p.key, s) && p == PassFor(p.key, obj) && new_.key !in s.children
    requires Holds(Known(obj), rules, p, s) && Holds(NotReleased, rules, p, s)
    requires Holds(StatusIs(obj.status), rules, p, s)
    requires obj.spec.templateSpec.None? ==> Holds(Held, rules, p, s)
    requires Proper(rules, p, obj, new_)
    ensures Safe(rules, p.key, WithChild(s, new_))
  {
    CreateWellFormed(rules, p.uid, new_, s);
    if p.key in s.sandboxes {
      if IsAt(p.key, p.uid, s) {
        CreateOwnSafe(rules, p, obj, new_, s, s.sandboxes[p.key]);
      } else {
        CreateOtherSafe(rules, p.key, p.uid, new_, s, s.sandboxes[p.key]);
      }
    }
  }

  lemma CreateEvolves(rules: Rules, p: Pass, obj: Sandbox, new_: NewChild, s: Store)
    requires p == PassFor(p.key, obj) && new_.key !in s.children && Proper(rules, p, obj, new_)
    requires Holds(StatusIs(obj.status), rules, p, s)
    ensures Evolves(rules, p.key, s, WithChild(s, new_))
  {
    var s' := WithChild(s, new_);
    assert forall ck, v :: Live(s', ck, v) <==> Live(s, ck, v) || (ck == new_.key && v == p.uid);
  }

  lemma CreateStep(p: Pass, new_: NewChild, s: Store)
    requires p.uid in s.used && OwnName(p.uid, new_.key) && new_.child.owner == Some(p.uid)
    requires new_.key !in s.children
    requires forall k' :: k' in s.sandboxes && k' != p.key ==> s.sandboxes[k'].uid != p.uid
    ensures Guarantee(p, s, WithChild(s, new_)) && Expiry(p, Plain, s, WithChild(s, new_))
  {
  }

  lemma CreateKeepsFact(rules: Rules, p: Pass, f: Fact, new_: NewChild, s: Store)
    requires AboutActive(f) && Holds(f, rules, p, s) && new_.child.owner == Some(p.uid) && new_.key !in s.children
    ensures Holds(f, rules, p, WithChild(s, new_))
  {
    assert forall ck, v :: OwnedBy(WithChild(s, new_), ck, v) ==> OwnedBy(s, ck, v) || v == p.uid;
  }

  lemma CreateChildRunning(p: Pass, obj: Sandbox, fs: set<Fact>, new_: NewChild, w: World)
    requires Running(p, obj, fs, w) && MayCreate(obj, fs)
    requires Proper(w.rules, p, obj, new_)
    ensures Running(p, obj, fs, CreateChild(p, new_, w).0) && Continues(w, CreateChild(p, new_, w).0)
  {
    TurnRunning(p, obj, fs, w);
    var (w1, t) := Turn(p.key, w);
    if t.fate != Refused && new_.key !in w1.store.children {
      GoodIsSafe(p.key, w1);
      assert Holds(Known(obj), w1.rules, p, w1.store);
      CreateSafe(w1.rules, p, obj, new_, w1.store);
      CreateEvolves(w1.rules, p, obj, new_, w1.store);
      CreateStep(p, new_, w1.store);
      forall f | f in fs
        ensures Holds(f, w1.rules, p, WithChild(w1.store, new_))
      {
        CreateKeepsFact(w1.rules, p, f, new_, w1.store);
      }
      Commit(p, obj, fs, w1, WithChild(w1.store, new_));
    }
  }

  /** A child was marked for deletion, or removed. */
  ghost predicate Dropped(s: Store, s': Store, ck: ChildKey) {
    && ck in s.children
    && (s' == s.(children := s.children - {ck})
        || s' == s.(children := s.children[ck := s.children[ck].(deleting := true)]))
  }

  lemma DropMonotone(s: Store, s': Store, ck: ChildKey)
    requires Dropped(s, s', ck)
    ensures forall c, v :: OwnedBy(s', c, v) ==>
      OwnedBy(s, c, v) && (s.children[c].deleting ==> s'.children[c].deleting)
    ensures forall v :: AllGone(s, v) ==> AllGone(s', v)
    ensures forall c, v :: Live(s', c, v) ==> Live(s, c, v)
  {
  }

  lemma DropSafe(rules: Rules, k: Key, ck: ChildKey, s: Store, s': Store)
    requires Safe(rules, k, s) && Dropped(s, s', ck)
    ensures Safe(rules, k, s')
  {
    DropMonotone(s, s', ck);
  }

  lemma DropStep(rules: Rules, p: Pass, ck: ChildKey, s: Store, s': Store)
    requires Dropped(s, s', ck) && OwnName(p.uid, ck) && p.uid in s.used
    requires forall k' :: k' in s.sandboxes && k' != p.key ==> s.sandboxes[k'].uid != p.uid
    ensures Evolves(rules, p.key, s, s') && Guarantee(p, s, s')
  {
  }

  lemma DropKeepsFact(rules: Rules, p: Pass, f: Fact, ck: ChildKey, s: Store, s': Store)
    requires Dropped(s, s', ck) && Holds(f, rules, p, s)
    ensures Holds(f, rules, p, s')
  {
    DropMonotone(s, s', ck);
  }

  lemma DeleteChildRunning(p: Pass, obj: Sandbox, fs: set<Fact>, ck: ChildKey, w: World)
    requires Running(p, obj, fs, w) && OwnName(p.uid, ck)
    ensures var (w', ok) := DeleteChild(p, ck, w);
      && Running(p, obj, fs, w') && Continues(w, w')
      && (ok && ck in w'.store.children ==> w'.store.children[ck].deleting)
  {
    TurnRunning(p, obj, fs, w);
    var (w1, t) := Turn(p.key, w);
    if t.fate != Refused && ck in w1.store.children {
      var s' := DeleteChild(p, ck, w).0.store;
      assert Holds(Known(obj), w1.rules, p, w1.store);
      GoodIsSafe(p.key, w1);
      DropSafe(w1.rules, p.key, ck, w1.store, s');
      DropStep(w1.rules, p, ck, w1.store, s');
      forall f | f in fs
        ensures Holds(f, w1.rules, p, s')
      {
        DropKeepsFact(w1.rules, p, f, ck, w1.store, s');
      }
      Commit(p, obj, fs, w1, s');
    }
  }
}
