/** The writes of a pass to its Sandbox and its template keep the invariant. */
module Steps {
  import opened Types
  import opened Finalizers
  import opened Cluster
  import opened Passes
  import opened Safety
  import MetaUpdater

  // ---------------------------------------------------------------- the template

  function WithTemplateMeta(s: Store, n: string, m: Meta): Store
    requires n in s.templates
  {
    if s.templates[n].deleting && m.finalizers == [] then s.(templates := s.templates - {n})
    else s.(templates := s.templates[n := s.templates[n].(meta := m)])
  }

  lemma SameChildren(s: Store, s': Store)
    requires s'.children == s.children
    ensures forall ck, v :: OwnedBy(s', ck, v) <==> OwnedBy(s, ck, v)
    ensures forall ck, v :: Live(s', ck, v) <==> Live(s, ck, v)
    ensures forall v :: AllGone(s', v) <==> AllGone(s, v)
  {
  }

  /** What a pass has established when it takes the finalizer off the template. */
  ghost predicate Releases(rules: Rules, p: Pass, s: Store) {
    Holds(Deleting, rules, p, s) && (rules.sole && rules.stable ==> Holds(NothingLive, rules, p, s))
  }

  lemma TemplateWellFormed(rules: Rules, n: string, m: Meta, s: Store)
    requires WellFormed(s) && StableTypes(rules, s) && n in s.templates
    ensures WellFormed(WithTemplateMeta(s, n, m)) && StableTypes(rules, WithTemplateMeta(s, n, m))
  {
  }

  /** Other templates are as safe for a Sandbox, if its own is held as long as it must be. */
  lemma TemplatesSafe(rules: Rules, k: Key, s: Store, s': Store, sb: Sandbox)
    requires SafeSandbox(rules, k, s, sb) && s'.children == s.children
    requires sb.spec.templateSpec.None? && rules.sole && (!sb.deleting || rules.stable) && !AllGone(s, sb.uid) ==>
      TemplateHeld(s', sb.spec.template)
    ensures SafeSandbox(rules, k, s', sb)
  {
    SameChildren(s, s');
  }

  lemma TemplateSafe(rules: Rules, p: Pass, obj: Sandbox, m: Meta, s: Store)
    requires Safe(rules, p.key, s) && p == PassFor(p.key, obj) && Holds(Known(obj), rules, p, s)
    requires p.template in s.templates
    requires Carries(m.finalizers) || Releases(rules, p, s)
    ensures Safe(rules, p.key, WithTemplateMeta(s, p.template, m))
  {
    TemplateWellFormed(rules, p.template, m, s);
    if p.key in s.sandboxes {
      TemplatesSafe(rules, p.key, s, WithTemplateMeta(s, p.template, m), s.sandboxes[p.key]);
    }
  }

  lemma TemplateStep(rules: Rules, p: Pass, m: Meta, s: Store)
    requires p.template in s.templates && p.uid in s.used
    requires forall k' :: k' in s.sandboxes && k' != p.key ==> s.sandboxes[k'].uid != p.uid
    requires Foreign(m.finalizers) == Foreign(s.templates[p.template].meta.finalizers)
    ensures var s' := WithTemplateMeta(s, p.template, m);
      Evolves(rules, p.key, s, s') && Guarantee(p, s, s')
  {
  }

  lemma TemplateKeepsFact(rules: Rules, p: Pass, f: Fact, m: Meta, s: Store)
    requires p.template in s.templates && Holds(f, rules, p, s)
    requires f == Held ==> Carries(m.finalizers)
    ensures Holds(f, rules, p, WithTemplateMeta(s, p.template, m))
  {
    var s' := WithTemplateMeta(s, p.template, m);
    assert forall ck, v :: OwnedBy(s', ck, v) <==> OwnedBy(s, ck, v);
  }

  lemma TemplateKeepsFacts(rules: Rules, p: Pass, fs: set<Fact>, m: Meta, s: Store)
    requires p.template in s.templates && AllHold(fs, rules, p, s)
    requires Held in fs ==> Carries(m.finalizers)
    ensures AllHold(fs, rules, p, WithTemplateMeta(s, p.template, m))
  {
    forall f | f in fs
      ensures Holds(f, rules, p, WithTemplateMeta(s, p.template, m))
    {
      TemplateKeepsFact(rules, p, f, m, s);
    }
  }

  /** What a finalizer patch stores, if anything; a success is always stored. */
  lemma PatchTemplateResult(p: Pass, was: seq<string>, will: seq<string>, w: World)
    ensures var w1 := Turn(p.key, w).0;
      var (w', ok, decoded) := PatchTemplate(p, p.template, FinalizerPatch(was, will), w);
      if w' == w1 then !ok
      else
        && p.template in w1.store.templates && w1.store.templates[p.template].meta.finalizers == was
        && w' == Push(w1, By(p), WithTemplateMeta(w1.store, p.template,
                                                  w1.store.templates[p.template].meta.(finalizers := will)))
        && (will != [] ==> p.template in w'.store.templates
                           && w'.store.templates[p.template].meta.finalizers == will)
  {
    var w1 := Turn(p.key, w).0;
    if p.template in w1.store.templates {
      ApplyFinalizerPatch(was, will, w1.store.templates[p.template].meta);
    }
  }

  ghost predicate MayRelease(rules: Rules, fs: set<Fact>) {
    Held !in fs && Deleting in fs && (rules.sole && rules.stable ==> NothingLive in fs)
  }

  lemma WriteTemplateRunning(p: Pass, obj: Sandbox, fs: set<Fact>, m: Meta, w: World)
    requires Running(p, obj, fs, w) && p.template in w.store.templates
    requires Foreign(m.finalizers) == Foreign(w.store.templates[p.template].meta.finalizers)
    requires Carries(m.finalizers) || MayRelease(w.rules, fs)
    ensures var w' := Push(w, By(p), WithTemplateMeta(w.store, p.template, m));
      Running(p, obj, fs, w') && Continues(w, w')
  {
    GoodIsSafe(p.key, w);
    assert Holds(Known(obj), w.rules, p, w.store);
    assert NothingLive in fs ==> Holds(NothingLive, w.rules, p, w.store);
    assert Deleting in fs ==> Holds(Deleting, w.rules, p, w.store);
    TemplateSafe(w.rules, p, obj, m, w.store);
    TemplateStep(w.rules, p, m, w.store);
    TemplateKeepsFacts(w.rules, p, fs, m, w.store);
    Commit(p, obj, fs, w, WithTemplateMeta(w.store, p.template, m));
  }

  lemma PatchTemplateRunning(p: Pass, obj: Sandbox, fs: set<Fact>, was: seq<string>, will: seq<string>, w: World)
    requires Running(p, obj, fs, w) && Foreign(will) == Foreign(was)
    requires Carries(will) || MayRelease(w.rules, fs)
    ensures var (w', ok, decoded) := PatchTemplate(p, p.template, FinalizerPatch(was, will), w);
      && Running(p, obj, fs, w') && Continues(w, w')
      && (ok && Carries(will) ==> Holds(Held, w'.rules, p, w'.store))
  {
    TurnRunning(p, obj, fs, w);
    PatchTemplateResult(p, was, will, w);
    var w1 := Turn(p.key, w).0;
    if PatchTemplate(p, p.template, FinalizerPatch(was, will), w).0 != w1 {
      WriteTemplateRunning(p, obj, fs, w1.store.templates[p.template].meta.(finalizers := will), w1);
    }
  }

  // ---------------------------------------------------------------- the Sandbox

  function WithSandbox(s: Store, k: Key, sb: Sandbox): Store {
    s.(sandboxes := s.sandboxes[k := sb.(version := s.revision + 1)], revision := s.revision + 1)
  }

  /** A write to the stored Sandbox, whichever Sandbox now has the name. */
  ghost predicate SandboxWrite(rules: Rules, k: Key, s: Store, sb: Sandbox, s': Store) {
    && k in s.sandboxes
    && var a := s.sandboxes[k];
       && sb.uid == a.uid && sb.spec == a.spec && sb.created == a.created && (a.deleting ==> sb.deleting)
       && (a.past.carried ==> sb.past.carried) && (a.past.bound ==> sb.past.bound)
       && (a.status.kind != NoType ==> sb.status.kind == a.status.kind)
       && SafeSandbox(rules, k, s, sb)
       && (s' == WithSandbox(s, k, sb)
           || (s' == s.(sandboxes := s.sandboxes - {k}) && !Protected(sb) && sb.deleting))
  }

  lemma SandboxWellFormed(rules: Rules, k: Key, s: Store, sb: Sandbox, s': Store)
    requires WellFormed(s) && StableTypes(rules, s) && SandboxWrite(rules, k, s, sb, s')
    ensures WellFormed(s') && StableTypes(rules, s')
  {
  }

  /** A new version in a store with the same children and templates is as safe. */
  lemma VersionSafe(rules: Rules, k: Key, s: Store, sb: Sandbox, s': Store, version: nat)
    requires SafeSandbox(rules, k, s, sb) && s'.children == s.children && s'.templates == s.templates
    ensures SafeSandbox(rules, k, s', sb.(version := version))
  {
    SameChildren(s, s');
  }

  lemma SandboxSafe(rules: Rules, k: Key, s: Store, sb: Sandbox, s': Store)
    requires Safe(rules, k, s) && SandboxWrite(rules, k, s, sb, s')
    ensures Safe(rules, k, s')
  {
    SandboxWellFormed(rules, k, s, sb, s');
    VersionSafe(rules, k, s, sb, s', s.revision + 1);
  }

  lemma SandboxEvolves(rules: Rules, k: Key, s: Store, sb: Sandbox, s': Store)
    requires Safe(rules, k, s) && SandboxWrite(rules, k, s, sb, s')
    ensures Evolves(rules, k, s, s')
  {
  }

  lemma SandboxGuarantee(rules: Rules, p: Pass, obj: Sandbox, call: Call, s: Store, sb: Sandbox, s': Store)
    requires p == PassFor(p.key, obj) && Holds(Known(obj), rules, p, s)
    requires SandboxWrite(rules, p.key, s, sb, s') && Allowed(p, obj, call, s, sb)
    ensures Guarantee(p, s, s') && Expiry(p, call, s, s')
  {
  }

  /** A write that marks an active Sandbox is the expiry delete; one that puts the finalizer on the pass's own
      Sandbox finds its type stored. */
  ghost predicate Allowed(p: Pass, obj: Sandbox, call: Call, s: Store, sb: Sandbox)
    requires p.key in s.sandboxes
  {
    && (sb.deleting && !s.sandboxes[p.key].deleting ==>
          call.Expire? && Expired(obj, s.now) && (call.carried ==> sb.uid == p.uid))
    && (sb.uid == p.uid && Protected(sb) && !Protected(s.sandboxes[p.key]) ==> sb.status.kind != NoType)
  }

  lemma SandboxKeepsFact(rules: Rules, p: Pass, f: Fact, s: Store, sb: Sandbox, s': Store)
    requires SandboxWrite(rules, p.key, s, sb, s') && Holds(f, rules, p, s)
    requires f != NotReleased && f != Unheld
    requires f == StillProtected ==> s' == WithSandbox(s, p.key, sb) && Protected(sb)
    requires f.StatusIs? && IsAt(p.key, p.uid, s) ==> f.status == sb.status
    ensures Holds(f, rules, p, s')
  {
    assert forall ck, v :: OwnedBy(s', ck, v) <==> OwnedBy(s, ck, v);
  }

  lemma WriteSandboxRunning(p: Pass, obj: Sandbox, fs: set<Fact>, call: Call, sb: Sandbox, w: World, s': Store)
    requires Running(p, obj, fs, w) && {NotReleased, Unheld} !! fs
    requires SandboxWrite(w.rules, p.key, w.store, sb, s') && Allowed(p, obj, call, w.store, sb)
    requires StillProtected in fs ==> s' == WithSandbox(w.store, p.key, sb) && Protected(sb)
    requires forall f :: f in fs && f.StatusIs? && IsAt(p.key, p.uid, w.store) ==> f.status == sb.status
    ensures var w' := Push(w, Controller(p.uid, p.template, call), s');
      Running(p, obj, fs, w') && Continues(w, w')
  {
    assert Holds(Known(obj), w.rules, p, w.store);
    GoodIsSafe(p.key, w);
    SandboxSafe(w.rules, p.key, w.store, sb, s');
    SandboxEvolves(w.rules, p.key, w.store, sb, s');
    SandboxGuarantee(w.rules, p, obj, call, w.store, sb, s');
    forall f | f in fs
      ensures Holds(f, w.rules, p, s')
    {
      SandboxKeepsFact(w.rules, p, f, w.store, sb, s');
    }
    CommitCall(p, obj, fs, call, w, s');
  }

  /** The expiry delete. When the Sandbox that was read carried the finalizer, it is still the one stored. */
  lemma DeleteSandboxRunning(p: Pass, obj: Sandbox, fs: set<Fact>, fewer: set<Fact>, read: Sandbox, w: World)
    requires Running(p, obj, fs, w) && (Protected(read) ==> StillProtected in fs) && Expired(obj, w.store.now)
    requires fewer <= fs - {StillProtected, NotReleased, Unheld} && Known(obj) in fewer
    ensures Running(p, obj, fewer, DeleteSandbox(p, read, w).0) && Continues(w, DeleteSandbox(p, read, w).0)
  {
    TurnRunning(p, obj, fs, w);
    var (w1, t) := Turn(p.key, w);
    assert Protected(read) ==> Holds(StillProtected, w1.rules, p, w1.store);
    Weaken(p, obj, fs, fewer, w1);
    if t.fate != Refused && p.key in w1.store.sandboxes {
      GoodIsSafe(p.key, w1);
      var sb := w1.store.sandboxes[p.key].(deleting := true);
      StatusFacts(p, obj, fewer, w1);
      WriteSandboxRunning(p, obj, fewer, Expire(Protected(read)), sb, w1, Settle(w1.store, p.key, sb));
    }
  }

  lemma StatusFacts(p: Pass, obj: Sandbox, fs: set<Fact>, w: World)
    requires Running(p, obj, fs, w)
    ensures forall f :: f in fs && f.StatusIs? && IsAt(p.key, p.uid, w.store) ==>
      f.status == w.store.sandboxes[p.key].status
  {
    forall f | f in fs && f.StatusIs? && IsAt(p.key, p.uid, w.store)
      ensures f.status == w.store.sandboxes[p.key].status
    {
      assert Holds(f, w.rules, p, w.store);
    }
  }

  /** A status that a pass may store for the Sandbox it read. */
  ghost predicate ProperStatus(rules: Rules, obj: Sandbox, status: Status) {
    && StatusOk(status)
    && (obj.status.kind != NoType ==> status.kind == obj.status.kind)
    && (Covered(rules, obj) ==> status.kind == NoType || status.kind == ExpectedType(rules, obj))
  }

  lemma StatusWrite(rules: Rules, p: Pass, obj: Sandbox, status: Status, s: Store)
    requires Safe(rules, p.key, s) && Holds(Known(obj), rules, p, s) && ProperStatus(rules, obj, status)
    requires p.key in s.sandboxes && s.sandboxes[p.key].version == obj.version
    ensures var sb := Remember(obj.(status := status));
      SandboxWrite(rules, p.key, s, sb, WithSandbox(s, p.key, sb))
    ensures s.sandboxes[p.key] == obj
  {
  }

  predicate NoStatus(fs: set<Fact>) {
    forall f | f in fs :: !f.StatusIs?
  }

  lemma WriteStatusRunning(p: Pass, obj: Sandbox, status: Status, fs: set<Fact>, w: World)
    requires Running(p, obj, fs, w) && {NotReleased, Unheld} !! fs && NoStatus(fs)
    requires ProperStatus(w.rules, obj, status)
    requires p.key in w.store.sandboxes && w.store.sandboxes[p.key].version == obj.version
    ensures w.store.sandboxes[p.key] == obj
    ensures var w' := Push(w, By(p), WithSandbox(w.store, p.key, Remember(obj.(status := status))));
      Running(p, obj, fs, w') && Continues(w, w') && Holds(StatusIs(status), w'.rules, p, w'.store)
  {
    GoodIsSafe(p.key, w);
    assert Holds(Known(obj), w.rules, p, w.store);
    assert StillProtected in fs ==> Holds(StillProtected, w.rules, p, w.store);
    StatusWrite(w.rules, p, obj, status, w.store);
    var sb := Remember(obj.(status := status));
    WriteSandboxRunning(p, obj, fs, Plain, sb, w, WithSandbox(w.store, p.key, sb));
  }

  /** What a status write stores, if anything; a success is always stored. */
  lemma UpdateStatusResult(p: Pass, copy: Sandbox, w: World)
    ensures var (w1, t) := Turn(p.key, w);
      var (w', meta) := UpdateStatus(p, copy, w);
      if w' == w1 then meta.None?
      else
        && p.key in w1.store.sandboxes && w1.store.sandboxes[p.key].version == copy.version
        && var a := w1.store.sandboxes[p.key];
           && (meta.Some? ==> meta.value == a.meta || meta.value == copy.meta)
           && w' == Push(w1, By(p), WithSandbox(w1.store, p.key, Remember(a.(status := copy.status))))
  {
  }

  lemma UpdateStatusRunning(p: Pass, obj: Sandbox, copy: Sandbox, fs: set<Fact>, w: World)
    requires Running(p, obj, fs, w) && {NotReleased, Unheld} !! fs && NoStatus(fs)
    requires copy.version == obj.version && ProperStatus(w.rules, obj, copy.status)
    ensures var (w', meta) := UpdateStatus(p, copy, w);
      && Running(p, obj, fs, w') && Continues(w, w')
      && (w' == Turn(p.key, w).0 || Holds(StatusIs(copy.status), w'.rules, p, w'.store))
      && (meta.Some? ==> w' != Turn(p.key, w).0 && (meta.value == obj.meta || meta.value == copy.meta))
  {
    TurnRunning(p, obj, fs, w);
    UpdateStatusResult(p, copy, w);
    if UpdateStatus(p, copy, w).0 != Turn(p.key, w).0 {
      WriteStatusRunning(p, obj, copy.status, fs, Turn(p.key, w).0);
    }
  }

  /** What a metadata patch stores, if anything; a success is always stored. */
  lemma PatchSandboxResult(p: Pass, was: Meta, will: Meta, w: World)
    ensures var (w1, t) := Turn(p.key, w);
      var (w', reply) := PatchSandbox(p, MetaUpdater.MetaPatch(was, will), w);
      if w' == w1 then !reply.Found?
      else
        && p.key in w1.store.sandboxes
        && var a := w1.store.sandboxes[p.key];
           var m := MetaUpdater.Merged(was, will, a.meta);
           && MetaUpdater.Unraced(was, will, a.meta)
           && w' == Push(w1, By(p), Settle(w1.store, p.key, Remember(a.(meta := m))))
  {
    var (w1, t) := Turn(p.key, w);
    if p.key in w1.store.sandboxes {
      MetaUpdater.MetaPatchCorrect(was, will, w1.store.sandboxes[p.key].meta);
    }
  }

  lemma AddWrite(rules: Rules, p: Pass, obj: Sandbox, s: Store)
    requires Safe(rules, p.key, s) && p.key in s.sandboxes
    ensures var m := MetaUpdater.Merged(obj.meta, AddFinalizer(obj).meta, s.sandboxes[p.key].meta);
      var sb := Remember(s.sandboxes[p.key].(meta := m));
      SandboxWrite(rules, p.key, s, sb, Settle(s, p.key, sb))
  {
    AddedKeepsForeign(obj.meta.finalizers);
  }

  /** The metadata patch at the end of an active pass: at most the finalizer is added. */
  lemma AddPatchRunning(p: Pass, obj: Sandbox, status: Status, fs: set<Fact>, w: World)
    requires Running(p, obj, fs, w) && StillProtected !in fs && {NotReleased, Unheld} !! fs && StatusIs(status) in fs
    requires status.kind != NoType
    ensures var ops := MetaUpdater.MetaPatch(obj.meta, AddFinalizer(obj).meta);
      Running(p, obj, fs, PatchSandbox(p, ops, w).0) && Continues(w, PatchSandbox(p, ops, w).0)
  {
    var will := AddFinalizer(obj).meta;
    var ops := MetaUpdater.MetaPatch(obj.meta, will);
    TurnRunning(p, obj, fs, w);
    PatchSandboxResult(p, obj.meta, will, w);
    var w1 := Turn(p.key, w).0;
    if PatchSandbox(p, ops, w).0 != w1 {
      GoodIsSafe(p.key, w1);
      AddWrite(w1.rules, p, obj, w1.store);
      var m := MetaUpdater.Merged(obj.meta, will, w1.store.sandboxes[p.key].meta);
      var sb := Remember(w1.store.sandboxes[p.key].(meta := m));
      StatusFacts(p, obj, fs, w1);
      WriteSandboxRunning(p, obj, fs, Plain, sb, w1, Settle(w1.store, p.key, sb));
    }
  }

  /** What a terminating pass establishes about children before it gives the finalizer back. */
  function EmptyFacts(rules: Rules, obj: Sandbox, kind: SandboxType): set<Fact> {
    (if Firm(rules, obj) then {NothingLive} else {}) + (if kind != NoType then {ClearOf(kind)} else {})
  }

  lemma RemoveEmptied(rules: Rules, p: Pass, obj: Sandbox, status: Status, s: Store)
    requires IsAt(p.key, p.uid, s) && PastOk(s.sandboxes[p.key]) && p == PassFor(p.key, obj)
    requires s.sandboxes[p.key].spec == obj.spec && Holds(StatusIs(status), rules, p, s)
    requires AllHold(EmptyFacts(rules, obj, status.kind), rules, p, s)
    ensures Emptied(rules, s, s.sandboxes[p.key])
  {
    var sb := s.sandboxes[p.key];
    if Firm(rules, sb) {
      assert Holds(NothingLive, rules, p, s);
    }
    if sb.past.bound {
      assert Holds(ClearOf(status.kind), rules, p, s);
    }
  }

  /** Other metadata on a safe Sandbox: the finalizer only goes with nothing left. */
  lemma MetaSafe(rules: Rules, k: Key, s: Store, a: Sandbox, m: Meta)
    requires SafeSandbox(rules, k, s, a)
    requires Carries(m.finalizers) || (a.deleting && Emptied(rules, s, a))
    ensures SafeSandbox(rules, k, s, Remember(a.(meta := m)))
  {
  }

  lemma RemoveWrite(rules: Rules, p: Pass, obj: Sandbox, status: Status, s: Store)
    requires Safe(rules, p.key, s) && p == PassFor(p.key, obj) && Holds(Known(obj), rules, p, s)
    requires Holds(StillProtected, rules, p, s) && Holds(Deleting, rules, p, s) && Holds(StatusIs(status), rules, p, s)
    requires AllHold(EmptyFacts(rules, obj, status.kind), rules, p, s)
    ensures var m := MetaUpdater.Merged(obj.meta, RemoveFinalizer(obj).meta, s.sandboxes[p.key].meta);
      var sb := Remember(s.sandboxes[p.key].(meta := m));
      SandboxWrite(rules, p.key, s, sb, Settle(s, p.key, sb))
  {
    var a := s.sandboxes[p.key];
    RemoveEmptied(rules, p, obj, status, s);
    MetaSafe(rules, p.key, s, a, MetaUpdater.Merged(obj.meta, RemoveFinalizer(obj).meta, a.meta));
  }

  /** The metadata patch at the end of a terminating pass: the finalizer goes when nothing is left alive. */
  lemma RemovePatchRunning(p: Pass, obj: Sandbox, status: Status, fs: set<Fact>, w: World)
    requires Running(p, obj, fs, w) && {StillProtected, Deleting, StatusIs(status)} <= fs && {NotReleased, Unheld} !! fs
    requires EmptyFacts(w.rules, obj, status.kind) <= fs
    ensures var ops := MetaUpdater.MetaPatch(obj.meta, RemoveFinalizer(obj).meta);
      && Running(p, obj, fs - {StillProtected}, PatchSandbox(p, ops, w).0)
      && Continues(w, PatchSandbox(p, ops, w).0)
  {
    var will := RemoveFinalizer(obj).meta;
    var ops := MetaUpdater.MetaPatch(obj.meta, will);
    TurnRunning(p, obj, fs, w);
    PatchSandboxResult(p, obj.meta, will, w);
    var w1 := Turn(p.key, w).0;
    var fewer := fs - {StillProtected};
    Weaken(p, obj, fs, fewer, w1);
    if PatchSandbox(p, ops, w).0 != w1 {
      GoodIsSafe(p.key, w1);
      RemoveWrite(w1.rules, p, obj, status, w1.store);
      var m := MetaUpdater.Merged(obj.meta, will, w1.store.sandboxes[p.key].meta);
      var sb := Remember(w1.store.sandboxes[p.key].(meta := m));
      StatusFacts(p, obj, fewer, w1);
      WriteSandboxRunning(p, obj, fewer, Plain, sb, w1, Settle(w1.store, p.key, sb));
    }
  }
}
