/** Whole runs: any number of passes for one Sandbox name, under any script of interference and failures. */
module Runs {
  import opened Types
  import opened Names
  import opened Conditions
  import opened Finalizers
  import opened Backends
  import opened Cluster
  import opened Passes
  import opened Safety
  import opened Steps
  import opened ReconcileSafety

  // ---------------------------------------------------------------- one Sandbox along a history

  /** Every step of the history evolves the store. */
  ghost predicate Linked(rules: Rules, k: Key, tr: seq<Event>) {
    forall i :: 0 < i < |tr| ==> EvolvesAt(rules, k, tr, i)
  }

  ghost predicate EvolvesAt(rules: Rules, k: Key, tr: seq<Event>, i: nat)
    requires 0 < i < |tr|
  {
    Evolves(rules, k, tr[i - 1].store, tr[i].store)
  }

  lemma GoodIsLinked(rules: Rules, k: Key, tr: seq<Event>)
    requires GoodHistory(rules, k, tr)
    ensures Linked(rules, k, tr)
  {
    forall i | 0 < i < |tr|
      ensures EvolvesAt(rules, k, tr, i)
    {
      assert StepAt(rules, k, tr, i);
    }
  }

  lemma {:induction false} StaysUsed(rules: Rules, k: Key, u: Uid, tr: seq<Event>, i: nat, j: nat)
    requires Linked(rules, k, tr) && i <= j < |tr| && u in tr[i].store.used
    ensures u in tr[j].store.used
    decreases j
  {
    if i < j {
      StaysUsed(rules, k, u, tr, i, j - 1);
      assert EvolvesAt(rules, k, tr, j);
    }
  }

  /** A Sandbox later in its life: same spec, a past that only grows, the type it had, if it had one, and children
      that agree with it if they did. */
  ghost predicate Grown(s: Store, a: Sandbox, t: Store, b: Sandbox) {
    && b.spec == a.spec && (a.past.carried ==> b.past.carried) && (a.past.bound ==> b.past.bound)
    && (a.status.kind != NoType ==> b.status.kind == a.status.kind)
    && (Agreed(s, a) ==> Agreed(t, b))
  }

  lemma GrownStep(rules: Rules, k: Key, u: Uid, s: Store, t: Store)
    requires Evolves(rules, k, s, t) && IsAt(k, u, t) && u in s.used
    ensures IsAt(k, u, s) && Grown(s, s.sandboxes[k], t, t.sandboxes[k])
  {
  }

  lemma {:induction false} GrownAlong(rules: Rules, k: Key, u: Uid, tr: seq<Event>, i: nat, j: nat)
    requires Linked(rules, k, tr) && i <= j < |tr| && u in tr[i].store.used
    requires IsAt(k, u, tr[i].store) && IsAt(k, u, tr[j].store)
    ensures Grown(tr[i].store, tr[i].store.sandboxes[k], tr[j].store, tr[j].store.sandboxes[k])
    decreases j
  {
    if i < j {
      StaysUsed(rules, k, u, tr, i, j - 1);
      assert EvolvesAt(rules, k, tr, j);
      GrownStep(rules, k, u, tr[j - 1].store, tr[j].store);
      GrownAlong(rules, k, u, tr, i, j - 1);
    }
  }

  /** A Sandbox that is there twice was there all the time. */
  lemma PastKept(rules: Rules, k: Key, u: Uid, tr: seq<Event>, i: nat, j: nat)
    requires GoodHistory(rules, k, tr) && i <= j < |tr|
    requires IsAt(k, u, tr[i].store) && IsAt(k, u, tr[j].store)
    ensures Grown(tr[i].store, tr[i].store.sandboxes[k], tr[j].store, tr[j].store.sandboxes[k])
  {
    GoodIsLinked(rules, k, tr);
    assert SafeAt(rules, k, tr, i);
    GrownAlong(rules, k, u, tr, i, j);
  }

  // ---------------------------------------------------------------- one pass

  lemma TurnGood(k: Key, w: World)
    requires Good(k, w)
    ensures Good(k, Turn(k, w).0) && Continues(w, Turn(k, w).0)
  {
    GoodIsSafe(k, w);
    if w.script != [] && Rely(w.rules, k, w.store, w.script[0].env) {
      RelyEvolves(w.rules, k, w.store, w.script[0].env);
      RelySafe(w.rules, k, w.store, w.script[0].env);
      PushGood(k, w.(script := w.script[1..]), Outside, w.script[0].env);
    }
  }

  /** An active Sandbox without the finalizer has never carried it. */
  lemma NeverDid(k: Key, w: World)
    requires Good(k, w) && k in w.store.sandboxes
    requires !w.store.sandboxes[k].deleting && !Protected(w.store.sandboxes[k])
    ensures NeverCarried(k, w.store.sandboxes[k].uid, w.trace, |w.trace|)
  {
    GoodIsSafe(k, w);
    var u := w.store.sandboxes[k].uid;
    forall h | 0 <= h < |w.trace|
      ensures !CarriesAt(k, u, w.trace[h].store)
    {
      if CarriesAt(k, u, w.trace[h].store) {
        assert SafeAt(w.rules, k, w.trace, h);
        PastKept(w.rules, k, u, w.trace, h, |w.trace| - 1);
      }
    }
  }

  /** What a read of the Sandbox establishes. */
  lemma ReadEstablishes(k: Key, w: World)
    requires Good(k, w) && k in w.store.sandboxes
    ensures var obj := w.store.sandboxes[k];
      Running(PassFor(k, obj), obj, ReadFacts(obj), w) && CopyOk(w.rules, obj, obj)
  {
    GoodIsSafe(k, w);
    var obj := w.store.sandboxes[k];
    assert Holds(Known(obj), w.rules, PassFor(k, obj), w.store);
    if !obj.deleting && !Protected(obj) {
      NeverDid(k, w);
    }
  }

  lemma RemoveUpdateRunning(p: Pass, obj: Sandbox, fs: set<Fact>, copy: Sandbox, w: World)
    requires Running(p, obj, fs, w) && {StatusIs(copy.status), StillProtected, Deleting} <= fs
    requires {NotReleased, Unheld} !! fs
    requires copy.meta == RemoveFinalizer(obj).meta != obj.meta && Deleted(p, obj, copy.status.kind, w)
    ensures var w' := MetaUpdate(p, obj, copy, w).0;
      Good(p.key, w') && Continues(w, w') && Holds(StatusIs(copy.status), w'.rules, p, w'.store)
  {
    var more := EmptyFacts(w.rules, obj, copy.status.kind);
    WithFacts(p, obj, fs, more, w);
    RemovePatchRunning(p, obj, copy.status, fs + more, w);
    var w' := MetaUpdate(p, obj, copy, w).0;
    assert StatusIs(copy.status) in fs + more - {StillProtected};
    assert Holds(StatusIs(copy.status), w'.rules, p, w'.store);
  }

  lemma AddUpdateRunning(p: Pass, obj: Sandbox, fs: set<Fact>, copy: Sandbox, w: World)
    requires Running(p, obj, fs, w) && {NotReleased, Unheld} !! fs && StatusIs(copy.status) in fs
    requires copy.meta == AddFinalizer(obj).meta != obj.meta && copy.status.kind != NoType
    ensures var w' := MetaUpdate(p, obj, copy, w).0;
      Good(p.key, w') && Continues(w, w') && Holds(StatusIs(copy.status), w'.rules, p, w'.store)
  {
    Weaken(p, obj, fs, fs - {StillProtected}, w);
    AddPatchRunning(p, obj, copy.status, fs - {StillProtected}, w);
    var w' := MetaUpdate(p, obj, copy, w).0;
    assert Holds(StatusIs(copy.status), w'.rules, p, w'.store);
  }

  /** The metadata write: only a terminating pass takes the finalizer off. */
  lemma MetaUpdateRunning(p: Pass, obj: Sandbox, fs: set<Fact>, copy: Sandbox, w: World)
    requires Running(p, obj, fs, w) && {NotReleased, Unheld} !! fs && StatusIs(copy.status) in fs
    requires obj.deleting && Protected(obj) <==> StillProtected in fs
    requires obj.deleting ==> Deleting in fs
    requires copy.meta == obj.meta || Writable(p, obj, copy, w)
    ensures var w' := MetaUpdate(p, obj, copy, w).0;
      Good(p.key, w') && Continues(w, w') && Holds(StatusIs(copy.status), w'.rules, p, w'.store)
  {
    ForeignShape(obj.meta.finalizers);
    if copy.meta == obj.meta {
      assert Holds(StatusIs(copy.status), w.rules, p, w.store);
    } else if copy.meta == AddFinalizer(obj).meta {
      AddUpdateRunning(p, obj, fs, copy, w);
    } else {
      RemoveUpdateRunning(p, obj, fs, copy, w);
    }
  }

  /** The status write keeps what the pass has established; the stored status is then the one read or the copy's. */
  lemma StatusUpdateRunning(p: Pass, obj: Sandbox, fs: set<Fact>, copy: Sandbox, w: World)
    requires Running(p, obj, fs, w) && {NotReleased, Unheld} !! fs && NoStatus(fs) && Writable(p, obj, copy, w)
    requires Holds(StatusIs(obj.status), w.rules, p, w.store)
    ensures var (w', written, ok) := StatusUpdate(p, obj, copy, w);
      && Running(p, obj, fs, w') && Continues(w, w')
      && (Holds(StatusIs(obj.status), w'.rules, p, w'.store) || Holds(StatusIs(copy.status), w'.rules, p, w'.store))
      && (ok ==> Writable(p, obj, copy, w') && Holds(StatusIs(copy.status), w'.rules, p, w'.store)
                 && (written == copy || written == copy.(meta := obj.meta)))
  {
    if obj.status != copy.status {
      if Deleted(p, obj, copy.status.kind, w) {
        var more := EmptyFacts(w.rules, obj, copy.status.kind);
        WithFacts(p, obj, fs, more, w);
        StatusWriteKeeps(p, obj, fs + more, copy, w);
        Weaken(p, obj, fs + more, fs, UpdateStatus(p, copy, w).0);
      } else {
        StatusWriteKeeps(p, obj, fs, copy, w);
      }
    }
  }

  lemma StatusTurn(p: Pass, obj: Sandbox, fs: set<Fact>, status: Status, w: World)
    requires Running(p, obj, fs, w) && Holds(StatusIs(status), w.rules, p, w.store)
    ensures var w' := Turn(p.key, w).0; Holds(StatusIs(status), w'.rules, p, w'.store)
  {
    WithFact(p, obj, fs, StatusIs(status), w);
    TurnRunning(p, obj, fs + {StatusIs(status)}, w);
    var w' := Turn(p.key, w).0;
    assert StatusIs(status) in fs + {StatusIs(status)};
    assert Holds(StatusIs(status), w'.rules, p, w'.store);
  }

  lemma StatusWriteKeeps(p: Pass, obj: Sandbox, fs: set<Fact>, copy: Sandbox, w: World)
    requires Running(p, obj, fs, w) && {NotReleased, Unheld} !! fs && NoStatus(fs)
    requires copy.version == obj.version && ProperStatus(w.rules, obj, copy.status)
    requires Holds(StatusIs(obj.status), w.rules, p, w.store)
    ensures var (w', meta) := UpdateStatus(p, copy, w);
      && Running(p, obj, fs, w') && Continues(w, w')
      && (Holds(StatusIs(obj.status), w'.rules, p, w'.store) || Holds(StatusIs(copy.status), w'.rules, p, w'.store))
      && (meta.Some? ==> (meta.value == obj.meta || meta.value == copy.meta)
                         && Holds(StatusIs(copy.status), w'.rules, p, w'.store))
  {
    UpdateStatusRunning(p, obj, copy, fs, w);
    StatusTurn(p, obj, fs, obj.status, w);
  }

  function BareFacts(obj: Sandbox): set<Fact> {
    LateFacts(obj) - {StatusIs(obj.status)}
  }

  lemma LateIsBare(p: Pass, obj: Sandbox, w: World)
    requires Running(p, obj, LateFacts(obj), w)
    ensures Running(p, obj, BareFacts(obj), w) && NoStatus(BareFacts(obj))
    ensures Holds(StatusIs(obj.status), w.rules, p, w.store)
  {
    Weaken(p, obj, LateFacts(obj), BareFacts(obj), w);
  }

  /** What is left of the outer pass once the status is written. */
  lemma AfterStatusGood(p: Pass, obj: Sandbox, written: Sandbox, w: World)
    requires Running(p, obj, BareFacts(obj), w) && Holds(StatusIs(written.status), w.rules, p, w.store)
    requires written.meta == obj.meta || Writable(p, obj, written, w)
    ensures var w' := MetaUpdate(p, obj, written, w).0;
      Good(p.key, w') && Continues(w, w') && Holds(StatusIs(written.status), w'.rules, p, w'.store)
  {
    WithFact(p, obj, BareFacts(obj), StatusIs(written.status), w);
    MetaUpdateRunning(p, obj, BareFacts(obj) + {StatusIs(written.status)}, written, w);
  }

  lemma UpdateGood(p: Pass, obj: Sandbox, copy: Sandbox, w: World)
    requires Running(p, obj, LateFacts(obj), w) && Writable(p, obj, copy, w)
    ensures var w' := Update(p, obj, copy, w).0;
      && Good(p.key, w') && Continues(w, w')
      && (Holds(StatusIs(obj.status), w'.rules, p, w'.store) || Holds(StatusIs(copy.status), w'.rules, p, w'.store))
  {
    LateIsBare(p, obj, w);
    StatusUpdateRunning(p, obj, BareFacts(obj), copy, w);
    var (w1, written, ok) := StatusUpdate(p, obj, copy, w);
    if ok {
      AfterStatusGood(p, obj, written, w1);
    }
  }

  /** The rest of a pass, once it has read its Sandbox. */
  lemma ReadPassGood(k: Key, obj: Sandbox, w: World)
    requires Good(k, w) && k in w.store.sandboxes && w.store.sandboxes[k] == obj
    ensures var p := PassFor(k, obj);
      var (w2, copy, outcome) := Reconcile(p, obj, w);
      var w3 := Update(p, obj, copy, w2).0;
      && Good(k, w2) && Continues(w, w2) && Good(k, w3) && Continues(w2, w3)
      && (Holds(StatusIs(obj.status), w3.rules, p, w3.store) || Holds(StatusIs(copy.status), w3.rules, p, w3.store))
  {
    var p := PassFor(k, obj);
    ReadEstablishes(k, w);
    ReconcileRunning(p, obj, w);
    var (w2, copy, outcome) := Reconcile(p, obj, w);
    UpdateGood(p, obj, copy, w2);
  }

  lemma RunPassGood(k: Key, w: World)
    requires Good(k, w)
    ensures Good(k, RunPass(k, w).0) && Continues(w, RunPass(k, w).0)
  {
    TurnGood(k, w);
    var (w1, found) := GetSandbox(k, w);
    if found.Found? {
      ReadPassGood(k, found.value, w1);
    }
  }

  lemma ByPassGood(k: Key, w: World, script: seq<Tick>, w': World)
    requires Good(k, w) && ByPass(k, w, script, w')
    ensures Good(k, w') && Continues(w, w')
  {
    RunPassGood(k, w.(script := script));
  }

  /** Every store of every run is safe and every step is allowed. */
  lemma {:induction false} RunGood(k: Key, ws: seq<World>, i: nat)
    requires IsRun(k, ws) && Good(k, ws[0]) && i < |ws|
    ensures Good(k, ws[i]) && Continues(ws[0], ws[i])
  {
    if i > 0 {
      RunGood(k, ws, i - 1);
      assert Follows(k, ws, i);
      var script :| ByPass(k, ws[i - 1], script, ws[i]);
      ByPassGood(k, ws[i - 1], script, ws[i]);
    }
  }

  /** Every store that a run went through and who produced it, oldest first. */
  function History(ws: seq<World>): seq<Event>
    requires ws != []
  {
    ws[|ws| - 1].trace
  }

  /** A run may start in any safe store, for example one without the Sandbox. */
  lemma StartGood(k: Key, w: World)
    requires w.trace == [Event(Outside, w.store)] && Safe(w.rules, k, w.store)
    ensures Good(k, w)
  {
  }

  lemma EmptyIsSafe(k: Key, rules: Rules, s: Store)
    requires WellFormed(s) && StableTypes(rules, s) && k !in s.sandboxes
    ensures Safe(rules, k, s)
  {
  }

  // ---------------------------------------------------------------- the theorems

  /** Nothing is left alive by the Sandbox: its type can be told all the time, or it is stored and agrees with the live
      children. */
  ghost predicate Accounted(rules: Rules, s: Store, sb: Sandbox) {
    Firm(rules, sb) || Agreed(s, sb)
  }

  lemma LeavesEmpty(rules: Rules, k: Key, u: Uid, tr: seq<Event>, i: nat, j: nat)
    requires GoodHistory(rules, k, tr) && i <= j < |tr| - 1
    requires CarriesAt(k, u, tr[i].store) && IsAt(k, u, tr[j].store) && !IsAt(k, u, tr[j + 1].store)
    requires Accounted(rules, tr[i].store, tr[i].store.sandboxes[k])
    ensures AllGone(tr[j].store, u)
  {
    assert SafeAt(rules, k, tr, i);
    PastKept(rules, k, u, tr, i, j);
    assert StepAt(rules, k, tr, j + 1);
  }

  /** Cleanup safety. Take any run: any number of passes, any script of user deletes, phase changes, edits of other
      finalizers, template changes, failed calls, lost replies and held deletions in between. If the stored Sandbox
      carried the finalizer at some point (i), with a stored type that handles its live children, then at the step
      where it leaves the store (after j) every child it controls is absent or marked for deletion. Nothing is assumed
      about templates. Where no type is stored, it is enough that it can be told all the time: an inline spec, or a
      stable template that nobody else releases. */
  lemma CleanupSafety(k: Key, u: Uid, ws: seq<World>, i: nat, j: nat)
    requires IsRun(k, ws) && Good(k, ws[0])
    requires var tr := History(ws);
      && i <= j < |tr| - 1
      && CarriesAt(k, u, tr[i].store) && IsAt(k, u, tr[j].store) && !IsAt(k, u, tr[j + 1].store)
      && Accounted(ws[0].rules, tr[i].store, tr[i].store.sandboxes[k])
    ensures AllGone(History(ws)[j].store, u)
  {
    RunGood(k, ws, |ws| - 1);
    LeavesEmpty(ws[0].rules, k, u, History(ws), i, j);
  }

  /** What holds without any condition: a Sandbox that carried the finalizer while its type was stored leaves no live
      child that this type handles, whatever happens to templates. */
  lemma HandledNeverLeft(k: Key, u: Uid, ws: seq<World>, i: nat, j: nat)
    requires IsRun(k, ws) && Good(k, ws[0])
    requires var tr := History(ws);
      && i <= j < |tr| - 1
      && CarriesAt(k, u, tr[i].store) && tr[i].store.sandboxes[k].status.kind != NoType
      && IsAt(k, u, tr[j].store) && !IsAt(k, u, tr[j + 1].store)
    ensures var s := History(ws)[j].store; Cleared(s, s.sandboxes[k])
  {
    RunGood(k, ws, |ws| - 1);
    var rules, tr := ws[0].rules, History(ws);
    assert SafeAt(rules, k, tr, i);
    PastKept(rules, k, u, tr, i, j);
    assert StepAt(rules, k, tr, j + 1);
  }

  /** Agreement stays: once a stored type handles the live children, it does so as long as the Sandbox is stored,
      whatever happens to the template. */
  lemma AgreementStays(k: Key, u: Uid, ws: seq<World>, i: nat, j: nat)
    requires IsRun(k, ws) && Good(k, ws[0])
    requires var tr := History(ws);
      && i <= j < |tr| && IsAt(k, u, tr[i].store) && IsAt(k, u, tr[j].store)
      && Agreed(tr[i].store, tr[i].store.sandboxes[k])
    ensures var s := History(ws)[j].store; Agreed(s, s.sandboxes[k])
  {
    RunGood(k, ws, |ws| - 1);
    PastKept(ws[0].rules, k, u, History(ws), i, j);
  }

  /** Only passes put the finalizer on a Sandbox, and one for this very Sandbox does so after the type is stored. */
  lemma OwnFinalizerIsTyped(k: Key, u: Uid, ws: seq<World>, i: nat)
    requires IsRun(k, ws) && Good(k, ws[0])
    requires var tr := History(ws);
      && 0 < i < |tr| && IsAt(k, u, tr[i - 1].store) && !CarriesAt(k, u, tr[i - 1].store)
      && CarriesAt(k, u, tr[i].store)
    ensures var e := History(ws)[i];
      e.actor.Controller? && (e.actor.uid == u ==> e.store.sandboxes[k].status.kind != NoType)
  {
    RunGood(k, ws, |ws| - 1);
    assert StepAt(ws[0].rules, k, History(ws), i);
  }

  /** With any number of users of the template a stable type is enough, once a pass for this very Sandbox has put the
      finalizer on it (step i): the stored type then agrees. */
  lemma SharedCleanup(k: Key, u: Uid, ws: seq<World>, i: nat, j: nat)
    requires IsRun(k, ws) && Good(k, ws[0]) && ws[0].rules.stable
    requires var tr := History(ws);
      && 0 < i <= j < |tr| - 1 && tr[i].actor.Controller? && tr[i].actor.uid == u
      && IsAt(k, u, tr[i - 1].store) && !CarriesAt(k, u, tr[i - 1].store) && CarriesAt(k, u, tr[i].store)
      && IsAt(k, u, tr[j].store) && !IsAt(k, u, tr[j + 1].store)
    ensures AllGone(History(ws)[j].store, u)
  {
    RunGood(k, ws, |ws| - 1);
    OwnFinalizerIsTyped(k, u, ws, i);
    assert SafeAt(ws[0].rules, k, History(ws), i);
    CleanupSafety(k, u, ws, i, j);
  }

  /** Cleanup from the very beginning: in a run that starts without the Sandbox, in any well-formed store. */
  lemma CleanupFromScratch(k: Key, u: Uid, ws: seq<World>, i: nat, j: nat)
    requires IsRun(k, ws) && ws[0].trace == [Event(Outside, ws[0].store)] && k !in ws[0].store.sandboxes
    requires WellFormed(ws[0].store) && StableTypes(ws[0].rules, ws[0].store)
    requires var tr := History(ws);
      && i <= j < |tr| - 1
      && CarriesAt(k, u, tr[i].store) && IsAt(k, u, tr[j].store) && !IsAt(k, u, tr[j + 1].store)
      && Accounted(ws[0].rules, tr[i].store, tr[i].store.sandboxes[k])
    ensures AllGone(History(ws)[j].store, u)
  {
    EmptyIsSafe(k, ws[0].rules, ws[0].store);
    StartGood(k, ws[0]);
    CleanupSafety(k, u, ws, i, j);
  }

  /** No orphans afterwards: no step of a pass makes a child for a Sandbox that has carried the finalizer and is not
      stored any more. */
  lemma NoLateChildren(k: Key, u: Uid, ws: seq<World>, h: nat, i: nat)
    requires IsRun(k, ws) && Good(k, ws[0])
    requires var tr := History(ws);
      && h < i < |tr| && CarriesAt(k, u, tr[h].store)
      && tr[i].actor.Controller? && tr[i].actor.uid == u && Creates(tr[i - 1].store, tr[i].store)
    ensures IsAt(k, u, History(ws)[i - 1].store)
  {
    RunGood(k, ws, |ws| - 1);
    assert StepAt(ws[0].rules, k, History(ws), i);
  }

  /** Type agreement where no type need be stored: at every point of every run the backend that a terminating pass
      would choose deletes the kind of a live child exactly when the type is stored or the spec can be seen; and that
      is always so with an inline spec or a template that nobody else releases. */
  lemma TypeAgreement(k: Key, ws: seq<World>, i: nat, ck: ChildKey)
    requires IsRun(k, ws) && Good(k, ws[0])
    requires var tr := History(ws);
      && i < |tr| && k in tr[i].store.sandboxes
      && Covered(ws[0].rules, tr[i].store.sandboxes[k])
      && Live(tr[i].store, ck, tr[i].store.sandboxes[k].uid)
    ensures var s := History(ws)[i].store;
      var sb := s.sandboxes[k];
      && (Handles(ChosenType(s, sb), ck.kind) <==> sb.status.kind != NoType || VisibleSpec(s, sb).Some?)
      && (Firm(ws[0].rules, sb) ==> Handles(ChosenType(s, sb), ck.kind))
  {
    RunGood(k, ws, |ws| - 1);
    var w := ws[|ws| - 1];
    assert SafeAt(w.rules, k, w.trace, i);
  }

  /** A stored type never changes, whatever templates do. */
  lemma TypeNeverChanges(k: Key, u: Uid, ws: seq<World>, i: nat, j: nat)
    requires IsRun(k, ws) && Good(k, ws[0])
    requires var tr := History(ws);
      && i <= j < |tr| && IsAt(k, u, tr[i].store) && IsAt(k, u, tr[j].store)
      && tr[i].store.sandboxes[k].status.kind != NoType
    ensures var tr := History(ws);
      tr[j].store.sandboxes[k].status.kind == tr[i].store.sandboxes[k].status.kind
  {
    RunGood(k, ws, |ws| - 1);
    PastKept(ws[0].rules, k, u, History(ws), i, j);
  }

  /** Template protection: while a Sandbox that is the only one to release its template has a live child, the template
      is there and protected; once the Sandbox is marked for deletion, this also needs the type to be stable. */
  lemma TemplateProtection(k: Key, ws: seq<World>, i: nat, ck: ChildKey)
    requires IsRun(k, ws) && Good(k, ws[0]) && ws[0].rules.sole
    requires var tr := History(ws);
      && i < |tr| && k in tr[i].store.sandboxes
      && tr[i].store.sandboxes[k].spec.templateSpec.None?
      && (!tr[i].store.sandboxes[k].deleting || ws[0].rules.stable)
      && Live(tr[i].store, ck, tr[i].store.sandboxes[k].uid)
    ensures var s := History(ws)[i].store;
      TemplateHeld(s, s.sandboxes[k].spec.template)
  {
    RunGood(k, ws, |ws| - 1);
    var w := ws[|ws| - 1];
    assert SafeAt(w.rules, k, w.trace, i);
  }

  /** At every point of every run the stored list has at most one Ready condition, true exactly when it says so. */
  lemma ReadyInvariant(k: Key, ws: seq<World>, i: nat)
    requires IsRun(k, ws) && Good(k, ws[0])
    requires var tr := History(ws); i < |tr| && k in tr[i].store.sandboxes
    ensures var conditions := History(ws)[i].store.sandboxes[k].status.conditions;
      && CountOf(READY, conditions) <= 1
      && (GetCondition(READY, conditions).Some? ==>
            var c := GetCondition(READY, conditions).value;
            c.status == True <==> c.reason == ReasonReady)
  {
    RunGood(k, ws, |ws| - 1);
    var w := ws[|ws| - 1];
    assert SafeAt(w.rules, k, w.trace, i);
  }

  /** No early expiry: a step of a pass that marks or removes an active Sandbox is the expiry delete. If that Sandbox
      is the one the pass is for, then at that very step the clock has passed creation plus TTL; and it is that one
      whenever the Sandbox that the pass read carried the finalizer. */
  lemma NoEarlyExpiry(k: Key, ws: seq<World>, i: nat, v: Uid)
    requires IsRun(k, ws) && Good(k, ws[0])
    requires var tr := History(ws);
      && 0 < i < |tr| && tr[i].actor.Controller?
      && ActiveAt(k, v, tr[i - 1].store) && !ActiveAt(k, v, tr[i].store)
    ensures var s, actor := History(ws)[i - 1].store, History(ws)[i].actor;
      && actor.call.Expire?
      && (v == actor.uid ==> Expired(s.sandboxes[k], s.now))
      && (actor.call.carried ==> v == actor.uid)
  {
    RunGood(k, ws, |ws| - 1);
    var w := ws[|ws| - 1];
    assert StepAt(w.rules, k, w.trace, i);
  }

  // ---------------------------------------------------------------- isolation

  /** What a pass does is, for every other Sandbox, no more than what it must expect from anybody: its object, its
      children and its UID are untouched. So the theorems above hold for every Sandbox while the passes for all the
      others run concurrently. If the other Sandbox relies on being its template's only user, that must be true. */
  lemma GuaranteeIsRely(rules: Rules, p: Pass, k: Key, s: Store, t: Store)
    requires WellFormed(s) && StableTypes(rules, s) && WellFormed(t) && Guarantee(p, s, t) && k != p.key
    requires rules.sole && k in s.sandboxes ==> s.sandboxes[k].spec.template != p.template
    ensures Rely(rules, k, s, t)
    ensures k in s.sandboxes ==>
      forall ck :: OwnedBy(s, ck, s.sandboxes[k].uid) ==> OwnedBy(t, ck, s.sandboxes[k].uid)
                                                          && t.children[ck] == s.children[ck]
  {
    if k in s.sandboxes {
      var v := s.sandboxes[k].uid;
      forall ck | OwnName(p.uid, ck) && (OwnedBy(s, ck, v) || OwnedBy(t, ck, v))
        ensures false
      {
        OwnNameUnique(p.uid, v, ck);
      }
    }
  }

  /** Isolation, by UID: in every run, each step of a pass leaves the children of every other Sandbox as they are,
      also when that Sandbox has taken the name of the one the pass is for, and makes none for anybody else; and it
      leaves every Sandbox of another name as it is. */
  lemma Isolation(k: Key, ws: seq<World>, i: nat)
    requires IsRun(k, ws) && Good(k, ws[0])
    requires 0 < i < |History(ws)| && History(ws)[i].actor.Controller?
    ensures var s, t, u := History(ws)[i - 1].store, History(ws)[i].store, History(ws)[i].actor.uid;
      && (forall ck, v :: v != u && OwnedBy(s, ck, v) ==> OwnedBy(t, ck, v) && t.children[ck] == s.children[ck])
      && (forall ck, v :: v != u && OwnedBy(t, ck, v) ==> OwnedBy(s, ck, v))
      && (forall other :: other != k ==>
            && (other in t.sandboxes <==> other in s.sandboxes)
            && (other in s.sandboxes ==> t.sandboxes[other] == s.sandboxes[other]))
  {
    RunGood(k, ws, |ws| - 1);
    var w := ws[|ws| - 1];
    var s, t, u := w.trace[i - 1].store, w.trace[i].store, w.trace[i].actor.uid;
    assert SafeAt(w.rules, k, w.trace, i - 1) && SafeAt(w.rules, k, w.trace, i);
    assert StepAt(w.rules, k, w.trace, i);
    forall ck, v | v != u && (OwnedBy(s, ck, v) || OwnedBy(t, ck, v)) && OwnName(u, ck)
      ensures false
    {
      OwnNameUnique(u, v, ck);
    }
  }

  /** So the passes for one name are, for the passes for any other, part of the outside world. */
  lemma PassesCompose(k: Key, ws: seq<World>, i: nat, other: Key, rules: Rules)
    requires IsRun(k, ws) && Good(k, ws[0]) && other != k
    requires var tr := History(ws);
      && 0 < i < |tr| && tr[i].actor.Controller?
      && StableTypes(rules, tr[i - 1].store)
      && (rules.sole && other in tr[i - 1].store.sandboxes ==>
            tr[i - 1].store.sandboxes[other].spec.template != tr[i].actor.template)
    ensures Rely(rules, other, History(ws)[i - 1].store, History(ws)[i].store)
  {
    RunGood(k, ws, |ws| - 1);
    var w := ws[|ws| - 1];
    assert SafeAt(w.rules, k, w.trace, i - 1) && SafeAt(w.rules, k, w.trace, i);
    assert StepAt(w.rules, k, w.trace, i);
    var p := Pass(k, w.trace[i].actor.uid, w.trace[i].actor.template);
    GuaranteeIsRely(rules, p, other, w.trace[i - 1].store, w.trace[i].store);
  }
}
