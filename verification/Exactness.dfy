/** Cleanup safety is exact: a Sandbox that carries the finalizer can leave live children behind if and only if its
    stored type does not handle one of them, or it has none and its template can be taken from it. */
module Exactness {
  import opened Types
  import opened Finalizers
  import opened Backends
  import opened Cluster
  import opened Passes
  import opened Safety
  import opened Runs
  import opened Termination
  import opened Limits
  import opened Scripts

  /** From the n-th store on, the Sandbox leaves while a child of it is alive. */
  ghost predicate LeavesAlive(k: Key, u: Uid, tr: seq<Event>, n: nat) {
    exists j :: n <= j < |tr| - 1 && LeavesAliveAt(k, u, tr, j)
  }

  ghost predicate LeavesAliveAt(k: Key, u: Uid, tr: seq<Event>, j: nat)
    requires j + 1 < |tr|
  {
    IsAt(k, u, tr[j].store) && !IsAt(k, u, tr[j + 1].store) && !AllGone(tr[j].store, u)
  }

  // ---------------------------------------------------------------- what is enough

  lemma AccountSuffices(k: Key, w: World, ws: seq<World>)
    requires IsRun(k, ws) && ws[0] == w && Good(k, w) && k in w.store.sandboxes
    requires Protected(w.store.sandboxes[k]) && Accounted(w.rules, w.store, w.store.sandboxes[k])
    ensures !LeavesAlive(k, w.store.sandboxes[k].uid, History(ws), |w.trace| - 1)
  {
    RunGood(k, ws, |ws| - 1);
    var u, i, tr := w.store.sandboxes[k].uid, |w.trace| - 1, History(ws);
    assert tr[i] == w.trace[i];
    forall j | i <= j < |tr| - 1
      ensures !LeavesAliveAt(k, u, tr, j)
    {
      if LeavesAliveAt(k, u, tr, j) {
        CleanupSafety(k, u, ws, i, j);
      }
    }
  }

  // ---------------------------------------------------------------- and it is needed

  function OursOnly(fs: seq<string>): seq<string> {
    if fs == [] then [] else (if fs[0] == FINALIZER then [FINALIZER] else []) + OursOnly(fs[1..])
  }

  lemma {:induction false} OursOnlyIs(fs: seq<string>)
    ensures Ours(OursOnly(fs)) == Ours(fs) && Foreign(OursOnly(fs)) == []
  {
    if fs != [] {
      OursOnlyIs(fs[1..]);
      if fs[0] == FINALIZER {
        OursAlone([FINALIZER]);
        ListConcat([FINALIZER], OursOnly(fs[1..]));
      } else {
        assert OursOnly(fs) == OursOnly(fs[1..]);
      }
    }
  }

  const SHELL := Template(TemplateSpec(None, None, None, []), Meta([FINALIZER], map[], map[]), false)

  /** Others take away the template of a Sandbox without a stored type: released and deleted, or created again with
      nothing in it. */
  function Stripped(rules: Rules, sb: Sandbox, templates: map<string, Template>): map<string, Template> {
    if sb.status.kind != NoType then templates
    else if rules.sole then templates[sb.spec.template := SHELL] else templates - {sb.spec.template}
  }

  /** A user deletes the Sandbox, everybody else takes their finalizers off, and the template goes. */
  function Deserted(rules: Rules, k: Key, s: Store): Store
    requires k in s.sandboxes
  {
    var sb := s.sandboxes[k];
    s.(sandboxes := s.sandboxes[k := sb.(deleting := true, version := s.revision + 1,
                                         meta := sb.meta.(finalizers := OursOnly(sb.meta.finalizers)))],
       templates := Stripped(rules, sb, s.templates), revision := s.revision + 1)
  }

  lemma DesertedAllowed(rules: Rules, k: Key, s: Store)
    requires Safe(rules, k, s) && k in s.sandboxes
    requires s.sandboxes[k].status.kind != NoType || !Firm(rules, s.sandboxes[k])
    ensures Rely(rules, k, s, Deserted(rules, k, s))
  {
    OursOnlyIs(s.sandboxes[k].meta.finalizers);
    assert Carries([FINALIZER]);
  }

  lemma NothingToSee(rules: Rules, k: Key, s: Store)
    requires k in s.sandboxes && !Firm(rules, s.sandboxes[k]) && s.sandboxes[k].status.kind == NoType
    ensures ChosenType(Deserted(rules, k, s), Deserted(rules, k, s).sandboxes[k]) == NoType
  {
  }

  /** The last event takes the Sandbox away and leaves its children as they were. */
  ghost predicate EndsWithLeave(k: Key, u: Uid, tr: seq<Event>) {
    && |tr| > 1 && IsAt(k, u, tr[|tr| - 2].store) && !IsAt(k, u, tr[|tr| - 1].store)
    && tr[|tr| - 1].store.children == tr[|tr| - 2].store.children
  }

  lemma StatusIsTidy(p: Pass, obj: Sandbox, copy: Sandbox, w: World)
    requires w.script == [] && Tidy(w) && p.key in w.store.sandboxes && w.store.sandboxes[p.key] == obj
    requires copy.version == obj.version
    ensures var (w', written, ok) := StatusUpdate(p, obj, copy, w);
      ok && w'.script == [] && Tidy(w') && IsAt(p.key, obj.uid, w'.store)
  {
  }

  lemma PatchLeaves(p: Pass, obj: Sandbox, written: Sandbox, w: World)
    requires w.script == [] && Tidy(w) && IsAt(p.key, obj.uid, w.store)
    requires p.key !in MetaUpdate(p, obj, written, w).0.store.sandboxes
    ensures EndsWithLeave(p.key, obj.uid, MetaUpdate(p, obj, written, w).0.trace)
  {
  }

  lemma PassLeaves(k: Key, w: World)
    requires Good(k, w) && Ending(k, w) && k !in RunPass(k, w).0.store.sandboxes
    ensures EndsWithLeave(k, w.store.sandboxes[k].uid, RunPass(k, w).0.trace)
  {
    var obj := w.store.sandboxes[k];
    var p := PassFor(k, obj);
    ReadPassGood(k, obj, w);
    ReconcileEnds(k, w);
    var (w2, copy, outcome) := Reconcile(p, obj, w);
    StatusIsTidy(p, obj, copy, w2);
    var (w3, written, ok) := StatusUpdate(p, obj, copy, w2);
    assert GetSandbox(k, w) == (w, Found(obj));
    PatchLeaves(p, obj, written, w3);
  }

  lemma LeaveAlive(k: Key, u: Uid, tr: seq<Event>, n: nat, ck: ChildKey)
    requires EndsWithLeave(k, u, tr) && n + 2 <= |tr| && Live(tr[|tr| - 1].store, ck, u)
    ensures LeavesAlive(k, u, tr, n)
  {
    var j := |tr| - 2;
    assert !AllGone(tr[j].store, u);
    assert LeavesAliveAt(k, u, tr, j);
  }

  lemma StillEnding(k: Key, w: World, w1: World)
    requires Ending(k, w) && w1 == RunPass(k, w).0 && k in w1.store.sandboxes
    ensures Ending(k, w1) && w1.store.sandboxes[k].uid == w.store.sandboxes[k].uid
  {
    PassEnds(k, w);
    EndAgain(w.store, w1.store, w.store.sandboxes[k], w1.store.sandboxes[k]);
  }

  /** Two passes, each from the world before; the Sandbox leaves with the last event of one of them. */
  lemma PairLeaves(k: Key, w: World, w1: World, w2: World)
    requires Good(k, w) && Good(k, w1) && Ending(k, w) && w1 == RunPass(k, w).0 && w2 == RunPass(k, w1).0
    requires k !in w2.store.sandboxes
    ensures EndsWithLeave(k, w.store.sandboxes[k].uid, w2.trace)
  {
    if k in w1.store.sandboxes {
      StillEnding(k, w, w1);
      PassLeaves(k, w1);
    } else {
      PassEnds(k, w);
      AbsentPass(k, w1);
      PassLeaves(k, w);
    }
  }

  lemma LeavesLater(k: Key, u: Uid, w: World, w2: World)
    requires Good(k, w) && IsAt(k, u, w.store) && w.trace <= w2.trace && EndsWithLeave(k, u, w2.trace)
    ensures |w.trace| < |w2.trace|
  {
    assert |w.trace| == |w2.trace| ==> w.trace == w2.trace;
  }

  lemma TwoPassesLeave(k: Key, ws: seq<World>, ck: ChildKey)
    requires IsQuietRun(k, ws) && |ws| == 3 && Good(k, ws[0]) && Ending(k, ws[0])
    requires Protected(ws[0].store.sandboxes[k]) && Foreign(ws[0].store.sandboxes[k].meta.finalizers) == []
    requires Live(ws[0].store, ck, ws[0].store.sandboxes[k].uid) && ck.namespace == k.namespace
    requires !Handles(ChosenType(ws[0].store, ws[0].store.sandboxes[k]), ck.kind)
    ensures LeavesAlive(k, ws[0].store.sandboxes[k].uid, ws[2].trace, |ws[0].trace| - 1)
  {
    GoodIsSafe(k, ws[0]);
    LeavesExactly(k, ws, ck);
    GoodRun(k, ws);
    assert FollowsQuietly(k, ws, 1) && FollowsQuietly(k, ws, 2);
    EndsAlive(k, ws[0], ws[1], ws[2], ck);
  }

  lemma GoodRun(k: Key, ws: seq<World>)
    requires IsQuietRun(k, ws) && |ws| == 3 && Good(k, ws[0])
    ensures Good(k, ws[1]) && Good(k, ws[2]) && ws[0].trace <= ws[2].trace && ws[2].rules == ws[0].rules
  {
    QuietRunIsRun(k, ws);
    RunGood(k, ws, 1);
    RunGood(k, ws, 2);
  }

  lemma EndsAlive(k: Key, w: World, w1: World, w2: World, ck: ChildKey)
    requires Good(k, w) && Good(k, w1) && Good(k, w2) && w.trace <= w2.trace && Ending(k, w)
    requires w1 == RunPass(k, w).0 && w2 == RunPass(k, w1).0
    requires k !in w2.store.sandboxes && Live(w2.store, ck, w.store.sandboxes[k].uid)
    ensures LeavesAlive(k, w.store.sandboxes[k].uid, w2.trace, |w.trace| - 1)
  {
    var u := w.store.sandboxes[k].uid;
    PairLeaves(k, w, w1, w2);
    LeavesLater(k, u, w, w2);
    LeaveAlive(k, u, w2.trace, |w.trace| - 1, ck);
  }

  /** A live child that the stored type does not handle, or that nobody has to know of. */
  ghost predicate Unaccounted(k: Key, w: World, ck: ChildKey) {
    && Good(k, w) && k in w.store.sandboxes && Protected(w.store.sandboxes[k])
    && (var sb := w.store.sandboxes[k];
        && Live(w.store, ck, sb.uid) && GateOpen(w.gates, sb.status.kind)
        && if sb.status.kind != NoType then !Handles(sb.status.kind, ck.kind) else !Firm(w.rules, sb))
    && forall keys :: Enumerates(w.order(keys), keys)
  }

  function DesertedWorld(k: Key, w: World): World
    requires k in w.store.sandboxes
  {
    Push(w.(script := []), Outside, Deserted(w.rules, k, w.store))
  }

  lemma DesertedType(k: Key, w: World, ck: ChildKey)
    requires Unaccounted(k, w, ck)
    ensures var s := Deserted(w.rules, k, w.store);
      GateOpen(w.gates, ChosenType(s, s.sandboxes[k])) && !Handles(ChosenType(s, s.sandboxes[k]), ck.kind)
  {
    if w.store.sandboxes[k].status.kind == NoType {
      NothingToSee(w.rules, k, w.store);
    }
  }

  lemma DesertedEnds(k: Key, w: World, ck: ChildKey)
    requires Unaccounted(k, w, ck)
    ensures var w1 := DesertedWorld(k, w);
      && ByPass(k, w, Meanwhile(Deserted(w.rules, k, w.store)), w1) && Good(k, w1) && Ending(k, w1)
      && Protected(w1.store.sandboxes[k]) && Foreign(w1.store.sandboxes[k].meta.finalizers) == []
      && Live(w1.store, ck, w.store.sandboxes[k].uid) && ck.namespace == k.namespace
      && !Handles(ChosenType(w1.store, w1.store.sandboxes[k]), ck.kind)
  {
    var s := Deserted(w.rules, k, w.store);
    GoodIsSafe(k, w);
    DesertedAllowed(w.rules, k, w.store);
    OursOnlyIs(w.store.sandboxes[k].meta.finalizers);
    DesertedType(k, w, ck);
    FailedRead(k, w, s);
    ByPassGood(k, w, Meanwhile(s), DesertedWorld(k, w));
  }

  lemma QuietTail(k: Key, w: World) returns (tail: seq<World>)
    requires Ending(k, w)
    ensures IsQuietRun(k, tail) && |tail| == 3 && tail[0] == w && tail[1].script == []
  {
    var w1 := RunPass(k, w).0;
    PassEnds(k, w);
    tail := [w, w1, RunPass(k, w1).0];
    assert FollowsQuietly(k, tail, 1) && FollowsQuietly(k, tail, 2);
  }

  lemma Prepended(k: Key, w: World, script: seq<Tick>, tail: seq<World>)
    requires IsQuietRun(k, tail) && ByPass(k, w, script, tail[0])
    ensures IsRun(k, [w] + tail) && ([w] + tail)[0] == w && History([w] + tail) == tail[|tail| - 1].trace
  {
    QuietRunIsRun(k, tail);
    var ws := [w] + tail;
    forall i | 0 < i < |ws|
      ensures Follows(k, ws, i)
    {
      if i > 1 {
        assert Follows(k, tail, i - 1);
      }
    }
  }

  /** The run that shows it: the deletion, and two quiet passes. */
  lemma UnaccountedLeaks(k: Key, w: World, ck: ChildKey) returns (ws: seq<World>)
    requires Unaccounted(k, w, ck)
    ensures IsRun(k, ws) && ws[0] == w && LeavesAlive(k, w.store.sandboxes[k].uid, History(ws), |w.trace| - 1)
  {
    DesertedEnds(k, w, ck);
    var tail := QuietTail(k, DesertedWorld(k, w));
    TwoPassesLeave(k, tail, ck);
    Prepended(k, w, Meanwhile(Deserted(w.rules, k, w.store)), tail);
    ws := [w] + tail;
    Sooner(k, w.store.sandboxes[k].uid, tail[2].trace, |w.trace| - 1, |tail[0].trace| - 1);
  }

  lemma Sooner(k: Key, u: Uid, tr: seq<Event>, m: nat, n: nat)
    requires LeavesAlive(k, u, tr, n) && m <= n
    ensures LeavesAlive(k, u, tr, m)
  {
    var j :| n <= j < |tr| - 1 && LeavesAliveAt(k, u, tr, j);
  }

  /** What is not accounted for has a witness, where there is a type or a live child to speak of. */
  lemma WitnessOf(k: Key, w: World) returns (ck: ChildKey)
    requires Good(k, w) && k in w.store.sandboxes && Protected(w.store.sandboxes[k])
    requires GateOpen(w.gates, w.store.sandboxes[k].status.kind)
    requires w.store.sandboxes[k].status.kind == NoType ==> !AllGone(w.store, w.store.sandboxes[k].uid)
    requires forall keys :: Enumerates(w.order(keys), keys)
    requires !Accounted(w.rules, w.store, w.store.sandboxes[k])
    ensures Unaccounted(k, w, ck)
  {
    var sb := w.store.sandboxes[k];
    if sb.status.kind == NoType {
      ck :| OwnedBy(w.store, ck, sb.uid) && !w.store.children[ck].deleting;
    } else {
      ck :| Live(w.store, ck, sb.uid) && !Handles(sb.status.kind, ck.kind);
    }
  }

  /** Exactness. In any good world with a Sandbox that carries the finalizer, and has a stored type whose backend may
      run or else a live child: some run from there lets it leave with a live child if and only if it is not accounted
      for, that is, its type cannot be told all the time, and the stored one, if any, does not handle every live
      child. */
  lemma CleanupExactly(k: Key, w: World)
    requires Good(k, w) && k in w.store.sandboxes && Protected(w.store.sandboxes[k])
    requires GateOpen(w.gates, w.store.sandboxes[k].status.kind)
    requires w.store.sandboxes[k].status.kind == NoType ==> !AllGone(w.store, w.store.sandboxes[k].uid)
    requires forall keys :: Enumerates(w.order(keys), keys)
    ensures (exists ws :: IsRun(k, ws) && ws[0] == w
                          && LeavesAlive(k, w.store.sandboxes[k].uid, History(ws), |w.trace| - 1))
            <==> !Accounted(w.rules, w.store, w.store.sandboxes[k])
  {
    var sb := w.store.sandboxes[k];
    if Accounted(w.rules, w.store, sb) {
      forall ws | IsRun(k, ws) && ws[0] == w
        ensures !LeavesAlive(k, sb.uid, History(ws), |w.trace| - 1)
      {
        AccountSuffices(k, w, ws);
      }
    } else {
      var ck := WitnessOf(k, w);
      var ws := UnaccountedLeaks(k, w, ck);
    }
  }

  /** A stored type is all that counts then: where there is one, being accounted for is agreement. */
  lemma TypedIsAgreed(k: Key, w: World)
    requires Good(k, w) && k in w.store.sandboxes && w.store.sandboxes[k].status.kind != NoType
    ensures Accounted(w.rules, w.store, w.store.sandboxes[k]) <==> Agreed(w.store, w.store.sandboxes[k])
  {
    GoodIsSafe(k, w);
  }
}
