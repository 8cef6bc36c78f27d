/** Passes for many Sandbox names at once: the writes of all of them in one history, and what it is for each name. */
module Interleavings {
  import opened Types
  import opened Cluster
  import opened Passes
  import opened Safety
  import opened Runs

  /** A store that the server went through, and the name whose passes made it, if it was one of them. */
  datatype Deed = Deed(whose: Option<Key>, event: Event)

  /** For the passes of one name, those of all others are everybody else. */
  function Seen(k: Key, d: Deed): Event {
    if d.whose == Some(k) then d.event else Event(Outside, d.event.store)
  }

  function View(k: Key, h: seq<Deed>, n: nat): (tr: seq<Event>)
    requires n <= |h|
    ensures |tr| == n && forall i :: 0 <= i < n ==> tr[i] == Seen(k, h[i])
  {
    seq(n, i requires 0 <= i < n => Seen(k, h[i]))
  }

  /** The first `n` steps in the form that a run has. Of what others do, a run records the stores that a call of the
      pass met; reads leave no other mark. So any of these steps may be recorded or not, except that a write of the pass
      has met the store just before it. */
  ghost predicate Explains(k: Key, h: seq<Deed>, n: nat, tr: seq<Event>)
    requires 0 < n <= |h|
    decreases n
  {
    if n == 1 then tr == [Event(Outside, h[0].event.store)]
    else if h[n - 1].whose == Some(k) then
      && |tr| > 1 && tr[|tr| - 1] == h[n - 1].event && tr[|tr| - 2].store == h[n - 2].event.store
      && Explains(k, h, n - 1, tr[..|tr| - 1])
    else
      || Explains(k, h, n - 1, tr)
      || (|tr| > 1 && tr[|tr| - 1] == Seen(k, h[n - 1]) && Explains(k, h, n - 1, tr[..|tr| - 1]))
  }

  /** So far others did nothing that the passes for `k` do not tolerate. */
  ghost predicate Tolerated(rules: Rules, k: Key, h: seq<Deed>, n: nat)
    requires n <= |h|
  {
    forall j :: 0 < j < n && h[j].whose != Some(k) ==> Rely(rules, k, h[j - 1].event.store, h[j].event.store)
  }

  /** The passes for `k` did so far what they do in this run. */
  ghost predicate IsRunOf(rules: Rules, k: Key, h: seq<Deed>, n: nat, ws: seq<World>, tr: seq<Event>)
    requires 0 < n <= |h|
  {
    && IsRun(k, ws) && ws[0].rules == rules
    && ws[0].store == h[0].event.store && ws[0].trace == [Event(Outside, ws[0].store)]
    && Explains(k, h, n, tr) && tr <= History(ws)
  }

  ghost predicate MadeByRun(rules: Rules, k: Key, h: seq<Deed>, n: nat)
    requires 0 < n <= |h|
  {
    exists ws, tr :: IsRunOf(rules, k, h, n, ws, tr)
  }

  /** Each step is one that nobody's passes mind, or one of the passes for some name. Those do what passes do, as long
      as nobody did what they do not tolerate; nothing is said about them otherwise. A Sandbox that relies on being its
      template's only user is. */
  ghost predicate JointStep(rules: Key -> Rules, h: seq<Deed>, i: nat)
    requires 0 < i < |h|
  {
    var s, t := h[i - 1].event.store, h[i].event.store;
    match h[i].whose
    case None => forall k :: Rely(rules(k), k, s, t)
    case Some(k) =>
      && h[i].event.actor.Controller?
      && (Tolerated(rules(k), k, h, i) ==> MadeByRun(rules(k), k, h, i + 1))
      && forall other :: other != k && rules(other).sole && other in s.sandboxes ==>
           s.sandboxes[other].spec.template != h[i].event.actor.template
  }

  /** Passes for any number of names over one store, their calls interleaved in any way. The assumptions on templates
      may differ from name to name. */
  ghost predicate Joint(rules: Key -> Rules, h: seq<Deed>) {
    && h != [] && (forall k :: Safe(rules(k), k, h[0].event.store))
    && h[0].whose.None? && (forall i :: 0 < i < |h| ==> JointStep(rules, h, i))
  }

  // ---------------------------------------------------------------- from what was met to every step

  ghost predicate CarriedIn(k: Key, u: Uid, tr: seq<Event>) {
    exists y :: 0 <= y < |tr| && CarriesAt(k, u, tr[y].store)
  }

  /** No store with the finalizer is lost: others do not take it off. */
  lemma {:induction false} CarriedIsMet(rules: Rules, k: Key, u: Uid, h: seq<Deed>, n: nat, x: nat, tr: seq<Event>)
    requires x < n <= |h| && Tolerated(rules, k, h, n) && CarriesAt(k, u, h[x].event.store) && Explains(k, h, n, tr)
    ensures CarriesAt(k, u, h[n - 1].event.store) || CarriedIn(k, u, tr)
    decreases n
  {
    if x < n - 1 {
      var before := if h[n - 1].whose != Some(k) && Explains(k, h, n - 1, tr) then tr else tr[..|tr| - 1];
      CarriedIsMet(rules, k, u, h, n - 1, x, before);
      if CarriedIn(k, u, before) {
        var y :| 0 <= y < |before| && CarriesAt(k, u, before[y].store);
        assert before[y] == tr[y];
      } else if h[n - 1].whose == Some(k) {
        assert CarriesAt(k, u, tr[|tr| - 2].store);
      } else {
        assert Rely(rules, k, h[n - 2].event.store, h[n - 1].event.store);
      }
    }
  }

  lemma NeverMet(rules: Rules, k: Key, u: Uid, h: seq<Deed>, n: nat, tr: seq<Event>)
    requires 0 < n <= |h| && Tolerated(rules, k, h, n) && Explains(k, h, n, tr)
    requires tr != [] && tr[|tr| - 1].store == h[n - 1].event.store && NeverCarried(k, u, tr, |tr|)
    ensures NeverCarried(k, u, View(k, h, n), n)
  {
    forall x | 0 <= x < n
      ensures !CarriesAt(k, u, View(k, h, n)[x].store)
    {
      if CarriesAt(k, u, h[x].event.store) {
        CarriedIsMet(rules, k, u, h, n, x, tr);
      }
    }
  }

  lemma GoodIsTolerated(rules: Rules, k: Key, h: seq<Deed>, n: nat)
    requires n <= |h| && GoodHistory(rules, k, View(k, h, n))
    ensures Tolerated(rules, k, h, n)
  {
    var tr := View(k, h, n);
    forall j | 0 < j < n && h[j].whose != Some(k)
      ensures Rely(rules, k, h[j - 1].event.store, h[j].event.store)
    {
      assert StepAt(rules, k, tr, j);
    }
  }

  /** A good history stays good with this event. */
  ghost predicate Extends(rules: Rules, k: Key, tr: seq<Event>, e: Event)
    requires tr != []
  {
    var s := tr[|tr| - 1].store;
    && Step(rules, k, s, e) && Safe(rules, k, e.store)
    && (e.actor.Controller? && Creates(s, e.store) ==>
          IsAt(k, e.actor.uid, s) || NeverCarried(k, e.actor.uid, tr, |tr|))
  }

  ghost predicate Allowed(rules: Rules, k: Key, h: seq<Deed>, n: nat)
    requires 0 < n < |h|
  {
    Extends(rules, k, View(k, h, n), Seen(k, h[n]))
  }

  lemma PrefixExtends(rules: Rules, k: Key, tr: seq<Event>, before: seq<Event>, e: Event)
    requires GoodHistory(rules, k, tr) && before != [] && before + [e] <= tr
    ensures Extends(rules, k, before, e)
  {
    var m := |before|;
    assert (before + [e])[m] == e && (before + [e])[m - 1] == before[m - 1];
    assert StepAt(rules, k, tr, m) && SafeAt(rules, k, tr, m);
    assert forall y :: 0 <= y < m ==> (before + [e])[y] == before[y] == tr[y];
  }

  lemma RunExtends(rules: Rules, k: Key, h: seq<Deed>, n: nat) returns (before: seq<Event>)
    requires 0 < n < |h| && Safe(rules, k, h[0].event.store)
    requires h[n].whose == Some(k) && MadeByRun(rules, k, h, n + 1)
    ensures Explains(k, h, n, before) && before != [] && before[|before| - 1].store == h[n - 1].event.store
    ensures Extends(rules, k, before, h[n].event)
  {
    var ws, tr :| IsRunOf(rules, k, h, n + 1, ws, tr);
    StartGood(k, ws[0]);
    RunGood(k, ws, |ws| - 1);
    before := tr[..|tr| - 1];
    assert before + [h[n].event] == tr;
    PrefixExtends(rules, k, History(ws), before, h[n].event);
  }

  /** The passes for `k` itself. */
  lemma OwnStep(rules: Rules, k: Key, h: seq<Deed>, n: nat)
    requires 0 < n < |h| && GoodHistory(rules, k, View(k, h, n)) && Safe(rules, k, h[0].event.store)
    requires h[n].whose == Some(k) && MadeByRun(rules, k, h, n + 1)
    ensures Allowed(rules, k, h, n)
  {
    var before := RunExtends(rules, k, h, n);
    var actor := h[n].event.actor;
    if actor.Controller? && NeverCarried(k, actor.uid, before, |before|) {
      GoodIsTolerated(rules, k, h, n);
      NeverMet(rules, k, actor.uid, h, n, before);
    }
  }

  /** Every other step, by others or by the passes for another name. */
  lemma OtherStep(rules: Rules, k: Key, h: seq<Deed>, n: nat)
    requires 0 < n < |h| && Safe(rules, k, h[n - 1].event.store)
    requires h[n].whose != Some(k) && Rely(rules, k, h[n - 1].event.store, h[n].event.store)
    ensures Allowed(rules, k, h, n)
  {
    RelyEvolves(rules, k, h[n - 1].event.store, h[n].event.store);
    RelySafe(rules, k, h[n - 1].event.store, h[n].event.store);
  }

  /** A step of the passes for one name is one that the passes for another tolerate. */
  lemma OwnIsOther(own: Rules, rules: Rules, k: Key, other: Key, h: seq<Deed>, n: nat)
    requires 0 < n < |h| && k != other && h[n].whose == Some(k) && h[n].event.actor.Controller?
    requires Allowed(own, k, h, n) && Safe(own, k, h[n - 1].event.store) && Safe(rules, other, h[n - 1].event.store)
    requires var s := h[n - 1].event.store;
      rules.sole && other in s.sandboxes ==> s.sandboxes[other].spec.template != h[n].event.actor.template
    ensures Rely(rules, other, h[n - 1].event.store, h[n].event.store)
  {
    var actor := h[n].event.actor;
    GuaranteeIsRely(rules, Pass(k, actor.uid, actor.template), other, h[n - 1].event.store, h[n].event.store);
  }

  // ---------------------------------------------------------------- the theorem

  lemma ViewGrows(rules: Rules, k: Key, h: seq<Deed>, n: nat)
    requires 0 < n < |h| && GoodHistory(rules, k, View(k, h, n)) && Allowed(rules, k, h, n)
    ensures GoodHistory(rules, k, View(k, h, n + 1))
  {
    HistoryGrows(rules, k, View(k, h, n), Seen(k, h[n]));
    assert View(k, h, n + 1) == View(k, h, n) + [Seen(k, h[n])];
  }

  lemma ViewSafe(rules: Rules, k: Key, h: seq<Deed>, n: nat)
    requires 0 < n <= |h| && GoodHistory(rules, k, View(k, h, n))
    ensures Safe(rules, k, h[n - 1].event.store)
  {
    assert SafeAt(rules, k, View(k, h, n), n - 1);
  }

  /** Concurrent passes compose: of any interleaving, what each name sees is a good history. Nobody's good behaviour
      towards others is assumed: it is proved for all names together, step by step. */
  lemma {:induction false} EveryViewGood(rules: Key -> Rules, h: seq<Deed>, k: Key, n: nat)
    requires Joint(rules, h) && 0 < n <= |h|
    ensures GoodHistory(rules(k), k, View(k, h, n))
    decreases n
  {
    if n == 1 {
      assert Safe(rules(k), k, h[0].event.store);
    } else {
      var i := n - 1;
      EveryViewGood(rules, h, k, i);
      ViewSafe(rules(k), k, h, i);
      assert JointStep(rules, h, i);
      if h[i].whose.None? {
        assert Rely(rules(k), k, h[i - 1].event.store, h[i].event.store);
        OtherStep(rules(k), k, h, i);
      } else {
        var own := h[i].whose.value;
        EveryViewGood(rules, h, own, i);
        GoodIsTolerated(rules(own), own, h, i);
        assert Safe(rules(own), own, h[0].event.store);
        OwnStep(rules(own), own, h, i);
        if own != k {
          ViewSafe(rules(own), own, h, i);
          OwnIsOther(rules(own), rules(k), own, k, h, i);
          OtherStep(rules(k), k, h, i);
        }
      }
      ViewGrows(rules(k), k, h, i);
    }
  }

  /** So cleanup is safe for every Sandbox at once. */
  lemma CleanupTogether(rules: Key -> Rules, h: seq<Deed>, k: Key, u: Uid, i: nat, j: nat)
    requires Joint(rules, h) && i <= j < |h| - 1 && CarriesAt(k, u, h[i].event.store)
    requires IsAt(k, u, h[j].event.store) && !IsAt(k, u, h[j + 1].event.store)
    requires Accounted(rules(k), h[i].event.store, h[i].event.store.sandboxes[k])
    ensures AllGone(h[j].event.store, u)
  {
    EveryViewGood(rules, h, k, |h|);
    LeavesEmpty(rules(k), k, u, View(k, h, |h|), i, j);
  }

  // ---------------------------------------------------------------- nothing is left out

  /** The history of one run, as one of several. */
  function Deeds(k: Key, tr: seq<Event>): (h: seq<Deed>)
    ensures |h| == |tr|
  {
    seq(|tr|, i requires 0 <= i < |tr| => Deed(if tr[i].actor.Outside? then None else Some(k), tr[i]))
  }

  lemma {:induction false} ExplainsItself(k: Key, tr: seq<Event>, n: nat)
    requires 0 < n <= |tr| && tr[0].actor.Outside?
    ensures Explains(k, Deeds(k, tr), n, tr[..n])
  {
    if n > 1 {
      ExplainsItself(k, tr, n - 1);
      assert tr[..n][..n - 1] == tr[..n - 1];
    }
  }

  lemma RunStepIsJoint(rules: Key -> Rules, k: Key, ws: seq<World>, i: nat)
    requires IsRun(k, ws) && ws[0].rules == rules(k) && ws[0].trace == [Event(Outside, ws[0].store)]
    requires var tr := History(ws);
      && 0 < i < |tr| && tr[0] == ws[0].trace[0]
      && (tr[i].actor.Outside? ==> forall other :: Rely(rules(other), other, tr[i - 1].store, tr[i].store))
      && (tr[i].actor.Controller? ==>
            forall other :: other != k && rules(other).sole && other in tr[i - 1].store.sandboxes ==>
              tr[i - 1].store.sandboxes[other].spec.template != tr[i].actor.template)
    ensures JointStep(rules, Deeds(k, History(ws)), i)
  {
    var tr := History(ws);
    ExplainsItself(k, tr, i + 1);
    assert IsRunOf(rules(k), k, Deeds(k, tr), i + 1, ws, tr[..i + 1]);
  }

  /** Any run is such a history: each store that a read met between two steps of others is in it. */
  lemma RunIsJoint(rules: Key -> Rules, k: Key, ws: seq<World>)
    requires IsRun(k, ws) && ws[0].rules == rules(k) && ws[0].trace == [Event(Outside, ws[0].store)]
    requires forall other :: Safe(rules(other), other, ws[0].store)
    requires forall i | 0 < i < |History(ws)| && History(ws)[i].actor.Outside? ::
      forall other :: Rely(rules(other), other, History(ws)[i - 1].store, History(ws)[i].store)
    requires forall i | 0 < i < |History(ws)| && History(ws)[i].actor.Controller? ::
      forall other :: other != k && rules(other).sole && other in History(ws)[i - 1].store.sandboxes ==>
        History(ws)[i - 1].store.sandboxes[other].spec.template != History(ws)[i].actor.template
    ensures Joint(rules, Deeds(k, History(ws)))
  {
    var tr := History(ws);
    assert Safe(rules(k), k, ws[0].store);
    StartGood(k, ws[0]);
    RunGood(k, ws, |ws| - 1);
    assert tr[0] == ws[0].trace[0];
    forall i | 0 < i < |tr|
      ensures JointStep(rules, Deeds(k, tr), i)
    {
      RunStepIsJoint(rules, k, ws, i);
    }
  }
}
