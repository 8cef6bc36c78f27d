/** Where the guarantees end: what happens without the assumptions on templates, for whole families of stores. */
module Limits {
  import opened Types
  import opened Names
  import opened Finalizers
  import opened Backends
  import opened Cluster
  import opened Passes
  import opened Termination
  import Safety

  // ---------------------------------------------------------------- children of a kind the type does not handle

  /** After two quiet terminating passes a live child that the Sandbox controls is gone if and only if the chosen type
      handles its kind. So where type agreement fails, the child outlives its Sandbox. */
  lemma SurvivesExactly(k: Key, ws: seq<World>, ck: ChildKey)
    requires IsQuietRun(k, ws) && |ws| == 3 && Ending(k, ws[0]) && WellFormed(ws[0].store)
    requires Safety.Live(ws[0].store, ck, ws[0].store.sandboxes[k].uid) && ck.namespace == k.namespace
    ensures var w := ws[0];
      ck in ws[2].store.children <==> !Handles(ChosenType(w.store, w.store.sandboxes[k]), ck.kind)
    ensures ck in ws[2].store.children ==> Safety.Live(ws[2].store, ck, ws[0].store.sandboxes[k].uid)
  {
    TwoPassesEnd(k, ws);
  }

  /** A Sandbox that nothing but the controller's finalizer holds is gone after two quiet terminating passes, and a
      live child of it is still there exactly when the chosen type does not handle its kind. */
  lemma LeavesExactly(k: Key, ws: seq<World>, ck: ChildKey)
    requires IsQuietRun(k, ws) && |ws| == 3 && Ending(k, ws[0]) && WellFormed(ws[0].store)
    requires Protected(ws[0].store.sandboxes[k]) && Foreign(ws[0].store.sandboxes[k].meta.finalizers) == []
    requires Safety.Live(ws[0].store, ck, ws[0].store.sandboxes[k].uid) && ck.namespace == k.namespace
    ensures k !in ws[2].store.sandboxes
    ensures var w := ws[0];
      Safety.Live(ws[2].store, ck, w.store.sandboxes[k].uid) <==>
      !Handles(ChosenType(w.store, w.store.sandboxes[k]), ck.kind)
  {
    SurvivesExactly(k, ws, ck);
    TwoPassesEnd(k, ws);
  }

  // ---------------------------------------------------------------- two users of one template

  /** Two Sandboxes name one template. One terminating pass takes the finalizer off the template (or lets a deleted
      template go) although the other Sandbox is active and its child alive: the template is then free to be deleted.
      So a template is protected for all its users only as long as it has one. */
  lemma SharedTemplateReleased(ending: Key, active: Key, ws: seq<World>, ck: ChildKey)
    requires IsQuietRun(ending, ws) && |ws| == 2 && Ending(ending, ws[0]) && WellFormed(ws[0].store)
    requires active != ending && active in ws[0].store.sandboxes
    requires var a, b := ws[0].store.sandboxes[active], ws[0].store.sandboxes[ending];
      && a.spec.template == b.spec.template != "" && a.spec.templateSpec.None? && b.spec.templateSpec.None?
      && !a.deleting && Safety.Live(ws[0].store, ck, a.uid)
    ensures var a := ws[0].store.sandboxes[active];
      var s := ws[1].store;
      && active in s.sandboxes && s.sandboxes[active] == a && Safety.Live(s, ck, a.uid)
      && !Safety.TemplateHeld(s, a.spec.template)
  {
    var w := ws[0];
    assert FollowsQuietly(ending, ws, 1);
    var a, b := w.store.sandboxes[active], w.store.sandboxes[ending];
    var p := PassFor(ending, b);
    PassEnds(ending, w);
    RemainingIs(p, ChosenType(w.store, b), w.store.children);
    if ck !in ws[1].store.children {
      assert OwnName(a.uid, ck);
      if ck == WorkloadKey(ChosenType(w.store, b), ending.namespace, b.uid) {
        OwnNameUnique(a.uid, b.uid, ck);
      }
    }
  }
}
