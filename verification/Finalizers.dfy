/** Finalizer lists and the patches that change them (pkg/controller/util/protect.go). */
module Finalizers {
  import opened Types
  import opened Patches

  /** How often the controller's finalizer occurs. */
  function Ours(fs: seq<string>): nat {
    if fs == [] then 0 else (if fs[0] == FINALIZER then 1 else 0) + Ours(fs[1..])
  }

  /** The finalizers of other parties, in order, with their multiplicity. */
  function Foreign(fs: seq<string>): seq<string> {
    if fs == [] then [] else (if fs[0] == FINALIZER then [] else [fs[0]]) + Foreign(fs[1..])
  }

  predicate Carries(fs: seq<string>) {
    Ours(fs) > 0
  }

  lemma {:induction false} CarriesIsMember(fs: seq<string>)
    ensures Carries(fs) <==> FINALIZER in fs
  {
    if fs != [] {
      CarriesIsMember(fs[1..]);
      assert fs == [fs[0]] + fs[1..];
    }
  }

  lemma {:induction false} ListConcat(a: seq<string>, b: seq<string>)
    ensures Ours(a + b) == Ours(a) + Ours(b)
    ensures Foreign(a + b) == Foreign(a) + Foreign(b)
  {
    if a == [] {
      assert a + b == b;
    } else {
      assert (a + b)[1..] == a[1..] + b;
      ListConcat(a[1..], b);
    }
  }

  /** A list is its foreign part exactly when it does not carry the finalizer. */
  lemma {:induction false} ForeignShape(fs: seq<string>)
    ensures Ours(Foreign(fs)) == 0 && Foreign(Foreign(fs)) == Foreign(fs)
    ensures Foreign(fs) == fs <==> !Carries(fs)
    ensures |fs| == |Foreign(fs)| + Ours(fs)
    ensures forall f :: f in Foreign(fs) ==> f in fs
  {
    if fs != [] {
      ForeignShape(fs[1..]);
      assert fs == [fs[0]] + fs[1..];
      if fs[0] == FINALIZER {
        assert Foreign(fs) == Foreign(fs[1..]);
      } else {
        assert Foreign(fs)[1..] == Foreign(fs[1..]);
      }
    }
  }

  // ---------------------------------------------------------------- building patches

  /** controllerutil.AddFinalizer */
  function Added(fs: seq<string>): seq<string> {
    if Carries(fs) then fs else fs + [FINALIZER]
  }

  lemma AddedKeepsForeign(fs: seq<string>)
    ensures Foreign(Added(fs)) == Foreign(fs) && Carries(Added(fs))
    ensures Ours(fs) <= 1 ==> Ours(Added(fs)) == 1
  {
    ListConcat(fs, [FINALIZER]);
    assert Ours([FINALIZER]) == 1 && Foreign([FINALIZER]) == [];
  }

  lemma OursAlone(fs: seq<string>)
    requires fs == [FINALIZER]
    ensures Ours(fs) == 1 && Foreign(fs) == []
  {
    assert fs[1..] == [];
  }

  function FinalizerPatch(was: seq<string>, will: seq<string>): seq<Operation> {
    CompareAndSet(FINALIZERS, Strings(was), Strings(will))
  }

  lemma ApplyFinalizerPatch(was: seq<string>, will: seq<string>, meta: Meta)
    ensures Apply(FinalizerPatch(was, will), meta) ==
            if meta.finalizers == was then Some(meta.(finalizers := will)) else None
  {
    ApplyCompareAndSet(FINALIZERS, Strings(was), Strings(will), meta);
  }

  /** The patch ProtectObject sends for an object read with these finalizers; None: it sends nothing. */
  function ProtectPatch(read: seq<string>): Option<seq<Operation>> {
    if Carries(read) then None else Some(FinalizerPatch(read, read + [FINALIZER]))
  }

  /** The patch UnprotectObject sends: nothing only when the list is empty. A list without the finalizer is
      rewritten as it is, because the loop sets its flag for every element. */
  function UnprotectPatch(read: seq<string>): Option<seq<Operation>> {
    if read == [] then None else Some(FinalizerPatch(read, Foreign(read)))
  }

  method BuildProtectPatch(read: seq<string>) returns (r: Option<seq<Operation>>)
    ensures r == ProtectPatch(read)
  {
    CarriesIsMember(read);
    if FINALIZER in read {
      return None;
    }
    var newFinalizers := read;
    newFinalizers := newFinalizers + [FINALIZER];
    var patch := new JSONPatch([Operation(OpTest, FINALIZERS, Strings(read)),
                                Operation(OpReplace, FINALIZERS, Strings(newFinalizers))]);
    r := patch.Payload();
  }

  method BuildUnprotectPatch(read: seq<string>) returns (r: Option<seq<Operation>>)
    ensures r == UnprotectPatch(read)
  {
    var containsFinalizer := false;
    var newFinalizers: seq<string> := [];
    for i := 0 to |read|
      invariant newFinalizers == Foreign(read[..i])
      invariant containsFinalizer == (i > 0)
    {
      ListConcat(read[..i], [read[i]]);
      assert read[..i] + [read[i]] == read[..i + 1];
      if read[i] != FINALIZER {
        newFinalizers := newFinalizers + [read[i]];
      }
      containsFinalizer := true;
    }
    assert read[..|read|] == read;
    if !containsFinalizer {
      return None;
    }
    var patch := new JSONPatch([Operation(OpTest, FINALIZERS, Strings(read)),
                                Operation(OpReplace, FINALIZERS, Strings(newFinalizers))]);
    r := patch.Payload();
  }

  // ---------------------------------------------------------------- interleavings

  /** What a controller builds from a read, and what other parties do, in any order. Patches in flight are kept
      for ever: each can land late, more than once, or never. */
  datatype Act =
    | ReadAndProtect
    | ReadAndUnprotect
    | ReadAndAdd      // metadata patch after AddFinalizer on the working copy
    | ReadAndRemove   // metadata patch after RemoveFinalizer on the working copy
    | Land(patch: nat)
    | Edit(list: seq<string>)

  datatype Race = Race(meta: Meta, inFlight: seq<seq<Operation>>)

  function Send(r: Race, patch: Option<seq<Operation>>): Race {
    match patch
    case None => r
    case Some(ops) => r.(inFlight := r.inFlight + [ops])
  }

  function Do(r: Race, act: Act): Race {
    var fs := r.meta.finalizers;
    match act
    case ReadAndProtect => Send(r, ProtectPatch(fs))
    case ReadAndUnprotect => Send(r, UnprotectPatch(fs))
    case ReadAndAdd => Send(r, if Added(fs) == fs then None else Some(FinalizerPatch(fs, Added(fs))))
    case ReadAndRemove => Send(r, if Foreign(fs) == fs then None else Some(FinalizerPatch(fs, Foreign(fs))))
    case Land(i) =>
      if i < |r.inFlight| then
        match Apply(r.inFlight[i], r.meta)
        case None => r
        case Some(m) => r.(meta := m)
      else r
    case Edit(list) => r.(meta := r.meta.(finalizers := list))
  }

  function Interleave(r: Race, acts: seq<Act>): Race
    decreases |acts|
  {
    if acts == [] then r else Interleave(Do(r, acts[0]), acts[1..])
  }

  /** The other parties' finalizers if the controller did not exist: only their own edits count. */
  function ForeignOnly(foreign: seq<string>, acts: seq<Act>): seq<string>
    decreases |acts|
  {
    if acts == [] then foreign
    else ForeignOnly(if acts[0].Edit? then Foreign(acts[0].list) else foreign, acts[1..])
  }

  /** A patch that can only add or take away the controller's finalizer. */
  ghost predicate Harmless(ops: seq<Operation>) {
    exists was, will :: ops == FinalizerPatch(was, will) && Foreign(was) == Foreign(will) && Ours(will) <= 1
  }

  ghost predicate RaceOk(r: Race) {
    forall i :: 0 <= i < |r.inFlight| ==> Harmless(r.inFlight[i])
  }

  lemma HarmlessPatch(was: seq<string>, will: seq<string>)
    requires Foreign(was) == Foreign(will) && Ours(will) <= 1
    ensures Harmless(FinalizerPatch(was, will))
  {
  }

  lemma SendIsHarmless(r: Race, act: Act)
    requires RaceOk(r) && !act.Land? && !act.Edit?
    ensures RaceOk(Do(r, act)) && Do(r, act).meta == r.meta
  {
    var fs := r.meta.finalizers;
    AddedKeepsForeign(fs);
    ForeignShape(fs);
    if Added(fs) != fs {
      HarmlessPatch(fs, Added(fs));
    }
    HarmlessPatch(fs, Foreign(fs));
  }

  lemma LandIsHarmless(r: Race, i: nat)
    requires RaceOk(r)
    ensures RaceOk(Do(r, Land(i)))
    ensures Foreign(Do(r, Land(i)).meta.finalizers) == Foreign(r.meta.finalizers)
    ensures Ours(r.meta.finalizers) <= 1 ==> Ours(Do(r, Land(i)).meta.finalizers) <= 1
  {
    if i < |r.inFlight| {
      assert Harmless(r.inFlight[i]);
      var was, will :| r.inFlight[i] == FinalizerPatch(was, will)
        && Foreign(was) == Foreign(will) && Ours(will) <= 1;
      ApplyFinalizerPatch(was, will, r.meta);
    }
  }

  lemma DoIsHarmless(r: Race, act: Act)
    requires RaceOk(r)
    ensures RaceOk(Do(r, act))
    ensures Foreign(Do(r, act).meta.finalizers) ==
            if act.Edit? then Foreign(act.list) else Foreign(r.meta.finalizers)
    ensures Ours(r.meta.finalizers) <= 1 && (act.Edit? ==> Ours(act.list) <= 1) ==>
      Ours(Do(r, act).meta.finalizers) <= 1
  {
    match act
    case Land(i) => LandIsHarmless(r, i);
    case Edit(_) =>
    case _ => SendIsHarmless(r, act);
  }

  /** No lost finalizers: under every interleaving of stale patches and any edits of others, the other parties'
      finalizers are what their own edits alone make of them. The controller's occurs at most once, unless somebody
      else has stored it twice. */
  lemma {:induction false} NoLostFinalizers(r: Race, acts: seq<Act>)
    requires RaceOk(r)
    ensures Foreign(Interleave(r, acts).meta.finalizers) == ForeignOnly(Foreign(r.meta.finalizers), acts)
    ensures Ours(r.meta.finalizers) <= 1 && (forall act | act in acts :: act.Edit? ==> Ours(act.list) <= 1) ==>
      Ours(Interleave(r, acts).meta.finalizers) <= 1
    decreases |acts|
  {
    if acts != [] {
      DoIsHarmless(r, acts[0]);
      NoLostFinalizers(Do(r, acts[0]), acts[1..]);
    }
  }
}
