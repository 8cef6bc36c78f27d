/** The metadata patch sent after every pass (pkg/controller/reconciler/meta_updater.go). */
module MetaUpdater {
  import opened Types
  import opened Patches
  import opened Finalizers

  function FinalizerOps(was: Meta, will: Meta): seq<Operation> {
    if was.finalizers == will.finalizers then [] else FinalizerPatch(was.finalizers, will.finalizers)
  }

  function AnnotationOps(was: Meta, will: Meta): seq<Operation> {
    if was.annotations == will.annotations then []
    else CompareAndSet(ANNOTATIONS, StringMap(was.annotations), StringMap(will.annotations))
  }

  function LabelOps(was: Meta, will: Meta): seq<Operation> {
    if was.labels == will.labels then []
    else CompareAndSet(LABELS, StringMap(was.labels), StringMap(will.labels))
  }

  function MetaPatch(was: Meta, will: Meta): seq<Operation> {
    FinalizerOps(was, will) + AnnotationOps(was, will) + LabelOps(was, will)
  }

  /** None: nothing to send. */
  method BuildPatch(was: Meta, will: Meta) returns (r: Option<seq<Operation>>)
    ensures r == if was == will then None else Some(MetaPatch(was, will))
  {
    var metadataPatch := new JSONPatch([]);
    if was.finalizers != will.finalizers {
      metadataPatch.Append([Operation(OpTest, FINALIZERS, Strings(was.finalizers)),
                            Operation(OpReplace, FINALIZERS, Strings(will.finalizers))]);
    }
    if was.annotations != will.annotations {
      metadataPatch.Append([Operation(OpTest, ANNOTATIONS, StringMap(was.annotations)),
                            Operation(OpReplace, ANNOTATIONS, StringMap(will.annotations))]);
    }
    if was.labels != will.labels {
      metadataPatch.Append([Operation(OpTest, LABELS, StringMap(was.labels)),
                            Operation(OpReplace, LABELS, StringMap(will.labels))]);
    }
    assert metadataPatch.ops == MetaPatch(was, will);
    if metadataPatch.Len() == 0 {
      return None;
    }
    r := metadataPatch.Payload();
  }

  /** The stored object still has the old value in every field that the patch changes. */
  predicate Unraced(was: Meta, will: Meta, stored: Meta) {
    && (was.finalizers == will.finalizers || stored.finalizers == was.finalizers)
    && (was.annotations == will.annotations || stored.annotations == was.annotations)
    && (was.labels == will.labels || stored.labels == was.labels)
  }

  /** The stored object with exactly the changed fields replaced: other fields keep what is stored, raced or not. */
  function Merged(was: Meta, will: Meta, stored: Meta): Meta {
    Meta(if was.finalizers == will.finalizers then stored.finalizers else will.finalizers,
         if was.annotations == will.annotations then stored.annotations else will.annotations,
         if was.labels == will.labels then stored.labels else will.labels)
  }

  /** Applied to any stored object, the patch stores the merge if no changed field was raced; otherwise it fails as
      a whole. It never tests or writes a field it does not change, and is empty exactly when nothing changed. */
  lemma MetaPatchCorrect(was: Meta, will: Meta, stored: Meta)
    ensures Apply(MetaPatch(was, will), stored) ==
            if Unraced(was, will, stored) then Some(Merged(was, will, stored)) else None
    ensures MetaPatch(was, will) == [] <==> was == will
    ensures forall i :: 0 <= i < |MetaPatch(was, will)| ==>
              var path := MetaPatch(was, will)[i].path;
              || (path == FINALIZERS && was.finalizers != will.finalizers)
              || (path == ANNOTATIONS && was.annotations != will.annotations)
              || (path == LABELS && was.labels != will.labels)
  {
    var f, a, l := FinalizerOps(was, will), AnnotationOps(was, will), LabelOps(was, will);
    ApplyConcat(f + a, l, stored);
    ApplyConcat(f, a, stored);
    ApplyFinalizerPatch(was.finalizers, will.finalizers, stored);
    var s1 := stored.(finalizers := Merged(was, will, stored).finalizers);
    ApplyCompareAndSet(ANNOTATIONS, StringMap(was.annotations), StringMap(will.annotations), s1);
    var s2 := s1.(annotations := Merged(was, will, stored).annotations);
    ApplyCompareAndSet(LABELS, StringMap(was.labels), StringMap(will.labels), s2);
  }
}
