/** JSON Patch documents (pkg/patch/patch.go) and what a server does with them (RFC 6902, sections 4.3, 4.6 and 5). */
module Patches {
  import opened Types

  datatype Value = Strings(list: seq<string>) | StringMap(entries: map<string, string>)

  datatype OpKind = OpTest | OpReplace

  datatype Operation = Operation(op: OpKind, path: string, value: Value)

  const FINALIZERS := "/metadata/finalizers"
  const ANNOTATIONS := "/metadata/annotations"
  const LABELS := "/metadata/labels"

  /** The list of operations a patch is built from, grown in place. */
  class JSONPatch {
    var ops: seq<Operation>

    constructor (ops: seq<Operation>)
      ensures this.ops == ops
    {
      this.ops := ops;
    }

    method Append(more: seq<Operation>)
      modifies this
      ensures ops == old(ops) + more
    {
      ops := ops + more;
    }

    function Len(): (n: nat)
      reads this
    {
      |ops|
    }

    /** None is the "list of operations is empty" error. */
    method Payload() returns (r: Option<seq<Operation>>)
      ensures r == if ops == [] then None else Some(ops)
    {
      if Len() == 0 {
        return None;
      }
      return Some(ops);
    }
  }

  /** The value a path names in an object's metadata. An absent list or map is the empty one. */
  function Lookup(meta: Meta, path: string): Option<Value> {
    if path == FINALIZERS then Some(Strings(meta.finalizers))
    else if path == ANNOTATIONS then Some(StringMap(meta.annotations))
    else if path == LABELS then Some(StringMap(meta.labels))
    else None
  }

  function Store(meta: Meta, path: string, value: Value): Option<Meta> {
    if path == FINALIZERS && value.Strings? then Some(meta.(finalizers := value.list))
    else if path == ANNOTATIONS && value.StringMap? then Some(meta.(annotations := value.entries))
    else if path == LABELS && value.StringMap? then Some(meta.(labels := value.entries))
    else None
  }

  function ApplyOne(op: Operation, meta: Meta): Option<Meta> {
    match op.op
    case OpTest => if Lookup(meta, op.path) == Some(op.value) then Some(meta) else None
    case OpReplace => Store(meta, op.path, op.value)
  }

  /** Operations apply in order; if one fails the whole patch fails (None) and nothing is stored. */
  function Apply(ops: seq<Operation>, meta: Meta): Option<Meta> {
    if ops == [] then Some(meta)
    else match ApplyOne(ops[0], meta)
      case None => None
      case Some(m) => Apply(ops[1..], m)
  }

  lemma {:induction false} ApplyConcat(a: seq<Operation>, b: seq<Operation>, meta: Meta)
    ensures Apply(a + b, meta) == (match Apply(a, meta) case None => None case Some(m) => Apply(b, m))
  {
    if a == [] {
      assert a + b == b;
    } else {
      assert (a + b)[1..] == a[1..] + b;
      match ApplyOne(a[0], meta)
      case None =>
      case Some(m) => ApplyConcat(a[1..], b, m);
    }
  }

  /** Compare-and-set on one path. */
  function CompareAndSet(path: string, was: Value, will: Value): seq<Operation> {
    [Operation(OpTest, path, was), Operation(OpReplace, path, will)]
  }

  lemma ApplyCompareAndSet(path: string, was: Value, will: Value, meta: Meta)
    ensures Apply(CompareAndSet(path, was, will), meta) ==
            if Lookup(meta, path) == Some(was) then Store(meta, path, will) else None
  {
    var ops := CompareAndSet(path, was, will);
    assert ops[1..][0] == ops[1] && ops[1..][1..] == [];
    assert Apply(ops[1..], meta) == ApplyOne(ops[1], meta);
  }

  // ---------------------------------------------------------------- JSON Pointer escaping

  /** strings.NewReplacer("~", "~0", "/", "~1"): one pass, character by character. */
  function EscapeJSONPointer(path: string): string {
    if path == [] then []
    else (if path[0] == '~' then "~0" else if path[0] == '/' then "~1" else [path[0]]) + EscapeJSONPointer(path[1..])
  }

  /** Replace every `~d` by `c`, left to right: one pass of the decoding in section 4 of RFC 6901. */
  function ReplaceTilde(d: char, c: char, s: string): string {
    if |s| >= 2 && s[0] == '~' && s[1] == d then [c] + ReplaceTilde(d, c, s[2..])
    else if s == [] then []
    else [s[0]] + ReplaceTilde(d, c, s[1..])
  }

  function Unescape(s: string): string {
    ReplaceTilde('0', '~', ReplaceTilde('1', '/', s))
  }

  /** No `/`, and every `~` is followed by 0 or 1: a reference token of section 3 of RFC 6901. */
  predicate IsToken(s: string) {
    && (forall i :: 0 <= i < |s| ==> s[i] != '/')
    && (forall i :: 0 <= i < |s| && s[i] == '~' ==> i + 1 < |s| && (s[i + 1] == '0' || s[i + 1] == '1'))
  }

  lemma {:induction false} EscapeIsToken(path: string)
    ensures IsToken(EscapeJSONPointer(path))
  {
    if path != [] {
      EscapeIsToken(path[1..]);
      var head := if path[0] == '~' then "~0" else if path[0] == '/' then "~1" else [path[0]];
      var tail := EscapeJSONPointer(path[1..]);
      forall i | 0 <= i < |head + tail| && (head + tail)[i] == '~'
        ensures i + 1 < |head + tail| && ((head + tail)[i + 1] == '0' || (head + tail)[i + 1] == '1')
      {
        if i >= |head| {
          assert tail[i - |head|] == '~';
          assert (head + tail)[i + 1] == tail[i + 1 - |head|];
        }
      }
    }
  }

  /** Section 4 of RFC 6901 decodes `~1` first and `~0` second; that undoes the escape on every string. */
  lemma {:induction false} UnescapeEscape(path: string)
    ensures Unescape(EscapeJSONPointer(path)) == path
  {
    if path != [] {
      var c, tail := path[0], EscapeJSONPointer(path[1..]);
      var s := EscapeJSONPointer(path);
      UnescapeEscape(path[1..]);
      if c == '~' {
        assert s[1..] == ['0'] + tail && (['0'] + tail)[1..] == tail;
        assert ReplaceTilde('1', '/', s) == "~0" + ReplaceTilde('1', '/', tail);
        assert ("~0" + ReplaceTilde('1', '/', tail))[2..] == ReplaceTilde('1', '/', tail);
      } else if c == '/' {
        assert s[2..] == tail;
        assert (['/'] + ReplaceTilde('1', '/', tail))[1..] == ReplaceTilde('1', '/', tail);
      } else {
        assert s[1..] == tail;
        assert ([c] + ReplaceTilde('1', '/', tail))[1..] == ReplaceTilde('1', '/', tail);
      }
    }
  }

  /** Every reference token is the escape of exactly one string, the one it decodes to. */
  lemma {:induction false} EscapeUnescape(s: string)
    requires IsToken(s)
    ensures EscapeJSONPointer(Unescape(s)) == s
    decreases |s|
  {
    if s != [] {
      if s[0] == '~' {
        assert IsToken(s[2..]);
        EscapeUnescape(s[2..]);
        var tail := ReplaceTilde('1', '/', s[2..]);
        if s[1] == '0' {
          assert s[1..][1..] == s[2..];
          assert ReplaceTilde('1', '/', s) == "~0" + tail;
          assert ("~0" + tail)[2..] == tail;
          assert Unescape(s) == ['~'] + Unescape(s[2..]);
        } else {
          assert (['/'] + tail)[1..] == tail;
          assert Unescape(s) == ['/'] + Unescape(s[2..]);
        }
        assert Unescape(s)[1..] == Unescape(s[2..]);
      } else {
        assert IsToken(s[1..]);
        EscapeUnescape(s[1..]);
        var tail := ReplaceTilde('1', '/', s[1..]);
        assert ([s[0]] + tail)[1..] == tail;
        assert Unescape(s) == [s[0]] + Unescape(s[1..]);
        assert Unescape(s)[1..] == Unescape(s[1..]);
      }
    }
  }

  lemma EscapeInjective(a: string, b: string)
    requires EscapeJSONPointer(a) == EscapeJSONPointer(b)
    ensures a == b
  {
    UnescapeEscape(a);
    UnescapeEscape(b);
  }
}
