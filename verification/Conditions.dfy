/** Status conditions (pkg/controller/condition/condition.go). */
module Conditions {
  import opened Types

  /** `cond` is the condition being built; the setters assign its fields. */
  class ConditionBuilder {
    var cond: Condition

    constructor (kind: string)
      ensures cond == Condition(kind, Unknown, ReasonUnknown, "", 0)
    {
      cond := Condition(kind, Unknown, ReasonUnknown, "", 0);
    }

    method Generation(generation: int)
      modifies this
      ensures cond == old(cond).(generation := generation)
    {
      cond := cond.(generation := generation);
    }

    method Status(status: ConditionStatus)
      modifies this
      ensures cond == old(cond).(status := status)
    {
      cond := cond.(status := status);
    }

    method Reason(reason: Reason)
      modifies this
      ensures cond == old(cond).(reason := reason)
    {
      cond := cond.(reason := reason);
    }

    method Message(message: string)
      modifies this
      ensures cond == old(cond).(message := message)
    {
      cond := cond.(message := message);
    }
  }

  function CountOf(kind: string, conditions: seq<Condition>): nat {
    if conditions == [] then 0
    else (if conditions[0].kind == kind then 1 else 0) + CountOf(kind, conditions[1..])
  }

  function GetCondition(kind: string, conditions: seq<Condition>): Option<Condition> {
    if conditions == [] then None
    else if conditions[0].kind == kind then Some(conditions[0])
    else GetCondition(kind, conditions[1..])
  }

  method FindCondition(kind: string, conditions: seq<Condition>) returns (r: Option<Condition>)
    ensures r == GetCondition(kind, conditions)
  {
    for i := 0 to |conditions|
      invariant GetCondition(kind, conditions) == GetCondition(kind, conditions[i..])
    {
      if conditions[i].kind == kind {
        return Some(conditions[i]);
      }
    }
    return None;
  }

  /** meta.SetStatusCondition: replace the first condition of the same type, or append. */
  function SetCondition(c: Condition, conditions: seq<Condition>): seq<Condition> {
    if conditions == [] then [c]
    else if conditions[0].kind == c.kind then [c] + conditions[1..]
    else [conditions[0]] + SetCondition(c, conditions[1..])
  }

  lemma {:induction false} SetThenGet(c: Condition, conditions: seq<Condition>)
    ensures GetCondition(c.kind, SetCondition(c, conditions)) == Some(c)
    ensures forall kind :: kind != c.kind ==>
      GetCondition(kind, SetCondition(c, conditions)) == GetCondition(kind, conditions)
    ensures forall kind ::
      CountOf(kind, SetCondition(c, conditions)) ==
      (if kind == c.kind && CountOf(kind, conditions) == 0 then 1 else CountOf(kind, conditions))
  {
    if conditions != [] && conditions[0].kind != c.kind {
      SetThenGet(c, conditions[1..]);
    }
    assert conditions != [] ==> ([c] + conditions[1..])[1..] == conditions[1..];
    assert conditions != [] ==>
      ([conditions[0]] + SetCondition(c, conditions[1..]))[1..] == SetCondition(c, conditions[1..]);
  }

  lemma {:induction false} SetTwice(c: Condition, conditions: seq<Condition>)
    ensures SetCondition(c, SetCondition(c, conditions)) == SetCondition(c, conditions)
    ensures GetCondition(c.kind, conditions) == Some(c) ==> SetCondition(c, conditions) == conditions
  {
    if conditions != [] && conditions[0].kind != c.kind {
      SetTwice(c, conditions[1..]);
      assert SetCondition(c, conditions)[1..] == SetCondition(c, conditions[1..]);
      assert conditions == [conditions[0]] + conditions[1..];
    } else if conditions != [] {
      assert ([c] + conditions[1..])[1..] == conditions[1..];
      assert conditions == [conditions[0]] + conditions[1..];
    }
  }

  lemma {:induction false} CountZero(kind: string, conditions: seq<Condition>)
    ensures GetCondition(kind, conditions).None? <==> CountOf(kind, conditions) == 0
  {
    if conditions != [] {
      CountZero(kind, conditions[1..]);
    }
  }

  /** What every stored condition list satisfies: at most one Ready condition, true exactly when its reason is Ready. */
  predicate ReadyOk(conditions: seq<Condition>) {
    && CountOf(READY, conditions) <= 1
    && var c := GetCondition(READY, conditions);
       c.Some? ==> (c.value.status == True <==> c.value.reason == ReasonReady)
  }

  lemma SetReadyOk(c: Condition, conditions: seq<Condition>)
    requires ReadyOk(conditions) && c.kind == READY && (c.status == True <==> c.reason == ReasonReady)
    ensures ReadyOk(SetCondition(c, conditions))
  {
    SetThenGet(c, conditions);
    CountZero(READY, conditions);
  }
}
