/** The list of status conditions, updated in place and keyed by type (api/v1alpha1/conditions.go). */
module Conditions {
  import opened Types

  /** No type occurs twice. */
  ghost predicate UniqueTypes(conditions: seq<Condition>) {
    forall i, j | 0 <= i < j < |conditions| :: conditions[i].kind != conditions[j].kind
  }

  /** The first position of a type, or the length of the list. */
  function Find(conditions: seq<Condition>, kind: ConditionType): (i: nat)
    ensures i <= |conditions|
    ensures i < |conditions| ==> conditions[i].kind == kind
    ensures forall k | 0 <= k < i :: conditions[k].kind != kind
  {
    if conditions == [] || conditions[0].kind == kind then 0 else 1 + Find(conditions[1..], kind)
  }

  predicate IsTrue(conditions: seq<Condition>, kind: ConditionType) {
    exists c | c in conditions :: c.kind == kind && c.status == ConditionTrue
  }

  function StatusOf(status: bool): ConditionStatus {
    if status then ConditionTrue else ConditionFalse
  }

  /** The list with the condition set: replaced where it is, or added at the end. The transition time
      moves only when the status changes. */
  function WithCondition(
    conditions: seq<Condition>, kind: ConditionType, status: bool, reason: Reason, generation: int, now: Time):
    seq<Condition>
  {
    var i := Find(conditions, kind);
    var written := Condition(kind, StatusOf(status), reason, generation, now);
    if i == |conditions| then conditions + [written]
    else if conditions[i].status == written.status then
      conditions[i := written.(lastTransitionTime := conditions[i].lastTransitionTime)]
    else conditions[i := written]
  }

  /** Only one position changes: the one of the type, or a new one at the end. */
  lemma SetConditionAt(
    conditions: seq<Condition>, kind: ConditionType, status: bool, reason: Reason, generation: int, now: Time)
    requires UniqueTypes(conditions)
    ensures
      var updated := WithCondition(conditions, kind, status, reason, generation, now);
      var i := Find(conditions, kind);
      && |updated| == (if i == |conditions| then i + 1 else |conditions|)
      && updated[i].kind == kind && updated[i].status == StatusOf(status)
      && updated[i].reason == reason && updated[i].observedGeneration == generation
      && updated[i].lastTransitionTime ==
           (if i < |conditions| && conditions[i].status == updated[i].status then conditions[i].lastTransitionTime
            else now)
      && (forall k | 0 <= k < |updated| && k != i ::
            k < |conditions| && updated[k] == conditions[k] && updated[k].kind != kind)
  {
    var i := Find(conditions, kind);
    forall k | i < k < |conditions|
      ensures conditions[k].kind != kind
    {
      assert conditions[i].kind != conditions[k].kind;
    }
  }

  /** Setting a condition keeps the types unique, makes the condition what was asked for, and touches no
      condition of another type. */
  lemma SetConditionMeaning(
    conditions: seq<Condition>, kind: ConditionType, status: bool, reason: Reason, generation: int, now: Time)
    requires UniqueTypes(conditions)
    ensures
      var updated := WithCondition(conditions, kind, status, reason, generation, now);
      && UniqueTypes(updated)
      && (IsTrue(updated, kind) <==> status)
      && (forall c | c in updated && c.kind == kind ::
            && c.status == (if status then ConditionTrue else ConditionFalse)
            && c.reason == reason && c.observedGeneration == generation)
      && (forall c, d | c in updated && d in conditions && c.kind == kind && d.kind == kind ::
            c.lastTransitionTime == if d.status == c.status then d.lastTransitionTime else now)
      && (forall c | c in updated && c.kind == kind && (forall d | d in conditions :: d.kind != kind) ::
            c.lastTransitionTime == now)
      && (exists c :: c in updated && c.kind == kind)
      && (forall c: Condition | c.kind != kind :: c in updated <==> c in conditions)
  {
    hide WithCondition;
    var updated := WithCondition(conditions, kind, status, reason, generation, now);
    var i := Find(conditions, kind);
    SetConditionAt(conditions, kind, status, reason, generation, now);
    assert updated[i] in updated;
    forall c: Condition | c.kind != kind
      ensures c in updated <==> c in conditions
    {
      if c in conditions {
        var k :| 0 <= k < |conditions| && conditions[k] == c;
        assert updated[k] == c;
      }
    }
  }

  /** The conditions of a status, behind a pointer. */
  class ConditionList {
    var items: seq<Condition>

    constructor (items: seq<Condition>)
      ensures this.items == items
    {
      this.items := items;
    }

    /** meta.SetStatusCondition, as SetCondition calls it. */
    method SetCondition(kind: ConditionType, status: bool, reason: Reason, generation: int, now: Time)
      modifies this
      ensures items == WithCondition(old(items), kind, status, reason, generation, now)
    {
      var conditionStatus := ConditionFalse;
      if status {
        conditionStatus := ConditionTrue;
      }
      var i := 0;
      while i < |items| && items[i].kind != kind
        invariant i <= Find(items, kind) && items == old(items)
      {
        i := i + 1;
      }
      if i == |items| {
        items := items + [Condition(kind, conditionStatus, reason, generation, now)];
        return;
      }
      if items[i].status != conditionStatus {
        items := items[i := items[i].(status := conditionStatus, lastTransitionTime := now)];
      }
      items := items[i := items[i].(reason := reason, observedGeneration := generation)];
    }

    method SetReady(status: bool, reason: Reason, generation: int, now: Time)
      modifies this
      ensures items == WithCondition(old(items), Ready, status, reason, generation, now)
    {
      SetCondition(Ready, status, reason, generation, now);
    }

    method SetProgressing(status: bool, reason: Reason, generation: int, now: Time)
      modifies this
      ensures items == WithCondition(old(items), Progressing, status, reason, generation, now)
    {
      SetCondition(Progressing, status, reason, generation, now);
    }
  }
}
