/**
 Status conditions: a list edited by scan, filter and append, shown to behave like a map from
 condition type to the last change of its status over unbounded runs.
 */
module Conditions {
  import opened Text
  import opened Api

  /** The list without the conditions of one type, in order. */
  function Without(conditions: seq<Condition>, kind: string): seq<Condition>
  {
    if conditions == [] then []
    else
      var last := conditions[|conditions| - 1];
      Without(conditions[..|conditions| - 1], kind) + if last.kind == kind then [] else [last]
  }

  /** The first condition of a type. */
  function Find(conditions: seq<Condition>, kind: string): Option<Condition>
  {
    if conditions == [] then None
    else if conditions[0].kind == kind then Some(conditions[0])
    else Find(conditions[1..], kind)
  }

  /** An unchanged status leaves the list alone; a new one moves the type to the end, stamped `now`. */
  function Updated(conditions: seq<Condition>, condition: Condition, now: int): seq<Condition>
  {
    var existing := Find(conditions, condition.kind);
    if existing.Some? && existing.value.status == condition.status then conditions
    else Without(conditions, condition.kind) + [condition.(time := now)]
  }

  lemma {:induction false} FindScans(conditions: seq<Condition>, kind: string, i: nat)
    requires i <= |conditions| && forall j | 0 <= j < i :: conditions[j].kind != kind
    ensures Find(conditions, kind) == Find(conditions[i..], kind)
  {
    if i > 0 {
      FindScans(conditions[1..], kind, i - 1);
      assert conditions[1..][i - 1..] == conditions[i..];
    }
  }

  method UpdateCondition(conditions: seq<Condition>, newCondition: Condition, now: int) returns (result: seq<Condition>)
    ensures result == Updated(conditions, newCondition, now)
  {
    var existing: Option<Condition> := None;
    var i := 0;
    while i < |conditions| && existing.None?
      invariant 0 <= i <= |conditions|
      invariant existing.None? ==> forall j | 0 <= j < i :: conditions[j].kind != newCondition.kind
      invariant existing.Some? ==> existing == Find(conditions, newCondition.kind)
      decreases |conditions| - i
    {
      if conditions[i].kind == newCondition.kind {
        FindScans(conditions, newCondition.kind, i);
        existing := Some(conditions[i]);
      }
      i := i + 1;
    }
    if existing.None? {
      FindScans(conditions, newCondition.kind, |conditions|);
    }
    if existing.Some? && existing.value.status == newCondition.status {
      return conditions;
    }
    result := [];
    for k := 0 to |conditions|
      invariant result == Without(conditions[..k], newCondition.kind)
    {
      assert conditions[..k + 1][..k] == conditions[..k];
      if conditions[k].kind != newCondition.kind {
        result := result + [conditions[k]];
      }
    }
    assert conditions[..|conditions|] == conditions;
    result := result + [newCondition.(time := now)];
  }

  /** The condition a call writes, before it is stamped. */
  function NewCondition(kind: string, status: string, message: string, now: int): Condition
  {
    Condition(kind, status, status, message, now)
  }

  /** What one call leaves in an object's status. */
  function WithCondition(s: SloStatus, kind: string, status: string, message: string, now: int): SloStatus
  {
    SloStatus(Updated(s.conditions, NewCondition(kind, status, message, now), now), status)
  }

  /**
   `b` is `a` marked as ready or not: the Ready text says so, and the Ready condition, which keeps its message
   and time if it said so before; nothing else has moved but the version.
   */
  predicate Marked(a: Slo, b: Slo, status: string, message: string, now: int)
  {
    && b == a.(status := b.status, meta := a.meta.(version := b.meta.version))
    && b.status.ready == status
    && (var before := Find(a.status.conditions, "Ready");
        b.status.conditions
        == if before.Some? && before.value.status == status then a.status.conditions
           else Without(a.status.conditions, "Ready") + [Condition("Ready", status, status, message, now)])
    && Find(b.status.conditions, "Ready").Some? && Find(b.status.conditions, "Ready").value.status == status
  }

  predicate NotReady(a: Slo, b: Slo, message: string, now: int)
  {
    Marked(a, b, "False", message, now)
  }

  lemma MarkedBy(a: Slo, status: string, message: string, now: int, version: nat)
    ensures Marked(a, a.(status := WithCondition(a.status, "Ready", status, message, now),
                         meta := a.meta.(version := version)), status, message, now)
  {
    hide Without, Find;
    FindUpdated(a.status.conditions, NewCondition("Ready", status, message, now), now);
  }

  predicate ReadyTrue(status: SloStatus)
  {
    var c := Find(status.conditions, "Ready");
    c.Some? && c.value.status == "True"
  }

  /** The status block of an object held in memory; writing it back to the cluster is a separate call. */
  class StatusBlock {
    var conditions: seq<Condition>
    var ready: string

    constructor ()
      ensures conditions == [] && ready == ""
    {
      conditions, ready := [], "";
    }

    method UpdateStatus(kind: string, status: string, message: string, now: int)
      modifies this
      ensures SloStatus(conditions, ready)
          == WithCondition(old(SloStatus(conditions, ready)), kind, status, message, now)
    {
      var condition := NewCondition(kind, status, message, now);
      conditions := UpdateCondition(conditions, condition, now);
      ready := status;
    }
  }

  // ----- Runs -----

  datatype Call = Call(kind: string, status: string, message: string, now: int)

  function After(calls: seq<Call>): SloStatus
  {
    if calls == [] then SloStatus([], "")
    else
      var c := calls[|calls| - 1];
      WithCondition(After(calls[..|calls| - 1]), c.kind, c.status, c.message, c.now)
  }

  /** The status most recently given to a type. */
  function LatestStatus(calls: seq<Call>, kind: string): Option<string>
  {
    if calls == [] then None
    else
      var c := calls[|calls| - 1];
      if c.kind == kind then Some(c.status) else LatestStatus(calls[..|calls| - 1], kind)
  }

  /** The call at which a type last took a status different from the one it had; -1 if never named. */
  function LastChange(calls: seq<Call>, kind: string): (r: int)
    ensures -1 <= r < |calls|
    ensures r >= 0 ==> calls[r].kind == kind
    ensures r >= 0 <==> LatestStatus(calls, kind).Some?
  {
    if calls == [] then -1
    else
      var front, c := calls[..|calls| - 1], calls[|calls| - 1];
      if c.kind != kind || LatestStatus(front, kind) == Some(c.status) then LastChange(front, kind) else |front|
  }

  ghost predicate ClockMonotone(calls: seq<Call>)
  {
    forall i, j | 0 <= i <= j < |calls| :: calls[i].now <= calls[j].now
  }

  /** A condition that records its type's last change. */
  ghost predicate Records(c: Condition, calls: seq<Call>)
  {
    var i := LastChange(calls, c.kind);
    && i >= 0
    && LatestStatus(calls, c.kind) == Some(c.status) && c.status == calls[i].status
    && c.reason == c.status && c.message == calls[i].message && c.time == calls[i].now
  }

  ghost predicate AllRecord(conditions: seq<Condition>, calls: seq<Call>)
  {
    forall c | c in conditions :: Records(c, calls)
  }

  /** The order of the list is the order of the last changes. */
  ghost predicate ByChange(conditions: seq<Condition>, calls: seq<Call>)
  {
    forall i, j | 0 <= i < j < |conditions| ::
      LastChange(calls, conditions[i].kind) < LastChange(calls, conditions[j].kind)
  }

  ghost predicate Mentions(conditions: seq<Condition>, kind: string)
  {
    exists c :: c in conditions && c.kind == kind
  }

  ghost predicate Represents(conditions: seq<Condition>, calls: seq<Call>)
  {
    && AllRecord(conditions, calls) && ByChange(conditions, calls)
    && forall kind | LatestStatus(calls, kind).Some? :: Mentions(conditions, kind)
  }

  lemma {:induction false} FindMentioned(conditions: seq<Condition>, kind: string)
    ensures Find(conditions, kind).Some? <==> Mentions(conditions, kind)
    ensures Find(conditions, kind).Some? ==>
      Find(conditions, kind).value in conditions && Find(conditions, kind).value.kind == kind
  {
    if conditions != [] {
      FindMentioned(conditions[1..], kind);
      assert conditions == [conditions[0]] + conditions[1..];
    }
  }

  /** Dropping one type keeps the others. */
  lemma {:induction false} WithoutMembers(conditions: seq<Condition>, kind: string)
    ensures forall c :: c in Without(conditions, kind) <==> c in conditions && c.kind != kind
  {
    if conditions != [] {
      var front, last := conditions[..|conditions| - 1], conditions[|conditions| - 1];
      assert conditions == front + [last];
      WithoutMembers(front, kind);
    }
  }

  lemma {:induction false} FindAppended(conditions: seq<Condition>, c: Condition)
    requires Find(conditions, c.kind).None?
    ensures Find(conditions + [c], c.kind) == Some(c)
  {
    if conditions != [] {
      assert (conditions + [c])[1..] == conditions[1..] + [c];
      FindAppended(conditions[1..], c);
    }
  }

  /** After an update the type has the new status, and if it had it before, nothing has changed. */
  lemma FindUpdated(conditions: seq<Condition>, c: Condition, now: int)
    ensures Find(Updated(conditions, c, now), c.kind).Some?
    ensures Find(Updated(conditions, c, now), c.kind).value.status == c.status
    ensures
      var before := Find(conditions, c.kind);
      before.Some? && before.value.status == c.status <==> Updated(conditions, c, now) == conditions
  {
    hide Without, Find;
    WithoutMembers(conditions, c.kind);
    FindMentioned(Without(conditions, c.kind), c.kind);
    FindAppended(Without(conditions, c.kind), c.(time := now));
  }

  lemma {:induction false} WithoutOrdered(conditions: seq<Condition>, kind: string, calls: seq<Call>)
    requires ByChange(conditions, calls)
    ensures ByChange(Without(conditions, kind), calls)
  {
    hide LastChange;
    if conditions != [] {
      var front, last := conditions[..|conditions| - 1], conditions[|conditions| - 1];
      forall i, j | 0 <= i < j < |front|
        ensures LastChange(calls, front[i].kind) < LastChange(calls, front[j].kind)
      {
        assert front[i] == conditions[i] && front[j] == conditions[j];
      }
      WithoutOrdered(front, kind, calls);
      WithoutMembers(front, kind);
      var w := Without(front, kind);
      forall i | 0 <= i < |w|
        ensures LastChange(calls, w[i].kind) < LastChange(calls, last.kind)
      {
        assert w[i] in front;
        var k :| 0 <= k < |front| && front[k] == w[i];
        assert conditions[k] == w[i];
      }
    }
  }

  /** A call changes what is recorded for its own type only, and only when the status is new. */
  lemma CallEffect(front: seq<Call>, c: Call, kind: string)
    ensures var calls := front + [c];
      && LatestStatus(calls, kind) == (if c.kind == kind then Some(c.status) else LatestStatus(front, kind))
      && LastChange(calls, kind) ==
           (if c.kind == kind && LatestStatus(front, kind) != Some(c.status) then |front| else LastChange(front, kind))
  {
    assert (front + [c])[..|front|] == front;
  }

  lemma RecordsLater(condition: Condition, front: seq<Call>, c: Call)
    requires Records(condition, front)
    requires c.kind != condition.kind || c.status == condition.status
    ensures Records(condition, front + [c])
    ensures LastChange(front + [c], condition.kind) == LastChange(front, condition.kind)
  {
    hide LastChange, LatestStatus;
    CallEffect(front, c, condition.kind);
  }

  lemma StepUnchanged(conditions: seq<Condition>, front: seq<Call>, c: Call)
    requires Represents(conditions, front)
    requires Find(conditions, c.kind).Some? && Find(conditions, c.kind).value.status == c.status
    ensures Represents(conditions, front + [c])
  {
    hide LastChange, LatestStatus, Find;
    FindMentioned(conditions, c.kind);
    var existing := Find(conditions, c.kind).value;
    assert Records(existing, front);
    forall condition | condition in conditions
      ensures Records(condition, front + [c])
      ensures LastChange(front + [c], condition.kind) == LastChange(front, condition.kind)
    {
      assert Records(condition, front);
      RecordsLater(condition, front, c);
    }
    forall kind | LatestStatus(front + [c], kind).Some?
      ensures Mentions(conditions, kind)
    {
      CallEffect(front, c, kind);
    }
  }

  lemma StepChanged(conditions: seq<Condition>, front: seq<Call>, c: Call)
    requires Represents(conditions, front)
    requires Find(conditions, c.kind).Some? ==> Find(conditions, c.kind).value.status != c.status
    ensures Represents(Without(conditions, c.kind) + [NewCondition(c.kind, c.status, c.message, c.now)], front + [c])
  {
    hide LastChange, LatestStatus, Find, Without;
    var calls := front + [c];
    var w, added := Without(conditions, c.kind), NewCondition(c.kind, c.status, c.message, c.now);
    WithoutMembers(conditions, c.kind);
    WithoutOrdered(conditions, c.kind, front);
    FindMentioned(conditions, c.kind);
    if Find(conditions, c.kind).Some? { assert Records(Find(conditions, c.kind).value, front); }
    CallEffect(front, c, c.kind);
    assert calls[|front|] == c;
    assert Records(added, calls);
    forall condition | condition in w
      ensures Records(condition, calls) && LastChange(calls, condition.kind) == LastChange(front, condition.kind)
    {
      assert Records(condition, front);
      RecordsLater(condition, front, c);
    }
    forall kind | LatestStatus(calls, kind).Some?
      ensures Mentions(w + [added], kind)
    {
      CallEffect(front, c, kind);
      if kind == c.kind {
        assert added in w + [added];
      } else {
        var kept :| kept in conditions && kept.kind == kind;
        assert kept in w + [added];
      }
    }
    assert forall i | 0 <= i < |w| :: w[i] in w;
  }

  lemma {:induction false} RunRepresents(calls: seq<Call>)
    ensures Represents(After(calls).conditions, calls)
  {
    hide LastChange, LatestStatus, Find, Without, Represents;
    if calls == [] {
      NothingRepresented();
    } else {
      var front, c := calls[..|calls| - 1], calls[|calls| - 1];
      assert calls == front + [c];
      RunRepresents(front);
      var conditions := After(front).conditions;
      var existing := Find(conditions, c.kind);
      if existing.Some? && existing.value.status == c.status {
        StepUnchanged(conditions, front, c);
      } else {
        StepChanged(conditions, front, c);
      }
    }
  }

  lemma NothingRepresented()
    ensures Represents([], [])
  {
  }

  /**
   From an empty status, after any calls with a nondecreasing clock: types are distinct, the list is
   exactly the map from each named type to its latest status with the message and time of that
   status's last real change, it is ordered by that time, and Ready is the last status passed.
   */
  lemma ConditionsRefineMap(calls: seq<Call>)
    requires ClockMonotone(calls)
    ensures var list := After(calls).conditions;
      && (forall i, j | 0 <= i < j < |list| :: list[i].kind != list[j].kind && list[i].time <= list[j].time)
      && (forall kind :: Mentions(list, kind) <==> LatestStatus(calls, kind).Some?)
      && (forall c | c in list :: Records(c, calls))
    ensures After(calls).ready == if calls == [] then "" else calls[|calls| - 1].status
  {
    hide LastChange, LatestStatus, After;
    RunRepresents(calls);
    var list := After(calls).conditions;
    forall i, j | 0 <= i < j < |list|
      ensures list[i].kind != list[j].kind && list[i].time <= list[j].time
    {
      assert Records(list[i], calls) && Records(list[j], calls);
    }
    forall kind ensures Mentions(list, kind) ==> LatestStatus(calls, kind).Some? {
      if Mentions(list, kind) {
        var c :| c in list && c.kind == kind;
        assert Records(c, calls);
      }
    }
    ReadyIsLast(calls);
  }

  lemma ReadyIsLast(calls: seq<Call>)
    ensures After(calls).ready == if calls == [] then "" else calls[|calls| - 1].status
  {
  }

  /** Repeating the latest status of a type changes nothing but Ready, whatever the clock says. */
  lemma RepeatIsQuiet(s: SloStatus, kind: string, status: string, message: string, now: int)
    requires Find(s.conditions, kind).Some? && Find(s.conditions, kind).value.status == status
    ensures WithCondition(s, kind, status, message, now) == s.(ready := status)
  {
  }
}
