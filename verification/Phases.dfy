/** The phase and the conditions of the resource's status. */
module Phases {
  import opened Kubernetes
  import opened ReconcileSpec

  /** The status is as it was, or was this one and has been overwritten by that one. */
  ghost predicate Overwritten(o: Oracle, before: Option<Orchestrator>, after: Option<Orchestrator>, seen: Status, next: Status) {
    StatusIsOurs(o) && after.Some? ==>
      && before.Some?
      && (after.value.status == before.value.status || (before.value.status == seen && after.value.status == next))
  }

  function Types(cs: seq<Condition>): set<string> {
    set i | 0 <= i < |cs| :: cs[i].ctype
  }

  ghost predicate Distinct(cs: seq<Condition>) {
    forall i, j :: 0 <= i < j < |cs| ==> cs[i].ctype != cs[j].ctype
  }

  const UNTOUCHED := Status(NoPhase, [])

  /** The statuses that can be met: the empty one, and those that have been started.  The condition
      Available is never touched again, and Completed never taken back. */
  ghost predicate Legal(s: Status) {
    s == UNTOUCHED ||
    (&& |s.conditions| > 0 && s.conditions[0] == STARTING
     && s.phase != NoPhase
     && Distinct(s.conditions)
     && Types(s.conditions) <= {AVAILABLE, COMPLETED, DEGRADING}
     && (COMPLETED in Types(s.conditions) ==> DONE in s.conditions)
     && (s.phase == Completed ==> DONE in s.conditions)
     && (s.phase == Failed ==> DEGRADING in Types(s.conditions)))
  }

  /** A status that follows another one. */
  ghost predicate Succeeds(a: Status, b: Status) {
    Legal(a) ==>
      && Legal(b)
      && Types(a.conditions) <= Types(b.conditions)
      && (DONE in a.conditions ==> DONE in b.conditions)
      && (a.conditions != [] ==> b.conditions != [])
  }

  ghost predicate Moved(o: Oracle, before: Option<Orchestrator>, after: Option<Orchestrator>) {
    StatusIsOurs(o) && after.Some? ==> before.Some? && Succeeds(before.value.status, after.value.status)
  }

  /** The status after writing this phase and condition. */
  function Stamped(s: Status, phase: Phase, c: Condition): Status {
    Status(phase, SetStatusCondition(s.conditions, c))
  }

  /** The pairs of phase and condition a pass writes. */
  ghost predicate Stamp(s: Status, phase: Phase, c: Condition) {
    || (phase == Running && c == STARTING && s.conditions == [])
    || (phase == Completed && c == DONE && s.conditions != [])
    || (phase == Failed && (exists f :: c == DegradingCondition(f)) && s.conditions != [])
  }

  /** A condition takes the place of the first one of its type, or the last place. */
  lemma {:induction false} SettingACondition(cs: seq<Condition>, c: Condition) returns (i: nat)
    ensures i <= |cs| && forall j :: 0 <= j < i ==> cs[j].ctype != c.ctype
    ensures if i < |cs| then cs[i].ctype == c.ctype && SetStatusCondition(cs, c) == cs[i := c]
            else SetStatusCondition(cs, c) == cs + [c]
  {
    if cs == [] || cs[0].ctype == c.ctype {
      i := 0;
    } else {
      var k := SettingACondition(cs[1..], c);
      i := k + 1;
      assert forall j :: 0 < j < i ==> cs[j] == cs[1..][j - 1];
    }
  }

  lemma StampKeepsLegal(s: Status, phase: Phase, c: Condition)
    requires Stamp(s, phase, c)
    ensures Succeeds(s, Stamped(s, phase, c))
  {
    if Legal(s) {
      var i := SettingACondition(s.conditions, c);
      var cs := Stamped(s, phase, c).conditions;
      assert cs[i] == c;
      assert forall j :: 0 <= j < |s.conditions| && j != i ==> cs[j] == s.conditions[j];
      assert s.conditions != [] ==> c.ctype != AVAILABLE && i > 0;
    }
  }

  /** A resource that is not Completed does not become so. */
  ghost predicate StaysUncompleted(o: Oracle, before: Option<Orchestrator>, after: Option<Orchestrator>) {
    StatusIsOurs(o) && before.Some? && before.value.status.phase != Completed && after.Some? ==>
      after.value.status.phase != Completed
  }
}
