/**
 The VBA components of a workbook and what one pass of the sanitising loop does to them.

 Components are counted once, before the loop, and then fetched by position. A fetch past
 the end is fatal (`MustCallMethod` panics), while a failing edit ends the pass with an error.
 */
module Workbooks {

  // The text that replaces the code of a remediated module.
  const CLEANUP_COMMENT :=
    "' Sanitized by CRAMC\nPrivate Sub CRAMCPlaceholder()\n"
    + "    ' This ensures the comment above persists\nEnd Sub\n"

  datatype Component = Component(name: string, code: string)

  /** Which automation call fails while one matching component is being treated. */
  datatype Fault = NoFault | DeleteFails | AddFails | RemoveFails

  datatype Status = Completed | Failed | Panicked

  datatype Outcome = Outcome(comps: seq<Component>, status: Status)

  /** The fault met in one iteration; iterations the list does not mention succeed. */
  function FaultAt(faults: seq<Fault>, i: nat): Fault {
    if i < |faults| then faults[i] else NoFault
  }

  function RemoveAt<T>(s: seq<T>, i: nat): (r: seq<T>)
    requires i < |s|
    ensures |r| == |s| - 1
  {
    s[..i] + s[i + 1..]
  }

  /** One iteration on the component at position `i`. */
  function Treat(comps: seq<Component>, i: nat, op: string, target: string, fault: Fault): Outcome
    requires i < |comps|
  {
    if comps[i].name != target then
      Outcome(comps, Completed)
    else if op == "remediate" then
      if fault == DeleteFails then Outcome(comps, Failed)
      else if fault == AddFails then Outcome(comps[i := comps[i].(code := "")], Failed)
      else Outcome(comps[i := comps[i].(code := CLEANUP_COMMENT)], Completed)
    else if op == "rm_module" then
      if fault == RemoveFails then Outcome(comps, Failed)
      else Outcome(RemoveAt(comps, i), Completed)
    else
      Outcome(comps, Failed)
  }

  /** The iterations `i`, `i + 1`, ..., `count - 1`, where `count` was read before the first one. */
  function Iterate(comps: seq<Component>, i: nat, count: nat, op: string, target: string, faults: seq<Fault>): Outcome
    decreases count - i
  {
    if i >= count then Outcome(comps, Completed)
    else if i >= |comps| then Outcome(comps, Panicked)
    else
      var o := Treat(comps, i, op, target, FaultAt(faults, i));
      if o.status != Completed then o
      else Iterate(o.comps, i + 1, count, op, target, faults)
  }

  /** The whole pass. */
  function Pass(comps: seq<Component>, op: string, target: string, faults: seq<Fault>): Outcome {
    Iterate(comps, 0, |comps|, op, target, faults)
  }

  ghost predicate Occurs(comps: seq<Component>, target: string) {
    exists k :: 0 <= k < |comps| && comps[k].name == target
  }

  ghost predicate UniqueNames(comps: seq<Component>) {
    forall j, k :: 0 <= j < k < |comps| ==> comps[j].name != comps[k].name
  }

  /** `comps` without every component called `target`, order kept. */
  function Without(comps: seq<Component>, target: string): seq<Component> {
    if comps == [] then []
    else if comps[0].name == target then Without(comps[1..], target)
    else [comps[0]] + Without(comps[1..], target)
  }

  /** What remediation promises: same names in the same order, placeholder code exactly in the targets. */
  ghost predicate RemediatedFrom(result: seq<Component>, comps: seq<Component>, target: string) {
    && |result| == |comps|
    && forall k :: 0 <= k < |comps| ==>
                     && result[k].name == comps[k].name
                     && result[k].code == if comps[k].name == target then CLEANUP_COMMENT else comps[k].code
  }

  // ---------------------------------------------------------------- remediate

  lemma {:induction false} RemediateFrom(comps: seq<Component>, i: nat, count: nat, target: string)
    requires i <= count == |comps|
    ensures var o := Iterate(comps, i, count, "remediate", target, []);
            && o.status == Completed
            && |o.comps| == |comps|
            && (forall k :: 0 <= k < i ==> o.comps[k] == comps[k])
            && (forall k :: i <= k < count ==>
                             && o.comps[k].name == comps[k].name
                             && o.comps[k].code == if comps[k].name == target then CLEANUP_COMMENT else comps[k].code)
    decreases count - i
  {
    if i < count {
      var o := Treat(comps, i, "remediate", target, NoFault);
      RemediateFrom(o.comps, i + 1, count, target);
    }
  }

  /** When the edits succeed, remediation completes and replaces exactly the target modules' code. */
  lemma RemediateReplacesExactlyTheTargets(comps: seq<Component>, target: string)
    ensures Pass(comps, "remediate", target, []).status == Completed
    ensures RemediatedFrom(Pass(comps, "remediate", target, []).comps, comps, target)
  {
    RemediateFrom(comps, 0, |comps|, target);
  }

  /** Remediating twice is remediating once. */
  lemma RemediateIsIdempotent(comps: seq<Component>, target: string)
    ensures var once := Pass(comps, "remediate", target, []).comps;
            Pass(once, "remediate", target, []) == Outcome(once, Completed)
  {
    var once := Pass(comps, "remediate", target, []).comps;
    var twice := Pass(once, "remediate", target, []).comps;
    RemediateFrom(comps, 0, |comps|, target);
    RemediateFrom(once, 0, |once|, target);
    assert forall k :: 0 <= k < |comps| ==> once[k] == Component(once[k].name, once[k].code);
    assert forall k :: 0 <= k < |comps| ==> twice[k] == once[k];
  }

  lemma {:induction false} RemediateKeepsNamesFrom(comps: seq<Component>, i: nat, count: nat, target: string,
                                                   faults: seq<Fault>)
    requires i <= count == |comps|
    ensures var o := Iterate(comps, i, count, "remediate", target, faults);
            && o.status != Panicked
            && |o.comps| == |comps|
            && forall k :: 0 <= k < count ==>
                             && o.comps[k].name == comps[k].name
                             && (comps[k].name != target ==> o.comps[k] == comps[k])
    decreases count - i
  {
    if i < count {
      var o := Treat(comps, i, "remediate", target, FaultAt(faults, i));
      if o.status == Completed {
        RemediateKeepsNamesFrom(o.comps, i + 1, count, target, faults);
      }
    }
  }

  /** Whatever edit fails, remediation never reads past the end and never touches another module. */
  lemma RemediateNeverTouchesOthers(comps: seq<Component>, target: string, faults: seq<Fault>)
    ensures var o := Pass(comps, "remediate", target, faults);
            && o.status != Panicked
            && |o.comps| == |comps|
            && forall k :: 0 <= k < |comps| ==>
                             && o.comps[k].name == comps[k].name
                             && (comps[k].name != target ==> o.comps[k] == comps[k])
  {
    RemediateKeepsNamesFrom(comps, 0, |comps|, target, faults);
  }

  // ---------------------------------------------------------------- rm_module

  lemma {:induction false} WithoutAbsent(comps: seq<Component>, target: string)
    requires !Occurs(comps, target)
    ensures Without(comps, target) == comps
  {
    if comps != [] {
      assert comps[0].name != target;
      assert forall k :: 0 <= k < |comps| - 1 ==> comps[1..][k] == comps[k + 1];
      WithoutAbsent(comps[1..], target);
    }
  }

  lemma {:induction false} WithoutConcat(a: seq<Component>, b: seq<Component>, target: string)
    ensures Without(a + b, target) == Without(a, target) + Without(b, target)
  {
    if a == [] {
      assert a + b == b;
    } else {
      assert (a + b)[1..] == a[1..] + b;
      WithoutConcat(a[1..], b, target);
    }
  }

  /** Once the list is shorter than the count, the pass cannot complete. */
  lemma {:induction false} ShortListPanics(comps: seq<Component>, i: nat, count: nat, target: string)
    requires |comps| < count && i <= count
    ensures i < count ==> Iterate(comps, i, count, "rm_module", target, []).status == Panicked
    decreases count - i
  {
    if i < count && i < |comps| {
      ShortListPanics(Treat(comps, i, "rm_module", target, NoFault).comps, i + 1, count, target);
    }
  }

  /** Components before the target are passed over. */
  lemma {:induction false} SkipOthers(comps: seq<Component>, i: nat, j: nat, count: nat, target: string)
    requires i <= j <= count == |comps|
    requires forall k :: i <= k < j ==> comps[k].name != target
    ensures Iterate(comps, i, count, "rm_module", target, []) == Iterate(comps, j, count, "rm_module", target, [])
    decreases j - i
  {
    if i < j {
      SkipOthers(comps, i + 1, j, count, target);
    }
  }

  /**
   Removal, when every call succeeds: the pass stays in range exactly if the target is absent from
   all positions but the last, and in that case the result is the list minus exactly the target.
   No uniqueness is needed.
   */
  lemma RemoveStaysInRangeExactlyWhenTargetIsLastOrAbsent(comps: seq<Component>, target: string)
    ensures var o := Pass(comps, "rm_module", target, []);
            && (o.status == Completed <==> comps == [] || !Occurs(comps[..|comps| - 1], target))
            && (o.status == Completed ==> o.comps == Without(comps, target))
            && (o.status != Completed ==> o.status == Panicked)
  {
    var n := |comps|;
    if comps != [] {
      var front := comps[..n - 1];
      if Occurs(front, target) {
        var j := FirstOccurrence(front, target);
        SkipOthers(comps, 0, j, n, target);
        ShortListPanics(RemoveAt(comps, j), j + 1, n, target);
      } else {
        SkipOthers(comps, 0, n - 1, n, target) by {
          assert forall k :: 0 <= k < n - 1 ==> comps[k] == front[k];
        }
        var last := [comps[n - 1]];
        assert comps == front + last;
        WithoutConcat(front, last, target);
        WithoutAbsent(front, target);
        assert last[1..] == [];
        assert RemoveAt(comps, n - 1) == front;
      }
    }
  }

  lemma {:induction false} FirstOccurrence(comps: seq<Component>, target: string) returns (j: nat)
    requires Occurs(comps, target)
    ensures j < |comps| && comps[j].name == target
    ensures forall k :: 0 <= k < j ==> comps[k].name != target
  {
    if comps[0].name == target {
      j := 0;
    } else {
      var w :| 0 <= w < |comps| && comps[w].name == target;
      assert comps[1..][w - 1].name == target;
      var r := FirstOccurrence(comps[1..], target);
      j := r + 1;
      assert forall k :: 1 <= k < j ==> comps[k] == comps[1..][k - 1];
    }
  }

  lemma {:induction false} PassOver(comps: seq<Component>, i: nat, count: nat, target: string)
    requires !Occurs(comps, target)
    ensures Iterate(comps, i, count, "rm_module", target, []).comps == comps
    decreases count - i
  {
    if i < count && i < |comps| {
      PassOver(comps, i + 1, count, target);
    }
  }

  /** Taking out the only occurrence of the target leaves the list without it. */
  lemma RemovingTheOnlyOccurrence(comps: seq<Component>, j: nat, target: string)
    requires UniqueNames(comps) && j < |comps| && comps[j].name == target
    ensures !Occurs(RemoveAt(comps, j), target)
    ensures RemoveAt(comps, j) == Without(comps, target)
  {
    var a, b := comps[..j], comps[j + 1..];
    assert !Occurs(a, target);
    assert !Occurs(b, target) by {
      assert forall k :: 0 <= k < |b| ==> b[k] == comps[j + 1 + k];
    }
    assert !Occurs(a + b, target);
    assert comps == a + ([comps[j]] + b);
    WithoutConcat(a, [comps[j]] + b, target);
    assert ([comps[j]] + b)[1..] == b;
    WithoutAbsent(a, target);
    WithoutAbsent(b, target);
  }

  /** With unique names the target is gone even from a pass that then panics, and nothing else is. */
  lemma RemoveTakesExactlyTheTarget(comps: seq<Component>, target: string)
    requires UniqueNames(comps)
    ensures Pass(comps, "rm_module", target, []).comps == Without(comps, target)
  {
    if Occurs(comps, target) {
      var j := FirstOccurrence(comps, target);
      SkipOthers(comps, 0, j, |comps|, target);
      RemovingTheOnlyOccurrence(comps, j, target);
      PassOver(RemoveAt(comps, j), j + 1, |comps|, target);
    } else {
      PassOver(comps, 0, |comps|, target);
      WithoutAbsent(comps, target);
    }
  }

  // ---------------------------------------------------------------- any operation

  lemma {:induction false} UnknownFrom(comps: seq<Component>, i: nat, op: string, target: string, faults: seq<Fault>)
    requires op != "remediate" && op != "rm_module" && i <= |comps|
    ensures var o := Iterate(comps, i, |comps|, op, target, faults);
            && o.comps == comps
            && (o.status == Failed <==> exists k :: i <= k < |comps| && comps[k].name == target)
            && o.status != Panicked
    decreases |comps| - i
  {
    if i < |comps| && comps[i].name != target {
      UnknownFrom(comps, i + 1, op, target, faults);
    }
  }

  /** An operation the loop does not know changes nothing and is an error exactly when the target occurs. */
  lemma UnknownOperationFailsExactlyOnTarget(comps: seq<Component>, op: string, target: string, faults: seq<Fault>)
    requires op != "remediate" && op != "rm_module"
    ensures var o := Pass(comps, op, target, faults);
            o.comps == comps && (o.status == Failed <==> Occurs(comps, target)) && o.status != Panicked
  {
    UnknownFrom(comps, 0, op, target, faults);
  }
}
