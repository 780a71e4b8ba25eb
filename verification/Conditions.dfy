/** Status conditions of a source slot, and the rule that decides from them whether a run is created. */
module Conditions {

  // Condition types and reasons (pkg/status) and the statuses of metav1.
  const UNKNOWN := "Unknown"
  const ERROR := "Error"
  const ERROR_REASON := "Failed"
  const SUCCESS := "Success"
  const SUCCESS_REASON := "Succeded"
  const IN_PROGRESS := "InProgress"
  const CREATE_REJECTED := "CreateRejected"
  const STATUS_TRUE := "True"
  const STATUS_FALSE := "False"
  const STATUS_UNKNOWN := "Unknown"

  datatype Condition = Condition(
    ctype: string, status: string, reason: string, message: string, observedGeneration: int, lastTransition: int)

  function Pending(generation: int, now: int): Condition {
    Condition(UNKNOWN, STATUS_UNKNOWN, UNKNOWN, "Unknown", generation, now)
  }

  function Failure(generation: int, now: int, message: string): Condition {
    Condition(ERROR, STATUS_FALSE, ERROR_REASON, message, generation, now)
  }

  const REJECTED_PREFIX :=
    "PipelineRun create rejected permanently "
    + "(retried on a new revision or a PipelineTrigger spec change): "

  function CreateFailed(generation: int, now: int, message: string): Condition {
    Condition(ERROR, STATUS_FALSE, CREATE_REJECTED, REJECTED_PREFIX + message, generation, now)
  }

  const NO_STATUS := "Unmarshal of status failed."
  const NO_CONDITIONS := "Unmarshal of conditions failed."

  /** Recorded when the matched run has no conditions yet. */
  function Unparsed(now: int, message: string): Condition {
    Condition("False", STATUS_FALSE, "ParamsUnmarshalFailed", message, 0, now)
  }

  predicate HasType(conditions: seq<Condition>, ctype: string) {
    exists i :: 0 <= i < |conditions| && conditions[i].ctype == ctype
  }

  /** The list-map key of the custom resource: no two conditions of one slot share a type. */
  predicate DistinctTypes(conditions: seq<Condition>) {
    forall i, j :: 0 <= i < j < |conditions| ==> conditions[i].ctype != conditions[j].ctype
  }

  function Replaced(conditions: seq<Condition>, c: Condition): seq<Condition> {
    if HasType(conditions, c.ctype)
    then seq(|conditions|, i requires 0 <= i < |conditions| =>
               if conditions[i].ctype == c.ctype then c else conditions[i])
    else conditions + [c]
  }

  method AddOrReplaceCondition(conditions: seq<Condition>, c: Condition) returns (result: seq<Condition>)
    ensures result == Replaced(conditions, c)
  {
    var found := false;
    result := conditions;
    for i := 0 to |conditions|
      invariant |result| == |conditions|
      invariant found <==> exists j :: 0 <= j < i && conditions[j].ctype == c.ctype
      invariant forall j :: 0 <= j < |conditions| ==>
                  result[j] == if j < i && conditions[j].ctype == c.ctype then c else conditions[j]
    {
      if c.ctype == conditions[i].ctype {
        result := result[i := c];
        found := true;
      }
    }
    if !found {
      result := result + [c];
    }
  }

  /** What replacing does to the list as a set: `c` comes in, every other condition of its type goes. */
  lemma ReplacedContents(conditions: seq<Condition>, c: Condition)
    ensures c in Replaced(conditions, c)
    ensures forall x :: x in Replaced(conditions, c) <==> x == c || (x in conditions && x.ctype != c.ctype)
    ensures DistinctTypes(conditions) ==> DistinctTypes(Replaced(conditions, c))
  {
    var r := Replaced(conditions, c);
    if HasType(conditions, c.ctype) {
      var i :| 0 <= i < |conditions| && conditions[i].ctype == c.ctype;
      assert r[i] == c;
    } else {
      assert r[|conditions|] == c;
    }
    forall x | x in conditions && x.ctype != c.ctype ensures x in r {
      var i :| 0 <= i < |conditions| && conditions[i] == x;
      assert r[i] == x;
    }
  }

  /** A second condition of one type leaves no trace of the first. */
  lemma ReplacedTwice(conditions: seq<Condition>, a: Condition, b: Condition)
    requires a.ctype == b.ctype
    ensures Replaced(Replaced(conditions, a), b) == Replaced(conditions, b)
  {
    ReplacedContents(conditions, a);
    var once := Replaced(conditions, a);
    var i :| 0 <= i < |once| && once[i] == a;
  }

  /** An Error condition whose create was rejected at an older generation of the trigger. */
  predicate StaleRejection(c: Condition, generation: int) {
    c.ctype == ERROR && c.reason == CREATE_REJECTED && c.observedGeneration < generation
  }

  predicate Retryable(conditions: seq<Condition>, generation: int) {
    exists i :: 0 <= i < |conditions| && StaleRejection(conditions[i], generation)
  }

  predicate Eligible(conditions: seq<Condition>, generation: int) {
    conditions == [] || Retryable(conditions, generation)
  }

  method SlotEligibleForCreate(conditions: seq<Condition>, generation: int) returns (retry: bool, eligible: bool)
    ensures eligible == Eligible(conditions, generation)
    ensures retry == Retryable(conditions, generation)
  {
    if |conditions| == 0 {
      return false, true;
    }
    for i := 0 to |conditions|
      invariant forall j :: 0 <= j < i ==> !StaleRejection(conditions[j], generation)
    {
      if StaleRejection(conditions[i], generation) {
        return true, true;
      }
    }
    return false, false;
  }

  /** Which slots get a run: new ones, and those that show a create rejected at an older generation. */
  lemma EligibleIff(conditions: seq<Condition>, generation: int)
    ensures Eligible(conditions, generation) <==>
              || conditions == []
              || exists x :: x in conditions && x.ctype == "Error" && x.reason == "CreateRejected"
                             && x.observedGeneration < generation
  {
    if x :| x in conditions && x.ctype == "Error" && x.reason == "CreateRejected" && x.observedGeneration < generation {
      var i :| 0 <= i < |conditions| && conditions[i] == x;
      assert StaleRejection(conditions[i], generation);
    }
  }

  /** A slot that records any other failure is never attempted again, at whatever generation. */
  lemma FailureBlocksForever(conditions: seq<Condition>, generation: int, observed: int, now: int, message: string)
    ensures !Eligible(Replaced(conditions, Failure(observed, now, message)), generation)
  {
    ReplacedContents(conditions, Failure(observed, now, message));
    var r := Replaced(conditions, Failure(observed, now, message));
    assert forall i :: 0 <= i < |r| ==> r[i] in r;
  }

  /** Adding a condition of another type never hides a recorded rejection, and never invents one. */
  lemma OtherTypesKeepRejections(conditions: seq<Condition>, c: Condition, generation: int)
    requires c.ctype != ERROR
    ensures Retryable(Replaced(conditions, c), generation) == Retryable(conditions, generation)
    ensures HasType(Replaced(conditions, c), ERROR) == HasType(conditions, ERROR)
  {
    var r := Replaced(conditions, c);
    assert forall i :: 0 <= i < |conditions| ==> r[i] == conditions[i] || (conditions[i].ctype == c.ctype && r[i] == c);
  }

  /**
   * The last entry of the list sorted by transition time. Go's sort is a stable insertion sort up to twelve
   * entries, so among equal times the later entry wins.
   */
  function LastCondition(conditions: seq<Condition>): Condition
    requires conditions != []
  {
    var last := conditions[|conditions| - 1];
    if |conditions| == 1 then last
    else
      var before := LastCondition(conditions[..|conditions| - 1]);
      if last.lastTransition < before.lastTransition then before else last
  }

  /** No condition is newer than number `i`, and none that stands after it is as new. */
  predicate NewestAt(conditions: seq<Condition>, i: int) {
    && 0 <= i < |conditions|
    && (forall j :: 0 <= j < |conditions| ==> conditions[j].lastTransition <= conditions[i].lastTransition)
    && forall j :: i < j < |conditions| ==> conditions[j].lastTransition < conditions[i].lastTransition
  }

  lemma NewestExtends(rest: seq<Condition>, last: Condition, i: int)
    requires NewestAt(rest, i)
    ensures NewestAt(rest + [last], if last.lastTransition < rest[i].lastTransition then i else |rest|)
  {
  }

  lemma {:induction false} LastConditionIsNewest(conditions: seq<Condition>) returns (i: int)
    requires conditions != []
    ensures NewestAt(conditions, i) && LastCondition(conditions) == conditions[i]
  {
    var n := |conditions| - 1;
    if n == 0 {
      i := 0;
    } else {
      var rest, last := conditions[..n], conditions[n];
      var j := LastConditionIsNewest(rest);
      NewestExtends(rest, last, j);
      assert conditions == rest + [last];
      i := if last.lastTransition < rest[j].lastTransition then j else n;
    }
  }

  function LastStatus(conditions: seq<Condition>): string {
    if conditions == [] then "" else LastCondition(conditions).status
  }

  /** A condition newer than all others is the last one, wherever it stands in the list. */
  lemma {:induction false} LatestIsLast(conditions: seq<Condition>, c: Condition)
    requires c in conditions && forall x :: x in conditions && x != c ==> x.lastTransition < c.lastTransition
    ensures LastCondition(conditions) == c
  {
    if |conditions| > 1 {
      var n := |conditions| - 1;
      var rest := conditions[..n];
      assert conditions == rest + [conditions[n]];
      if c in rest {
        LatestIsLast(rest, c);
      } else {
        LastConditionIn(rest);
      }
    }
  }

  /**
   * A condition stamped no earlier than the rest becomes the last one: appended it wins ties, in place it must be
   * strictly newer than those of other types.
   */
  lemma ReplacedIsLast(conditions: seq<Condition>, c: Condition)
    requires forall x :: x in conditions ==> x.lastTransition <= c.lastTransition
    requires HasType(conditions, c.ctype) ==>
               forall x :: x in conditions && x.ctype != c.ctype ==> x.lastTransition < c.lastTransition
    ensures LastCondition(Replaced(conditions, c)) == c
  {
    ReplacedContents(conditions, c);
    if HasType(conditions, c.ctype) {
      LatestIsLast(Replaced(conditions, c), c);
    } else if conditions != [] {
      assert (conditions + [c])[..|conditions|] == conditions;
      LastConditionIn(conditions);
    }
  }

  lemma {:induction false} LastConditionIn(conditions: seq<Condition>)
    requires conditions != []
    ensures LastCondition(conditions) in conditions
  {
    if |conditions| > 1 {
      var n := |conditions| - 1;
      LastConditionIn(conditions[..n]);
      assert conditions == conditions[..n] + [conditions[n]];
    }
  }
}
