/**
 * PipelineRun objects as the operator reads them, and the choice among the runs a trigger already owns for one
 * source revision (pkg/source/start_runs.go).
 */
module Runs {
  import opened Util

  type LabelMap = map<string, string>

  const SOURCE_LABEL_PREFIX := "pipeline.jquad.rocks/"
  const TRIGGER_KIND := "PipelineTrigger"

  datatype OwnerRef = OwnerRef(kind: string, name: string, uid: string, controller: bool)

  datatype RunCondition = RunCondition(ctype: string, status: string, reason: string, message: string)

  /** The status map of an unstructured run; a missing key is None. */
  datatype RunStatus = RunStatus(conditions: Option<seq<RunCondition>>)

  datatype Param = Param(name: string, value: string)

  datatype Run = Run(
    name: string, generateName: string, created: int, labels: LabelMap, owners: seq<OwnerRef>,
    params: seq<Param>, specStatus: string, status: Option<RunStatus>)

  datatype TriggerId = TriggerId(name: string, uid: string)

  const UNUSABLE_REASONS := {
    "Cancelled", "PipelineRunCancelled", "CancelledRunFinally", "StoppedRunFinally",
    "CouldntGetPipeline", "CouldntGetTask", "PipelineValidationFailed",
    "PipelineInvalidGraph", "ParameterMissing", "ParameterTypeMismatch",
    "InvalidWorkspaceBindings", "CreateRunFailed"
  }

  function RunConditions(run: Run): seq<RunCondition> {
    if run.status.Some? && run.status.value.conditions.Some? then run.status.value.conditions.value else []
  }

  /** Tekton has given the run no conditions yet. */
  predicate Unstated(run: Run) {
    run.status.None? || run.status.value.conditions.None?
  }

  predicate IsUnusable(run: Run) {
    || run.specStatus in UNUSABLE_REASONS
    || exists i :: 0 <= i < |RunConditions(run)|
                   && RunConditions(run)[i].ctype == "Succeeded" && RunConditions(run)[i].reason in UNUSABLE_REASONS
  }

  /** Preferred over: usable first, then newest, then greatest name. */
  predicate BetterRun(a: Run, b: Run) {
    if IsUnusable(a) != IsUnusable(b) then !IsUnusable(a)
    else if a.created != b.created then b.created < a.created
    else LexLess(b.name, a.name)
  }

  /** A strict total order on runs with distinct names. */
  lemma BetterRunStrictTotalOrder(a: Run, b: Run, c: Run)
    ensures !BetterRun(a, a)
    ensures !(BetterRun(a, b) && BetterRun(b, a))
    ensures a.name != b.name ==> BetterRun(a, b) || BetterRun(b, a)
    ensures BetterRun(a, b) && BetterRun(b, c) ==> BetterRun(a, c)
  {
    LexTrichotomy(a.name, b.name);
    LexTrichotomy(a.name, a.name);
    if LexLess(b.name, a.name) && LexLess(c.name, b.name) {
      LexTransitive(c.name, b.name, a.name);
    }
  }

  function ControllerOf(owners: seq<OwnerRef>): Option<OwnerRef> {
    if owners == [] then None
    else if owners[0].controller then Some(owners[0])
    else ControllerOf(owners[1..])
  }

  /** Controlled by this trigger; the UIDs must agree only when both are known. */
  predicate Owned(id: TriggerId, run: Run) {
    var owner := ControllerOf(run.owners);
    && owner.Some? && owner.value.kind == TRIGGER_KIND && owner.value.name == id.name
    && (owner.value.uid == "" || id.uid == "" || owner.value.uid == id.uid)
  }

  function SourceLabels(labels: LabelMap): LabelMap {
    map k | k in labels && SOURCE_LABEL_PREFIX <= k :: labels[k]
  }

  method CollectSourceLabels(labels: LabelMap) returns (want: LabelMap)
    ensures want == SourceLabels(labels)
  {
    want := map[];
    var keys := labels.Keys;
    while keys != {}
      invariant keys <= labels.Keys
      invariant want == map k | k in labels && k !in keys && SOURCE_LABEL_PREFIX <= k :: labels[k]
    {
      var k :| k in keys;
      keys := keys - {k};
      if SOURCE_LABEL_PREFIX <= k {
        want := want[k := labels[k]];
      }
    }
  }

  /** `run` is this trigger's and carries every wanted source label. */
  predicate Matches(id: TriggerId, want: LabelMap, run: Run) {
    Owned(id, run) && SubMap(want, run.labels)
  }

  function FindExisting(id: TriggerId, want: LabelMap, items: seq<Run>): Option<Run> {
    if want == map[] || items == [] then None
    else
      var best := FindExisting(id, want, items[..|items| - 1]);
      var item := items[|items| - 1];
      if Matches(id, want, item) && (best.None? || BetterRun(item, best.value)) then Some(item) else best
  }

  method FindExistingRun(id: TriggerId, pr: Run, existing: seq<Run>) returns (best: Option<Run>)
    ensures best == FindExisting(id, SourceLabels(pr.labels), existing)
  {
    var want := CollectSourceLabels(pr.labels);
    best := None;
    if want == map[] {
      return;
    }
    for i := 0 to |existing|
      invariant best == FindExisting(id, want, existing[..i])
    {
      assert existing[..i + 1][..i] == existing[..i];
      var item := existing[i];
      if Matches(id, want, item) && (best.None? || BetterRun(item, best.value)) {
        best := Some(item);
      }
    }
    assert existing[..|existing|] == existing;
  }

  /** One name, one object: what the API server guarantees inside a namespace. */
  ghost predicate NamesIdentify(items: seq<Run>) {
    forall x, y :: x in items && y in items && x.name == y.name ==> x == y
  }

  /** `r` is the one matching run that beats every other. */
  ghost predicate IsBest(id: TriggerId, want: LabelMap, items: seq<Run>, r: Run) {
    r in items && Matches(id, want, r) && forall x :: x in items && Matches(id, want, x) ==> x == r || BetterRun(r, x)
  }

  lemma {:induction false} FindExistingSound(id: TriggerId, want: LabelMap, items: seq<Run>)
    ensures FindExisting(id, want, items).None? <==> want == map[] || forall x :: x in items ==> !Matches(id, want, x)
    ensures FindExisting(id, want, items).Some? ==>
              FindExisting(id, want, items).value in items && Matches(id, want, FindExisting(id, want, items).value)
  {
    if want != map[] && items != [] {
      var rest, item := items[..|items| - 1], items[|items| - 1];
      FindExistingSound(id, want, rest);
      assert items == rest + [item];
    }
  }

  /** The fold returns the unique maximum of the matching runs. */
  lemma {:induction false} FindExistingIsBest(id: TriggerId, want: LabelMap, items: seq<Run>)
    requires NamesIdentify(items)
    ensures FindExisting(id, want, items).Some? ==> IsBest(id, want, items, FindExisting(id, want, items).value)
  {
    FindExistingSound(id, want, items);
    if want != map[] && items != [] {
      var rest, item := items[..|items| - 1], items[|items| - 1];
      assert items == rest + [item];
      FindExistingIsBest(id, want, rest);
      FindExistingSound(id, want, rest);
      var before, after := FindExisting(id, want, rest), FindExisting(id, want, items);
      if after.Some? {
        forall x | x in items && Matches(id, want, x) ensures x == after.value || BetterRun(after.value, x) {
          if before.Some? {
            BetterRunStrictTotalOrder(item, before.value, x);
          }
        }
      }
    }
  }

  /** Which run is adopted depends only on the set of runs listed, not on their order or repetition. */
  lemma FindExistingOrderFree(id: TriggerId, want: LabelMap, a: seq<Run>, b: seq<Run>)
    requires NamesIdentify(a)
    requires forall x :: x in a <==> x in b
    ensures FindExisting(id, want, a) == FindExisting(id, want, b)
  {
    FindExistingSound(id, want, a);
    FindExistingSound(id, want, b);
    FindExistingIsBest(id, want, a);
    FindExistingIsBest(id, want, b);
    if FindExisting(id, want, a).Some? {
      var x, y := FindExisting(id, want, a).value, FindExisting(id, want, b).value;
      BetterRunStrictTotalOrder(x, y, x);
    }
  }

  /** A label-filtered LIST. */
  function WithLabels(items: seq<Run>, want: LabelMap): seq<Run> {
    if items == [] then []
    else
      var rest := WithLabels(items[..|items| - 1], want);
      if SubMap(want, items[|items| - 1].labels) then rest + [items[|items| - 1]] else rest
  }

  /** Asking the server only for the runs that carry the labels finds the same run as asking for all of them. */
  lemma {:induction false} FilteredLookupAgrees(id: TriggerId, want: LabelMap, items: seq<Run>)
    ensures FindExisting(id, want, WithLabels(items, want)) == FindExisting(id, want, items)
  {
    if items != [] {
      var rest, item := items[..|items| - 1], items[|items| - 1];
      FilteredLookupAgrees(id, want, rest);
      if SubMap(want, item.labels) {
        assert WithLabels(items, want)[..|WithLabels(items, want)| - 1] == WithLabels(rest, want);
      }
    }
  }

  // ---- whose runs are chosen, and which of them ----

  /** The controller is the first owner reference marked as one. */
  predicate FirstController(owners: seq<OwnerRef>, i: int) {
    0 <= i < |owners| && owners[i].controller && forall j :: 0 <= j < i ==> !owners[j].controller
  }

  /** The controller is missing, is no PipelineTrigger, has another name, or has another UID where both are known. */
  ghost predicate Stranger(id: TriggerId, owners: seq<OwnerRef>) {
    forall i :: FirstController(owners, i) ==>
      || owners[i].kind != "PipelineTrigger" || owners[i].name != id.name
      || (owners[i].uid != "" && id.uid != "" && owners[i].uid != id.uid)
  }

  lemma {:induction false} ControllerIsFirst(owners: seq<OwnerRef>)
    ensures forall i :: FirstController(owners, i) ==> ControllerOf(owners) == Some(owners[i])
    ensures ControllerOf(owners).Some? ==> exists i :: FirstController(owners, i)
  {
    if owners == [] {
    } else if owners[0].controller {
      assert FirstController(owners, 0);
    } else {
      ControllerIsFirst(owners[1..]);
      forall i | FirstController(owners, i) ensures ControllerOf(owners) == Some(owners[i]) {
        assert forall j :: 0 <= j < i - 1 ==> owners[1..][j] == owners[j + 1];
        assert FirstController(owners[1..], i - 1);
      }
      if ControllerOf(owners).Some? {
        var i :| FirstController(owners[1..], i);
        assert forall j :: 0 < j < i + 1 ==> owners[j] == owners[1..][j - 1];
        assert FirstController(owners, i + 1);
      }
    }
  }

  lemma OwnedIffNoStranger(id: TriggerId, run: Run)
    ensures Owned(id, run) <==> !Stranger(id, run.owners)
  {
    ControllerIsFirst(run.owners);
  }

  ghost predicate Carries(run: Run, want: LabelMap) {
    forall k :: k in want ==> k in run.labels && run.labels[k] == want[k]
  }

  /** The filtered list holds exactly the runs that carry the labels. */
  lemma {:induction false} WithLabelsIff(items: seq<Run>, want: LabelMap)
    ensures forall x :: x in WithLabels(items, want) <==> x in items && Carries(x, want)
  {
    if items != [] {
      var rest, item := items[..|items| - 1], items[|items| - 1];
      WithLabelsIff(rest, want);
      assert items == rest + [item];
    }
  }

  /**
   * Exactly when a run is found: one of those listed has this trigger as its controller and carries every wanted label.
   * Runs of other triggers, of other kinds of owner and of none are never found, whatever their labels.
   */
  lemma FindExistingIff(id: TriggerId, want: LabelMap, items: seq<Run>)
    ensures FindExisting(id, want, items).Some? <==>
              want != map[] && exists x :: x in items && !Stranger(id, x.owners) && Carries(x, want)
    ensures FindExisting(id, want, items).Some? ==> !Stranger(id, FindExisting(id, want, items).value.owners)
  {
    FindExistingSound(id, want, items);
    forall x | x in items ensures Matches(id, want, x) <==> !Stranger(id, x.owners) && Carries(x, want) {
      OwnedIffNoStranger(id, x);
    }
  }

  const STOPPED := {"Cancelled", "PipelineRunCancelled", "CancelledRunFinally", "StoppedRunFinally"}
  const NOT_RESOLVED := {"CouldntGetPipeline", "CouldntGetTask", "CreateRunFailed"}
  const NOT_VALID := {
    "PipelineValidationFailed", "PipelineInvalidGraph", "ParameterMissing", "ParameterTypeMismatch",
    "InvalidWorkspaceBindings"
  }

  /**
   * Cancelled, stopped or never started (the pipeline could not be fetched, created or validated): by the run's spec,
   * or by the reason of a condition of type Succeeded.
   */
  ghost predicate NoResult(run: Run) {
    exists reason :: reason in STOPPED + NOT_RESOLVED + NOT_VALID &&
      (|| run.specStatus == reason
       || exists rc :: rc in RunConditions(run) && rc.ctype == "Succeeded" && rc.reason == reason)
  }

  /**
   * Which of several matching runs is adopted. One without a result only if all are; of those alike in that the newest;
   * of those created together the one of greatest name.
   */
  lemma FindExistingPrefers(id: TriggerId, want: LabelMap, items: seq<Run>, x: Run)
    requires NamesIdentify(items) && want != map[]
    requires x in items && !Stranger(id, x.owners) && Carries(x, want)
    ensures FindExisting(id, want, items).Some?
    ensures var r := FindExisting(id, want, items).value;
            && (NoResult(r) ==> NoResult(x))
            && (NoResult(r) == NoResult(x) ==> x.created <= r.created)
            && (NoResult(r) == NoResult(x) && x.created == r.created ==> x == r || LexLess(x.name, r.name))
  {
    FindExistingIff(id, want, items);
    FindExistingIsBest(id, want, items);
    OwnedIffNoStranger(id, x);
    var r := FindExisting(id, want, items).value;
    assert x == r || BetterRun(r, x);
    UnusableIsNoResult(r);
    UnusableIsNoResult(x);
  }

  lemma UnusableIsNoResult(run: Run)
    ensures IsUnusable(run) <==> NoResult(run)
  {
    assert UNUSABLE_REASONS == STOPPED + NOT_RESOLVED + NOT_VALID;
    var conditions := RunConditions(run);
    if i :| 0 <= i < |conditions| && conditions[i].ctype == "Succeeded" && conditions[i].reason in UNUSABLE_REASONS {
      assert conditions[i] in conditions;
    }
  }
}
