/**
 * One branch slot of a PullRequest trigger: its labels, the run prepared for it, and what each phase of a
 * reconcile does to it. These are value-level specifications; the methods that loop over the branch map are in
 * module PullRequest.
 */
module Branches {
  import opened Util
  import opened Labels
  import opened Conditions
  import opened Runs

  const NAME_LABEL := "pipeline.jquad.rocks/pr.branch.name"
  const COMMIT_LABEL := "pipeline.jquad.rocks/pr.branch.commit"

  /**
   * Library code the operator calls: the short SHA-256, Unicode lower-casing, and JSONPath evaluation of an
   * expression on a details document (does it evaluate, to what, and with which error).
   */
  datatype Oracle = Oracle(
    hash: string -> ShortHash, fold: char -> char,
    evaluates: (string, string) -> bool, value: (string, string) -> string, complaint: (string, string) -> string)

  /** spec.pipelineRun: the parts that vary with the slot or decide whether a run can be built. */
  datatype Template = Template(name: string, generateName: string, labels: LabelMap, params: seq<Param>)

  /** What a reconcile reads but never writes. */
  datatype Context = Context(id: TriggerId, generation: int, template: Template, oracle: Oracle)

  datatype Branch = Branch(
    name: string, commit: string, latestPipelineRun: string, details: string, conditions: seq<Condition>)

  type BranchMap = map<string, Branch>

  /** An entry of the PullRequest's status.sourceBranches. */
  datatype SourceBranch = SourceBranch(name: string, commit: string, details: string)

  // ---- labels ----

  function Rewrite(name: string): string {
    seq(|name|, i requires 0 <= i < |name| => if name[i] == '/' then '-' else name[i])
  }

  function NameLabel(o: Oracle, name: string): string {
    Sanitized(o.hash, Rewrite(name))
  }

  function LabelsOf(o: Oracle, name: string, commit: string): LabelMap {
    map[NAME_LABEL := NameLabel(o, name), COMMIT_LABEL := Sanitized(o.hash, commit)]
  }

  function BranchLabels(o: Oracle, b: Branch): LabelMap {
    LabelsOf(o, b.name, b.commit)
  }

  /** The reader's test, with its size short-cut. */
  predicate HasIntersection(a: LabelMap, b: LabelMap) {
    |a| <= |b| && SubMap(a, b)
  }

  lemma HasIntersectionIsSubMap(a: LabelMap, b: LabelMap)
    ensures HasIntersection(a, b) <==> SubMap(a, b)
  {
    if SubMap(a, b) {
      assert a.Keys <= b.Keys;
      SubsetSize(a.Keys, b.Keys);
    }
  }

  lemma {:induction false} SubsetSize<T>(a: set<T>, b: set<T>)
    requires a <= b
    ensures |a| <= |b|
  {
    if a != {} {
      var x :| x in a;
      SubsetSize(a - {x}, b - {x});
    }
  }

  /** Two names map to one label: every '/' already reads as '-'. */
  lemma SlashAndDashCollide(o: Oracle)
    ensures "a/b" != "a-b" && NameLabel(o, "a/b") == NameLabel(o, "a-b")
  {
    assert Rewrite("a/b") == "a-b" == Rewrite("a-b");
    assert "a/b"[1] != "a-b"[1];
  }

  /** Rewriting merges '/' with '-' and nothing else. */
  lemma RewriteEqualIff(a: string, b: string)
    ensures Rewrite(a) == Rewrite(b) <==>
              && |a| == |b|
              && forall i :: 0 <= i < |a| ==> a[i] == b[i] || (a[i] in {'/', '-'} && b[i] in {'/', '-'})
    ensures Rewrite(a) == a <==> '/' !in a
  {
    if Rewrite(a) == Rewrite(b) {
      assert |Rewrite(a)| == |a| && |Rewrite(b)| == |b|;
      forall i | 0 <= i < |a| ensures a[i] == b[i] || (a[i] in {'/', '-'} && b[i] in {'/', '-'}) {
        assert Rewrite(a)[i] == Rewrite(b)[i];
      }
    }
    if '/' in a {
      var i :| 0 <= i < |a| && a[i] == '/';
      assert Rewrite(a)[i] == '-';
    }
  }

  /** No two names of the set share a name label: what keeps branches apart. */
  ghost predicate DistinctLabels(o: Oracle, names: set<string>) {
    forall a, b :: a in names && b in names && NameLabel(o, a) == NameLabel(o, b) ==> a == b
  }

  /** Exactly when the branches stay apart: no two rewritten names are equal, or collide as label values. */
  lemma DistinctLabelsIff(o: Oracle, names: set<string>)
    ensures DistinctLabels(o, names) <==>
              forall a, b :: a in names && b in names && a != b ==> !Collide(o.hash, Rewrite(a), Rewrite(b))
  {
    forall a: string, b: string
      ensures NameLabel(o, a) == NameLabel(o, b) <==> Collide(o.hash, Rewrite(a), Rewrite(b))
    {
      SanitizedCollision(o.hash, Rewrite(a), Rewrite(b));
    }
  }

  // ---- the prepared run ----

  /** A parameter is substituted when it starts with '$'; evaluation is demanded when it contains one. */
  function ResolvedParam(o: Oracle, p: Param, details: string): Param {
    if "$" <= p.value then Param(p.name, o.value(details, p.value)) else p
  }

  predicate Evaluates(o: Oracle, p: Param, details: string) {
    '$' in p.value ==> o.evaluates(details, p.value)
  }

  predicate ParamsOk(c: Context, details: string) {
    forall i :: 0 <= i < |c.template.params| ==> Evaluates(c.oracle, c.template.params[i], details)
  }

  function FirstComplaint(o: Oracle, params: seq<Param>, details: string): string {
    if params == [] then ""
    else if !Evaluates(o, params[0], details) then o.complaint(details, params[0].value)
    else FirstComplaint(o, params[1..], details)
  }

  predicate Unmet(o: Oracle, p: Param, details: string) {
    '$' in p.value && !o.evaluates(details, p.value)
  }

  predicate FirstUnmet(o: Oracle, params: seq<Param>, details: string, i: int) {
    && 0 <= i < |params| && Unmet(o, params[i], details)
    && forall j :: 0 <= j < i ==> !Unmet(o, params[j], details)
  }

  /** The complaint is that of the first parameter that does not evaluate. */
  lemma {:induction false} FirstComplaintIsFirst(o: Oracle, params: seq<Param>, details: string)
    ensures forall i :: FirstUnmet(o, params, details, i) ==>
              FirstComplaint(o, params, details) == o.complaint(details, params[i].value)
    decreases |params|
  {
    forall i | FirstUnmet(o, params, details, i)
      ensures FirstComplaint(o, params, details) == o.complaint(details, params[i].value)
    {
      if i > 0 {
        var rest := params[1..];
        assert forall j :: 0 <= j < i ==> rest[j] == params[j + 1];
        assert FirstUnmet(o, rest, details, i - 1);
        FirstComplaintIsFirst(o, rest, details);
        assert !Unmet(o, params[0], details);
      }
    }
  }

  method EvaluatePipelineParams(c: Context, details: string) returns (ok: bool, message: string)
    ensures ok == ParamsOk(c, details)
    ensures !ok ==> message == FirstComplaint(c.oracle, c.template.params, details)
  {
    var params := c.template.params;
    for i := 0 to |params|
      invariant forall j :: 0 <= j < i ==> Evaluates(c.oracle, params[j], details)
      invariant FirstComplaint(c.oracle, params[i..], details) == FirstComplaint(c.oracle, params, details)
    {
      if '$' in params[i].value && !c.oracle.evaluates(details, params[i].value) {
        return false, c.oracle.complaint(details, params[i].value);
      }
    }
    return true, "";
  }

  /** The controller reference set on every prepared run. */
  function ControllerRef(id: TriggerId): OwnerRef {
    OwnerRef(TRIGGER_KIND, id.name, id.uid, true)
  }

  /** Template labels overridden by the slot's labels; parameters resolved on the slot's details. */
  function RunWith(c: Context, stem: string, labels: LabelMap, details: string): Run {
    Run(c.template.name,
        if c.template.name == "" && c.template.generateName == "" then NamePrefix(c.oracle.fold, stem)
        else c.template.generateName,
        0, c.template.labels + labels, [ControllerRef(c.id)],
        seq(|c.template.params|, i requires 0 <= i < |c.template.params| =>
              ResolvedParam(c.oracle, c.template.params[i], details)),
        "", None)
  }

  function RunFor(c: Context, b: Branch): Run {
    RunWith(c, Rewrite(b.name), LabelsOf(c.oracle, b.name, b.commit), b.details)
  }

  /** A prepared run is this trigger's, and its source labels carry its branch and commit. */
  lemma RunForLabels(c: Context, b: Branch)
    ensures Owned(c.id, RunFor(c, b))
    ensures SubMap(BranchLabels(c.oracle, b), RunFor(c, b).labels)
    ensures SubMap(BranchLabels(c.oracle, b), SourceLabels(RunFor(c, b).labels))
    ensures SourceLabels(RunFor(c, b).labels) != map[]
  {
    assert SOURCE_LABEL_PREFIX <= NAME_LABEL && SOURCE_LABEL_PREFIX <= COMMIT_LABEL;
    assert NAME_LABEL in SourceLabels(RunFor(c, b).labels);
  }

  /** The value begins with the mark of a dynamic parameter. */
  predicate Dynamic(value: string) {
    value != "" && value[0] == '$'
  }

  /**
   * The parameters of a run built from `details`: those of the template, in order and by name; the value as written,
   * or, where it begins with '$', what it evaluates to on these details.
   */
  ghost predicate ParamsFrom(c: Context, details: string, params: seq<Param>) {
    && |params| == |c.template.params|
    && forall i :: 0 <= i < |params| ==>
         && params[i].name == c.template.params[i].name
         && params[i].value == if Dynamic(c.template.params[i].value)
                               then c.oracle.value(details, c.template.params[i].value) else c.template.params[i].value
  }

  lemma RunWithReads(c: Context, stem: string, labels: LabelMap, details: string)
    ensures var run := RunWith(c, stem, labels, details);
            && ParamsFrom(c, details, run.params)
            && (forall k :: Get(run.labels, k) == if k in labels then Some(labels[k]) else Get(c.template.labels, k))
            && run.owners == [OwnerRef("PipelineTrigger", c.id.name, c.id.uid, true)]
            && run.created == 0 && run.specStatus == "" && run.status == None
            && run.name == c.template.name
            && (c.template.name != "" || c.template.generateName != "" ==> run.generateName == c.template.generateName)
            && (c.template.name == "" == c.template.generateName ==>
                  run.generateName == NamePrefix(c.oracle.fold, stem))
  {
  }

  /** What a branch's run carries: the parameters on the branch's own details, and its own name and commit. */
  lemma RunForReads(c: Context, b: Branch)
    ensures var run := RunFor(c, b);
            && ParamsFrom(c, b.details, run.params)
            && (ValidLabelValue(b.commit) ==> Get(run.labels, COMMIT_LABEL) == Some(b.commit))
            && (ValidLabelValue(b.name) ==> Get(run.labels, NAME_LABEL) == Some(b.name))
            && (forall k :: k != NAME_LABEL && k != COMMIT_LABEL ==> Get(run.labels, k) == Get(c.template.labels, k))
            && (c.template.name == "" == c.template.generateName ==>
                  run.generateName == NamePrefix(c.oracle.fold, Rewrite(b.name)))
  {
    RunWithReads(c, Rewrite(b.name), LabelsOf(c.oracle, b.name, b.commit), b.details);
    if ValidLabelValue(b.name) {
      RewriteEqualIff(b.name, b.name);
      assert '/' !in b.name by {
        assert forall i :: 0 <= i < |b.name| ==> IsLabelChar(b.name[i]);
      }
    }
    LabelKeysDiffer();
  }

  lemma LabelKeysDiffer()
    ensures NAME_LABEL != COMMIT_LABEL
  {
    assert |NAME_LABEL| != |COMMIT_LABEL|;
  }

  /**
   * Whose run a prepared run is: another trigger's for every trigger of another name, and of this name under another
   * UID.
   */
  lemma PreparedRunStranger(id: TriggerId, c: Context, stem: string, labels: LabelMap, details: string)
    ensures Stranger(id, RunWith(c, stem, labels, details).owners) <==>
              c.id.name != id.name || (c.id.uid != "" && id.uid != "" && c.id.uid != id.uid)
  {
    RunWithReads(c, stem, labels, details);
    assert FirstController(RunWith(c, stem, labels, details).owners, 0);
  }

  // ---- phases of a reconcile, one slot at a time ----

  function Fresh(s: SourceBranch): Branch {
    Branch(s.name, s.commit, "", s.details, [])
  }

  function SyncSlot(tracked: Option<Branch>, incoming: Branch): Branch {
    if tracked.Some? && tracked.value.commit == incoming.commit then tracked.value else incoming
  }

  /** The slot gets a run in this reconcile. */
  predicate Wants(c: Context, b: Branch) {
    Eligible(b.conditions, c.generation) && ParamsOk(c, b.details)
  }

  datatype Prepared = Prepared(run: Option<Run>, slot: Branch)

  function PrepareSlot(c: Context, now: int, b: Branch): Prepared {
    if !Eligible(b.conditions, c.generation) then Prepared(None, b)
    else if ParamsOk(c, b.details) then
      Prepared(Some(RunFor(c, b)), b.(details := "", conditions := [Pending(c.generation, now)]))
    else
      Prepared(None, b.(details := "", conditions :=
        [Failure(c.generation, now, FirstComplaint(c.oracle, c.template.params, b.details))]))
  }

  /** An API error; only the object itself being refused (422, 400) fails the same way on every retry. */
  datatype ErrorReason = Invalid | BadRequest | AnyOther

  datatype ApiError = ApiError(reason: ErrorReason, message: string)

  predicate IsPermanent(e: ApiError) {
    e.reason == Invalid || e.reason == BadRequest
  }

  /** What became of one prepared run. */
  datatype Outcome = Adopted(prior: Run) | Started(run: Run) | Failed(err: ApiError) {
    predicate Transient() {
      Failed? && !IsPermanent(err)
    }

    predicate Rejected() {
      Failed? && IsPermanent(err)
    }
  }

  /** How one outcome settles one slot; None drops the slot. `before` is the slot in the snapshot. */
  function SettleSlot(c: Context, now: int, before: Option<Branch>, b: Branch, pr: Run, out: Outcome): Option<Branch> {
    var labels := BranchLabels(c.oracle, b);
    match out
    case Adopted(prior) =>
      Some(if HasIntersection(labels, prior.labels) then b.(latestPipelineRun := prior.name) else b)
    case Started(run) =>
      Some(if HasIntersection(labels, pr.labels) then b.(latestPipelineRun := run.name) else b)
    case Failed(err) =>
      if !HasIntersection(labels, pr.labels) then Some(b)
      else if IsPermanent(err) then
        Some(b.(latestPipelineRun := "", conditions := [CreateFailed(c.generation, now, err.message)]))
      else before
  }

  /** What preparing leaves on a slot: the one pending condition, or the one error that says which parameter failed. */
  lemma PreparedShows(c: Context, now: int, b: Branch)
    requires Eligible(b.conditions, c.generation)
    ensures var s := PrepareSlot(c, now, b).slot;
            && s == b.(details := "", conditions := s.conditions)
            && s.conditions == [if ParamsOk(c, b.details)
                                then Condition("Unknown", "Unknown", "Unknown", "Unknown", c.generation, now)
                                else Condition("Error", "False", "Failed",
                                               FirstComplaint(c.oracle, c.template.params, b.details),
                                               c.generation, now)]
            && (PrepareSlot(c, now, b).run == if ParamsOk(c, b.details) then Some(RunFor(c, b)) else None)
  {
  }

  lemma RefusalSettles(c: Context, now: int, before: Option<Branch>, slot: Branch, pr: Run, err: ApiError)
    requires SubMap(BranchLabels(c.oracle, slot), pr.labels)
    ensures SettleSlot(c, now, before, slot, pr, Failed(err))
         == if err.reason in {Invalid, BadRequest}
            then Some(slot.(latestPipelineRun := "", conditions := [CreateFailed(c.generation, now, err.message)]))
            else before
  {
    HasIntersectionIsSubMap(BranchLabels(c.oracle, slot), pr.labels);
  }

  /**
   * A slot whose own run failed, on the reasons of the error. 422 and 400 refuse the object: the slot keeps its commit,
   * names no run, and shows one CreateRejected error of this generation. Every other error puts back the snapshot.
   */
  lemma FailureShows(c: Context, now: int, before: Option<Branch>, b: Branch, err: ApiError)
    ensures var slot := PrepareSlot(c, now, b).slot;
            var s := SettleSlot(c, now, before, slot, RunFor(c, b), Failed(err));
            if err.reason in {Invalid, BadRequest}
            then s == Some(slot.(latestPipelineRun := "", conditions := [Condition(
                   "Error", "False", "CreateRejected", REJECTED_PREFIX + err.message, c.generation, now)]))
                 && s.value.commit == b.commit
            else s == before
  {
    RunForLabels(c, b);
    assert BranchLabels(c.oracle, PrepareSlot(c, now, b).slot) == BranchLabels(c.oracle, b);
    RefusalSettles(c, now, before, PrepareSlot(c, now, b).slot, RunFor(c, b), err);
  }

  lemma NamingShows(c: Context, now: int, before: Option<Branch>, slot: Branch, pr: Run, run: Run)
    ensures SubMap(BranchLabels(c.oracle, slot), pr.labels) ==>
              SettleSlot(c, now, before, slot, pr, Started(run)) == Some(slot.(latestPipelineRun := run.name))
    ensures SubMap(BranchLabels(c.oracle, slot), run.labels) ==>
              SettleSlot(c, now, before, slot, pr, Adopted(run)) == Some(slot.(latestPipelineRun := run.name))
  {
    HasIntersectionIsSubMap(BranchLabels(c.oracle, slot), pr.labels);
    HasIntersectionIsSubMap(BranchLabels(c.oracle, slot), run.labels);
  }

  /** A slot whose own run was created, or found with its source labels, names that run and is otherwise as prepared. */
  lemma SuccessShows(c: Context, now: int, before: Option<Branch>, b: Branch, run: Run)
    ensures var slot := PrepareSlot(c, now, b).slot;
            var named := Some(slot.(latestPipelineRun := run.name));
            && SettleSlot(c, now, before, slot, RunFor(c, b), Started(run)) == named
            && (SubMap(SourceLabels(RunFor(c, b).labels), run.labels) ==>
                  SettleSlot(c, now, before, slot, RunFor(c, b), Adopted(run)) == named)
  {
    RunForLabels(c, b);
    var slot, pr := PrepareSlot(c, now, b).slot, RunFor(c, b);
    assert BranchLabels(c.oracle, slot) == BranchLabels(c.oracle, b);
    NamingShows(c, now, before, slot, pr, run);
    assert SubMap(SourceLabels(pr.labels), run.labels) ==> SubMap(BranchLabels(c.oracle, slot), run.labels);
  }

  /** The condition copied from one condition of a run. */
  function Copied(generation: int, now: int, rc: RunCondition): Condition {
    if rc.status == STATUS_TRUE then
      Condition(SUCCESS, STATUS_TRUE, SUCCESS_REASON, "Reconciliation is successful.", generation, now)
    else if rc.status == STATUS_FALSE then
      Condition(SUCCESS, STATUS_FALSE, rc.reason, rc.message, generation, now)
    else
      Condition(IN_PROGRESS, STATUS_UNKNOWN, IN_PROGRESS, "Progressing", generation, now)
  }

  function CopyConditions(generation: int, now: int, into: seq<Condition>, from: seq<RunCondition>): seq<Condition>
    decreases |from|
  {
    if from == [] then into
    else CopyConditions(generation, now, Replaced(into, Copied(generation, now, from[0])), from[1..])
  }

  /** The slot's last condition already says what the run says. */
  predicate StateIdentical(run: Run, b: Branch) {
    exists i :: 0 <= i < |RunConditions(run)|
                && RunConditions(run)[i].status in {STATUS_TRUE, STATUS_FALSE}
                && RunConditions(run)[i].status == LastStatus(b.conditions)
  }

  function Named(list: seq<Run>, name: string): Option<Run> {
    if list == [] then None else if list[0].name == name then Some(list[0]) else Named(list[1..], name)
  }

  function StatusSlot(generation: int, now: int, list: seq<Run>, b: Branch): Branch {
    var run := Named(list, b.latestPipelineRun);
    if run.None? || StateIdentical(run.value, b) then b
    else b.(conditions := CopyConditions(generation, now, b.conditions, RunConditions(run.value)))
  }

  lemma {:induction false} NamedSound(list: seq<Run>, name: string)
    ensures Named(list, name).Some? ==> Named(list, name).value in list && Named(list, name).value.name == name
    ensures Named(list, name).None? ==> forall x :: x in list ==> x.name != name
  {
    if list != [] && list[0].name != name {
      NamedSound(list[1..], name);
    }
  }

  /** Copying a run's result adds Success and InProgress conditions only: eligibility and Error are untouched. */
  lemma {:induction false} CopyKeeps(generation: int, now: int, into: seq<Condition>, from: seq<RunCondition>, at: int)
    ensures var r := CopyConditions(generation, now, into, from);
            && (Retryable(r, at) <==> Retryable(into, at))
            && (HasType(r, ERROR) <==> HasType(into, ERROR))
            && (DistinctTypes(into) ==> DistinctTypes(r))
            && (into != [] ==> r != [])
    decreases |from|
  {
    if from != [] {
      var c := Copied(generation, now, from[0]);
      OtherTypesKeepRejections(into, c, at);
      ReplacedContents(into, c);
      CopyKeeps(generation, now, Replaced(into, c), from[1..], at);
    }
  }

  // ---- what a run's conditions show as ----

  predicate IsFinal(status: string) {
    status == STATUS_TRUE || status == STATUS_FALSE
  }

  /** The last final condition, and the last that is not. */
  function LastOf(from: seq<RunCondition>, final: bool): Option<RunCondition> {
    if from == [] then None
    else if LastOf(from[1..], final).Some? then LastOf(from[1..], final)
    else if IsFinal(from[0].status) == final then Some(from[0])
    else None
  }

  /** The condition of type Success that stands for a final condition of a run. */
  function Verdict(generation: int, now: int, rc: RunCondition): Condition {
    if rc.status == "True"
    then Condition("Success", "True", "Succeded", "Reconciliation is successful.", generation, now)
    else Condition("Success", "False", rc.reason, rc.message, generation, now)
  }

  /**
   * `shown` is `into` with Success replaced by the last final condition of the run, InProgress by the last other one.
   */
  ghost predicate ShowsRun(generation: int, now: int, into: seq<Condition>, from: seq<RunCondition>,
                           shown: seq<Condition>)
  {
    forall x :: x in shown <==>
      if x.ctype == "Success" then
        if LastOf(from, true).Some? then x == Verdict(generation, now, LastOf(from, true).value) else x in into
      else if x.ctype == "InProgress" then
        if LastOf(from, false).Some?
        then x == Condition("InProgress", "Unknown", "InProgress", "Progressing", generation, now)
        else x in into
      else x in into
  }

  lemma CopiedIsVerdict(generation: int, now: int, rc: RunCondition)
    ensures Copied(generation, now, rc)
         == if IsFinal(rc.status) then Verdict(generation, now, rc)
            else Condition("InProgress", "Unknown", "InProgress", "Progressing", generation, now)
    ensures Copied(generation, now, rc).ctype == if IsFinal(rc.status) then "Success" else "InProgress"
    ensures "Success" != "InProgress"
  {
    assert |"Success"| != |"InProgress"|;
  }

  lemma {:induction false} CopiedShows(generation: int, now: int, into: seq<Condition>, from: seq<RunCondition>)
    ensures ShowsRun(generation, now, into, from, CopyConditions(generation, now, into, from))
    decreases |from|
  {
    if from != [] {
      var c := Copied(generation, now, from[0]);
      var next := Replaced(into, c);
      CopiedIsVerdict(generation, now, from[0]);
      ReplacedContents(into, c);
      CopiedShows(generation, now, next, from[1..]);
    }
  }

  lemma {:induction false} LastOfSound(from: seq<RunCondition>, final: bool)
    ensures LastOf(from, final).Some? <==> exists rc :: rc in from && IsFinal(rc.status) == final
    ensures LastOf(from, final).Some? ==>
              LastOf(from, final).value in from && IsFinal(LastOf(from, final).value.status) == final
  {
    if from != [] {
      LastOfSound(from[1..], final);
      assert from == [from[0]] + from[1..];
    }
  }

  /**
   * What a slot shows after copying. Success stands at True only if it did before or a condition of the run is True. A
   * run without a final condition leaves the verdict as it was and shows as in progress. A run that failed shows its
   * own reason and message, and no other verdict.
   */
  lemma StatusShows(generation: int, now: int, into: seq<Condition>, from: seq<RunCondition>)
    ensures var r := CopyConditions(generation, now, into, from);
            && (forall x :: x in r && x.ctype == "Success" && x.status == "True" ==>
                  x in into || exists rc :: rc in from && rc.status == "True")
            && ((forall rc :: rc in from ==> !IsFinal(rc.status)) ==>
                  && (forall x: Condition :: x.ctype == "Success" ==> (x in r <==> x in into))
                  && (from != [] ==>
                        Condition("InProgress", "Unknown", "InProgress", "Progressing", generation, now) in r))
            && (LastOf(from, true).Some? && LastOf(from, true).value.status == "False" ==>
                  var rc := LastOf(from, true).value;
                  forall x: Condition :: x.ctype == "Success" ==>
                    (x in r <==> x == Condition("Success", "False", rc.reason, rc.message, generation, now)))
  {
    CopiedShows(generation, now, into, from);
    LastOfSound(from, true);
    LastOfSound(from, false);
    CopiedIsVerdict(generation, now, RunCondition("", "", "", ""));
    assert "True" != "False";
    if from != [] {
      assert from[0] in from;
    }
  }

  /** Final conditions all become the slot's one Success condition, so only the last of them shows. */
  lemma {:induction false} OnlyLastFinalShows(generation: int, now: int, into: seq<Condition>, from: seq<RunCondition>)
    requires from != [] && forall i :: 0 <= i < |from| ==> IsFinal(from[i].status)
    ensures CopyConditions(generation, now, into, from) == Replaced(into, Copied(generation, now, from[|from| - 1]))
    decreases |from|
  {
    var c := Copied(generation, now, from[0]);
    var once := Replaced(into, c);
    if |from| == 1 {
      assert CopyConditions(generation, now, once, from[1..]) == once;
    } else {
      OnlyLastFinalShows(generation, now, once, from[1..]);
      CopiedIsVerdict(generation, now, from[0]);
      CopiedIsVerdict(generation, now, from[|from| - 1]);
      ReplacedTwice(into, c, Copied(generation, now, from[|from| - 1]));
    }
  }

  /** The status is final, and one of the run's conditions has it. */
  ghost predicate FinalLike(from: seq<RunCondition>, status: string) {
    IsFinal(status) && exists rc :: rc in from && rc.status == status
  }

  /**
   * When a slot takes over its run's conditions: always, unless the status of its last condition is final already and
   * some condition of the run has it too. Nothing but conditions changes.
   */
  lemma StatusSlotShows(generation: int, now: int, list: seq<Run>, b: Branch)
    ensures var s, run := StatusSlot(generation, now, list, b), Named(list, b.latestPipelineRun);
            if run.None? ||
               (b.conditions != [] && FinalLike(RunConditions(run.value), LastCondition(b.conditions).status))
            then s == b
            else && s == b.(conditions := s.conditions)
                 && ShowsRun(generation, now, b.conditions, RunConditions(run.value), s.conditions)
  {
    var run := Named(list, b.latestPipelineRun);
    if run.Some? {
      var from := RunConditions(run.value);
      CopiedShows(generation, now, b.conditions, from);
      assert "" != "True" && "" != "False";
      if rc :| rc in from && IsFinal(LastStatus(b.conditions)) && rc.status == LastStatus(b.conditions) {
        var i :| 0 <= i < |from| && from[i] == rc;
        assert StateIdentical(run.value, b);
      } else {
        assert forall i :: 0 <= i < |from| ==> from[i] in from;
      }
    }
  }

  /** The clock has not run behind the slot's conditions; a Success condition that is replaced must also win no tie. */
  ghost predicate ClockAhead(conditions: seq<Condition>, now: int) {
    && (forall x :: x in conditions ==> x.lastTransition <= now)
    && (HasType(conditions, SUCCESS) ==> forall x :: x in conditions && x.ctype != SUCCESS ==> x.lastTransition < now)
  }

  /** Copying a finished run's result makes it the slot's last condition, so copying it again changes nothing. */
  lemma FinalResultCopiedOnce(generation: int, now: int, later: int, list: seq<Run>, b: Branch, status: string)
    requires Named(list, b.latestPipelineRun).Some? && IsFinal(status)
    requires var from := RunConditions(Named(list, b.latestPipelineRun).value);
             from != [] && forall i :: 0 <= i < |from| ==> from[i].status == status
    requires ClockAhead(b.conditions, now)
    ensures var once := StatusSlot(generation, now, list, b);
            && LastStatus(once.conditions) == status
            && StatusSlot(generation, later, list, once) == once
  {
    var run := Named(list, b.latestPipelineRun).value;
    var from := RunConditions(run);
    var once := StatusSlot(generation, now, list, b);
    assert from[0].status == status;
    if !StateIdentical(run, b) {
      OnlyLastFinalShows(generation, now, b.conditions, from);
      ReplacedIsLast(b.conditions, Copied(generation, now, from[|from| - 1]));
    }
    assert StateIdentical(run, once);
  }
}
