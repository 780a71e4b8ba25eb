/**
 * The single-slot sources, GitRepository and its twin ImagePolicy: one slot object whose condition list is updated in
 * place. The snapshot taken before a reconcile must survive those updates, since a transient failure restores it.
 */
module SingleSlot {
  import opened Util
  import opened Labels
  import opened Conditions
  import opened Runs
  import opened Branches
  import opened StartRuns
  import opened Safety

  const GIT_NAME := SOURCE_LABEL_PREFIX + "git.repository.branch.name"
  const GIT_COMMIT := SOURCE_LABEL_PREFIX + "git.repository.branch.commit"
  const IMAGE_NAME := SOURCE_LABEL_PREFIX + "ip.image.name"
  const IMAGE_VERSION := SOURCE_LABEL_PREFIX + "ip.image.version"

  /** The fields Equals compares. */
  datatype Revision =
    | Git(repositoryName: string, branchName: string, commitId: string)
    | Image(repositoryName: string, imageName: string, imageVersion: string)

  /** The value of a slot object. */
  datatype SlotView = SlotView(revision: Revision, latestPipelineRun: string, details: string,
                               conditions: seq<Condition>)

  function SlotLabels(o: Oracle, r: Revision): LabelMap {
    match r
    case Git(_, branch, commit) =>
      map[GIT_NAME := Sanitized(o.hash, branch), GIT_COMMIT := Sanitized(o.hash, commit)]
    case Image(_, name, version) =>
      map[IMAGE_NAME := Sanitized(o.hash, name), IMAGE_VERSION := Sanitized(o.hash, version)]
  }

  function Stem(r: Revision): string {
    match r
    case Git(_, branch, _) => Rewrite(branch)
    case Image(_, name, _) => seq(|name|, i requires 0 <= i < |name| => if name[i] == ':' then '-' else name[i])
  }

  // ---- phases, on values ----

  const NOT_READY := "git repository source not ready: no artifact/revision resolved yet"

  /** The JSON document of a revision, which GenerateDetails stores. */
  type Marshal = Revision -> string

  function SyncView(marshal: Marshal, v: SlotView, incoming: Revision): SlotView {
    if v.revision == incoming then v else SlotView(incoming, "", marshal(incoming), [])
  }

  predicate SlotParamsOk(c: Context, v: SlotView) {
    (v.revision.Git? ==> v.details != "") && ParamsOk(c, v.details)
  }

  predicate SlotWants(c: Context, v: SlotView) {
    Eligible(v.conditions, c.generation) && SlotParamsOk(c, v)
  }

  function SlotRun(c: Context, v: SlotView): Run {
    RunWith(c, Stem(v.revision), SlotLabels(c.oracle, v.revision), v.details)
  }

  function SlotComplaint(c: Context, v: SlotView): string {
    if v.revision.Git? && v.details == "" then NOT_READY else FirstComplaint(c.oracle, c.template.params, v.details)
  }

  function PrepareView(c: Context, now: int, v: SlotView): SlotView {
    if !Eligible(v.conditions, c.generation) then v
    else if SlotParamsOk(c, v) then v.(conditions := [Pending(c.generation, now)])
    else v.(conditions := [Failure(c.generation, now, SlotComplaint(c, v))])
  }

  function SettleView(c: Context, now: int, before: SlotView, v: SlotView, out: Outcome): SlotView {
    match out
    case Adopted(prior) => v.(latestPipelineRun := prior.name)
    case Started(run) => v.(latestPipelineRun := run.name)
    case Failed(err) =>
      if IsPermanent(err) then
        v.(latestPipelineRun := "", conditions := [Conditions.CreateFailed(c.generation, now, err.message)])
      else before.(conditions := Replaced(before.conditions, Failure(c.generation, now, err.message)))
  }

  /** These sources drop the message of a run's condition. */
  function WithoutMessages(from: seq<RunCondition>): seq<RunCondition> {
    seq(|from|, i requires 0 <= i < |from| => from[i].(message := ""))
  }

  function CopiedStatus(generation: int, now: int, into: seq<Condition>, run: Run): seq<Condition> {
    CopyConditions(generation, now, if Unstated(run) then Replaced(into, Unparsed(now, NO_CONDITIONS)) else into,
                   WithoutMessages(RunConditions(run)))
  }

  function StatusView(generation: int, now: int, list: seq<Run>, v: SlotView): SlotView {
    var run := Named(list, v.latestPipelineRun);
    if run.None? then v else v.(conditions := CopiedStatus(generation, now, v.conditions, run.value))
  }

  /**
   * The create block of one reconcile, which the first status patch writes; `running` says that a run for the source's
   * revision is already listed, or runs elsewhere.
   */
  function SettledView(c: Context, marshal: Marshal, now: int, running: bool, before: SlotView, incoming: Revision,
                       cached: seq<Run>, runs: seq<Run>, reply: Reply): SlotView
  {
    if running then before
    else
      var synced := SyncView(marshal, before, incoming);
      var slot := PrepareView(c, now, synced);
      if SlotWants(c, synced)
      then SettleView(c, now, before, slot, OutcomeOf(c, SlotRun(c, synced), cached, runs, reply))
      else slot
  }

  /** The whole reconcile, results copied: what the second status patch writes. */
  function CycleView(c: Context, marshal: Marshal, now: int, running: bool, before: SlotView, incoming: Revision,
                     cached: seq<Run>, runs: seq<Run>, reply: Reply): SlotView
  {
    StatusView(c.generation, now, cached, SettledView(c, marshal, now, running, before, incoming, cached, runs, reply))
  }

  /** The runs (none or one) the reconcile adds to the server. */
  function CycleLanded(c: Context, marshal: Marshal, running: bool, before: SlotView, incoming: Revision,
                       cached: seq<Run>, runs: seq<Run>, reply: Reply): seq<Run>
  {
    var synced := SyncView(marshal, before, incoming);
    if running || !SlotWants(c, synced) then [] else Landed(c, SlotRun(c, synced), cached, runs, reply)
  }

  /** The slot gets a run and that attempt fails transiently. */
  predicate CycleFailsTransiently(c: Context, marshal: Marshal, before: SlotView, incoming: Revision, cached: seq<Run>,
                                  runs: seq<Run>, reply: Reply)
  {
    var synced := SyncView(marshal, before, incoming);
    SlotWants(c, synced) && OutcomeOf(c, SlotRun(c, synced), cached, runs, reply).Transient()
  }

  /** A managed error, on values. */
  function ManagedView(c: Context, now: int, message: string, v: SlotView): SlotView {
    v.(conditions := Replaced(v.conditions, Failure(c.generation, now, message)))
  }

  // ---- the objects ----

  class Slot {
    var revision: Revision
    var latestPipelineRun: string
    var details: string
    var conditions: array<Condition>

    constructor (revision: Revision, details: string)
      ensures View() == SlotView(revision, "", details, []) && fresh(conditions)
    {
      this.revision, this.latestPipelineRun, this.details := revision, "", details;
      this.conditions := new Condition[0];
    }

    function View(): SlotView
      reads this, conditions
    {
      SlotView(revision, latestPipelineRun, details, conditions[..])
    }

    /** Overwrites entries of the shared array; a new type grows into a new array. */
    method AddOrReplaceCondition(c: Condition)
      modifies this`conditions, conditions
      ensures View() == old(View()).(conditions := Replaced(old(conditions[..]), c))
      ensures conditions == old(conditions) || fresh(conditions)
    {
      var found := false;
      ghost var was := conditions[..];
      for i := 0 to conditions.Length
        invariant conditions == old(conditions) && conditions.Length == |was|
        invariant found <==> exists j :: 0 <= j < i && was[j].ctype == c.ctype
        invariant forall j :: 0 <= j < |was| ==> conditions[j] == if j < i && was[j].ctype == c.ctype then c else was[j]
      {
        if c.ctype == conditions[i].ctype {
          conditions[i] := c;
          found := true;
        }
      }
      if found {
        assert conditions[..] == Replaced(was, c);
      } else {
        assert conditions[..] == was;
        SetConditions(was + [c], conditions[..] + [c]);
      }
    }

    /** Assigns a new list; `items` is what the caller computed, `spec` what it should be. */
    method SetConditions(ghost spec: seq<Condition>, items: seq<Condition>)
      requires items == spec
      modifies this`conditions
      ensures conditions[..] == spec && fresh(conditions)
    {
      conditions := new Condition[|items|](i requires 0 <= i < |items| => items[i]);
    }

    method DeepCopy() returns (copy: Slot)
      ensures fresh(copy) && fresh(copy.conditions) && copy.View() == View()
    {
      copy := new Slot(revision, details);
      copy.latestPipelineRun := latestPipelineRun;
      copy.SetConditions(conditions[..], conditions[..]);
    }
  }

  class Trigger {
    const id: TriggerId
    const oracle: Oracle
    const marshal: Marshal
    var generation: int
    var template: Template
    var slot: Slot

    constructor (id: TriggerId, oracle: Oracle, marshal: Marshal, generation: int, template: Template, slot: Slot)
      ensures this.marshal == marshal && Reading() == Context(id, generation, template, oracle) && this.slot == slot
    {
      this.id, this.oracle, this.marshal := id, oracle, marshal;
      this.generation, this.template, this.slot := generation, template, slot;
    }

    function Reading(): Context
      reads this
    {
      Context(id, generation, template, oracle)
    }

    /** The slot shares nothing with the snapshot. */
    ghost predicate Apart(before: Slot)
      reads this, slot, before
    {
      slot != before && slot.conditions != before.conditions
    }

    method GetLatestEvent(incoming: Revision) returns (gotNewEvent: bool)
      modifies this`slot
      ensures slot == old(slot) || (fresh(slot) && fresh(slot.conditions))
      ensures slot.View() == SyncView(marshal, old(slot.View()), incoming)
      ensures gotNewEvent <==> old(slot.revision) != incoming
    {
      gotNewEvent := slot.revision != incoming;
      if gotNewEvent {
        slot := new Slot(incoming, marshal(incoming));
      }
    }

    method CreatePipelineRunResource(now: int) returns (pr: Option<Run>)
      modifies slot, slot.conditions
      ensures slot.View() == PrepareView(Reading(), now, old(slot.View()))
      ensures slot.conditions == old(slot.conditions) || fresh(slot.conditions)
      ensures pr == if SlotWants(Reading(), old(slot.View())) then Some(SlotRun(Reading(), old(slot.View()))) else None
    {
      pr := None;
      ghost var v := slot.View();
      var retry, eligible := SlotEligibleForCreate(slot.conditions[..], generation);
      if eligible {
        if retry {
          slot.SetConditions([], []);
        }
        assert slot.conditions[..] == [];
        var ok, message := EvaluatePipelineParams(Reading(), slot.details);
        if slot.revision.Git? && slot.details == "" {
          ok, message := false, NOT_READY;
        }
        if ok {
          pr := Some(SlotRun(Reading(), slot.View()));
          slot.AddOrReplaceCondition(Pending(generation, now));
        } else {
          slot.AddOrReplaceCondition(Failure(generation, now, message));
        }
      }
    }

    method SetCurrentPipelineRunName(name: string)
      modifies slot`latestPipelineRun
      ensures slot.View() == old(slot.View()).(latestPipelineRun := name)
    {
      slot.latestPipelineRun := name;
    }

    /** The slot is replaced by a copy of the snapshot before the Error is added: the snapshot itself is not touched. */
    method SettleFailedRun(now: int, before: Slot, err: ApiError, permanent: bool)
      requires permanent == IsPermanent(err) && Apart(before)
      modifies this`slot, slot
      ensures slot.View() == SettleView(Reading(), now, before.View(), old(slot.View()), Failed(err))
      ensures before.View() == old(before.View()) && Apart(before)
      ensures slot == old(slot) || fresh(slot)
      ensures fresh(slot.conditions)
    {
      if permanent {
        slot.latestPipelineRun := "";
        var rejected := Conditions.CreateFailed(generation, now, err.message);
        slot.SetConditions([rejected], [rejected]);
        return;
      }
      var copy := before.DeepCopy();
      slot := copy;
      slot.AddOrReplaceCondition(Failure(generation, now, err.message));
    }

    /** Adopt or create one prepared run, and settle the slot. */
    method StartPipelineRun(server: Server, pr: Run, existing: seq<Run>, before: Slot, reply: Reply, now: int)
      returns (transient: bool)
      requires Apart(before)
      modifies this`slot, slot, server
      ensures Reading() == old(Reading())
      ensures var out := OutcomeOf(Reading(), pr, existing, old(server.runs), reply);
              && slot.View() == SettleView(Reading(), now, before.View(), old(slot.View()), out)
              && transient == out.Transient()
      ensures server.runs == old(server.runs) + Landed(Reading(), pr, existing, old(server.runs), reply)
      ensures before.View() == old(before.View())
      ensures slot == old(slot) || fresh(slot)
      ensures slot.conditions == old(slot.conditions) || fresh(slot.conditions)
    {
      var prior := FindExistingRun(id, pr, existing);
      if prior.None? {
        var errLive;
        prior, errLive := FindLiveRun(server, id, pr, reply.live);
        if errLive.Some? {
          var permanent := IsPermanent(errLive.value);
          SettleFailedRun(now, before, errLive.value, permanent);
          return !permanent;
        }
      }
      if prior.Some? {
        SetCurrentPipelineRunName(prior.value.name);
        return false;
      }
      var instanceName, errRun := server.Create(pr, reply.create);
      if errRun.Some? {
        var permanent := IsPermanent(errRun.value);
        SettleFailedRun(now, before, errRun.value, permanent);
        return !permanent;
      }
      SetCurrentPipelineRunName(instanceName);
      return false;
    }

    method SetCurrentPipelineRunStatus(now: int, list: seq<Run>)
      requires forall i, j :: 0 <= i < j < |list| ==> list[i].name != list[j].name
      modifies slot, slot.conditions
      ensures slot.View() == StatusView(generation, now, list, old(slot.View()))
    {
      ghost var v := slot.View();
      NamedSound(list, v.latestPipelineRun);
      for i := 0 to |list|
        invariant slot.conditions == old(slot.conditions) || fresh(slot.conditions)
        invariant slot.View() == if exists j :: 0 <= j < i && list[j].name == v.latestPipelineRun
                                 then StatusView(generation, now, list, v) else v
      {
        if list[i].name == slot.latestPipelineRun {
          assert Named(list, v.latestPipelineRun) == Some(list[i]);
          CopyRunStatus(now, list[i]);
        }
      }
    }

    /** The loop body: copy the conditions of one run. */
    method CopyRunStatus(now: int, run: Run)
      modifies slot, slot.conditions
      ensures slot.View()
           == old(slot.View()).(conditions := CopiedStatus(generation, now, old(slot.conditions[..]), run))
      ensures slot.conditions == old(slot.conditions) || fresh(slot.conditions)
    {
      ghost var was := slot.conditions[..];
      if run.status.None? {
        slot.AddOrReplaceCondition(Unparsed(now, NO_STATUS));
      }
      if run.status.None? || run.status.value.conditions.None? {
        slot.AddOrReplaceCondition(Unparsed(now, NO_CONDITIONS));
      }
      ReplacedTwice(was, Unparsed(now, NO_STATUS), Unparsed(now, NO_CONDITIONS));
      ghost var base := slot.View();
      var from := RunConditions(run);
      for i := 0 to |from|
        invariant slot.conditions == old(slot.conditions) || fresh(slot.conditions)
        invariant slot.View() == base.(conditions := slot.conditions[..])
        invariant CopyConditions(generation, now, slot.conditions[..], WithoutMessages(from)[i..])
               == CopyConditions(generation, now, base.conditions, WithoutMessages(from))
      {
        slot.AddOrReplaceCondition(Copied(generation, now, from[i].(message := "")));
      }
    }

    method ManageError(now: int, message: string)
      modifies slot, slot.conditions
      ensures slot.View() == ManagedView(Reading(), now, message, old(slot.View()))
    {
      slot.AddOrReplaceCondition(Failure(generation, now, message));
    }
  }

  /** The create block and the status copy of a single-slot reconcile. */
  method ReconcileSlot(pt: Trigger, server: Server, running: bool, incoming: Revision, cached: seq<Run>, reply: Reply,
                       now: int) returns (requeue: bool)
    requires forall i, j :: 0 <= i < j < |cached| ==> cached[i].name != cached[j].name
    modifies pt`slot, pt.slot, pt.slot.conditions, server
    ensures var c, before, runs := old(pt.Reading()), old(pt.slot.View()), old(server.runs);
            && pt.slot.View() == CycleView(c, pt.marshal, now, running, before, incoming, cached, runs, reply)
            && (requeue <==> !running && CycleFailsTransiently(c, pt.marshal, before, incoming, cached, runs, reply))
            && server.runs == runs + CycleLanded(c, pt.marshal, running, before, incoming, cached, runs, reply)
  {
    requeue := false;
    if !running {
      ghost var v := pt.slot.View();
      var statusBefore := pt.slot.DeepCopy();
      var _ := pt.GetLatestEvent(incoming);
      var pr := pt.CreatePipelineRunResource(now);
      assert statusBefore.View() == v;
      if pr.Some? {
        requeue := pt.StartPipelineRun(server, pr.value, cached, statusBefore, reply, now);
        assert statusBefore.View() == v;
      }
    }
    pt.SetCurrentPipelineRunStatus(now, cached);
  }

  // ---- what a slot goes through ----

  /** Copying a run's result touches neither revision nor details, and hides no Error. */
  lemma StatusKeepsView(generation: int, now: int, list: seq<Run>, v: SlotView, at: int)
    ensures var s := StatusView(generation, now, list, v);
            && s.revision == v.revision && s.details == v.details && s.latestPipelineRun == v.latestPipelineRun
            && (v.conditions != [] ==> s.conditions != [])
            && (Retryable(s.conditions, at) <==> Retryable(v.conditions, at))
            && (HasType(s.conditions, ERROR) <==> HasType(v.conditions, ERROR))
            && (DistinctTypes(v.conditions) ==> DistinctTypes(s.conditions))
  {
    var run := Named(list, v.latestPipelineRun);
    if run.Some? {
      var unparsed := Unparsed(now, NO_CONDITIONS);
      OtherTypesKeepRejections(v.conditions, unparsed, at);
      ReplacedContents(v.conditions, unparsed);
      CopyKeeps(generation, now, if Unstated(run.value) then Replaced(v.conditions, unparsed) else v.conditions,
                WithoutMessages(RunConditions(run.value)), at);
    }
  }

  /**
   * A transient failure is retried exactly when the snapshot stood at another revision. Then the next cycle builds the
   * same run. Otherwise the failed attempt was itself a retry at the tracked revision (after a spec edit), and the
   * Error put on the restored slot hides the rejection: no generation and no template brings another attempt.
   */
  lemma TransientRetriedIff(c: Context, d: Context, marshal: Marshal, now: int, before: SlotView, incoming: Revision,
                            cached: seq<Run>, runs: seq<Run>, reply: Reply)
    requires CycleFailsTransiently(c, marshal, before, incoming, cached, runs, reply)
    ensures var after := CycleView(c, marshal, now, false, before, incoming, cached, runs, reply);
            var again := SyncView(marshal, after, incoming);
            && (SlotWants(c, again) <==> before.revision != incoming)
            && (before.revision != incoming ==> SlotRun(c, again) == SlotRun(c, SyncView(marshal, before, incoming)))
            && (before.revision == incoming ==> !SlotWants(d, again))
  {
    var synced := SyncView(marshal, before, incoming);
    var out := OutcomeOf(c, SlotRun(c, synced), cached, runs, reply);
    var settled := SettleView(c, now, before, PrepareView(c, now, synced), out);
    FailureBlocksForever(before.conditions, c.generation, c.generation, now, out.err.message);
    FailureBlocksForever(before.conditions, d.generation, c.generation, now, out.err.message);
    StatusKeepsView(c.generation, now, cached, settled, c.generation);
    StatusKeepsView(c.generation, now, cached, settled, d.generation);
  }

  // ---- what the phases leave, on raw values ----

  /** The two fields of a revision that its labels are made from. */
  function LabelFields(r: Revision): (string, string) {
    match r
    case Git(_, branch, commit) => (branch, commit)
    case Image(_, name, version) => (name, version)
  }

  /** Two revisions of one kind have the same labels exactly if both fields collide as label values. */
  lemma SlotLabelsIff(o: Oracle, r: Revision, s: Revision)
    requires r.Git? == s.Git?
    ensures SlotLabels(o, r) == SlotLabels(o, s) <==>
              && Collide(o.hash, LabelFields(r).0, LabelFields(s).0)
              && Collide(o.hash, LabelFields(r).1, LabelFields(s).1)
  {
    SanitizedCollision(o.hash, LabelFields(r).0, LabelFields(s).0);
    SanitizedCollision(o.hash, LabelFields(r).1, LabelFields(s).1);
    SlotKeysDiffer();
    var a, b := SlotLabels(o, r), SlotLabels(o, s);
    var first, second := if r.Git? then GIT_NAME else IMAGE_NAME, if r.Git? then GIT_COMMIT else IMAGE_VERSION;
    assert a == map[first := Sanitized(o.hash, LabelFields(r).0), second := Sanitized(o.hash, LabelFields(r).1)];
    assert b == map[first := Sanitized(o.hash, LabelFields(s).0), second := Sanitized(o.hash, LabelFields(s).1)];
    assert a == b ==> a[first] == b[first] && a[second] == b[second];
  }

  lemma SlotKeysDiffer()
    ensures GIT_NAME != GIT_COMMIT && IMAGE_NAME != IMAGE_VERSION
  {
    assert |GIT_NAME| != |GIT_COMMIT| && |IMAGE_NAME| != |IMAGE_VERSION|;
  }

  /** A run carries the branch and commit, or the image name and version, as they stand where they are label values. */
  ghost predicate CarriesRevision(r: Revision, labels: LabelMap) {
    match r
    case Git(_, branch, commit) =>
      && (ValidLabelValue(branch) ==> Get(labels, GIT_NAME) == Some(branch))
      && (ValidLabelValue(commit) ==> Get(labels, GIT_COMMIT) == Some(commit))
    case Image(_, name, version) =>
      && (ValidLabelValue(name) ==> Get(labels, IMAGE_NAME) == Some(name))
      && (ValidLabelValue(version) ==> Get(labels, IMAGE_VERSION) == Some(version))
  }

  /** The name with one separator replaced by '-'. */
  ghost predicate StemOf(name: string, separator: char, stem: string) {
    |stem| == |name| && forall i :: 0 <= i < |name| ==> stem[i] == if name[i] == separator then '-' else name[i]
  }

  /**
   * What a slot's run carries: the parameters on the slot's own details, its revision, and the template's other labels.
   */
  lemma SlotRunReads(c: Context, v: SlotView)
    ensures ParamsFrom(c, v.details, SlotRun(c, v).params)
    ensures CarriesRevision(v.revision, SlotRun(c, v).labels)
    ensures forall k :: k !in {GIT_NAME, GIT_COMMIT, IMAGE_NAME, IMAGE_VERSION} ==>
              Get(SlotRun(c, v).labels, k) == Get(c.template.labels, k)
    ensures c.template.name == "" == c.template.generateName ==> exists stem ::
              StemOf(LabelFields(v.revision).0, if v.revision.Git? then '/' else ':', stem)
              && SlotRun(c, v).generateName == NamePrefix(c.oracle.fold, stem)
  {
    assert StemOf(LabelFields(v.revision).0, if v.revision.Git? then '/' else ':', Stem(v.revision));
    RunWithReads(c, Stem(v.revision), SlotLabels(c.oracle, v.revision), v.details);
    SlotKeysDiffer();
    var labels := SlotLabels(c.oracle, v.revision);
    assert Get(SlotRun(c, v).labels, GIT_NAME) == if GIT_NAME in labels then Some(labels[GIT_NAME])
                                                  else Get(c.template.labels, GIT_NAME);
  }

  /**
   * Whatever is adopted for a revision carries that revision: a run created for another commit or version never is, as
   * long as both are label values.
   */
  lemma OnlyOwnRevisionAdopted(c: Context, v: SlotView, cached: seq<Run>, runs: seq<Run>, reply: Reply)
    requires OutcomeOf(c, SlotRun(c, v), cached, runs, reply).Adopted?
    ensures CarriesRevision(v.revision, OutcomeOf(c, SlotRun(c, v), cached, runs, reply).prior.labels)
    ensures forall d: Context, w: SlotView, birth ::
              OutcomeOf(c, SlotRun(c, v), cached, runs, reply).prior == Born(SlotRun(d, w), birth)
              && w.revision.Git? == v.revision.Git?
              && ValidLabelValue(LabelFields(v.revision).1) && ValidLabelValue(LabelFields(w.revision).1) ==>
                LabelFields(w.revision).1 == LabelFields(v.revision).1
  {
    var pr, prior := SlotRun(c, v), OutcomeOf(c, SlotRun(c, v), cached, runs, reply).prior;
    AdoptedShows(c, pr, cached, runs, reply);
    SlotRunReads(c, v);
    forall k | k in {GIT_NAME, GIT_COMMIT, IMAGE_NAME, IMAGE_VERSION} && k in pr.labels
      ensures Get(prior.labels, k) == Some(pr.labels[k])
    {
      assert SOURCE_LABEL_PREFIX <= k;
      assert k in SourceLabels(pr.labels);
    }
    forall d: Context, w: SlotView, birth | prior == Born(SlotRun(d, w), birth) && w.revision.Git? == v.revision.Git?
      ensures CarriesRevision(w.revision, prior.labels)
    {
      SlotRunReads(d, w);
    }
  }

  /** What preparing leaves on an eligible slot; unlike a branch, it keeps its details. */
  lemma PreparedViewShows(c: Context, now: int, v: SlotView)
    requires Eligible(v.conditions, c.generation)
    ensures var s := PrepareView(c, now, v);
            && s == v.(conditions := s.conditions)
            && s.conditions == [if SlotParamsOk(c, v)
                                then Condition("Unknown", "Unknown", "Unknown", "Unknown", c.generation, now)
                                else Condition("Error", "False", "Failed",
                                               if v.revision.Git? && v.details == "" then NOT_READY
                                               else FirstComplaint(c.oracle, c.template.params, v.details),
                                               c.generation, now)]
  {
  }

  /**
   * What becomes of the slot, by its run's outcome: the run's name; or a rejection, for the two reasons that refuse the
   * object; or else the snapshot with a generic error in place of any other.
   */
  lemma SettleViewShows(c: Context, now: int, before: SlotView, v: SlotView, out: Outcome)
    ensures var s := SettleView(c, now, before, v, out);
            match out
            case Adopted(prior) => s == v.(latestPipelineRun := prior.name)
            case Started(run) => s == v.(latestPipelineRun := run.name)
            case Failed(err) =>
              if err.reason in {Invalid, BadRequest}
              then s == SlotView(v.revision, "", v.details, [Condition(
                          "Error", "False", "CreateRejected", REJECTED_PREFIX + err.message, c.generation, now)])
              else && s == before.(conditions := s.conditions)
                   && forall x :: x in s.conditions <==>
                        || x == Condition("Error", "False", "Failed", err.message, c.generation, now)
                        || (x in before.conditions && x.ctype != "Error")
  {
    if out.Failed? {
      ReplacedContents(before.conditions, Failure(c.generation, now, out.err.message));
    }
  }

  /** What a managed error leaves: one generic error in place of any other; everything else as it was. */
  lemma ManagedViewShows(c: Context, now: int, message: string, v: SlotView)
    ensures var s := ManagedView(c, now, message, v);
            && s == v.(conditions := s.conditions)
            && forall x :: x in s.conditions <==>
                 || x == Condition("Error", "False", "Failed", message, c.generation, now)
                 || (x in v.conditions && x.ctype != "Error")
  {
    ReplacedContents(v.conditions, Failure(c.generation, now, message));
  }

  /** When a reconcile requeues, on the reasons themselves. */
  lemma SlotRequeuesOnReasons(c: Context, marshal: Marshal, before: SlotView, incoming: Revision, cached: seq<Run>,
                              runs: seq<Run>, reply: Reply)
    ensures var synced := SyncView(marshal, before, incoming);
            CycleFailsTransiently(c, marshal, before, incoming, cached, runs, reply) <==>
              SlotWants(c, synced)
              && var out := OutcomeOf(c, SlotRun(c, synced), cached, runs, reply);
                 out.Failed? && out.err.reason !in {Invalid, BadRequest}
  {
  }

  lemma {:induction false} LastWithoutMessages(from: seq<RunCondition>, final: bool)
    ensures LastOf(WithoutMessages(from), final)
         == if LastOf(from, final).None? then None else Some(LastOf(from, final).value.(message := ""))
  {
    if from != [] {
      LastWithoutMessages(from[1..], final);
      assert WithoutMessages(from)[1..] == WithoutMessages(from[1..]);
    }
  }

  /**
   * What a slot shows after copying: as for a branch, but a failed run's message is dropped; and a run without any
   * conditions is marked as unreadable.
   */
  lemma CopiedStatusShows(generation: int, now: int, into: seq<Condition>, run: Run)
    ensures var r := CopiedStatus(generation, now, into, run);
            if run.status.Some? && run.status.value.conditions.Some?
            then ShowsRun(generation, now, into, WithoutMessages(run.status.value.conditions.value), r)
            else forall x :: x in r <==>
                   || x == Condition("False", "False", "ParamsUnmarshalFailed", "Unmarshal of conditions failed.",
                                     0, now)
                   || (x in into && x.ctype != "False")
    ensures var from, r := RunConditions(run), CopiedStatus(generation, now, into, run);
            LastOf(from, true).Some? && LastOf(from, true).value.status == "False" ==>
              forall x: Condition :: x.ctype == "Success" ==>
                (x in r <==> x == Condition("Success", "False", LastOf(from, true).value.reason, "", generation, now))
  {
    ReplacedContents(into, Unparsed(now, NO_CONDITIONS));
    LastWithoutMessages(RunConditions(run), true);
    CopiedIsVerdict(generation, now, RunCondition("", "", "", ""));
    assert "True" != "False";
    CopiedShows(generation, now, into, WithoutMessages(RunConditions(run)));
    assert Unstated(run) ==> WithoutMessages(RunConditions(run)) == [];
  }

  // ---- a source that is not ready ----

  /** What a source without an artifact reads as. */
  function Unresolved(git: bool): Revision {
    if git then Git("", "", "") else Image("", "", "")
  }

  function Untouched(git: bool): SlotView {
    SlotView(Unresolved(git), "", "", [])
  }

  /** Details are the document of the slot's revision, or the slot has never left its initial revision. */
  predicate Described(marshal: Marshal, v: SlotView) {
    v.details == marshal(v.revision) || (v.details == "" && exists git :: v.revision == Unresolved(git))
  }

  /**
   * Exactly when the not-ready guard fires: for a slot that has never left its initial revision, with a source that has
   * none either. Documents are not empty, so no other slot has empty details.
   */
  lemma GuardOnlyBeforeFirstSync(marshal: Marshal, v: SlotView, incoming: Revision)
    requires Described(marshal, v) && incoming.Git? && forall r :: marshal(r) != ""
    ensures SyncView(marshal, v, incoming).details == "" <==> v.details == "" && v.revision == incoming
    ensures SyncView(marshal, v, incoming).details == "" ==> incoming == Unresolved(true)
  {
  }

  /**
   * Exactly when a GitRepository that is not ready gets a run all the same, with empty revision labels: the parameters
   * evaluate on the empty revision's document (they do if none contains '$'), and either the slot comes from a real
   * revision, or it is back at the empty one and eligible.
   */
  lemma NotReadyRunIff(c: Context, marshal: Marshal, v: SlotView)
    requires Described(marshal, v) && marshal(Unresolved(true)) != ""
    ensures var again := SyncView(marshal, v, Unresolved(true));
            && (SlotWants(c, again) <==>
                  && ParamsOk(c, marshal(Unresolved(true)))
                  && (v.revision != Unresolved(true) || (v.details != "" && Eligible(v.conditions, c.generation))))
            && Get(SlotRun(c, again).labels, GIT_NAME) == Some("") == Get(SlotRun(c, again).labels, GIT_COMMIT)
  {
    var labels := SlotLabels(c.oracle, Unresolved(true));
    assert labels == map[GIT_NAME := "", GIT_COMMIT := ""];
    assert GIT_NAME in labels && GIT_COMMIT in labels;
  }

  // ---- the invariant of a slot ----

  ghost predicate SlotViewInv(c: Context, ever: set<Run>, v: SlotView) {
    var labels := SlotLabels(c.oracle, v.revision);
    && (v.conditions == [] || HasType(v.conditions, ERROR) || exists e :: Builds(c.id, ever, labels, e))
    && (v.latestPipelineRun != "" ==> exists e :: Builds(c.id, ever, labels, e) && e.name == v.latestPipelineRun)
    && DistinctTypes(v.conditions)
  }

  /** Slot labels are source labels, so a run carries them exactly when its source labels do. */
  lemma SlotLabelsAreSource(o: Oracle, r: Revision, labels: LabelMap)
    requires SubMap(SlotLabels(o, r), labels)
    ensures SubMap(SlotLabels(o, r), SourceLabels(labels))
  {
    forall k | k in SlotLabels(o, r) ensures SOURCE_LABEL_PREFIX <= k {}
  }

  lemma SlotRunLabels(c: Context, v: SlotView)
    ensures Owned(c.id, SlotRun(c, v))
    ensures SubMap(SlotLabels(c.oracle, v.revision), SourceLabels(SlotRun(c, v).labels))
  {
    SlotLabelsAreSource(c.oracle, v.revision, SlotRun(c, v).labels);
  }

  lemma SettleViewKeepsInv(c: Context, now: int, ever: set<Run>, before: SlotView, v: SlotView, out: Outcome)
    requires SlotViewInv(c, ever, before) && Sound(c, ever, SlotRun(c, v), out)
    ensures SlotViewInv(c, ever, SettleView(c, now, before, v.(conditions := [Pending(c.generation, now)]), out))
  {
    var slot := v.(conditions := [Pending(c.generation, now)]);
    var labels := SlotLabels(c.oracle, v.revision);
    if !out.Failed? {
      var run := if out.Adopted? then out.prior else out.run;
      SlotRunLabels(c, v);
      SubMapTransitive(labels, SourceLabels(SlotRun(c, v).labels), run.labels);
      SlotLabelsAreSource(c.oracle, v.revision, run.labels);
      assert Known(ever, run) by {
        if out.Started? { assert SameIdentity(run, run); }
      }
      KnownBuilds(c.id, ever, labels, run);
    } else if IsPermanent(out.err) {
      assert [Conditions.CreateFailed(c.generation, now, out.err.message)][0].ctype == ERROR;
    } else {
      var failure := Failure(c.generation, now, out.err.message);
      ReplacedContents(before.conditions, failure);
      var r := Replaced(before.conditions, failure);
      var i :| 0 <= i < |r| && r[i] == failure;
    }
  }

  /**
   * Each reconcile keeps a single slot sound, at both its status patches: once it has conditions it shows an error or
   * has had its run, and the run it names was created for its revision.
   */
  lemma SlotCycleKeepsInv(c: Context, marshal: Marshal, now: int, ever: set<Run>, running: bool, before: SlotView,
                          incoming: Revision, cached: seq<Run>, runs: seq<Run>, reply: Reply)
    requires SlotViewInv(c, ever, before) && NamesOnce(ever) && AllKnown(ever, cached) && AllKnown(ever, runs)
    requires forall r :: r in CycleLanded(c, marshal, running, before, incoming, cached, runs, reply) ==> r in ever
    ensures SlotViewInv(c, ever, SettledView(c, marshal, now, running, before, incoming, cached, runs, reply))
    ensures SlotViewInv(c, ever, CycleView(c, marshal, now, running, before, incoming, cached, runs, reply))
  {
    var synced := SyncView(marshal, before, incoming);
    var settled := SettledView(c, marshal, now, running, before, incoming, cached, runs, reply);
    if !running {
      if SlotWants(c, synced) {
        SlotRunLabels(c, synced);
        OutcomeSound(c, ever, cached, runs, SlotRun(c, synced), reply);
        SettleViewKeepsInv(c, now, ever, before, synced, OutcomeOf(c, SlotRun(c, synced), cached, runs, reply));
      } else {
        assert Eligible(synced.conditions, c.generation) ==> settled.conditions[0].ctype == ERROR;
      }
    }
    CopyingKeepsInv(c, now, ever, cached, settled);
  }

  lemma CopyingKeepsInv(c: Context, now: int, ever: set<Run>, cached: seq<Run>, v: SlotView)
    requires SlotViewInv(c, ever, v) && NamesOnce(ever) && AllKnown(ever, cached)
    ensures SlotViewInv(c, ever, StatusView(c.generation, now, cached, v))
  {
    StatusKeepsView(c.generation, now, cached, v, 0);
    NamedSound(cached, v.latestPipelineRun);
    if Named(cached, v.latestPipelineRun).Some? {
      assert Known(ever, Named(cached, v.latestPipelineRun).value);
    }
  }
}
