/**
 * Safety of the single-slot sources over whole runs: whatever statuses are lost, replayed or half persisted, the slot
 * is never stranded or misnamed, and while the template's labels stand no revision is built twice.
 */
module SingleSlotRuns {
  import opened Util
  import opened Conditions
  import opened Runs
  import opened Branches
  import opened StartRuns
  import opened AtMostOne
  import opened System
  import opened Safety
  import opened SingleSlot

  /** As for branches: every status ever stored, the server's runs, and every run that ever existed. */
  datatype SlotState = SlotState(views: set<SlotView>, runs: seq<Run>, ever: set<Run>)

  datatype SlotEvent =
    | SlotReconciled(c: Context, now: int, running: bool, read: SlotView, incoming: Revision, cached: seq<Run>,
                     reply: Reply)
    | SlotErrorManaged(c: Context, read: SlotView, now: int, message: string)
    | SlotRunsMoved

  ghost predicate SlotStep(c0: Context, marshal: Marshal, s: SlotState, e: SlotEvent, t: SlotState) {
    match e
    case SlotReconciled(c, now, running, read, incoming, cached, reply) =>
      var landed := CycleLanded(c, marshal, running, read, incoming, cached, s.runs, reply);
      && SameTrigger(c0, c) && read in s.views && AllKnown(s.ever, cached)
      && t.runs == s.runs + landed
      && t.ever == s.ever + (set r | r in landed)
      && NamesOnce(t.ever) && DistinctNames(t.runs)
      && t.views == s.views + {SettledView(c, marshal, now, running, read, incoming, cached, s.runs, reply),
                               CycleView(c, marshal, now, running, read, incoming, cached, s.runs, reply)}
    case SlotErrorManaged(c, read, now, message) =>
      SameTrigger(c0, c) && read in s.views && t == s.(views := s.views + {ManagedView(c, now, message, read)})
    case SlotRunsMoved =>
      && t.views == s.views && s.ever <= t.ever && NamesOnce(t.ever) && AllKnown(t.ever, t.runs)
      && DistinctNames(t.runs) && Drift(c0.id, s.runs, t.runs)
  }

  ghost predicate SlotInit(c0: Context, s: SlotState) {
    && (forall v :: v in s.views ==> v == Untouched(true) || v == Untouched(false))
    && NamesOnce(s.ever) && AllKnown(s.ever, s.runs) && forall r :: r in s.runs ==> !Owned(c0.id, r)
  }

  ghost predicate SlotTrace(c0: Context, marshal: Marshal, events: seq<SlotEvent>, states: seq<SlotState>) {
    && |states| == |events| + 1 && SlotInit(c0, states[0])
    && forall i :: 0 <= i < |events| ==> SlotStep(c0, marshal, states[i], events[i], states[i + 1])
  }

  ghost predicate StateInv(c0: Context, marshal: Marshal, s: SlotState) {
    && NamesOnce(s.ever) && AllKnown(s.ever, s.runs) && Deduplicated(c0.id, s.runs)
    && forall v :: v in s.views ==> SlotViewInv(c0, s.ever, v) && Described(marshal, v)
  }

  lemma ViewMonotone(c: Context, d: Context, ever: set<Run>, more: set<Run>, v: SlotView)
    requires SameTrigger(c, d) && ever <= more && SlotViewInv(c, ever, v)
    ensures SlotViewInv(d, more, v)
  {
    var labels := SlotLabels(c.oracle, v.revision);
    assert forall e :: Builds(c.id, ever, labels, e) ==> Builds(d.id, more, labels, e);
  }

  lemma ManagedViewKeepsInv(c: Context, ever: set<Run>, now: int, message: string, v: SlotView)
    requires SlotViewInv(c, ever, v)
    ensures SlotViewInv(c, ever, ManagedView(c, now, message, v))
  {
    var failure := Failure(c.generation, now, message);
    ReplacedContents(v.conditions, failure);
    var r := Replaced(v.conditions, failure);
    var i :| 0 <= i < |r| && r[i] == failure;
  }

  lemma CycleKeepsDescribed(c: Context, marshal: Marshal, now: int, running: bool, before: SlotView, incoming: Revision,
                            cached: seq<Run>, runs: seq<Run>, reply: Reply)
    requires Described(marshal, before)
    ensures Described(marshal, SettledView(c, marshal, now, running, before, incoming, cached, runs, reply))
    ensures Described(marshal, CycleView(c, marshal, now, running, before, incoming, cached, runs, reply))
  {
    var settled := SettledView(c, marshal, now, running, before, incoming, cached, runs, reply);
    StatusKeepsView(c.generation, now, cached, settled, 0);
  }

  // ---- which labels tell the runs of one source kind apart ----

  function SlotKeys(git: bool): set<string> {
    if git then {GIT_NAME, GIT_COMMIT} else {IMAGE_NAME, IMAGE_VERSION}
  }

  lemma SlotRunWellPrepared(c: Context, v: SlotView)
    ensures WellPrepared(c, SlotKeys(v.revision.Git?), SlotRun(c, v))
  {
    var labels := SlotLabels(c.oracle, v.revision);
    SlotRunLabels(c, v);
    OverlaidFollows(c.template.labels, labels);
    assert labels.Keys == SlotKeys(v.revision.Git?);
    var k := if v.revision.Git? then GIT_NAME else IMAGE_NAME;
    assert k in labels;
    assert k in SourceLabels(SlotRun(c, v).labels);
  }

  /**
   * A run lands for a slot only while none of this trigger's carries its source labels, so none ever has a double; and
   * it is built from the template and its revision.
   */
  lemma SlotLandingKeeps(c: Context, v: SlotView, built: bool, cached: seq<Run>, runs: seq<Run>, reply: Reply)
    requires Good(c, built, SlotKeys(v.revision.Git?), runs)
    ensures Good(c, built, SlotKeys(v.revision.Git?), runs + Landed(c, SlotRun(c, v), cached, runs, reply))
  {
    SlotRunWellPrepared(c, v);
    LandedKeeps(c, built, SlotKeys(v.revision.Git?), SlotRun(c, v), cached, runs, reply);
  }

  lemma SlotLandingsKeep(c: Context, marshal: Marshal, running: bool, before: SlotView, incoming: Revision, built: bool,
                         cached: seq<Run>, runs: seq<Run>, reply: Reply)
    requires Good(c, built, SlotKeys(incoming.Git?), runs)
    ensures Good(c, built, SlotKeys(incoming.Git?),
                 runs + CycleLanded(c, marshal, running, before, incoming, cached, runs, reply))
  {
    var landed := CycleLanded(c, marshal, running, before, incoming, cached, runs, reply);
    if landed == [] {
      assert runs + landed == runs;
    } else {
      SlotLandingKeeps(c, SyncView(marshal, before, incoming), built, cached, runs, reply);
    }
  }

  // ---- every run of the system ----

  lemma SlotCycleStep(c0: Context, marshal: Marshal, s: SlotState, e: SlotEvent, t: SlotState)
    requires StateInv(c0, marshal, s) && SlotStep(c0, marshal, s, e, t) && e.SlotReconciled?
    ensures StateInv(c0, marshal, t)
  {
    var c := e.c;
    KnownMonotone(s.ever, t.ever, e.cached);
    KnownMonotone(s.ever, t.ever, s.runs);
    ViewMonotone(c0, c, s.ever, t.ever, e.read);
    SlotCycleKeepsInv(c, marshal, e.now, t.ever, e.running, e.read, e.incoming, e.cached, s.runs, e.reply);
    CycleKeepsDescribed(c, marshal, e.now, e.running, e.read, e.incoming, e.cached, s.runs, e.reply);
    forall v | v in t.views ensures SlotViewInv(c0, t.ever, v) {
      if v in s.views {
        ViewMonotone(c0, c0, s.ever, t.ever, v);
      } else {
        ViewMonotone(c, c0, t.ever, t.ever, v);
      }
    }
    forall r | r in t.runs ensures Known(t.ever, r) {
      assert SameIdentity(r, r);
    }
    SlotLandingsKeep(c, marshal, e.running, e.read, e.incoming, false, e.cached, s.runs, e.reply);
  }

  lemma SlotStepKeepsInv(c0: Context, marshal: Marshal, s: SlotState, e: SlotEvent, t: SlotState)
    requires StateInv(c0, marshal, s) && SlotStep(c0, marshal, s, e, t)
    ensures StateInv(c0, marshal, t)
  {
    match e
    case SlotReconciled(_, _, _, _, _, _, _) => SlotCycleStep(c0, marshal, s, e, t);
    case SlotErrorManaged(c, read, now, message) =>
      ViewMonotone(c0, c, s.ever, s.ever, read);
      ManagedViewKeepsInv(c, s.ever, now, message, read);
      ViewMonotone(c, c0, s.ever, s.ever, ManagedView(c, now, message, read));
    case SlotRunsMoved =>
      DriftKeepsDedup(c0.id, s.runs, t.runs);
      forall v | v in t.views ensures SlotViewInv(c0, t.ever, v) {
        ViewMonotone(c0, c0, s.ever, t.ever, v);
      }
  }

  /**
   * In every reachable state: no status strands or misnames its revision, details are the revision's own or the slot is
   * untouched, and no two runs of the trigger have equal source labels.
   */
  lemma {:induction false} SlotReachableInv(c0: Context, marshal: Marshal, events: seq<SlotEvent>,
                                            states: seq<SlotState>, n: nat)
    requires SlotTrace(c0, marshal, events, states) && n < |states|
    ensures StateInv(c0, marshal, states[n])
  {
    if n > 0 {
      SlotReachableInv(c0, marshal, events, states, n - 1);
      SlotStepKeepsInv(c0, marshal, states[n - 1], events[n - 1], states[n]);
    }
  }

  /** The trigger's source kind and its template labels stay the same. */
  ghost predicate SlotTemplateFixed(events: seq<SlotEvent>, git: bool, fixed: LabelMap) {
    forall i :: 0 <= i < |events| && events[i].SlotReconciled? ==>
      events[i].c.template.labels == fixed && events[i].incoming.Git? == git
  }

  lemma SlotStepKeepsBuilt(c0: Context, marshal: Marshal, s: SlotState, e: SlotEvent, t: SlotState, git: bool,
                           fixed: LabelMap)
    requires SlotStep(c0, marshal, s, e, t) && Deduplicated(c0.id, s.runs)
    requires e.SlotReconciled? ==> e.c.template.labels == fixed && e.incoming.Git? == git
    requires BuiltFrom(c0.id, fixed, SlotKeys(git), s.runs)
    ensures BuiltFrom(c0.id, fixed, SlotKeys(git), t.runs)
  {
    match e
    case SlotReconciled(c, _, running, read, incoming, cached, reply) =>
      SlotLandingsKeep(c, marshal, running, read, incoming, true, cached, s.runs, reply);
    case SlotErrorManaged(_, _, _, _) =>
    case SlotRunsMoved =>
      DriftKeepsBuilt(c0.id, s.runs, t.runs, fixed, SlotKeys(git));
  }

  lemma {:induction false} SlotTraceBuilt(c0: Context, marshal: Marshal, events: seq<SlotEvent>, states: seq<SlotState>,
                                          n: nat, git: bool, fixed: LabelMap)
    requires SlotTrace(c0, marshal, events, states) && n < |states| && SlotTemplateFixed(events, git, fixed)
    ensures BuiltFrom(c0.id, fixed, SlotKeys(git), states[n].runs)
  {
    if n > 0 {
      SlotTraceBuilt(c0, marshal, events, states, n - 1, git, fixed);
      SlotReachableInv(c0, marshal, events, states, n - 1);
      SlotStepKeepsBuilt(c0, marshal, states[n - 1], events[n - 1], states[n], git, fixed);
    }
  }

  /** Both runs carry the labels of revision `r`. */
  ghost predicate BothBuild(o: Oracle, r: Revision, a: Run, b: Run) {
    SubMap(SlotLabels(o, r), a.labels) && SubMap(SlotLabels(o, r), b.labels)
  }

  lemma BuiltRevisionsDiffer(id: TriggerId, o: Oracle, fixed: LabelMap, r: Revision, runs: seq<Run>, i: nat, j: nat)
    requires Deduplicated(id, runs) && BuiltFrom(id, fixed, SlotKeys(r.Git?), runs)
    requires OwnedPair(id, runs, i, j)
    ensures !BothBuild(o, r, runs[i], runs[j])
  {
    if BothBuild(o, r, runs[i], runs[j]) {
      var labels := SlotLabels(o, r);
      assert labels.Keys == SlotKeys(r.Git?);
      forall k | k in SlotKeys(r.Git?) ensures Get(runs[i].labels, k) == Get(runs[j].labels, k) {
        assert k in labels;
      }
      SameKeysSameSource(fixed, SlotKeys(r.Git?), runs[i].labels, runs[j].labels);
    }
  }

  /**
   * In every reachable state of every run, starting without runs of this trigger: while the source kind and the
   * template labels stay fixed, no revision has two runs of the trigger.
   */
  lemma SlotAtMostOneRun(c0: Context, marshal: Marshal, events: seq<SlotEvent>, states: seq<SlotState>, n: nat)
    requires SlotTrace(c0, marshal, events, states) && n < |states|
    ensures forall r: Revision, fixed, i, j ::
              SlotTemplateFixed(events, r.Git?, fixed) && OwnedPair(c0.id, states[n].runs, i, j) ==>
              !BothBuild(c0.oracle, r, states[n].runs[i], states[n].runs[j])
  {
    SlotReachableInv(c0, marshal, events, states, n);
    var runs := states[n].runs;
    forall r: Revision, fixed, i, j | SlotTemplateFixed(events, r.Git?, fixed) && OwnedPair(c0.id, runs, i, j)
      ensures !BothBuild(c0.oracle, r, runs[i], runs[j])
    {
      SlotTraceBuilt(c0, marshal, events, states, n, r.Git?, fixed);
      BuiltRevisionsDiffer(c0.id, c0.oracle, fixed, r, runs, i, j);
    }
  }

  /**
   * In every reachable state the guard for a source that is not ready fires only on a slot still at its initial
   * revision.
   */
  lemma EmptyDetailsAreInitial(c0: Context, marshal: Marshal, events: seq<SlotEvent>, states: seq<SlotState>, n: nat,
                               v: SlotView)
    requires SlotTrace(c0, marshal, events, states) && n < |states| && v in states[n].views
    requires forall r :: marshal(r) != ""
    ensures v.details == "" ==> exists git :: v.revision == Unresolved(git)
    ensures v.details != "" ==> v.details == marshal(v.revision)
  {
    SlotReachableInv(c0, marshal, events, states, n);
  }
}
