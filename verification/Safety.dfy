/**
 * Safety over whole runs: no build is stranded, no slot ever names a run of another commit, and condition types stay
 * distinct, whatever statuses are lost, replayed or half persisted.
 */
module Safety {
  import opened Util
  import opened Labels
  import opened Conditions
  import opened Runs
  import opened Branches
  import opened PullRequest
  import opened StartRuns
  import opened Reconcile
  import opened Isolation
  import opened System

  /** The parts of a run nobody edits: its name, its owners and its source labels. */
  predicate SameIdentity(a: Run, b: Run) {
    a.name == b.name && a.owners == b.owners && SourceLabels(a.labels) == SourceLabels(b.labels)
  }

  /** `r` is (some version of) a run that exists or once existed. */
  ghost predicate Known(ever: set<Run>, r: Run) {
    exists e :: e in ever && SameIdentity(e, r)
  }

  ghost predicate AllKnown(ever: set<Run>, runs: seq<Run>) {
    forall r :: r in runs ==> Known(ever, r)
  }

  /** Names are never empty and never reused. */
  ghost predicate NamesOnce(ever: set<Run>) {
    && (forall e :: e in ever ==> e.name != "")
    && (forall a, b :: a in ever && b in ever && a.name == b.name ==> a == b)
  }

  /** `e` is a run of this trigger that carries the given branch labels. */
  ghost predicate Builds(id: TriggerId, ever: set<Run>, labels: LabelMap, e: Run) {
    e in ever && Owned(id, e) && SubMap(labels, SourceLabels(e.labels))
  }

  ghost predicate Built(c: Context, ever: set<Run>, b: Branch) {
    exists e :: Builds(c.id, ever, BranchLabels(c.oracle, b), e)
  }

  /** A non-empty latestPipelineRun names a run for the slot's current commit. */
  ghost predicate LatestBuilds(c: Context, ever: set<Run>, b: Branch) {
    b.latestPipelineRun != "" ==>
      exists e :: Builds(c.id, ever, BranchLabels(c.oracle, b), e) && e.name == b.latestPipelineRun
  }

  /** Not stranded: once it has conditions, the slot shows an error or has had its run. */
  ghost predicate NotStranded(c: Context, ever: set<Run>, b: Branch) {
    b.conditions == [] || HasType(b.conditions, ERROR) || Built(c, ever, b)
  }

  ghost predicate SlotInv(c: Context, ever: set<Run>, b: Branch) {
    NotStranded(c, ever, b) && LatestBuilds(c, ever, b) && DistinctTypes(b.conditions)
  }

  ghost predicate StatusInv(c: Context, ever: set<Run>, m: BranchMap) {
    forall k :: k in m ==> SlotInv(c, ever, m[k])
  }

  lemma Monotone(c: Context, ever: set<Run>, more: set<Run>, b: Branch)
    requires ever <= more
    ensures NotStranded(c, ever, b) ==> NotStranded(c, more, b)
    ensures LatestBuilds(c, ever, b) ==> LatestBuilds(c, more, b)
  {
    var labels := BranchLabels(c.oracle, b);
    assert forall e :: Builds(c.id, ever, labels, e) ==> Builds(c.id, more, labels, e);
  }

  // ---- one run settles its slots ----

  /** Some prepared run still to be started carries the slot's labels. */
  ghost predicate Awaited(c: Context, b: Branch, prs: seq<Run>) {
    exists j :: 0 <= j < |prs| && SubMap(BranchLabels(c.oracle, b), prs[j].labels)
  }

  ghost predicate InProgress(c: Context, ever: set<Run>, prs: seq<Run>, b: Branch) {
    && LatestBuilds(c, ever, b) && DistinctTypes(b.conditions)
    && (NotStranded(c, ever, b) || Awaited(c, b, prs))
  }

  /** Branch labels are source labels, so a run carries them exactly when its source labels do. */
  lemma CarriedBySourceLabels(c: Context, b: Branch, labels: LabelMap)
    ensures SubMap(BranchLabels(c.oracle, b), labels) <==> SubMap(BranchLabels(c.oracle, b), SourceLabels(labels))
  {
    assert SOURCE_LABEL_PREFIX <= NAME_LABEL && SOURCE_LABEL_PREFIX <= COMMIT_LABEL;
  }

  lemma KnownBuilds(id: TriggerId, ever: set<Run>, labels: LabelMap, run: Run)
    requires Known(ever, run) && Owned(id, run) && SubMap(labels, SourceLabels(run.labels))
    ensures exists e :: Builds(id, ever, labels, e) && e.name == run.name
  {
    var e :| e in ever && SameIdentity(e, run);
    assert Builds(id, ever, labels, e) && e.name == run.name;
  }

  /** Naming a known run of this trigger on a slot whose labels it carries. */
  lemma NamedSlot(c: Context, ever: set<Run>, b: Branch, run: Run)
    requires Known(ever, run) && Owned(c.id, run) && SubMap(BranchLabels(c.oracle, b), run.labels)
    requires DistinctTypes(b.conditions)
    ensures SlotInv(c, ever, b.(latestPipelineRun := run.name))
  {
    CarriedBySourceLabels(c, b, run.labels);
    KnownBuilds(c.id, ever, BranchLabels(c.oracle, b.(latestPipelineRun := run.name)), run);
  }

  /** The outcome concerns only known runs of this trigger that carry the prepared run's source labels. */
  ghost predicate Sound(c: Context, ever: set<Run>, pr: Run, out: Outcome) {
    match out
    case Adopted(prior) => Known(ever, prior) && Owned(c.id, prior) && SubMap(SourceLabels(pr.labels), prior.labels)
    case Started(run) => run in ever && Owned(c.id, run) && run.labels == pr.labels
    case Failed(_) => true
  }

  /** A slot the run does not concern is still awaited, if it was, by a later one. */
  lemma StillInProgress(c: Context, ever: set<Run>, pr: Run, rest: seq<Run>, b: Branch)
    requires InProgress(c, ever, [pr] + rest, b)
    requires !SubMap(BranchLabels(c.oracle, b), pr.labels)
    ensures InProgress(c, ever, rest, b)
  {
    var labels := BranchLabels(c.oracle, b);
    if j :| 0 <= j < |[pr] + rest| && SubMap(labels, ([pr] + rest)[j].labels) {
      assert rest[j - 1] == ([pr] + rest)[j];
    }
  }

  lemma SubMapTransitive(a: LabelMap, b: LabelMap, c: LabelMap)
    requires SubMap(a, b) && SubMap(b, c)
    ensures SubMap(a, c)
  {
  }

  lemma NamingKeepsSlot(c: Context, now: int, ever: set<Run>, before: Option<Branch>, b: Branch, pr: Run, out: Outcome,
                        rest: seq<Run>)
    requires Sound(c, ever, pr, out) && !out.Failed?
    requires InProgress(c, ever, [pr] + rest, b)
    ensures var s := SettleSlot(c, now, before, b, pr, out); s.Some? && InProgress(c, ever, rest, s.value)
  {
    var labels := BranchLabels(c.oracle, b);
    var run := if out.Adopted? then out.prior else out.run;
    assert Known(ever, run) by {
      if out.Started? { assert SameIdentity(run, run); }
    }
    HasIntersectionIsSubMap(labels, run.labels);
    if SubMap(labels, run.labels) {
      NamedSlot(c, ever, b, run);
    } else {
      if SubMap(labels, pr.labels) && out.Adopted? {
        CarriedBySourceLabels(c, b, pr.labels);
        SubMapTransitive(labels, SourceLabels(pr.labels), run.labels);
      }
      StillInProgress(c, ever, pr, rest, b);
    }
  }

  lemma RejectedSlot(c: Context, now: int, ever: set<Run>, b: Branch, message: string)
    ensures SlotInv(c, ever,
                    b.(latestPipelineRun := "", conditions := [Conditions.CreateFailed(c.generation, now, message)]))
  {
    assert [Conditions.CreateFailed(c.generation, now, message)][0].ctype == ERROR;
  }

  lemma SettleKeepsSlot(c: Context, now: int, ever: set<Run>, before: Option<Branch>, b: Branch, pr: Run, out: Outcome,
                        rest: seq<Run>)
    requires Sound(c, ever, pr, out)
    requires InProgress(c, ever, [pr] + rest, b)
    requires before.Some? ==> SlotInv(c, ever, before.value)
    ensures var s := SettleSlot(c, now, before, b, pr, out); s.Some? ==> InProgress(c, ever, rest, s.value)
  {
    if !out.Failed? {
      NamingKeepsSlot(c, now, ever, before, b, pr, out, rest);
    } else {
      HasIntersectionIsSubMap(BranchLabels(c.oracle, b), pr.labels);
      if !SubMap(BranchLabels(c.oracle, b), pr.labels) {
        StillInProgress(c, ever, pr, rest, b);
      } else if IsPermanent(out.err) {
        RejectedSlot(c, now, ever, b, out.err.message);
      }
    }
  }

  // ---- a whole batch ----

  ghost predicate BatchInv(c: Context, ever: set<Run>, prs: seq<Run>, m: BranchMap) {
    forall k :: k in m ==> InProgress(c, ever, prs, m[k])
  }

  lemma SettleKeeps(c: Context, now: int, ever: set<Run>, before: BranchMap, m: BranchMap, pr: Run, out: Outcome,
                    rest: seq<Run>)
    requires Sound(c, ever, pr, out) && BatchInv(c, ever, [pr] + rest, m) && StatusInv(c, ever, before)
    ensures BatchInv(c, ever, rest, Settle(c, now, before, pr, out, m))
  {
    forall k | k in Settle(c, now, before, pr, out, m)
      ensures InProgress(c, ever, rest, Settle(c, now, before, pr, out, m)[k])
    {
      SettleKeepsSlot(c, now, ever, Get(before, k), m[k], pr, out, rest);
    }
  }

  lemma {:induction false} SettleAllKeeps(c: Context, now: int, ever: set<Run>, before: BranchMap, m: BranchMap,
                                          prs: seq<Run>, outs: seq<Outcome>)
    requires |prs| == |outs| && forall i :: 0 <= i < |prs| ==> Sound(c, ever, prs[i], outs[i])
    requires BatchInv(c, ever, prs, m) && StatusInv(c, ever, before)
    ensures StatusInv(c, ever, SettleAll(c, now, before, m, prs, outs))
    decreases |prs|
  {
    if prs != [] {
      assert prs == [prs[0]] + prs[1..];
      SettleKeeps(c, now, ever, before, m, prs[0], outs[0], prs[1..]);
      SettleAllKeeps(c, now, ever, before, Settle(c, now, before, prs[0], outs[0], m), prs[1..], outs[1..]);
    }
  }

  lemma OutcomeSound(c: Context, ever: set<Run>, cached: seq<Run>, runs: seq<Run>, pr: Run, reply: Reply)
    requires AllKnown(ever, cached) && AllKnown(ever, runs) && Owned(c.id, pr)
    requires forall r :: r in Landed(c, pr, cached, runs, reply) ==> r in ever
    ensures Sound(c, ever, pr, OutcomeOf(c, pr, cached, runs, reply))
  {
    var want := SourceLabels(pr.labels);
    FindExistingSound(c.id, want, cached);
    FilteredLookupAgrees(c.id, want, runs);
    FindExistingSound(c.id, want, runs);
    if OutcomeOf(c, pr, cached, runs, reply).Started? {
      assert OutcomeOf(c, pr, cached, runs, reply).run in Landed(c, pr, cached, runs, reply);
    }
  }

  lemma {:induction false} OutcomesSound(c: Context, ever: set<Run>, cached: seq<Run>, runs: seq<Run>, prs: seq<Run>,
                                         replies: seq<Reply>)
    requires |prs| == |replies| && forall i :: 0 <= i < |prs| ==> Owned(c.id, prs[i])
    requires AllKnown(ever, cached) && AllKnown(ever, runs)
    requires forall r :: r in Landings(c, cached, runs, prs, replies) ==> r in ever
    ensures forall i :: 0 <= i < |prs| ==> Sound(c, ever, prs[i], Outcomes(c, cached, runs, prs, replies)[i])
    decreases |prs|
  {
    if prs != [] {
      var first := Landed(c, prs[0], cached, runs, replies[0]);
      OutcomeSound(c, ever, cached, runs, prs[0], replies[0]);
      assert AllKnown(ever, runs + first) by {
        forall r | r in runs + first ensures Known(ever, r) {
          assert SameIdentity(r, r);
        }
      }
      OutcomesSound(c, ever, cached, runs + first, prs[1..], replies[1..]);
    }
  }

  // ---- a whole cycle ----

  lemma SyncKeeps(c: Context, ever: set<Run>, before: BranchMap, list: seq<SourceBranch>)
    requires StatusInv(c, ever, before)
    ensures StatusInv(c, ever, Sync(before, SourceMap(list)))
  {
    var synced := Sync(before, SourceMap(list));
    forall k | k in synced ensures SlotInv(c, ever, synced[k]) {
      SourceMapIsLastEntry(list, k);
    }
  }

  /** Every prepared slot is settled already or awaits the run just prepared for it. */
  lemma PrepareKeeps(c: Context, now: int, ever: set<Run>, m: BranchMap, order: seq<string>)
    requires StatusInv(c, ever, m) && PrepareOrder(c, m, order)
    ensures BatchInv(c, ever, PreparedRuns(c, m, order), PrepareAll(c, now, m))
  {
    var prs := PreparedRuns(c, m, order);
    forall k | k in m ensures InProgress(c, ever, prs, PrepareSlot(c, now, m[k]).slot) {
      var slot := PrepareSlot(c, now, m[k]).slot;
      assert BranchLabels(c.oracle, slot) == BranchLabels(c.oracle, m[k]);
      if Wants(c, m[k]) {
        var i :| 0 <= i < |order| && order[i] == k;
        RunForLabels(c, m[k]);
        assert SubMap(BranchLabels(c.oracle, slot), prs[i].labels);
      } else if Eligible(m[k].conditions, c.generation) {
        assert slot.conditions[0].ctype == ERROR;
      }
    }
  }

  lemma StatusKeeps(c: Context, now: int, ever: set<Run>, cached: seq<Run>, m: BranchMap)
    requires StatusInv(c, ever, m) && AllKnown(ever, cached) && NamesOnce(ever)
    ensures StatusInv(c, ever, StatusAll(c.generation, now, cached, m))
  {
    forall k | k in m ensures SlotInv(c, ever, StatusSlot(c.generation, now, cached, m[k])) {
      var b := m[k];
      var copied := StatusSlot(c.generation, now, cached, b);
      assert BranchLabels(c.oracle, copied) == BranchLabels(c.oracle, b);
      NamedSound(cached, b.latestPipelineRun);
      if Named(cached, b.latestPipelineRun).Some? {
        var run := Named(cached, b.latestPipelineRun).value;
        assert Known(ever, run);
        CopyKeeps(c.generation, now, b.conditions, RunConditions(run), 0);
        var e :| Builds(c.id, ever, BranchLabels(c.oracle, b), e) && e.name == b.latestPipelineRun;
        assert Builds(c.id, ever, BranchLabels(c.oracle, copied), e);
      }
    }
  }

  lemma CycleKeeps(c: Context, ever: set<Run>, read: BranchMap, y: Cycle)
    requires ValidCycle(c, read, y) && StatusInv(c, ever, read)
    requires AllKnown(ever, y.cached) && AllKnown(ever, y.runs) && NamesOnce(ever + Additions(c, read, y))
    ensures var more := ever + Additions(c, read, y);
            && StatusInv(c, more, Settled(c, read, y).branches)
            && StatusInv(c, more, After(c, read, y))
            && AllKnown(more, Settled(c, read, y).runs)
  {
    var more := ever + Additions(c, read, y);
    KnownMonotone(ever, more, y.cached);
    KnownMonotone(ever, more, y.runs);
    forall k | k in read ensures SlotInv(c, more, read[k]) {
      Monotone(c, ever, more, read[k]);
    }
    if !y.elsewhere {
      var synced := Synced(read, y);
      var prs := PreparedRuns(c, synced, y.order);
      var w := World(PrepareAll(c, y.now, synced), y.runs, NOTHING);
      SyncKeeps(c, more, read, y.source);
      PrepareKeeps(c, y.now, more, synced, y.order);
      forall i | 0 <= i < |prs| ensures Owned(c.id, prs[i]) {
        RunForLabels(c, synced[y.order[i]]);
      }
      OutcomesSound(c, more, y.cached, y.runs, prs, y.replies);
      StartAllSettles(c, y.now, read, y.cached, w, prs, y.replies);
      SettleAllKeeps(c, y.now, more, read, w.branches, prs, Outcomes(c, y.cached, y.runs, prs, y.replies));
      StartAllRuns(c, y.now, read, y.cached, w, prs, y.replies);
      forall r | r in Settled(c, read, y).runs ensures Known(more, r) {
        assert SameIdentity(r, r);
      }
    }
    StatusKeeps(c, y.now, more, y.cached, Settled(c, read, y).branches);
  }

  lemma KnownMonotone(ever: set<Run>, more: set<Run>, runs: seq<Run>)
    requires AllKnown(ever, runs) && ever <= more
    ensures AllKnown(more, runs)
  {
    forall r | r in runs ensures Known(more, r) {
      assert Known(ever, r);
    }
  }

  lemma ManageKeeps(c: Context, now: int, ever: set<Run>, message: string, m: BranchMap)
    requires StatusInv(c, ever, m)
    ensures StatusInv(c, ever, ManageAll(c.generation, now, message, m))
  {
    var managed := ManageAll(c.generation, now, message, m);
    forall k | k in managed ensures SlotInv(c, ever, managed[k]) {
      var b := if m == map[] then Branch("", "", "", "", []) else m[k];
      assert BranchLabels(c.oracle, managed[k]) == BranchLabels(c.oracle, b);
      var failure := Failure(c.generation, now, message);
      ReplacedContents(b.conditions, failure);
      var i :| 0 <= i < |managed[k].conditions| && managed[k].conditions[i] == failure;
      assert HasType(managed[k].conditions, ERROR);
      if b.latestPipelineRun != "" {
        var e :| Builds(c.id, ever, BranchLabels(c.oracle, b), e) && e.name == b.latestPipelineRun;
        assert Builds(c.id, ever, BranchLabels(c.oracle, managed[k]), e);
      }
    }
  }

  // ---- every run of the system ----

  /**
   * What these properties need of the environment. A reconcile may read any status ever stored: the newest, an older
   * one (a stale trigger cache, a failed patch, a restored backup) or the empty one (a lost status). The cached list is
   * stale but not invented. The server never reuses a name. Who creates runs, and whose, is left open.
   */
  ghost predicate InformedStep(s: State, e: Event, t: State) {
    && NamesOnce(t.ever)
    && match e
       case Reconciled(_, read, y) => read in s.statuses && AllKnown(s.ever, y.cached)
       case ErrorManaged(_, read, _, _) => read in s.statuses
       case RunsMoved => AllKnown(t.ever, t.runs)
  }

  ghost predicate Informed(events: seq<Event>, states: seq<State>) {
    |states| == |events| + 1 && forall i :: 0 <= i < |events| ==> InformedStep(states[i], events[i], states[i + 1])
  }

  ghost predicate Init(s: State) {
    s.statuses == {map[]} && NamesOnce(s.ever) && AllKnown(s.ever, s.runs)
  }

  /** A run of the system from the start, in such an environment. */
  ghost predicate InformedTrace(c0: Context, events: seq<Event>, states: seq<State>) {
    Trace(c0, events, states) && Init(states[0]) && Informed(events, states)
  }

  ghost predicate Inv(c0: Context, s: State) {
    && NamesOnce(s.ever) && AllKnown(s.ever, s.runs)
    && forall m :: m in s.statuses ==> StatusInv(c0, s.ever, m) && AllFiled(m)
  }

  /** The invariant reads nothing of a context but the trigger and the oracle. */
  lemma SameTriggerSameInv(c: Context, d: Context, ever: set<Run>, m: BranchMap)
    requires SameTrigger(c, d)
    ensures StatusInv(c, ever, m) <==> StatusInv(d, ever, m)
  {
    forall b: Branch ensures SlotInv(c, ever, b) <==> SlotInv(d, ever, b) {}
  }

  lemma StepKeepsInv(c0: Context, s: State, e: Event, t: State)
    requires Inv(c0, s) && Step(c0, s, e, t) && InformedStep(s, e, t)
    ensures Inv(c0, t)
  {
    forall m | m in s.statuses ensures StatusInv(c0, t.ever, m) {
      forall k | k in m ensures SlotInv(c0, t.ever, m[k]) {
        Monotone(c0, s.ever, t.ever, m[k]);
      }
    }
    match e
    case Reconciled(c, read, y) =>
      SameTriggerSameInv(c0, c, s.ever, read);
      CycleKeeps(c, s.ever, read, y);
      CycleFiled(c, read, y);
      SameTriggerSameInv(c0, c, t.ever, Settled(c, read, y).branches);
      SameTriggerSameInv(c0, c, t.ever, After(c, read, y));
    case ErrorManaged(c, read, now, message) =>
      SameTriggerSameInv(c0, c, s.ever, read);
      ManageKeeps(c, now, s.ever, message, read);
      ManageFiled(c, now, message, read);
      SameTriggerSameInv(c0, c, t.ever, ManageAll(c.generation, now, message, read));
    case RunsMoved =>
  }

  /**
   * In every reachable state, every stored status is sound: nothing stranded, nothing misnamed, types distinct, and
   * each slot filed under its name.
   */
  lemma {:induction false} ReachableInv(c0: Context, events: seq<Event>, states: seq<State>, n: nat)
    requires InformedTrace(c0, events, states) && n < |states|
    ensures Inv(c0, states[n])
  {
    if n > 0 {
      ReachableInv(c0, events, states, n - 1);
      StepKeepsInv(c0, states[n - 1], events[n - 1], states[n]);
    }
  }

  /**
   * Whenever a reconcile copies a run's result onto a slot, that run is this trigger's and carries the slot's labels;
   * for a commit that is a label value as it stands (a hex digest is), it was created for that very commit.
   */
  lemma CopiesOnlyOwnCommit(c0: Context, events: seq<Event>, states: seq<State>, n: nat, cached: seq<Run>,
                            m: BranchMap, k: string, generation: int, now: int)
    requires InformedTrace(c0, events, states) && n < |states| && AllKnown(states[n].ever, cached)
    requires m in states[n].statuses && k in m
    ensures StatusSlot(generation, now, cached, m[k]) != m[k] ==>
              var run := Named(cached, m[k].latestPipelineRun);
              && run.Some? && Owned(c0.id, run.value)
              && SubMap(BranchLabels(c0.oracle, m[k]), run.value.labels)
              && (ValidLabelValue(m[k].commit) ==> Get(run.value.labels, COMMIT_LABEL) == Some(m[k].commit))
  {
    ReachableInv(c0, events, states, n);
    var b, ever := m[k], states[n].ever;
    NamedSound(cached, b.latestPipelineRun);
    if Named(cached, b.latestPipelineRun).Some? {
      var run := Named(cached, b.latestPipelineRun).value;
      var known :| known in ever && SameIdentity(known, run);
      var e :| Builds(c0.id, ever, BranchLabels(c0.oracle, b), e) && e.name == b.latestPipelineRun;
      assert e == known;
      CarriedBySourceLabels(c0, b, run.labels);
      assert COMMIT_LABEL in BranchLabels(c0.oracle, b);
    }
  }
}
