/**
 * At most one run per source revision: over every sequence of reconciles, whatever the trigger status and the
 * cached list say, the server never holds two runs of this trigger for one set of source labels.
 */
module AtMostOne {
  import opened Util
  import opened Runs
  import opened Branches
  import opened PullRequest
  import opened StartRuns
  import opened Reconcile
  import opened System

  /** A run lands only while the server holds no run of this trigger that carries all its source labels. */
  lemma LandsOnlyWhenAbsent(c: Context, pr: Run, cached: seq<Run>, runs: seq<Run>, reply: Reply)
    requires SourceLabels(pr.labels) != map[]
    requires Landed(c, pr, cached, runs, reply) != []
    ensures forall r :: r in runs && Owned(c.id, r) ==> !SubMap(SourceLabels(pr.labels), r.labels)
  {
    var want := SourceLabels(pr.labels);
    FilteredLookupAgrees(c.id, want, runs);
    FindExistingSound(c.id, want, runs);
  }

  ghost predicate DistinctNames(runs: seq<Run>) {
    forall i, j :: 0 <= i < j < |runs| ==> runs[i].name != runs[j].name
  }

  /** No two runs of this trigger have equal source labels. */
  ghost predicate Deduplicated(id: TriggerId, runs: seq<Run>) {
    forall i, j :: 0 <= i < j < |runs| && Owned(id, runs[i]) && Owned(id, runs[j]) ==>
                     SourceLabels(runs[i].labels) != SourceLabels(runs[j].labels)
  }

  // ---- which labels tell runs of one template apart ----

  const BRANCH_KEYS := {NAME_LABEL, COMMIT_LABEL}

  function Restricted(labels: LabelMap, keys: set<string>): LabelMap {
    map k | k in labels && k in keys :: labels[k]
  }

  /** The source labels of each of the trigger's runs follow from those at `keys`, the template labels being `fixed`. */
  ghost predicate BuiltFrom(id: TriggerId, fixed: LabelMap, keys: set<string>, runs: seq<Run>) {
    forall i :: 0 <= i < |runs| && Owned(id, runs[i]) ==> FollowsTemplate(fixed, keys, runs[i].labels)
  }

  ghost predicate FollowsTemplate(fixed: LabelMap, keys: set<string>, labels: LabelMap) {
    keys <= labels.Keys && SourceLabels(labels) == SourceLabels(fixed + Restricted(labels, keys))
  }

  /** What the de-dup needs of a prepared run. */
  ghost predicate WellPrepared(c: Context, keys: set<string>, pr: Run) {
    Owned(c.id, pr) && SourceLabels(pr.labels) != map[] && FollowsTemplate(c.template.labels, keys, pr.labels)
  }

  /** Labels laid over the template's determine the run's labels. */
  lemma OverlaidFollows(fixed: LabelMap, labels: LabelMap)
    ensures FollowsTemplate(fixed, labels.Keys, fixed + labels)
  {
    assert fixed + Restricted(fixed + labels, labels.Keys) == fixed + labels;
  }

  lemma RunForWellPrepared(c: Context, b: Branch)
    ensures WellPrepared(c, BRANCH_KEYS, RunFor(c, b))
  {
    RunForLabels(c, b);
    OverlaidFollows(c.template.labels, BranchLabels(c.oracle, b));
    assert BranchLabels(c.oracle, b).Keys == BRANCH_KEYS;
  }

  /** Two runs built from one template with the same labels at `keys` have the same source labels. */
  lemma SameKeysSameSource(fixed: LabelMap, keys: set<string>, a: LabelMap, b: LabelMap)
    requires FollowsTemplate(fixed, keys, a) && FollowsTemplate(fixed, keys, b)
    requires forall k :: k in keys ==> Get(a, k) == Get(b, k)
    ensures SourceLabels(a) == SourceLabels(b)
  {
    forall k ensures Get(Restricted(a, keys), k) == Get(Restricted(b, keys), k) {
      assert k in keys ==> Get(a, k) == Get(b, k);
    }
    MapsEqual(Restricted(a, keys), Restricted(b, keys));
  }

  /**
   * Exactly when a run created earlier is adopted for the same revision: every source label the template lays down now,
   * other than the revision's own, was on the template then. Removing one keeps the run; adding or changing one does
   * not.
   */
  lemma RetemplatedRunAdopted(c: Context, d: Context, stem: string, labels: LabelMap, before: string, now: string)
    requires c.id == d.id
    ensures var earlier, later := RunWith(c, stem, labels, before), RunWith(d, stem, labels, now);
            Matches(d.id, SourceLabels(later.labels), earlier) <==>
              forall k :: k in d.template.labels && SOURCE_LABEL_PREFIX <= k && k !in labels ==>
                Get(c.template.labels, k) == Some(d.template.labels[k])
  {
    var earlier, later := RunWith(c, stem, labels, before), RunWith(d, stem, labels, now);
    if Matches(d.id, SourceLabels(later.labels), earlier) {
      forall k | k in d.template.labels && SOURCE_LABEL_PREFIX <= k && k !in labels
        ensures Get(c.template.labels, k) == Some(d.template.labels[k])
      {
        assert k in SourceLabels(later.labels);
      }
    }
  }

  ghost predicate Good(c: Context, built: bool, keys: set<string>, runs: seq<Run>) {
    Deduplicated(c.id, runs) && (built ==> BuiltFrom(c.id, c.template.labels, keys, runs))
  }

  /** One attempt never gives a set of source labels a second run. */
  lemma DedupKept(c: Context, pr: Run, cached: seq<Run>, runs: seq<Run>, reply: Reply)
    requires Deduplicated(c.id, runs) && SourceLabels(pr.labels) != map[]
    ensures Deduplicated(c.id, runs + Landed(c, pr, cached, runs, reply))
  {
    var first := Landed(c, pr, cached, runs, reply);
    if first == [] {
      assert runs + first == runs;
    } else {
      LandsOnlyWhenAbsent(c, pr, cached, runs, reply);
      forall r | r in runs && Owned(c.id, r) ensures SourceLabels(r.labels) != SourceLabels(first[0].labels) {
        assert SubMap(SourceLabels(r.labels), r.labels);
      }
      assert forall i :: 0 <= i < |runs| ==> (runs + first)[i] == runs[i] && runs[i] in runs;
    }
  }

  lemma LandedKeeps(c: Context, built: bool, keys: set<string>, pr: Run, cached: seq<Run>, runs: seq<Run>, reply: Reply)
    requires Good(c, built, keys, runs) && WellPrepared(c, keys, pr)
    ensures Good(c, built, keys, runs + Landed(c, pr, cached, runs, reply))
  {
    DedupKept(c, pr, cached, runs, reply);
  }

  lemma {:induction false} LandingsKeep(c: Context, built: bool, keys: set<string>, cached: seq<Run>, runs: seq<Run>,
                                        prs: seq<Run>, replies: seq<Reply>)
    requires |prs| == |replies| && Good(c, built, keys, runs)
    requires forall i :: 0 <= i < |prs| ==> WellPrepared(c, keys, prs[i])
    ensures Good(c, built, keys, runs + Landings(c, cached, runs, prs, replies))
    decreases |prs|
  {
    if prs == [] {
      assert runs + [] == runs;
    } else {
      var first := Landed(c, prs[0], cached, runs, replies[0]);
      LandedKeeps(c, built, keys, prs[0], cached, runs, replies[0]);
      LandingsKeep(c, built, keys, cached, runs + first, prs[1..], replies[1..]);
      var rest := Landings(c, cached, runs + first, prs[1..], replies[1..]);
      ConcatAssociates(runs, first, rest);
    }
  }

  /** Labels of the source prefix are read off the source labels. */
  lemma SourceLabelOf(a: LabelMap, b: LabelMap, k: string)
    requires SourceLabels(a) == SourceLabels(b) && SOURCE_LABEL_PREFIX <= k
    ensures Get(a, k) == Get(b, k)
  {
    assert k in a <==> k in SourceLabels(a);
    assert k in b <==> k in SourceLabels(b);
    assert k in a ==> a[k] == SourceLabels(a)[k];
    assert k in b ==> b[k] == SourceLabels(b)[k];
  }

  // ---- every run of the system ----

  /** Owner and source labels of this trigger's runs are never edited, and nobody else creates runs it owns. */
  ghost predicate Drift(id: TriggerId, runs: seq<Run>, next: seq<Run>) {
    forall r :: r in next && Owned(id, r) ==>
      exists e :: e in runs && e.name == r.name && Owned(id, e) && SourceLabels(e.labels) == SourceLabels(r.labels)
  }

  /** What this property needs of the environment: one name, one run at a time; and its own runs left alone. */
  ghost predicate ExclusiveStep(id: TriggerId, s: State, e: Event, t: State) {
    DistinctNames(t.runs) && (e.RunsMoved? ==> Drift(id, s.runs, t.runs))
  }

  ghost predicate Exclusive(id: TriggerId, events: seq<Event>, states: seq<State>) {
    |states| == |events| + 1 && forall i :: 0 <= i < |events| ==> ExclusiveStep(id, states[i], events[i], states[i + 1])
  }

  ghost predicate TemplateFixed(events: seq<Event>, fixed: LabelMap) {
    forall i :: 0 <= i < |events| && events[i].Reconciled? ==> events[i].c.template.labels == fixed
  }

  lemma DriftKeepsDedup(id: TriggerId, runs: seq<Run>, next: seq<Run>)
    requires Drift(id, runs, next) && DistinctNames(next) && Deduplicated(id, runs)
    ensures Deduplicated(id, next)
  {
    forall i, j | 0 <= i < j < |next| && Owned(id, next[i]) && Owned(id, next[j])
      ensures SourceLabels(next[i].labels) != SourceLabels(next[j].labels)
    {
      var x, y := next[i], next[j];
      var a :| a in runs && a.name == x.name && Owned(id, a) && SourceLabels(a.labels) == SourceLabels(x.labels);
      var b :| b in runs && b.name == y.name && Owned(id, b) && SourceLabels(b.labels) == SourceLabels(y.labels);
    }
  }

  lemma SameSourceFollows(fixed: LabelMap, keys: set<string>, a: LabelMap, b: LabelMap)
    requires FollowsTemplate(fixed, keys, a) && SourceLabels(a) == SourceLabels(b)
    requires forall k :: k in keys ==> SOURCE_LABEL_PREFIX <= k
    ensures FollowsTemplate(fixed, keys, b)
  {
    forall k | k in keys ensures k in b && b[k] == a[k] {
      SourceLabelOf(a, b, k);
    }
    assert Restricted(a, keys) == Restricted(b, keys);
  }

  lemma DriftKeepsBuilt(id: TriggerId, runs: seq<Run>, next: seq<Run>, fixed: LabelMap, keys: set<string>)
    requires Drift(id, runs, next) && BuiltFrom(id, fixed, keys, runs)
    requires forall k :: k in keys ==> SOURCE_LABEL_PREFIX <= k
    ensures BuiltFrom(id, fixed, keys, next)
  {
    forall i | 0 <= i < |next| && Owned(id, next[i]) ensures FollowsTemplate(fixed, keys, next[i].labels) {
      var r := next[i];
      var a :| a in runs && Owned(id, a) && SourceLabels(a.labels) == SourceLabels(r.labels);
      SameSourceFollows(fixed, keys, a.labels, r.labels);
    }
  }

  lemma CycleKeepsDedup(c: Context, read: BranchMap, y: Cycle, built: bool)
    requires ValidCycle(c, read, y) && Good(c, built, BRANCH_KEYS, y.runs)
    ensures Good(c, built, BRANCH_KEYS, Settled(c, read, y).runs)
  {
    if !y.elsewhere {
      var prs := PreparedRuns(c, Synced(read, y), y.order);
      StartAllRuns(c, y.now, read, y.cached,
                   World(PrepareAll(c, y.now, Synced(read, y)), y.runs, NOTHING), prs, y.replies);
      forall i | 0 <= i < |prs| ensures WellPrepared(c, BRANCH_KEYS, prs[i]) {
        RunForWellPrepared(c, Synced(read, y)[y.order[i]]);
      }
      LandingsKeep(c, built, BRANCH_KEYS, y.cached, y.runs, prs, y.replies);
    }
  }

  /** No step of the system makes two runs of the trigger with equal source labels. */
  lemma StepKeeps(c0: Context, s: State, e: Event, t: State, fixed: LabelMap)
    requires Step(c0, s, e, t) && ExclusiveStep(c0.id, s, e, t)
    requires Deduplicated(c0.id, s.runs)
    ensures Deduplicated(c0.id, t.runs)
    ensures BuiltFrom(c0.id, fixed, BRANCH_KEYS, s.runs) && (e.Reconciled? ==> e.c.template.labels == fixed) ==>
              BuiltFrom(c0.id, fixed, BRANCH_KEYS, t.runs)
  {
    match e
    case Reconciled(c, read, y) =>
      CycleKeepsDedup(c, read, y, BuiltFrom(c0.id, fixed, BRANCH_KEYS, s.runs) && c.template.labels == fixed);
    case ErrorManaged(_, _, _, _) =>
    case RunsMoved =>
      DriftKeepsDedup(c0.id, s.runs, t.runs);
      if BuiltFrom(c0.id, fixed, BRANCH_KEYS, s.runs) {
        DriftKeepsBuilt(c0.id, s.runs, t.runs, fixed, BRANCH_KEYS);
      }
  }

  /** Two different runs of the trigger. */
  ghost predicate OwnedPair(id: TriggerId, runs: seq<Run>, i: int, j: int) {
    0 <= i < j < |runs| && Owned(id, runs[i]) && Owned(id, runs[j])
  }

  /** The name and commit labels of two runs differ. */
  ghost predicate PairsDiffer(a: Run, b: Run) {
    Get(a.labels, NAME_LABEL) != Get(b.labels, NAME_LABEL) || Get(a.labels, COMMIT_LABEL) != Get(b.labels, COMMIT_LABEL)
  }

  lemma BuiltPairsDiffer(id: TriggerId, fixed: LabelMap, runs: seq<Run>, i: nat, j: nat)
    requires Deduplicated(id, runs) && BuiltFrom(id, fixed, BRANCH_KEYS, runs)
    requires OwnedPair(id, runs, i, j)
    ensures PairsDiffer(runs[i], runs[j])
  {
    if !PairsDiffer(runs[i], runs[j]) {
      SameKeysSameSource(fixed, BRANCH_KEYS, runs[i].labels, runs[j].labels);
    }
  }

  lemma TraceStep(c0: Context, events: seq<Event>, states: seq<State>, n: nat)
    requires Trace(c0, events, states) && Exclusive(c0.id, events, states) && 0 < n < |states|
    ensures Step(c0, states[n - 1], events[n - 1], states[n])
    ensures ExclusiveStep(c0.id, states[n - 1], events[n - 1], states[n])
  {
  }

  lemma {:induction false} TraceKeeps(c0: Context, events: seq<Event>, states: seq<State>, n: nat)
    requires Trace(c0, events, states) && Exclusive(c0.id, events, states) && n < |states|
    requires forall r :: r in states[0].runs ==> !Owned(c0.id, r)
    ensures Deduplicated(c0.id, states[n].runs)
  {
    if n > 0 {
      TraceKeeps(c0, events, states, n - 1);
      TraceStep(c0, events, states, n);
      StepKeeps(c0, states[n - 1], events[n - 1], states[n], map[]);
    }
  }

  lemma {:induction false} TraceBuilt(c0: Context, events: seq<Event>, states: seq<State>, n: nat, fixed: LabelMap)
    requires Trace(c0, events, states) && Exclusive(c0.id, events, states) && n < |states|
    requires forall r :: r in states[0].runs ==> !Owned(c0.id, r)
    requires TemplateFixed(events, fixed)
    ensures BuiltFrom(c0.id, fixed, BRANCH_KEYS, states[n].runs)
  {
    if n > 0 {
      TraceBuilt(c0, events, states, n - 1, fixed);
      TraceKeeps(c0, events, states, n - 1);
      TraceStep(c0, events, states, n);
      StepKeeps(c0, states[n - 1], events[n - 1], states[n], fixed);
    }
  }

  /**
   * In every reachable state of every run, starting without runs of this trigger: two runs of the trigger never have
   * equal source labels; and while the template labels stay fixed, never the same branch and commit labels.
   */
  lemma AtMostOneRun(c0: Context, events: seq<Event>, states: seq<State>, n: nat)
    requires Trace(c0, events, states) && Exclusive(c0.id, events, states) && n < |states|
    requires forall r :: r in states[0].runs ==> !Owned(c0.id, r)
    ensures Deduplicated(c0.id, states[n].runs)
    ensures forall fixed, i, j :: TemplateFixed(events, fixed) && OwnedPair(c0.id, states[n].runs, i, j) ==>
              PairsDiffer(states[n].runs[i], states[n].runs[j])
  {
    TraceKeeps(c0, events, states, n);
    var runs := states[n].runs;
    forall fixed, i, j | TemplateFixed(events, fixed) && OwnedPair(c0.id, runs, i, j)
      ensures PairsDiffer(runs[i], runs[j])
    {
      TraceBuilt(c0, events, states, n, fixed);
      BuiltPairsDiffer(c0.id, fixed, runs, i, j);
    }
  }
}
