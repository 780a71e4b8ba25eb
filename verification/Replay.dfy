/**
 * How often a branch is attempted, over any number of reconciles: no replays, rejections gated by the trigger's
 * generation, transient failures retried, and requeueing that comes to rest.
 */
module Replay {
  import opened Util
  import opened Conditions
  import opened Runs
  import opened Branches
  import opened PullRequest
  import opened StartRuns
  import opened Reconcile
  import opened Isolation

  // ---- a slot that is not to be attempted ----

  /** At generation `g` (and every older one) the slot of branch `k` is not attempted while its commit stands. */
  ghost predicate Quiet(g: int, commit: string, slot: Option<Branch>) {
    slot.Some? && slot.value.commit == commit && !Eligible(slot.value.conditions, g)
  }

  lemma EligibleMonotone(conditions: seq<Condition>, g: int, h: int)
    requires g <= h && Eligible(conditions, g)
    ensures Eligible(conditions, h)
  {
    if conditions != [] {
      var i :| 0 <= i < |conditions| && StaleRejection(conditions[i], g);
      assert StaleRejection(conditions[i], h);
    }
  }

  lemma StatusKeepsQuiet(generation: int, now: int, cached: seq<Run>, b: Branch, g: int)
    ensures var s := StatusSlot(generation, now, cached, b);
            && s.commit == b.commit && s.details == b.details && s.name == b.name
            && (!Eligible(b.conditions, g) ==> !Eligible(s.conditions, g))
            && (Retryable(b.conditions, g) <==> Retryable(s.conditions, g))
            && (b.conditions != [] ==> s.conditions != [])
  {
    var run := Named(cached, b.latestPipelineRun);
    if run.Some? {
      CopyKeeps(generation, now, b.conditions, RunConditions(run.value), g);
    }
  }

  /** The branch stays listed (an empty poll aside), and where it is tracked it stands at this commit. */
  predicate Steady(before: BranchMap, y: Cycle, k: string, commit: string) {
    || y.elsewhere
    || (&& (SourceMap(y.source) != map[] ==> k in SourceMap(y.source))
        && (k in Synced(before, y) ==> Synced(before, y)[k].commit == commit))
  }

  /** Preparing a slot leaves it quiet at its own generation, and at every generation where it was quiet. */
  lemma PrepareQuiets(c: Context, now: int, b: Branch, g: int)
    ensures var s := PrepareSlot(c, now, b).slot;
            && s.commit == b.commit
            && !Eligible(s.conditions, c.generation)
            && (!Eligible(b.conditions, g) ==> !Eligible(s.conditions, g))
            && (Wants(c, b) ==> !Eligible(s.conditions, g))
  {
    var s := PrepareSlot(c, now, b).slot;
    if Eligible(b.conditions, c.generation) {
      assert s.conditions[0].reason != CREATE_REJECTED;
    }
  }

  /** A run that concerns the slot: restore on a transient failure, record anything else. */
  lemma ConcernedSlot(c: Context, now: int, before: Option<Branch>, slot: Branch, pr: Run, out: Outcome)
    requires SubMap(BranchLabels(c.oracle, slot), pr.labels)
    ensures var s := SettleSlot(c, now, before, slot, pr, out);
            && (out.Transient() ==> s == before)
            && (out.Rejected() ==> s == Some(slot.(latestPipelineRun := "",
                  conditions := [Conditions.CreateFailed(c.generation, now, out.err.message)])))
            && (!out.Failed? ==> s.Some? && s.value.commit == slot.commit && s.value.conditions == slot.conditions)
  {
    HasIntersectionIsSubMap(BranchLabels(c.oracle, slot), pr.labels);
  }

  lemma OneRejection(x: Condition, g: int)
    requires x.ctype == ERROR && x.reason == CREATE_REJECTED && x.observedGeneration == g
    ensures forall at :: Retryable([x], at) <==> g < at
  {
    forall at ensures Retryable([x], at) <==> g < at {
      assert Retryable([x], at) <==> StaleRejection([x][0], at);
    }
  }

  /**
   * What a run's own outcome leaves in its slot. A transient failure puts the snapshot back; anything else blocks the
   * slot up to the current generation, and success blocks it at every generation.
   */
  lemma OwnOutcome(c: Context, now: int, before: Option<Branch>, b: Branch, out: Outcome, g: int)
    requires Wants(c, b)
    ensures var s := SettleSlot(c, now, before, PrepareSlot(c, now, b).slot, RunFor(c, b), out);
            && (out.Transient() ==> s == before)
            && (!out.Transient() ==>
                  && s.Some? && s.value.commit == b.commit
                  && (g <= c.generation || !out.Failed? ==> !Eligible(s.value.conditions, g)))
  {
    var slot := PrepareSlot(c, now, b).slot;
    PrepareQuiets(c, now, b, g);
    RunForLabels(c, b);
    assert BranchLabels(c.oracle, slot) == BranchLabels(c.oracle, b);
    ConcernedSlot(c, now, before, slot, RunFor(c, b), out);
    if out.Rejected() {
      OneRejection(Conditions.CreateFailed(c.generation, now, out.err.message), c.generation);
    }
  }

  lemma SettledStaysQuiet(c: Context, before: BranchMap, y: Cycle, k: string, g: int, commit: string)
    requires ValidCycle(c, before, y) && !y.elsewhere
    requires Steady(before, y, k, commit) && Quiet(g, commit, Get(before, k))
    ensures Quiet(g, commit, SettledSlot(c, before, y, k))
    ensures Wants(c, before[k]) ==> c.generation > g
  {
    var synced := Synced(before, y);
    assert Get(synced, k) == Get(before, k);
    var b := synced[k];
    if Wants(c, b) {
      if c.generation <= g {
        EligibleMonotone(b.conditions, c.generation, g);
      }
      OwnOutcome(c, y.now, Get(before, k), b, OutcomeAt(c, before, y, k), g);
    } else {
      PrepareQuiets(c, y.now, b, g);
    }
  }

  /** A quiet branch stays quiet through any cycle of any generation, and is attempted only at a newer one. */
  lemma QuietStep(c: Context, before: BranchMap, y: Cycle, k: string, g: int, commit: string)
    requires ValidCycle(c, before, y) && Separate(c, before, y)
    requires Steady(before, y, k, commit) && Quiet(g, commit, Get(before, k))
    ensures Quiet(g, commit, Get(After(c, before, y), k))
    ensures k in y.order ==> c.generation > g
  {
    CycleIsPointwise(c, before, y, k);
    if y.elsewhere {
      StatusKeepsQuiet(c.generation, y.now, y.cached, before[k], g);
    } else {
      SettledStaysQuiet(c, before, y, k, g, commit);
      StatusKeepsQuiet(c.generation, y.now, y.cached, SettledSlot(c, before, y, k).value, g);
    }
  }

  /** An attempt that does not fail transiently quiets its branch; success quiets it for good. */
  lemma AttemptQuiets(c: Context, before: BranchMap, y: Cycle, k: string, g: int)
    requires ValidCycle(c, before, y) && Separate(c, before, y)
    requires k in y.order && !OutcomeAt(c, before, y, k).Transient()
    requires g <= c.generation || !OutcomeAt(c, before, y, k).Failed?
    ensures Quiet(g, Synced(before, y)[k].commit, Get(After(c, before, y), k))
  {
    CycleIsPointwise(c, before, y, k);
    OwnOutcome(c, y.now, Get(before, k), Synced(before, y)[k], OutcomeAt(c, before, y, k), g);
    StatusKeepsQuiet(c.generation, y.now, y.cached, SettledSlot(c, before, y, k).value, g);
  }

  // ---- sequences of cycles ----

  /**
   * Cycles run one after another on a persisted status; between them the source, the server, the cache and the
   * trigger's generation and template may change.
   */
  datatype History = History(contexts: seq<Context>, statuses: seq<BranchMap>, cycles: seq<Cycle>)

  ghost predicate Chained(h: History) {
    && |h.statuses| == |h.cycles| + 1 && |h.contexts| == |h.cycles|
    && forall i :: 0 <= i < |h.cycles| ==>
         && ValidCycle(h.contexts[i], h.statuses[i], h.cycles[i])
         && h.statuses[i + 1] == After(h.contexts[i], h.statuses[i], h.cycles[i])
  }

  /** And in each of them the branches stay apart. */
  ghost predicate ValidHistory(h: History) {
    Chained(h) && forall i :: 0 <= i < |h.cycles| ==> Separate(h.contexts[i], h.statuses[i], h.cycles[i])
  }

  ghost predicate LabelsDistinct(c: Context, before: BranchMap, y: Cycle) {
    DistinctLabels(c.oracle, Synced(before, y).Keys) && "" !in Synced(before, y)
  }

  lemma {:induction false} HistoryFiled(h: History, n: nat)
    requires Chained(h) && AllFiled(h.statuses[0]) && n < |h.statuses|
    ensures AllFiled(h.statuses[n])
  {
    if n > 0 {
      HistoryFiled(h, n - 1);
      CycleFiled(h.contexts[n - 1], h.statuses[n - 1], h.cycles[n - 1]);
    }
  }

  /**
   * All it takes is that the names tracked in each cycle have distinct name labels; the first status may be any that
   * can be stored, the one a managed error leaves on an empty trigger included.
   */
  lemma DistinctNamesHistory(h: History)
    requires Chained(h) && AllFiled(h.statuses[0])
    requires forall i :: 0 <= i < |h.cycles| ==> LabelsDistinct(h.contexts[i], h.statuses[i], h.cycles[i])
    ensures ValidHistory(h)
  {
    forall i | 0 <= i < |h.cycles| ensures Separate(h.contexts[i], h.statuses[i], h.cycles[i]) {
      HistoryFiled(h, i);
      DistinctNamesSeparate(h.contexts[i], h.statuses[i], h.cycles[i]);
    }
  }

  /** Branch `k` gets a run (created, or looked up first) in cycle `i`. */
  ghost predicate Attempt(h: History, i: nat, k: string)
    requires ValidHistory(h) && i < |h.cycles|
  {
    k in h.cycles[i].order
  }

  ghost function Result(h: History, i: nat, k: string): Outcome
    requires ValidHistory(h) && i < |h.cycles| && Attempt(h, i, k)
  {
    OutcomeAt(h.contexts[i], h.statuses[i], h.cycles[i], k)
  }

  ghost predicate SteadyThroughout(h: History, k: string, commit: string) {
    |h.statuses| > |h.cycles| && forall i :: 0 <= i < |h.cycles| ==> Steady(h.statuses[i], h.cycles[i], k, commit)
  }

  lemma {:induction false} StaysQuiet(h: History, k: string, commit: string, g: int, i: nat, j: nat)
    requires ValidHistory(h) && SteadyThroughout(h, k, commit) && i <= j < |h.statuses|
    requires Quiet(g, commit, Get(h.statuses[i], k))
    ensures Quiet(g, commit, Get(h.statuses[j], k))
  {
    if i < j {
      StaysQuiet(h, k, commit, g, i, j - 1);
      QuietStep(h.contexts[j - 1], h.statuses[j - 1], h.cycles[j - 1], k, g, commit);
    }
  }

  /**
   * The generation gate. While a branch stands at one commit, an attempt that did not fail transiently is followed
   * only by attempts at strictly newer generations; one that created or adopted a run is never followed by another.
   */
  lemma GenerationGate(h: History, k: string, commit: string, i: nat, j: nat)
    requires ValidHistory(h) && SteadyThroughout(h, k, commit) && i < j < |h.cycles|
    requires Attempt(h, i, k) && Attempt(h, j, k) && !Result(h, i, k).Transient()
    ensures Result(h, i, k).Rejected() && h.contexts[i].generation < h.contexts[j].generation
  {
    var c, d := h.contexts[i], h.contexts[j];
    var g := if Result(h, i, k).Failed? then c.generation else d.generation;
    AttemptQuiets(c, h.statuses[i], h.cycles[i], k, g);
    StaysQuiet(h, k, commit, g, i + 1, j);
    QuietStep(d, h.statuses[j], h.cycles[j], k, g, commit);
  }

  /** A slot blocked for another reason is never attempted, whatever generations follow. */
  lemma OtherErrorsNeverRetried(h: History, k: string, commit: string, i: nat, j: nat)
    requires ValidHistory(h) && SteadyThroughout(h, k, commit) && i <= j < |h.cycles|
    requires k in h.statuses[i] && h.statuses[i][k].commit == commit && h.statuses[i][k].conditions != []
    requires forall x :: x in h.statuses[i][k].conditions && x.ctype == ERROR ==> x.reason != CREATE_REJECTED
    ensures !Attempt(h, j, k)
  {
    var g := h.contexts[j].generation;
    StaysQuiet(h, k, commit, g, i, j);
    QuietStep(h.contexts[j], h.statuses[j], h.cycles[j], k, g, commit);
  }

  // ---- no replay ----

  function CountTrue(flags: seq<bool>): nat {
    if flags == [] then 0 else (if flags[0] then 1 else 0) + CountTrue(flags[1..])
  }

  /**
   * The counting behind it, for any slot: a quiet slot is not attempted and stays quiet, and an attempt that is not
   * counted as a transient failure makes it quiet. So attempts exceed transient failures by at most one, and only if
   * the slot was not quiet at first and is in the end.
   */
  lemma {:induction false} OnceMoreThanFailures(attempts: seq<bool>, failures: seq<bool>, quiet: seq<bool>)
    requires |attempts| == |failures| && |quiet| == |attempts| + 1
    requires forall i :: 0 <= i < |attempts| && quiet[i] ==> !attempts[i] && quiet[i + 1]
    requires forall i :: 0 <= i < |attempts| && attempts[i] && !failures[i] ==> quiet[i + 1]
    ensures CountTrue(attempts) <= CountTrue(failures) + if !quiet[0] && quiet[|attempts|] then 1 else 0
    decreases |attempts|
  {
    if attempts != [] {
      OnceMoreThanFailures(attempts[1..], failures[1..], quiet[1..]);
      StaysTrue(quiet[1..]);
    }
  }

  lemma {:induction false} StaysTrue(flags: seq<bool>)
    requires flags != [] && forall i :: 0 <= i < |flags| - 1 && flags[i] ==> flags[i + 1]
    ensures flags[0] ==> flags[|flags| - 1]
    decreases |flags|
  {
    if |flags| > 1 {
      StaysTrue(flags[1..]);
    }
  }

  ghost function Attempts(h: History, k: string, n: nat): seq<bool>
    requires ValidHistory(h) && n <= |h.cycles|
  {
    seq(n, i requires 0 <= i < n => Attempt(h, i, k))
  }

  ghost function TransientFailures(h: History, k: string, n: nat): seq<bool>
    requires ValidHistory(h) && n <= |h.cycles|
  {
    seq(n, i requires 0 <= i < n => Attempt(h, i, k) && Result(h, i, k).Transient())
  }

  ghost predicate OneGeneration(h: History, g: int) {
    forall i :: 0 <= i < |h.contexts| ==> h.contexts[i].generation == g
  }

  lemma NoReplayStep(h: History, k: string, commit: string, g: int, i: nat)
    requires ValidHistory(h) && SteadyThroughout(h, k, commit) && OneGeneration(h, g) && i < |h.cycles|
    ensures Quiet(g, commit, Get(h.statuses[i], k)) ==>
              !Attempt(h, i, k) && Quiet(g, commit, Get(h.statuses[i + 1], k))
    ensures Attempt(h, i, k) && !Result(h, i, k).Transient() ==> Quiet(g, commit, Get(h.statuses[i + 1], k))
  {
    var c, before, y := h.contexts[i], h.statuses[i], h.cycles[i];
    if Quiet(g, commit, Get(before, k)) {
      QuietStep(c, before, y, k, g, commit);
    } else if Attempt(h, i, k) && !Result(h, i, k).Transient() {
      AttemptQuiets(c, before, y, k, g);
    }
  }

  /**
   * No replay: at one generation, over any number of cycles and whatever the other branches do, a branch at one commit
   * is attempted at most once more than its own attempts fail transiently; when that one is spent, it is quiet.
   */
  lemma NoReplay(h: History, k: string, commit: string, g: int, n: nat)
    requires ValidHistory(h) && SteadyThroughout(h, k, commit) && OneGeneration(h, g) && n <= |h.cycles|
    ensures CountTrue(Attempts(h, k, n)) <= 1 + CountTrue(TransientFailures(h, k, n))
    ensures CountTrue(Attempts(h, k, n)) == 1 + CountTrue(TransientFailures(h, k, n)) ==>
              Quiet(g, commit, Get(h.statuses[n], k))
  {
    var quiet := seq(n + 1, i requires 0 <= i <= n => Quiet(g, commit, Get(h.statuses[i], k)));
    forall i | 0 <= i < n
      ensures quiet[i] ==> !Attempts(h, k, n)[i] && quiet[i + 1]
      ensures Attempts(h, k, n)[i] && !TransientFailures(h, k, n)[i] ==> quiet[i + 1]
    {
      NoReplayStep(h, k, commit, g, i);
    }
    OnceMoreThanFailures(Attempts(h, k, n), TransientFailures(h, k, n), quiet);
  }

  // ---- transient failures are retried ----

  /** Stored slots carry conditions: each slot of a processed status has been prepared at least once. */
  ghost predicate Conditioned(m: BranchMap) {
    forall k :: k in m ==> m[k].conditions != []
  }

  lemma {:induction false} HistoryConditioned(h: History, n: nat)
    requires ValidHistory(h) && Conditioned(h.statuses[0]) && n < |h.statuses|
    ensures Conditioned(h.statuses[n])
  {
    if n > 0 {
      HistoryConditioned(h, n - 1);
      var c, before, y := h.contexts[n - 1], h.statuses[n - 1], h.cycles[n - 1];
      forall k | k in h.statuses[n] ensures h.statuses[n][k].conditions != [] {
        CycleIsPointwise(c, before, y, k);
        if !y.elsewhere {
          SettledConditioned(c, before, y, k);
        }
        var settled := if y.elsewhere then before[k] else SettledSlot(c, before, y, k).value;
        StatusKeepsQuiet(c.generation, y.now, y.cached, settled, 0);
      }
    }
  }

  lemma SettledConditioned(c: Context, before: BranchMap, y: Cycle, k: string)
    requires ValidCycle(c, before, y) && !y.elsewhere && Conditioned(before)
    ensures SettledSlot(c, before, y, k).Some? ==> SettledSlot(c, before, y, k).value.conditions != []
  {
    var synced := Synced(before, y);
    if k in synced && Wants(c, synced[k]) {
      OwnOutcome(c, y.now, Get(before, k), synced[k], OutcomeAt(c, before, y, k), c.generation);
    }
  }

  /** The slot put back by a transient failure is prepared again by the next sync. */
  lemma RestoredIsWanted(c: Context, before: BranchMap, after: BranchMap, incoming: BranchMap, k: string)
    requires k in Sync(before, incoming) && Wants(c, Sync(before, incoming)[k])
    requires k in after <==> k in before
    requires k in before ==>
               && before[k].conditions != [] && after[k].commit == before[k].commit
               && after[k].name == before[k].name && after[k].details == before[k].details
               && (Retryable(before[k].conditions, c.generation) ==> Retryable(after[k].conditions, c.generation))
    ensures k in Sync(after, incoming) && Wants(c, Sync(after, incoming)[k])
    ensures RunFor(c, Sync(after, incoming)[k]) == RunFor(c, Sync(before, incoming)[k])
  {
    var b, again := Sync(before, incoming)[k], Sync(after, incoming)[k];
    assert again.name == b.name && again.commit == b.commit && again.details == b.details;
  }

  lemma TransientRestores(c: Context, before: BranchMap, y: Cycle, k: string)
    requires ValidCycle(c, before, y) && Separate(c, before, y)
    requires k in y.order && OutcomeAt(c, before, y, k).Transient()
    ensures Get(After(c, before, y), k)
         == if k in before then Some(StatusSlot(c.generation, y.now, y.cached, before[k])) else None
  {
    CycleIsPointwise(c, before, y, k);
    OwnOutcome(c, y.now, Get(before, k), Synced(before, y)[k], OutcomeAt(c, before, y, k), c.generation);
  }

  /**
   * A branch whose attempt failed transiently is attempted again in the next cycle, with the same run: same labels,
   * same parameters, same name.
   */
  lemma TransientIsRetried(h: History, k: string, i: nat)
    requires ValidHistory(h) && Conditioned(h.statuses[0]) && i + 1 < |h.cycles|
    requires h.contexts[i + 1] == h.contexts[i] && h.cycles[i + 1].source == h.cycles[i].source
    requires !h.cycles[i + 1].elsewhere
    requires Attempt(h, i, k) && Result(h, i, k).Transient()
    ensures Attempt(h, i + 1, k)
    ensures RunFor(h.contexts[i], Synced(h.statuses[i + 1], h.cycles[i + 1])[k])
         == RunFor(h.contexts[i], Synced(h.statuses[i], h.cycles[i])[k])
  {
    var c, before, y := h.contexts[i], h.statuses[i], h.cycles[i];
    HistoryConditioned(h, i);
    TransientRestores(c, before, y, k);
    if k in before {
      StatusKeepsQuiet(c.generation, y.now, y.cached, before[k], c.generation);
    }
    RestoredIsWanted(c, before, h.statuses[i + 1], SourceMap(y.source), k);
  }

  // ---- requeueing comes to rest ----

  /** Cycles at one generation and template, on one source list; branches may collide. */
  ghost predicate FixedInputs(h: History, c: Context, source: seq<SourceBranch>) {
    Chained(h) && forall i :: 0 <= i < |h.cycles| ==>
      h.contexts[i] == c && (h.cycles[i].elsewhere || h.cycles[i].source == source)
  }

  ghost predicate NoneEligible(c: Context, m: BranchMap) {
    forall k :: k in m ==> !Eligible(m[k].conditions, c.generation)
  }

  /** Nothing is eligible and the source has nothing new. */
  ghost predicate AtRest(c: Context, incoming: BranchMap, m: BranchMap) {
    NoneEligible(c, m) && forall k :: k in incoming ==> k in m && m[k].commit == incoming[k].commit
  }

  lemma SettleAtRest(c: Context, now: int, incoming: BranchMap, before: BranchMap, pr: Run, out: Outcome, m: BranchMap)
    requires AtRest(c, incoming, m) && !out.Transient()
    ensures AtRest(c, incoming, Settle(c, now, before, pr, out, m))
  {
    forall k | k in m
      ensures var s := SettleSlot(c, now, Get(before, k), m[k], pr, out);
              s.Some? && s.value.commit == m[k].commit && !Eligible(s.value.conditions, c.generation)
    {}
  }

  lemma {:induction false} SettleAllAtRest(c: Context, now: int, incoming: BranchMap, before: BranchMap, m: BranchMap,
                                           prs: seq<Run>, outs: seq<Outcome>)
    requires AtRest(c, incoming, m) && |prs| == |outs| && CountTransient(outs) == 0
    ensures AtRest(c, incoming, SettleAll(c, now, before, m, prs, outs))
    decreases |prs|
  {
    if prs != [] {
      SettleAtRest(c, now, incoming, before, prs[0], outs[0], m);
      SettleAllAtRest(c, now, incoming, before, Settle(c, now, before, prs[0], outs[0], m), prs[1..], outs[1..]);
    }
  }

  lemma StatusAtRest(c: Context, now: int, cached: seq<Run>, incoming: BranchMap, m: BranchMap)
    requires AtRest(c, incoming, m)
    ensures AtRest(c, incoming, StatusAll(c.generation, now, cached, m))
  {
    forall k | k in m
      ensures StatusSlot(c.generation, now, cached, m[k]).commit == m[k].commit
      ensures !Eligible(StatusSlot(c.generation, now, cached, m[k]).conditions, c.generation)
    {
      StatusKeepsQuiet(c.generation, now, cached, m[k], c.generation);
    }
  }

  ghost function CycleTransients(c: Context, before: BranchMap, y: Cycle): nat
    requires ValidCycle(c, before, y)
  {
    if y.elsewhere then 0
    else CountTransient(Outcomes(c, y.cached, y.runs, PreparedRuns(c, Synced(before, y), y.order), y.replies))
  }

  /** A cycle requeues exactly when some attempt failed transiently. */
  lemma RequeuesIffTransient(c: Context, before: BranchMap, y: Cycle)
    requires ValidCycle(c, before, y)
    ensures Requeues(c, before, y) <==> CycleTransients(c, before, y) > 0
  {
    if !y.elsewhere {
      StartAllResult(c, y.now, before, y.cached, World(PrepareAll(c, y.now, Synced(before, y)), y.runs, NOTHING),
                     PreparedRuns(c, Synced(before, y), y.order), y.replies);
    }
  }

  /** On the reasons themselves: one prepared run met an error that is neither 422 nor 400. */
  lemma RequeuesOnReasons(c: Context, before: BranchMap, y: Cycle)
    requires ValidCycle(c, before, y) && !y.elsewhere
    ensures var outs := Outcomes(c, y.cached, y.runs, PreparedRuns(c, Synced(before, y), y.order), y.replies);
            Requeues(c, before, y) <==>
              exists i :: 0 <= i < |outs| && outs[i].Failed? && outs[i].err.reason !in {Invalid, BadRequest}
  {
    RequeuesIffTransient(c, before, y);
    TransientOnReasons(Outcomes(c, y.cached, y.runs, PreparedRuns(c, Synced(before, y), y.order), y.replies));
  }

  lemma NoRequeueComesToRest(c: Context, before: BranchMap, y: Cycle)
    requires ValidCycle(c, before, y) && !y.elsewhere && !Requeues(c, before, y)
    ensures AtRest(c, SourceMap(y.source), After(c, before, y))
  {
    var synced := Synced(before, y);
    var m := PrepareAll(c, y.now, synced);
    var prs := PreparedRuns(c, synced, y.order);
    RequeuesIffTransient(c, before, y);
    forall k | k in synced
      ensures m[k].commit == synced[k].commit && !Eligible(m[k].conditions, c.generation)
    {
      PrepareQuiets(c, y.now, synced[k], c.generation);
    }
    assert AtRest(c, SourceMap(y.source), m);
    StartAllSettles(c, y.now, before, y.cached, World(m, y.runs, NOTHING), prs, y.replies);
    SettleAllAtRest(c, y.now, SourceMap(y.source), before, m, prs, Outcomes(c, y.cached, y.runs, prs, y.replies));
    StatusAtRest(c, y.now, y.cached, SourceMap(y.source), Settled(c, before, y).branches);
  }

  lemma HasMember<T>(s: seq<T>)
    requires s != []
    ensures exists x :: x in s
  {
    assert s[0] in s;
  }

  lemma RestStays(c: Context, before: BranchMap, y: Cycle, source: seq<SourceBranch>)
    requires ValidCycle(c, before, y) && (y.elsewhere || y.source == source)
    requires AtRest(c, SourceMap(source), before)
    ensures y.order == [] && !Requeues(c, before, y)
    ensures AtRest(c, SourceMap(source), After(c, before, y))
  {
    if y.elsewhere {
      StatusAtRest(c, y.now, y.cached, SourceMap(source), before);
    } else {
      var synced := Synced(before, y);
      assert forall k :: k in synced ==> synced[k] == before[k];
      assert forall k :: k in synced ==> !Wants(c, synced[k]);
      if y.order != [] {
        HasMember(y.order);
      }
      RequeuesIffTransient(c, before, y);
      NoRequeueComesToRest(c, before, y);
    }
  }

  /** Transient failures in cycle `i`; none means, by RequeuesIffTransient, that it does not requeue. */
  ghost function TransientsAt(h: History, c: Context, source: seq<SourceBranch>, i: nat): nat
    requires FixedInputs(h, c, source) && i < |h.cycles|
  {
    CycleTransients(c, h.statuses[i], h.cycles[i])
  }

  lemma RestAfter(h: History, c: Context, source: seq<SourceBranch>, i: nat)
    requires FixedInputs(h, c, source) && i < |h.cycles|
    requires !h.cycles[i].elsewhere && TransientsAt(h, c, source, i) == 0
    ensures AtRest(c, SourceMap(source), h.statuses[i + 1])
  {
    RequeuesIffTransient(c, h.statuses[i], h.cycles[i]);
    NoRequeueComesToRest(c, h.statuses[i], h.cycles[i]);
  }

  lemma RestNext(h: History, c: Context, source: seq<SourceBranch>, i: nat)
    requires FixedInputs(h, c, source) && i < |h.cycles| && AtRest(c, SourceMap(source), h.statuses[i])
    ensures AtRest(c, SourceMap(source), h.statuses[i + 1])
  {
    RestStays(c, h.statuses[i], h.cycles[i], source);
  }

  lemma {:induction false} StaysAtRest(h: History, c: Context, source: seq<SourceBranch>, i: nat, j: nat)
    requires FixedInputs(h, c, source) && i <= j < |h.statuses| && AtRest(c, SourceMap(source), h.statuses[i])
    ensures AtRest(c, SourceMap(source), h.statuses[j])
  {
    if i < j {
      StaysAtRest(h, c, source, i, j - 1);
      RestNext(h, c, source, j - 1);
    }
  }

  /** After one cycle without a transient failure, no later cycle prepares a run or requeues. */
  lemma Quiescence(h: History, c: Context, source: seq<SourceBranch>, i: nat, j: nat)
    requires FixedInputs(h, c, source) && i < j < |h.cycles|
    requires !h.cycles[i].elsewhere && TransientsAt(h, c, source, i) == 0
    ensures h.cycles[j].order == [] && !Requeues(c, h.statuses[j], h.cycles[j])
  {
    RestAfter(h, c, source, i);
    StaysAtRest(h, c, source, i + 1, j);
    RestStays(c, h.statuses[j], h.cycles[j], source);
  }

  /** The transient failures of each cycle. */
  ghost function TransientsPerCycle(h: History, c: Context, source: seq<SourceBranch>): seq<nat>
    requires FixedInputs(h, c, source)
  {
    seq(|h.cycles|, i requires 0 <= i < |h.cycles| => TransientsAt(h, c, source, i))
  }

  function Sum(s: seq<nat>): nat {
    if s == [] then 0 else s[0] + Sum(s[1..])
  }

  /** A sum below the number of terms plus one: some early term is zero. */
  lemma {:induction false} EarlyZero(s: seq<nat>, budget: nat)
    requires Sum(s) <= budget < |s|
    ensures exists i :: 0 <= i <= budget && s[i] == 0
  {
    if s[0] != 0 {
      EarlyZero(s[1..], budget - s[0]);
      var i :| 0 <= i <= budget - s[0] && s[1..][i] == 0;
      assert s[i + 1] == 0;
    }
  }

  /** If the server fails transiently at most `budget` times in all, cycles past the first `budget + 1` do nothing. */
  lemma RestsWithinBudget(h: History, c: Context, source: seq<SourceBranch>, budget: nat, j: nat)
    requires FixedInputs(h, c, source) && Sum(TransientsPerCycle(h, c, source)) <= budget
    requires forall i :: 0 <= i < |h.cycles| ==> !h.cycles[i].elsewhere
    requires budget < j < |h.cycles|
    ensures h.cycles[j].order == [] && !Requeues(c, h.statuses[j], h.cycles[j])
  {
    EarlyZero(TransientsPerCycle(h, c, source), budget);
    var i :| 0 <= i <= budget && TransientsPerCycle(h, c, source)[i] == 0;
    Quiescence(h, c, source, i, j);
  }

  /** Which cycles requeue. */
  ghost function RequeueFlags(h: History, c: Context, source: seq<SourceBranch>): seq<bool>
    requires FixedInputs(h, c, source)
  {
    seq(|h.cycles|, i requires 0 <= i < |h.cycles| => Requeues(c, h.statuses[i], h.cycles[i]))
  }

  lemma {:induction false} CountTrueWithinSum(flags: seq<bool>, s: seq<nat>)
    requires |flags| == |s| && forall i :: 0 <= i < |s| ==> flags[i] ==> s[i] > 0
    ensures CountTrue(flags) <= Sum(s)
  {
    if s != [] {
      CountTrueWithinSum(flags[1..], s[1..]);
    }
  }

  /** Each requeue is paid for by a transient failure: `budget` failures in all bring at most `budget` requeues. */
  lemma RequeuesWithinBudget(h: History, c: Context, source: seq<SourceBranch>, budget: nat)
    requires FixedInputs(h, c, source) && Sum(TransientsPerCycle(h, c, source)) <= budget
    ensures CountTrue(RequeueFlags(h, c, source)) <= budget
  {
    forall i | 0 <= i < |h.cycles| && RequeueFlags(h, c, source)[i] ensures TransientsPerCycle(h, c, source)[i] > 0 {
      RequeuesIffTransient(c, h.statuses[i], h.cycles[i]);
    }
    CountTrueWithinSum(RequeueFlags(h, c, source), TransientsPerCycle(h, c, source));
  }

  // ---- retrying a rejected branch after a spec edit ----

  /** The slot stands at `commit` with nothing but a rejection recorded at generation `g`, and its details blanked. */
  ghost predicate RejectedAt(g: int, commit: string, slot: Option<Branch>) {
    && slot.Some? && slot.value.commit == commit && slot.value.details == "" && slot.value.conditions != []
    && forall at :: Retryable(slot.value.conditions, at) <==> g < at
  }

  /** The slot is never attempted again at `commit`, whatever the generation. */
  ghost predicate Blocked(commit: string, slot: Option<Branch>) {
    forall g :: Quiet(g, commit, slot)
  }

  /** Cycle `m` looks at the slot of a rejection recorded at generation `g`. */
  predicate Chance(c: Context, y: Cycle, g: int) {
    !y.elsewhere && g < c.generation
  }

  lemma CopyingKeepsRejected(c: Context, y: Cycle, g: int, commit: string, b: Branch)
    requires RejectedAt(g, commit, Some(b))
    ensures RejectedAt(g, commit, Some(StatusSlot(c.generation, y.now, y.cached, b)))
  {
    StatusKeepsQuiet(c.generation, y.now, y.cached, b, g);
    forall at ensures Retryable(StatusSlot(c.generation, y.now, y.cached, b).conditions, at) <==> g < at {
      StatusKeepsQuiet(c.generation, y.now, y.cached, b, at);
    }
  }

  lemma RejectionRecorded(c: Context, before: BranchMap, y: Cycle, k: string)
    requires ValidCycle(c, before, y) && Separate(c, before, y)
    requires k in y.order && OutcomeAt(c, before, y, k).Rejected()
    ensures RejectedAt(c.generation, Synced(before, y)[k].commit, Get(After(c, before, y), k))
  {
    var b, out := Synced(before, y)[k], OutcomeAt(c, before, y, k);
    SettledShows(c, before, y, k);
    var rejected := Settled(c, before, y).branches[k];
    OneRejection(rejected.conditions[0], c.generation);
    CopyingKeepsRejected(c, y, c.generation, b.commit, rejected);
  }

  lemma BlockedStep(c: Context, before: BranchMap, y: Cycle, k: string, commit: string)
    requires ValidCycle(c, before, y) && Separate(c, before, y)
    requires Steady(before, y, k, commit) && Blocked(commit, Get(before, k))
    ensures Blocked(commit, Get(After(c, before, y), k)) && k !in y.order
  {
    forall g ensures Quiet(g, commit, Get(After(c, before, y), k)) {
      assert Quiet(g, commit, Get(before, k));
      QuietStep(c, before, y, k, g, commit);
    }
    assert Quiet(c.generation, commit, Get(before, k));
    QuietStep(c, before, y, k, c.generation, commit);
  }

  /**
   * What one cycle does to a recorded rejection: it is attempted exactly when the cycle has its chance and the template
   * needs no details; missing the parameters spends the chance for good, a transient failure does not.
   */
  lemma RejectedStep(c: Context, before: BranchMap, y: Cycle, k: string, g: int, commit: string)
    requires ValidCycle(c, before, y) && Separate(c, before, y)
    requires Steady(before, y, k, commit) && RejectedAt(g, commit, Get(before, k))
    ensures k in y.order <==> Chance(c, y, g) && ParamsOk(c, "")
    ensures Chance(c, y, g) && !ParamsOk(c, "") ==> Blocked(commit, Get(After(c, before, y), k))
    ensures !Chance(c, y, g) || (k in y.order && OutcomeAt(c, before, y, k).Transient()) ==>
              RejectedAt(g, commit, Get(After(c, before, y), k))
  {
    CycleIsPointwise(c, before, y, k);
    if y.elsewhere {
      CopyingKeepsRejected(c, y, g, commit, before[k]);
    } else {
      var b := Synced(before, y)[k];
      assert Get(Synced(before, y), k) == Get(before, k);
      assert Eligible(b.conditions, c.generation) <==> g < c.generation;
      if Wants(c, b) {
        OwnOutcome(c, y.now, Get(before, k), b, OutcomeAt(c, before, y, k), c.generation);
        CopyingKeepsRejected(c, y, g, commit, b);
      } else if g < c.generation {
        var failed := SettledSlot(c, before, y, k).value;
        assert failed.conditions[0].reason != CREATE_REJECTED;
        forall at ensures Quiet(at, commit, Get(After(c, before, y), k)) {
          StatusKeepsQuiet(c.generation, y.now, y.cached, failed, at);
        }
      } else {
        CopyingKeepsRejected(c, y, g, commit, b);
      }
    }
  }

  /** Until cycle `j` every chance since the rejection in cycle `i` met a template that needs no details. */
  ghost predicate ChancesUsable(h: History, i: nat, j: nat)
    requires ValidHistory(h) && i < j <= |h.cycles|
  {
    forall m :: i < m < j && Chance(h.contexts[m], h.cycles[m], h.contexts[i].generation) ==>
      ParamsOk(h.contexts[m], "")
  }

  /** Every attempt strictly between the two cycles failed transiently. */
  ghost predicate OnlyTransientBetween(h: History, k: string, i: nat, j: nat)
    requires ValidHistory(h) && i < j <= |h.cycles|
  {
    forall m :: i < m < j && Attempt(h, m, k) ==> Result(h, m, k).Transient()
  }

  lemma RejectedFirst(h: History, k: string, commit: string, i: nat)
    requires ValidHistory(h) && SteadyThroughout(h, k, commit) && i < |h.cycles|
    requires Attempt(h, i, k) && Result(h, i, k).Rejected()
    ensures RejectedAt(h.contexts[i].generation, commit, Get(h.statuses[i + 1], k))
  {
    RejectionRecorded(h.contexts[i], h.statuses[i], h.cycles[i], k);
  }

  lemma RejectedNext(h: History, k: string, commit: string, g: int, m: nat)
    requires ValidHistory(h) && SteadyThroughout(h, k, commit) && m < |h.cycles|
    requires Attempt(h, m, k) ==> Result(h, m, k).Transient()
    requires RejectedAt(g, commit, Get(h.statuses[m], k))
    ensures if Chance(h.contexts[m], h.cycles[m], g) && !ParamsOk(h.contexts[m], "")
            then Blocked(commit, Get(h.statuses[m + 1], k)) else RejectedAt(g, commit, Get(h.statuses[m + 1], k))
  {
    RejectedStep(h.contexts[m], h.statuses[m], h.cycles[m], k, g, commit);
  }

  lemma BlockedNext(h: History, k: string, commit: string, m: nat)
    requires ValidHistory(h) && SteadyThroughout(h, k, commit) && m < |h.cycles|
    requires Blocked(commit, Get(h.statuses[m], k))
    ensures Blocked(commit, Get(h.statuses[m + 1], k)) && !Attempt(h, m, k)
  {
    BlockedStep(h.contexts[m], h.statuses[m], h.cycles[m], k, commit);
  }

  lemma UsableNext(h: History, i: nat, m: nat)
    requires ValidHistory(h) && i < m < |h.cycles|
    ensures ChancesUsable(h, i, m + 1) <==>
              && ChancesUsable(h, i, m)
              && (Chance(h.contexts[m], h.cycles[m], h.contexts[i].generation) ==> ParamsOk(h.contexts[m], ""))
  {
  }

  lemma {:induction false} RejectedUntil(h: History, k: string, commit: string, i: nat, j: nat)
    requires ValidHistory(h) && SteadyThroughout(h, k, commit) && i < j <= |h.cycles|
    requires Attempt(h, i, k) && Result(h, i, k).Rejected() && OnlyTransientBetween(h, k, i, j)
    ensures if ChancesUsable(h, i, j) then RejectedAt(h.contexts[i].generation, commit, Get(h.statuses[j], k))
            else Blocked(commit, Get(h.statuses[j], k))
  {
    var m := j - 1;
    if i == m {
      RejectedFirst(h, k, commit, i);
    } else {
      assert OnlyTransientBetween(h, k, i, m);
      RejectedUntil(h, k, commit, i, m);
      UsableNext(h, i, m);
      if ChancesUsable(h, i, m) {
        RejectedNext(h, k, commit, h.contexts[i].generation, m);
      } else {
        BlockedNext(h, k, commit, m);
      }
    }
  }

  /**
   * Exactly when a rejected branch gets another run at its commit. The generation must have moved on and the new
   * template must not need the branch details, which were blanked when the rejected run was prepared; and the same
   * template condition must have held at every earlier chance since, for a chance missed is the last. Attempts in
   * between are taken to have failed transiently: after any other, GenerationGate says that there are no more, or the
   * rejection to count from is a later one.
   */
  lemma RejectedRetriedIff(h: History, k: string, commit: string, i: nat, j: nat)
    requires ValidHistory(h) && SteadyThroughout(h, k, commit) && i < j < |h.cycles|
    requires Attempt(h, i, k) && Result(h, i, k).Rejected() && OnlyTransientBetween(h, k, i, j)
    ensures Attempt(h, j, k) <==>
              && Chance(h.contexts[j], h.cycles[j], h.contexts[i].generation) && ParamsOk(h.contexts[j], "")
              && ChancesUsable(h, i, j)
  {
    RejectedUntil(h, k, commit, i, j);
    if ChancesUsable(h, i, j) {
      RejectedStep(h.contexts[j], h.statuses[j], h.cycles[j], k, h.contexts[i].generation, commit);
    } else {
      BlockedNext(h, k, commit, j);
    }
  }

  /** An empty details document is not JSON, so no expression evaluates on it. */
  ghost predicate EmptyNeverEvaluates(o: Oracle) {
    forall e :: !o.evaluates("", e)
  }

  /** A template needs no details exactly when none of its parameters contains '$'. */
  lemma BlankDetailsSuffice(c: Context)
    requires EmptyNeverEvaluates(c.oracle)
    ensures ParamsOk(c, "") <==> forall p :: p in c.template.params ==> '$' !in p.value
  {
  }

  /**
   * A managed error replaces the rejection, both being of type Error: no branch it touched is ever retried at its
   * commit.
   */
  lemma ManagedNeverRetried(h: History, k: string, c: Context, now: int, message: string, m: BranchMap, j: nat)
    requires ValidHistory(h) && j < |h.cycles| && h.statuses[0] == ManageAll(c.generation, now, message, m)
    requires k in h.statuses[0] && SteadyThroughout(h, k, h.statuses[0][k].commit)
    ensures !Attempt(h, j, k)
  {
    var b := if m == map[] then Branch("", "", "", "", []) else m[k];
    ReplacedContents(b.conditions, Failure(c.generation, now, message));
    assert h.statuses[0][k].conditions == Replaced(b.conditions, Failure(c.generation, now, message));
    assert Failure(c.generation, now, message) in h.statuses[0][k].conditions;
    OtherErrorsNeverRetried(h, k, h.statuses[0][k].commit, 0, j);
  }
}
