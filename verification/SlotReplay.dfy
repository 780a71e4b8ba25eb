/**
 * How often a single slot is attempted, over any number of reconciles on a persisted status: the single-slot
 * counterpart of module Replay. What differs is that a transient failure leaves an Error on the restored slot.
 */
module SlotReplay {
  import opened Conditions
  import opened Runs
  import opened Branches
  import opened StartRuns
  import opened SingleSlot
  import opened Replay

  /** What one reconcile meets; `running` says that it skips the create block. */
  datatype SlotCycle = SlotCycle(
    running: bool, incoming: Revision, cached: seq<Run>, runs: seq<Run>, reply: Reply, now: int)

  function SlotAfter(c: Context, marshal: Marshal, v: SlotView, y: SlotCycle): SlotView {
    CycleView(c, marshal, y.now, y.running, v, y.incoming, y.cached, y.runs, y.reply)
  }

  /** The slot gets a run (created, or looked up first). */
  predicate Attempted(c: Context, marshal: Marshal, v: SlotView, y: SlotCycle) {
    !y.running && SlotWants(c, SyncView(marshal, v, y.incoming))
  }

  function OutcomeIn(c: Context, marshal: Marshal, v: SlotView, y: SlotCycle): Outcome {
    OutcomeOf(c, SlotRun(c, SyncView(marshal, v, y.incoming)), y.cached, y.runs, y.reply)
  }

  // ---- one cycle ----

  /** At generation `g` (and every older one) the slot is not attempted while the source stays at `r`. */
  predicate SlotQuiet(g: int, r: Revision, v: SlotView) {
    v.revision == r && !Eligible(v.conditions, g)
  }

  /** At no generation. */
  ghost predicate SlotBlocked(r: Revision, v: SlotView) {
    forall g :: SlotQuiet(g, r, v)
  }

  predicate SlotSteady(y: SlotCycle, r: Revision) {
    y.running || y.incoming == r
  }

  lemma CopyingKeepsQuiet(c: Context, y: SlotCycle, v: SlotView, g: int, r: Revision)
    requires SlotQuiet(g, r, v)
    ensures SlotQuiet(g, r, StatusView(c.generation, y.now, y.cached, v))
  {
    StatusKeepsView(c.generation, y.now, y.cached, v, g);
  }

  /**
   * What an attempt leaves: anything but a transient failure quiets the slot, and so does one on a restored revision
   * `r`.
   */
  lemma AttemptLeaves(c: Context, marshal: Marshal, v: SlotView, y: SlotCycle, g: int)
    requires Attempted(c, marshal, v, y)
    requires var out := OutcomeIn(c, marshal, v, y);
             if out.Transient() then v.revision == y.incoming else g <= c.generation || !out.Failed?
    ensures SlotQuiet(g, y.incoming, SlotAfter(c, marshal, v, y))
  {
    var out := OutcomeIn(c, marshal, v, y);
    var synced := SyncView(marshal, v, y.incoming);
    var settled := SettleView(c, y.now, v, PrepareView(c, y.now, synced), out);
    if out.Transient() {
      FailureBlocksForever(v.conditions, g, c.generation, y.now, out.err.message);
    } else {
      assert !StaleRejection(settled.conditions[0], g);
    }
    CopyingKeepsQuiet(c, y, settled, g, y.incoming);
  }

  /** A quiet slot stays quiet through any cycle of any generation, and is attempted only at a newer one. */
  lemma SlotQuietStep(c: Context, marshal: Marshal, v: SlotView, y: SlotCycle, g: int, r: Revision)
    requires SlotQuiet(g, r, v) && SlotSteady(y, r)
    ensures SlotQuiet(g, r, SlotAfter(c, marshal, v, y))
    ensures Attempted(c, marshal, v, y) ==> c.generation > g
  {
    if Eligible(v.conditions, c.generation) && c.generation <= g {
      EligibleMonotone(v.conditions, c.generation, g);
    }
    if Attempted(c, marshal, v, y) {
      AttemptLeaves(c, marshal, v, y, g);
    } else {
      var settled := if y.running then v else PrepareView(c, y.now, v);
      assert settled != v ==> settled.conditions[0].reason != CREATE_REJECTED;
      CopyingKeepsQuiet(c, y, settled, g, r);
    }
  }

  /** A slot looked at and not left to a transient failure is quiet at its generation, whether it got a run or not. */
  lemma LookedAtIsQuiet(c: Context, marshal: Marshal, v: SlotView, y: SlotCycle)
    requires !y.running && !(Attempted(c, marshal, v, y) && OutcomeIn(c, marshal, v, y).Transient())
    ensures SlotQuiet(c.generation, y.incoming, SlotAfter(c, marshal, v, y))
  {
    if Attempted(c, marshal, v, y) {
      AttemptLeaves(c, marshal, v, y, c.generation);
    } else {
      var prepared := PrepareView(c, y.now, SyncView(marshal, v, y.incoming));
      assert Eligible(SyncView(marshal, v, y.incoming).conditions, c.generation) ==>
               prepared.conditions[0].reason != CREATE_REJECTED;
      CopyingKeepsQuiet(c, y, prepared, c.generation, y.incoming);
    }
  }

  // ---- sequences of cycles ----

  /** Between cycles the source, the server, the cache and the trigger's generation and template may change. */
  datatype SlotHistory = SlotHistory(
    marshal: Marshal, contexts: seq<Context>, views: seq<SlotView>, cycles: seq<SlotCycle>)

  ghost predicate ValidSlotHistory(h: SlotHistory) {
    && |h.views| == |h.cycles| + 1 && |h.contexts| == |h.cycles|
    && forall i :: 0 <= i < |h.cycles| ==>
         h.views[i + 1] == SlotAfter(h.contexts[i], h.marshal, h.views[i], h.cycles[i])
  }

  ghost predicate AtRevision(h: SlotHistory, r: Revision) {
    forall i :: 0 <= i < |h.cycles| ==> SlotSteady(h.cycles[i], r)
  }

  ghost predicate SlotAttempt(h: SlotHistory, i: nat)
    requires ValidSlotHistory(h) && i < |h.cycles|
  {
    Attempted(h.contexts[i], h.marshal, h.views[i], h.cycles[i])
  }

  ghost function SlotResult(h: SlotHistory, i: nat): Outcome
    requires ValidSlotHistory(h) && i < |h.cycles| && SlotAttempt(h, i)
  {
    OutcomeIn(h.contexts[i], h.marshal, h.views[i], h.cycles[i])
  }

  /** Cycle `i` fails transiently: exactly then it requeues. */
  ghost predicate SlotFails(h: SlotHistory, i: nat)
    requires ValidSlotHistory(h) && i < |h.cycles|
  {
    SlotAttempt(h, i) && SlotResult(h, i).Transient()
  }

  lemma {:induction false} SlotStaysQuiet(h: SlotHistory, g: int, r: Revision, i: nat, j: nat)
    requires ValidSlotHistory(h) && AtRevision(h, r) && i <= j < |h.views| && SlotQuiet(g, r, h.views[i])
    ensures SlotQuiet(g, r, h.views[j])
  {
    if i < j {
      SlotStaysQuiet(h, g, r, i, j - 1);
      SlotQuietStep(h.contexts[j - 1], h.marshal, h.views[j - 1], h.cycles[j - 1], g, r);
    }
  }

  /** A slot quiet at every generation is never attempted again while the source stays. */
  lemma SlotBlockedStays(h: SlotHistory, r: Revision, i: nat, j: nat)
    requires ValidSlotHistory(h) && AtRevision(h, r) && i <= j < |h.views| && SlotBlocked(r, h.views[i])
    ensures SlotBlocked(r, h.views[j])
    ensures j < |h.cycles| ==> !SlotAttempt(h, j)
  {
    forall g ensures SlotQuiet(g, r, h.views[j]) {
      assert SlotQuiet(g, r, h.views[i]);
      SlotStaysQuiet(h, g, r, i, j);
    }
    if j < |h.cycles| {
      var g := h.contexts[j].generation;
      assert SlotQuiet(g, r, h.views[j]);
      SlotQuietStep(h.contexts[j], h.marshal, h.views[j], h.cycles[j], g, r);
    }
  }

  /**
   * The generation gate. At one revision, after an attempt that did not fail transiently only strictly newer
   * generations attempt again, and only if it was rejected.
   */
  lemma SlotGenerationGate(h: SlotHistory, r: Revision, i: nat, j: nat)
    requires ValidSlotHistory(h) && AtRevision(h, r) && i < j < |h.cycles|
    requires SlotAttempt(h, i) && SlotAttempt(h, j) && !SlotResult(h, i).Transient()
    ensures SlotResult(h, i).Rejected() && h.contexts[i].generation < h.contexts[j].generation
  {
    var c, d := h.contexts[i], h.contexts[j];
    var g := if SlotResult(h, i).Failed? then c.generation else d.generation;
    AttemptLeaves(c, h.marshal, h.views[i], h.cycles[i], g);
    SlotStaysQuiet(h, g, r, i + 1, j);
    SlotQuietStep(d, h.marshal, h.views[j], h.cycles[j], g, r);
  }

  // ---- no replay, and rest ----

  ghost function SlotAttempts(h: SlotHistory, n: nat): seq<bool>
    requires ValidSlotHistory(h) && n <= |h.cycles|
  {
    seq(n, i requires 0 <= i < n => SlotAttempt(h, i))
  }

  ghost function SlotFailures(h: SlotHistory, n: nat): seq<bool>
    requires ValidSlotHistory(h) && n <= |h.cycles|
  {
    seq(n, i requires 0 <= i < n => SlotFails(h, i))
  }

  ghost predicate SlotOneGeneration(h: SlotHistory, g: int) {
    forall i :: 0 <= i < |h.contexts| ==> h.contexts[i].generation == g
  }

  /** At one generation and revision, a slot is attempted at most once more than its attempts fail transiently. */
  lemma SlotNoReplay(h: SlotHistory, r: Revision, g: int, n: nat)
    requires ValidSlotHistory(h) && AtRevision(h, r) && SlotOneGeneration(h, g) && n <= |h.cycles|
    ensures CountTrue(SlotAttempts(h, n)) <= 1 + CountTrue(SlotFailures(h, n))
    ensures CountTrue(SlotAttempts(h, n)) == 1 + CountTrue(SlotFailures(h, n)) ==> SlotQuiet(g, r, h.views[n])
  {
    var quiet := seq(n + 1, i requires 0 <= i <= n => SlotQuiet(g, r, h.views[i]));
    forall i | 0 <= i < n
      ensures quiet[i] ==> !SlotAttempts(h, n)[i] && quiet[i + 1]
      ensures SlotAttempts(h, n)[i] && !SlotFailures(h, n)[i] ==> quiet[i + 1]
    {
      if quiet[i] {
        SlotQuietStep(h.contexts[i], h.marshal, h.views[i], h.cycles[i], g, r);
      } else if SlotAttempt(h, i) && !SlotFails(h, i) {
        AttemptLeaves(h.contexts[i], h.marshal, h.views[i], h.cycles[i], g);
      }
    }
    OnceMoreThanFailures(SlotAttempts(h, n), SlotFailures(h, n), quiet);
  }

  /** The slot is not eligible in cycle `j`: no run is prepared, nothing is recorded, nothing requeues. */
  ghost predicate AtRestIn(h: SlotHistory, j: nat)
    requires ValidSlotHistory(h) && j < |h.cycles|
  {
    var y := h.cycles[j];
    y.running || !Eligible(SyncView(h.marshal, h.views[j], y.incoming).conditions, h.contexts[j].generation)
  }

  /**
   * After one cycle that looked at the slot and did not fail transiently, no later cycle at the same or an older
   * generation prepares anything.
   */
  lemma SlotQuiescence(h: SlotHistory, r: Revision, i: nat, j: nat)
    requires ValidSlotHistory(h) && AtRevision(h, r) && i < j < |h.cycles|
    requires !h.cycles[i].running && !SlotFails(h, i) && h.contexts[j].generation <= h.contexts[i].generation
    ensures AtRestIn(h, j) && !SlotAttempt(h, j)
  {
    var c, g := h.contexts[i], h.contexts[j].generation;
    LookedAtIsQuiet(c, h.marshal, h.views[i], h.cycles[i]);
    SlotStaysQuiet(h, c.generation, r, i + 1, j);
    if Eligible(h.views[j].conditions, g) {
      EligibleMonotone(h.views[j].conditions, g, c.generation);
    }
  }

  /** If the server fails transiently at most `budget` times in all, cycles past the first `budget + 1` do nothing. */
  lemma SlotRestsWithinBudget(h: SlotHistory, r: Revision, g: int, budget: nat, j: nat)
    requires ValidSlotHistory(h) && AtRevision(h, r) && SlotOneGeneration(h, g) && budget < j < |h.cycles|
    requires forall i :: 0 <= i < |h.cycles| ==> !h.cycles[i].running
    requires CountTrue(SlotFailures(h, |h.cycles|)) <= budget
    ensures AtRestIn(h, j) && !SlotAttempt(h, j)
  {
    EarlyFalse(SlotFailures(h, |h.cycles|), budget);
    var i :| 0 <= i <= budget && !SlotFailures(h, |h.cycles|)[i];
    SlotQuiescence(h, r, i, j);
  }

  lemma {:induction false} EarlyFalse(flags: seq<bool>, budget: nat)
    requires CountTrue(flags) <= budget < |flags|
    ensures exists i :: 0 <= i <= budget && !flags[i]
  {
    if flags[0] {
      EarlyFalse(flags[1..], budget - 1);
      var i :| 0 <= i <= budget - 1 && !flags[1..][i];
      assert !flags[i + 1];
    }
  }

  // ---- what is retried, and what is not ----

  /**
   * A transient failure of a retry strands the slot: if the snapshot already stood at the source's revision, no later
   * cycle attempts it again, at whatever generation and with whatever template.
   */
  lemma StrandedForever(h: SlotHistory, r: Revision, i: nat, j: nat)
    requires ValidSlotHistory(h) && AtRevision(h, r) && i < j < |h.cycles|
    requires SlotFails(h, i) && h.views[i].revision == r
    ensures !SlotAttempt(h, j)
  {
    var left := h.views[i + 1];
    forall g ensures SlotQuiet(g, r, left) {
      AttemptLeaves(h.contexts[i], h.marshal, h.views[i], h.cycles[i], g);
    }
    SlotBlockedStays(h, r, i + 1, j);
  }

  /** Exactly when the next cycle with the same inputs retries a transient failure; then with the identical run. */
  lemma SlotTransientIsRetriedIff(h: SlotHistory, r: Revision, i: nat)
    requires ValidSlotHistory(h) && AtRevision(h, r) && i + 1 < |h.cycles| && SlotFails(h, i)
    requires h.contexts[i + 1] == h.contexts[i] && !h.cycles[i + 1].running
    ensures SlotAttempt(h, i + 1) <==> h.views[i].revision != r
    ensures h.views[i].revision != r ==>
              SlotRun(h.contexts[i], SyncView(h.marshal, h.views[i + 1], r))
              == SlotRun(h.contexts[i], SyncView(h.marshal, h.views[i], r))
  {
    var y := h.cycles[i];
    TransientRetriedIff(h.contexts[i], h.contexts[i], h.marshal, y.now, h.views[i], r, y.cached, y.runs, y.reply);
  }

  /** The slot shows nothing but a rejection recorded at generation `g`. */
  ghost predicate RejectedView(g: int, r: Revision, details: string, v: SlotView) {
    && v.revision == r && v.details == details && v.conditions != []
    && forall at :: Retryable(v.conditions, at) <==> g < at
  }

  /** Cycle `y` looks at the slot of a rejection recorded at generation `g`. */
  predicate SlotChance(c: Context, y: SlotCycle, g: int) {
    !y.running && g < c.generation
  }

  lemma CopyingKeepsRejectedView(c: Context, y: SlotCycle, v: SlotView, g: int, r: Revision, details: string)
    requires RejectedView(g, r, details, v)
    ensures RejectedView(g, r, details, StatusView(c.generation, y.now, y.cached, v))
  {
    StatusKeepsView(c.generation, y.now, y.cached, v, g);
    forall at ensures Retryable(StatusView(c.generation, y.now, y.cached, v).conditions, at) <==> g < at {
      StatusKeepsView(c.generation, y.now, y.cached, v, at);
    }
  }

  lemma SlotRejectionRecorded(c: Context, marshal: Marshal, v: SlotView, y: SlotCycle)
    requires Attempted(c, marshal, v, y) && OutcomeIn(c, marshal, v, y).Rejected()
    ensures RejectedView(c.generation, y.incoming, SyncView(marshal, v, y.incoming).details,
                         SlotAfter(c, marshal, v, y))
  {
    var out, synced := OutcomeIn(c, marshal, v, y), SyncView(marshal, v, y.incoming);
    var rejected := SettleView(c, y.now, v, PrepareView(c, y.now, synced), out);
    assert forall at :: Retryable(rejected.conditions, at) <==> StaleRejection(rejected.conditions[0], at);
    CopyingKeepsRejectedView(c, y, rejected, c.generation, y.incoming, synced.details);
  }

  /**
   * What one cycle does to a recorded rejection: it takes its chance if the parameters evaluate, and has no second one.
   */
  lemma SlotRejectedStep(c: Context, marshal: Marshal, v: SlotView, y: SlotCycle, g: int, r: Revision, details: string)
    requires RejectedView(g, r, details, v) && SlotSteady(y, r)
    ensures Attempted(c, marshal, v, y) <==> SlotChance(c, y, g) && SlotParamsOk(c, v)
    ensures !SlotChance(c, y, g) ==> RejectedView(g, r, details, SlotAfter(c, marshal, v, y))
    ensures SlotChance(c, y, g) && !(Attempted(c, marshal, v, y) && OutcomeIn(c, marshal, v, y).Rejected()) ==>
              SlotBlocked(r, SlotAfter(c, marshal, v, y))
  {
    assert Eligible(v.conditions, c.generation) <==> g < c.generation;
    if !SlotChance(c, y, g) {
      CopyingKeepsRejectedView(c, y, v, g, r, details);
    } else if !Attempted(c, marshal, v, y) {
      var failed := PrepareView(c, y.now, v);
      assert failed.conditions[0].reason != CREATE_REJECTED;
      forall at ensures SlotQuiet(at, r, SlotAfter(c, marshal, v, y)) {
        CopyingKeepsQuiet(c, y, failed, at, r);
      }
    } else if !OutcomeIn(c, marshal, v, y).Rejected() {
      forall at ensures SlotQuiet(at, r, SlotAfter(c, marshal, v, y)) {
        AttemptLeaves(c, marshal, v, y, at);
      }
    }
  }

  /** No cycle strictly between the two had a chance. */
  ghost predicate NoChanceBetween(h: SlotHistory, i: nat, j: nat)
    requires ValidSlotHistory(h) && i < j <= |h.cycles|
  {
    forall m :: i < m < j ==> !SlotChance(h.contexts[m], h.cycles[m], h.contexts[i].generation)
  }

  ghost predicate NotRejectedBetween(h: SlotHistory, i: nat, j: nat)
    requires ValidSlotHistory(h) && i < j <= |h.cycles|
  {
    forall m :: i < m < j && SlotAttempt(h, m) ==> !SlotResult(h, m).Rejected()
  }

  lemma SlotRejectedNext(h: SlotHistory, r: Revision, g: int, details: string, m: nat)
    requires ValidSlotHistory(h) && AtRevision(h, r) && m < |h.cycles|
    requires RejectedView(g, r, details, h.views[m]) && (SlotAttempt(h, m) ==> !SlotResult(h, m).Rejected())
    ensures if SlotChance(h.contexts[m], h.cycles[m], g) then SlotBlocked(r, h.views[m + 1])
            else RejectedView(g, r, details, h.views[m + 1])
  {
    SlotRejectedStep(h.contexts[m], h.marshal, h.views[m], h.cycles[m], g, r, details);
  }

  lemma {:induction false} SlotRejectedUntil(h: SlotHistory, r: Revision, i: nat, j: nat)
    requires ValidSlotHistory(h) && AtRevision(h, r) && i < j <= |h.cycles| && NotRejectedBetween(h, i, j)
    requires SlotAttempt(h, i) && SlotResult(h, i).Rejected()
    ensures if NoChanceBetween(h, i, j)
            then RejectedView(h.contexts[i].generation, r, h.views[i + 1].details, h.views[j])
            else SlotBlocked(r, h.views[j])
  {
    var m, g, details := j - 1, h.contexts[i].generation, h.views[i + 1].details;
    if i == m {
      SlotRejectionRecorded(h.contexts[i], h.marshal, h.views[i], h.cycles[i]);
    } else {
      assert NotRejectedBetween(h, i, m);
      SlotRejectedUntil(h, r, i, m);
      assert NoChanceBetween(h, i, j) <==> NoChanceBetween(h, i, m) && !SlotChance(h.contexts[m], h.cycles[m], g);
      if NoChanceBetween(h, i, m) {
        SlotRejectedNext(h, r, g, details, m);
      } else {
        SlotBlockedStays(h, r, m, j);
      }
    }
  }

  /**
   * Exactly when a rejected slot gets another run at its revision: in the first cycle that looks at it at a newer
   * generation, if the new parameters evaluate on the details it kept. That chance does not come back, not even after a
   * transient failure. (If one of the attempts in between was rejected, count from that one.)
   */
  lemma RejectedSlotRetriedIff(h: SlotHistory, r: Revision, i: nat, j: nat)
    requires ValidSlotHistory(h) && AtRevision(h, r) && i < j < |h.cycles| && NotRejectedBetween(h, i, j)
    requires SlotAttempt(h, i) && SlotResult(h, i).Rejected()
    ensures SlotAttempt(h, j) <==>
              && SlotChance(h.contexts[j], h.cycles[j], h.contexts[i].generation) && NoChanceBetween(h, i, j)
              && SlotParamsOk(h.contexts[j], h.views[i + 1])
  {
    SlotRejectedUntil(h, r, i, j);
    SlotRejectedUntil(h, r, i, i + 1);
    if NoChanceBetween(h, i, j) {
      SlotRejectedStep(h.contexts[j], h.marshal, h.views[j], h.cycles[j], h.contexts[i].generation, r,
                       h.views[i + 1].details);
    } else {
      SlotBlockedStays(h, r, j, j);
    }
  }

  /** A managed error replaces a recorded rejection: the slot is never retried at its revision. */
  lemma ManagedSlotNeverRetried(h: SlotHistory, r: Revision, c: Context, now: int, message: string, v: SlotView, j: nat)
    requires ValidSlotHistory(h) && AtRevision(h, r) && j < |h.cycles| && h.views[0].revision == r
    requires h.views[0] == ManagedView(c, now, message, v)
    ensures !SlotAttempt(h, j)
  {
    forall g ensures SlotQuiet(g, r, h.views[0]) {
      FailureBlocksForever(v.conditions, g, c.generation, now, message);
    }
    SlotBlockedStays(h, r, 0, j);
  }
}
