/**
 * Branches do not disturb each other: with distinct name labels a whole cycle is one independent step per branch, so
 * neither the order of the prepared runs nor the order of map iteration can show in the result.
 */
module Isolation {
  import opened Util
  import opened Labels
  import opened Conditions
  import opened Runs
  import opened Branches
  import opened PullRequest
  import opened StartRuns
  import opened Reconcile

  // ---- outcomes ----

  /** The branch name label a run carries. */
  function RunLabel(run: Run): Option<string> {
    Get(run.labels, NAME_LABEL)
  }

  lemma RunForLabel(c: Context, b: Branch)
    ensures RunLabel(RunFor(c, b)) == Some(NameLabel(c.oracle, b.name))
  {
    assert NAME_LABEL in BranchLabels(c.oracle, b);
  }

  /** Whatever run a prepared run ends up with carries the same name label. */
  lemma OutcomeKeepsLabel(c: Context, cached: seq<Run>, runs: seq<Run>, pr: Run, reply: Reply)
    requires RunLabel(pr).Some?
    ensures OutcomeFor(pr, OutcomeOf(c, pr, cached, runs, reply))
    ensures forall r :: r in Landed(c, pr, cached, runs, reply) ==> RunLabel(r) == RunLabel(pr)
  {
    var want := SourceLabels(pr.labels);
    FindExistingSound(c.id, want, cached);
    FilteredLookupAgrees(c.id, want, runs);
    FindExistingSound(c.id, want, runs);
    assert SOURCE_LABEL_PREFIX <= NAME_LABEL;
    assert NAME_LABEL in want;
  }

  /** Runs landed for another name do not change what happens to this one. */
  lemma OutcomeIgnoresOthers(c: Context, cached: seq<Run>, runs: seq<Run>, extra: seq<Run>, pr: Run, reply: Reply)
    requires RunLabel(pr).Some? && |extra| <= 1 && forall r :: r in extra ==> RunLabel(r) != RunLabel(pr)
    ensures OutcomeOf(c, pr, cached, runs + extra, reply) == OutcomeOf(c, pr, cached, runs, reply)
  {
    if extra == [] {
      assert runs + extra == runs;
    } else {
      var want := SourceLabels(pr.labels);
      assert extra == [extra[0]] && extra[0] in extra;
      assert SOURCE_LABEL_PREFIX <= NAME_LABEL;
      assert NAME_LABEL in want && !SubMap(want, extra[0].labels);
      assert (runs + extra)[..|runs|] == runs;
      assert WithLabels(runs + extra, want) == WithLabels(runs, want);
    }
  }

  /** The prepared runs carry pairwise distinct name labels. */
  ghost predicate Apart(prs: seq<Run>) {
    && (forall i :: 0 <= i < |prs| ==> RunLabel(prs[i]).Some?)
    && forall i, j :: 0 <= i < j < |prs| ==> RunLabel(prs[i]) != RunLabel(prs[j])
  }

  /** Each run's outcome is the one it would have alone against the server as it was at the start. */
  lemma {:induction false} OutcomesIndependent(c: Context, cached: seq<Run>, runs: seq<Run>, prs: seq<Run>,
                                               replies: seq<Reply>, i: nat)
    requires Apart(prs) && |replies| == |prs| && i < |prs|
    ensures Outcomes(c, cached, runs, prs, replies)[i] == OutcomeOf(c, prs[i], cached, runs, replies[i])
    decreases |prs|
  {
    if i > 0 {
      var first := Landed(c, prs[0], cached, runs, replies[0]);
      OutcomesIndependent(c, cached, runs + first, prs[1..], replies[1..], i - 1);
      OutcomeKeepsLabel(c, cached, runs, prs[0], replies[0]);
      OutcomeIgnoresOthers(c, cached, runs, first, prs[i], replies[i]);
    }
  }

  // ---- slots ----

  /** The outcome speaks only of runs with the name label of `pr`. */
  ghost predicate OutcomeFor(pr: Run, out: Outcome) {
    out.Adopted? ==> RunLabel(out.prior) == RunLabel(pr)
  }

  ghost predicate AllOutcomesFor(prs: seq<Run>, outs: seq<Outcome>) {
    |prs| == |outs| && forall i :: 0 <= i < |prs| ==> OutcomeFor(prs[i], outs[i])
  }

  /** The run carries the name label of some other branch name. */
  predicate Foreign(o: Oracle, b: Branch, pr: Run) {
    RunLabel(pr) != Some(NameLabel(o, b.name))
  }

  lemma OtherSlotUntouched(c: Context, now: int, before: Option<Branch>, b: Branch, pr: Run, out: Outcome)
    requires Foreign(c.oracle, b, pr) && OutcomeFor(pr, out)
    ensures SettleSlot(c, now, before, b, pr, out) == Some(b)
  {
    var labels := BranchLabels(c.oracle, b);
    assert NAME_LABEL in labels && labels[NAME_LABEL] == NameLabel(c.oracle, b.name);
    assert !HasIntersection(labels, pr.labels);
    assert out.Adopted? ==> !HasIntersection(labels, out.prior.labels);
  }

  lemma SettleAt(c: Context, now: int, before: BranchMap, m: BranchMap, pr: Run, out: Outcome, k: string)
    ensures Get(Settle(c, now, before, pr, out, m), k)
         == if k in m then SettleSlot(c, now, Get(before, k), m[k], pr, out) else None
  {
  }

  lemma SettleSlotName(c: Context, now: int, before: Option<Branch>, b: Branch, pr: Run, out: Outcome)
    ensures var s := SettleSlot(c, now, before, b, pr, out);
            s.Some? ==> s.value.name == b.name || s == before
  {
  }

  /** A run's outcome leaves the slots of other names as they are. */
  lemma SettleElsewhere(c: Context, now: int, before: BranchMap, m: BranchMap, pr: Run, out: Outcome, k: string)
    requires k in m ==> Foreign(c.oracle, m[k], pr)
    requires OutcomeFor(pr, out)
    ensures Get(Settle(c, now, before, pr, out, m), k) == Get(m, k)
  {
    SettleAt(c, now, before, m, pr, out, k);
    if k in m {
      OtherSlotUntouched(c, now, Get(before, k), m[k], pr, out);
    }
  }

  /** A batch leaves a slot none of its runs is for as it was. */
  lemma {:induction false} SettleAllElsewhere(c: Context, now: int, before: BranchMap, m: BranchMap, prs: seq<Run>,
                                              outs: seq<Outcome>, k: string)
    requires AllOutcomesFor(prs, outs)
    requires k in m ==> forall i :: 0 <= i < |prs| ==> Foreign(c.oracle, m[k], prs[i])
    ensures Get(SettleAll(c, now, before, m, prs, outs), k) == Get(m, k)
    decreases |prs|
  {
    if prs != [] {
      SettleElsewhere(c, now, before, m, prs[0], outs[0], k);
      SettleAllElsewhere(c, now, before, Settle(c, now, before, prs[0], outs[0], m), prs[1..], outs[1..], k);
    }
  }

  /** Of the batch only run `i` is for this slot, in either of the forms it can take. */
  ghost predicate OnlyOwn(o: Oracle, before: Option<Branch>, b: Branch, prs: seq<Run>, i: nat) {
    forall j :: 0 <= j < |prs| && j != i ==>
      Foreign(o, b, prs[j]) && (before.Some? ==> Foreign(o, before.value, prs[j]))
  }

  lemma OwnRunFirst(c: Context, now: int, before: BranchMap, m: BranchMap, prs: seq<Run>, outs: seq<Outcome>, k: string)
    requires AllOutcomesFor(prs, outs) && prs != [] && k in m && OnlyOwn(c.oracle, Get(before, k), m[k], prs, 0)
    ensures Get(SettleAll(c, now, before, m, prs, outs), k)
         == SettleSlot(c, now, Get(before, k), m[k], prs[0], outs[0])
  {
    SettleAt(c, now, before, m, prs[0], outs[0], k);
    SettleSlotName(c, now, Get(before, k), m[k], prs[0], outs[0]);
    SettleAllElsewhere(c, now, before, Settle(c, now, before, prs[0], outs[0], m), prs[1..], outs[1..], k);
  }

  lemma OnlyOwnTail(o: Oracle, before: Option<Branch>, b: Branch, prs: seq<Run>, i: nat)
    requires 0 < i < |prs| && OnlyOwn(o, before, b, prs, i)
    ensures OnlyOwn(o, before, b, prs[1..], i - 1) && Foreign(o, b, prs[0])
  {
  }

  /** A batch settles a slot by the outcome of its own run alone. */
  lemma {:induction false} SettleAllOwn(c: Context, now: int, before: BranchMap, m: BranchMap, prs: seq<Run>,
                                        outs: seq<Outcome>, k: string, i: nat)
    requires AllOutcomesFor(prs, outs) && i < |prs| && k in m
    requires OnlyOwn(c.oracle, Get(before, k), m[k], prs, i)
    ensures Get(SettleAll(c, now, before, m, prs, outs), k)
         == SettleSlot(c, now, Get(before, k), m[k], prs[i], outs[i])
    decreases |prs|
  {
    if i == 0 {
      OwnRunFirst(c, now, before, m, prs, outs, k);
    } else {
      var s := Settle(c, now, before, prs[0], outs[0], m);
      OnlyOwnTail(c.oracle, Get(before, k), m[k], prs, i);
      SettleElsewhere(c, now, before, m, prs[0], outs[0], k);
      assert Get(s, k) == Some(m[k]);
      SettleAllOwn(c, now, before, s, prs[1..], outs[1..], k, i - 1);
    }
  }

  // ---- a whole cycle ----

  /** The server's answer to the run of branch `k`; the default is never used for a branch that has a run. */
  ghost function ReplyFor(y: Cycle, k: string): Reply
    requires |y.replies| == |y.order|
  {
    if i :| 0 <= i < |y.order| && y.order[i] == k then y.replies[i]
    else Reply(Listed, Errored(ApiError(AnyOther, ""), None))
  }

  /** What becomes of the run of branch `k`: decided by the branch, the cached list and the server at the start. */
  ghost function OutcomeAt(c: Context, before: BranchMap, y: Cycle, k: string): Outcome
    requires |y.replies| == |y.order| && k in Synced(before, y)
  {
    OutcomeOf(c, RunFor(c, Synced(before, y)[k]), y.cached, y.runs, ReplyFor(y, k))
  }

  /** The run of branch `j` carries the name label of another slot `k`, as synced or as it would be restored. */
  ghost predicate Disturbs(c: Context, before: BranchMap, synced: BranchMap, j: string, k: string)
    requires j in synced && k in synced
  {
    && j != k && Wants(c, synced[j])
    && (|| NameLabel(c.oracle, synced[k].name) == NameLabel(c.oracle, synced[j].name)
        || (k in before && NameLabel(c.oracle, before[k].name) == NameLabel(c.oracle, synced[j].name)))
  }

  /** No run this cycle prepares concerns another tracked slot; slots that get no run may collide. */
  ghost predicate Separate(c: Context, before: BranchMap, y: Cycle) {
    var synced := Synced(before, y);
    y.elsewhere || forall j, k :: j in synced && k in synced ==> !Disturbs(c, before, synced, j, k)
  }

  lemma PreparedLabel(c: Context, m: BranchMap, order: seq<string>, i: nat)
    requires PrepareOrder(c, m, order) && i < |order|
    ensures order[i] in m && Wants(c, m[order[i]])
    ensures RunLabel(PreparedRuns(c, m, order)[i]) == Some(NameLabel(c.oracle, m[order[i]].name))
  {
    assert order[i] in order;
    RunForLabel(c, m[order[i]]);
  }

  lemma PreparedApart(c: Context, before: BranchMap, y: Cycle)
    requires ValidCycle(c, before, y) && Separate(c, before, y) && !y.elsewhere
    ensures Apart(PreparedRuns(c, Synced(before, y), y.order))
  {
    var synced, order := Synced(before, y), y.order;
    var prs := PreparedRuns(c, synced, order);
    forall i | 0 <= i < |prs| ensures RunLabel(prs[i]).Some? {
      PreparedLabel(c, synced, order, i);
    }
    forall i, j | 0 <= i < j < |prs| ensures RunLabel(prs[i]) != RunLabel(prs[j]) {
      PreparedLabel(c, synced, order, i);
      PreparedLabel(c, synced, order, j);
      assert !Disturbs(c, before, synced, order[i], order[j]);
    }
  }

  /** No prepared run but (perhaps) number `i` is for branch `k`. */
  lemma PreparedOnlyOwn(c: Context, before: BranchMap, y: Cycle, k: string, i: nat)
    requires ValidCycle(c, before, y) && Separate(c, before, y) && !y.elsewhere && k in Synced(before, y)
    requires forall j :: 0 <= j < |y.order| && j != i ==> y.order[j] != k
    ensures OnlyOwn(c.oracle, Get(before, k), Synced(before, y)[k], PreparedRuns(c, Synced(before, y), y.order), i)
  {
    var synced, prs := Synced(before, y), PreparedRuns(c, Synced(before, y), y.order);
    forall j | 0 <= j < |prs| && j != i
      ensures Foreign(c.oracle, synced[k], prs[j]) && (k in before ==> Foreign(c.oracle, before[k], prs[j]))
    {
      PreparedLabel(c, synced, y.order, j);
      assert !Disturbs(c, before, synced, y.order[j], k);
    }
  }

  lemma ReplyForAt(c: Context, before: BranchMap, y: Cycle, i: nat)
    requires ValidCycle(c, before, y) && !y.elsewhere && i < |y.order|
    ensures ReplyFor(y, y.order[i]) == y.replies[i]
  {
    var k := y.order[i];
    assert exists j :: 0 <= j < |y.order| && y.order[j] == k;
    assert forall j :: 0 <= j < |y.order| && y.order[j] == k ==> j == i;
  }

  /** Each branch's run has the outcome it would have alone. */
  lemma CycleOutcomes(c: Context, before: BranchMap, y: Cycle, i: nat)
    requires ValidCycle(c, before, y) && Separate(c, before, y) && !y.elsewhere && i < |y.order|
    ensures var prs := PreparedRuns(c, Synced(before, y), y.order);
            && Outcomes(c, y.cached, y.runs, prs, y.replies)[i] == OutcomeAt(c, before, y, y.order[i])
            && OutcomeFor(prs[i], OutcomeAt(c, before, y, y.order[i]))
  {
    var prs := PreparedRuns(c, Synced(before, y), y.order);
    PreparedApart(c, before, y);
    OutcomesIndependent(c, y.cached, y.runs, prs, y.replies, i);
    ReplyForAt(c, before, y, i);
    OutcomeKeepsLabel(c, y.cached, y.runs, prs[i], y.replies[i]);
  }

  /**
   * The slot of branch `k` when the create loop is done: a function of its own slot in the snapshot, its own slot
   * after the sync, and the outcome of its own run.
   */
  ghost function SettledSlot(c: Context, before: BranchMap, y: Cycle, k: string): Option<Branch>
    requires |y.replies| == |y.order|
  {
    var synced := Synced(before, y);
    if k !in synced then None
    else
      var slot := PrepareSlot(c, y.now, synced[k]).slot;
      if Wants(c, synced[k])
      then SettleSlot(c, y.now, Get(before, k), slot, RunFor(c, synced[k]), OutcomeAt(c, before, y, k))
      else Some(slot)
  }

  /** One cycle for one branch. */
  ghost function SlotCycle(c: Context, before: BranchMap, y: Cycle, k: string): Option<Branch>
    requires |y.replies| == |y.order|
  {
    var settled := if y.elsewhere then Get(before, k) else SettledSlot(c, before, y, k);
    if settled.None? then None else Some(StatusSlot(c.generation, y.now, y.cached, settled.value))
  }

  lemma AllCycleOutcomes(c: Context, before: BranchMap, y: Cycle)
    requires ValidCycle(c, before, y) && Separate(c, before, y) && !y.elsewhere
    ensures var prs := PreparedRuns(c, Synced(before, y), y.order);
            AllOutcomesFor(prs, Outcomes(c, y.cached, y.runs, prs, y.replies))
  {
    var prs := PreparedRuns(c, Synced(before, y), y.order);
    var outs := Outcomes(c, y.cached, y.runs, prs, y.replies);
    forall i | 0 <= i < |prs| ensures OutcomeFor(prs[i], outs[i]) {
      CycleOutcomes(c, before, y, i);
    }
  }

  lemma SettledWithRun(c: Context, before: BranchMap, y: Cycle, i: nat)
    requires ValidCycle(c, before, y) && Separate(c, before, y) && !y.elsewhere && i < |y.order|
    ensures Get(Settled(c, before, y).branches, y.order[i]) == SettledSlot(c, before, y, y.order[i])
  {
    var k, synced := y.order[i], Synced(before, y);
    var m, prs := PrepareAll(c, y.now, synced), PreparedRuns(c, synced, y.order);
    PreparedLabel(c, synced, y.order, i);
    AllCycleOutcomes(c, before, y);
    CycleOutcomes(c, before, y, i);
    PreparedOnlyOwn(c, before, y, k, i);
    StartAllSettles(c, y.now, before, y.cached, World(m, y.runs, NOTHING), prs, y.replies);
    SettleAllOwn(c, y.now, before, m, prs, Outcomes(c, y.cached, y.runs, prs, y.replies), k, i);
  }

  lemma SettledWithoutRun(c: Context, before: BranchMap, y: Cycle, k: string)
    requires ValidCycle(c, before, y) && Separate(c, before, y) && !y.elsewhere && k !in y.order
    ensures Get(Settled(c, before, y).branches, k) == SettledSlot(c, before, y, k)
  {
    var synced := Synced(before, y);
    var m, prs := PrepareAll(c, y.now, synced), PreparedRuns(c, synced, y.order);
    AllCycleOutcomes(c, before, y);
    if k in synced {
      PreparedOnlyOwn(c, before, y, k, |prs|);
    }
    StartAllSettles(c, y.now, before, y.cached, World(m, y.runs, NOTHING), prs, y.replies);
    SettleAllElsewhere(c, y.now, before, m, prs, Outcomes(c, y.cached, y.runs, prs, y.replies), k);
  }

  /** The create loop, seen from one branch. */
  lemma SettledIsPointwise(c: Context, before: BranchMap, y: Cycle, k: string)
    requires ValidCycle(c, before, y) && Separate(c, before, y) && !y.elsewhere
    ensures Get(Settled(c, before, y).branches, k) == SettledSlot(c, before, y, k)
  {
    if k in y.order {
      var i :| 0 <= i < |y.order| && y.order[i] == k;
      SettledWithRun(c, before, y, i);
    } else {
      SettledWithoutRun(c, before, y, k);
    }
  }

  /** A cycle is one independent step per branch. */
  lemma CycleIsPointwise(c: Context, before: BranchMap, y: Cycle, k: string)
    requires ValidCycle(c, before, y) && Separate(c, before, y)
    ensures Get(After(c, before, y), k) == SlotCycle(c, before, y, k)
  {
    if !y.elsewhere {
      SettledIsPointwise(c, before, y, k);
    }
  }

  /**
   * What one reconcile leaves in the slot of a branch that got a run, by what became of that run: its name; or a
   * rejection, for the two reasons that refuse the object; or else the snapshot.
   */
  lemma SettledShows(c: Context, before: BranchMap, y: Cycle, k: string)
    requires ValidCycle(c, before, y) && Separate(c, before, y) && !y.elsewhere && k in y.order
    ensures var b, out := Synced(before, y)[k], OutcomeAt(c, before, y, k);
            var slot, settled := PrepareSlot(c, y.now, b).slot, Get(Settled(c, before, y).branches, k);
            match out
            case Adopted(prior) => settled == Some(slot.(latestPipelineRun := prior.name))
            case Started(run) => settled == Some(slot.(latestPipelineRun := run.name))
            case Failed(err) =>
              if err.reason in {Invalid, BadRequest}
              then settled == Some(b.(latestPipelineRun := "", details := "", conditions := [Condition(
                     "Error", "False", "CreateRejected", REJECTED_PREFIX + err.message, c.generation, y.now)]))
              else settled == Get(before, k)
  {
    var b, out := Synced(before, y)[k], OutcomeAt(c, before, y, k);
    SettledIsPointwise(c, before, y, k);
    match out
    case Adopted(prior) =>
      AdoptedShows(c, RunFor(c, b), y.cached, y.runs, ReplyFor(y, k));
      SuccessShows(c, y.now, Get(before, k), b, prior);
    case Started(run) => SuccessShows(c, y.now, Get(before, k), b, run);
    case Failed(err) => FailureShows(c, y.now, Get(before, k), b, err);
  }

  /** Two reconciles that differ only in the order in which branches were visited. */
  ghost predicate Reordered(y: Cycle, z: Cycle) {
    && z == y.(order := z.order, replies := z.replies)
    && |y.replies| == |y.order| && |z.replies| == |z.order|
    && forall k :: k in y.order ==> ReplyFor(y, k) == ReplyFor(z, k)
  }

  lemma ReorderedRequeues(c: Context, before: BranchMap, y: Cycle, z: Cycle)
    requires ValidCycle(c, before, y) && ValidCycle(c, before, z) && Reordered(y, z) && Separate(c, before, y)
    requires Requeues(c, before, y)
    ensures Requeues(c, before, z)
  {
    var k := RequeueCause(c, before, y);
    RequeueFrom(c, before, z, k);
  }

  lemma ReorderedSlot(c: Context, before: BranchMap, y: Cycle, z: Cycle, k: string)
    requires ValidCycle(c, before, y) && ValidCycle(c, before, z) && Reordered(y, z) && Separate(c, before, y)
    ensures Get(After(c, before, y), k) == Get(After(c, before, z), k)
  {
    CycleIsPointwise(c, before, y, k);
    CycleIsPointwise(c, before, z, k);
    assert !y.elsewhere && k in Synced(before, y) && Wants(c, Synced(before, y)[k]) ==> k in y.order;
  }

  /** The visiting order shows neither in the resulting status nor in the decision to requeue. */
  lemma OrderIsIrrelevant(c: Context, before: BranchMap, y: Cycle, z: Cycle)
    requires ValidCycle(c, before, y) && ValidCycle(c, before, z) && Reordered(y, z) && Separate(c, before, y)
    ensures After(c, before, y) == After(c, before, z)
    ensures Requeues(c, before, y) <==> Requeues(c, before, z)
  {
    forall k ensures Get(After(c, before, y), k) == Get(After(c, before, z), k) {
      ReorderedSlot(c, before, y, z, k);
    }
    MapsEqual(After(c, before, y), After(c, before, z));
    if Requeues(c, before, y) {
      ReorderedRequeues(c, before, y, z);
    }
    if Requeues(c, before, z) {
      ReorderedRequeues(c, before, z, y);
    }
  }

  /** A cycle requeues exactly when some branch's attempt fails transiently. */
  lemma RequeueCause(c: Context, before: BranchMap, y: Cycle) returns (k: string)
    requires ValidCycle(c, before, y) && Separate(c, before, y) && Requeues(c, before, y)
    ensures !y.elsewhere && k in y.order && OutcomeAt(c, before, y, k).Transient()
  {
    var prs := PreparedRuns(c, Synced(before, y), y.order);
    StartAllResult(c, y.now, before, y.cached, World(PrepareAll(c, y.now, Synced(before, y)), y.runs, NOTHING), prs,
                   y.replies);
    SomeTransient(Outcomes(c, y.cached, y.runs, prs, y.replies));
    var i :| 0 <= i < |prs| && Outcomes(c, y.cached, y.runs, prs, y.replies)[i].Transient();
    CycleOutcomes(c, before, y, i);
    k := y.order[i];
  }

  lemma RequeueFrom(c: Context, before: BranchMap, y: Cycle, k: string)
    requires ValidCycle(c, before, y) && Separate(c, before, y)
    requires k in y.order && OutcomeAt(c, before, y, k).Transient()
    ensures Requeues(c, before, y)
  {
    var prs := PreparedRuns(c, Synced(before, y), y.order);
    StartAllResult(c, y.now, before, y.cached, World(PrepareAll(c, y.now, Synced(before, y)), y.runs, NOTHING), prs,
                   y.replies);
    SomeTransient(Outcomes(c, y.cached, y.runs, prs, y.replies));
    var i :| 0 <= i < |y.order| && y.order[i] == k;
    CycleOutcomes(c, before, y, i);
  }

  // ---- distinct names are enough ----

  /**
   * Each slot is tracked under its own branch name; the one exception is the nameless slot that a managed error files
   * under "null" when nothing is tracked.
   */
  predicate Filed(k: string, b: Branch) {
    b.name == k || (k == "null" && b.name == "")
  }

  ghost predicate AllFiled(m: BranchMap) {
    forall k :: k in m ==> Filed(k, m[k])
  }

  lemma SourceMapNames(list: seq<SourceBranch>)
    ensures forall k :: k in SourceMap(list) ==> SourceMap(list)[k].name == k
  {
    forall k | k in SourceMap(list) ensures SourceMap(list)[k].name == k {
      SourceMapIsLastEntry(list, k);
    }
  }

  lemma SyncedFiled(before: BranchMap, y: Cycle)
    requires AllFiled(before)
    ensures AllFiled(Synced(before, y))
  {
    SourceMapNames(y.source);
  }

  /** Only the empty name has the empty label. */
  lemma EmptyLabel(o: Oracle, name: string)
    ensures NameLabel(o, name) == "" <==> name == ""
  {
    assert |Rewrite(name)| == |name|;
    if !ValidLabelValue(Rewrite(name)) {
      RepairedEndsInHash(o.hash, Rewrite(name));
    }
  }

  /** Branches stay apart as soon as the names tracked in this cycle are not empty and have distinct name labels. */
  lemma DistinctNamesSeparate(c: Context, before: BranchMap, y: Cycle)
    requires AllFiled(before)
    requires DistinctLabels(c.oracle, Synced(before, y).Keys) && "" !in Synced(before, y)
    ensures Separate(c, before, y)
  {
    var synced := Synced(before, y);
    SyncedFiled(before, y);
    forall j, k | j in synced && k in synced ensures !Disturbs(c, before, synced, j, k) {
      assert Filed(j, synced[j]) && Filed(k, synced[k]) && (k in before ==> Filed(k, before[k]));
      EmptyLabel(c.oracle, "");
      EmptyLabel(c.oracle, j);
      EmptyLabel(c.oracle, k);
      assert j != k ==> NameLabel(c.oracle, j) != NameLabel(c.oracle, k);
    }
  }

  lemma {:induction false} SettleAllFiled(c: Context, now: int, before: BranchMap, m: BranchMap, prs: seq<Run>,
                                          outs: seq<Outcome>)
    requires AllFiled(before) && AllFiled(m) && |prs| == |outs|
    ensures AllFiled(SettleAll(c, now, before, m, prs, outs))
    decreases |prs|
  {
    if prs != [] {
      var s := Settle(c, now, before, prs[0], outs[0], m);
      forall k | k in s ensures Filed(k, s[k]) {
        SettleAt(c, now, before, m, prs[0], outs[0], k);
        SettleSlotName(c, now, Get(before, k), m[k], prs[0], outs[0]);
      }
      SettleAllFiled(c, now, before, s, prs[1..], outs[1..]);
    }
  }

  lemma CycleFiled(c: Context, before: BranchMap, y: Cycle)
    requires ValidCycle(c, before, y) && AllFiled(before)
    ensures AllFiled(Settled(c, before, y).branches) && AllFiled(After(c, before, y))
  {
    if !y.elsewhere {
      var synced := Synced(before, y);
      var m, prs := PrepareAll(c, y.now, synced), PreparedRuns(c, synced, y.order);
      SyncedFiled(before, y);
      forall k | k in m ensures Filed(k, m[k]) {
        assert Filed(k, synced[k]);
      }
      StartAllSettles(c, y.now, before, y.cached, World(m, y.runs, NOTHING), prs, y.replies);
      SettleAllFiled(c, y.now, before, m, prs, Outcomes(c, y.cached, y.runs, prs, y.replies));
    }
    var settled := Settled(c, before, y).branches;
    forall k | k in settled ensures Filed(k, StatusSlot(c.generation, y.now, y.cached, settled[k])) {
      assert Filed(k, settled[k]);
    }
  }

  lemma ManageFiled(c: Context, now: int, message: string, m: BranchMap)
    requires AllFiled(m)
    ensures AllFiled(ManageAll(c.generation, now, message, m))
  {
    forall k | k in m ensures Filed(k, ManagedSlot(c.generation, now, message, m[k])) {
      assert Filed(k, m[k]);
    }
  }

  // ---- without distinct name labels ----

  /** Exactly which slots a prepared run reaches: those that share both its name label and its commit label. */
  lemma RunReaches(c: Context, a: Branch, b: Branch)
    ensures HasIntersection(BranchLabels(c.oracle, b), RunFor(c, a).labels) <==>
              BranchLabels(c.oracle, a) == BranchLabels(c.oracle, b)
  {
    var la, lb, run := BranchLabels(c.oracle, a), BranchLabels(c.oracle, b), RunFor(c, a).labels;
    HasIntersectionIsSubMap(lb, run);
    RunForLabels(c, a);
    assert SubMap(lb, run) ==> NAME_LABEL in lb && COMMIT_LABEL in lb && la == lb;
  }

  /** Two branches with one name label at one commit share their fate: the rejection of one is recorded on both. */
  lemma CollidingBranchesShareFate(c: Context, now: int, commit: string, message: string)
    ensures var a, b := Fresh(SourceBranch("a/b", commit, "")), Fresh(SourceBranch("a-b", commit, ""));
            && a.name != b.name
            && SettleSlot(c, now, None, b, RunFor(c, a), Failed(ApiError(Invalid, message)))
            == Some(b.(conditions := [Conditions.CreateFailed(c.generation, now, message)]))
  {
    SlashAndDashCollide(c.oracle);
    RunReaches(c, Fresh(SourceBranch("a/b", commit, "")), Fresh(SourceBranch("a-b", commit, "")));
  }
}
