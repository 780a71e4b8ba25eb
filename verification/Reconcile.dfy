/**
 * The create block of the PullRequest reconcile (internal/controller/pipelinetrigger_controller.go): snapshot the
 * status, sync it with the source, prepare runs, start or adopt them, persist, copy run results, persist again.
 */
module Reconcile {
  import opened Util
  import opened Conditions
  import opened Runs
  import opened Branches
  import opened PullRequest
  import opened StartRuns

  /**
   * Everything one reconcile meets: whether the pipeline runs on the second cluster, the source list, the cached
   * runs, the server's runs when the cycle starts, the order in which runs were prepared, the server's answers in
   * that order, and the clock.
   */
  datatype Cycle = Cycle(
    elsewhere: bool, source: seq<SourceBranch>, cached: seq<Run>, runs: seq<Run>,
    order: seq<string>, replies: seq<Reply>, now: int)

  function Synced(before: BranchMap, y: Cycle): BranchMap {
    Sync(before, SourceMap(y.source))
  }

  ghost predicate ValidCycle(c: Context, before: BranchMap, y: Cycle) {
    if y.elsewhere then y.order == [] && y.replies == []
    else PrepareOrder(c, Synced(before, y), y.order) && |y.replies| == |y.order|
  }

  /** After the create block, before results are copied: what the first status patch writes. */
  ghost function Settled(c: Context, before: BranchMap, y: Cycle): World
    requires ValidCycle(c, before, y)
  {
    if y.elsewhere then World(before, y.runs, NOTHING)
    else StartAll(c, y.now, before, y.cached, World(PrepareAll(c, y.now, Synced(before, y)), y.runs, NOTHING),
                  PreparedRuns(c, Synced(before, y), y.order), y.replies)
  }

  /** After results are copied: what the second status patch writes. */
  ghost function After(c: Context, before: BranchMap, y: Cycle): BranchMap
    requires ValidCycle(c, before, y)
  {
    StatusAll(c.generation, y.now, y.cached, Settled(c, before, y).branches)
  }

  ghost predicate Requeues(c: Context, before: BranchMap, y: Cycle)
    requires ValidCycle(c, before, y)
  {
    Settled(c, before, y).result.transientErr.Some?
  }

  /** The stored trigger, and which status patches succeed. */
  class Store {
    var generation: int
    var template: Template
    var status: BranchMap
    var gitConditions: seq<Condition>

    constructor (generation: int, template: Template, status: BranchMap, gitConditions: seq<Condition>)
      ensures this.generation == generation && this.template == template
      ensures this.status == status && this.gitConditions == gitConditions
    {
      this.generation, this.template, this.status, this.gitConditions := generation, template, status, gitConditions;
    }

    method PatchStatus(pt: Trigger, accepted: bool)
      modifies this`status, this`gitConditions
      ensures status == if accepted then pt.branches else old(status)
      ensures gitConditions == if accepted then pt.gitConditions else old(gitConditions)
    {
      if accepted {
        status, gitConditions := pt.branches, pt.gitConditions;
      }
    }
  }

  /** The create block: snapshot, sync, prepare, start. */
  method CreateRuns(pt: Trigger, server: Server, source: seq<SourceBranch>, cached: seq<Run>, replies: nat -> Reply,
                    now: int)
    returns (requeue: bool, ghost y: Cycle)
    modifies pt`branches, server
    ensures y == Cycle(false, source, cached, old(server.runs), y.order, seq(|y.order|, replies), now)
    ensures var c, before := old(pt.Reading()), old(pt.branches);
            && ValidCycle(c, before, y)
            && Settled(c, before, y).branches == pt.branches && Settled(c, before, y).runs == server.runs
            && requeue == Requeues(c, before, y)
  {
    var statusBefore := pt.branches;
    var _ := pt.GetLatestEvent(source);
    var prs;
    ghost var order;
    prs, order := pt.CreatePipelineRunResource(now);
    y := Cycle(false, source, cached, server.runs, order, seq(|prs|, replies), now);
    var result := StartPipelineRuns(server, pt, prs, cached, statusBefore, seq(|prs|, replies), now);
    requeue := result.transientErr.Some?;
  }

  method ReconcilePullRequest(
    store: Store, server: Server, id: TriggerId, oracle: Oracle, elsewhere: bool, source: seq<SourceBranch>,
    cached: seq<Run>, replies: nat -> Reply, now: int, firstPatch: bool, secondPatch: bool)
    returns (requeue: bool, ghost y: Cycle)
    requires forall i, j :: 0 <= i < j < |cached| ==> cached[i].name != cached[j].name
    modifies store`status, store`gitConditions, server
    ensures y == Cycle(elsewhere, source, cached, old(server.runs), y.order, seq(|y.order|, replies), now)
    ensures var c := Context(id, old(store.generation), old(store.template), oracle);
            && ValidCycle(c, old(store.status), y)
            && server.runs == Settled(c, old(store.status), y).runs
            && requeue == Requeues(c, old(store.status), y)
            && store.status == if secondPatch then After(c, old(store.status), y)
                               else if firstPatch && !elsewhere then Settled(c, old(store.status), y).branches
                               else old(store.status)
    ensures var c := Context(id, old(store.generation), old(store.template), oracle);
            var settled := Settled(c, old(store.status), y).branches;
            store.gitConditions == if !secondPatch then old(store.gitConditions)
                                   else Marked(now, cached, settled, settled.Keys, old(store.gitConditions))
  {
    var pt := new Trigger(id, oracle, store.generation, store.template, store.status, store.gitConditions);
    requeue, y := false, Cycle(true, source, cached, server.runs, [], seq(0, replies), now);
    if !elsewhere {
      requeue, y := CreateRuns(pt, server, source, cached, replies, now);
      store.PatchStatus(pt, firstPatch);
    }
    pt.SetCurrentPipelineRunStatus(now, cached);
    store.PatchStatus(pt, secondPatch);
  }

  // ---- a cycle taken apart: outcomes do not depend on the slots, slots only on the outcomes ----

  /** The runs one cycle adds to the server. */
  function Landings(c: Context, cached: seq<Run>, runs: seq<Run>, prs: seq<Run>, replies: seq<Reply>): seq<Run>
    requires |prs| == |replies|
    decreases |prs|
  {
    if prs == [] then []
    else
      var first := Landed(c, prs[0], cached, runs, replies[0]);
      first + Landings(c, cached, runs + first, prs[1..], replies[1..])
  }

  function Outcomes(c: Context, cached: seq<Run>, runs: seq<Run>, prs: seq<Run>, replies: seq<Reply>)
    : (outs: seq<Outcome>)
    requires |prs| == |replies|
    ensures |outs| == |prs|
    decreases |prs|
  {
    if prs == [] then []
    else [OutcomeOf(c, prs[0], cached, runs, replies[0])]
         + Outcomes(c, cached, runs + Landed(c, prs[0], cached, runs, replies[0]), prs[1..], replies[1..])
  }

  function CountTransient(outs: seq<Outcome>): nat {
    if outs == [] then 0 else (if outs[0].Transient() then 1 else 0) + CountTransient(outs[1..])
  }

  lemma {:induction false} StartAllRuns(c: Context, now: int, before: BranchMap, cached: seq<Run>, w: World,
                                        prs: seq<Run>, replies: seq<Reply>)
    requires |prs| == |replies|
    ensures StartAll(c, now, before, cached, w, prs, replies).runs == w.runs + Landings(c, cached, w.runs, prs, replies)
    decreases |prs|
  {
    if prs != [] {
      var first := Landed(c, prs[0], cached, w.runs, replies[0]);
      StartAllRuns(c, now, before, cached, StartOne(c, now, before, cached, w, prs[0], replies[0]), prs[1..],
                   replies[1..]);
      ConcatAssociates(w.runs, first, Landings(c, cached, w.runs + first, prs[1..], replies[1..]));
    }
  }

  /** A transient error is reported exactly when one happened. */
  lemma {:induction false} StartAllResult(c: Context, now: int, before: BranchMap, cached: seq<Run>, w: World,
                                          prs: seq<Run>, replies: seq<Reply>)
    requires |prs| == |replies|
    ensures StartAll(c, now, before, cached, w, prs, replies).result.transientErr.Some? <==>
              w.result.transientErr.Some? || CountTransient(Outcomes(c, cached, w.runs, prs, replies)) > 0
    decreases |prs|
  {
    if prs != [] {
      var w1 := StartOne(c, now, before, cached, w, prs[0], replies[0]);
      StartAllResult(c, now, before, cached, w1, prs[1..], replies[1..]);
      var outs := Outcomes(c, cached, w.runs, prs, replies);
      assert outs[1..] == Outcomes(c, cached, w1.runs, prs[1..], replies[1..]);
    }
  }

  lemma {:induction false} SomeTransient(outs: seq<Outcome>)
    ensures CountTransient(outs) > 0 <==> exists i :: 0 <= i < |outs| && outs[i].Transient()
  {
    if outs != [] {
      SomeTransient(outs[1..]);
      if i :| 0 <= i < |outs| && outs[i].Transient() {
        assert i > 0 ==> outs[1..][i - 1].Transient();
      }
    }
  }

  /** The slots after a batch, given what became of each run. */
  function SettleAll(c: Context, now: int, before: BranchMap, m: BranchMap, prs: seq<Run>, outs: seq<Outcome>)
    : BranchMap
    requires |prs| == |outs|
    decreases |prs|
  {
    if prs == [] then m
    else SettleAll(c, now, before, Settle(c, now, before, prs[0], outs[0], m), prs[1..], outs[1..])
  }

  lemma {:induction false} StartAllSettles(c: Context, now: int, before: BranchMap, cached: seq<Run>, w: World,
                                           prs: seq<Run>, replies: seq<Reply>)
    requires |prs| == |replies|
    ensures StartAll(c, now, before, cached, w, prs, replies).branches
         == SettleAll(c, now, before, w.branches, prs, Outcomes(c, cached, w.runs, prs, replies))
    decreases |prs|
  {
    if prs != [] {
      StartAllSettles(c, now, before, cached, StartOne(c, now, before, cached, w, prs[0], replies[0]), prs[1..],
                      replies[1..]);
    }
  }

  /** What became of a run, on the reason of an error itself. */
  datatype Kind = Begun | Found | Refused | Postponed

  function KindOf(out: Outcome): Kind {
    match out
    case Started(_) => Begun
    case Adopted(_) => Found
    case Failed(err) => if err.reason in {Invalid, BadRequest} then Refused else Postponed
  }

  function Tally(outs: seq<Outcome>, kind: Kind): nat {
    if outs == [] then 0 else (if KindOf(outs[0]) == kind then 1 else 0) + Tally(outs[1..], kind)
  }

  lemma {:induction false} TallyIsTotal(outs: seq<Outcome>)
    ensures Tally(outs, Begun) + Tally(outs, Found) + Tally(outs, Refused) + Tally(outs, Postponed) == |outs|
    ensures CountTransient(outs) == Tally(outs, Postponed)
  {
    if outs != [] {
      TallyIsTotal(outs[1..]);
    }
  }

  /**
   * Each counter counts its own kind of outcome, and every prepared run has one: 422 and 400 refuse, the rest postpone.
   */
  lemma {:induction false} StartAllAccounts(c: Context, now: int, before: BranchMap, cached: seq<Run>, w: World,
                                            prs: seq<Run>, replies: seq<Reply>)
    requires |prs| == |replies|
    ensures var outs := Outcomes(c, cached, w.runs, prs, replies);
            var r := StartAll(c, now, before, cached, w, prs, replies).result;
            && r.started == w.result.started + Tally(outs, Begun)
            && r.existing == w.result.existing + Tally(outs, Found)
            && r.permanent == w.result.permanent + Tally(outs, Refused)
            && Tally(outs, Begun) + Tally(outs, Found) + Tally(outs, Refused) + Tally(outs, Postponed) == |prs|
    decreases |prs|
  {
    var outs := Outcomes(c, cached, w.runs, prs, replies);
    TallyIsTotal(outs);
    if prs != [] {
      var w1 := StartOne(c, now, before, cached, w, prs[0], replies[0]);
      StartAllAccounts(c, now, before, cached, w1, prs[1..], replies[1..]);
      assert outs[1..] == Outcomes(c, cached, w1.runs, prs[1..], replies[1..]);
    }
  }

  lemma {:induction false} TallyZero(outs: seq<Outcome>, kind: Kind)
    ensures Tally(outs, kind) == 0 <==> forall i :: 0 <= i < |outs| ==> KindOf(outs[i]) != kind
  {
    if outs != [] {
      TallyZero(outs[1..], kind);
      assert forall i :: 0 < i < |outs| ==> outs[i] == outs[1..][i - 1];
      assert forall i :: 0 <= i < |outs| - 1 ==> outs[1..][i] == outs[i + 1];
    }
  }

  /** An outcome is postponed by every error that does not refuse the object. */
  lemma TransientOnReasons(outs: seq<Outcome>)
    ensures CountTransient(outs) > 0 <==>
              exists i :: 0 <= i < |outs| && outs[i].Failed? && outs[i].err.reason !in {Invalid, BadRequest}
  {
    TallyIsTotal(outs);
    TallyZero(outs, Postponed);
    assert forall i :: 0 <= i < |outs| ==>
        (KindOf(outs[i]) == Postponed <==> outs[i].Failed? && outs[i].err.reason !in {Invalid, BadRequest});
  }

  predicate LastPostponed(outs: seq<Outcome>, i: int) {
    0 <= i < |outs| && KindOf(outs[i]) == Postponed && forall j :: i < j < |outs| ==> KindOf(outs[j]) != Postponed
  }

  /** The error reported is that of the last postponed run, if there is one. */
  lemma {:induction false} ReportedError(c: Context, now: int, before: BranchMap, cached: seq<Run>, w: World,
                                         prs: seq<Run>, replies: seq<Reply>)
    requires |prs| == |replies|
    ensures var outs := Outcomes(c, cached, w.runs, prs, replies);
            var reported := StartAll(c, now, before, cached, w, prs, replies).result.transientErr;
            if Tally(outs, Postponed) == 0 then reported == w.result.transientErr
            else exists i :: LastPostponed(outs, i) && reported == Some(outs[i].err)
    decreases |prs|
  {
    if prs != [] {
      var outs := Outcomes(c, cached, w.runs, prs, replies);
      var w1 := StartOne(c, now, before, cached, w, prs[0], replies[0]);
      var rest := Outcomes(c, cached, w1.runs, prs[1..], replies[1..]);
      ReportedError(c, now, before, cached, w1, prs[1..], replies[1..]);
      assert outs[1..] == rest;
      assert forall j :: 0 < j < |outs| ==> outs[j] == rest[j - 1];
      TallyZero(rest, Postponed);
      if Tally(rest, Postponed) > 0 {
        var reported := StartAll(c, now, before, cached, w, prs, replies).result.transientErr;
        var i :| LastPostponed(rest, i) && reported == Some(rest[i].err);
        assert outs[i + 1] == rest[i];
        assert LastPostponed(outs, i + 1);
      } else if KindOf(outs[0]) == Postponed {
        assert LastPostponed(outs, 0);
      }
    }
  }
}
