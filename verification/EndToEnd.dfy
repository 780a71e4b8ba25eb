/** What safety and quiescence say together of one reconcile: no listed branch is left without a build or an error. */
module EndToEnd {
  import opened Conditions
  import opened Runs
  import opened Branches
  import opened PullRequest
  import opened StartRuns
  import opened Reconcile
  import opened Isolation
  import opened System
  import opened Safety
  import opened Replay
  import opened SingleSlot

  /**
   * After any reconcile, in any run of the system, that does not requeue: every branch the source lists is tracked at
   * the listed commit and either shows an error or has had a run that carries its labels.
   */
  lemma EveryBranchBuiltOrFailed(c0: Context, events: seq<Event>, states: seq<State>, n: nat, k: string)
    requires InformedTrace(c0, events, states) && n < |events| && events[n].Reconciled?
    requires var e := events[n];
             !e.y.elsewhere && ValidCycle(e.c, e.read, e.y) && !Requeues(e.c, e.read, e.y) && k in SourceMap(e.y.source)
    ensures var e := events[n];
            var after := After(e.c, e.read, e.y);
            && k in after && after[k].commit == SourceMap(e.y.source)[k].commit && (k != "null" ==> after[k].name == k)
            && (HasType(after[k].conditions, ERROR) || Built(c0, states[n + 1].ever, after[k]))
  {
    var e := events[n];
    var after := After(e.c, e.read, e.y);
    assert Step(c0, states[n], events[n], states[n + 1]);
    ReachableInv(c0, events, states, n + 1);
    assert after in states[n + 1].statuses;
    NoRequeueComesToRest(e.c, e.read, e.y);
    assert SlotInv(c0, states[n + 1].ever, after[k]) && Filed(k, after[k]);
    assert after[k].conditions != [];
  }

  /**
   * The last thing a reconcile does is report: a branch that names a listed run whose conditions are all final and
   * agree ends with that status, whatever else the reconcile did.
   */
  lemma FinishedRunReported(c: Context, before: BranchMap, y: Cycle, k: string, status: string)
    requires ValidCycle(c, before, y) && k in Settled(c, before, y).branches && status in {"True", "False"}
    requires var b := Settled(c, before, y).branches[k];
             && Named(y.cached, b.latestPipelineRun).Some? && ClockAhead(b.conditions, y.now)
             && var from := RunConditions(Named(y.cached, b.latestPipelineRun).value);
                from != [] && forall i :: 0 <= i < |from| ==> from[i].status == status
    ensures k in After(c, before, y)
    ensures var shown := After(c, before, y)[k].conditions;
            shown != [] && LastCondition(shown).status == status
  {
    var b := Settled(c, before, y).branches[k];
    FinalResultCopiedOnce(c.generation, y.now, y.now, y.cached, b, status);
    assert "" != "True" && "" != "False";
  }

  /** The same for a single slot, which copies in every reconcile. */
  lemma FinishedSlotRunReported(c: Context, marshal: Marshal, now: int, running: bool, before: SlotView,
                                incoming: Revision, cached: seq<Run>, runs: seq<Run>, reply: Reply, status: string)
    requires status in {"True", "False"}
    requires var v := SettledView(c, marshal, now, running, before, incoming, cached, runs, reply);
             && Named(cached, v.latestPipelineRun).Some? && ClockAhead(v.conditions, now)
             && var from := RunConditions(Named(cached, v.latestPipelineRun).value);
                from != [] && forall i :: 0 <= i < |from| ==> from[i].status == status
    ensures var shown := CycleView(c, marshal, now, running, before, incoming, cached, runs, reply).conditions;
            shown != [] && LastCondition(shown).status == status
  {
    var v := SettledView(c, marshal, now, running, before, incoming, cached, runs, reply);
    var run := Named(cached, v.latestPipelineRun).value;
    var from := WithoutMessages(RunConditions(run));
    OnlyLastFinalShows(c.generation, now, v.conditions, from);
    ReplacedIsLast(v.conditions, Copied(c.generation, now, from[|from| - 1]));
  }
}
