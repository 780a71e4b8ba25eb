/**
 * Inputs on which a guarantee fails that one might read off the comments. Each is a short run of the system, so the
 * conditions proved elsewhere are not idle.
 */
module Witnesses {
  import opened Util
  import opened Conditions
  import opened Runs
  import opened Branches
  import opened PullRequest
  import opened StartRuns
  import opened Reconcile
  import opened Isolation
  import opened Replay
  import opened AtMostOne
  import opened System
  import opened Safety
  import opened SingleSlot
  import opened SlotReplay
  import opened SingleSlotRuns

  const REJECTION := Reply(Listed, Errored(ApiError(Invalid, ""), None))
  const TIMEOUT := Reply(Listed, Errored(ApiError(AnyOther, ""), None))
  const MAIN := Git("repo", "main", "1")

  function Plain(id: TriggerId, o: Oracle, generation: int): Context {
    Context(id, generation, Template("", "", map[], []), o)
  }

  // ---- a spec edit is not always a retry ----

  function Needy(id: TriggerId, o: Oracle, generation: int): Context {
    Context(id, generation, Template("", "", map[], [Param("p", "$.x")]), o)
  }

  function BranchCycle(order: seq<string>, replies: seq<Reply>): Cycle {
    Cycle(false, [SourceBranch("b", "c", "{}")], [], [], order, replies, 0)
  }

  lemma OneBranch(before: BranchMap, order: seq<string>, replies: seq<Reply>)
    requires before.Keys <= {"b"} && ("b" in before ==> before["b"].commit == "c")
    ensures Synced(before, BranchCycle(order, replies))
         == map["b" := if "b" in before then before["b"] else Fresh(SourceBranch("b", "c", "{}"))]
  {
    var list := [SourceBranch("b", "c", "{}")];
    assert list[..0] == [];
    assert SourceMap(list) == map["b" := Fresh(list[0])];
  }

  /** One link of a history in which branch "b" stays at commit "c". */
  ghost predicate Link(c: Context, before: BranchMap, y: Cycle, after: BranchMap) {
    && ValidCycle(c, before, y) && Separate(c, before, y) && Steady(before, y, "b", "c") && after == After(c, before, y)
    && !y.elsewhere && after.Keys <= {"b"}
  }

  lemma FirstRejected(c: Context) returns (y: Cycle, after: BranchMap)
    requires c.template.params == []
    ensures Link(c, map[], y, after) && y.order == ["b"] && OutcomeAt(c, map[], y, "b").Rejected()
    ensures RejectedAt(c.generation, "c", Get(after, "b"))
  {
    y := BranchCycle(["b"], [REJECTION]);
    OneBranch(map[], ["b"], [REJECTION]);
    assert ValidCycle(c, map[], y) && "b" in y.order;
    after := After(c, map[], y);
    ReplyForAt(c, map[], y, 0);
    RejectionRecorded(c, map[], y, "b");
    forall k | k in after ensures k == "b" {
      CycleIsPointwise(c, map[], y, k);
    }
  }

  /** A cycle in which the one branch, recorded as rejected or blocked, gets no run. */
  lemma IdleCycle(c: Context, before: BranchMap) returns (y: Cycle, after: BranchMap)
    requires "b" in before && before.Keys <= {"b"} && before["b"].commit == "c" && !Wants(c, before["b"])
    ensures Link(c, before, y, after) && y.order == []
  {
    y := BranchCycle([], []);
    OneBranch(before, [], []);
    after := After(c, before, y);
    forall k | k in after ensures k == "b" {
      CycleIsPointwise(c, before, y, k);
    }
  }

  lemma NeedsDetails(id: TriggerId, o: Oracle, generation: int)
    requires EmptyNeverEvaluates(o)
    ensures !ParamsOk(Needy(id, o, generation), "")
  {
    var c := Needy(id, o, generation);
    assert c.template.params[0].value[0] == '$';
    assert '$' in c.template.params[0].value;
  }

  lemma SecondMissed(c: Context, before: BranchMap, g: int) returns (y: Cycle, after: BranchMap)
    requires g < c.generation && !ParamsOk(c, "") && RejectedAt(g, "c", Get(before, "b")) && before.Keys <= {"b"}
    ensures Link(c, before, y, after) && y.order == [] && Blocked("c", Get(after, "b"))
  {
    y, after := IdleCycle(c, before);
    RejectedStep(c, before, y, "b", g, "c");
  }

  lemma ThirdIdle(c: Context, before: BranchMap) returns (y: Cycle, after: BranchMap)
    requires Blocked("c", Get(before, "b")) && before.Keys <= {"b"}
    ensures Link(c, before, y, after) && y.order == []
  {
    assert Quiet(c.generation, "c", Get(before, "b"));
    y, after := IdleCycle(c, before);
  }

  lemma ThreeCycles(h: History)
    requires |h.cycles| == |h.contexts| == 3 && |h.statuses| == 4
    requires Link(h.contexts[0], h.statuses[0], h.cycles[0], h.statuses[1])
    requires Link(h.contexts[1], h.statuses[1], h.cycles[1], h.statuses[2])
    requires Link(h.contexts[2], h.statuses[2], h.cycles[2], h.statuses[3])
    ensures ValidHistory(h) && SteadyThroughout(h, "b", "c")
  {
    forall i | 0 <= i < 3 ensures Link(h.contexts[i], h.statuses[i], h.cycles[i], h.statuses[i + 1]) {
      assert i == 0 || i == 1 || i == 2;
    }
  }

  lemma SpentChanceFor(c0: Context, c1: Context, c2: Context) returns (h: History)
    requires c0.generation < c1.generation && c0.template.params == [] && !ParamsOk(c1, "")
    ensures ValidHistory(h) && SteadyThroughout(h, "b", "c") && |h.cycles| == 3 && h.contexts == [c0, c1, c2]
    ensures Attempt(h, 0, "b") && Result(h, 0, "b").Rejected()
    ensures !h.cycles[1].elsewhere && !h.cycles[2].elsewhere && !Attempt(h, 1, "b") && !Attempt(h, 2, "b")
  {
    var y0, s1 := FirstRejected(c0);
    var y1, s2 := SecondMissed(c1, s1, c0.generation);
    var y2, s3 := ThirdIdle(c2, s2);
    h := History([c0, c1, c2], [map[], s1, s2, s3], [y0, y1, y2]);
    ThreeCycles(h);
  }

  /**
   * A rejected branch whose spec is edited twice. The first edit brings a parameter that needs the blanked details: no
   * run. The second drops it again: still no run, for the chance is spent.
   */
  lemma SpentChance(id: TriggerId, o: Oracle) returns (h: History)
    requires EmptyNeverEvaluates(o)
    ensures ValidHistory(h) && SteadyThroughout(h, "b", "c") && |h.cycles| == 3
    ensures h.contexts == [Plain(id, o, 1), Needy(id, o, 2), Plain(id, o, 3)]
    ensures Attempt(h, 0, "b") && Result(h, 0, "b").Rejected()
    ensures !h.cycles[1].elsewhere && !h.cycles[2].elsewhere && !Attempt(h, 1, "b") && !Attempt(h, 2, "b")
  {
    NeedsDetails(id, o, 2);
    h := SpentChanceFor(Plain(id, o, 1), Needy(id, o, 2), Plain(id, o, 3));
  }

  /** A rejected branch that would be retried after a spec edit, but for an error managed before it. */
  lemma ManagedRejection(id: TriggerId, o: Oracle) returns (m: BranchMap, h: History)
    ensures "b" in m && Wants(Plain(id, o, 2), m["b"])
    ensures ValidHistory(h) && |h.cycles| == 1 && h.contexts == [Plain(id, o, 2)] && !h.cycles[0].elsewhere
    ensures h.statuses[0] == ManageAll(1, 0, "", m) && !Attempt(h, 0, "b")
  {
    var rejected := [Conditions.CreateFailed(1, 0, "")];
    m := map["b" := Branch("b", "c", "", "", rejected)];
    assert StaleRejection(rejected[0], 2);
    var managed := ManageAll(1, 0, "", m);
    FailureBlocksForever(rejected, 2, 1, 0, "");
    var y, after := IdleCycle(Plain(id, o, 2), managed);
    h := History([Plain(id, o, 2)], [managed, after], [y]);
  }

  // ---- single slots ----

  function SlotCycleAt(r: Revision, reply: Reply): SlotCycle {
    SlotCycle(false, r, [], [], reply, 0)
  }

  function Chain(marshal: Marshal, contexts: seq<Context>, v: SlotView, cycles: seq<SlotCycle>): (views: seq<SlotView>)
    requires |contexts| == |cycles|
    ensures |views| == |cycles| + 1 && views[0] == v
    ensures forall i :: 0 <= i < |cycles| ==> views[i + 1] == SlotAfter(contexts[i], marshal, views[i], cycles[i])
    decreases |cycles|
  {
    if cycles == [] then [v]
    else [v] + Chain(marshal, contexts[1..], SlotAfter(contexts[0], marshal, v, cycles[0]), cycles[1..])
  }

  /** Against an empty server and cache the reply to the create decides. */
  lemma EmptyServer(c: Context, pr: Run, reply: Reply)
    requires reply.live.Listed?
    ensures Sends(c, pr, [], [], reply)
  {
  }

  lemma RetryFailsFor(h: SlotHistory, c0: Context, c1: Context)
    requires ValidSlotHistory(h) && |h.cycles| >= 2 && h.contexts[0] == c0 && h.contexts[1] == c1
    requires h.cycles[0] == SlotCycleAt(MAIN, REJECTION) && h.cycles[1] == SlotCycleAt(MAIN, TIMEOUT)
    requires h.views[0] == Untouched(true) && h.marshal(MAIN) != ""
    requires c0.template.params == [] == c1.template.params && c0.generation < c1.generation
    ensures SlotAttempt(h, 0) && SlotResult(h, 0).Rejected() && SlotFails(h, 1) && h.views[1].revision == MAIN
  {
    EmptyServer(c0, SlotRun(c0, SyncView(h.marshal, h.views[0], MAIN)), REJECTION);
    SlotRejectionRecorded(c0, h.marshal, h.views[0], h.cycles[0]);
    SlotRejectedStep(c1, h.marshal, h.views[1], h.cycles[1], c0.generation, MAIN, h.marshal(MAIN));
    EmptyServer(c1, SlotRun(c1, SyncView(h.marshal, h.views[1], MAIN)), TIMEOUT);
  }

  /**
   * A rejected slot is retried after a spec edit; that retry fails transiently; and no further edit, of generation or
   * template, brings another attempt.
   */
  lemma StrandedRetry(id: TriggerId, o: Oracle, marshal: Marshal) returns (h: SlotHistory)
    requires marshal(MAIN) != ""
    ensures ValidSlotHistory(h) && AtRevision(h, MAIN) && |h.cycles| == 3 && h.views[0] == Untouched(true)
    ensures SlotAttempt(h, 0) && SlotResult(h, 0).Rejected() && SlotFails(h, 1)
    ensures h.contexts[2] == Plain(id, o, 3) && !h.cycles[2].running && !SlotAttempt(h, 2)
  {
    var contexts := [Plain(id, o, 1), Plain(id, o, 2), Plain(id, o, 3)];
    var cycles := [SlotCycleAt(MAIN, REJECTION), SlotCycleAt(MAIN, TIMEOUT), SlotCycleAt(MAIN, TIMEOUT)];
    h := SlotHistory(marshal, contexts, Chain(marshal, contexts, Untouched(true), cycles), cycles);
    RetryFailsFor(h, contexts[0], contexts[1]);
    StrandedForever(h, MAIN, 1, 2);
  }

  /** A GitRepository that loses its artifact after a build gets a second run, with empty revision labels. */
  lemma NotReadyBuild(id: TriggerId, o: Oracle, marshal: Marshal, birth: Birth) returns (h: SlotHistory)
    requires marshal(MAIN) != "" && marshal(Unresolved(true)) != ""
    ensures ValidSlotHistory(h) && |h.cycles| == 2 && h.views[0] == Untouched(true)
    ensures h.cycles[1].incoming == Unresolved(true) && SlotAttempt(h, 1)
    ensures var pr := SlotRun(h.contexts[1], SyncView(marshal, h.views[1], Unresolved(true)));
            Get(pr.labels, GIT_NAME) == Some("") && Get(pr.labels, GIT_COMMIT) == Some("")
  {
    var c, created := Plain(id, o, 1), Reply(Listed, Created(birth));
    var cycles := [SlotCycleAt(MAIN, created), SlotCycleAt(Unresolved(true), created)];
    h := SlotHistory(marshal, [c, c], Chain(marshal, [c, c], Untouched(true), cycles), cycles);
    var synced := SyncView(marshal, h.views[0], MAIN);
    EmptyServer(c, SlotRun(c, synced), created);
    StatusKeepsView(c.generation, 0, [], SettledView(c, marshal, 0, false, h.views[0], MAIN, [], [], created), 0);
    assert h.views[1].revision == MAIN && h.views[1].details == marshal(MAIN);
    NotReadyRunIff(c, marshal, h.views[1]);
  }

  // ---- one revision, two templates ----

  const TEAM := SOURCE_LABEL_PREFIX + "team"

  function Teamed(id: TriggerId, o: Oracle, generation: int, team: string): Context {
    Context(id, generation, Template("", "", map[TEAM := team], []), o)
  }

  /** A run of the trigger for the revision, labelled with a team. */
  ghost predicate TeamBuild(id: TriggerId, o: Oracle, run: Run, team: string, name: string) {
    run.name == name && Owned(id, run) && SubMap(SlotLabels(o, MAIN), run.labels) && Get(run.labels, TEAM) == Some(team)
  }

  lemma TeamIsFree(o: Oracle)
    ensures SOURCE_LABEL_PREFIX <= TEAM && TEAM !in SlotLabels(o, MAIN)
  {
    var n := |SOURCE_LABEL_PREFIX|;
    assert TEAM[n] == 't' && GIT_NAME[n] == 'g' && GIT_COMMIT[n] == 'g';
  }

  /** The run of one team is created although the server holds the other team's run for the same revision. */
  lemma TeamLands(id: TriggerId, o: Oracle, marshal: Marshal, generation: int, team: string, name: string,
                  runs: seq<Run>)
    returns (run: Run)
    requires marshal(MAIN) != "" && forall r :: r in runs ==> Get(r.labels, TEAM) != Some(team)
    ensures TeamBuild(id, o, run, team, name)
    ensures CycleLanded(Teamed(id, o, generation, team), marshal, false, Untouched(true), MAIN, runs, runs,
                        Reply(Listed, Created(Birth(name, 0)))) == [run]
  {
    var c := Teamed(id, o, generation, team);
    var pr := SlotRun(c, SyncView(marshal, Untouched(true), MAIN));
    run := Born(pr, Birth(name, 0));
    var want := SourceLabels(pr.labels);
    TeamIsFree(o);
    assert TEAM in want && want[TEAM] == team;
    FindExistingSound(id, want, runs);
    FilteredLookupAgrees(id, want, runs);
  }

  function TeamEvent(id: TriggerId, o: Oracle, generation: int, team: string, name: string, runs: seq<Run>): SlotEvent {
    SlotReconciled(Teamed(id, o, generation, team), 0, false, Untouched(true), MAIN, runs,
                   Reply(Listed, Created(Birth(name, 0))))
  }

  /** A reconcile that lands a run with a new name, as a step of the system. */
  lemma LandingStep(c0: Context, marshal: Marshal, s: SlotState, e: SlotEvent, run: Run) returns (t: SlotState)
    requires e.SlotReconciled? && SameTrigger(c0, e.c) && e.read in s.views && AllKnown(s.ever, e.cached)
    requires CycleLanded(e.c, marshal, e.running, e.read, e.incoming, e.cached, s.runs, e.reply) == [run]
    requires run.name != "" && forall r :: r in s.ever ==> r.name != run.name
    requires NamesOnce(s.ever) && AllKnown(s.ever, s.runs) && DistinctNames(s.runs)
    ensures SlotStep(c0, marshal, s, e, t)
    ensures t.runs == s.runs + [run] && t.ever == s.ever + {run} && s.views <= t.views
    ensures NamesOnce(t.ever) && AllKnown(t.ever, t.runs) && DistinctNames(t.runs)
  {
    var settled := SettledView(e.c, marshal, e.now, e.running, e.read, e.incoming, e.cached, s.runs, e.reply);
    var copied := CycleView(e.c, marshal, e.now, e.running, e.read, e.incoming, e.cached, s.runs, e.reply);
    t := SlotState(s.views + {settled, copied}, s.runs + [run], s.ever + {run});
    assert (set r | r in [run]) == {run};
    forall r | r in s.runs ensures r.name != run.name {
      var known :| known in s.ever && SameIdentity(known, r);
    }
    KnownMonotone(s.ever, t.ever, s.runs);
    assert SameIdentity(run, run);
  }

  lemma TeamStep(c0: Context, marshal: Marshal, s: SlotState, generation: int, team: string, name: string)
    returns (t: SlotState, run: Run)
    requires marshal(MAIN) != "" && Untouched(true) in s.views && name != ""
    requires forall r :: r in s.runs ==> Get(r.labels, TEAM) != Some(team)
    requires forall r :: r in s.ever ==> r.name != name
    requires NamesOnce(s.ever) && AllKnown(s.ever, s.runs) && DistinctNames(s.runs)
    ensures SlotStep(c0, marshal, s, TeamEvent(c0.id, c0.oracle, generation, team, name, s.runs), t)
    ensures TeamBuild(c0.id, c0.oracle, run, team, name)
    ensures t.runs == s.runs + [run] && t.ever == s.ever + {run} && s.views <= t.views
    ensures NamesOnce(t.ever) && AllKnown(t.ever, t.runs) && DistinctNames(t.runs)
  {
    run := TeamLands(c0.id, c0.oracle, marshal, generation, team, name, s.runs);
    t := LandingStep(c0, marshal, s, TeamEvent(c0.id, c0.oracle, generation, team, name, s.runs), run);
  }

  lemma TwoSteps(c0: Context, marshal: Marshal, events: seq<SlotEvent>, states: seq<SlotState>)
    requires |events| == 2 && |states| == 3 && SlotInit(c0, states[0])
    requires SlotStep(c0, marshal, states[0], events[0], states[1])
    requires SlotStep(c0, marshal, states[1], events[1], states[2])
    ensures SlotTrace(c0, marshal, events, states)
  {
  }

  lemma TwoTeams(c0: Context, marshal: Marshal, s0: SlotState, team: string, edited: string, first: string,
                 second: string)
    returns (s1: SlotState, s2: SlotState)
    requires marshal(MAIN) != "" && Untouched(true) in s0.views && s0.runs == [] && s0.ever == {}
    requires team != edited && first != second && first != "" && second != ""
    ensures SlotStep(c0, marshal, s0, TeamEvent(c0.id, c0.oracle, 1, team, first, s0.runs), s1)
    ensures SlotStep(c0, marshal, s1, TeamEvent(c0.id, c0.oracle, 2, edited, second, s1.runs), s2)
    ensures |s2.runs| == 2
    ensures TeamBuild(c0.id, c0.oracle, s2.runs[0], team, first)
    ensures TeamBuild(c0.id, c0.oracle, s2.runs[1], edited, second)
  {
    var a, b;
    s1, a := TeamStep(c0, marshal, s0, 1, team, first);
    assert s1.runs == [a] && s1.ever == {a};
    s2, b := TeamStep(c0, marshal, s1, 2, edited, second);
    assert s2.runs == [a, b];
  }

  /**
   * A template edit that changes a source label, followed by a reconcile from a lost status: the revision is built
   * twice, though the cache is up to date and the server answers every request.
   */
  lemma TemplateEditBuildsTwice(c0: Context, marshal: Marshal) returns (events: seq<SlotEvent>, states: seq<SlotState>)
    requires marshal(MAIN) != ""
    ensures SlotTrace(c0, marshal, events, states) && |states| == 3 && OwnedPair(c0.id, states[2].runs, 0, 1)
    ensures BothBuild(c0.oracle, MAIN, states[2].runs[0], states[2].runs[1])
  {
    var s0 := SlotState({Untouched(true)}, [], {});
    var team, edited, first, second := "red", "blue", "run-a", "run-bb";
    var s1, s2 := TwoTeams(c0, marshal, s0, team, edited, first, second);
    events := [TeamEvent(c0.id, c0.oracle, 1, team, first, s0.runs),
               TeamEvent(c0.id, c0.oracle, 2, edited, second, s1.runs)];
    states := [s0, s1, s2];
    TwoSteps(c0, marshal, events, states);
  }
}
