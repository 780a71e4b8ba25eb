/**
 * The multi-slot source: a PullRequest trigger tracks one slot per branch and its methods update the branch map
 * in place, visiting the keys in whatever order Go's map iteration picks.
 */
module PullRequest {
  import opened Util
  import opened Conditions
  import opened Runs
  import opened Branches

  // ---- the whole map, phase by phase ----

  /** The source list as a map; of entries with one name, the last wins. */
  function SourceMap(list: seq<SourceBranch>): BranchMap {
    if list == [] then map[]
    else
      var last := list[|list| - 1];
      SourceMap(list[..|list| - 1])[last.name := Fresh(last)]
  }

  ghost predicate LastEntry(list: seq<SourceBranch>, i: nat, k: string) {
    i < |list| && list[i].name == k && forall j :: i < j < |list| ==> list[j].name != k
  }

  lemma {:induction false} SourceMapIsLastEntry(list: seq<SourceBranch>, k: string)
    ensures k in SourceMap(list) ==> exists i: nat :: LastEntry(list, i, k) && SourceMap(list)[k] == Fresh(list[i])
    ensures k !in SourceMap(list) ==> forall i :: 0 <= i < |list| ==> list[i].name != k
  {
    if list != [] {
      var n := |list| - 1;
      SourceMapIsLastEntry(list[..n], k);
      if list[n].name == k {
        assert LastEntry(list, n, k);
      } else if k in SourceMap(list) {
        var i: nat :| LastEntry(list[..n], i, k) && SourceMap(list[..n])[k] == Fresh(list[..n][i]);
        assert LastEntry(list, i, k);
      }
    }
  }

  function Sync(tracked: BranchMap, incoming: BranchMap): BranchMap {
    if incoming == map[] then tracked
    else map k | k in incoming :: SyncSlot(Get(tracked, k), incoming[k])
  }

  predicate IsNews(tracked: Option<Branch>, incoming: Branch) {
    tracked.None? || tracked.value.commit != incoming.commit
  }

  ghost predicate AnyNews(tracked: BranchMap, incoming: BranchMap, keys: set<string>) {
    exists k :: k in keys && k in incoming && IsNews(Get(tracked, k), incoming[k])
  }

  /**
   * A non-empty source list decides what is tracked: exactly its names, each slot kept where the commit of the last
   * entry with its name is the tracked one, and started afresh, without conditions, otherwise.
   */
  lemma SyncFollowsSource(tracked: BranchMap, list: seq<SourceBranch>, k: string)
    requires list != []
    ensures k in Sync(tracked, SourceMap(list)) <==> exists i :: 0 <= i < |list| && list[i].name == k
    ensures forall i: nat :: LastEntry(list, i, k) ==>
              (Get(Sync(tracked, SourceMap(list)), k)
               == Some(if k in tracked && tracked[k].commit == list[i].commit then tracked[k]
                       else Branch(list[i].name, list[i].commit, "", list[i].details, [])))
  {
    SourceMapIsLastEntry(list, k);
    SourceMapIsLastEntry(list, list[0].name);
    assert SourceMap(list) != map[];
    if k in SourceMap(list) {
      var i: nat :| LastEntry(list, i, k) && SourceMap(list)[k] == Fresh(list[i]);
      assert forall j: nat :: LastEntry(list, j, k) ==> j == i;
    }
  }

  /** An empty source list, a poll that failed, changes nothing. */
  lemma EmptyPollKeeps(tracked: BranchMap)
    ensures Sync(tracked, SourceMap([])) == tracked
  {
  }

  /** A second sync with the same source changes nothing and reports nothing new. */
  lemma SyncIdempotent(tracked: BranchMap, incoming: BranchMap)
    ensures Sync(Sync(tracked, incoming), incoming) == Sync(tracked, incoming)
    ensures forall k :: k in incoming ==> !IsNews(Get(Sync(tracked, incoming), k), incoming[k])
  {
    if incoming != map[] {
      forall k ensures Get(Sync(Sync(tracked, incoming), incoming), k) == Get(Sync(tracked, incoming), k) {}
      MapsEqual(Sync(Sync(tracked, incoming), incoming), Sync(tracked, incoming));
    }
  }

  function PrepareAll(c: Context, now: int, m: BranchMap): BranchMap {
    map k | k in m :: PrepareSlot(c, now, m[k]).slot
  }

  /** `order` lists, once each, the branches that get a run. */
  ghost predicate PrepareOrder(c: Context, m: BranchMap, order: seq<string>) {
    NoDup(order) && forall k :: k in order <==> k in m && Wants(c, m[k])
  }

  function PreparedRuns(c: Context, m: BranchMap, order: seq<string>): seq<Run>
    requires forall k :: k in order ==> k in m
  {
    seq(|order|, i requires 0 <= i < |order| => RunFor(c, m[order[i]]))
  }

  function Settle(c: Context, now: int, before: BranchMap, pr: Run, out: Outcome, m: BranchMap): BranchMap {
    map k | k in m && SettleSlot(c, now, Get(before, k), m[k], pr, out).Some?
      :: SettleSlot(c, now, Get(before, k), m[k], pr, out).value
  }

  lemma SettleIsPointwise(c: Context, now: int, before: BranchMap, pr: Run, out: Outcome, m: BranchMap,
                          settled: BranchMap)
    requires settled.Keys <= m.Keys
    requires forall k :: k in m ==> Get(settled, k) == SettleSlot(c, now, Get(before, k), m[k], pr, out)
    ensures settled == Settle(c, now, before, pr, out, m)
  {
    var s := Settle(c, now, before, pr, out, m);
    forall k ensures Get(settled, k) == Get(s, k) {
      if k in m {
        var slot := SettleSlot(c, now, Get(before, k), m[k], pr, out);
        assert Get(settled, k) == slot;
        assert k in s <==> slot.Some?;
      }
    }
    MapsEqual(settled, s);
  }

  /** An entry is written, or removed when there is none. */
  function Put(m: BranchMap, key: string, slot: Option<Branch>): BranchMap {
    if slot.Some? then m[key := slot.value] else m - {key}
  }

  /** The settling loop halfway: the branches in `keys` are still to be visited. */
  ghost predicate HalfSettled(c: Context, now: int, before: BranchMap, pr: Run, out: Outcome, m: BranchMap,
                              keys: set<string>, current: BranchMap)
  {
    && keys <= m.Keys && current.Keys <= m.Keys
    && (forall k :: k in keys ==> Get(current, k) == Some(m[k]))
    && (forall k :: k in m && k !in keys ==> Get(current, k) == SettleSlot(c, now, Get(before, k), m[k], pr, out))
  }

  lemma HalfSettledAt(c: Context, now: int, before: BranchMap, pr: Run, out: Outcome, m: BranchMap,
                      keys: set<string>, current: BranchMap, key: string)
    requires HalfSettled(c, now, before, pr, out, m, keys, current) && key in keys
    ensures key in current && current[key] == m[key]
    ensures HalfSettled(c, now, before, pr, out, m, keys - {key},
                        Put(current, key, SettleSlot(c, now, Get(before, key), m[key], pr, out)))
  {
    assert Get(current, key) == Some(m[key]);
    var slot := SettleSlot(c, now, Get(before, key), m[key], pr, out);
    PutAt(current, key, slot);
  }

  lemma PutAt(m: BranchMap, key: string, slot: Option<Branch>)
    ensures forall k :: Get(Put(m, key, slot), k) == if k == key then slot else Get(m, k)
    ensures Put(m, key, slot).Keys <= m.Keys + {key}
  {
  }

  function StatusAll(generation: int, now: int, list: seq<Run>, m: BranchMap): BranchMap {
    map k | k in m :: StatusSlot(generation, now, list, m[k])
  }

  /** The slot names a listed run that has no conditions yet. */
  predicate Unreported(list: seq<Run>, b: Branch) {
    Named(list, b.latestPipelineRun).Some? && Unstated(Named(list, b.latestPipelineRun).value)
  }

  ghost predicate AnyUnreported(list: seq<Run>, m: BranchMap, keys: set<string>) {
    exists k :: k in keys && k in m && Unreported(list, m[k])
  }

  /**
   * What the copying of branch results leaves on the GitRepository slot, which a PullRequest does not otherwise use.
   */
  ghost function Marked(now: int, list: seq<Run>, m: BranchMap, keys: set<string>, git: seq<Condition>)
    : seq<Condition>
  {
    if AnyUnreported(list, m, keys) then Replaced(git, Unparsed(now, NO_CONDITIONS)) else git
  }

  lemma MarkedNext(now: int, list: seq<Run>, m: BranchMap, keys: set<string>, key: string, git: seq<Condition>)
    requires key in m && key !in keys
    ensures Marked(now, list, m, keys + {key}, git)
         == if Unreported(list, m[key]) then Replaced(Marked(now, list, m, keys, git), Unparsed(now, NO_CONDITIONS))
            else Marked(now, list, m, keys, git)
  {
    ReplacedTwice(git, Unparsed(now, NO_CONDITIONS), Unparsed(now, NO_CONDITIONS));
    if Unreported(list, m[key]) {
      assert key in keys + {key};
      assert AnyUnreported(list, m, keys + {key});
    } else if k :| k in keys && k in m && Unreported(list, m[k]) {
      assert k in keys + {key};
    }
  }

  /** The mark appears exactly if some branch names a listed run without conditions; nothing else changes. */
  lemma MarkedShows(now: int, list: seq<Run>, m: BranchMap, git: seq<Condition>)
    ensures var marked := Marked(now, list, m, m.Keys, git);
            if exists k :: k in m && Named(list, m[k].latestPipelineRun).Some?
                           && var run := Named(list, m[k].latestPipelineRun).value;
                              run.status.None? || run.status.value.conditions.None?
            then forall x :: x in marked <==>
                   || x == Condition("False", "False", "ParamsUnmarshalFailed", "Unmarshal of conditions failed.",
                                     0, now)
                   || (x in git && x.ctype != "False")
            else marked == git
  {
    ReplacedContents(git, Unparsed(now, NO_CONDITIONS));
    if k :| k in m && Named(list, m[k].latestPipelineRun).Some?
            && var run := Named(list, m[k].latestPipelineRun).value;
               run.status.None? || run.status.value.conditions.None? {
      assert Unreported(list, m[k]);
      assert AnyUnreported(list, m, m.Keys);
    }
  }

  function ManagedSlot(generation: int, now: int, message: string, b: Branch): Branch {
    b.(conditions := Replaced(b.conditions, Failure(generation, now, message)))
  }

  function ManageAll(generation: int, now: int, message: string, m: BranchMap): BranchMap {
    if m == map[] then map["null" := ManagedSlot(generation, now, message, Branch("", "", "", "", []))]
    else map k | k in m :: ManagedSlot(generation, now, message, m[k])
  }

  /**
   * What a managed error leaves: on every tracked slot, or on the nameless one filed as "null" if there is none, one
   * generic error; everything else as it was.
   */
  lemma ManagedShows(generation: int, now: int, message: string, m: BranchMap)
    ensures var managed := ManageAll(generation, now, message, m);
            && managed.Keys == (if m == map[] then {"null"} else m.Keys)
            && forall k :: k in managed ==>
                 var b := if k in m then m[k] else Branch("", "", "", "", []);
                 && managed[k] == b.(conditions := managed[k].conditions)
                 && forall x :: x in managed[k].conditions <==>
                      || x == Condition("Error", "False", "Failed", message, generation, now)
                      || (x in b.conditions && x.ctype != "Error")
  {
    var managed := ManageAll(generation, now, message, m);
    forall k | k in managed
      ensures var b := if k in m then m[k] else Branch("", "", "", "", []);
              && managed[k] == b.(conditions := managed[k].conditions)
              && forall x :: x in managed[k].conditions <==>
                   || x == Condition("Error", "False", "Failed", message, generation, now)
                   || (x in b.conditions && x.ctype != "Error")
    {
      var b := if k in m then m[k] else Branch("", "", "", "", []);
      ReplacedContents(b.conditions, Failure(generation, now, message));
    }
  }

  method GetPrBranches(list: seq<SourceBranch>) returns (m: BranchMap)
    ensures m == SourceMap(list)
  {
    m := map[];
    for i := 0 to |list|
      invariant m == SourceMap(list[..i])
    {
      assert list[..i + 1][..i] == list[..i];
      m := m[list[i].name := Fresh(list[i])];
    }
    assert list[..|list|] == list;
  }

  class Trigger {
    const id: TriggerId
    const oracle: Oracle
    var generation: int
    var template: Template
    var branches: BranchMap
    /** The conditions of status.gitRepository. */
    var gitConditions: seq<Condition>

    function Reading(): Context
      reads this
    {
      Context(id, generation, template, oracle)
    }

    constructor (id: TriggerId, oracle: Oracle, generation: int, template: Template, branches: BranchMap,
                 gitConditions: seq<Condition>)
      ensures Reading() == Context(id, generation, template, oracle)
      ensures this.branches == branches && this.gitConditions == gitConditions
    {
      this.id, this.oracle, this.generation, this.template := id, oracle, generation, template;
      this.branches, this.gitConditions := branches, gitConditions;
    }

    /** An empty source list is a failed poll, never a removal of every branch. */
    method GetLatestEvent(source: seq<SourceBranch>) returns (gotNewEvent: bool)
      modifies this`branches
      ensures branches == Sync(old(branches), SourceMap(source))
      ensures gotNewEvent <==> AnyNews(old(branches), SourceMap(source), SourceMap(source).Keys)
    {
      var incoming := GetPrBranches(source);
      if |incoming| == 0 {
        return false;
      }
      if |branches| > 0 {
        gotNewEvent := AddIncoming(incoming);
        RemoveMissing(incoming);
      } else {
        branches := incoming;
        gotNewEvent := true;
        var k :| k in incoming;
        assert IsNews(Get(old(branches), k), incoming[k]);
      }
    }

    /** First loop: take over every new or changed branch. */
    method AddIncoming(incoming: BranchMap) returns (gotNewEvent: bool)
      modifies this`branches
      ensures branches.Keys == old(branches).Keys + incoming.Keys
      ensures forall k :: k in incoming ==> branches[k] == SyncSlot(Get(old(branches), k), incoming[k])
      ensures gotNewEvent <==> AnyNews(old(branches), incoming, incoming.Keys)
    {
      gotNewEvent := false;
      var keys := incoming.Keys;
      ghost var done := {};
      while keys != {}
        invariant done !! keys && done + keys == incoming.Keys
        invariant branches.Keys == old(branches).Keys + done
        invariant forall k :: k in done ==> branches[k] == SyncSlot(Get(old(branches), k), incoming[k])
        invariant forall k :: k in old(branches) && k !in done ==> branches[k] == old(branches)[k]
        invariant gotNewEvent <==> AnyNews(old(branches), incoming, done)
      {
        var key :| key in keys;
        keys, done := keys - {key}, done + {key};
        if key in branches {
          if incoming[key].commit != branches[key].commit {
            branches := branches[key := incoming[key]];
            gotNewEvent := true;
          }
        } else {
          branches := branches[key := incoming[key]];
          gotNewEvent := true;
        }
      }
      assert done == incoming.Keys;
    }

    /** Second loop: drop every branch the source no longer lists. */
    method RemoveMissing(incoming: BranchMap)
      modifies this`branches
      ensures branches == map k | k in old(branches) && k in incoming :: old(branches)[k]
    {
      var keys := branches.Keys;
      while keys != {}
        invariant keys <= old(branches).Keys
        invariant branches == map k | k in old(branches) && (k in incoming || k in keys) :: old(branches)[k]
      {
        var key :| key in keys;
        keys := keys - {key};
        if key !in incoming {
          branches := branches - {key};
        }
      }
    }

    method CreatePipelineRunResource(now: int) returns (prs: seq<Run>, ghost order: seq<string>)
      modifies this`branches
      ensures branches == PrepareAll(Reading(), now, old(branches))
      ensures PrepareOrder(Reading(), old(branches), order)
      ensures prs == PreparedRuns(Reading(), old(branches), order)
    {
      prs, order := [], [];
      var keys := branches.Keys;
      while keys != {}
        invariant keys <= old(branches).Keys == branches.Keys
        invariant forall k :: k in keys ==> branches[k] == old(branches)[k]
        invariant forall k :: k in branches && k !in keys ==>
                    branches[k] == PrepareSlot(Reading(), now, old(branches)[k]).slot
        invariant NoDup(order)
        invariant forall k :: k in order <==> k in old(branches) && k !in keys && Wants(Reading(), old(branches)[k])
        invariant prs == PreparedRuns(Reading(), old(branches), order)
      {
        var key :| key in keys;
        keys := keys - {key};
        var run, slot := PrepareBranch(now, branches[key]);
        if run.Some? {
          prs := prs + [run.value];
          order := order + [key];
        }
        branches := branches[key := slot];
      }
    }

    /** The loop body: the run for one branch, if it gets one, and its slot afterwards. */
    method PrepareBranch(now: int, b: Branch) returns (run: Option<Run>, slot: Branch)
      ensures Prepared(run, slot) == PrepareSlot(Reading(), now, b)
    {
      var tempBranch := b;
      run := None;
      var retry, eligible := SlotEligibleForCreate(tempBranch.conditions, generation);
      if eligible {
        if retry {
          tempBranch := tempBranch.(conditions := []);
        }
        var ok, message := EvaluatePipelineParams(Reading(), tempBranch.details);
        var condition := Failure(generation, now, message);
        if ok {
          run := Some(RunFor(Reading(), tempBranch));
          condition := Pending(generation, now);
        }
        var conditions := AddOrReplaceCondition(tempBranch.conditions, condition);
        tempBranch := tempBranch.(details := "", conditions := conditions);
      }
      slot := tempBranch;
    }

    method SetCurrentPipelineRunName(run: Run, name: string)
      modifies this`branches
      ensures branches == map k | k in old(branches) ::
                if HasIntersection(BranchLabels(oracle, old(branches)[k]), run.labels)
                then old(branches)[k].(latestPipelineRun := name) else old(branches)[k]
    {
      var keys := branches.Keys;
      while keys != {}
        invariant keys <= old(branches).Keys == branches.Keys
        invariant forall k :: k in branches ==>
                    branches[k] == if k !in keys && HasIntersection(BranchLabels(oracle, old(branches)[k]), run.labels)
                                   then old(branches)[k].(latestPipelineRun := name) else old(branches)[k]
      {
        var key :| key in keys;
        keys := keys - {key};
        var tempBranch := branches[key];
        if HasIntersection(BranchLabels(oracle, tempBranch), run.labels) {
          branches := branches[key := tempBranch.(latestPipelineRun := name)];
        }
      }
    }

    method SettleFailedRun(now: int, before: BranchMap, pr: Run, err: ApiError, permanent: bool)
      requires permanent == IsPermanent(err)
      modifies this`branches
      ensures branches == Settle(Reading(), now, before, pr, Failed(err), old(branches))
    {
      ghost var c, tracked := Reading(), branches;
      var keys := branches.Keys;
      while keys != {}
        invariant Reading() == c
        invariant HalfSettled(c, now, before, pr, Failed(err), tracked, keys, branches)
      {
        var key :| key in keys;
        HalfSettledAt(c, now, before, pr, Failed(err), tracked, keys, branches, key);
        var settled := SettleFailedBranch(now, Get(before, key), branches[key], pr, err, permanent);
        keys := keys - {key};
        branches := Put(branches, key, settled);
      }
      SettleIsPointwise(c, now, before, pr, Failed(err), tracked, branches);
    }

    /** The loop body: keep, reject, restore or drop one slot. */
    method SettleFailedBranch(now: int, before: Option<Branch>, b: Branch, pr: Run, err: ApiError, permanent: bool)
      returns (slot: Option<Branch>)
      requires permanent == IsPermanent(err)
      ensures slot == SettleSlot(Reading(), now, before, b, pr, Failed(err))
    {
      if !HasIntersection(BranchLabels(oracle, b), pr.labels) {
        return Some(b);
      }
      if permanent {
        return Some(b.(latestPipelineRun := "", conditions := [CreateFailed(generation, now, err.message)]));
      }
      return before;
    }

    method SetCurrentPipelineRunStatus(now: int, list: seq<Run>)
      requires forall i, j :: 0 <= i < j < |list| ==> list[i].name != list[j].name
      modifies this`branches, this`gitConditions
      ensures branches == StatusAll(generation, now, list, old(branches))
      ensures gitConditions == Marked(now, list, old(branches), old(branches).Keys, old(gitConditions))
    {
      var keys := branches.Keys;
      ghost var done := {};
      while keys != {}
        invariant done !! keys && done + keys == old(branches).Keys == branches.Keys
        invariant forall k :: k in branches ==>
                    branches[k] == if k in keys then old(branches)[k]
                                   else StatusSlot(generation, now, list, old(branches)[k])
        invariant gitConditions == Marked(now, list, old(branches), done, old(gitConditions))
      {
        var key :| key in keys;
        MarkedNext(now, list, old(branches), done, key, old(gitConditions));
        keys, done := keys - {key}, done + {key};
        CopyBranchStatus(now, key, list);
      }
      assert done == old(branches).Keys;
    }

    /** The loop body: look for the run one branch names among the listed ones. */
    method CopyBranchStatus(now: int, key: string, list: seq<Run>)
      requires forall i, j :: 0 <= i < j < |list| ==> list[i].name != list[j].name
      requires key in branches
      modifies this`branches, this`gitConditions
      ensures branches == old(branches)[key := StatusSlot(generation, now, list, old(branches)[key])]
      ensures gitConditions == if Unreported(list, old(branches)[key])
                               then Replaced(old(gitConditions), Unparsed(now, NO_CONDITIONS)) else old(gitConditions)
    {
      var tempBranch := branches[key];
      NamedSound(list, tempBranch.latestPipelineRun);
      for i := 0 to |list|
        invariant if exists j :: 0 <= j < i && list[j].name == tempBranch.latestPipelineRun
                  then (&& branches == old(branches)[key := StatusSlot(generation, now, list, tempBranch)]
                        && gitConditions == if Unreported(list, tempBranch)
                                            then Replaced(old(gitConditions), Unparsed(now, NO_CONDITIONS))
                                            else old(gitConditions))
                  else branches == old(branches) && gitConditions == old(gitConditions)
      {
        if list[i].name == tempBranch.latestPipelineRun {
          assert Named(list, tempBranch.latestPipelineRun) == Some(list[i]);
          CopyRunStatus(now, key, list[i]);
        }
      }
    }

    /** What is done with the run a branch names. */
    method CopyRunStatus(now: int, key: string, run: Run)
      requires key in branches
      modifies this`branches, this`gitConditions
      ensures var b := old(branches)[key];
              branches == old(branches)[key := if StateIdentical(run, b) then b
                else b.(conditions := CopyConditions(generation, now, b.conditions, RunConditions(run)))]
      ensures gitConditions == if Unstated(run) then Replaced(old(gitConditions), Unparsed(now, NO_CONDITIONS))
                               else old(gitConditions)
    {
      var b := branches[key];
      if !StateIdentical(run, b) {
        ReplacedTwice(gitConditions, Unparsed(now, NO_STATUS), Unparsed(now, NO_CONDITIONS));
        if run.status.None? {
          gitConditions := AddOrReplaceCondition(gitConditions, Unparsed(now, NO_STATUS));
        }
        if Unstated(run) {
          gitConditions := AddOrReplaceCondition(gitConditions, Unparsed(now, NO_CONDITIONS));
        }
        var conditions := CopyRunConditions(now, b.conditions, RunConditions(run));
        branches := branches[key := b.(conditions := conditions)];
      }
    }

    method CopyRunConditions(now: int, into: seq<Condition>, from: seq<RunCondition>) returns (result: seq<Condition>)
      ensures result == CopyConditions(generation, now, into, from)
    {
      result := into;
      for i := 0 to |from|
        invariant CopyConditions(generation, now, result, from[i..]) == CopyConditions(generation, now, into, from)
      {
        result := AddOrReplaceCondition(result, Copied(generation, now, from[i]));
      }
    }

    method ManageError(now: int, message: string)
      modifies this`branches
      ensures branches == ManageAll(generation, now, message, old(branches))
    {
      var condition := Failure(generation, now, message);
      if |branches| == 0 {
        var conditions := AddOrReplaceCondition([], condition);
        branches := map["null" := Branch("", "", "", "", conditions)];
        return;
      }
      var keys := branches.Keys;
      while keys != {}
        invariant keys <= old(branches).Keys == branches.Keys
        invariant forall k :: k in branches ==>
                    branches[k] == if k in keys then old(branches)[k]
                                   else ManagedSlot(generation, now, message, old(branches)[k])
      {
        var key :| key in keys;
        keys := keys - {key};
        var conditions := AddOrReplaceCondition(branches[key].conditions, condition);
        branches := branches[key := branches[key].(conditions := conditions)];
      }
    }
  }
}
