/**
 * Create or adopt each prepared run and settle its slot (pkg/source/start_runs.go), against an API server whose
 * answers are chosen by the environment.
 */
module StartRuns {
  import opened Util
  import opened Labels
  import opened Runs
  import opened Branches
  import opened PullRequest

  /** Answer to the live, label-filtered LIST: either correct or an error. */
  datatype LiveReply = Listed | ListFailed(err: ApiError)

  /** The name and creation time the server gives a run that lands. */
  datatype Birth = Birth(name: string, created: int)

  /** Answer to a create: created, or an error; a create that timed out may have landed all the same. */
  datatype CreateReply = Created(birth: Birth) | Errored(err: ApiError, landed: Option<Birth>)

  datatype Reply = Reply(live: LiveReply, create: CreateReply)

  function Born(pr: Run, birth: Birth): Run {
    pr.(name := birth.name, created := birth.created)
  }

  // ---- what happens to one prepared run ----

  function Lookup(c: Context, pr: Run, items: seq<Run>): Option<Run> {
    FindExisting(c.id, SourceLabels(pr.labels), items)
  }

  /** The live lookup fails; without source labels no request is sent, so none can fail. */
  predicate LookupFails(pr: Run, live: LiveReply) {
    SourceLabels(pr.labels) != map[] && live.ListFailed?
  }

  function LiveLookup(c: Context, pr: Run, runs: seq<Run>): Option<Run> {
    Lookup(c, pr, WithLabels(runs, SourceLabels(pr.labels)))
  }

  /** The run is sent to the server. */
  predicate Sends(c: Context, pr: Run, cached: seq<Run>, runs: seq<Run>, reply: Reply) {
    Lookup(c, pr, cached).None? && !LookupFails(pr, reply.live) && LiveLookup(c, pr, runs).None?
  }

  function OutcomeOf(c: Context, pr: Run, cached: seq<Run>, runs: seq<Run>, reply: Reply): Outcome {
    if Lookup(c, pr, cached).Some? then Adopted(Lookup(c, pr, cached).value)
    else if LookupFails(pr, reply.live) then Failed(reply.live.err)
    else if LiveLookup(c, pr, runs).Some? then Adopted(LiveLookup(c, pr, runs).value)
    else match reply.create
      case Created(birth) => Started(Born(pr, birth))
      case Errored(err, _) => Failed(err)
  }

  function LandedBirth(create: CreateReply): Option<Birth> {
    match create
    case Created(birth) => Some(birth)
    case Errored(_, landed) => landed
  }

  /** The runs (none or one) this attempt adds to the server. */
  function Landed(c: Context, pr: Run, cached: seq<Run>, runs: seq<Run>, reply: Reply): seq<Run> {
    if Sends(c, pr, cached, runs, reply) && LandedBirth(reply.create).Some?
    then [Born(pr, LandedBirth(reply.create).value)] else []
  }

  /** What a create brings: the prepared run under the name and time the server gave it, and nothing else changed. */
  lemma CreatedShows(c: Context, pr: Run, cached: seq<Run>, runs: seq<Run>, reply: Reply)
    requires OutcomeOf(c, pr, cached, runs, reply).Started?
    ensures reply.create.Created?
    ensures var run := OutcomeOf(c, pr, cached, runs, reply).run;
            && run.name == reply.create.birth.name && run.created == reply.create.birth.created
            && run == pr.(name := run.name, created := run.created)
            && Landed(c, pr, cached, runs, reply) == [run]
  {
  }

  /** A lookup that fails creates nothing: the run is settled by the lookup's own error. */
  lemma LookupFailsClosed(c: Context, pr: Run, cached: seq<Run>, runs: seq<Run>, reply: Reply)
    requires reply.live.ListFailed? && SourceLabels(pr.labels) != map[]
    requires forall x :: x in cached ==> Stranger(c.id, x.owners) || !Carries(x, SourceLabels(pr.labels))
    ensures OutcomeOf(c, pr, cached, runs, reply) == Failed(reply.live.err)
    ensures Landed(c, pr, cached, runs, reply) == []
  {
    FindExistingIff(c.id, SourceLabels(pr.labels), cached);
  }

  /** A run is sent exactly if neither list has one to adopt and the lookup works; it may land behind an error. */
  lemma SentShows(c: Context, pr: Run, cached: seq<Run>, runs: seq<Run>, reply: Reply)
    requires reply.live.Listed?
    requires forall x :: x in cached || x in runs ==> Stranger(c.id, x.owners) || !Carries(x, SourceLabels(pr.labels))
    ensures reply.create.Errored? ==> OutcomeOf(c, pr, cached, runs, reply) == Failed(reply.create.err)
    ensures Landed(c, pr, cached, runs, reply)
         == match reply.create
            case Created(birth) => [pr.(name := birth.name, created := birth.created)]
            case Errored(_, None) => []
            case Errored(_, Some(birth)) => [pr.(name := birth.name, created := birth.created)]
  {
    var want := SourceLabels(pr.labels);
    FindExistingIff(c.id, want, cached);
    FilteredLookupAgrees(c.id, want, runs);
    FindExistingIff(c.id, want, runs);
  }

  /** Runs of others, by their owner references, are never adopted; a server that creates creates. */
  lemma StrangersNeverAdopted(c: Context, pr: Run, cached: seq<Run>, runs: seq<Run>, reply: Reply)
    requires forall x :: x in cached || x in runs ==> Stranger(c.id, x.owners)
    ensures !OutcomeOf(c, pr, cached, runs, reply).Adopted?
    ensures reply.live.Listed? && reply.create.Created? ==> OutcomeOf(c, pr, cached, runs, reply).Started?
  {
    var want := SourceLabels(pr.labels);
    FindExistingIff(c.id, want, cached);
    FilteredLookupAgrees(c.id, want, runs);
    FindExistingIff(c.id, want, runs);
  }

  /**
   * Two triggers on one source each get their run: whatever the cache and the server hold of one trigger's runs, for
   * the same slot or not, the other's is created.
   */
  lemma EachTriggerBuilds(c: Context, d: Context, pr: Run, cached: seq<Run>, runs: seq<Run>, reply: Reply)
    requires c.id.name != d.id.name || (c.id.uid != "" && d.id.uid != "" && c.id.uid != d.id.uid)
    requires forall x :: x in cached || x in runs ==>
               exists stem, labels, details :: x.owners == RunWith(d, stem, labels, details).owners
    requires reply.live.Listed? && reply.create.Created?
    ensures OutcomeOf(c, pr, cached, runs, reply).Started?
  {
    forall x | x in cached || x in runs ensures Stranger(c.id, x.owners) {
      var stem, labels, details :| x.owners == RunWith(d, stem, labels, details).owners;
      PreparedRunStranger(c.id, d, stem, labels, details);
    }
    StrangersNeverAdopted(c, pr, cached, runs, reply);
  }

  /** An adopted run is this trigger's, by its owner references, and carries every source label of the prepared one. */
  lemma AdoptedShows(c: Context, pr: Run, cached: seq<Run>, runs: seq<Run>, reply: Reply)
    requires OutcomeOf(c, pr, cached, runs, reply).Adopted?
    ensures var prior := OutcomeOf(c, pr, cached, runs, reply).prior;
            && (prior in cached || prior in runs) && !Stranger(c.id, prior.owners)
            && Carries(prior, SourceLabels(pr.labels))
  {
    var want := SourceLabels(pr.labels);
    FindExistingSound(c.id, want, cached);
    FindExistingIff(c.id, want, cached);
    FilteredLookupAgrees(c.id, want, runs);
    FindExistingSound(c.id, want, runs);
    FindExistingIff(c.id, want, runs);
  }

  lemma AdoptedCommit(c: Context, b: Branch, cached: seq<Run>, runs: seq<Run>, reply: Reply)
    requires OutcomeOf(c, RunFor(c, b), cached, runs, reply).Adopted? && ValidLabelValue(b.commit)
    ensures Get(OutcomeOf(c, RunFor(c, b), cached, runs, reply).prior.labels, COMMIT_LABEL) == Some(b.commit)
  {
    AdoptedShows(c, RunFor(c, b), cached, runs, reply);
    RunForReads(c, b);
    assert SOURCE_LABEL_PREFIX <= COMMIT_LABEL;
    assert COMMIT_LABEL in SourceLabels(RunFor(c, b).labels);
  }

  /**
   * Whatever is adopted for a branch carries its commit, where that is a label value as it stands: a run created for
   * another such commit never is.
   */
  lemma OnlyOwnCommitAdopted(c: Context, b: Branch, cached: seq<Run>, runs: seq<Run>, reply: Reply,
                             d: Context, a: Branch, birth: Birth)
    requires ValidLabelValue(a.commit) && ValidLabelValue(b.commit)
    ensures OutcomeOf(c, RunFor(c, b), cached, runs, reply) == Adopted(Born(RunFor(d, a), birth)) ==>
              a.commit == b.commit
  {
    if OutcomeOf(c, RunFor(c, b), cached, runs, reply) == Adopted(Born(RunFor(d, a), birth)) {
      AdoptedCommit(c, b, cached, runs, reply);
      RunForReads(d, a);
    }
  }

  // ---- what happens to all of them ----

  datatype StartResult = StartResult(started: nat, existing: nat, permanent: nat, transientErr: Option<ApiError>)

  function Count(res: StartResult, out: Outcome): StartResult {
    match out
    case Adopted(_) => res.(existing := res.existing + 1)
    case Started(_) => res.(started := res.started + 1)
    case Failed(err) =>
      if IsPermanent(err) then res.(permanent := res.permanent + 1) else res.(transientErr := Some(err))
  }

  datatype World = World(branches: BranchMap, runs: seq<Run>, result: StartResult)

  function StartOne(c: Context, now: int, before: BranchMap, cached: seq<Run>, w: World, pr: Run, reply: Reply): World {
    var out := OutcomeOf(c, pr, cached, w.runs, reply);
    World(Settle(c, now, before, pr, out, w.branches), w.runs + Landed(c, pr, cached, w.runs, reply),
          Count(w.result, out))
  }

  function StartAll(c: Context, now: int, before: BranchMap, cached: seq<Run>, w: World,
                    prs: seq<Run>, replies: seq<Reply>): World
    requires |prs| == |replies|
    decreases |prs|
  {
    if prs == [] then w
    else StartAll(c, now, before, cached, StartOne(c, now, before, cached, w, prs[0], replies[0]), prs[1..],
                  replies[1..])
  }

  const NOTHING := StartResult(0, 0, 0, None)

  // ---- the methods ----

  class Server {
    /** The PipelineRuns of the namespace. */
    var runs: seq<Run>

    constructor (runs: seq<Run>)
      ensures this.runs == runs
    {
      this.runs := runs;
    }

    method List(want: LabelMap, reply: LiveReply) returns (items: seq<Run>, err: Option<ApiError>)
      ensures reply.Listed? ==> err.None? && items == WithLabels(runs, want)
      ensures reply.ListFailed? ==> err == Some(reply.err)
    {
      if reply.ListFailed? {
        return [], Some(reply.err);
      }
      items, err := [], None;
      for i := 0 to |runs|
        invariant items == WithLabels(runs[..i], want)
      {
        assert runs[..i + 1][..i] == runs[..i];
        if SubMap(want, runs[i].labels) {
          items := items + [runs[i]];
        }
      }
      assert runs[..|runs|] == runs;
    }

    method Create(pr: Run, reply: CreateReply) returns (name: string, err: Option<ApiError>)
      modifies this
      ensures runs == old(runs) + if LandedBirth(reply).Some? then [Born(pr, LandedBirth(reply).value)] else []
      ensures reply.Created? ==> err.None? && name == reply.birth.name
      ensures reply.Errored? ==> err == Some(reply.err)
    {
      if LandedBirth(reply).Some? {
        runs := runs + [Born(pr, LandedBirth(reply).value)];
      }
      match reply {
        case Created(birth) => return birth.name, None;
        case Errored(e, _) => return "", Some(e);
      }
    }
  }

  method FindLiveRun(live: Server, id: TriggerId, pr: Run, reply: LiveReply)
    returns (prior: Option<Run>, err: Option<ApiError>)
    ensures LookupFails(pr, reply) ==> err == Some(reply.err)
    ensures !LookupFails(pr, reply) ==>
              && err.None?
              && prior == FindExisting(id, SourceLabels(pr.labels), WithLabels(live.runs, SourceLabels(pr.labels)))
  {
    var want := CollectSourceLabels(pr.labels);
    if want == map[] {
      return None, None;
    }
    var items, failed := live.List(want, reply);
    if failed.Some? {
      return None, failed;
    }
    prior := FindExistingRun(id, pr, items);
    err := None;
  }

  method StartPipelineRuns(server: Server, pt: Trigger, prs: seq<Run>, existing: seq<Run>, before: BranchMap,
                           replies: seq<Reply>, now: int)
    returns (res: StartResult)
    requires |prs| == |replies|
    modifies server, pt`branches
    ensures World(pt.branches, server.runs, res)
         == StartAll(pt.Reading(), now, before, existing, World(old(pt.branches), old(server.runs), NOTHING), prs,
                     replies)
  {
    res := NOTHING;
    ghost var c := pt.Reading();
    ghost var w0 := World(pt.branches, server.runs, res);
    for i := 0 to |prs|
      invariant pt.Reading() == c
      invariant StartAll(c, now, before, existing, World(pt.branches, server.runs, res), prs[i..], replies[i..])
             == StartAll(c, now, before, existing, w0, prs, replies)
    {
      res := StartOneRun(server, pt, prs[i], existing, before, replies[i], now, res);
      assert prs[i..][1..] == prs[i + 1..] && replies[i..][1..] == replies[i + 1..];
    }
  }

  /** The loop body: look for an existing run, ask the server, create, and settle. */
  method StartOneRun(server: Server, pt: Trigger, pr: Run, existing: seq<Run>, before: BranchMap, reply: Reply,
                     now: int, soFar: StartResult)
    returns (res: StartResult)
    modifies server, pt`branches
    ensures World(pt.branches, server.runs, res)
         == StartOne(pt.Reading(), now, before, existing, World(old(pt.branches), old(server.runs), soFar), pr, reply)
  {
    res := soFar;
    var prior := FindExistingRun(pt.id, pr, existing);
    if prior.None? {
      var errLive;
      prior, errLive := FindLiveRun(server, pt.id, pr, reply.live);
      if errLive.Some? {
        var permanent := IsPermanent(errLive.value);
        pt.SettleFailedRun(now, before, pr, errLive.value, permanent);
        return if permanent then res.(permanent := res.permanent + 1) else res.(transientErr := errLive);
      }
    }
    if prior.Some? {
      pt.SetCurrentPipelineRunName(prior.value, prior.value.name);
      AdoptedIsPointwise(pt.Reading(), now, before, pr, prior.value, old(pt.branches), pt.branches);
      return res.(existing := res.existing + 1);
    }
    var instanceName, errRun := server.Create(pr, reply.create);
    if errRun.Some? {
      var permanent := IsPermanent(errRun.value);
      pt.SettleFailedRun(now, before, pr, errRun.value, permanent);
      return if permanent then res.(permanent := res.permanent + 1) else res.(transientErr := errRun);
    }
    pt.SetCurrentPipelineRunName(pr, instanceName);
    StartedIsPointwise(pt.Reading(), now, before, pr, reply.create.birth, old(pt.branches), pt.branches);
    return res.(started := res.started + 1);
  }

  lemma AdoptedIsPointwise(c: Context, now: int, before: BranchMap, pr: Run, prior: Run, m: BranchMap, named: BranchMap)
    requires named == map k | k in m :: if HasIntersection(BranchLabels(c.oracle, m[k]), prior.labels)
                                        then m[k].(latestPipelineRun := prior.name) else m[k]
    ensures named == Settle(c, now, before, pr, Adopted(prior), m)
  {
  }

  lemma StartedIsPointwise(c: Context, now: int, before: BranchMap, pr: Run, birth: Birth, m: BranchMap,
                           named: BranchMap)
    requires named == map k | k in m :: if HasIntersection(BranchLabels(c.oracle, m[k]), pr.labels)
                                        then m[k].(latestPipelineRun := birth.name) else m[k]
    ensures named == Settle(c, now, before, pr, Started(Born(pr, birth)), m)
  {
  }
}
