/**
 * The trimmed informer cache (pkg/source/pipelinerun_cache.go): what is dropped never shows in what the operator
 * decides from the cached runs.
 */
module RunCache {
  import opened Util
  import opened Runs
  import opened Branches
  import PR = PullRequest
  import opened SingleSlot

  const LAST_APPLIED := "kubectl.kubernetes.io/last-applied-configuration"

  datatype ObjectMeta = ObjectMeta(
    name: string, generateName: string, namespace: string, uid: string, resourceVersion: string, generation: int,
    created: int, deleted: Option<int>, gracePeriod: Option<int>, labels: LabelMap, annotations: Option<LabelMap>,
    owners: seq<OwnerRef>, finalizers: seq<string>, managedFields: seq<string>)

  /** `rest` stands for everything the operator never reads: the resolved pipeline, workspaces, results, children. */
  datatype RunSpec = RunSpec(status: string, params: seq<Param>, rest: string)

  datatype RunStatusFields = RunStatusFields(
    conditions: seq<RunCondition>, observedGeneration: int, annotations: LabelMap, rest: string)

  datatype PipelineRun = PipelineRun(meta: ObjectMeta, spec: RunSpec, status: RunStatusFields)

  function Trimmed(run: PipelineRun): PipelineRun {
    var m := run.meta;
    PipelineRun(
      m.(managedFields := [],
         annotations := if m.annotations.Some? && m.annotations.value != map[]
                        then Some(m.annotations.value - {LAST_APPLIED}) else None),
      RunSpec(run.spec.status, [], ""),
      run.status.(rest := ""))
  }

  method TransformForCache(run: PipelineRun) returns (out: PipelineRun)
    ensures out == Trimmed(run)
  {
    var annotations: Option<LabelMap> := None;
    if run.meta.annotations.Some? && |run.meta.annotations.value| > 0 {
      var from := run.meta.annotations.value;
      var ann: LabelMap := map[];
      var keys := from.Keys;
      while keys != {}
        invariant keys <= from.Keys
        invariant ann == map k | k in from && k !in keys && k != LAST_APPLIED :: from[k]
      {
        var k :| k in keys;
        keys := keys - {k};
        if k != LAST_APPLIED {
          ann := ann[k := from[k]];
        }
      }
      assert ann == from - {LAST_APPLIED};
      annotations := Some(ann);
    }
    out := PipelineRun(run.meta.(managedFields := [], annotations := annotations),
                       RunSpec(run.spec.status, [], ""), run.status.(rest := ""));
  }

  /** A missing and an empty annotation map say the same. */
  function Normal(run: PipelineRun): PipelineRun {
    if run.meta.annotations == Some(map[]) then run.(meta := run.meta.(annotations := None)) else run
  }

  /** What goes and what stays: parameters, large fields, managed fields and one annotation go, all else stays. */
  lemma TrimmedDrops(run: PipelineRun)
    ensures var t := Trimmed(run);
            && t.spec == RunSpec(run.spec.status, [], "") && t.status == run.status.(rest := "")
            && t.meta.(annotations := run.meta.annotations, managedFields := run.meta.managedFields) == run.meta
            && t.meta.managedFields == []
            && forall k, v :: (t.meta.annotations.Some? && Get(t.meta.annotations.value, k) == Some(v)) <==>
                 k != LAST_APPLIED && run.meta.annotations.Some? && Get(run.meta.annotations.value, k) == Some(v)
  {
  }

  /** What a subscriber reads off a cached run is what the API server holds; only parameters it could not read there. */
  lemma CachedRunReads(run: PipelineRun)
    ensures Converted(run).params == run.spec.params && Converted(run).generateName == run.meta.generateName
    ensures var read := Converted(Trimmed(run));
            && read.name == run.meta.name && read.created == run.meta.created
            && read.labels == run.meta.labels && read.owners == run.meta.owners
            && read.specStatus == run.spec.status && read.params == []
            && (read.status.Some? && read.status.value.conditions.Some? <==> run.status.conditions != [])
            && (run.status.conditions != [] ==> read.status.value.conditions.value == run.status.conditions)
            && (read.status.None? <==> run.status == RunStatusFields([], 0, map[], run.status.rest))
  {
  }

  /** Trimming twice is trimming once, up to an empty annotation map. */
  lemma TrimIdempotentUpToEmpty(run: PipelineRun)
    ensures Normal(Trimmed(Trimmed(run))) == Normal(Trimmed(run))
  {
    var once := Trimmed(run).meta.annotations;
    if once.Some? {
      assert once.value - {LAST_APPLIED} == once.value;
    }
  }

  /** Literal idempotence fails exactly on a run whose only annotation is the last-applied one. */
  lemma TrimIdempotentIff(run: PipelineRun)
    ensures Trimmed(Trimmed(run)) == Trimmed(run) <==>
              !(run.meta.annotations.Some? && run.meta.annotations.value.Keys == {LAST_APPLIED})
  {
    if run.meta.annotations.Some? {
      var from := run.meta.annotations.value;
      var once := from - {LAST_APPLIED};
      assert once - {LAST_APPLIED} == once;
      if k :| k in from && k != LAST_APPLIED {
        assert k in once;
      } else {
        assert from == map[] || from.Keys == {LAST_APPLIED};
        assert once == map[];
      }
    }
  }

  /** The run as the subscribers read it; a status without any field is as good as none. */
  function Converted(run: PipelineRun): Run {
    var s := run.status;
    var conditions := if s.conditions == [] then None else Some(s.conditions);
    Run(run.meta.name, run.meta.generateName, run.meta.created, run.meta.labels, run.meta.owners, run.spec.params,
        run.spec.status,
        if s.conditions == [] && s.observedGeneration == 0 && s.annotations == map[] && s.rest == "" then None
        else Some(RunStatus(conditions)))
  }

  method PipelineRunsToUnstructured(items: seq<PipelineRun>) returns (list: seq<Run>)
    ensures list == ConvertedAll(items)
  {
    list := [];
    for i := 0 to |items|
      invariant list == ConvertedAll(items[..i])
    {
      assert items[..i + 1][..i] == items[..i];
      list := list + [Converted(items[i])];
    }
    assert items[..|items|] == items;
  }

  function ConvertedAll(items: seq<PipelineRun>): (list: seq<Run>)
    ensures |list| == |items| && forall i :: 0 <= i < |items| ==> list[i] == Converted(items[i])
  {
    if items == [] then [] else ConvertedAll(items[..|items| - 1]) + [Converted(items[|items| - 1])]
  }

  function TrimmedAll(items: seq<PipelineRun>): seq<PipelineRun> {
    seq(|items|, i requires 0 <= i < |items| => Trimmed(items[i]))
  }

  predicate HasConditions(run: Run) {
    run.status.Some? && run.status.value.conditions.Some?
  }

  /** Alike in everything selection and status copying read. */
  predicate Alike(a: Run, b: Run) {
    && a.name == b.name && a.created == b.created && a.labels == b.labels && a.owners == b.owners
    && RunConditions(a) == RunConditions(b) && IsUnusable(a) == IsUnusable(b)
    && HasConditions(a) == HasConditions(b)
  }

  lemma ViewsAgree(run: PipelineRun)
    ensures Alike(Converted(run), Converted(Trimmed(run)))
  {
    assert RunConditions(Converted(run)) == run.status.conditions;
    assert RunConditions(Converted(Trimmed(run))) == run.status.conditions;
  }

  /** Selection in either list ends at position `i`, or finds nothing in either. */
  ghost predicate SameChoice(id: TriggerId, want: LabelMap, a: seq<Run>, b: seq<Run>, i: nat)
    requires |a| == |b|
  {
    if i < |a| then FindExisting(id, want, a) == Some(a[i]) && FindExisting(id, want, b) == Some(b[i])
    else FindExisting(id, want, a).None? && FindExisting(id, want, b).None?
  }

  lemma {:induction false} AlikeListsAgree(id: TriggerId, want: LabelMap, a: seq<Run>, b: seq<Run>) returns (i: nat)
    requires |a| == |b| && forall j :: 0 <= j < |a| ==> Alike(a[j], b[j])
    ensures SameChoice(id, want, a, b, i)
    decreases |a|
  {
    if want == map[] || a == [] {
      i := |a|;
    } else {
      var n := |a| - 1;
      i := AlikeListsAgree(id, want, a[..n], b[..n]);
      if i >= n {
        i := if Matches(id, want, a[n]) then n else n + 1;
      } else if Matches(id, want, a[n]) && BetterRun(a[n], a[i]) {
        i := n;
      }
    }
  }

  /** Selection over the trimmed cache picks the same run as selection over the full objects. */
  lemma SelectionAgrees(id: TriggerId, want: LabelMap, items: seq<PipelineRun>)
    ensures exists i: nat :: SameChoice(id, want, ConvertedAll(items), ConvertedAll(TrimmedAll(items)), i)
  {
    AllViewsAgree(items);
    var _ := AlikeListsAgree(id, want, ConvertedAll(items), ConvertedAll(TrimmedAll(items)));
  }

  lemma {:induction false} NamedAlike(a: seq<Run>, b: seq<Run>, name: string)
    requires |a| == |b| && forall j :: 0 <= j < |a| ==> Alike(a[j], b[j])
    ensures Named(a, name).Some? <==> Named(b, name).Some?
    ensures Named(a, name).Some? ==> Alike(Named(a, name).value, Named(b, name).value)
    decreases |a|
  {
    if a != [] {
      NamedAlike(a[1..], b[1..], name);
    }
  }

  lemma AllViewsAgree(items: seq<PipelineRun>)
    ensures forall j :: 0 <= j < |items| ==> Alike(ConvertedAll(items)[j], ConvertedAll(TrimmedAll(items))[j])
  {
    forall j | 0 <= j < |items| ensures Alike(ConvertedAll(items)[j], ConvertedAll(TrimmedAll(items))[j]) {
      ViewsAgree(items[j]);
    }
  }

  /** Copying run results from the trimmed cache gives the same branch status as copying them from the full objects. */
  lemma BranchStatusAgrees(generation: int, now: int, items: seq<PipelineRun>, m: BranchMap)
    ensures PR.StatusAll(generation, now, ConvertedAll(TrimmedAll(items)), m)
         == PR.StatusAll(generation, now, ConvertedAll(items), m)
  {
    AllViewsAgree(items);
    forall k | k in m
      ensures StatusSlot(generation, now, ConvertedAll(TrimmedAll(items)), m[k])
           == StatusSlot(generation, now, ConvertedAll(items), m[k])
    {
      NamedAlike(ConvertedAll(items), ConvertedAll(TrimmedAll(items)), m[k].latestPipelineRun);
    }
  }

  /** The same for a single slot, including a run whose status has fields but no conditions yet. */
  lemma SlotStatusAgrees(generation: int, now: int, items: seq<PipelineRun>, v: SlotView)
    ensures StatusView(generation, now, ConvertedAll(TrimmedAll(items)), v)
         == StatusView(generation, now, ConvertedAll(items), v)
  {
    AllViewsAgree(items);
    NamedAlike(ConvertedAll(items), ConvertedAll(TrimmedAll(items)), v.latestPipelineRun);
  }
}
