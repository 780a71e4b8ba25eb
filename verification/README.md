# Pipeline trigger operator: the create protocol, verified

The operator watches PipelineTriggers and creates one Tekton PipelineRun per new revision of the trigger's source: one
per branch of a PullRequest, or one for the single revision of a GitRepository or ImagePolicy. This project models the
part of a reconcile that decides about creating runs, and proves what that part is for.

A reconcile snapshots the trigger's status, syncs it with the source, prepares a run for every eligible slot, and then,
run by run, looks for a run it already owns (in the informer cache, then on the API server), creates one if there is
none, and settles the slot: a name on success, a recorded rejection on a permanent error, the snapshot's slot on a
transient one. The status is patched, run results are copied into it, and it is patched again; a transient error
requeues.

The environment is arbitrary. The cached list is any list; the server answers each lookup and each create with success, a
permanent error or a transient one, and a create that reports an error may have landed; map iteration visits keys in any
order; a stored status may be lost, old or half persisted; generations, templates, sources and other clients change
between reconciles.

## Layout

| module | part of the operator |
|---|---|
| `Util` | options, map lookup, Go's string order |
| `Labels` | label values and run-name prefixes |
| `Conditions` | condition lists and the eligibility rule |
| `Runs` | which of the runs a trigger owns is chosen |
| `Branches` | one branch slot: labels, prepared run, and each phase as a function of the slot |
| `PullRequest` | class `Trigger`: the methods that update the branch map, against those functions |
| `StartRuns` | class `Server` and the create, adopt and settle loop |
| `Reconcile` | one whole reconcile of a PullRequest trigger |
| `RunCache` | the trimmed informer cache |
| `SingleSlot` | GitRepository and ImagePolicy: classes `Slot` and `Trigger`, lists updated in place |
| `System` | everything that can happen to a PullRequest trigger, as one transition system |
| `AtMostOne`, `Safety`, `Isolation`, `Replay`, `EndToEnd` | properties over batches, cycles and whole runs, branches |
| `SingleSlotRuns`, `SlotReplay` | the same for single slots |
| `Witnesses` | runs of the system on which a guarantee fails that the comments suggest |

Two levels recur. Code that changes things step by step is a method with loops, proved equal to a function of the old
state; the properties are lemmas about those functions and about every sequence of them. `Trace` and `SlotTrace` are all
runs of the system, each property adding the part of the environment it needs; `History` and `SlotHistory` are sequences
of reconciles whose status patches succeed.

## Where the code and its comments disagree, or a natural claim is false

- `a/b` and `a-b` share a name label, because `/` is rewritten before sanitising. Branches are isolated exactly as far as
  their name labels differ (`DistinctLabelsIff`, `RunReaches`); colliding branches at one commit share their fate
  (`CollidingBranchesShareFate`).
- A revision is said to be built once. That needs the template's own `pipeline.jquad.rocks/` labels to stay as they are:
  a run is adopted exactly if it carries every such label the template lays down now (`RetemplatedRunAdopted`,
  `TemplateEditBuildsTwice`).
- A spec edit is said to retry a rejected branch. It does exactly if the new parameters need none of the branch details,
  which were blanked when the rejected run was prepared; an edit that misses this spends the chance, and no later one
  helps (`RejectedRetriedIff`, `SpentChance`). An error managed in between replaces the rejection, both being of type
  Error, and ends the retries too (`ManagedNeverRetried`, `ManagedRejection`). A single slot keeps its details, so its
  parameters must only still evaluate (`RejectedSlotRetriedIff`).
- A single slot is said to be retried after a transient failure. That holds exactly when the snapshot stood at another
  revision. If the failed attempt was itself the retry of a rejection, the Error put on the restored slot hides the
  rejection, and no later generation or template brings another attempt (`TransientRetriedIff`, `StrandedForever`,
  `StrandedRetry`).
- The GitRepository guard is said to fire for a source that is not ready because its details are empty. The details are
  the JSON of the revision and JSON is never the empty string, so the guard fires exactly for a slot that is still at its
  initial, empty revision (`GuardOnlyBeforeFirstSync`, `EmptyDetailsAreInitial`). A source that loses its artifact later
  gets a run with empty revision labels, if the parameters evaluate (`NotReadyRunIff`, `NotReadyBuild`).
- The cache transform is said to be idempotent. It is, if a missing and an empty annotation map are the same; literally it
  is not, exactly for a run whose only annotation is the last-applied one (`TrimIdempotentIff`).

## Model

| member | source | states |
|---|---|---|
| Labels.SanitizeLabelValue | api/v1alpha1/labels.go:60-81 | the builder loop, truncation and trimming compute `Sanitized`, whose properties follow |
| Labels.SanitizedIsValid | api/v1alpha1/labels.go:42-59 | for every input the value is a valid label value; valid input is unchanged; sanitising twice is sanitising once |
| Labels.ValidCharacters | api/v1alpha1/labels.go:25-31 | for every character: whether a value may consist of it, and whether it may stand inside one |
| Labels.ValidLength | api/v1alpha1/labels.go:14-16 | a value of allowed characters is valid up to 63 of them and no further |
| Labels.RepairedReads | api/v1alpha1/labels.go:60-81 | a repaired value shows its input character by character, with dashes for what a label cannot have, and of the first 54 leaves out no letter or digit |
| Labels.RepairedEndsInHash | api/v1alpha1/labels.go:49-54 | a repaired value ends in the eight hash characters of the original, after the readable part and a dash |
| Labels.SanitizedCollision | api/v1alpha1/labels.go:49-59 | two inputs share a value if and only if equal, or both repaired with equal hash and readable part, or one is literally the other's repaired form |
| Labels.GenerateNamePrefix | api/v1alpha1/labels.go:88-106 | the loop, trims and cut compute `NamePrefix` |
| Labels.NamePrefixWellFormed | api/v1alpha1/labels.go:18-22 | 2 to 57 characters of [a-z0-9-], alphanumeric first, one single dash last, for every input |
| Labels.NamePrefixShows | api/v1alpha1/labels.go:88-106 | a prefix shows its input in small letters, leaving out only dashes at the ends and what is beyond 56 characters; the fallback stands in only for nothing |
| Labels.NamePrefixIdempotent | api/v1alpha1/labels.go:88-106 | a prefix is a fixed point |
| Labels.GeneratedNameIsHostLabel | api/v1alpha1/labels.go:83-87 | with any five lower-case alphanumerics appended it is a host label (section 2.1 of RFC 1123) |
| Conditions.AddOrReplaceCondition | api/v1alpha1/branch_types.go:87-98 | the loop replaces every condition of the type, or appends |
| Conditions.ReplacedContents | api/v1alpha1/branch_types.go:87-98 | exactly the new condition and the old ones of other types are left; distinct types stay distinct |
| Conditions.SlotEligibleForCreate | pkg/source/start_runs.go:39-49 | the early-exit loop returns whether a rejection of an older generation exists, and eligibility |
| Conditions.EligibleIff | pkg/source/start_runs.go:33-49 | a slot is eligible if and only if it has no conditions or shows an Error of reason CreateRejected from an older generation |
| Conditions.FailureBlocksForever | pkg/source/start_runs.go:27-31 | a slot with a generic failure is eligible at no generation |
| Conditions.OtherTypesKeepRejections | pkg/source/start_runs.go:33-38 | conditions of other types neither hide nor invent a rejection |
| Conditions.LatestIsLast | api/v1alpha1/branch_types.go:109-124 | a condition newer than all others is the last one wherever it stands |
| Conditions.LastConditionIsNewest | api/v1alpha1/branch_types.go:109-124 | no condition is newer than the last one, and none as new stands after it |
| Conditions.ReplacedTwice | pkg/source/gitrepository_provider.go:269-289 | a second condition of one type leaves no trace of the first |
| Conditions.ReplacedIsLast | api/v1alpha1/branch_types.go:87-124 | a condition written with the newest time becomes the last one; appended it also wins ties |
| Runs.CollectSourceLabels | pkg/source/pipelinerun_cache.go:104-112 | the map loop keeps exactly the labels with the source prefix |
| Runs.FindExistingRun | pkg/source/start_runs.go:92-120 | the fold over the list computes `FindExisting` |
| Runs.FindExistingSound | pkg/source/start_runs.go:69-77 | nothing is found if and only if there are no source labels or no owned run carries them all; what is found is such a run |
| Runs.FindExistingIff | pkg/source/start_runs.go:69-87 | a run is found if and only if some listed run has this trigger as first controller (kind, name, and UID where both are known) and carries every source label; runs of any other owner never |
| Runs.FindExistingPrefers | pkg/source/start_runs.go:88-91 | the run found has a result if any matching one has, is the newest of those alike, and of the greatest name among those created together |
| Runs.WithLabelsIff | pkg/source/pipelinerun_cache.go:129-135 | the filtered list holds exactly the runs that carry the labels |
| Util.LexLessIff | pkg/source/start_runs.go:130-130 | the first differing character decides which name is greater; a proper prefix is the smaller |
| Runs.BetterRunStrictTotalOrder | pkg/source/start_runs.go:122-131 | irreflexive, asymmetric, transitive, total on distinct names |
| Runs.FindExistingIsBest | pkg/source/start_runs.go:88-91 | the fold returns the one matching run that beats every other |
| Runs.FindExistingOrderFree | pkg/source/start_runs.go:88-91 | the choice depends only on the set of runs listed |
| Runs.FilteredLookupAgrees | pkg/source/pipelinerun_cache.go:114-122 | choosing from the label-filtered list is choosing from the whole list |
| Branches.HasIntersectionIsSubMap | pkg/source/pullrequest_provider.go:485-499 | with its size short-cut the test still means: every entry of the first map is in the second |
| Branches.SlashAndDashCollide | api/v1alpha1/branch_types.go:77-80 | two different names with one name label, under every hash |
| Branches.RewriteEqualIff | api/v1alpha1/branch_types.go:77-80 | two names are rewritten to one if and only if they differ in slashes and dashes only; a name without slash is kept |
| Branches.DistinctLabelsIff | api/v1alpha1/branch_types.go:23-34 | exactly when a set of branch names has pairwise distinct name labels |
| Branches.EvaluatePipelineParams | pkg/source/pullrequest_provider.go:310-330 | succeeds if and only if every parameter containing `$` evaluates; otherwise the first complaint is reported |
| Branches.FirstComplaintIsFirst | pkg/source/pullrequest_provider.go:321-328 | the complaint reported is that of the first parameter that does not evaluate |
| Branches.RunForLabels | api/v1alpha1/pipelinetrigger_types.go:199-271 | a prepared run is this trigger's and its source labels carry the branch's labels, whatever the template's labels |
| Branches.RunWithReads | api/v1alpha1/pipelinetrigger_types.go:199-271 | a run built from the template: its parameters in order, evaluated on the given details where dynamic; given labels over the template's; this trigger as the one owner; the template's names or a derived prefix |
| Branches.RunForReads | api/v1alpha1/pipelinetrigger_types.go:423-435 | a branch's run evaluates parameters on the branch's own details and carries its commit and name as they stand where they are label values |
| Branches.PreparedRunStranger | pkg/source/start_runs.go:70-73 | exactly which triggers a prepared run does not belong to: those of another name, and of another known UID |
| Branches.PreparedShows | pkg/source/pullrequest_provider.go:275-303 | what preparing leaves: blank details and the one pending condition, or the one error naming the parameter's complaint |
| Branches.FailureShows | pkg/source/start_runs.go:15-25 | on the reasons of the error: 422 and 400 leave the commit, no run name and one CreateRejected error; every other one the snapshot |
| Branches.SuccessShows | pkg/source/pullrequest_provider.go:220-233 | a created or adopted run's name, and nothing else, goes to its slot |
| Branches.CopyKeeps | pkg/source/pullrequest_provider.go:431-476 | copying results changes neither the retryability nor the presence of Error, and keeps types distinct |
| Branches.CopiedShows | pkg/source/pullrequest_provider.go:431-476 | the exact conditions after copying any condition list: the verdict of its last final condition, InProgress for its last other one, all else as before |
| Branches.StatusShows | pkg/source/pullrequest_provider.go:441-474 | Success at True only if it was there or the run has a True condition; a run without final condition keeps the verdict and shows InProgress; a failed one shows its own reason and message |
| Branches.StatusSlotShows | pkg/source/pullrequest_provider.go:377-409 | exactly when copying is skipped, and that otherwise only conditions change |
| Branches.FinalResultCopiedOnce | pkg/source/pullrequest_provider.go:377-396 | for a run whose conditions all show one final status, that becomes the slot's last status, and copying it again changes nothing; the clock may tie with conditions already there |
| PullRequest.GetPrBranches | api/v1alpha1/branches_types.go:12-19 | the index loop computes `SourceMap` |
| PullRequest.SourceMapIsLastEntry | api/v1alpha1/branches_types.go:12-19 | each name maps to its last entry in the list; names not listed are absent |
| PullRequest.SyncFollowsSource | pkg/source/pullrequest_provider.go:186-212 | after a sync with a non-empty list exactly its names are tracked, each slot old where the commit is unchanged, fresh and condition-less otherwise |
| PullRequest.SyncIdempotent | pkg/source/pullrequest_provider.go:186-217 | a second sync changes nothing and reports nothing new |
| PullRequest.EmptyPollKeeps | pkg/source/pullrequest_provider.go:177-185 | an empty source list changes nothing |
| PullRequest.Trigger.GetLatestEvent | pkg/source/pullrequest_provider.go:169-218 | the update and removal loops compute `Sync`, an empty list being a no-op; the flag is true if and only if some branch is new or moved |
| PullRequest.Trigger.CreatePipelineRunResource | pkg/source/pullrequest_provider.go:264-308 | in whatever key order, each slot is prepared once, and the runs are those of exactly the wanting branches |
| PullRequest.Trigger.SetCurrentPipelineRunName | pkg/source/pullrequest_provider.go:220-233 | the name goes to exactly the slots whose labels the run carries |
| PullRequest.Trigger.SettleFailedRun | pkg/source/pullrequest_provider.go:235-262 | slot by slot, also while entries are deleted: untouched, rejected, restored from the snapshot, or dropped |
| PullRequest.Trigger.SetCurrentPipelineRunStatus | pkg/source/pullrequest_provider.go:398-483 | each slot gets the result of the run it names unless its last condition says so already; and the GitRepository slot is marked exactly if some named run has no conditions yet |
| PullRequest.MarkedShows | pkg/source/pullrequest_provider.go:409-430 | the GitRepository slot gets exactly one unreadable mark, if and only if some branch names a listed run without conditions |
| PullRequest.Trigger.ManageError | pkg/source/pullrequest_provider.go:347-375 | every slot, or one named null when there is none, gets the Error condition |
| PullRequest.ManagedShows | pkg/source/pullrequest_provider.go:347-371 | on every tracked slot, or the nameless null one if there is none, exactly one generic error; all else as it was |
| StartRuns.Server.Create | api/v1alpha1/pipelinetrigger_types.go:411-421 | the server gains the run exactly when it lands, also behind an error |
| StartRuns.FindLiveRun | pkg/source/pipelinerun_cache.go:123-137 | an error when the lookup fails; otherwise the choice among the server's runs; no request without source labels |
| StartRuns.CreatedShows | api/v1alpha1/pipelinetrigger_types.go:411-421 | what is created is the prepared run under the server's name and time |
| StartRuns.AdoptedShows | pkg/source/start_runs.go:216-225 | what is adopted was listed, is this trigger's by its owner references, and carries every source label |
| StartRuns.StrangersNeverAdopted | pkg/source/start_runs.go:100-106 | runs of other owners are never adopted, whatever their labels |
| StartRuns.LookupFailsClosed | pkg/source/start_runs.go:189-196 | a failed lookup creates nothing and settles the run by its own error |
| StartRuns.SentShows | pkg/source/start_runs.go:227-240 | with nothing to adopt the run is sent; what lands, also behind an error, is the prepared run under the server's name and time |
| StartRuns.EachTriggerBuilds | pkg/source/start_runs.go:70-73 | two triggers on one source each get their run |
| StartRuns.OnlyOwnCommitAdopted | pkg/source/start_runs.go:84-86 | a run created for one commit is never adopted for another |
| StartRuns.StartOneRun | pkg/source/start_runs.go:199-242 | one iteration moves status, server and counters as `StartOne` says, for every reply |
| StartRuns.StartPipelineRuns | pkg/source/start_runs.go:197-244 | the loop is the fold of those iterations |
| Reconcile.StartAllAccounts | pkg/source/start_runs.go:162-175 | each counter counts its own kind of outcome, on the reasons of the errors, and the kinds add up to the prepared runs |
| Reconcile.ReportedError | pkg/source/start_runs.go:171-174 | the error reported is that of the last run that failed and was not refused |
| Reconcile.TransientOnReasons | pkg/source/start_runs.go:15-25 | some outcome is transient if and only if some error is neither 422 nor 400 |
| Reconcile.StartAllResult | pkg/source/start_runs.go:171-174 | a transient error is reported if and only if one happened |
| Reconcile.StartAllRuns | pkg/source/start_runs.go:197-244 | the server keeps all its runs and gains exactly those that landed |
| Reconcile.StartAllSettles | pkg/source/start_runs.go:177-183 | the loop's slots are determined by the runs' outcomes alone |
| Reconcile.CreateRuns | internal/controller/pipelinetrigger_controller.go:218-275 | snapshot, sync, prepare and start compute `Settled`, with some preparation order |
| Reconcile.ReconcilePullRequest | internal/controller/pipelinetrigger_controller.go:217-303 | what is stored under each combination of successful and failed patches, the server's runs, and when it requeues |
| AtMostOne.LandsOnlyWhenAbsent | pkg/source/start_runs.go:189-196 | whatever the cache says, a create lands only if the server holds no run of the trigger with all its source labels |
| AtMostOne.DedupKept | pkg/source/pipelinerun_cache.go:114-122 | one attempt never gives a set of source labels a second run |
| AtMostOne.StepKeeps | pkg/source/start_runs.go:197-243 | no step of the system, from any status and with any cache, makes two runs with equal source labels |
| AtMostOne.AtMostOneRun | pkg/source/start_runs.go:197-243 | in every reachable state no two runs of the trigger have equal source labels; with fixed template labels, never one pair of branch and commit labels |
| AtMostOne.RetemplatedRunAdopted | pkg/source/start_runs.go:69-82 | exactly when an earlier run for the same revision is adopted under another template: every source label laid down now was there then |
| Safety.SettleKeepsSlot | pkg/source/pullrequest_provider.go:235-262 | each outcome leaves a slot with an error, with its run, or with a later run still to come; a name is for the slot's own commit |
| Safety.CycleKeeps | internal/controller/pipelinetrigger_controller.go:220-292 | both status patches of a reconcile keep the invariant, whatever its cached list, replies and order |
| Safety.ManageKeeps | pkg/source/pullrequest_provider.go:347-375 | a managed error keeps it |
| Safety.StepKeepsInv | internal/controller/pipelinetrigger_controller.go:220-292 | every step from any status ever stored keeps it |
| Safety.ReachableInv | internal/controller/pipelinetrigger_controller.go:220-281 | in every reachable state, every stored slot with conditions shows an error or has had its run, a latest run is for the slot's labels, condition types are distinct, and each slot is filed under its name |
| Safety.CopiesOnlyOwnCommit | pkg/source/pullrequest_provider.go:243-249 | a result is copied only from a run of this trigger that carries the slot's branch and commit labels |
| Isolation.OutcomesIndependent | pkg/source/start_runs.go:199-242 | with distinct name labels each run's outcome is the one it would have alone |
| Isolation.SettleAllElsewhere | pkg/source/pullrequest_provider.go:235-242 | a batch leaves every slot none of its runs is for as it was |
| Isolation.SettleAllOwn | pkg/source/pullrequest_provider.go:235-262 | a batch settles a slot by its own run's outcome alone, wherever in the batch it comes |
| Isolation.SettledIsPointwise | pkg/source/start_runs.go:177-187 | after the loop a slot depends only on its snapshot slot, its synced slot and its own run's outcome |
| Isolation.CycleIsPointwise | internal/controller/pipelinetrigger_controller.go:217-292 | a whole reconcile is one independent step per branch |
| Isolation.SettledShows | pkg/source/start_runs.go:177-187 | the slot of a branch that got a run after the create loop, for each outcome: the run's name, a rejection on 422 and 400, or the snapshot |
| Isolation.DistinctNamesSeparate | api/v1alpha1/branch_types.go:23-34 | all this takes is that the tracked names are not empty and have distinct name labels; the status may be any that gets stored |
| Isolation.CycleFiled | pkg/source/pullrequest_provider.go:235-262 | every cycle keeps each slot under its own name (the nameless null slot of a managed error aside) |
| Isolation.OrderIsIrrelevant | pkg/source/start_runs.go:185-187 | neither the order of prepared runs nor of map iteration shows in the status or in the decision to requeue |
| Isolation.RequeueCause | internal/controller/pipelinetrigger_controller.go:268-303 | a requeue is caused by some branch whose own attempt failed transiently |
| Isolation.RequeueFrom | internal/controller/pipelinetrigger_controller.go:268-303 | such a branch always causes one |
| Isolation.RunReaches | pkg/source/pullrequest_provider.go:485-499 | without distinct labels: a prepared run reaches exactly the slots with its name and commit labels |
| Isolation.CollidingBranchesShareFate | api/v1alpha1/branch_types.go:77-80 | the rejection of `a/b` is recorded on `a-b` at the same commit |
| Replay.QuietStep | pkg/source/start_runs.go:51-55 | a slot quiet at a generation stays quiet through any cycle of any generation and is attempted only at newer ones |
| Replay.GenerationGate | pkg/source/start_runs.go:33-38 | at one commit, after an attempt that did not fail transiently only strictly newer generations attempt again, and only if it was rejected |
| Replay.OtherErrorsNeverRetried | pkg/source/start_runs.go:27-31 | a slot whose errors have another reason is never attempted, whatever the generation |
| Replay.NoReplay | pkg/source/start_runs.go:185-187 | at one generation, over any number of reconciles, attempts on a branch are at most one more than its own transient failures, whatever other branches do |
| Replay.DistinctNamesHistory | api/v1alpha1/branch_types.go:23-34 | the properties over histories apply as soon as each cycle tracks names with distinct labels, from any stored first status |
| Replay.HistoryConditioned | pkg/source/pullrequest_provider.go:266-305 | every slot of a processed status has conditions, so none is taken for new |
| Replay.TransientIsRetried | pkg/source/pullrequest_provider.go:254-260 | a branch whose attempt failed transiently is attempted next cycle with the identical run: labels, parameters, name |
| Replay.RequeuesIffTransient | internal/controller/pipelinetrigger_controller.go:272-275 | a cycle requeues if and only if some attempt failed transiently; branches may collide |
| Replay.RequeuesOnReasons | pkg/source/start_runs.go:15-25 | a cycle requeues if and only if some prepared run met an error that is neither 422 nor 400 |
| Replay.NoRequeueComesToRest | internal/controller/pipelinetrigger_controller.go:298-303 | after a cycle that does not requeue nothing is eligible and the source has nothing new |
| Replay.Quiescence | internal/controller/pipelinetrigger_controller.go:268-303 | with fixed source and generation, after one cycle without a transient failure no later cycle prepares a run or requeues |
| Replay.RestsWithinBudget | internal/controller/pipelinetrigger_controller.go:268-303 | if at most N attempts ever fail transiently, no cycle after the first N + 1 prepares a run or requeues |
| Replay.RequeuesWithinBudget | internal/controller/pipelinetrigger_controller.go:272-301 | at most N transient failures bring at most N requeues |
| Replay.RejectedStep | pkg/source/pullrequest_provider.go:269-303 | a recorded rejection is attempted exactly at a newer generation whose parameters need no details; a chance missed blocks the branch for good, a transient failure leaves the rejection |
| Replay.RejectedRetriedIff | pkg/source/pullrequest_provider.go:269-303 | over whole histories, exactly when a rejected branch gets another run at its commit: generation, parameters, and no earlier chance missed |
| Replay.ManagedNeverRetried | pkg/source/pullrequest_provider.go:347-375 | a managed error replaces the rejection: no branch it touched is retried at its commit |
| EndToEnd.EveryBranchBuiltOrFailed | internal/controller/pipelinetrigger_controller.go:217-303 | after any reconcile that does not requeue, in any run of the system, every listed branch is tracked at its listed commit and shows an error or has had its run |
| EndToEnd.FinishedRunReported | internal/controller/pipelinetrigger_controller.go:285-292 | a reconcile ends by reporting: a branch that names a finished run shows its status last |
| EndToEnd.FinishedSlotRunReported | internal/controller/pipelinetrigger_controller.go:285-292 | and so does a single slot |
| RunCache.TransformForCache | pkg/source/pipelinerun_cache.go:43-75 | the annotation loop and field copies compute `Trimmed` |
| RunCache.TrimIdempotentUpToEmpty | pkg/source/pipelinerun_cache.go:41-42 | trimming twice is trimming once, up to an empty annotation map |
| RunCache.TrimIdempotentIff | pkg/source/pipelinerun_cache.go:63-71 | literally so except exactly when the only annotation is the last-applied one |
| RunCache.TrimmedDrops | pkg/source/pipelinerun_cache.go:20-39 | parameters, large fields, managed fields and the one annotation go, all other metadata, annotations and the status proper stay |
| RunCache.CachedRunReads | pkg/source/pipelinerun_cache.go:27-39 | every field a subscriber reads off a cached run is the API server's |
| RunCache.PipelineRunsToUnstructured | pkg/source/pipelinerun_cache.go:81-100 | the loop converts each run, an empty status becoming none |
| RunCache.ViewsAgree | pkg/source/pipelinerun_cache.go:27-39 | a trimmed and a full run read alike in name, time, labels, owners, conditions and usability |
| RunCache.SelectionAgrees | pkg/source/pipelinerun_cache.go:27-39 | selection over the trimmed list picks the run at the same position as over the full list, or none in both |
| RunCache.BranchStatusAgrees | pkg/source/pipelinerun_cache.go:37-39 | status copying gives the same branch map from either list |
| RunCache.SlotStatusAgrees | pkg/source/pipelinerun_cache.go:37-39 | and the same single slot, also for a run with a status but no conditions |
| SingleSlot.Slot.AddOrReplaceCondition | api/v1alpha1/gitrepository_types.go:139-150 | in place: entries of the shared array are overwritten, a new type grows into a fresh array |
| SingleSlot.Slot.DeepCopy | pkg/source/gitrepository_provider.go:250-250 | an equal slot that shares neither object nor array |
| SingleSlot.Trigger.GetLatestEvent | pkg/source/gitrepository_provider.go:139-155 | the slot is replaced by a fresh one exactly when the revision differs |
| SingleSlot.Trigger.CreatePipelineRunResource | pkg/source/gitrepository_provider.go:157-190 | the slot's new value and the run, if it is eligible and its parameters evaluate |
| SingleSlot.Trigger.SettleFailedRun | pkg/source/gitrepository_provider.go:238-259 | the settled value, and that the in-place update of the restored slot leaves the snapshot untouched |
| SingleSlot.Trigger.StartPipelineRun | pkg/source/start_runs.go:197-244 | one prepared run: slot, server and requeue flag for every reply, snapshot untouched |
| SingleSlot.Trigger.SetCurrentPipelineRunStatus | pkg/source/gitrepository_provider.go:265-334 | the value of the slot after copying the named run's conditions, or recording that it has none |
| SingleSlot.Trigger.ManageError | pkg/source/gitrepository_provider.go:348-364 | the Error condition is added in place |
| SingleSlot.ReconcileSlot | internal/controller/pipelinetrigger_controller.go:217-303 | a whole reconcile of a single-slot trigger: slot, server and requeue flag |
| SingleSlot.StatusKeepsView | pkg/source/gitrepository_provider.go:265-334 | copying results touches neither revision nor details and hides no Error |
| SingleSlot.SlotLabelsIff | api/v1alpha1/gitrepository_types.go:44-53 | two revisions share their labels if and only if both label fields collide |
| SingleSlot.SlotRunReads | api/v1alpha1/pipelinetrigger_types.go:273-409 | a slot's run evaluates parameters on the slot's details and carries branch and commit, or image name and version, as they stand where they are label values |
| SingleSlot.OnlyOwnRevisionAdopted | pkg/source/start_runs.go:84-86 | what is adopted carries the slot's revision; a run created for another commit or version never is |
| SingleSlot.PreparedViewShows | pkg/source/gitrepository_provider.go:157-190 | what preparing leaves; details stay |
| SingleSlot.SettleViewShows | pkg/source/gitrepository_provider.go:238-263 | the slot after each outcome, on the reasons of the error |
| SingleSlot.ManagedViewShows | pkg/source/gitrepository_provider.go:348-364 | a managed error leaves one generic error in place of any other, all else as it was |
| SingleSlot.SlotRequeuesOnReasons | pkg/source/start_runs.go:15-25 | a reconcile requeues if and only if its run met an error that is neither 422 nor 400 |
| SingleSlot.CopiedStatusShows | pkg/source/gitrepository_provider.go:265-334 | the exact conditions after copying, a failed run's message dropped; a run without conditions is marked |
| SingleSlot.TransientRetriedIff | pkg/source/gitrepository_provider.go:247-258 | exactly when a transient failure is retried, with the identical run; otherwise no generation or template retries it |
| SingleSlot.GuardOnlyBeforeFirstSync | pkg/source/gitrepository_provider.go:212-224 | exactly when the not-ready guard fires: slot and source both at the initial, empty revision |
| SingleSlot.NotReadyRunIff | pkg/source/gitrepository_provider.go:212-224 | exactly when a source that is not ready gets a run all the same, and that its revision labels are empty |
| SingleSlot.SlotCycleKeepsInv | pkg/source/imagepolicy_provider.go:215-236 | both status patches of a reconcile keep the slot sound |
| SingleSlotRuns.SlotLandingKeeps | pkg/source/start_runs.go:189-196 | a run for a slot never makes two with equal source labels, and follows from the template and its revision |
| SingleSlotRuns.SlotStepKeepsInv | internal/controller/pipelinetrigger_controller.go:220-292 | every step from any status ever stored keeps the single-slot invariant |
| SingleSlotRuns.SlotReachableInv | internal/controller/pipelinetrigger_controller.go:220-281 | in every reachable state no stored slot is stranded or misnamed, condition types are distinct, details are the revision's own, and no two runs of the trigger have equal source labels |
| SingleSlotRuns.SlotAtMostOneRun | pkg/source/start_runs.go:197-243 | while source kind and template labels stay fixed, no revision ever has two runs of the trigger |
| SingleSlotRuns.EmptyDetailsAreInitial | pkg/source/gitrepository_provider.go:212-224 | in every reachable state only a slot at its initial revision has empty details |
| SlotReplay.SlotQuietStep | pkg/source/start_runs.go:51-55 | a slot quiet at a generation stays quiet at its revision and is attempted only at newer ones |
| SlotReplay.SlotGenerationGate | pkg/source/start_runs.go:33-38 | after an attempt that did not fail transiently only strictly newer generations attempt again, and only if it was rejected |
| SlotReplay.SlotNoReplay | pkg/source/start_runs.go:185-187 | at one generation and revision, attempts are at most one more than transient failures |
| SlotReplay.SlotQuiescence | internal/controller/pipelinetrigger_controller.go:298-303 | after a cycle that looked at the slot and did not fail transiently, no later cycle at the same or an older generation prepares anything |
| SlotReplay.SlotRestsWithinBudget | internal/controller/pipelinetrigger_controller.go:268-303 | if at most N attempts fail transiently, no cycle after the first N + 1 does anything |
| SlotReplay.SlotTransientIsRetriedIff | pkg/source/gitrepository_provider.go:247-258 | the next cycle retries a transient failure, with the identical run, exactly if the snapshot stood at another revision |
| SlotReplay.StrandedForever | pkg/source/gitrepository_provider.go:247-258 | otherwise no later cycle does, whatever its generation and template |
| SlotReplay.RejectedSlotRetriedIff | pkg/source/gitrepository_provider.go:157-190 | over whole histories, exactly when a rejected slot gets another run: in the first cycle that looks at it at a newer generation, if its kept details satisfy the parameters |
| SlotReplay.ManagedSlotNeverRetried | pkg/source/gitrepository_provider.go:348-364 | a managed error replaces the rejection: the slot is not retried at its revision |
| Witnesses.SpentChance | pkg/source/pullrequest_provider.go:288-303 | a history in which the spec edit after a rejection needs details and the next one does not: neither brings a run |
| Witnesses.ManagedRejection | pkg/source/pullrequest_provider.go:350-370 | a rejected branch that would be retried, but for a managed error |
| Witnesses.StrandedRetry | pkg/source/gitrepository_provider.go:247-258 | a rejected slot whose retry fails transiently and which no later edit revives |
| Witnesses.NotReadyBuild | pkg/source/gitrepository_provider.go:222-224 | a built GitRepository that loses its artifact gets a second run, with empty revision labels |
| Witnesses.TemplateEditBuildsTwice | pkg/source/start_runs.go:69-77 | a template edit of a source label and a lost status build one revision twice, with a fresh cache and a correct server |

## Assumptions about the environment

- One reconcile of a trigger at a time. A create that timed out lands, if at all, before the next live lookup.
- Nobody edits the owner or the `pipeline.jquad.rocks/` labels of this trigger's runs, and, for the results on at most one
  run, nobody else creates runs it owns. Prepared runs carry their controller reference: the code ignores the result of
  setting it.
- Names of runs are unique in a cached list. For `Safety` and `SingleSlotRuns` they are also non-empty and never reused,
  a reconcile reads a status that was stored at some time, and a cached list holds versions of runs that exist or once
  existed. `AtMostOne` needs none of that, but does need the server's list to hold one run per name.
- `Isolation`, `NoReplay`, `GenerationGate`, `RejectedRetriedIff` and `TransientIsRetried` need that no run prepared in a
  cycle carries the name label of another tracked slot; distinct name labels of the tracked branches are enough. What
  speaks of a `History` or `SlotHistory` also needs the status persisted and no managed error between its cycles. The
  safety results need none of this.
- The source kind of a single-slot trigger is not edited, as far as `SlotAtMostOneRun` goes.

## Left out

- Kubernetes clients, informers, watches, predicates, leader election, events, metrics and the second cluster's HTTP
  listing: I/O. Whether the pipeline already runs, or runs elsewhere, is an input of a reconcile.
- The early exits of a reconcile (missing source or pipeline, failed list of runs): they create nothing; those that manage
  an error are a step of the traces.
- JSONPath evaluation, JSON marshalling, SHA-256 and Unicode lower-casing: library code, given as functions. Trimming
  quotes from an evaluated parameter belongs to the evaluation.
- Managed credentials, `IsFinished`, getters and generated copies: plumbing.
- Malformed templates and run conditions with missing fields, on which the code panics or records an unmarshalling
  failure: templates and conditions are well formed.
- Time: one clock reading per phase. The last condition of a list is found by a stable sort, as Go's is up to twelve
  entries.
- PullRequest.Trigger: condition lists of branches are values; arrays shared between a slot and its snapshot are modelled
  for the single slot only, where a list is updated after the snapshot is restored.
- Replay.TransientIsRetried: is about name, labels and parameters as prepared; what a managed credential adds to a run is
  not modelled.
- Branches.FinalResultCopiedOnce: a run with several conditions of which some are not final is left out; Tekton gives a
  run one condition.
- Isolation.OrderIsIrrelevant: speaks of status and requeueing; the order in which the server lists new runs does differ.
