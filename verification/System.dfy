/**
 * Everything that can happen to a PullRequest trigger and its runs, as one transition system. It assumes as little as
 * possible; each property adds the part of the environment it relies on.
 */
module System {
  import opened Runs
  import opened Branches
  import opened PullRequest
  import opened Reconcile

  /**
   * `statuses` holds every status the API server ever stored for the trigger, `runs` the namespace's runs in list
   * order, `ever` every run that has existed there.
   */
  datatype State = State(statuses: set<BranchMap>, runs: seq<Run>, ever: set<Run>)

  /**
   * A reconcile from the status it read, with any cached list and any replies; an error managed on the status it read;
   * or anything else that happens to runs: they are deleted, gain a status or labels, and others create theirs.
   */
  datatype Event =
    | Reconciled(c: Context, read: BranchMap, y: Cycle)
    | ErrorManaged(c: Context, read: BranchMap, now: int, message: string)
    | RunsMoved

  /** Contexts differ in generation and template only. */
  ghost predicate SameTrigger(c: Context, d: Context) {
    c.id == d.id && c.oracle == d.oracle
  }

  /** The runs one cycle adds. */
  ghost function Additions(c: Context, read: BranchMap, y: Cycle): set<Run>
    requires ValidCycle(c, read, y)
  {
    if y.elsewhere then {}
    else set r | r in Landings(c, y.cached, y.runs, PreparedRuns(c, Synced(read, y), y.order), y.replies)
  }

  ghost predicate Step(c0: Context, s: State, e: Event, t: State) {
    match e
    case Reconciled(c, read, y) =>
      && SameTrigger(c0, c) && ValidCycle(c, read, y) && y.runs == s.runs
      && t.runs == Settled(c, read, y).runs && t.ever == s.ever + Additions(c, read, y)
      && t.statuses == s.statuses + {Settled(c, read, y).branches, After(c, read, y)}
    case ErrorManaged(c, read, now, message) =>
      SameTrigger(c0, c) && t == s.(statuses := s.statuses + {ManageAll(c.generation, now, message, read)})
    case RunsMoved =>
      t.statuses == s.statuses && s.ever <= t.ever
  }

  ghost predicate Trace(c0: Context, events: seq<Event>, states: seq<State>) {
    && |states| == |events| + 1
    && forall i :: 0 <= i < |events| ==> Step(c0, states[i], events[i], states[i + 1])
  }
}
