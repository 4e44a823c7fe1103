/** The states of a run, the moves between them, and who may cancel it. */
module RunStates {
  import opened Common

  datatype Status =
    | Queued | Launching | Starting | Running | Waiting | CancellationRequested
    | Completed | PartialSuccess | Failed | Cancelled | TimedOut | BudgetExhausted
    | Legacy(name: string)   // a status this release does not know

  predicate Terminal(s: Status) {
    s in {Completed, PartialSuccess, Failed, Cancelled, TimedOut, BudgetExhausted}
  }

  predicate Known(s: Status) {
    !s.Legacy?
  }

  function NextStatuses(s: Status): set<Status> {
    match s
    case Queued => {Launching, Starting, CancellationRequested, Failed}
    case Launching => {Queued, Starting, Running, CancellationRequested, Failed}
    case Starting => {Running, Waiting, Completed, PartialSuccess, CancellationRequested, Failed, TimedOut}
    case Running => {Waiting, Completed, PartialSuccess, Failed, CancellationRequested, TimedOut, BudgetExhausted}
    case Waiting => {Running, Failed, CancellationRequested, TimedOut, BudgetExhausted}
    case CancellationRequested => {Cancelled, Failed}
    case _ => {}
  }

  /** The table read backwards: where each status can be reached from. */
  lemma WhereEachStatusComesFrom(a: Status, b: Status)
    ensures b in NextStatuses(a) <==>
              match b
              case Queued => a == Launching
              case Launching => a == Queued
              case Starting => a in {Queued, Launching}
              case Running => a in {Launching, Starting, Waiting}
              case Waiting => a in {Starting, Running}
              case CancellationRequested => a in {Queued, Launching, Starting, Running, Waiting}
              case Completed => a in {Starting, Running}
              case PartialSuccess => a in {Starting, Running}
              case TimedOut => a in {Starting, Running, Waiting}
              case BudgetExhausted => a in {Running, Waiting}
              case Failed => a in {Queued, Launching, Starting, Running, Waiting, CancellationRequested}
              case Cancelled => a == CancellationRequested
              case Legacy(_) => false
  {
  }

  /** `validate_transition`: both ends known, and the move in the table. */
  predicate MayMove(a: Status, b: Status) {
    Known(a) && Known(b) && b in NextStatuses(a)
  }

  predicate Claimed(s: Status) {
    s == Starting || s == Running || s == Waiting
  }

  datatype LaunchState = NeverLaunched | Pending | LaunchStarted | Launched | LaunchFailed | LaunchUnknown

  datatype CancelRefusal = LaunchUnresolved | NotLaunched

  function CancellationRefusal(s: Status, l: LaunchState): Option<CancelRefusal> {
    if Claimed(s) || (s != Queued && s != Launching) then None
    else if l == Launched then None
    else if l == LaunchStarted || l == LaunchUnknown then Some(LaunchUnresolved)
    else Some(NotLaunched)
  }

  /** Why a run that no worker has claimed cannot be cancelled: its launch may or
      may not be running, or there is none. */
  lemma RefusalsAre(s: Status, l: LaunchState)
    ensures CancellationRefusal(s, l) == Some(LaunchUnresolved) <==>
              s in {Queued, Launching} && l in {LaunchStarted, LaunchUnknown}
    ensures CancellationRefusal(s, l) == Some(NotLaunched) <==>
              s in {Queued, Launching} && l in {NeverLaunched, Pending, LaunchFailed}
  {
  }

  /** A request that passes both checks is for a run some worker will finalize:
      one that is claimed, or one whose launch is recorded as having started. */
  lemma AcceptedRequestsHaveAWorker(s: Status, l: LaunchState)
    ensures CancellationRefusal(s, l).None? && MayMove(s, CancellationRequested) <==>
              Claimed(s) || ((s == Queued || s == Launching) && l == Launched)
  {
  }

  /** Statuses reached by moves alone. */
  predicate Walk(path: seq<Status>) {
    forall i :: 0 <= i < |path| - 1 ==> MayMove(path[i], path[i + 1])
  }

  /** Whatever the path, an accepted request ends cancelled or failed, and nothing
      follows a terminal status. */
  lemma {:induction false} WhereCancellationEnds(path: seq<Status>)
    requires Walk(path) && |path| > 0
    ensures path[0] == CancellationRequested ==>
        |path| <= 2 && path[|path| - 1] in {CancellationRequested, Cancelled, Failed}
    ensures Terminal(path[0]) ==> |path| == 1
  {
    if |path| > 1 {
      assert MayMove(path[0], path[1]);
      var rest := path[1..];
      assert Walk(rest) by {
        forall i | 0 <= i < |rest| - 1 ensures MayMove(rest[i], rest[i + 1]) {
          assert MayMove(path[i + 1], path[i + 2]);
        }
      }
      WhereCancellationEnds(rest);
    }
  }
}
