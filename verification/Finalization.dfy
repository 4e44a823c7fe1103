/**
  The one way a run becomes terminal: claims ordered by authority, committed by
  compare-and-set, re-decided at most once when the run moved.
 */
module Finalization {
  import opened Common
  import opened RunStates
  import opened RunStore
  import ProductOutcome

  datatype Reason = Product | ControlSuccess | CancelRequested | BudgetStop(stop: Status) | Failure | Refusal

  datatype AnyClaim = Claim(
    reason: Reason, semantic: ProductOutcome.Semantic, digest: nat, output: Option<nat>, errorCode: Option<string>)

  /** A budget stop names the terminal status of the rail that tripped. */
  type TerminalClaim = c: AnyClaim | c.reason.BudgetStop? ==> Terminal(c.reason.stop)
    witness Claim(Failure, ProductOutcome.RefusedProduct, 0, None, None)

  function DurableProductStatus(s: ProductOutcome.Semantic): Status {
    match s
    case Complete => Completed
    case Partial => PartialSuccess
    case Unusable => PartialSuccess
    case RefusedProduct => Failed
    case NotProduced => Failed
  }

  /** Derived from the reason, never declared. */
  function StatusOf(c: TerminalClaim): (s: Status)
    ensures Terminal(s)
  {
    match c.reason
    case Product => DurableProductStatus(c.semantic)
    case ControlSuccess => Completed
    case CancelRequested => Cancelled
    case BudgetStop(stop) => stop
    case Failure => Failed
    case Refusal => Failed
  }

  /** Which claims derive which ending. An unusable product is still a partial
      success; a refused or missing one is a failure. */
  lemma EndingsAre(c: TerminalClaim)
    ensures StatusOf(c) == Completed <==>
              c.reason == ControlSuccess || c.reason == BudgetStop(Completed)
              || (c.reason == Product && c.semantic.Complete?)
    ensures StatusOf(c) == PartialSuccess <==>
              c.reason == BudgetStop(PartialSuccess)
              || (c.reason == Product && (c.semantic.Partial? || c.semantic.Unusable?))
    ensures StatusOf(c) == Failed <==>
              c.reason in {Failure, Refusal, BudgetStop(Failed)}
              || (c.reason == Product && (c.semantic.RefusedProduct? || c.semantic.NotProduced?))
    ensures StatusOf(c) == Cancelled <==> c.reason in {CancelRequested, BudgetStop(Cancelled)}
    ensures StatusOf(c) == TimedOut <==> c.reason == BudgetStop(TimedOut)
    ensures StatusOf(c) == BudgetExhausted <==> c.reason == BudgetStop(BudgetExhausted)
  {
  }

  function AuthorityOf(s: Status): nat
    requires Terminal(s)
  {
    match s
    case Cancelled => 50
    case TimedOut => 40
    case BudgetExhausted => 40
    case Failed => 30
    case PartialSuccess => 20
    case Completed => 10
  }

  function Authority(c: TerminalClaim): nat {
    AuthorityOf(StatusOf(c))
  }

  datatype Identity = Identity(reason: Reason, status: Status, errorCode: Option<string>,
      semantic: ProductOutcome.Semantic, digest: nat)

  /** What makes two claims the same decision. All stops share one reason. */
  function IdentityOf(c: TerminalClaim): Identity {
    var reason := if c.reason.BudgetStop? then BudgetStop(Failed) else c.reason;
    Identity(reason, StatusOf(c), c.errorCode, c.semantic, c.digest)
  }

  /** The same decision: alike in everything but the stored output, and every
      budget stop is like every other of its status. */
  lemma SameDecisionIff(a: TerminalClaim, b: TerminalClaim)
    ensures IdentityOf(a) == IdentityOf(b) <==>
              && (a.reason == b.reason || (a.reason.BudgetStop? && b.reason.BudgetStop?))
              && StatusOf(a) == StatusOf(b) && a.errorCode == b.errorCode
              && a.semantic == b.semantic && a.digest == b.digest
  {
  }

  // -- the strongest claim ----------------------------------------------------------------

  function BestOf(claim: TerminalClaim, others: seq<TerminalClaim>): TerminalClaim {
    if others == [] then claim
    else
      var best := BestOf(claim, others[..|others| - 1]);
      if Authority(others[|others| - 1]) > Authority(best) then others[|others| - 1] else best
  }

  method Winner(claim: TerminalClaim, others: seq<TerminalClaim>) returns (winner: TerminalClaim)
    ensures winner == BestOf(claim, others)
    ensures forall i :: 0 <= i < |others| ==> Authority(others[i]) <= Authority(winner)
    ensures Authority(claim) <= Authority(winner)
  {
    hide Authority;
    winner := claim;
    for i := 0 to |others|
      invariant winner == BestOf(claim, others[..i])
      invariant forall j :: 0 <= j < i ==> Authority(others[j]) <= Authority(winner)
      invariant Authority(claim) <= Authority(winner)
    {
      assert others[..i + 1][..i] == others[..i];
      if Authority(others[i]) > Authority(winner) {
        winner := others[i];
      }
    }
    assert others[..|others|] == others;
  }

  predicate StrongerThanAllBefore(claim: TerminalClaim, others: seq<TerminalClaim>, k: nat)
    requires k < |others|
  {
    Authority(others[k]) > Authority(claim) && forall j :: 0 <= j < k ==> Authority(others[j]) < Authority(others[k])
  }

  /** The winner has the greatest authority there is. On a tie the claim being
      finalized stays; among the others, the first of the strongest wins. */
  lemma {:induction false} WinnerIsTheFirstStrongest(claim: TerminalClaim, others: seq<TerminalClaim>)
    ensures forall i :: 0 <= i < |others| ==> Authority(others[i]) <= Authority(BestOf(claim, others))
    ensures Authority(claim) <= Authority(BestOf(claim, others))
    ensures BestOf(claim, others) == claim
            || exists k :: 0 <= k < |others| && others[k] == BestOf(claim, others)
                && StrongerThanAllBefore(claim, others, k)
    ensures Authority(BestOf(claim, others)) == Authority(claim) ==> BestOf(claim, others) == claim
  {
    hide Authority;
    if others != [] {
      var n := |others| - 1;
      var most := others[..n];
      WinnerIsTheFirstStrongest(claim, most);
      forall i | 0 <= i < |others| ensures Authority(others[i]) <= Authority(BestOf(claim, others)) {
        assert i < n ==> others[i] == most[i];
      }
      if Authority(others[n]) > Authority(BestOf(claim, most)) {
        assert StrongerThanAllBefore(claim, others, n) by {
          assert forall j :: 0 <= j < n ==> others[j] == most[j];
        }
      } else if BestOf(claim, others) != claim {
        var k :| 0 <= k < n && most[k] == BestOf(claim, most) && StrongerThanAllBefore(claim, most, k);
        assert others[k] == most[k] && StrongerThanAllBefore(claim, others, k) by {
          assert forall j :: 0 <= j <= k ==> others[j] == most[j];
        }
      }
    }
  }

  /** Some claim, of all there are, derives this ending. */
  ghost predicate Says(claim: TerminalClaim, others: seq<TerminalClaim>, s: Status) {
    StatusOf(claim) == s || exists i :: 0 <= i < |others| && StatusOf(others[i]) == s
  }

  /** The ending that stands: a cancellation before anything, then a stop, then a
      failure, then a partial success; completed only when every claim says so. */
  ghost predicate EndsAs(claim: TerminalClaim, others: seq<TerminalClaim>, s: Status) {
    && Says(claim, others, s)
    && (s != Cancelled ==> !Says(claim, others, Cancelled))
    && (s in {Failed, PartialSuccess, Completed} ==>
          !Says(claim, others, TimedOut) && !Says(claim, others, BudgetExhausted))
    && (s in {PartialSuccess, Completed} ==> !Says(claim, others, Failed))
    && (s == Completed ==> !Says(claim, others, PartialSuccess))
  }

  /** The winner derives the ending that stands, which is one - but for a timeout
      and a budget stop together, where either may stand. */
  lemma TheWinnerEndsAs(claim: TerminalClaim, others: seq<TerminalClaim>)
    ensures EndsAs(claim, others, StatusOf(BestOf(claim, others)))
    ensures forall s :: EndsAs(claim, others, s) ==>
              || s == StatusOf(BestOf(claim, others))
              || {s, StatusOf(BestOf(claim, others))} == {TimedOut, BudgetExhausted}
    ensures EndsAs(claim, others, StatusOf(claim)) ==> BestOf(claim, others) == claim
  {
    hide StatusOf, BestOf;
    WinnerIsTheFirstStrongest(claim, others);
    var best := BestOf(claim, others);
    assert Says(claim, others, StatusOf(best)) by {
      if best != claim {
        var k :| 0 <= k < |others| && others[k] == best && StrongerThanAllBefore(claim, others, k);
      }
    }
    forall s | Says(claim, others, s) ensures Terminal(s) && AuthorityOf(s) <= Authority(best) {
      if StatusOf(claim) != s {
        var i :| 0 <= i < |others| && StatusOf(others[i]) == s;
        assert Authority(others[i]) <= Authority(best);
      }
    }
  }

  /** Which branch arrived first changes the choice only among equals: any
      arrangement of the same claims picks the same authority. */
  lemma ArrivalOnlyBreaksTies(a: TerminalClaim, others: seq<TerminalClaim>, b: TerminalClaim, rest: seq<TerminalClaim>)
    requires multiset([a] + others) == multiset([b] + rest)
    ensures Authority(BestOf(a, others)) == Authority(BestOf(b, rest))
    ensures StatusOf(BestOf(a, others)) == StatusOf(BestOf(b, rest))
            || {StatusOf(BestOf(a, others)), StatusOf(BestOf(b, rest))} == {TimedOut, BudgetExhausted}
  {
    WinnerIsAmong(a, others);
    WinnerIsAmong(b, rest);
    NoneIsStronger(a, others, BestOf(b, rest));
    NoneIsStronger(b, rest, BestOf(a, others));
  }

  lemma WinnerIsAmong(a: TerminalClaim, others: seq<TerminalClaim>)
    ensures BestOf(a, others) in multiset([a] + others)
  {
    hide Authority;
    WinnerIsTheFirstStrongest(a, others);
    var all := [a] + others;
    if BestOf(a, others) == a {
      assert all[0] == a;
    } else {
      var k :| 0 <= k < |others| && others[k] == BestOf(a, others) && StrongerThanAllBefore(a, others, k);
      assert all[k + 1] == others[k];
    }
  }

  lemma NoneIsStronger(a: TerminalClaim, others: seq<TerminalClaim>, c: TerminalClaim)
    requires c in multiset([a] + others)
    ensures Authority(c) <= Authority(BestOf(a, others))
  {
    hide Authority;
    WinnerIsTheFirstStrongest(a, others);
    var all := [a] + others;
    var i :| 0 <= i < |all| && all[i] == c;
    assert i > 0 ==> others[i - 1] == c;
  }

  // -- a claim under an accepted cancellation ------------------------------------------------

  function Legalized(c: TerminalClaim, observed: Option<Status>): TerminalClaim {
    if observed != Some(CancellationRequested) || StatusOf(c) == Cancelled || StatusOf(c) == Failed then c
    else Claim(CancelRequested, c.semantic, c.digest, c.output, Some("RUN_CANCELLED_AFTER_RESULT"))
  }

  /** Under an accepted cancellation every claim becomes legal; what it produced
      is kept. */
  lemma LegalizedIsLegal(c: TerminalClaim)
    ensures MayFinish(CancellationRequested, StatusOf(Legalized(c, Some(CancellationRequested))))
    ensures forall observed ::
              var z := Legalized(c, observed);
              && z.output == c.output && z.semantic == c.semantic && z.digest == c.digest
              && (observed != Some(CancellationRequested) ==> z == c)
              && (z != c ==> z.reason == CancelRequested && z.errorCode == Some("RUN_CANCELLED_AFTER_RESULT"))
    ensures StatusOf(Legalized(c, Some(CancellationRequested))) == if StatusOf(c) == Failed then Failed else Cancelled
    ensures StatusOf(c) in {Cancelled, Failed} ==> Legalized(c, Some(CancellationRequested)) == c
    ensures forall observed ::
              StatusOf(Legalized(c, observed)) == StatusOf(c) || StatusOf(Legalized(c, observed)) == Cancelled
  {
  }

  // -- one finalization ---------------------------------------------------------------------

  datatype Result = Result(
    status: Status, claim: Option<TerminalClaim>, wrote: bool, duplicate: bool, superseded: bool, alreadyTerminal: bool)

  datatype Finalized = Returned(r: Result) | RaceLost(code: RaceCode) | Unavailable | RepositoryFailed

  /** Other processes run first; then the read answers, or does not. */
  datatype Look = Look(before: seq<Step>, answers: bool)

  datatype Attempt = Attempt(blind: Look, before: seq<Step>, net: Net, reread: Look)

  function Seen(r: Run, l: Look): (Run, Option<Status>) {
    var z := LandedAll(r, l.before);
    (z, if l.answers then Some(z.status) else None)
  }

  function Adopted(status: Status): Finalized {
    Returned(Result(status, None, false, false, false, true))
  }

  function Wrote(c: TerminalClaim): Finalized {
    Returned(Result(StatusOf(c), Some(c), true, false, false, false))
  }

  /** Commit a claim decided under `observed`, with `left` re-decisions to spare. */
  function CommitOf(r: Run, me: nat, token: nat, c: TerminalClaim, observed: Option<Status>, left: nat,
      attempts: seq<Attempt>): (Run, Finalized)
    requires |attempts| == left + 1
    decreases left
  {
    var a := attempts[0];
    var (r1, expected) := if observed.Some? then (r, observed) else Seen(r, a.blind);
    if expected.None? then (r1, Unavailable)
    else
      var (r2, w) := Written(LandedAll(r1, a.before), me, token, a.net, StatusOf(c), expected.value, c.output);
      match w
      case Committed => (r2, Wrote(c))
      case Unreachable => (r2, RepositoryFailed)
      case Refused(code) =>
        var (r3, current) := Seen(r2, a.reread);
        if current.Some? && Terminal(current.value) then (r3, Adopted(current.value))
        else if left > 0 && current.Some? && current != observed then
          CommitOf(r3, me, token, Legalized(c, current), current, left - 1, attempts[1..])
        else (r3, RaceLost(code))
  }

  function FinalizeOf(r: Run, me: nat, token: nat, claim: TerminalClaim, others: seq<TerminalClaim>, look: Look,
      attempts: seq<Attempt>): (Run, Finalized)
    requires |attempts| == 2
  {
    var (r1, observed) := Seen(r, look);
    if observed.Some? && Terminal(observed.value) then (r1, Adopted(observed.value))
    else CommitOf(r1, me, token, Legalized(BestOf(claim, others), observed), observed, 1, attempts)
  }

  predicate OthersOnly(me: nat, a: Attempt) {
    NotBy(me, a.blind.before) && NotBy(me, a.before) && NotBy(me, a.reread.before)
  }

  predicate AllOthersOnly(me: nat, attempts: seq<Attempt>) {
    forall i :: 0 <= i < |attempts| ==> OthersOnly(me, attempts[i])
  }

  /** What every finalization, returned or raised, leaves behind. */
  ghost predicate Honest(r: Run, me: nat, z: Run, f: Finalized) {
    && Sound(z) && Evolves(r, z)
    && (f.Returned? ==> Terminal(z.status) && z.status == f.r.status)
    && (f.Returned? && f.r.wrote ==> !Terminal(r.status) && z.author == Some(me))
    && (r.author != Some(me) && z.author == Some(me) ==> f.RepositoryFailed? || (f.Returned? && f.r.wrote))
  }

  lemma HonestFrom(r: Run, me: nat, r1: Run, z: Run, f: Finalized)
    requires Evolves(r, r1) && Honest(r1, me, z, f) && (r.author != Some(me) ==> r1.author != Some(me))
    ensures Honest(r, me, z, f)
  {
  }

  lemma {:induction false} CommitIsHonest(r: Run, me: nat, token: nat, c: TerminalClaim, observed: Option<Status>,
      left: nat, attempts: seq<Attempt>)
    requires |attempts| == left + 1 && Sound(r) && AllOthersOnly(me, attempts)
    ensures var (z, f) := CommitOf(r, me, token, c, observed, left, attempts);
            && Honest(r, me, z, f)
            && (f.Returned? && f.r.wrote ==>
                  && (c.output.Some? ==> z.output == c.output)
                  && (f.r.status == StatusOf(c) || (f.r.status == Cancelled && z.cancelAccepted)))
    decreases left
  {
    hide LandedAll, Landed, Sound, Evolves, Written, Legalized, StatusOf, NotBy, Terminal;
    var a := attempts[0];
    assert OthersOnly(me, a);
    var (r1, expected) := if observed.Some? then (r, observed) else Seen(r, a.blind);
    assert Sound(r1) && Evolves(r, r1) && (r.author != Some(me) ==> r1.author != Some(me)) by {
      Unchanged(r);
      EveryHistoryIsSound(r, a.blind.before);
    }
    if expected.Some? {
      EveryHistoryIsSound(r1, a.before);
      var r1' := LandedAll(r1, a.before);
      EvolvesOn(r, r1, r1');
      WriteEvolves(r1', me, token, a.net, StatusOf(c), expected.value, c.output);
      var (r2, w) := Written(r1', me, token, a.net, StatusOf(c), expected.value, c.output);
      EvolvesOn(r, r1', r2);
      if w.Refused? {
        EveryHistoryIsSound(r2, a.reread.before);
        var (r3, current) := Seen(r2, a.reread);
        EvolvesOn(r, r2, r3);
        AuthorsAreTerminal(r3);
        if !(current.Some? && Terminal(current.value)) && left > 0 && current.Some? && current != observed {
          var c' := Legalized(c, current);
          CommitIsHonest(r3, me, token, c', current, left - 1, attempts[1..]);
          var (z, f) := CommitOf(r3, me, token, c', current, left - 1, attempts[1..]);
          HonestFrom(r, me, r3, z, f);
          RedecidedStatus(c, current, r3, z);
        }
      }
    }
  }

  /** A writer names its claim and that claim's ending; an adopter names none. */
  predicate Reports(f: Finalized) {
    f.Returned? ==>
      && !f.r.duplicate && !f.r.superseded && f.r.alreadyTerminal == !f.r.wrote
      && (if f.r.wrote then f.r.claim.Some? && StatusOf(f.r.claim.value) == f.r.status else f.r.claim.None?)
  }

  lemma {:induction false} CommitReports(r: Run, me: nat, token: nat, c: TerminalClaim, observed: Option<Status>,
      left: nat, attempts: seq<Attempt>)
    requires |attempts| == left + 1
    ensures Reports(CommitOf(r, me, token, c, observed, left, attempts).1)
    decreases left
  {
    hide LandedAll, Written, Legalized, StatusOf, Terminal;
    var a := attempts[0];
    var (r1, expected) := if observed.Some? then (r, observed) else Seen(r, a.blind);
    if expected.Some? {
      var (r2, w) := Written(LandedAll(r1, a.before), me, token, a.net, StatusOf(c), expected.value, c.output);
      var (r3, current) := Seen(r2, a.reread);
      if left > 0 {
        CommitReports(r3, me, token, Legalized(c, current), current, left - 1, attempts[1..]);
      }
    }
  }

  lemma AuthorsAreTerminal(r: Run)
    requires Sound(r)
    ensures Terminal(r.status) <==> r.author.Some?
    ensures Terminal(r.status) ==> !r.status.CancellationRequested?
  {
  }

  /** A re-decision keeps the claim's status and product, or cancels it because
      the run it found had accepted a cancellation. */
  lemma RedecidedStatus(c: TerminalClaim, current: Option<Status>, r: Run, z: Run)
    requires current == Some(r.status) && Evolves(r, z) && Sound(r) && Sound(z)
    ensures Legalized(c, current).output == c.output
    ensures z.status == StatusOf(Legalized(c, current)) && z.author.Some? ==>
              z.status == StatusOf(c) || (z.status == Cancelled && z.cancelAccepted)
  {
  }

  lemma FinalizeIsHonest(r: Run, me: nat, token: nat, claim: TerminalClaim, others: seq<TerminalClaim>, look: Look,
      attempts: seq<Attempt>)
    requires |attempts| == 2 && Sound(r) && NotBy(me, look.before) && AllOthersOnly(me, attempts)
    ensures var (z, f) := FinalizeOf(r, me, token, claim, others, look, attempts);
            var winner := BestOf(claim, others);
            && Honest(r, me, z, f) && Reports(f)
            && (f.Returned? && f.r.wrote ==>
                  && (EndsAs(claim, others, f.r.status) || (f.r.status == Cancelled && z.cancelAccepted))
                  && (winner.output.Some? ==> z.output == winner.output)
                  && (f.r.status == StatusOf(winner) || (f.r.status == Cancelled && z.cancelAccepted)))
  {
    hide LandedAll, Landed, Sound, Evolves, CommitOf, Legalized, StatusOf, BestOf, EndsAs;
    TheWinnerEndsAs(claim, others);
    EveryHistoryIsSound(r, look.before);
    var (r1, observed) := Seen(r, look);
    AuthorsAreTerminal(r1);
    if !(observed.Some? && Terminal(observed.value)) {
      var winner := BestOf(claim, others);
      var c := Legalized(winner, observed);
      CommitIsHonest(r1, me, token, c, observed, 1, attempts);
      CommitReports(r1, me, token, c, observed, 1, attempts);
      var (z, f) := CommitOf(r1, me, token, c, observed, 1, attempts);
      HonestFrom(r, me, r1, z, f);
      if observed.Some? {
        RedecidedStatus(winner, observed, r1, z);
      } else {
        NothingObserved(winner);
      }
    }
  }

  lemma NothingObserved(c: TerminalClaim)
    ensures Legalized(c, None) == c
  {
  }

  /**
    A cancellation that lands between the read and the write, and nothing else,
    is absorbed: the one re-decision commits under it, and the product the claim
    carried is kept. It never surfaces as a lost race.
   */
  lemma CancellationIsAbsorbed(r: Run, me: nat, token: nat, c: TerminalClaim, launch: LaunchState, blind: Look,
      spare: Look)
    requires r.lease == token && !Terminal(r.status) && r.status != CancellationRequested
        && MayFinish(r.status, StatusOf(c))
    requires CancelLands(r, r.status, launch)
    ensures var first := Attempt(blind, [Cancel(r.status, launch)], Delivered(true), Look([], true));
            var second := Attempt(spare, [], Delivered(true), spare);
            var (z, f) := CommitOf(r, me, token, c, Some(r.status), 1, [first, second]);
            && f == Wrote(Legalized(c, Some(CancellationRequested)))
            && z.status in {Cancelled, Failed} && z.cancelAccepted && z.author == Some(me)
            && (c.output.Some? ==> z.output == c.output)
            && (z.status == Failed <==> StatusOf(c) == Failed)
  {
    var first := Attempt(blind, [Cancel(r.status, launch)], Delivered(true), Look([], true));
    var second := Attempt(spare, [], Delivered(true), spare);
    var cancelled := Landed(r, Cancel(r.status, launch));
    assert LandedAll(r, [Cancel(r.status, launch)]) == cancelled by { LandedOne(r, Cancel(r.status, launch)); }
    assert cancelled.status == CancellationRequested && cancelled.lease == token;
    LegalizedIsLegal(c);
    SecondCommit(cancelled, me, token, Legalized(c, Some(CancellationRequested)), second);
    hide Landed, LandedAll, StatusOf, Legalized, MayFinish, CancelLands, NextStatuses;
    assert [first, second][1..] == [second];
    FirstIsRejected(r, cancelled, me, token, c, first, second);
    LegalizedStatus(c);
  }

  lemma LandedOne(r: Run, s: Step)
    ensures LandedAll(r, [s]) == Landed(r, s)
  {
    assert [s][1..] == [];
  }

  lemma LegalizedStatus(c: TerminalClaim)
    ensures StatusOf(Legalized(c, Some(CancellationRequested))) in {Cancelled, Failed}
    ensures StatusOf(Legalized(c, Some(CancellationRequested))) == Failed <==> StatusOf(c) == Failed
  {
  }

  lemma SecondCommit(r: Run, me: nat, token: nat, c: TerminalClaim, a: Attempt)
    requires r.lease == token && a.before == [] && a.net == Delivered(true) && MayFinish(r.status, StatusOf(c))
    ensures CommitOf(r, me, token, c, Some(r.status), 0, [a]) == (Closed(r, me, StatusOf(c), c.output), Wrote(c))
  {
    hide StatusOf, MayFinish;
  }

  lemma FirstIsRejected(r: Run, z: Run, me: nat, token: nat, c: TerminalClaim, a: Attempt, next: Attempt)
    requires z.status != r.status && !Terminal(z.status) && MayFinish(r.status, StatusOf(c))
    requires LandedAll(r, a.before) == z && a.net == Delivered(true) && a.reread == Look([], true)
    ensures CommitOf(r, me, token, c, Some(r.status), 1, [a, next])
            == CommitOf(z, me, token, Legalized(c, Some(z.status)), Some(z.status), 0, [next])
  {
    hide StatusOf, MayFinish, Legalized, Landed;
    assert LandedAll(z, []) == z;
    assert [a, next][1..] == [next];
  }

  /**
    With nobody else acting, the lease live and every call answered, a claim
    commits exactly when the status it was decided under may end that way; a run
    already over is adopted, and any other claim surfaces as an illegal move.
   */
  lemma QuietCommit(r: Run, me: nat, token: nat, c: TerminalClaim, a: Attempt, spare: Attempt)
    requires r.lease == token && a.before == [] && a.net == Delivered(true) && a.reread == Look([], true)
    ensures var (z, f) := CommitOf(r, me, token, c, Some(r.status), 1, [a, spare]);
            && (f == Wrote(c) <==> MayFinish(r.status, StatusOf(c)))
            && (f == Adopted(r.status) <==> Terminal(r.status) && !MayFinish(r.status, StatusOf(c)))
            && (f == RaceLost(InvalidRunTransition) <==> !Terminal(r.status) && !MayFinish(r.status, StatusOf(c)))
            && (f != Wrote(c) ==> z == r)
  {
    hide StatusOf, MayFinish, Landed, Legalized;
  }

  /** How a commit fails: unread, unanswered, or without the lease - each under its
      own name, and none of them with the row written in the first and last case. */
  lemma CommitFailsAs(r: Run, me: nat, token: nat, c: TerminalClaim, a: Attempt, spare: Attempt)
    requires a.before == [] && a.blind.before == [] && a.reread == Look([], true)
    ensures !a.blind.answers ==> CommitOf(r, me, token, c, None, 1, [a, spare]) == (r, Unavailable)
    ensures MayFinish(r.status, StatusOf(c)) && a.net == RequestLost ==>
              CommitOf(r, me, token, c, Some(r.status), 1, [a, spare]) == (r, RepositoryFailed)
    ensures MayFinish(r.status, StatusOf(c)) && a.net == ReplyLost(true) && r.lease == token ==>
              CommitOf(r, me, token, c, Some(r.status), 1, [a, spare])
              == (Closed(r, me, StatusOf(c), c.output), RepositoryFailed)
    ensures MayFinish(r.status, StatusOf(c)) && !Terminal(r.status) && (r.lease != token || a.net == Delivered(false))
            && a.net.Delivered? ==>
              CommitOf(r, me, token, c, Some(r.status), 1, [a, spare]) == (r, RaceLost(RunLeaseLost))
  {
    hide StatusOf, MayFinish, Landed, Legalized;
    assert LandedAll(r, []) == r;
  }

  // -- the finalizer of one run --------------------------------------------------------------

  class RunFinalizer {
    const store: Store
    const me: nat
    const token: nat

    var pending: seq<TerminalClaim>
    var decision: Option<TerminalClaim>
    var result: Option<Result>

    /** A result, once there is one, names the status the row has for good. */
    ghost predicate Valid()
      reads this, store
    {
      && Sound(store.run)
      && (result.Some? ==> Terminal(store.run.status) && result.value.status == store.run.status)
      && (decision.Some? ==> result.Some? && store.run.author == Some(me))
    }

    constructor (store: Store, me: nat, token: nat)
      requires Sound(store.run)
      ensures Valid() && this.store == store && this.me == me && this.token == token
      ensures pending == [] && decision.None? && result.None?
    {
      this.store, this.me, this.token := store, me, token;
      pending, decision, result := [], None, None;
    }

    /** Record a claim that is true but not written yet. */
    method Note(claim: TerminalClaim)
      requires Valid()
      modifies this`pending
      ensures Valid() && pending == if result.None? then old(pending) + [claim] else old(pending)
    {
      if result.None? {
        pending := pending + [claim];
      }
    }

    /** The world moves on; what this finalizer reported stays true. */
    method OthersRun(steps: seq<Step>)
      requires Valid() && NotBy(me, steps)
      modifies store
      ensures Valid() && store.run == LandedAll(old(store.run), steps) && Evolves(old(store.run), store.run)
    {
      hide Landed, LandedAll;
      EveryHistoryIsSound(store.run, steps);
      store.OthersRun(steps);
    }

    method Observe(look: Look) returns (status: Option<Status>)
      requires Valid() && NotBy(me, look.before)
      modifies store
      ensures Valid() && (store.run, status) == Seen(old(store.run), look)
    {
      OthersRun(look.before);
      status := store.GetStatus(look.answers);
    }

    /** What is known about the run: claims noted, then what each source says
        now. A source that raises says nothing. */
    method Claims(sources: seq<Option<TerminalClaim>>) returns (claims: seq<TerminalClaim>)
      ensures claims == pending + Answers(sources)
    {
      claims := pending;
      for i := 0 to |sources|
        invariant claims == pending + Answers(sources[..i])
      {
        assert sources[..i + 1][..i] == sources[..i];
        if sources[i].Some? {
          claims := claims + [sources[i].value];
        }
      }
      assert sources[..|sources|] == sources;
    }

    method Adopt(observed: Option<Status>) returns (r: Option<Result>)
      requires Valid() && result.None? && (observed.Some? ==> observed.value == store.run.status)
      modifies this`result
      ensures Valid() && (r.Some? <==> observed.Some? && Terminal(observed.value))
      ensures r.Some? ==> Adopted(observed.value) == Returned(r.value) && result == r
      ensures r.None? ==> result.None?
    {
      if observed.None? || !Terminal(observed.value) {
        return None;
      }
      r := Some(Result(observed.value, None, false, false, false, true));
      result := r;
    }

    method Repeat(claim: TerminalClaim) returns (r: Result)
      requires Valid() && result.Some?
      ensures r.status == store.run.status && !r.wrote && r.claim == decision
      ensures r.duplicate <==> decision.Some? && IdentityOf(decision.value) == IdentityOf(claim)
      ensures r.superseded == !r.duplicate && r.alreadyTerminal == result.value.alreadyTerminal
    {
      var same := decision.Some? && IdentityOf(decision.value) == IdentityOf(claim);
      return Result(result.value.status, decision, false, same, !same, result.value.alreadyTerminal);
    }

    /** Write first; only then claim. A rejected write re-reads once, and decides
        again at most once. */
    method Commit(claim: TerminalClaim, observed: Option<Status>, left: nat,
        attempts: seq<Attempt>) returns (f: Finalized)
      requires Valid() && result.None?
      requires |attempts| == left + 1 && AllOthersOnly(me, attempts)
      modifies this`decision, this`result, store
      ensures (store.run, f) == CommitOf(old(store.run), me, token, claim, observed, left, attempts)
      ensures f.Returned? ==> result == Some(f.r)
      ensures f.Returned? && f.r.wrote ==> decision == f.r.claim
      ensures !f.Returned? ==> result.None? && decision.None?
      ensures Valid()
      decreases left
    {
      hide LandedAll, Landed, Sound, Evolves, Written, Legalized, StatusOf, MayFinish;
      var a := attempts[0];
      assert OthersOnly(me, a);
      CommitIsHonest(store.run, me, token, claim, observed, left, attempts);
      var status := StatusOf(claim);
      var expected := observed;
      if expected.None? {
        expected := Observe(a.blind);
        if expected.None? {
          return Unavailable;
        }
      }
      ghost var seen := store.run;
      EveryHistoryIsSound(seen, a.before);
      OthersRun(a.before);
      WriteEvolves(store.run, me, token, a.net, status, expected.value, claim.output);
      var w := store.FinalizeRun(me, token, a.net, status, expected.value, claim.output);
      if w.Unreachable? {
        return RepositoryFailed;
      }
      if w.Refused? {
        EveryHistoryIsSound(store.run, a.reread.before);
        var current := Observe(a.reread);
        var adopted := Adopt(current);
        if adopted.Some? {
          return Returned(adopted.value);
        }
        if left > 0 && current.Some? && current != observed {
          f := Commit(Legalized(claim, current), current, left - 1, attempts[1..]);
          return;
        }
        return RaceLost(w.code);
      }
      result := Some(Result(status, Some(claim), true, false, false, false));
      decision := Some(claim);
      return Returned(result.value);
    }

    /**
      Terminalize the run. What it returns names the row's status for good; it
      writes at most once, and never after a decision is in force.
     */
    method Finalize(claim: TerminalClaim, sources: seq<Option<TerminalClaim>>, look: Look, attempts: seq<Attempt>)
      returns (f: Finalized)
      requires Valid()
      requires |attempts| == 2 && NotBy(me, look.before) && AllOthersOnly(me, attempts)
      modifies this`decision, this`result, store
      ensures Valid() && Evolves(old(store.run), store.run)
      ensures old(result).Some? ==>
          store.run == old(store.run) && f.Returned? && !f.r.wrote && f.r.claim == old(decision)
      ensures old(result).None? ==>
                (store.run, f) == FinalizeOf(old(store.run), me, token, claim, pending + Answers(sources), look,
                    attempts)
      ensures f.Returned? ==> result.Some? && Terminal(store.run.status) && f.r.status == store.run.status
      ensures f.Returned? && f.r.wrote ==>
          old(store.run).writes == 0 && store.run.writes == 1 && store.run.author == Some(me)
      ensures f.Returned? && f.r.wrote ==>
                || EndsAs(claim, old(pending) + Answers(sources), store.run.status)
                || (store.run.status == Cancelled && store.run.cancelAccepted)
      ensures old(result).None? ==> Reports(f)
    {
      hide LandedAll, Landed, CommitOf, Legalized, StatusOf, BestOf, Answers;
      Unchanged(store.run);
      if result.Some? {
        var repeated := Repeat(claim);
        return Returned(repeated);
      }
      FinalizeIsHonest(store.run, me, token, claim, pending + Answers(sources), look, attempts);
      var claims := Claims(sources);
      var winner := Winner(claim, claims);
      var observed := Observe(look);
      var adopted := Adopt(observed);
      if adopted.Some? {
        return Returned(adopted.value);
      }
      f := Commit(Legalized(winner, observed), observed, 1, attempts);
    }
  }

  function Answers(sources: seq<Option<TerminalClaim>>): seq<TerminalClaim> {
    if sources == [] then []
    else Answers(sources[..|sources| - 1])
         + (if sources[|sources| - 1].Some? then [sources[|sources| - 1].value] else [])
  }

  /** A claim is heard exactly when some source answers with it. */
  lemma {:induction false} AnswersAre(sources: seq<Option<TerminalClaim>>, c: TerminalClaim)
    ensures c in Answers(sources) <==> Some(c) in sources
    ensures multiset(Answers(sources))[c] == multiset(sources)[Some(c)]
  {
    if sources != [] {
      var n := |sources| - 1;
      AnswersAre(sources[..n], c);
      assert sources == sources[..n] + [sources[n]];
    }
  }
}
