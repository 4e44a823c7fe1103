/**
  The client every chat completion goes through: it opens the call on the
  budget, sends the request, and settles what came back, whatever came back.
 */
module GuardedClient {
  import opened Common
  import opened BudgetTracker
  import opened RunAccounting
  import opened ModelProfiles
  import ProviderVerdicts

  /** A role's contract and the byte bound of the request it makes. */
  datatype Role = Role(minAnswerReserve: int, inputBound: int)

  datatype Call = Call(profile: ModelProfile, estimated: int, cap: int, role: Option<Role>)

  /** Estimates and byte bounds are at least one token; a stated cap is positive. */
  predicate Readable(call: Call) {
    call.estimated >= 1 && call.cap >= 1 && (call.role.Some? ==> call.role.value.inputBound >= 1)
  }

  function RequestOf(call: Call): Request {
    Request(call.estimated, Some(call.cap),
            if call.role.Some?
            then Some(Contract(call.role.value.minAnswerReserve, Some(call.profile), call.role.value.inputBound))
            else None)
  }

  datatype Outcome =
    | Answered(usage: Usage, ttl: Ttl, reported: Option<real>)
    | Unmeasured(reported: Option<real>)            // a stream that finished and reported no usage
    | Failed(e: ProviderVerdicts.Failure)

  /** All the input a request may be billed for. */
  function InputCharge(call: Call): int {
    if call.role.Some? && call.role.value.inputBound != 0 then call.role.value.inputBound else call.estimated
  }

  function CostOf(call: Call, u: Usage, ttl: Ttl, reported: Option<real>): real {
    if reported.Some? then reported.value else UsageCost(call.profile, u, ttl)
  }

  /** What a call that was allowed `allowed` output tokens is charged. */
  function SettlementOf(call: Call, k: nat, allowed: int, o: Outcome): Settlement {
    var passedBack := Hold(MaxInt(0, call.estimated), allowed, 0.0);
    match o
    case Answered(u, ttl, reported) =>
      Settlement(k, passedBack, u.input, u.output, Some(CostOf(call, u, ttl, reported)), true)
    case Unmeasured(reported) =>
      var u := Usage(MaxInt(0, InputCharge(call)), MaxInt(0, allowed), None, None);
      Settlement(k, passedBack, u.input, u.output, Some(CostOf(call, u, FiveMinutes, reported)), true)
    case Failed(e) =>
      if call.role.Some? && !ProviderVerdicts.Classify(e).proven then
        Settlement(k, passedBack, InputCharge(call), allowed,
                   Some(WorstCaseCost(call.profile, InputCharge(call), allowed)), false)
      else Settlement(k, passedBack, 0, 0, Some(0.0), false)
  }

  /** What the rest of the process answers while a call is closed. `lost` is
      whatever the daily settlement or the recorder raises when it does not.
      `refusedMeanwhile` says that, before the scheduler looks at what this call
      raised, the latch refuses another call of the run. */
  datatype Answers = Answers(dailySettles: bool, settlementRecords: bool, followUpRecords: bool,
      lost: ProviderVerdicts.Failure, refusedMeanwhile: bool)

  /** A stop of the budget, as the scheduler's classifier sees it. */
  const STOPPED := ProviderVerdicts.Failure(true, false, None, false, false, None, None,
                                            ProviderVerdicts.Text(None, false, false, false))

  /** Interrupts and exits are not settled at all. */
  predicate Settles(o: Outcome) {
    o.Failed? ==> o.e.isException
  }

  predicate SettlementPasses(c: Config, t: Tracker, s: Settlement, a: Answers) {
    a.dailySettles && a.settlementRecords && Overage(c, AfterSettlement(t, s)).None?
  }

  predicate CountsRetry(e: ProviderVerdicts.Failure) {
    !ProviderVerdicts.Classify(e).IsBackpressure() && ProviderVerdicts.Classify(e).ConsumesSemanticRetry()
  }

  /** What settling the call does to the tracker, retry allowance included. */
  function AfterClose(c: Config, t: Tracker, s: Settlement, o: Outcome, a: Answers): Tracker {
    if !Settles(o) then t
    else if !a.dailySettles then Next(c, t, Step(SettlementLost, a.settlementRecords))
    else
      var settled := Next(c, t, Step(Settle(s), a.settlementRecords));
      if SettlementPasses(c, t, s, a) && o.Failed? && CountsRetry(o.e)
      then Next(c, settled, Step(Retry, a.followUpRecords)) else settled
  }

  /** What a settlement that does not pass raises, before it is marked. */
  function SettlementRaises(a: Answers): ProviderVerdicts.Failure {
    if !a.dailySettles then ProviderVerdicts.Replacing(STOPPED, a.lost)
    else if !a.settlementRecords then a.lost
    else STOPPED
  }

  /** Recording what a failure meant can itself raise: the recorder, or the retry
      allowance. Nothing guards it. */
  function FollowUpRaises(c: Config, t: Tracker, e: ProviderVerdicts.Failure,
      a: Answers): Option<ProviderVerdicts.Failure> {
    if ProviderVerdicts.Classify(e).IsBackpressure() then
      (if a.followUpRecords then None else Some(a.lost))
    else if !ProviderVerdicts.Classify(e).ConsumesSemanticRetry() then None
    else if !a.followUpRecords then Some(a.lost)
    else if c.maxRetries.Some? && t.spent.retries + 1 > c.maxRetries.value then Some(STOPPED)
    else None
  }

  /** The stop a run keeps is the very object its first refusal raised. Refusing
      another call raises that object again and marks it: nothing of that call
      was sent. */
  function Remarked(raised: ProviderVerdicts.Failure, kept: bool, a: Answers): ProviderVerdicts.Failure {
    if kept && a.refusedMeanwhile then ProviderVerdicts.Marked(raised, true) else raised
  }

  /** Of a settlement that does not pass: it raises the stop the run now keeps. */
  predicate SettlingStops(t: Tracker, a: Answers) {
    t.stop.None? && (!a.dailySettles || a.settlementRecords)
  }


  /** What leaves the client: None for an answer, else what the scheduler sees. */
  function Escapes(c: Config, t: Tracker, s: Settlement, o: Outcome, a: Answers): Option<ProviderVerdicts.Failure> {
    if !Settles(o) then Some(o.e)
    else if !SettlementPasses(c, t, s, a) then
      (if o.Failed? then
         Some(Remarked(ProviderVerdicts.Marked(ProviderVerdicts.Replacing(SettlementRaises(a), o.e),
                                               ProviderVerdicts.Classify(o.e).proven), SettlingStops(t, a), a))
       else Some(ProviderVerdicts.Marked(SettlementRaises(a), true)))
    else if !o.Failed? then None
    else Some(AfterFollowUp(c, t, o.e, a))
  }

  /** The failure itself, unless recording what it meant raises. */
  function AfterFollowUp(c: Config, t: Tracker, e: ProviderVerdicts.Failure, a: Answers): ProviderVerdicts.Failure {
    var follow := FollowUpRaises(c, t, e, a);
    if follow.None? then e
    else Remarked(ProviderVerdicts.Replacing(follow.value, e), t.stop.None? && a.followUpRecords, a)
  }

  /** A settlement that passes latches nothing and counts no retry. */
  lemma PassingKeepsTheFollowUp(c: Config, t: Tracker, s: Settlement, e: ProviderVerdicts.Failure, a: Answers)
    requires SettlementPasses(c, t, s, a)
    ensures AfterFollowUp(c, Checked(c, AfterSettlement(t, s)), e, a) == AfterFollowUp(c, t, e, a)
  {
    hide Overage, ProviderVerdicts.Classify;
  }

  class GuardedCompletions {
    const tracker: Budget

    constructor (tracker: Budget)
      ensures this.tracker == tracker
    {
      this.tracker := tracker;
    }

    /** Record what a failure meant; the failure is raised again afterwards. */
    method FollowUp(e: ProviderVerdicts.Failure, a: Answers, now: real) returns (raised: ProviderVerdicts.Failure)
      modifies tracker
      ensures raised == AfterFollowUp(tracker.config, old(tracker.View()), e, a)
      ensures tracker.View() == if CountsRetry(e)
          then Next(tracker.config, old(tracker.View()), Step(Retry, a.followUpRecords))
                                else old(tracker.View())
    {
      hide ProviderVerdicts.Classify, Recorded;
      var verdict, first := ProviderVerdicts.Classify(e), tracker.stop.None?;
      var r := Settled.Done;
      if verdict.IsBackpressure() {
        r := tracker.RecordProviderBackpressure(a.followUpRecords, now);
      } else if verdict.ConsumesSemanticRetry() {
        r := tracker.RecordRetry(a.followUpRecords, now);
      }
      match r
      case Done => return e;
      case RecordingFailed => return ProviderVerdicts.Replacing(a.lost, e);
      case Stopped(_) => return Remarked(ProviderVerdicts.Replacing(STOPPED, e), first, a);
    }

    /** Settle one call with its own sequence, and raise what is left to raise. */
    method Close(call: Call, k: nat, allowed: int, o: Outcome, a: Answers, now: real)
      returns (raised: Option<ProviderVerdicts.Failure>)
      modifies tracker
      ensures raised == Escapes(tracker.config, old(tracker.View()), SettlementOf(call, k, allowed, o), o, a)
      ensures tracker.View() == AfterClose(tracker.config, old(tracker.View()), SettlementOf(call, k, allowed, o), o, a)
    {
      hide SettlementPasses, AfterSettlement, UsageCost, WorstCaseCost, Recorded, Next, Remarked;
      hide ProviderVerdicts.Classify;
      var passedBack := Hold(MaxInt(0, call.estimated), allowed, 0.0);
      match o {
        case Failed(e) =>
          if !e.isException {
            return Some(e);
          }
          var failure := SettleFailure(call, k, allowed, e, a, now);
          raised := Some(failure);
        case Unmeasured(reported) =>
          var u := Usage(MaxInt(0, InputCharge(call)), MaxInt(0, allowed), None, None);
          raised := SettleAnswer(Settlement(k, passedBack, u.input, u.output,
              Some(CostOf(call, u, FiveMinutes, reported)), true), a, now);
        case Answered(u, ttl, reported) =>
          raised := SettleAnswer(Settlement(k, passedBack, u.input, u.output, Some(CostOf(call, u, ttl, reported)),
              true), a, now);
      }
    }

    /** A failure that is not proven over is charged all the call held. */
    method SettleFailure(call: Call, k: nat, allowed: int, e: ProviderVerdicts.Failure, a: Answers, now: real)
      returns (raised: ProviderVerdicts.Failure)
      requires e.isException
      modifies tracker
      ensures Escapes(tracker.config, old(tracker.View()), SettlementOf(call, k, allowed, Failed(e)), Failed(e), a)
              == Some(raised)
      ensures tracker.View() == AfterClose(tracker.config, old(tracker.View()),
                                           SettlementOf(call, k, allowed, Failed(e)), Failed(e), a)
    {
      hide Overage, AfterSettlement, WorstCaseCost, Recorded, ProviderVerdicts.Classify, FollowUpRaises;
      var proven := ProviderVerdicts.Classify(e).proven;
      var input, output, cost := 0, 0, 0.0;
      if call.role.Some? && !proven {
        input := InputCharge(call);
        output := allowed;
        cost := WorstCaseCost(call.profile, input, output);
      }
      var first := tracker.stop.None?;
      var s := Settlement(k, Hold(MaxInt(0, call.estimated), allowed, 0.0), input, output, Some(cost), false);
      assert s == SettlementOf(call, k, allowed, Failed(e));
      var r := tracker.SettleCall(s, a.dailySettles, a.settlementRecords, now);
      if !r.Done? {
        raised := ProviderVerdicts.Marked(ProviderVerdicts.Replacing(SettlementRaises(a), e), proven);
        return Remarked(raised, first && r.Stopped?, a);
      }
      PassingKeepsTheFollowUp(tracker.config, old(tracker.View()), s, e, a);
      raised := FollowUp(e, a, now);
    }

    /** The response was read to completion, whatever settling it says. */
    method SettleAnswer(s: Settlement, a: Answers, now: real) returns (raised: Option<ProviderVerdicts.Failure>)
      modifies tracker
      ensures raised == if SettlementPasses(tracker.config, old(tracker.View()), s, a) then None
                        else Some(ProviderVerdicts.Marked(SettlementRaises(a), true))
      ensures tracker.View() == Next(tracker.config, old(tracker.View()),
                                     if a.dailySettles then Step(Settle(s), a.settlementRecords)
                                     else Step(SettlementLost, a.settlementRecords))
    {
      hide Overage, AfterSettlement, Recorded;
      var r := tracker.SettleCall(s, a.dailySettles, a.settlementRecords, now);
      return if r.Done? then None else Some(ProviderVerdicts.Marked(SettlementRaises(a), true));
    }
  }

  // -- what is known about the request afterwards -----------------------------------------

  /** What the scheduler settles the organization's permit on. */
  predicate KnownOver(raised: Option<ProviderVerdicts.Failure>) {
    raised.None? || ProviderVerdicts.Classify(raised.value).proven
  }

  predicate ProofIsKept(c: Config, t: Tracker, call: Call, k: nat, allowed: int, o: Outcome, a: Answers) {
    KnownOver(Escapes(c, t, SettlementOf(call, k, allowed, o), o, a))
    == (o.Failed? ==> ProviderVerdicts.Classify(o.e).proven)
  }

  /** An answer never changes what is known, nor does a settlement that refuses
      - unless its stop is the one the run keeps, and is raised again at once. */
  lemma SettlingKeepsTheProof(c: Config, t: Tracker, call: Call, k: nat, allowed: int, o: Outcome, a: Answers)
    requires o.Failed? && Settles(o) && !ProviderVerdicts.Classify(o.e).proven && a.refusedMeanwhile ==>
               SettlementPasses(c, t, SettlementOf(call, k, allowed, o), a) || !SettlingStops(t, a)
    requires o.Failed? && Settles(o) && SettlementPasses(c, t, SettlementOf(call, k, allowed, o), a) ==>
               FollowUpRaises(c, t, o.e, a).None?
    ensures ProofIsKept(c, t, call, k, allowed, o, a)
  {
    hide ProviderVerdicts.Classify, SettlementPasses, SettlementOf;
    if o.Failed? {
      var refusal := ProviderVerdicts.Replacing(SettlementRaises(a), o.e);
      ProviderVerdicts.MarkedIsProven(refusal, ProviderVerdicts.Classify(o.e).proven);
      ProviderVerdicts.MarkedIsProven(
        ProviderVerdicts.Marked(refusal, ProviderVerdicts.Classify(o.e).proven), true);
    } else {
      ProviderVerdicts.MarkedIsProven(SettlementRaises(a), true);
    }
  }

  /** Nothing on this side keeps a failure from being recorded as what it was. */
  predicate FollowUpAnswers(c: Config, t: Tracker, recorded: bool) {
    recorded && (c.maxRetries.Some? ==> t.spent.retries + 1 <= c.maxRetries.value)
  }

  predicate AlreadyRefused(c: Config, t: Tracker, dailySettles: bool, recorded: bool) {
    !dailySettles || !recorded || Overage(c, t).Some?
  }

  /** Charging the call all it held leaves every limit unbroken. */
  predicate WholeChargeFits(c: Config, t: Tracker, call: Call, k: nat, allowed: int) {
    Overage(c, AfterSettlement(t, SettlementOf(call, k, allowed, Failed(READ_TIMEOUT)))).None?
  }

  /** What has to be so before the call is closed. */
  predicate ProofIsSafe(c: Config, t: Tracker, call: Call, k: nat, allowed: int, a: Answers) {
    if t.stop.None? && a.refusedMeanwhile then
      a.dailySettles && (!a.settlementRecords
                         || (WholeChargeFits(c, t, call, k, allowed) && FollowUpAnswers(c, t, a.followUpRecords)))
    else AlreadyRefused(c, t, a.dailySettles, a.settlementRecords) || FollowUpAnswers(c, t, a.followUpRecords)
  }

  /**
    Whatever the provider raises, and whatever this side raises instead, the
    client lets the scheduler know of the request what was known of it, exactly
    when the recorder answers and a semantic retry is still allowed, or the
    settlement is refused first, which is marked - and, where another call may be
    refused before the scheduler looks, exactly when settling latches no stop.
   */
  lemma ProofIsKeptIff(c: Config, t: Tracker, call: Call, k: nat, allowed: int, a: Answers)
    ensures (forall o, lost :: ProofIsKept(c, t, call, k, allowed, o, a.(lost := lost)))
            <==> ProofIsSafe(c, t, call, k, allowed, a)
  {
    hide ProofIsKept, ProofIsSafe;
    if ProofIsSafe(c, t, call, k, allowed, a) {
      forall o, lost ensures ProofIsKept(c, t, call, k, allowed, o, a.(lost := lost)) {
        SafetyIgnoresWhatIsLost(c, t, call, k, allowed, a, lost);
        SafeProofIsKept(c, t, call, k, allowed, o, a.(lost := lost));
      }
    } else {
      var o := UnsafeProofIsLost(c, t, call, k, allowed, a);
      assert !ProofIsKept(c, t, call, k, allowed, o, a.(lost := STOPPED));
    }
  }

  lemma SafetyIgnoresWhatIsLost(c: Config, t: Tracker, call: Call, k: nat, allowed: int, a: Answers,
                                lost: ProviderVerdicts.Failure)
    ensures ProofIsSafe(c, t, call, k, allowed, a) <==> ProofIsSafe(c, t, call, k, allowed, a.(lost := lost))
  {
    hide AlreadyRefused, WholeChargeFits, FollowUpAnswers;
  }

  lemma SafeProofIsKept(c: Config, t: Tracker, call: Call, k: nat, allowed: int, o: Outcome, a: Answers)
    requires ProofIsSafe(c, t, call, k, allowed, a)
    ensures ProofIsKept(c, t, call, k, allowed, o, a)
  {
    hide ProofIsKept, SettlementOf, ProviderVerdicts.Classify, Overage, AfterSettlement;
    var s := SettlementOf(call, k, allowed, o);
    ChargesAreLimits(c, t, s);
    if o.Failed? && !ProviderVerdicts.Classify(o.e).proven {
      UnprovenIsChargedWhole(call, k, allowed, o.e);
    }
    SettlingKeepsTheProof(c, t, call, k, allowed, o, a);
  }

  /** Then no message, whatever it claims, decides whether a permit goes back,
      and a total deadline that fired never gives one back. */
  lemma NoTextFreesAPermit(c: Config, t: Tracker, call: Call, k: nat, allowed: int, a: Answers,
                           e: ProviderVerdicts.Failure, text: ProviderVerdicts.Text)
    requires ProofIsSafe(c, t, call, k, allowed, a)
    ensures var o, z := Failed(e), Failed(e.(text := text));
            && (KnownOver(Escapes(c, t, SettlementOf(call, k, allowed, o), o, a))
                <==> KnownOver(Escapes(c, t, SettlementOf(call, k, allowed, z), z, a)))
            && (e.deadlineInChain && e.declared != Some(true) ==>
                  !KnownOver(Escapes(c, t, SettlementOf(call, k, allowed, o), o, a)))
  {
    hide ProofIsSafe, SettlementOf, Escapes, KnownOver, ProviderVerdicts.Classify;
    SafeProofIsKept(c, t, call, k, allowed, Failed(e), a);
    SafeProofIsKept(c, t, call, k, allowed, Failed(e.(text := text)), a);
    ProviderVerdicts.ProofIgnoresText(e, text);
    if e.deadlineInChain && e.declared != Some(true) {
      ProviderVerdicts.DeadlineIsNoProof(e);
    }
  }

  /** No settlement takes the usage back under a limit. */
  lemma ChargesAreLimits(c: Config, t: Tracker, s: Settlement)
    ensures Overage(c, t).Some? ==> Overage(c, AfterSettlement(t, s)).Some?
  {
  }

  /** Every unproven failure is charged alike. */
  lemma UnprovenIsChargedWhole(call: Call, k: nat, allowed: int, e: ProviderVerdicts.Failure)
    requires !ProviderVerdicts.Classify(e).proven
    ensures SettlementOf(call, k, allowed, Failed(e)) == SettlementOf(call, k, allowed, Failed(READ_TIMEOUT))
  {
    hide WorstCaseCost;
    ServerErrorIsProven();
  }

  lemma UnsafeProofIsLost(c: Config, t: Tracker, call: Call, k: nat, allowed: int, a: Answers) returns (o: Outcome)
    requires !ProofIsSafe(c, t, call, k, allowed, a)
    ensures !ProofIsKept(c, t, call, k, allowed, o, a.(lost := STOPPED))
  {
    hide ProofIsKept, SettlementOf, ProviderVerdicts.Classify, Overage, AfterSettlement;
    var b := a.(lost := STOPPED);
    ChargesAreLimits(c, t, SettlementOf(call, k, allowed, Failed(READ_TIMEOUT)));
    if t.stop.None? && a.refusedMeanwhile
       && (a.followUpRecords || !a.dailySettles || !WholeChargeFits(c, t, call, k, allowed)) {
      SharedStopProvesTooMuch(c, t, call, k, allowed, b);
      return Failed(READ_TIMEOUT);
    }
    ServerErrorIsLost(c, t, call, k, allowed, b);
    return Failed(SERVER_ERROR);
  }

  /** An HTTP 500: the response was read, so the request is over. */
  const SERVER_ERROR := STOPPED.(response := Some(ProviderVerdicts.Response(Some(500), None)))

  /** A proven, finished request whose failure leaves the client unproven: its
      permit is quarantined although the provider is done. */
  lemma ServerErrorIsLost(c: Config, t: Tracker, call: Call, k: nat, allowed: int, a: Answers)
    requires !AlreadyRefused(c, t, a.dailySettles, a.settlementRecords) && !FollowUpAnswers(c, t, a.followUpRecords)
    requires a.lost == STOPPED && (t.stop.None? && a.refusedMeanwhile ==> !a.followUpRecords)
    ensures ProviderVerdicts.Classify(SERVER_ERROR).proven
    ensures !KnownOver(Escapes(c, t, SettlementOf(call, k, allowed, Failed(SERVER_ERROR)), Failed(SERVER_ERROR), a))
    ensures !ProofIsKept(c, t, call, k, allowed, Failed(SERVER_ERROR), a)
  {
    hide WorstCaseCost;
    ServerErrorIsProven();
    var s := SettlementOf(call, k, allowed, Failed(SERVER_ERROR));
    assert Overage(c, AfterSettlement(t, s)) == Overage(c, t) by {
      hide ProviderVerdicts.Classify;
    }
  }

  /** A request that may still be running, and whose closing latches the stop of
      the run, is proven over by the next call the stop refuses. */
  lemma SharedStopProvesTooMuch(c: Config, t: Tracker, call: Call, k: nat, allowed: int, a: Answers)
    requires t.stop.None? && a.refusedMeanwhile
    requires || !a.dailySettles
             || (a.settlementRecords
                 && (!WholeChargeFits(c, t, call, k, allowed)
                     || (a.followUpRecords && !FollowUpAnswers(c, t, true))))
    ensures var o := Failed(READ_TIMEOUT);
            && !ProviderVerdicts.Classify(o.e).proven
            && KnownOver(Escapes(c, t, SettlementOf(call, k, allowed, o), o, a))
            && !ProofIsKept(c, t, call, k, allowed, o, a)
  {
    hide SettlementOf, Overage, AfterSettlement;
  }

  lemma ServerErrorIsProven()
    ensures var v := ProviderVerdicts.Classify(SERVER_ERROR);
            v.proven && v.ConsumesSemanticRetry() && !v.IsBackpressure()
    ensures !ProviderVerdicts.Classify(STOPPED).proven
    ensures !ProviderVerdicts.Classify(ProviderVerdicts.Replacing(STOPPED, SERVER_ERROR)).proven
  {
  }

  /** A read that timed out: nothing proves the provider stopped. */
  const READ_TIMEOUT := STOPPED

  /** The recorder's own connection never came up. */
  const RECORDER_UNREACHABLE := STOPPED.(neverSentInChain := true)

  /**
    The other direction is the unsafe one: when the retry of a request that may
    still be running cannot be recorded because the recorder is unreachable, the
    recorder's connect error reads as a request that was never sent, and the
    permit is given back.
   */
  lemma UnreachableRecorderProvesTooMuch(c: Config, t: Tracker, call: Call, k: nat, allowed: int)
    requires SettlementPasses(c, t, SettlementOf(call, k, allowed, Failed(READ_TIMEOUT)),
                              Answers(true, true, false, RECORDER_UNREACHABLE, false))
    ensures var o := Failed(READ_TIMEOUT);
            var a := Answers(true, true, false, RECORDER_UNREACHABLE, false);
            !ProviderVerdicts.Classify(o.e).proven && KnownOver(Escapes(c, t, SettlementOf(call, k, allowed, o), o, a))
  {
    hide SettlementOf, SettlementPasses;
  }

  /** And a request the provider asked to be paced is not paced when counting it fails. */
  lemma UnrecordedBackpressureIsNotPaced(c: Config, t: Tracker, call: Call, k: nat, allowed: int,
                                         e: ProviderVerdicts.Failure, a: Answers)
    requires e.isException && ProviderVerdicts.Classify(e).IsBackpressure()
    requires SettlementPasses(c, t, SettlementOf(call, k, allowed, Failed(e)), a)
    requires !a.followUpRecords && a.lost == STOPPED
    ensures var raised := Escapes(c, t, SettlementOf(call, k, allowed, Failed(e)), Failed(e), a);
            raised.Some? && !ProviderVerdicts.Classify(raised.value).IsBackpressure()
  {
    hide SettlementOf, SettlementPasses;
  }

  // -- what a call is charged against what it held --------------------------------------

  function HoldOf(call: Call, allowed: int): Hold {
    Hold(MaxInt(0, call.estimated), allowed, WorstCase(RequestOf(call), Some(allowed)))
  }

  /**
    What each outcome is charged. A failure that may still be running is charged
    the very hold of its call; any other failure nothing; an answer what it used,
    at the price the provider reports or else the profile's; a stream that never
    reported its usage all it was allowed.
   */
  lemma ChargesAre(call: Call, k: nat, allowed: int, o: Outcome)
    requires Readable(call) && allowed >= 0
    ensures var s := SettlementOf(call, k, allowed, o);
            var bound := if call.role.Some? then call.role.value.inputBound else call.estimated;
            && s.seq' == k && s.fallback == Hold(call.estimated, allowed, 0.0) && s.answered == !o.Failed?
            && (o.Failed? && (ProviderVerdicts.IsOver(o.e) || call.role.None?) ==>
                  s.input == 0 && s.output == 0 && s.cost == Some(0.0))
            && (o.Failed? && !ProviderVerdicts.IsOver(o.e) && call.role.Some? ==>
                  s.input == bound && s.output == allowed && s.cost == Some(HoldOf(call, allowed).cost))
            && (o.Unmeasured? ==>
                  && s.input == bound && s.output == allowed
                  && s.cost == Some(if o.reported.Some? then o.reported.value
                                    else UsageCost(call.profile, Usage(bound, allowed, None, None), FiveMinutes)))
            && (o.Answered? ==>
                  && s.input == o.usage.input && s.output == o.usage.output
                  && s.cost == Some(if o.reported.Some? then o.reported.value
                                    else UsageCost(call.profile, o.usage, o.ttl)))
  {
    hide UsageCost, WorstCaseCost, ProviderVerdicts.Classify;
    if o.Failed? {
      ProviderVerdicts.AccountsAre(o.e);
    }
  }

  /** A semantic retry is charged for every failure but a cancellation, an
      exhausted quota and one the provider asked to be paced. */
  lemma RetriesAre(e: ProviderVerdicts.Failure)
    ensures CountsRetry(e) <==>
              !e.isCancellation && !ProviderVerdicts.IsOutOfQuota(e) && !ProviderVerdicts.IsPaced(e)
  {
    hide ProviderVerdicts.Classify;
    ProviderVerdicts.AccountsAre(e);
    ProviderVerdicts.ChargedOnce(e);
  }

  /** The provider bills within the request's bounds, and the profile prices it. */
  predicate Honest(call: Call, allowed: int, o: Outcome) {
    match o
    case Answered(u, ttl, reported) =>
      reported.None? && ttl == FiveMinutes && u.output <= allowed && u.input <= InputCharge(call)
    case Unmeasured(reported) => reported.None?
    case Failed(_) => true
  }

  /**
    No role call ever costs more than the dollars it held: neither an answer
    within its bounds, nor a stream that reported nothing, nor a failure whose
    request may still be running.
   */
  lemma ChargeIsCoveredByTheHold(call: Call, k: nat, allowed: int, o: Outcome)
    requires Readable(call) && call.role.Some? && ModelProfiles.Priced(call.profile)
        && Covers(call.profile, FiveMinutes)
    requires allowed >= 1 && Honest(call, allowed, o)
    ensures Charged(SettlementOf(call, k, allowed, o)) <= HoldOf(call, allowed).cost
  {
    hide UsageCost, WorstCaseCost;
    WorstCaseIsNonNegative(RequestOf(call), Some(allowed));
    if o.Unmeasured? {
      var u := Usage(MaxInt(0, InputCharge(call)), MaxInt(0, allowed), None, None);
      assert UsageCost(call.profile, u, FiveMinutes) <= WorstCaseCost(call.profile, InputCharge(call), allowed);
    }
  }

  /** The one-hour tier escapes the hold: a provider that reports it can charge
      more than the call was admitted for. */
  lemma OneHourTierEscapesTheHold() returns (call: Call, o: Outcome)
    ensures Readable(call) && call.role.Some? && call.profile == KIMI_K3
    ensures o.Answered? && o.ttl == OneHour && o.usage.input <= InputCharge(call) && o.usage.output <= 1
    ensures Charged(SettlementOf(call, 1, 1, o)) > HoldOf(call, 1).cost
  {
    call := Call(KIMI_K3, 1, 1, Some(Role(1, 1000000)));
    o := Answered(Usage(1000000, 1, None, Some(1000000)), OneHour, None);
    assert UsageCost(KIMI_K3, o.usage, OneHour) >= 6.0;
    assert BilledAtWorst(KIMI_K3, 1000000, 1) == 3000015.0;
    assert WorstCaseCost(KIMI_K3, 1000000, 1) < 4.0;
  }

  /**
    Tokens are different: input is held by an estimate of the text and charged
    by its bytes when the request may still be running or reported nothing. The
    charge stays within the hold exactly when the bound does not exceed the
    estimate.
   */
  lemma TokensAreCoveredIff(call: Call, k: nat, allowed: int, o: Outcome)
    requires Readable(call) && allowed >= 1 && !o.Answered?
    ensures var s := SettlementOf(call, k, allowed, o);
            && s.output <= HoldOf(call, allowed).output
            && (s.input <= HoldOf(call, allowed).input <==>
                  || (o.Failed? && ProviderVerdicts.Classify(o.e).proven) || call.role.None?
                  || call.role.value.inputBound <= call.estimated)
  {
    hide UsageCost, WorstCaseCost;
  }

  /** A call admitted within the ceiling whose charged input leaves it. */
  lemma ByteBoundOvershootsTheTokenCeiling(lost: ProviderVerdicts.Failure) returns (c: Config, call: Call)
    requires !ProviderVerdicts.Classify(lost).proven
    ensures Readable(call) && c.maxInput == Some(1)
    ensures var open := Step(Open(RequestOf(call), OPEN_GATE), true);
            var close := Step(Settle(SettlementOf(call, 1, 1, Failed(lost))), true);
            var t := Run(c, NewTracker(0.0), [open]);
            && Admissible(c, NewTracker(0.0), open.e.r, open.e.g) && TokensWithin(c, t) && t.stop.None?
            && !TokensWithin(c, Next(c, t, close)) && Next(c, t, close).stop == Some("INPUT_TOKEN_LIMIT_EXCEEDED")
  {
    hide UsageCost, WorstCaseCost, Run;
    c := Config(None, Some(1), None, None, None, None, None, None, None, 0.0, None, 0.0);
    call := Call(KIMI_K26, 1, 1, Some(Role(1, 8)));
    var open := Step(Open(RequestOf(call), OPEN_GATE), true);
    var t := AfterAdmission(c, NewTracker(0.0), RequestOf(call));
    assert t.open == map[1 := HoldOf(call, 1)] && t.reserved.input == 1 && t.spent.input == 0 && t.stop.None?;
    assert Next(c, NewTracker(0.0), open) == t;
    RunOfOne(c, NewTracker(0.0), open);
    EightBytesCharged(c, t, call, lost);
  }

  /** So a run does get there: its one role call times out, charging it latches
      the stop, the stop refuses the next call whatever that is, and the permit of
      the request that may still be running goes back. */
  lemma ASharedStopFreesARunningRequest() returns (c: Config, call: Call)
    ensures var open := Step(Open(RequestOf(call), OPEN_GATE), true);
            var t := Run(c, NewTracker(0.0), [open]);
            var o, a := Failed(READ_TIMEOUT), Answers(true, true, true, STOPPED, true);
            var s := SettlementOf(call, 1, 1, o);
            && Readable(call) && Admissible(c, NewTracker(0.0), open.e.r, open.e.g)
            && (forall r, g :: !Admissible(c, AfterClose(c, t, s, o, a), r, g))
            && !ProviderVerdicts.Classify(READ_TIMEOUT).proven && KnownOver(Escapes(c, t, s, o, a))
  {
    hide SettlementOf, Run, Overage, Charged, Releases, Room, NewTracker, ProviderVerdicts.Classify;
    ServerErrorIsProven();
    c, call := ByteBoundOvershootsTheTokenCeiling(READ_TIMEOUT);
    var t := Run(c, NewTracker(0.0), [Step(Open(RequestOf(call), OPEN_GATE), true)]);
    SharedStopProvesTooMuch(c, t, call, 1, 1, Answers(true, true, true, STOPPED, true));
  }

  lemma RunOfOne(c: Config, t: Tracker, step: Step)
    ensures Run(c, t, [step]) == Next(c, t, step)
  {
    hide Next;
    assert [step][1..] == [];
  }

  lemma EightBytesCharged(c: Config, t: Tracker, call: Call, lost: ProviderVerdicts.Failure)
    requires c.maxInput == Some(1) && c.maxOutput.None? && c.maxTotal.None? && c.maxCost.None?
    requires call.role.Some? && call.role.value.inputBound == 8 && !ProviderVerdicts.Classify(lost).proven
    requires 1 in t.open && t.open[1].input == 1 && t.reserved.input == 1 && t.spent.input == 0 && t.stop.None?
    ensures var close := Step(Settle(SettlementOf(call, 1, 1, Failed(lost))), true);
            !TokensWithin(c, Next(c, t, close)) && Next(c, t, close).stop == Some("INPUT_TOKEN_LIMIT_EXCEEDED")
  {
    hide UsageCost, WorstCaseCost;
  }

  // -- runs of role calls ---------------------------------------------------------------

  datatype Granted = Granted(call: Call, allowed: int)

  /** A run as its clients drive it. */
  datatype Deed =
    | Ask(call: Call, g: Gate)
    | Close(k: nat, o: Outcome)
    | Other(e: Event)

  datatype Ledgered = Ledgered(t: Tracker, calls: map<nat, Granted>)

  predicate RoleCall(call: Call) {
    Readable(call) && call.role.Some? && ModelProfiles.Priced(call.profile)
  }

  /** Role calls only; a call closes while it is open, so once; searches are free. */
  ghost predicate MayDo(s: Ledgered, d: Deed) {
    match d
    case Ask(call, _) => RoleCall(call) && Covers(call.profile, FiveMinutes)
    case Close(k, o) => k in s.t.open && (k in s.calls ==> Honest(s.calls[k].call, s.calls[k].allowed, o))
    case Other(e) => !e.Open? && !e.Settle? && (e.SettleSearches? ==> e.unit == 0.0)
  }

  function Do(c: Config, s: Ledgered, d: Deed, recorded: bool): Ledgered {
    match d
    case Ask(call, g) =>
      Ledgered(Next(c, s.t, Step(Open(RequestOf(call), g), recorded)),
               if Admissible(c, s.t, RequestOf(call), g) && Allowance(c, s.t, RequestOf(call)).Some?
               then s.calls[s.t.spent.modelCalls + 1 := Granted(call, Allowance(c, s.t, RequestOf(call)).value)]
               else s.calls)
    case Close(k, o) =>
      if k in s.calls && Settles(o) then
        s.(t := Next(c, s.t, Step(Settle(SettlementOf(s.calls[k].call, k, s.calls[k].allowed, o)), recorded)))
      else s
    case Other(e) => s.(t := Next(c, s.t, Step(e, recorded)))
  }

  ghost predicate BackedAt(s: Ledgered, k: nat) {
    k in s.t.open ==>
      && k in s.calls && s.calls[k].allowed >= 1
      && RoleCall(s.calls[k].call) && Covers(s.calls[k].call.profile, FiveMinutes)
      && s.t.open[k] == HoldOf(s.calls[k].call, s.calls[k].allowed)
  }

  /** Every open hold is the hold of a role call. */
  ghost predicate Backed(s: Ledgered) {
    forall k :: BackedAt(s, k)
  }

  ghost predicate ClientRun(c: Config, s: Ledgered, deeds: seq<(Deed, bool)>)
    decreases |deeds|
  {
    deeds != [] ==> MayDo(s, deeds[0].0) && ClientRun(c, Do(c, s, deeds[0].0, deeds[0].1), deeds[1..])
  }

  function Done(c: Config, s: Ledgered, deeds: seq<(Deed, bool)>): Ledgered
    decreases |deeds|
  {
    if deeds == [] then s else Done(c, Do(c, s, deeds[0].0, deeds[0].1), deeds[1..])
  }

  lemma AskIsBacked(c: Config, s: Ledgered, call: Call, g: Gate, recorded: bool)
    requires Backed(s) && MayDo(s, Ask(call, g)) && Balanced(s.t)
    ensures Backed(Do(c, s, Ask(call, g), recorded))
    ensures Respects(DollarCeiling, s.t, Step(Open(RequestOf(call), g), recorded))
  {
    hide Room, RemainingOutput, WorstCase, Covers, SumHolds, SumSearches;
    var s' := Do(c, s, Ask(call, g), recorded);
    if Admissible(c, s.t, RequestOf(call), g) {
      AllowedIsPositive(c, s.t, call, g.now);
    }
    forall k ensures BackedAt(s', k) {
      assert BackedAt(s, k);
    }
  }

  lemma AllowedIsPositive(c: Config, t: Tracker, call: Call, now: real)
    requires Readable(call) && Room(c, t, RequestOf(call), now)
    ensures Allowance(c, t, RequestOf(call)).Some? && Allowance(c, t, RequestOf(call)).value >= 1
  {
    hide ContractAdmits, CountsHaveRoom;
  }

  lemma CloseIsCovered(c: Config, s: Ledgered, k: nat, o: Outcome, recorded: bool)
    requires Backed(s) && MayDo(s, Close(k, o))
    ensures Backed(Do(c, s, Close(k, o), recorded)) && k in s.calls
    ensures Respects(DollarCeiling, s.t,
        Step(Settle(SettlementOf(s.calls[k].call, k, s.calls[k].allowed, o)), recorded))
  {
    hide UsageCost, WorstCaseCost, Covers, Overage, Charged, Honest, RoleCall;
    assert BackedAt(s, k);
    var a := s.calls[k];
    assert Charged(SettlementOf(a.call, k, a.allowed, o)) <= HoldOf(a.call, a.allowed).cost by {
      assert Readable(a.call) && a.call.role.Some? && ModelProfiles.Priced(a.call.profile) by { RoleCallIs(a.call); }
      ChargeIsCoveredByTheHold(a.call, k, a.allowed, o);
    }
    var s' := Do(c, s, Close(k, o), recorded);
    forall j ensures BackedAt(s', j) {
      assert BackedAt(s, j);
    }
  }

  lemma RoleCallIs(call: Call)
    requires RoleCall(call)
    ensures Readable(call) && call.role.Some? && ModelProfiles.Priced(call.profile)
  {
  }

  lemma OtherIsBacked(c: Config, s: Ledgered, e: Event, recorded: bool)
    requires Backed(s) && MayDo(s, Other(e))
    ensures Backed(Do(c, s, Other(e), recorded)) && Respects(DollarCeiling, s.t, Step(e, recorded))
  {
    hide SearchFits, PriceRefuses, SearchOverage, SearchesCharged, HoldOf, Covers, RoleCall;
    var s' := Do(c, s, Other(e), recorded);
    forall j ensures BackedAt(s', j) {
      assert BackedAt(s, j);
    }
  }

  /**
    In a run of role calls, recorded dollars plus reserved dollars never exceed
    the run's ceiling, in any interleaving of calls, whatever the answers.
   */
  lemma {:induction false} RoleCallsStayWithinTheDollarCeiling(c: Config, s: Ledgered, deeds: seq<(Deed, bool)>)
    requires Kept(DollarCeiling, c, s.t) && Backed(s) && ClientRun(c, s, deeds)
    ensures Kept(DollarCeiling, c, Done(c, s, deeds).t)
    decreases |deeds|
  {
    hide Kept, Backed, Next, Respects, Honest, SettlementOf, Admissible, Allowance;
    if deeds != [] {
      var (d, recorded) := deeds[0];
      assert Balanced(s.t) by { KeptIsBalanced(c, s.t); }
      match d {
        case Ask(call, g) =>
          AskIsBacked(c, s, call, g, recorded);
          StepKeeps(DollarCeiling, c, s.t, Step(Open(RequestOf(call), g), recorded));
        case Close(k, o) =>
          CloseIsCovered(c, s, k, o, recorded);
          StepKeeps(DollarCeiling, c, s.t,
              Step(Settle(SettlementOf(s.calls[k].call, k, s.calls[k].allowed, o)), recorded));
        case Other(e) =>
          OtherIsBacked(c, s, e, recorded);
          StepKeeps(DollarCeiling, c, s.t, Step(e, recorded));
      }
      RoleCallsStayWithinTheDollarCeiling(c, Do(c, s, d, recorded), deeds[1..]);
    }
  }

  lemma KeptIsBalanced(c: Config, t: Tracker)
    requires Kept(DollarCeiling, c, t)
    ensures Balanced(t)
  {
  }
}
