/**
  What the budget gate guarantees over whole runs of one tracker: any
  interleaving of admissions, settlements, searches, steps and retries.
 */
module RunAccounting {
  import opened Common
  import opened BudgetTracker
  import Ledger = UsageLedger
  import ModelProfiles

  /** One atomic operation on a tracker. */
  datatype Event =
    | Open(r: Request, g: Gate)
    | Settle(s: Settlement)
    | SettlementLost      // the daily settlement raised
    | AgentStep
    | Retry
    | ReserveSearches(count: nat)
    | SettleSearches(seq': nat, actual: Option<int>, unit: real, preExecution: bool)

  /** An operation, and whether the recorder accepted the ledger it wrote. */
  datatype Step = Step(e: Event, recorded: bool)

  function Next(c: Config, t: Tracker, step: Step): Tracker {
    match step.e
    case Open(r, g) =>
      if Admissible(c, t, r, g) then AfterAdmission(c, t, r)
      else if RefusalCode(c, t, r, g).Some? then Latch(t, RefusalCode(c, t, r, g).value)
      else t
    case Settle(s) =>
      if step.recorded then Checked(c, AfterSettlement(t, s)) else AfterSettlement(t, s)
    case SettlementLost => Latch(t, "BUDGET_SETTLEMENT_FAILED")
    case AgentStep =>
      var counted := t.(spent := t.spent.(steps := t.spent.steps + 1));
      if step.recorded && c.maxSteps.Some? && counted.spent.steps > c.maxSteps.value
      then Latch(counted, "AGENT_STEP_LIMIT_REACHED") else counted
    case Retry =>
      var counted := t.(spent := t.spent.(retries := t.spent.retries + 1));
      if step.recorded && c.maxRetries.Some? && counted.spent.retries > c.maxRetries.value
      then Latch(counted, "RETRY_LIMIT_REACHED") else counted
    case ReserveSearches(count) =>
      if count == 0 then t
      else if SearchFits(c, t, count) then AfterSearchReserved(t, count)
      else Latch(t, if t.stop.Some? then t.stop.value else "SEARCH_LIMIT_REACHED")
    case SettleSearches(seq', actual, unit, preExecution) =>
      AfterSearchSettled(c, t, seq', actual, unit, preExecution, step.recorded)
  }

  function Run(c: Config, t: Tracker, steps: seq<Step>): Tracker
    decreases |steps|
  {
    if steps == [] then t else Run(c, Next(c, t, steps[0]), steps[1..])
  }

  // -- sums over what is open --------------------------------------------------------

  ghost function Pick<V>(open: map<nat, V>): (k: nat)
    requires open != map[]
    ensures k in open
  {
    var k :| k in open; k
  }

  ghost function SumHolds(open: map<nat, Hold>): Reserved
    decreases |open|
  {
    if open == map[] then Reserved(0, 0, 0.0, 0)
    else var k := Pick(open); Plus(SumHolds(open - {k}), open[k])
  }

  ghost function SumSearches(open: map<nat, nat>): nat
    decreases |open|
  {
    if open == map[] then 0
    else var k := Pick(open); SumSearches(open - {k}) + open[k]
  }

  lemma {:induction false} SumHoldsWithout(open: map<nat, Hold>, k: nat)
    requires k in open
    ensures SumHolds(open) == Plus(SumHolds(open - {k}), open[k])
    decreases |open|
  {
    var first := Pick(open);
    if first != k {
      SumHoldsWithout(open - {first}, k);
      SumHoldsWithout(open - {k}, first);
      assert open - {first} - {k} == open - {k} - {first};
    }
  }

  lemma {:induction false} SumSearchesWithout(open: map<nat, nat>, k: nat)
    requires k in open
    ensures SumSearches(open) == SumSearches(open - {k}) + open[k]
    decreases |open|
  {
    var first := Pick(open);
    if first != k {
      SumSearchesWithout(open - {first}, k);
      SumSearchesWithout(open - {k}, first);
      assert open - {first} - {k} == open - {k} - {first};
    }
  }

  lemma {:induction false} SumHoldsNonNegative(open: map<nat, Hold>)
    requires forall k :: k in open ==> open[k].cost >= 0.0 && open[k].output >= 0
    ensures SumHolds(open).input >= 0 && SumHolds(open).output >= 0 && SumHolds(open).cost >= 0.0
    ensures SumHolds(open).searches == 0
    decreases |open|
  {
    if open != map[] {
      SumHoldsNonNegative(open - {Pick(open)});
    }
  }

  // -- the promises ---------------------------------------------------------------------

  /** What is reserved is exactly what the open calls and searches hold. */
  ghost predicate Balanced(t: Tracker) {
    && t.reserved == SumHolds(t.open).(searches := SumSearches(t.openSearches))
    && (forall k :: k in t.open ==> k <= t.spent.modelCalls && t.open[k].cost >= 0.0 && t.open[k].output >= 0)
    && (forall k :: k in t.openSearches ==> k <= t.searchSeq)
  }

  predicate TokensWithin(c: Config, t: Tracker) {
    var input, output := t.spent.input + t.reserved.input, t.spent.output + t.reserved.output;
    && (c.maxInput.Some? ==> input <= c.maxInput.value)
    && (c.maxOutput.Some? ==> output <= c.maxOutput.value)
    && (c.maxTotal.Some? ==> input + output <= c.maxTotal.value)
  }

  predicate DollarsWithin(c: Config, t: Tracker) {
    c.maxCost.Some? ==> t.spent.actual + t.reserved.cost <= c.maxCost.value
  }

  predicate SearchesWithin(c: Config, t: Tracker) {
    c.maxSearches.Some? ==> t.spent.searches + t.reserved.searches <= c.maxSearches.value
  }

  predicate CallsWithin(c: Config, t: Tracker) {
    c.maxCalls.Some? ==> t.spent.modelCalls <= c.maxCalls.value
  }

  /** Usage is above one of the limits that stop a run. */
  predicate OverLimit(c: Config, t: Tracker) {
    || Overage(c, t).Some?
    || (c.maxSteps.Some? && t.spent.steps > c.maxSteps.value)
    || (c.maxRetries.Some? && t.spent.retries > c.maxRetries.value)
  }

  datatype Promise =
    | Conservation    // reservations equal the sums over open calls and searches
    | TokenCeilings   // spent plus reserved stays within every token ceiling
    | DollarCeiling   // spent plus reserved dollars stay within the ceiling
    | SearchCeiling   // spent plus held searches stay within the ceiling, unless stopped
    | ExactSearches   // ... with no exception
    | CallCeiling     // admitted calls stay within the ceiling
    | StopLatch       // usage over a limit has stopped the run

  ghost predicate Kept(p: Promise, c: Config, t: Tracker) {
    match p
    case Conservation => Balanced(t)
    case TokenCeilings => Balanced(t) && TokensWithin(c, t)
    case DollarCeiling => Balanced(t) && DollarsWithin(c, t)
    case SearchCeiling => Balanced(t) && (SearchesWithin(c, t) || t.stop.Some?)
    case ExactSearches => Balanced(t) && SearchesWithin(c, t)
    case CallCeiling => CallsWithin(c, t)
    case StopLatch => OverLimit(c, t) ==> t.stop.Some?
  }

  /** A call that can be priced, with a positive output cap if it states one. */
  predicate WellPriced(r: Request) {
    && (r.requestedMax.Some? ==> r.requestedMax.value > 0)
    && (r.contract.Some? && r.contract.value.profile.Some? ==> ModelProfiles.Priced(r.contract.value.profile.value))
  }

  /** Each call settles with the sequence it was admitted under, once. */
  predicate OwnSequence(t: Tracker, step: Step) {
    && (step.e.Open? ==> WellPriced(step.e.r))
    && (step.e.Settle? ==> step.e.s.seq' in t.open)
  }

  predicate TokensCovered(t: Tracker, s: Settlement)
    requires s.seq' in t.open
  {
    s.input <= t.open[s.seq'].input && s.output <= t.open[s.seq'].output
  }

  predicate CostCovered(t: Tracker, s: Settlement)
    requires s.seq' in t.open
  {
    Charged(s) <= t.open[s.seq'].cost
  }

  /** What the environment owes for each promise, one step at a time. */
  predicate Respects(p: Promise, t: Tracker, step: Step) {
    match p
    case Conservation => OwnSequence(t, step)
    case SearchCeiling => OwnSequence(t, step) && (step.e.SettleSearches? ==> step.recorded)
    case TokenCeilings => OwnSequence(t, step) && (step.e.Settle? ==> TokensCovered(t, step.e.s))
    case DollarCeiling =>
      && OwnSequence(t, step)
      && (step.e.Settle? ==> CostCovered(t, step.e.s))
      && (step.e.SettleSearches? ==> step.e.unit == 0.0)
    case ExactSearches =>
      && OwnSequence(t, step)
      && (step.e.SettleSearches? && step.e.seq' in t.openSearches ==>
            SearchesCharged(t, step.e.seq', step.e.actual) <= t.openSearches[step.e.seq'])
    case CallCeiling => true
    case StopLatch => step.recorded
  }

  predicate RunRespects(p: Promise, c: Config, t: Tracker, steps: seq<Step>)
    decreases |steps|
  {
    steps != [] ==> Respects(p, t, steps[0]) && RunRespects(p, c, Next(c, t, steps[0]), steps[1..])
  }

  // -- one step -----------------------------------------------------------------------

  lemma WorstCaseIsNonNegative(r: Request, allowed: Option<int>)
    requires WellPriced(r)
    ensures WorstCase(r, allowed) >= 0.0
  {
    if r.contract.Some? && r.contract.value.profile.Some? && allowed.Some? {
      var p := r.contract.value.profile.value;
      hide ModelProfiles.Times, ModelProfiles.Money;
      ModelProfiles.MoreTokens(0, MaxInt(0, r.contract.value.inputBound), ModelProfiles.ReserveInputPrice(p));
      ModelProfiles.MoreTokens(0, MaxInt(0, allowed.value), p.output);
      ModelProfiles.NoTokens(p.output);
      ModelProfiles.NoTokens(ModelProfiles.ReserveInputPrice(p));
    }
  }

  lemma AdmittedAllowance(c: Config, t: Tracker, r: Request)
    requires WellPriced(r) && TokensHaveRoom(c, t, r)
    ensures Allowance(c, t, r).Some? ==> Allowance(c, t, r).value > 0
  {
  }

  /** A new hold joins the sum; everything else is as it was. */
  lemma AdmissionKeepsBalance(c: Config, t: Tracker, r: Request)
    requires Balanced(t) && WellPriced(r) && TokensHaveRoom(c, t, r)
    ensures Balanced(AfterAdmission(c, t, r))
  {
    hide WorstCase, Allowance, TokensHaveRoom, WellPriced, SumHolds;
    var t' := AfterAdmission(c, t, r);
    var k := t.spent.modelCalls + 1;
    WorstCaseIsNonNegative(r, Allowance(c, t, r));
    AdmittedAllowance(c, t, r);
    assert t'.open - {k} == t.open;
    SumHoldsWithout(t'.open, k);
  }

  lemma SettlementReleasesItsHold(t: Tracker, s: Settlement)
    requires Balanced(t) && s.seq' in t.open
    ensures Balanced(AfterSettlement(t, s))
    ensures Plus(AfterSettlement(t, s).reserved, t.open[s.seq']) == t.reserved
  {
    hide SumHolds, Charged;
    var rest := t.open - {s.seq'};
    SumHoldsWithout(t.open, s.seq');
    SumHoldsNonNegative(rest);
  }

  lemma SearchKeepsBalance(t: Tracker, wanted: nat)
    requires Balanced(t)
    ensures Balanced(AfterSearchReserved(t, wanted))
  {
    hide SumHolds, SumSearches;
    var t' := AfterSearchReserved(t, wanted);
    assert t'.openSearches - {t.searchSeq + 1} == t.openSearches;
    SumSearchesWithout(t'.openSearches, t.searchSeq + 1);
  }

  lemma SearchReleasesItsHold(t: Tracker, k: nat)
    requires Balanced(t) && k in t.openSearches
    ensures Balanced(SearchReleased(t, k))
    ensures SearchReleased(t, k).reserved.searches + t.openSearches[k] == t.reserved.searches
  {
    hide SumHolds, SumSearches;
    SumSearchesWithout(t.openSearches, k);
  }

  lemma SearchSettlementKeepsBalance(c: Config, t: Tracker, step: Step)
    requires Balanced(t) && step.e.SettleSearches?
    ensures Balanced(Next(c, t, step))
  {
    hide SumHolds, SumSearches, SearchOverage;
    if step.e.seq' in t.openSearches {
      SearchReleasesItsHold(t, step.e.seq');
    }
  }

  lemma StepKeepsBalance(c: Config, t: Tracker, step: Step)
    requires Balanced(t) && OwnSequence(t, step)
    ensures Balanced(Next(c, t, step))
  {
    hide SumHolds, SumSearches, AfterAdmission, AfterSettlement, AfterSearchReserved, AfterSearchSettled, Overage,
        WellPriced;
    match step.e
    case Open(r, g) =>
      if Admissible(c, t, r, g) {
        AdmissionKeepsBalance(c, t, r);
      }
    case Settle(s) =>
      SettlementReleasesItsHold(t, s);
    case ReserveSearches(count) =>
      SearchKeepsBalance(t, count);
    case SettleSearches(_, _, _, _) =>
      SearchSettlementKeepsBalance(c, t, step);
    case _ =>
  }

  lemma AdmissionKeepsCeilings(c: Config, t: Tracker, r: Request, now: real)
    requires Room(c, t, r, now) && WellPriced(r)
    ensures TokensWithin(c, t) ==> TokensWithin(c, AfterAdmission(c, t, r))
    ensures DollarsWithin(c, t) ==> DollarsWithin(c, AfterAdmission(c, t, r))
    ensures CallsWithin(c, AfterAdmission(c, t, r))
  {
    hide ModelProfiles.WorstCaseCost, ModelProfiles.Priced;
  }

  lemma StepKeepsTokens(c: Config, t: Tracker, step: Step)
    requires Balanced(t) && TokensWithin(c, t) && Respects(TokenCeilings, t, step)
    ensures TokensWithin(c, Next(c, t, step))
  {
    hide SumHolds, SumSearches, AfterAdmission, Room, WellPriced, Overage, SearchOverage, PriceRefuses, SearchFits;
    match step.e
    case Open(r, g) =>
      if Admissible(c, t, r, g) {
        AdmissionKeepsCeilings(c, t, r, g.now);
      }
    case Settle(s) =>
      SettlementReleasesItsHold(t, s);
    case _ =>
  }

  lemma StepKeepsDollars(c: Config, t: Tracker, step: Step)
    requires Balanced(t) && DollarsWithin(c, t) && Respects(DollarCeiling, t, step)
    ensures DollarsWithin(c, Next(c, t, step))
  {
    hide SumHolds, SumSearches, AfterAdmission, Room, WellPriced, Overage, SearchOverage, SearchFits;
    match step.e
    case Open(r, g) =>
      if Admissible(c, t, r, g) {
        AdmissionKeepsCeilings(c, t, r, g.now);
      }
    case Settle(s) =>
      SettlementReleasesItsHold(t, s);
    case _ =>
  }

  lemma StepKeepsSearches(c: Config, t: Tracker, step: Step)
    requires Balanced(t) && OwnSequence(t, step)
    ensures SearchesWithin(c, t) && Respects(ExactSearches, t, step) ==> SearchesWithin(c, Next(c, t, step))
    ensures (SearchesWithin(c, t) || t.stop.Some?) && (step.e.SettleSearches? ==> step.recorded) ==>
              SearchesWithin(c, Next(c, t, step)) || Next(c, t, step).stop.Some?
  {
    hide SumHolds, SumSearches, Room, WellPriced, Overage, Allowance, WorstCase, Charged;
    if step.e.SettleSearches? && step.e.seq' in t.openSearches {
      SearchReleasesItsHold(t, step.e.seq');
    }
  }

  lemma StepKeepsCalls(c: Config, t: Tracker, step: Step)
    requires CallsWithin(c, t)
    ensures CallsWithin(c, Next(c, t, step))
  {
    hide Allowance, WorstCase, TokensHaveRoom, ContractAdmits, Overage, SearchOverage, PriceRefuses, SearchFits;
  }

  lemma StepKeepsStopLatch(c: Config, t: Tracker, step: Step)
    requires Kept(StopLatch, c, t) && step.recorded
    ensures Kept(StopLatch, c, Next(c, t, step))
  {
    hide Admissible, Allowance, WorstCase, Charged, Releases, SearchFits;
  }

  lemma StepKeeps(p: Promise, c: Config, t: Tracker, step: Step)
    requires Kept(p, c, t) && Respects(p, t, step)
    ensures Kept(p, c, Next(c, t, step))
  {
    hide Balanced, Next, TokensWithin, DollarsWithin, SearchesWithin, CallsWithin, OverLimit, OwnSequence;
    match p
    case Conservation => StepKeepsBalance(c, t, step);
    case TokenCeilings =>
      StepKeepsBalance(c, t, step);
      StepKeepsTokens(c, t, step);
    case DollarCeiling =>
      StepKeepsBalance(c, t, step);
      StepKeepsDollars(c, t, step);
    case SearchCeiling =>
      StepKeepsBalance(c, t, step);
      StepKeepsSearches(c, t, step);
    case ExactSearches =>
      StepKeepsBalance(c, t, step);
      StepKeepsSearches(c, t, step);
    case CallCeiling => StepKeepsCalls(c, t, step);
    case StopLatch => StepKeepsStopLatch(c, t, step);
  }

  // -- whole runs ---------------------------------------------------------------------

  /**
    Every promise, over every run: whatever the interleaving of calls,
    settlements and searches, a promise kept at the start is kept at the end as
    long as each step meets its own obligation.
   */
  lemma {:induction false} RunKeeps(p: Promise, c: Config, t: Tracker, steps: seq<Step>)
    requires Kept(p, c, t) && RunRespects(p, c, t, steps)
    ensures Kept(p, c, Run(c, t, steps))
    decreases |steps|
  {
    hide Kept, Respects, Next;
    if steps != [] {
      StepKeeps(p, c, t, steps[0]);
      RunKeeps(p, c, Next(c, t, steps[0]), steps[1..]);
    }
  }

  predicate NonNegativeCeilings(c: Config) {
    c.maxCost.Some? ==> c.maxCost.value >= 0.0
  }

  /** A fresh tracker keeps every promise. */
  lemma FreshKeeps(p: Promise, c: Config, now: real)
    requires NonNegativeCeilings(c)
    ensures Kept(p, c, NewTracker(now))
  {
  }

  /** A resumed one does wherever what it inherits is itself within the ceiling. */
  lemma RestoredKeeps(c: Config, s: Ledger.Snapshot, now: real)
    ensures var t := Restored(NewTracker(now), s, now);
            && Balanced(t) && Proper(t)
            && (TokensWithin(c, t) <==>
                  && (c.maxInput.Some? ==> t.spent.input <= c.maxInput.value)
                  && (c.maxOutput.Some? ==> t.spent.output <= c.maxOutput.value)
                  && (c.maxTotal.Some? ==> t.spent.input + t.spent.output <= c.maxTotal.value))
            && (DollarsWithin(c, t) <==> (c.maxCost.Some? ==> t.spent.actual <= c.maxCost.value))
  {
    hide SpentIn, AmountOf;
  }

  // -- where the obligations come from -------------------------------------------------

  /**
    A settlement with a sequence that is not open falls back to its caller's own
    numbers. It keeps the books exactly when those numbers release nothing that
    is reserved.
   */
  lemma BalanceSurvivesSettlementIff(t: Tracker, s: Settlement)
    requires Balanced(t)
    ensures Balanced(AfterSettlement(t, s)) <==>
              || s.seq' in t.open
              || (&& (s.fallback.input == 0 || t.reserved.input == 0)
                  && (s.fallback.output <= 0 || t.reserved.output == 0))
  {
    hide SumHolds, SumSearches, Charged;
    if s.seq' in t.open {
      SettlementReleasesItsHold(t, s);
    } else {
      SumHoldsNonNegative(t.open);
      assert t.open - {s.seq'} == t.open;
    }
  }

  /** A negative output cap is recorded as a negative hold, which no reservation
      matches: admission keeps the books exactly when the cap is not negative. */
  lemma BalanceSurvivesAdmissionIff(c: Config, t: Tracker, r: Request)
    requires Balanced(t) && TokensHaveRoom(c, t, r)
    requires r.contract.Some? && r.contract.value.profile.Some? ==> ModelProfiles.Priced(r.contract.value.profile.value)
    ensures Balanced(AfterAdmission(c, t, r)) <==> r.requestedMax.None? || r.requestedMax.value >= 0
  {
    var t' := AfterAdmission(c, t, r);
    var k := t.spent.modelCalls + 1;
    if r.requestedMax.None? || r.requestedMax.value >= 0 {
      hide SumHolds, TokensHaveRoom, WorstCase;
      NonNegativeAllowance(c, t, r);
      WorstCaseIsNonNegative(r.(requestedMax := None), Allowance(c, t, r));
      assert WorstCase(r, Allowance(c, t, r)) ==
          WorstCase(r.(requestedMax := None), Allowance(c, t, r)) by { SamePrice(r, Allowance(c, t, r)); }
      assert t'.open - {k} == t.open;
      SumHoldsWithout(t'.open, k);
    } else {
      hide SumHolds, TokensHaveRoom, WorstCase, RemainingOutput;
      assert t'.open[k].output < 0;
    }
  }

  lemma SamePrice(r: Request, allowed: Option<int>)
    ensures WorstCase(r, allowed) == WorstCase(r.(requestedMax := None), allowed)
  {
  }

  lemma NonNegativeAllowance(c: Config, t: Tracker, r: Request)
    requires TokensHaveRoom(c, t, r) && (r.requestedMax.None? || r.requestedMax.value >= 0)
    ensures Allowance(c, t, r).Some? ==> Allowance(c, t, r).value >= 0
  {
  }

  /**
    A mediated search is checked against what was spent, not against what is
    reserved. Settling one keeps the dollar ceiling exactly when it is refused on
    what was spent alone, or also fits beside every open call.
   */
  lemma PricedSearchKeepsTheCeilingIff(c: Config, t: Tracker, k: nat, unit: real)
    requires DollarsWithin(c, t) && k in t.openSearches
    ensures DollarsWithin(c, AfterSearchSettled(c, t, k, Some(1), unit, true, true)) <==>
              (c.maxCost.Some? ==>
                 || t.spent.actual + unit > c.maxCost.value
                 || t.spent.actual + t.reserved.cost + unit <= c.maxCost.value)
  {
  }

  /** Dollars of output, one a token, and nothing else. */
  const DOLLAR_A_TOKEN := ModelProfiles.ModelProfile(0.0, 0.0, None, None, 1000000.0)

  /** Ten dollars for a run. */
  const TEN_DOLLARS := Config(None, None, None, None, None, Some(10.0), None, None, None, 0.0, None, 0.0)

  /** A role call that may cost every one of them. */
  const TEN_TOKENS := Request(1, Some(10), Some(Contract(1, Some(DOLLAR_A_TOKEN), 1)))

  lemma TenTokensCostTenDollars()
    ensures ModelProfiles.Priced(DOLLAR_A_TOKEN) && WorstCase(TEN_TOKENS, Some(10)) == 10.0
  {
    assert ModelProfiles.BilledAtWorst(DOLLAR_A_TOKEN, 1, 10) == 10000000.0;
  }

  /** An admitted call that holds ten dollars, a search at its list price, and
      the call charged what it held. */
  const SEARCH_BESIDE_A_CALL: seq<Step> := [
    Step(Open(TEN_TOKENS, OPEN_GATE), true),
    Step(ReserveSearches(1), true),
    Step(SettleSearches(1, Some(1), 0.003, true), true),
    Step(Settle(Settlement(1, Hold(1, 10, 0.0), 1, 10, Some(10.0), true)), true)]

  lemma RunOfFour(c: Config, t: Tracker, s: seq<Step>)
    requires |s| == 4
    ensures Run(c, t, s) == Next(c, Next(c, Next(c, Next(c, t, s[0]), s[1]), s[2]), s[3])
  {
    hide Next;
    assert s[1..][1..] == s[2..] && s[2..][1..] == s[3..] && s[3..][1..] == [];
    var t1 := Next(c, t, s[0]);
    var t2 := Next(c, t1, s[1]);
    var t3 := Next(c, t2, s[2]);
    assert Run(c, t3, s[3..]) == Next(c, t3, s[3]);
    assert Run(c, t2, s[2..]) == Run(c, t3, s[3..]);
    assert Run(c, t1, s[1..]) == Run(c, t2, s[2..]);
  }

  /**
    From a fresh tracker, with every call charged no more than it held: the
    search is admitted beside a call that holds the whole ceiling, and the run
    ends having recorded more than it may.
   */
  lemma PricedSearchBreaksTheCeiling()
    ensures var t := Run(TEN_DOLLARS, NewTracker(0.0), SEARCH_BESIDE_A_CALL);
            && t.spent.actual == 10.003 && t.reserved.cost == 0.0 && !DollarsWithin(TEN_DOLLARS, t)
            && t.stop == Some("COST_LIMIT_EXCEEDED")
    ensures RunRespects(TokenCeilings, TEN_DOLLARS, NewTracker(0.0), SEARCH_BESIDE_A_CALL)
  {
    hide WorstCase, ModelProfiles.Priced, Run, RunRespects;
    TenTokensCostTenDollars();
    var c, s := TEN_DOLLARS, SEARCH_BESIDE_A_CALL;
    var t0 := NewTracker(0.0);
    var t1 := Next(c, t0, s[0]);
    AdmittedForTenDollars(t1);
    var t2 := Next(c, t1, s[1]);
    var t3 := Next(c, t2, s[2]);
    SearchedForTheRest(t1, t2, t3);
    RunOfFour(c, t0, s);
    RespectsFour(TokenCeilings, c, t0, s);
  }

  lemma AdmittedForTenDollars(t: Tracker)
    requires t == Next(TEN_DOLLARS, NewTracker(0.0), SEARCH_BESIDE_A_CALL[0])
    ensures t.open == map[1 := Hold(1, 10, 10.0)] && t.reserved == Reserved(1, 10, 10.0, 0)
    ensures t.spent.actual == 0.0 && t.spent.searches == 0 && t.openSearches == map[] && t.searchSeq == 0
        && t.stop.None?
    ensures OwnSequence(NewTracker(0.0), SEARCH_BESIDE_A_CALL[0])
  {
    hide WorstCase;
    TenTokensCostTenDollars();
  }

  lemma SearchedForTheRest(t1: Tracker, t2: Tracker, t3: Tracker)
    requires t1.open == map[1 := Hold(1, 10, 10.0)] && t1.reserved == Reserved(1, 10, 10.0, 0)
    requires t1.spent.actual == 0.0 && t1.openSearches == map[] && t1.searchSeq == 0 && t1.stop.None?
    requires t2 == Next(TEN_DOLLARS, t1, SEARCH_BESIDE_A_CALL[1])
        && t3 == Next(TEN_DOLLARS, t2, SEARCH_BESIDE_A_CALL[2])
    ensures t3.open == t1.open && t3.reserved == t1.reserved && t3.spent.actual == 0.003 && t3.stop.None?
  {
    assert t2.openSearches == map[1 := 1] && t2.reserved.searches == 1 && t2.stop.None?;
  }

  lemma RespectsFour(p: Promise, c: Config, t: Tracker, s: seq<Step>)
    requires |s| == 4 && Respects(p, t, s[0]) && Respects(p, Next(c, t, s[0]), s[1])
    requires Respects(p, Next(c, Next(c, t, s[0]), s[1]), s[2])
    requires Respects(p, Next(c, Next(c, Next(c, t, s[0]), s[1]), s[2]), s[3])
    ensures RunRespects(p, c, t, s)
  {
    hide Next, Respects;
    assert s[1..][1..] == s[2..] && s[2..][1..] == s[3..] && s[3..][1..] == [];
    var t3 := Next(c, Next(c, Next(c, t, s[0]), s[1]), s[2]);
    assert RunRespects(p, c, t3, s[3..]);
    assert RunRespects(p, c, Next(c, Next(c, t, s[0]), s[1]), s[2..]);
  }

  // -- the stop ----------------------------------------------------------------------

  /** Usage above a limit admits no further call, latched or not: a resumed
      process, which starts unlatched, is refused all the same. */
  lemma OverLimitAdmitsNothing(c: Config, t: Tracker, r: Request, g: Gate)
    requires OverLimit(c, t) && t.reserved.input >= 0 && t.reserved.output >= 0
    ensures !Admissible(c, t, r, g)
  {
    hide ContractAdmits;
  }

  /** Nothing a stopped run does consumes or holds more. */
  ghost predicate Quieter(a: Tracker, b: Tracker) {
    && a.stop == b.stop && b.spent.modelCalls == a.spent.modelCalls && b.searchSeq == a.searchSeq
    && 0 <= b.reserved.input <= a.reserved.input && 0 <= b.reserved.output <= a.reserved.output
    && 0.0 <= b.reserved.cost <= a.reserved.cost && 0 <= b.reserved.searches <= a.reserved.searches
    && b.open.Keys <= a.open.Keys && b.openSearches.Keys <= a.openSearches.Keys
  }

  lemma StepIsQuieter(c: Config, t: Tracker, step: Step)
    requires t.stop.Some? && Quieter(t, t)
    requires step.e.Settle? && step.e.s.seq' in t.open ==>
        t.open[step.e.s.seq'].cost >= 0.0 && t.open[step.e.s.seq'].output >= 0
    ensures Quieter(t, Next(c, t, step))
  {
    hide Room, Overage, Charged, SearchOverage, PriceRefuses, AfterAdmission;
  }

  /** Nothing reserved is below zero, nor anything an open call holds. */
  ghost predicate Proper(t: Tracker) {
    && t.reserved.input >= 0 && t.reserved.output >= 0 && t.reserved.cost >= 0.0 && t.reserved.searches >= 0
    && forall k :: k in t.open ==> t.open[k].cost >= 0.0 && t.open[k].output >= 0
  }

  lemma StepKeepsProper(c: Config, t: Tracker, step: Step)
    requires Proper(t) && (step.e.Open? ==> WellPriced(step.e.r))
    ensures Proper(Next(c, t, step))
  {
    hide Room, Overage, Charged, SearchOverage, PriceRefuses, WorstCase, Allowance, WellPriced;
    if step.e.Open? && Admissible(c, t, step.e.r, step.e.g) {
      WorstCaseIsNonNegative(step.e.r, Allowance(c, t, step.e.r));
      HeldOutputIsNonNegative(c, t, step.e.r, step.e.g);
    }
  }

  lemma HeldOutputIsNonNegative(c: Config, t: Tracker, r: Request, g: Gate)
    requires WellPriced(r) && Admissible(c, t, r, g)
    ensures Allowance(c, t, r).Some? ==> Allowance(c, t, r).value > 0
  {
    hide ContractAdmits, DailyAdmits;
    AdmittedAllowance(c, t, r);
  }

  /** However calls are settled - late, twice, under another's sequence or none -
      every run of calls that can be priced stays proper. */
  lemma {:induction false} RunsAreProper(c: Config, t: Tracker, steps: seq<Step>)
    requires Proper(t) && forall i :: 0 <= i < |steps| && steps[i].e.Open? ==> WellPriced(steps[i].e.r)
    ensures Proper(Run(c, t, steps))
    decreases |steps|
  {
    hide Proper, Next, WellPriced;
    if steps != [] {
      StepKeepsProper(c, t, steps[0]);
      RunsAreProper(c, Next(c, t, steps[0]), steps[1..]);
    }
  }

  lemma FreshIsProper(now: real)
    ensures Proper(NewTracker(now))
  {
  }

  /**
    The stop is final: from then on no call and no search is admitted, the first
    code stays, and no reservation grows, over any further run whatever - calls
    may settle late, twice, or under a sequence that is not theirs.
   */
  lemma {:induction false} StopIsFinal(c: Config, t: Tracker, steps: seq<Step>)
    requires t.stop.Some? && Proper(t)
    ensures Quieter(t, Run(c, t, steps))
    ensures forall r, g :: !Admissible(c, Run(c, t, steps), r, g)
    ensures forall wanted: nat :: !SearchFits(c, Run(c, t, steps), wanted)
    decreases |steps|
  {
    hide Next, Room;
    if steps != [] {
      var t' := Next(c, t, steps[0]);
      StepIsQuieter(c, t, steps[0]);
      StoppedStaysProper(c, t, steps[0]);
      StopIsFinal(c, t', steps[1..]);
    }
  }

  lemma StoppedStaysProper(c: Config, t: Tracker, step: Step)
    requires t.stop.Some? && Proper(t)
    ensures Proper(Next(c, t, step))
  {
    hide Room, Overage, Charged, SearchOverage, PriceRefuses, AfterAdmission;
  }

  /** So it is in every run there is: once a fresh tracker's run has stopped,
      whatever came before and whatever comes after. */
  lemma StoppedRunsStayStopped(c: Config, now: real, before: seq<Step>, after: seq<Step>)
    requires forall i :: 0 <= i < |before| && before[i].e.Open? ==> WellPriced(before[i].e.r)
    requires Run(c, NewTracker(now), before).stop.Some?
    ensures var t := Run(c, NewTracker(now), before);
            && Quieter(t, Run(c, t, after))
            && (forall r, g :: !Admissible(c, Run(c, t, after), r, g))
            && (forall wanted: nat :: !SearchFits(c, Run(c, t, after), wanted))
  {
    hide Run, Proper, NewTracker, WellPriced, Quieter, Admissible, SearchFits;
    FreshIsProper(now);
    RunsAreProper(c, NewTracker(now), before);
    StopIsFinal(c, Run(c, NewTracker(now), before), after);
  }

  /**
    From a fresh tracker whose recorder answers, usage above a token, cost, step
    or retry limit has stopped the run, so nothing more is ever admitted.
   */
  lemma OverLimitHasStopped(c: Config, now: real, steps: seq<Step>)
    requires NonNegativeCeilings(c) && RunRespects(StopLatch, c, NewTracker(now), steps)
    ensures OverLimit(c, Run(c, NewTracker(now), steps)) ==>
              && Run(c, NewTracker(now), steps).stop.Some?
              && forall r, g :: !Admissible(c, Run(c, NewTracker(now), steps), r, g)
  {
    hide OverLimit, Room, Run, NewTracker;
    FreshKeeps(StopLatch, c, now);
    RunKeeps(StopLatch, c, NewTracker(now), steps);
  }

  // -- searches settle once ------------------------------------------------------------

  lemma {:induction false} SettledSearchStaysSettled(c: Config, t: Tracker, k: nat, steps: seq<Step>)
    requires k <= t.searchSeq && k !in t.openSearches
    ensures k !in Run(c, t, steps).openSearches
    decreases |steps|
  {
    hide Next;
    if steps != [] {
      assert k <= Next(c, t, steps[0]).searchSeq && k !in Next(c, t, steps[0]).openSearches by {
        SequencesAreFresh(c, t, k, steps[0]);
      }
      SettledSearchStaysSettled(c, Next(c, t, steps[0]), k, steps[1..]);
    }
  }

  lemma SequencesAreFresh(c: Config, t: Tracker, k: nat, step: Step)
    requires k <= t.searchSeq && k !in t.openSearches
    ensures k <= Next(c, t, step).searchSeq && k !in Next(c, t, step).openSearches
  {
    hide Admissible, SearchOverage, PriceRefuses, SearchFits, Overage, Allowance, WorstCase, Charged, Releases;
  }

  /** A settled search is charged once: any later settlement of the same
      sequence, however much happened in between, changes nothing at all. */
  lemma SecondSearchSettlementIsNothing(c: Config, t: Tracker, first: Step, between: seq<Step>, second: Step)
    requires Balanced(t) && first.e.SettleSearches? && first.e.seq' in t.openSearches
    requires second.e.SettleSearches? && second.e.seq' == first.e.seq'
    ensures var later := Run(c, Next(c, t, first), between);
            Next(c, later, second) == later
  {
    hide Balanced, Run, PriceRefuses, SearchOverage;
    assert first.e.seq' <= t.searchSeq by { BalancedSequences(t); }
    assert first.e.seq' !in Next(c, t, first).openSearches;
    SettledSearchStaysSettled(c, Next(c, t, first), first.e.seq', between);
  }

  lemma BalancedSequences(t: Tracker)
    requires Balanced(t)
    ensures forall k :: k in t.openSearches ==> k <= t.searchSeq
  {
  }
}
