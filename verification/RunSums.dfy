/**
  What a run adds up to, told from its steps: every token, dollar, call, search,
  step and retry it recorded, and what it was refused for. The operations of the
  tracker itself are shown to be these steps.
 */
module RunSums {
  import opened Common
  import opened BudgetTracker
  import opened RunAccounting
  import Ledger = UsageLedger

  // -- what one step records ------------------------------------------------------------

  /** Cumulative amounts, as one step or a whole run adds to them. */
  datatype Sums = Sums(
    calls: nat, failures: nat, input: nat, output: nat, retries: nat, steps: nat, searches: nat,
    estimated: real, dollars: real, searchDollars: real)

  const NOTHING := Sums(0, 0, 0, 0, 0, 0, 0, 0.0, 0.0, 0.0)

  function Stated(n: int): nat {
    if n < 0 then 0 else n
  }

  /** The searches a settlement charges: what it states, or all it held. */
  function Performed(t: Tracker, e: Event): nat
    requires e.SettleSearches?
  {
    if e.seq' !in t.openSearches then 0
    else if e.actual.Some? then Stated(e.actual.value) else t.openSearches[e.seq']
  }

  /** A mediated search whose price does not fit is not charged at all. */
  predicate Unaffordable(c: Config, t: Tracker, e: Event)
    requires e.SettleSearches?
  {
    && e.preExecution && Performed(t, e) > 0 && c.maxCost.Some?
    && t.spent.actual + e.unit * Performed(t, e) as real > c.maxCost.value
  }

  function Adds(c: Config, t: Tracker, e: Event): Sums {
    match e
    case Open(r, g) => if Admissible(c, t, r, g) then NOTHING.(calls := 1, estimated := c.perCall) else NOTHING
    case Settle(s) =>
      NOTHING.(input := Stated(s.input), output := Stated(s.output), failures := if s.answered then 0 else 1,
               dollars := if s.cost.None? || s.cost.value < 0.0 then 0.0 else s.cost.value)
    case SettlementLost => NOTHING
    case AgentStep => NOTHING.(steps := 1)
    case Retry => NOTHING.(retries := 1)
    case ReserveSearches(_) => NOTHING
    case SettleSearches(_, _, unit, _) =>
      if Unaffordable(c, t, e) then NOTHING
      else
        var n := Performed(t, e);
        NOTHING.(searches := n, dollars := unit * n as real, searchDollars := unit * n as real)
  }

  function Together(a: Sums, b: Sums): Sums {
    Sums(a.calls + b.calls, a.failures + b.failures, a.input + b.input, a.output + b.output, a.retries + b.retries,
         a.steps + b.steps, a.searches + b.searches, a.estimated + b.estimated, a.dollars + b.dollars,
         a.searchDollars + b.searchDollars)
  }

  /** The sum over a run; what a call or a search adds depends on where it lands. */
  function SumOf(c: Config, t: Tracker, steps: seq<Step>): Sums
    decreases |steps|
  {
    if steps == [] then NOTHING
    else Together(Adds(c, t, steps[0].e), SumOf(c, Next(c, t, steps[0]), steps[1..]))
  }

  /** The tokens of a run are stated by its settlements alone. */
  function OutputStated(steps: seq<Step>): nat {
    if steps == [] then 0
    else OutputStated(steps[..|steps| - 1])
         + (var e := steps[|steps| - 1].e; if e.Settle? then Stated(e.s.output) else 0)
  }

  function InputStated(steps: seq<Step>): nat {
    if steps == [] then 0
    else InputStated(steps[..|steps| - 1])
         + (var e := steps[|steps| - 1].e; if e.Settle? then Stated(e.s.input) else 0)
  }

  /** A tracker that has recorded so much more. */
  ghost predicate Grew(before: Spent, added: Sums, after: Spent) {
    && after.modelCalls == before.modelCalls + added.calls && after.attempts == before.attempts + added.calls
    && after.failures == before.failures + added.failures
    && after.input == before.input + added.input && after.output == before.output + added.output
    && after.retries == before.retries + added.retries && after.steps == before.steps + added.steps
    && after.searches == before.searches + added.searches
    && after.estimated == before.estimated + added.estimated && after.actual == before.actual + added.dollars
    && after.searchCost == before.searchCost + added.searchDollars
  }

  lemma StepAddsUp(c: Config, t: Tracker, step: Step)
    ensures Grew(t.spent, Adds(c, t, step.e), Next(c, t, step).spent)
  {
    hide Grew, Next, Adds;
    match step.e
    case Open(_, _) => CallAddsUp(c, t, step);
    case Settle(_) => SettlementAddsUp(c, t, step);
    case SettleSearches(_, _, _, _) => SearchAddsUp(c, t, step);
    case _ => WorkAddsUp(c, t, step);
  }

  lemma CallAddsUp(c: Config, t: Tracker, step: Step)
    requires step.e.Open?
    ensures Grew(t.spent, Adds(c, t, step.e), Next(c, t, step).spent)
  {
    hide Admissible, Allowance, WorstCase, RefusalCode;
  }

  lemma SettlementAddsUp(c: Config, t: Tracker, step: Step)
    requires step.e.Settle?
    ensures Grew(t.spent, Adds(c, t, step.e), Next(c, t, step).spent)
  {
    hide Overage, Releases;
  }

  lemma WorkAddsUp(c: Config, t: Tracker, step: Step)
    requires step.e.SettlementLost? || step.e.AgentStep? || step.e.Retry? || step.e.ReserveSearches?
    ensures Grew(t.spent, Adds(c, t, step.e), Next(c, t, step).spent)
  {
    hide SearchFits;
  }

  lemma SearchAddsUp(c: Config, t: Tracker, step: Step)
    requires step.e.SettleSearches?
    ensures Grew(t.spent, Adds(c, t, step.e), Next(c, t, step).spent)
  {
    hide SearchOverage;
    if step.e.seq' in t.openSearches {
      assert Performed(t, step.e) == SearchesCharged(t, step.e.seq', step.e.actual);
    }
  }

  /** Exact accounting: over any run, recorded or not, whatever the order, what
      was spent is what the steps stated - no more, and no less. */
  lemma {:induction false} RunAddsUp(c: Config, t: Tracker, steps: seq<Step>)
    ensures Grew(t.spent, SumOf(c, t, steps), Run(c, t, steps).spent)
    decreases |steps|
  {
    hide Next, Adds;
    if steps != [] {
      StepAddsUp(c, t, steps[0]);
      RunAddsUp(c, Next(c, t, steps[0]), steps[1..]);
    }
  }

  lemma {:induction false} TokensAddUp(c: Config, t: Tracker, steps: seq<Step>)
    ensures Run(c, t, steps).spent.input == t.spent.input + InputStated(steps)
    ensures Run(c, t, steps).spent.output == t.spent.output + OutputStated(steps)
  {
    hide Next, Run, Adds;
    if steps == [] {
      assert Run(c, t, []) == t by { RunOfNone(c, t); }
    } else {
      var n := |steps| - 1;
      TokensAddUp(c, t, steps[..n]);
      RunOfLast(c, t, steps);
      StepAddsUp(c, Run(c, t, steps[..n]), steps[n]);
      TokensOf(c, Run(c, t, steps[..n]), steps[n].e);
    }
  }

  lemma RunOfNone(c: Config, t: Tracker)
    ensures Run(c, t, []) == t
  {
  }

  lemma TokensOf(c: Config, t: Tracker, e: Event)
    ensures Adds(c, t, e).input == if e.Settle? then Stated(e.s.input) else 0
    ensures Adds(c, t, e).output == if e.Settle? then Stated(e.s.output) else 0
  {
    hide Admissible;
  }

  lemma {:induction false} RunOfLast(c: Config, t: Tracker, steps: seq<Step>)
    requires steps != []
    ensures Run(c, t, steps) == Next(c, Run(c, t, steps[..|steps| - 1]), steps[|steps| - 1])
    decreases |steps|
  {
    hide Next;
    if |steps| > 1 {
      RunOfLast(c, Next(c, t, steps[0]), steps[1..]);
      assert steps[1..][..|steps| - 2] == steps[..|steps| - 1][1..];
    } else {
      assert steps[..0] == [] && steps[1..] == [];
    }
  }

  /**
    A recorded settlement whose tokens take what the run stated over a ceiling
    stops it, if nothing had: by the first ceiling it breaks.
   */
  lemma TokensOverACeilingStop(c: Config, t: Tracker, steps: seq<Step>)
    requires steps != [] && steps[|steps| - 1].recorded && steps[|steps| - 1].e.Settle?
    ensures var z := Run(c, t, steps);
            var input, output := t.spent.input + InputStated(steps), t.spent.output + OutputStated(steps);
            var overInput := c.maxInput.Some? && input > c.maxInput.value;
            var overOutput := c.maxOutput.Some? && output > c.maxOutput.value;
            var overTotal := c.maxTotal.Some? && input + output > c.maxTotal.value;
            && (overInput || overOutput || overTotal ==> z.stop.Some?)
            && (overOutput && !overInput && Run(c, t, steps[..|steps| - 1]).stop.None? ==>
                  z.stop == Some("OUTPUT_TOKEN_LIMIT_EXCEEDED"))
  {
    hide Run, InputStated, OutputStated, Releases, Charged;
    TokensAddUp(c, t, steps);
    RunOfLast(c, t, steps);
  }

  // -- what is refused ---------------------------------------------------------------------

  /** A limit in the order they are asked: is it full, and what it is called. */
  datatype Limit = Limit(full: bool, code: string)

  /** Everything of it is the first limit that is full. */
  ghost predicate FirstFull(limits: seq<Limit>, code: Option<string>) {
    if code.None? then forall i :: 0 <= i < |limits| ==> !limits[i].full
    else exists i :: 0 <= i < |limits| && limits[i].full && limits[i].code == code.value
                     && forall j :: 0 <= j < i ==> !limits[j].full
  }

  function RunLimits(c: Config, t: Tracker, r: Request, now: real): seq<Limit> {
    var input, output := t.spent.input + t.reserved.input, t.spent.output + t.reserved.output;
    var estimate := Stated(r.estimatedInput);
    [Limit(c.maxDuration.Some? && now - t.startedAt >= c.maxDuration.value, "RUN_DURATION_EXCEEDED"),
     Limit(c.maxCalls.Some? && t.spent.modelCalls >= c.maxCalls.value, "MODEL_CALL_LIMIT_REACHED"),
     Limit(c.maxSteps.Some? && t.spent.steps > c.maxSteps.value, "AGENT_STEP_LIMIT_REACHED"),
     Limit(c.maxRetries.Some? && t.spent.retries > c.maxRetries.value, "RETRY_LIMIT_REACHED"),
     Limit(c.maxInput.Some? && input + estimate > c.maxInput.value, "INPUT_TOKEN_LIMIT_REACHED"),
     Limit(c.maxOutput.Some? && output >= c.maxOutput.value, "OUTPUT_TOKEN_LIMIT_REACHED"),
     Limit(c.maxTotal.Some? && input + output + estimate >= c.maxTotal.value, "TOTAL_TOKEN_LIMIT_REACHED"),
     Limit(c.maxEstimated.Some? && t.spent.estimated + c.perCall > c.maxEstimated.value,
           "ESTIMATED_COST_LIMIT_REACHED"),
     Limit(c.maxCost.Some? && t.spent.actual >= c.maxCost.value, "COST_LIMIT_REACHED")]
  }

  lemma FirstFullAt(limits: seq<Limit>, i: nat)
    requires i < |limits| && limits[i].full && forall j :: 0 <= j < i ==> !limits[j].full
    ensures FirstFull(limits, Some(limits[i].code))
  {
  }

  /** The run's own limits, one list in one order. */
  lemma RunRefusalsAre(c: Config, t: Tracker, r: Request, now: real)
    ensures FirstFull(RunLimits(c, t, r, now), RunLimitCode(c, t, r, now))
  {
    var limits := RunLimits(c, t, r, now);
    assert |limits| == 9;
    var code := RunLimitCode(c, t, r, now);
    if code.Some? {
      var i := if limits[0].full then 0 else if limits[1].full then 1 else if limits[2].full then 2
               else if limits[3].full then 3 else if limits[4].full then 4 else if limits[5].full then 5
               else if limits[6].full then 6 else if limits[7].full then 7 else 8;
      FirstFullAt(limits, i);
    }
  }

  /** What a role call asks for beyond: a reserve it can be answered within, a
      price, a cap, and dollars for its worst case beside every open one. */
  function ContractLimits(c: Config, t: Tracker, r: Request, d: Daily): seq<Limit>
    requires r.contract.Some?
  {
    var allowed, contract := Allowance(c, t, r), r.contract.value;
    [Limit(allowed.Some? && allowed.value < contract.minAnswerReserve, "BUDGET_INSUFFICIENT_FOR_ROLE"),
     Limit(contract.profile.None? || allowed.None?, "COST_RESERVATION_EXCEEDED"),
     Limit(c.maxCost.Some? && t.spent.actual + t.reserved.cost + WorstCase(r, allowed) > c.maxCost.value,
           "COST_RESERVATION_EXCEEDED"),
     Limit(!d.worstCaseFits, "COST_RESERVATION_EXCEEDED")]
  }

  function DailyLimits(c: Config, t: Tracker, r: Request, d: Daily): seq<Limit> {
    [Limit(!d.userHasRoom, "DAILY_USER_BUDGET_REACHED"), Limit(!d.projectHasRoom, "DAILY_PROJECT_BUDGET_REACHED")]
    + (if r.contract.Some? then ContractLimits(c, t, r, d) else [])
    + [Limit(d.reservation.Rejects?, if d.reservation.Rejects? then d.reservation.code else "")]
  }

  lemma DailyRefusalsAre(c: Config, t: Tracker, r: Request, d: Daily)
    ensures FirstFull(DailyLimits(c, t, r, d), DailyAndContractCode(c, t, r, d))
  {
    hide Allowance, WorstCase;
    var limits := DailyLimits(c, t, r, d);
    assert |limits| == if r.contract.Some? then 7 else 3;
    if DailyAndContractCode(c, t, r, d).Some? {
      var i := if limits[0].full then 0 else if limits[1].full then 1 else if limits[2].full then 2
               else if limits[3].full then 3 else if limits[4].full then 4 else if limits[5].full then 5 else 6;
      FirstFullAt(limits, i);
    }
  }

  /**
    Why a call is refused: the stop there already is; else the kill switch, the
    lease; a cancelled run is not refused but cancelled; else the first full limit
    of the run, and after those of the day and the role.
   */
  lemma RefusalsAre(c: Config, t: Tracker, r: Request, g: Gate)
    ensures t.stop.Some? ==> RefusalCode(c, t, r, g) == t.stop
    ensures t.stop.None? ==>
              var limits := [Limit(!g.killSwitch, "PAID_EXECUTION_DISABLED"), Limit(!g.leaseHeld, "WORKER_LEASE_LOST")]
                            + (if g.cancelled then []
                               else RunLimits(c, t, r, g.now) + DailyLimits(c, t, r, g.daily));
              FirstFull(limits, RefusalCode(c, t, r, g))
  {
    hide RunLimits, DailyLimits, RunLimitCode, DailyAndContractCode;
    RunRefusalsAre(c, t, r, g.now);
    DailyRefusalsAre(c, t, r, g.daily);
    var gate := [Limit(!g.killSwitch, "PAID_EXECUTION_DISABLED"), Limit(!g.leaseHeld, "WORKER_LEASE_LOST")];
    var run, daily := RunLimits(c, t, r, g.now), DailyLimits(c, t, r, g.daily);
    if t.stop.None? {
      if !g.killSwitch {
        FirstFullAt(gate + (if g.cancelled then [] else run + daily), 0);
      } else if !g.leaseHeld {
        FirstFullAt(gate + (if g.cancelled then [] else run + daily), 1);
      } else if !g.cancelled {
        FirstFullConcat(run, daily, RunLimitCode(c, t, r, g.now), DailyAndContractCode(c, t, r, g.daily));
        FirstFullConcat(gate, run + daily, None, RefusalCode(c, t, r, g));
      }
    }
  }

  lemma FirstFullConcat(a: seq<Limit>, b: seq<Limit>, x: Option<string>, y: Option<string>)
    requires FirstFull(a, x) && FirstFull(b, y)
    ensures FirstFull(a + b, if x.Some? then x else y)
  {
    if x.Some? {
      var i :| 0 <= i < |a| && a[i].full && a[i].code == x.value && forall j :: 0 <= j < i ==> !a[j].full;
      assert (a + b)[i] == a[i];
      FirstFullAt(a + b, i);
    } else if y.Some? {
      var i :| 0 <= i < |b| && b[i].full && b[i].code == y.value && forall j :: 0 <= j < i ==> !b[j].full;
      assert (a + b)[|a| + i] == b[i];
      assert forall j :: 0 <= j < |a| + i ==> !(a + b)[j].full;
      FirstFullAt(a + b, |a| + i);
    }
  }

  /** A call is admitted exactly when nothing refuses it and nothing interrupts it. */
  lemma AdmittedIff(c: Config, t: Tracker, r: Request, g: Gate)
    ensures Admissible(c, t, r, g) <==>
              RefusalCode(c, t, r, g).None? && !g.cancelled && !g.daily.reservation.ReserverRaises?
  {
    hide Allowance, WorstCase;
  }

  /** The allowance is the most output the call may be given: what its caller
      asked for, and every token the two ceilings still have beside all in flight. */
  lemma AllowanceIsTheMost(c: Config, t: Tracker, r: Request, n: int)
    ensures Allowance(c, t, r).None? <==> c.maxOutput.None? && c.maxTotal.None? && r.requestedMax.None?
    ensures Allowance(c, t, r).Some? ==>
              (n <= Allowance(c, t, r).value <==>
                 && (r.requestedMax.Some? ==> n <= r.requestedMax.value)
                 && (c.maxOutput.Some? ==> t.spent.output + t.reserved.output + n <= c.maxOutput.value)
                 && (c.maxTotal.Some? ==>
                       t.spent.input + t.reserved.input + Stated(r.estimatedInput)
                       + t.spent.output + t.reserved.output + n <= c.maxTotal.value))
  {
  }

  /** An admitted call holds its estimate, its allowance and its worst case under
      the next sequence, and touches no other hold. */
  lemma AdmissionHolds(c: Config, t: Tracker, r: Request)
    ensures var z := AfterAdmission(c, t, r);
            var allowed := Allowance(c, t, r);
            var k := t.spent.modelCalls + 1;
            && z.open.Keys == t.open.Keys + {k} && (forall i :: i in t.open && i != k ==> z.open[i] == t.open[i])
            && z.open[k].input == Stated(r.estimatedInput)
            && z.open[k].output == (if allowed.None? then 0 else allowed.value)
            && z.open[k].cost == WorstCase(r, allowed)
            && z.reserved.input - t.reserved.input == z.open[k].input
            && z.reserved.output - t.reserved.output == Stated(z.open[k].output)
            && z.reserved.cost - t.reserved.cost == z.open[k].cost && z.reserved.searches == t.reserved.searches
            && z.openSearches == t.openSearches && z.searchSeq == t.searchSeq && z.stop == t.stop
  {
    hide WorstCase, RemainingOutput;
  }

  /** A settlement gives back its own hold; where there is none, the numbers its
      caller passed, and never more than is reserved. */
  lemma SettlementReleases(t: Tracker, s: Settlement)
    requires t.reserved.input >= 0 && t.reserved.output >= 0 && t.reserved.cost >= 0.0
    ensures var z := AfterSettlement(t, s);
            var own := s.seq' in t.open;
            var input := if own then t.open[s.seq'].input else s.fallback.input;
            var output := if own then t.open[s.seq'].output else Stated(s.fallback.output);
            var cost := if own then t.open[s.seq'].cost else 0.0;
            && s.seq' !in z.open && (forall k :: k in t.open && k != s.seq' ==> k in z.open && z.open[k] == t.open[k])
            && (input <= t.reserved.input ==> z.reserved.input == t.reserved.input - input)
            && (input > t.reserved.input ==> z.reserved.input == 0)
            && (0 <= output <= t.reserved.output ==> z.reserved.output == t.reserved.output - output)
            && (output > t.reserved.output ==> z.reserved.output == 0)
            && (0.0 <= cost <= t.reserved.cost ==> z.reserved.cost == t.reserved.cost - cost)
            && (cost > t.reserved.cost ==> z.reserved.cost == 0.0)
            && z.reserved.searches == t.reserved.searches && z.openSearches == t.openSearches
  {
  }

  /** Why a recorded settlement, of a call or of a search, stops the run. */
  lemma OveragesAre(c: Config, t: Tracker, charged: nat, held: nat)
    ensures FirstFull([Limit(c.maxInput.Some? && t.spent.input > c.maxInput.value, "INPUT_TOKEN_LIMIT_EXCEEDED"),
                       Limit(c.maxOutput.Some? && t.spent.output > c.maxOutput.value, "OUTPUT_TOKEN_LIMIT_EXCEEDED"),
                       Limit(c.maxTotal.Some? && t.spent.input + t.spent.output > c.maxTotal.value,
                             "TOTAL_TOKEN_LIMIT_EXCEEDED"),
                       Limit(c.maxCost.Some? && t.spent.actual > c.maxCost.value, "COST_LIMIT_EXCEEDED")],
                      Overage(c, t))
    ensures FirstFull([Limit(charged > held, "SEARCH_MULTIPLICITY_EXCEEDED"),
                       Limit(c.maxSearches.Some? && t.spent.searches > c.maxSearches.value, "SEARCH_LIMIT_EXCEEDED"),
                       Limit(c.maxCost.Some? && t.spent.actual > c.maxCost.value, "COST_LIMIT_EXCEEDED")],
                      SearchOverage(c, t, charged, held))
  {
    var calls := [Limit(c.maxInput.Some? && t.spent.input > c.maxInput.value, "INPUT_TOKEN_LIMIT_EXCEEDED"),
                  Limit(c.maxOutput.Some? && t.spent.output > c.maxOutput.value, "OUTPUT_TOKEN_LIMIT_EXCEEDED"),
                  Limit(c.maxTotal.Some? && t.spent.input + t.spent.output > c.maxTotal.value,
                        "TOTAL_TOKEN_LIMIT_EXCEEDED"),
                  Limit(c.maxCost.Some? && t.spent.actual > c.maxCost.value, "COST_LIMIT_EXCEEDED")];
    var searches := [Limit(charged > held, "SEARCH_MULTIPLICITY_EXCEEDED"),
                     Limit(c.maxSearches.Some? && t.spent.searches > c.maxSearches.value, "SEARCH_LIMIT_EXCEEDED"),
                     Limit(c.maxCost.Some? && t.spent.actual > c.maxCost.value, "COST_LIMIT_EXCEEDED")];
    if Overage(c, t).Some? {
      FirstFullAt(calls, if calls[0].full then 0 else if calls[1].full then 1 else if calls[2].full then 2 else 3);
    }
    if SearchOverage(c, t, charged, held).Some? {
      FirstFullAt(searches, if searches[0].full then 0 else if searches[1].full then 1 else 2);
    }
  }

  /** Holding and settling searches, told from the counts: room for all of them
      or none; the hold is given back whatever is charged. */
  lemma SearchesHold(c: Config, t: Tracker, wanted: nat, e: Event, recorded: bool)
    requires e.SettleSearches? && e.seq' in t.openSearches && t.openSearches[e.seq'] <= t.reserved.searches
    ensures SearchFits(c, t, wanted) <==>
              && t.stop.None?
              && (c.maxSearches.Some? ==> t.spent.searches + t.reserved.searches + wanted <= c.maxSearches.value)
    ensures var held := AfterSearchReserved(t, wanted);
            && held.reserved.searches == t.reserved.searches + wanted && held.searchSeq == t.searchSeq + 1
            && held.openSearches.Keys == t.openSearches.Keys + {held.searchSeq}
            && held.openSearches[held.searchSeq] == wanted && held.spent == t.spent && held.stop == t.stop
    ensures var z := Next(c, t, Step(e, recorded));
            && z.openSearches == t.openSearches - {e.seq'}
            && z.reserved.searches == t.reserved.searches - t.openSearches[e.seq']
            && (t.stop.None? && Unaffordable(c, t, e) ==> z.stop == Some("COST_LIMIT_REACHED"))
            && (t.stop.None? && !Unaffordable(c, t, e) ==>
                  z.stop == if recorded then SearchOverage(c, z, Performed(t, e), t.openSearches[e.seq']) else None)
  {
    assert Performed(t, e) == SearchesCharged(t, e.seq', e.actual);
  }

  // -- the tracker's own operations are these steps -----------------------------------------

  /** Each operation of the tracker is the step of the same name. */
  method Perform(b: Budget, step: Step, now: real)
    requires step.e.Open? ==> step.e.g.now == now
    requires step.e.SettleSearches? ==> step.e.unit >= 0.0
    modifies b
    ensures b.View() == Next(b.config, old(b.View()), step)
  {
    hide Admissible, AfterAdmission, AfterSettlement, RefusalCode, Overage, SearchFits, AfterSearchSettled;
    match step.e {
      case Open(r, g) =>
        AdmittedIff(b.config, b.View(), r, g);
        var o := b.OpenCall(r, g, step.recorded);
      case Settle(s) =>
        var _ := b.SettleCall(s, true, step.recorded, now);
      case SettlementLost =>
        var lost := Settlement(0, Hold(0, 0, 0.0), 0, 0, None, true);
        var _ := b.SettleCall(lost, false, step.recorded, now);
      case AgentStep =>
        var _ := b.RecordAgentStep(step.recorded, now);
      case Retry =>
        var _ := b.RecordRetry(step.recorded, now);
      case ReserveSearches(count) =>
        var k, code := b.ReserveSearch(count);
      case SettleSearches(seq', actual, unit, preExecution) =>
        var _ := b.SettleSearch(seq', actual, unit, preExecution, step.recorded, now);
    }
  }

  /** A tracker takes over a record only while it has done nothing itself. */
  lemma UnspentIs(t: Tracker)
    ensures Unspent(t) <==>
              && t.spent.modelCalls == t.spent.attempts == t.spent.failures == 0 && t.spent.input == t.spent.output == 0
              && t.spent.retries == t.spent.steps == t.spent.searches == 0
              && t.spent.estimated == t.spent.actual == t.spent.searchCost == 0.0
              && t.reserved.input == t.reserved.output == t.reserved.searches == 0 && t.reserved.cost == 0.0
  {
  }

  // -- the durable record ---------------------------------------------------------------------

  /** What the ledger row shows of a tracker, field by field. */
  lemma TheRecordShowsCalls(t: Tracker, now: real)
    ensures var s := LedgerSnapshot(t, now);
            && Ledger.Used(s, Ledger.ModelCalls) == t.spent.modelCalls as real
            && Ledger.Used(s, Ledger.ProviderAttempts) == t.spent.attempts as real
            && Ledger.Used(s, Ledger.ProviderFailures) == t.spent.failures as real
            && Ledger.Used(s, Ledger.Retries) == t.spent.retries as real
  {
  }

  lemma TheRecordShowsTokens(t: Tracker, now: real)
    ensures var s := LedgerSnapshot(t, now);
            && Ledger.Used(s, Ledger.InputTokens) == t.spent.input as real
            && Ledger.Used(s, Ledger.OutputTokens) == t.spent.output as real
            && Ledger.Used(s, Ledger.TotalTokens) == (t.spent.input + t.spent.output) as real
            && s[Ledger.TotalTokens] == Ledger.Int(t.spent.input + t.spent.output)
  {
  }

  lemma TheRecordShowsWork(t: Tracker, now: real)
    ensures var s := LedgerSnapshot(t, now);
            && Ledger.Used(s, Ledger.AgentSteps) == t.spent.steps as real
            && Ledger.Used(s, Ledger.SearchInvocations) == t.spent.searches as real
            && Ledger.Used(s, Ledger.ElapsedSeconds) == now - t.startedAt
  {
  }

  lemma TheRecordShowsDollars(t: Tracker, now: real)
    ensures var s := LedgerSnapshot(t, now);
            && Ledger.Used(s, Ledger.EstimatedCost) == t.spent.estimated
            && Ledger.Used(s, Ledger.ActualCost) == t.spent.actual
            && Ledger.Used(s, Ledger.SearchCost) == t.spent.searchCost
  {
  }
}
