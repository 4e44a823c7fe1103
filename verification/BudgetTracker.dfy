/**
  The hard pre-call gate of one run and the settlements that answer it.

  `Tracker` is the tracker's state as a value; the class holds the same fields
  and updates them one by one, as the source does. Money is exact. One dict of
  open reservations stands for the source's two, which share their keys: a call
  without a role contract holds no dollars.
 */
module BudgetTracker {
  import opened Common
  import ModelProfiles
  import Ledger = UsageLedger

  datatype Config = Config(
    maxCalls: Option<nat>, maxInput: Option<nat>, maxOutput: Option<nat>, maxTotal: Option<nat>,
    maxEstimated: Option<real>, maxCost: Option<real>, maxDuration: Option<real>,
    maxSteps: Option<nat>, maxRetries: Option<nat>, perCall: real,
    maxSearches: Option<nat>, searchUnit: real)

  /** What one admitted call holds until it settles: an output allowance below
      nothing is recorded as it is, though nothing was reserved for it. */
  datatype Hold = Hold(input: nat, output: int, cost: real)

  /** Everything cumulative: only ever grows while the run executes. */
  datatype Spent = Spent(
    modelCalls: nat, attempts: nat, failures: nat,
    input: nat, output: nat, retries: nat, steps: nat, searches: nat,
    estimated: real, actual: real, searchCost: real)

  /** In flight: never durable, never inherited by another process. */
  datatype Reserved = Reserved(input: int, output: int, cost: real, searches: int)

  datatype Tracker = Tracker(
    spent: Spent, reserved: Reserved,
    open: map<nat, Hold>, openSearches: map<nat, nat>, searchSeq: nat,
    stop: Option<string>, startedAt: real)

  /** What a role demands of the call it makes. */
  datatype Contract = Contract(minAnswerReserve: int, profile: Option<ModelProfiles.ModelProfile>, inputBound: int)

  datatype Request = Request(estimatedInput: int, requestedMax: Option<int>, contract: Option<Contract>)

  /** What the external reservation of the call answers. */
  datatype Reservation = Reserves | Rejects(code: string) | ReserverRaises

  /** What the daily budgets answer. They are sums in an external database. */
  datatype Daily = Daily(userHasRoom: bool, projectHasRoom: bool, worstCaseFits: bool, reservation: Reservation)

  /** The answers of everything the gate consults. */
  datatype Gate = Gate(killSwitch: bool, leaseHeld: bool, cancelled: bool, daily: Daily, now: real)

  /** Everything answers yes. */
  const OPEN_GATE := Gate(true, true, false, Daily(true, true, true, Reserves), 0.0)

  datatype Opened =
    | Admitted(seq': nat, allowed: Option<int>)
    | Refused(code: string)
    | RunCancelled
    | ReserverFailed   // the external reservation raised: nothing is changed
    | RecorderFailed   // admitted in memory, but not durable: nothing is sent

  datatype Settled = Done | Stopped(code: string) | RecordingFailed

  // -- what admission means -------------------------------------------------------

  function Estimate(r: Request): nat {
    MaxInt(0, r.estimatedInput)
  }

  /** Output tokens still unspent and unreserved, if any ceiling bounds them. */
  function RemainingOutput(c: Config, t: Tracker, r: Request): Option<int> {
    var byOutput := if c.maxOutput.Some? then Some(c.maxOutput.value - t.spent.output - t.reserved.output) else None;
    if c.maxTotal.Some? then
      var byTotal := c.maxTotal.value
          - (t.spent.input + t.reserved.input) - (t.spent.output + t.reserved.output) - Estimate(r);
      Some(if byOutput.None? then byTotal else MinInt(byOutput.value, byTotal))
    else byOutput
  }

  function Allowance(c: Config, t: Tracker, r: Request): Option<int> {
    var remaining := RemainingOutput(c, t, r);
    if r.requestedMax.None? then remaining
    else if remaining.None? then r.requestedMax
    else Some(MinInt(remaining.value, r.requestedMax.value))
  }

  /** The dollars the call is held to: only a role contract is priced. */
  function WorstCase(r: Request, allowed: Option<int>): real {
    if r.contract.Some? && r.contract.value.profile.Some? && allowed.Some?
    then ModelProfiles.WorstCaseCost(r.contract.value.profile.value, r.contract.value.inputBound, allowed.value)
    else 0.0
  }

  predicate ContractAdmits(c: Config, t: Tracker, r: Request, allowed: Option<int>) {
    r.contract.Some? ==>
      && r.contract.value.profile.Some? && allowed.Some?
      && allowed.value >= r.contract.value.minAnswerReserve
      && (c.maxCost.Some? ==> t.spent.actual + t.reserved.cost + WorstCase(r, allowed) <= c.maxCost.value)
  }

  predicate CountsHaveRoom(c: Config, t: Tracker, now: real) {
    && (c.maxDuration.Some? ==> now - t.startedAt < c.maxDuration.value)
    && (c.maxCalls.Some? ==> t.spent.modelCalls < c.maxCalls.value)
    && (c.maxSteps.Some? ==> t.spent.steps <= c.maxSteps.value)
    && (c.maxRetries.Some? ==> t.spent.retries <= c.maxRetries.value)
  }

  predicate TokensHaveRoom(c: Config, t: Tracker, r: Request) {
    && (c.maxInput.Some? ==> t.spent.input + t.reserved.input + Estimate(r) <= c.maxInput.value)
    && (var remaining := RemainingOutput(c, t, r); remaining.Some? ==> remaining.value > 0)
  }

  predicate RunHasRoom(c: Config, t: Tracker, r: Request, now: real) {
    && CountsHaveRoom(c, t, now)
    && TokensHaveRoom(c, t, r)
    && (c.maxEstimated.Some? ==> t.spent.estimated + c.perCall <= c.maxEstimated.value)
    && (c.maxCost.Some? ==> t.spent.actual < c.maxCost.value)
  }

  /** Every limit has room for this call beside what is spent and reserved. */
  predicate Room(c: Config, t: Tracker, r: Request, now: real) {
    RunHasRoom(c, t, r, now) && ContractAdmits(c, t, r, Allowance(c, t, r))
  }

  /** The first full limit, in the order the gate asks. */
  function CountCode(c: Config, t: Tracker, now: real): Option<string> {
    if c.maxDuration.Some? && now - t.startedAt >= c.maxDuration.value then Some("RUN_DURATION_EXCEEDED")
    else if c.maxCalls.Some? && t.spent.modelCalls >= c.maxCalls.value then Some("MODEL_CALL_LIMIT_REACHED")
    else if c.maxSteps.Some? && t.spent.steps > c.maxSteps.value then Some("AGENT_STEP_LIMIT_REACHED")
    else if c.maxRetries.Some? && t.spent.retries > c.maxRetries.value then Some("RETRY_LIMIT_REACHED")
    else None
  }

  function TokenCode(c: Config, t: Tracker, r: Request): Option<string> {
    var remaining := RemainingOutput(c, t, r);
    if c.maxInput.Some? && t.spent.input + t.reserved.input + Estimate(r) > c.maxInput.value
        then Some("INPUT_TOKEN_LIMIT_REACHED")
    else if c.maxOutput.Some?
        && t.spent.output + t.reserved.output >= c.maxOutput.value then Some("OUTPUT_TOKEN_LIMIT_REACHED")
    else if remaining.Some? && remaining.value <= 0 then Some("TOTAL_TOKEN_LIMIT_REACHED")
    else None
  }

  function ContractCode(c: Config, t: Tracker, r: Request, allowed: Option<int>): Option<string> {
    if ContractAdmits(c, t, r, allowed) then None
    else if allowed.Some? && allowed.value < r.contract.value.minAnswerReserve then Some("BUDGET_INSUFFICIENT_FOR_ROLE")
    else Some("COST_RESERVATION_EXCEEDED")
  }

  /** The first limit of the run itself that is full. */
  function RunLimitCode(c: Config, t: Tracker, r: Request, now: real): Option<string> {
    if CountCode(c, t, now).Some? then CountCode(c, t, now)
    else if TokenCode(c, t, r).Some? then TokenCode(c, t, r)
    else if c.maxEstimated.Some?
        && t.spent.estimated + c.perCall > c.maxEstimated.value then Some("ESTIMATED_COST_LIMIT_REACHED")
    else if c.maxCost.Some? && t.spent.actual >= c.maxCost.value then Some("COST_LIMIT_REACHED")
    else None
  }

  /** What the daily sums, the role's contract and the external reservation say,
      in the order they are asked. */
  function DailyAndContractCode(c: Config, t: Tracker, r: Request, d: Daily): Option<string> {
    if !d.userHasRoom then Some("DAILY_USER_BUDGET_REACHED")
    else if !d.projectHasRoom then Some("DAILY_PROJECT_BUDGET_REACHED")
    else if ContractCode(c, t, r, Allowance(c, t, r)).Some? then ContractCode(c, t, r, Allowance(c, t, r))
    else if r.contract.Some? && !d.worstCaseFits then Some("COST_RESERVATION_EXCEEDED")
    else if d.reservation.Rejects? then Some(d.reservation.code)
    else None
  }

  /** Why the gate refuses, if it does: the stop already reached comes first. */
  function RefusalCode(c: Config, t: Tracker, r: Request, g: Gate): Option<string> {
    if t.stop.Some? then t.stop
    else if !g.killSwitch then Some("PAID_EXECUTION_DISABLED")
    else if !g.leaseHeld then Some("WORKER_LEASE_LOST")
    else if g.cancelled then None
    else if RunLimitCode(c, t, r, g.now).Some? then RunLimitCode(c, t, r, g.now)
    else DailyAndContractCode(c, t, r, g.daily)
  }

  predicate DailyAdmits(r: Request, d: Daily) {
    d.userHasRoom && d.projectHasRoom && (r.contract.Some? ==> d.worstCaseFits) && d.reservation.Reserves?
  }

  predicate Admissible(c: Config, t: Tracker, r: Request, g: Gate) {
    t.stop.None? && g.killSwitch && g.leaseHeld && !g.cancelled && Room(c, t, r, g.now) && DailyAdmits(r, g.daily)
  }

  function Plus(r: Reserved, h: Hold): Reserved {
    r.(input := r.input + h.input, output := r.output + h.output, cost := r.cost + h.cost)
  }

  /** Give a hold back, never below nothing. */
  function Less(r: Reserved, h: Hold): Reserved {
    r.(input := MaxInt(0, r.input - h.input),
       output := if h.output != 0 then MaxInt(0, r.output - h.output) else r.output,
       cost := if h.cost != 0.0 then Max(0.0, r.cost - h.cost) else r.cost)
  }

  /** The state of a run that has just admitted `r`, before its answer. */
  function AfterAdmission(c: Config, t: Tracker, r: Request): Tracker {
    var allowed := Allowance(c, t, r);
    var held := Hold(Estimate(r), if allowed.Some? then allowed.value else 0, WorstCase(r, allowed));
    t.(spent := t.spent.(modelCalls := t.spent.modelCalls + 1, attempts := t.spent.attempts + 1,
                         estimated := t.spent.estimated + c.perCall),
       reserved := Plus(t.reserved, held.(output := MaxInt(0, held.output))),
       open := t.open[t.spent.modelCalls + 1 := held])
  }

  /** The first stop a run reaches is the one it keeps. */
  function Latch(t: Tracker, code: string): Tracker {
    if t.stop.None? then t.(stop := Some(code)) else t
  }

  // -- what settlement means ---------------------------------------------------------

  /** One settlement as its caller states it. */
  datatype Settlement = Settlement(
    seq': nat, fallback: Hold, input: int, output: int, cost: Option<real>, answered: bool)

  /** What the settlement releases: the call's own hold, and only if none is
      recorded the numbers its caller passed back. */
  function Releases(t: Tracker, s: Settlement): Hold {
    if s.seq' in t.open then t.open[s.seq'] else Hold(s.fallback.input, MaxInt(0, s.fallback.output), 0.0)
  }

  function Charged(s: Settlement): real {
    if s.cost.Some? && s.cost.value > 0.0 then s.cost.value else 0.0
  }

  function AfterSettlement(t: Tracker, s: Settlement): Tracker {
    t.(reserved := Less(t.reserved, Releases(t, s)),
       open := t.open - {s.seq'},
       spent := t.spent.(
         input := t.spent.input + MaxInt(0, s.input), output := t.spent.output + MaxInt(0, s.output),
         actual := t.spent.actual + Charged(s),
         failures := if s.answered then t.spent.failures else t.spent.failures + 1))
  }

  /** The first spent dimension that is over its limit. */
  function Overage(c: Config, t: Tracker): Option<string> {
    if c.maxInput.Some? && t.spent.input > c.maxInput.value then Some("INPUT_TOKEN_LIMIT_EXCEEDED")
    else if c.maxOutput.Some? && t.spent.output > c.maxOutput.value then Some("OUTPUT_TOKEN_LIMIT_EXCEEDED")
    else if c.maxTotal.Some?
        && t.spent.input + t.spent.output > c.maxTotal.value then Some("TOTAL_TOKEN_LIMIT_EXCEEDED")
    else if c.maxCost.Some? && t.spent.actual > c.maxCost.value then Some("COST_LIMIT_EXCEEDED")
    else None
  }

  function Checked(c: Config, t: Tracker): Tracker {
    if Overage(c, t).Some? then Latch(t, Overage(c, t).value) else t
  }

  // -- searches ------------------------------------------------------------------------

  predicate SearchFits(c: Config, t: Tracker, wanted: nat) {
    t.stop.None? && (c.maxSearches.Some? ==> t.spent.searches + t.reserved.searches + wanted <= c.maxSearches.value)
  }

  function AfterSearchReserved(t: Tracker, wanted: nat): Tracker {
    t.(searchSeq := t.searchSeq + 1, reserved := t.reserved.(searches := t.reserved.searches + wanted),
       openSearches := t.openSearches[t.searchSeq + 1 := wanted])
  }

  /** An unknown number of searches is charged as the whole hold. */
  function SearchesCharged(t: Tracker, seq': nat, actual: Option<int>): nat
    requires seq' in t.openSearches
  {
    if actual.None? then t.openSearches[seq'] else MaxInt(0, actual.value)
  }

  function SearchReleased(t: Tracker, seq': nat): Tracker
    requires seq' in t.openSearches
  {
    t.(openSearches := t.openSearches - {seq'},
       reserved := t.reserved.(searches := MaxInt(0, t.reserved.searches - t.openSearches[seq'])))
  }

  function AfterSearches(t: Tracker, charged: nat, unit: real): Tracker {
    t.(spent := t.spent.(searches := t.spent.searches + charged,
                         searchCost := t.spent.searchCost + unit * charged as real,
                         actual := t.spent.actual + unit * charged as real))
  }

  /** A mediated search has not run yet: a known price that does not fit refuses it. */
  predicate PriceRefuses(c: Config, t: Tracker, charged: nat, unit: real, preExecution: bool) {
    preExecution && charged > 0 && c.maxCost.Some? && t.spent.actual + unit * charged as real > c.maxCost.value
  }

  function SearchOverage(c: Config, t: Tracker, charged: nat, held: nat): Option<string> {
    if charged > held then Some("SEARCH_MULTIPLICITY_EXCEEDED")
    else if c.maxSearches.Some? && t.spent.searches > c.maxSearches.value then Some("SEARCH_LIMIT_EXCEEDED")
    else if c.maxCost.Some? && t.spent.actual > c.maxCost.value then Some("COST_LIMIT_EXCEEDED")
    else None
  }

  /** The settlement of an open search goes through: affordable, within its own
      hold and within every limit. A mediated search runs only then. */
  predicate SearchAccepted(c: Config, t: Tracker, seq': nat, actual: Option<int>, unit: real, preExecution: bool)
    requires seq' in t.openSearches
  {
    var charged := SearchesCharged(t, seq', actual);
    var released := SearchReleased(t, seq');
    && !PriceRefuses(c, released, charged, unit, preExecution)
    && SearchOverage(c, AfterSearches(released, charged, unit), charged, t.openSearches[seq']).None?
  }

  function AfterSearchSettled(c: Config, t: Tracker, seq': nat, actual: Option<int>, unit: real, preExecution: bool,
                              recorded: bool): Tracker {
    if seq' !in t.openSearches then t
    else
      var charged := SearchesCharged(t, seq', actual);
      var held := t.openSearches[seq'];
      var released := SearchReleased(t, seq');
      if PriceRefuses(c, t, charged, unit, preExecution) then Latch(released, "COST_LIMIT_REACHED")
      else
        var spent := AfterSearches(released, charged, unit);
        var over := SearchOverage(c, spent, charged, held);
        if recorded && over.Some? then Latch(spent, over.value) else spent
  }

  // -- the durable record -----------------------------------------------------------------

  /** The cumulative part of the tracker, as written after every consumption.
      In-flight reservations are deliberately absent. */
  function LedgerSnapshot(t: Tracker, now: real): Ledger.Snapshot {
    map[
      Ledger.SchemaVersion := Ledger.Int(2),
      Ledger.ModelCalls := Ledger.Int(t.spent.modelCalls),
      Ledger.ProviderAttempts := Ledger.Int(t.spent.attempts),
      Ledger.ProviderFailures := Ledger.Int(t.spent.failures),
      Ledger.InputTokens := Ledger.Int(t.spent.input),
      Ledger.OutputTokens := Ledger.Int(t.spent.output),
      Ledger.TotalTokens := Ledger.Int(t.spent.input + t.spent.output),
      Ledger.EstimatedCost := Ledger.Float(t.spent.estimated),
      Ledger.ActualCost := Ledger.Float(t.spent.actual),
      Ledger.Retries := Ledger.Int(t.spent.retries),
      Ledger.AgentSteps := Ledger.Int(t.spent.steps),
      Ledger.SearchInvocations := Ledger.Int(t.spent.searches),
      Ledger.SearchCost := Ledger.Float(t.spent.searchCost),
      Ledger.ElapsedSeconds := Ledger.Float(now - t.startedAt)]
  }

  /** The database merges what it is given into the row it has. */
  function Recorded(row: Ledger.Snapshot, t: Tracker, now: real): Ledger.Snapshot {
    Ledger.Merged([Some(row), Some(LedgerSnapshot(t, now))])
  }

  function NewTracker(now: real): Tracker {
    Tracker(Spent(0, 0, 0, 0, 0, 0, 0, 0, 0.0, 0.0, 0.0), Reserved(0, 0, 0.0, 0), map[], map[], 0, None, now)
  }

  function AmountOf(s: Ledger.Snapshot, f: Ledger.Field): real {
    Max(0.0, Ledger.Used(s, f))
  }

  function CountOf(s: Ledger.Snapshot, f: Ledger.Field): nat {
    MaxInt(0, Ledger.Whole(s, f))
  }

  /** The cumulative dimensions a record carries; a field it lacks is nothing. */
  function SpentIn(s: Ledger.Snapshot): Spent {
    Spent(CountOf(s, Ledger.ModelCalls), CountOf(s, Ledger.ProviderAttempts), CountOf(s, Ledger.ProviderFailures),
          CountOf(s, Ledger.InputTokens), CountOf(s, Ledger.OutputTokens), CountOf(s, Ledger.Retries),
          CountOf(s, Ledger.AgentSteps), CountOf(s, Ledger.SearchInvocations),
          AmountOf(s, Ledger.EstimatedCost), AmountOf(s, Ledger.ActualCost), AmountOf(s, Ledger.SearchCost))
  }

  /** A fresh tracker that starts from what a durable record shows as spent. */
  function Restored(t: Tracker, s: Ledger.Snapshot, now: real): Tracker {
    t.(spent := SpentIn(s), startedAt := now - AmountOf(s, Ledger.ElapsedSeconds))
  }

  predicate Unspent(t: Tracker) {
    t.spent == NewTracker(0.0).spent && t.reserved == NewTracker(0.0).reserved
  }

  lemma DailyReserves(r: Request, d: Daily)
    ensures DailyAdmits(r, d) ==> d.reservation.Reserves?
  {
  }

  class Budget {
    const config: Config

    var spent: Spent
    var reserved: Reserved
    var open: map<nat, Hold>
    var openSearches: map<nat, nat>
    var searchSeq: nat
    var stop: Option<string>
    var startedAt: real

    /** The row of `run_execution_usage` this run's recorder writes. */
    var row: Ledger.Snapshot

    function View(): Tracker
      reads this
    {
      Tracker(spent, reserved, open, openSearches, searchSeq, stop, startedAt)
    }

    constructor (config: Config, row: Ledger.Snapshot, now: real)
      ensures this.config == config && View() == NewTracker(now) && this.row == row
    {
      this.config, this.row := config, row;
      spent, reserved := NewTracker(now).spent, NewTracker(now).reserved;
      open, openSearches, searchSeq, stop, startedAt := map[], map[], 0, None, now;
    }

    /** Write the ledger through the recorder, which may refuse. */
    method Record(recorderAnswers: bool, now: real)
      modifies this`row
      ensures row == if recorderAnswers then Recorded(old(row), View(), now) else old(row)
    {
      if recorderAnswers {
        row := Recorded(row, View(), now);
      }
    }

    method Stop(code: string)
      modifies this`stop
      ensures View() == Latch(old(View()), code)
    {
      if stop.None? {
        stop := Some(code);
      }
    }

    method Refuse(code: string) returns (o: Opened)
      modifies this`stop
      ensures View() == Latch(old(View()), code) && o == Refused(code)
    {
      Stop(code);
      return Refused(code);
    }

    method CountRefusal(now: real) returns (code: Option<string>)
      ensures code.None? <==> CountsHaveRoom(config, View(), now)
      ensures code == CountCode(config, View(), now)
    {
      if config.maxDuration.Some? && now - startedAt >= config.maxDuration.value {
        return Some("RUN_DURATION_EXCEEDED");
      }
      if config.maxCalls.Some? && spent.modelCalls >= config.maxCalls.value {
        return Some("MODEL_CALL_LIMIT_REACHED");
      }
      if config.maxSteps.Some? && spent.steps > config.maxSteps.value {
        return Some("AGENT_STEP_LIMIT_REACHED");
      }
      if config.maxRetries.Some? && spent.retries > config.maxRetries.value {
        return Some("RETRY_LIMIT_REACHED");
      }
      return None;
    }

    method TokenRefusal(r: Request) returns (code: Option<string>)
      ensures code.None? <==> TokensHaveRoom(config, View(), r)
      ensures code == TokenCode(config, View(), r)
    {
      var est := MaxInt(0, r.estimatedInput);
      var committedInput := spent.input + reserved.input;
      var committedOutput := spent.output + reserved.output;
      if config.maxInput.Some? && committedInput + est > config.maxInput.value {
        return Some("INPUT_TOKEN_LIMIT_REACHED");
      }
      var remaining: Option<int> := None;
      if config.maxOutput.Some? {
        remaining := Some(config.maxOutput.value - committedOutput);
        if remaining.value <= 0 {
          return Some("OUTPUT_TOKEN_LIMIT_REACHED");
        }
      }
      if config.maxTotal.Some? {
        var byTotal := config.maxTotal.value - committedInput - committedOutput - est;
        remaining := Some(if remaining.None? then byTotal else MinInt(remaining.value, byTotal));
      }
      if remaining.Some? && remaining.value <= 0 {
        return Some("TOTAL_TOKEN_LIMIT_REACHED");
      }
      return None;
    }

    /** The run's own limits, in order: the first one without room, if any. */
    method FirstFullLimit(r: Request, now: real) returns (code: Option<string>)
      ensures code.None? <==> RunHasRoom(config, View(), r, now)
      ensures code == RunLimitCode(config, View(), r, now)
    {
      hide CountsHaveRoom, TokensHaveRoom, CountCode, TokenCode;
      code := CountRefusal(now);
      if code.Some? {
        return;
      }
      code := TokenRefusal(r);
      if code.Some? {
        return;
      }
      if config.maxEstimated.Some? && spent.estimated + config.perCall > config.maxEstimated.value {
        return Some("ESTIMATED_COST_LIMIT_REACHED");
      }
      if config.maxCost.Some? && spent.actual >= config.maxCost.value {
        return Some("COST_LIMIT_REACHED");
      }
    }

    /** The daily sums come before the role's contract, its worst case and the
        external reservation after it. */
    method DailyOrContractRefusal(r: Request, d: Daily) returns (code: Option<string>)
      ensures code == DailyAndContractCode(config, View(), r, d)
      ensures code.None? && !d.reservation.ReserverRaises? <==>
                DailyAdmits(r, d) && ContractAdmits(config, View(), r, Allowance(config, View(), r))
    {
      hide ContractAdmits, Allowance;
      if !d.userHasRoom {
        return Some("DAILY_USER_BUDGET_REACHED");
      }
      if !d.projectHasRoom {
        return Some("DAILY_PROJECT_BUDGET_REACHED");
      }
      code := ContractRefusal(r, Allowance(config, View(), r));
      if code.Some? {
        return;
      }
      if r.contract.Some? && !d.worstCaseFits {
        return Some("COST_RESERVATION_EXCEEDED");
      }
      if d.reservation.Rejects? {
        return Some(d.reservation.code);
      }
    }

    /** A role call is refused rather than shrunk, unpriced or unaffordable. */
    method ContractRefusal(r: Request, allowed: Option<int>) returns (code: Option<string>)
      ensures code.None? <==> ContractAdmits(config, View(), r, allowed)
      ensures code == ContractCode(config, View(), r, allowed)
    {
      if r.contract.None? {
        return None;
      }
      var contract := r.contract.value;
      if allowed.Some? && allowed.value < contract.minAnswerReserve {
        return Some("BUDGET_INSUFFICIENT_FOR_ROLE");
      }
      if contract.profile.None? || allowed.None? {
        return Some("COST_RESERVATION_EXCEEDED");
      }
      if config.maxCost.Some? && spent.actual + reserved.cost + WorstCase(r, allowed) > config.maxCost.value {
        return Some("COST_RESERVATION_EXCEEDED");
      }
      return None;
    }

    /** Take the capacity the call may consume. */
    method Reserve(r: Request) returns (allowed: Option<int>)
      modifies this`spent, this`reserved, this`open
      ensures View() == AfterAdmission(config, old(View()), r) && allowed == old(Allowance(config, View(), r))
    {
      hide RemainingOutput, ModelProfiles.WorstCaseCost;
      allowed := Allowance(config, View(), r);
      var cost := WorstCase(r, allowed);
      var est := MaxInt(0, r.estimatedInput);
      var heldOutput := if allowed.Some? then allowed.value else 0;
      spent := spent.(modelCalls := spent.modelCalls + 1);
      spent := spent.(attempts := spent.attempts + 1, estimated := spent.estimated + config.perCall);
      reserved := reserved.(input := reserved.input + est);
      if heldOutput > 0 {
        reserved := reserved.(output := reserved.output + heldOutput);
      }
      reserved := reserved.(cost := reserved.cost + cost);
      open := open[spent.modelCalls := Hold(est, heldOutput, cost)];
    }

    /**
      Reserve capacity for one model call before it happens. A call is admitted
      exactly when nothing has stopped the run and every limit has room for it;
      the admission is durable before the request is sent.
     */
    method OpenCall(r: Request, g: Gate, recorderAnswers: bool) returns (o: Opened)
      modifies this
      ensures o.Admitted? || o.RecorderFailed? <==> Admissible(config, old(View()), r, g)
      ensures o.Admitted? || o.RecorderFailed? ==> View() == AfterAdmission(config, old(View()), r)
      ensures o.Admitted? ==> o.seq' == spent.modelCalls && o.allowed == old(Allowance(config, View(), r))
      ensures o.Admitted? ==> recorderAnswers && row == Recorded(old(row), View(), g.now)
      ensures o.RecorderFailed? ==> !recorderAnswers
      ensures !o.Admitted? ==> row == old(row)
      ensures o.Refused? ==>
          View() == Latch(old(View()), o.code) && Some(o.code) == RefusalCode(config, old(View()), r, g)
      ensures o.RunCancelled? <==> old(stop).None? && g.killSwitch && g.leaseHeld && g.cancelled
      ensures o.RunCancelled? || o.ReserverFailed? ==>
          View() == old(View()) && RefusalCode(config, old(View()), r, g).None?
      ensures o.ReserverFailed? ==> g.daily.reservation.ReserverRaises?
    {
      hide RunHasRoom, ContractAdmits, DailyAdmits, AfterAdmission, Allowance, Recorded, RunLimitCode,
          DailyAndContractCode;
      if stop.Some? {
        return Refused(stop.value);
      }
      if !g.killSwitch {
        o := Refuse("PAID_EXECUTION_DISABLED");
        return;
      }
      if !g.leaseHeld {
        o := Refuse("WORKER_LEASE_LOST");
        return;
      }
      if g.cancelled {
        return RunCancelled;
      }
      var full := FirstFullLimit(r, g.now);
      if full.Some? {
        o := Refuse(full.value);
        return;
      }
      full := DailyOrContractRefusal(r, g.daily);
      if full.Some? {
        o := Refuse(full.value);
        return;
      }
      if g.daily.reservation.ReserverRaises? {
        DailyReserves(r, g.daily);
        return ReserverFailed;
      }
      var allowed := Reserve(r);
      Record(recorderAnswers, g.now);
      if !recorderAnswers {
        return RecorderFailed;
      }
      return Admitted(spent.modelCalls, allowed);
    }

    method Apply(s: Settlement)
      modifies this`spent, this`reserved, this`open
      ensures View() == AfterSettlement(old(View()), s)
    {
      var held := if s.seq' in open then open[s.seq'] else Hold(s.fallback.input, MaxInt(0, s.fallback.output), 0.0);
      open := open - {s.seq'};
      reserved := reserved.(input := MaxInt(0, reserved.input - held.input));
      if held.output != 0 {
        reserved := reserved.(output := MaxInt(0, reserved.output - held.output));
      }
      if held.cost != 0.0 {
        reserved := reserved.(cost := Max(0.0, reserved.cost - held.cost));
      }
      spent := spent.(input := spent.input + MaxInt(0, s.input), output := spent.output + MaxInt(0, s.output));
      if s.cost.Some? && s.cost.value > 0.0 {
        spent := spent.(actual := spent.actual + s.cost.value);
      }
      if !s.answered {
        spent := spent.(failures := spent.failures + 1);
      }
    }

    /**
      Release what the call held, exactly once, and record what it used. Only a
      settlement the recorder accepted is checked against the limits.
     */
    method SettleCall(s: Settlement, dailySettles: bool, recorderAnswers: bool, now: real) returns (r: Settled)
      modifies this
      ensures !dailySettles ==>
          r.Stopped? && View() == Latch(old(View()), "BUDGET_SETTLEMENT_FAILED") && row == old(row)
      ensures dailySettles && !recorderAnswers ==>
                r.RecordingFailed? && View() == AfterSettlement(old(View()), s) && row == old(row)
      ensures dailySettles && recorderAnswers ==>
                && View() == Checked(config, AfterSettlement(old(View()), s))
                && row == Recorded(old(row), AfterSettlement(old(View()), s), now)
                && r == (var over := Overage(config, AfterSettlement(old(View()), s));
                         if over.Some? then Stopped(over.value) else Done)
    {
      hide AfterSettlement, Recorded;
      if !dailySettles {
        Stop("BUDGET_SETTLEMENT_FAILED");
        return Stopped("BUDGET_SETTLEMENT_FAILED");
      }
      Apply(s);
      Record(recorderAnswers, now);
      if !recorderAnswers {
        return RecordingFailed;
      }
      var over := Overage(config, View());
      if over.Some? {
        Stop(over.value);
        return Stopped(over.value);
      }
      return Done;
    }

    method RecordAgentStep(recorderAnswers: bool, now: real) returns (r: Settled)
      modifies this
      ensures var counted := old(View()).(spent := old(spent).(steps := old(spent).steps + 1));
              View() == if recorderAnswers && config.maxSteps.Some? && counted.spent.steps > config.maxSteps.value
                        then Latch(counted, "AGENT_STEP_LIMIT_REACHED") else counted
      ensures row == if recorderAnswers then Recorded(old(row), old(View()).(spent := spent), now) else old(row)
      ensures r.RecordingFailed? <==> !recorderAnswers
      ensures r.Done? <==> recorderAnswers && (config.maxSteps.Some? ==> spent.steps <= config.maxSteps.value)
    {
      hide Recorded;
      spent := spent.(steps := spent.steps + 1);
      Record(recorderAnswers, now);
      if !recorderAnswers {
        return RecordingFailed;
      }
      if config.maxSteps.Some? && spent.steps > config.maxSteps.value {
        Stop("AGENT_STEP_LIMIT_REACHED");
        return Stopped("AGENT_STEP_LIMIT_REACHED");
      }
      return Done;
    }

    method RecordRetry(recorderAnswers: bool, now: real) returns (r: Settled)
      modifies this
      ensures var counted := old(View()).(spent := old(spent).(retries := old(spent).retries + 1));
              View() == if recorderAnswers && config.maxRetries.Some? && counted.spent.retries > config.maxRetries.value
                        then Latch(counted, "RETRY_LIMIT_REACHED") else counted
      ensures row == if recorderAnswers then Recorded(old(row), old(View()).(spent := spent), now) else old(row)
      ensures r.RecordingFailed? <==> !recorderAnswers
      ensures r.Done? <==> recorderAnswers && (config.maxRetries.Some? ==> spent.retries <= config.maxRetries.value)
    {
      hide Recorded;
      spent := spent.(retries := spent.retries + 1);
      Record(recorderAnswers, now);
      if !recorderAnswers {
        return RecordingFailed;
      }
      if config.maxRetries.Some? && spent.retries > config.maxRetries.value {
        Stop("RETRY_LIMIT_REACHED");
        return Stopped("RETRY_LIMIT_REACHED");
      }
      return Done;
    }

    /** Backpressure is counted, and never against the retry allowance. */
    method RecordProviderBackpressure(recorderAnswers: bool, now: real) returns (r: Settled)
      modifies this`row
      ensures row == if recorderAnswers then Recorded(old(row), View(), now) else old(row)
      ensures r == if recorderAnswers then Done else RecordingFailed
    {
      Record(recorderAnswers, now);
      return if recorderAnswers then Done else RecordingFailed;
    }

    /** Hold capacity for the most searches a request could perform. */
    method ReserveSearch(count: int) returns (seq': Option<nat>, code: string)
      modifies this
      ensures count <= 0 ==> seq' == Some(0) && View() == old(View())
      ensures count > 0 ==> (seq'.Some? <==> SearchFits(config, old(View()), count))
      ensures count > 0 && seq'.Some? ==> View() == AfterSearchReserved(old(View()), count) && seq'.value == searchSeq
      ensures seq'.None? ==> View() == Latch(old(View()), code)
      ensures seq'.None? ==> code == if old(stop).Some? then old(stop).value else "SEARCH_LIMIT_REACHED"
      ensures row == old(row)
    {
      var wanted := MaxInt(0, count);
      if wanted == 0 {
        return Some(0), "";
      }
      if stop.Some? {
        return None, stop.value;
      }
      if config.maxSearches.Some? && spent.searches + reserved.searches + wanted > config.maxSearches.value {
        Stop("SEARCH_LIMIT_REACHED");
        return None, "SEARCH_LIMIT_REACHED";
      }
      searchSeq := searchSeq + 1;
      reserved := reserved.(searches := reserved.searches + wanted);
      openSearches := openSearches[searchSeq := wanted];
      return Some(searchSeq), "";
    }

    method ChargeSearches(charged: nat, unit: real)
      modifies this`spent
      ensures View() == AfterSearches(old(View()), charged, unit)
    {
      var amount := unit * charged as real;
      if charged > 0 {
        spent := spent.(searches := spent.searches + charged, searchCost := spent.searchCost + amount);
        spent := spent.(actual := spent.actual + amount);
      }
    }

    /** Release one search hold and charge what was really spent. */
    method SettleSearch(seq': nat, actual: Option<int>, unit: real, preExecution: bool, recorderAnswers: bool,
        now: real)
      returns (r: Settled)
      requires unit >= 0.0
      modifies this
      ensures View() == AfterSearchSettled(config, old(View()), seq', actual, unit, preExecution, recorderAnswers)
      ensures r.Done? && seq' in old(openSearches) ==>
                row == Recorded(old(row), AfterSearches(old(SearchReleased(View(), seq')),
                                                        old(SearchesCharged(View(), seq', actual)), unit), now)
      ensures r.RecordingFailed? ==> row == old(row)
      ensures seq' in old(openSearches) ==>
          (r.Done? <==> recorderAnswers && SearchAccepted(config, old(View()), seq', actual, unit, preExecution))
    {
      hide AfterSearches, Recorded;
      if seq' !in openSearches {
        return Done;
      }
      var held := openSearches[seq'];
      var charged := if actual.None? then held else MaxInt(0, actual.value);
      var amount := unit * charged as real;
      var refused := preExecution && charged > 0 && config.maxCost.Some?
          && spent.actual + amount > config.maxCost.value;
      openSearches := openSearches - {seq'};
      reserved := reserved.(searches := MaxInt(0, reserved.searches - held));
      if refused {
        Stop("COST_LIMIT_REACHED");
        return Stopped("COST_LIMIT_REACHED");
      }
      ChargeSearches(charged, unit);
      Record(recorderAnswers, now);
      if !recorderAnswers {
        return RecordingFailed;
      }
      var over := SearchOverage(config, View(), charged, held);
      if over.Some? {
        Stop(over.value);
        return Stopped(over.value);
      }
      return Done;
    }

    method Adopt(s: Ledger.Snapshot, now: real)
      modifies this`spent, this`startedAt
      ensures View() == Restored(old(View()), s, now)
    {
      spent := SpentIn(s);
      startedAt := now - AmountOf(s, Ledger.ElapsedSeconds);
    }

    /** Start from a trusted durable record. Anything unknown or invalid in the
        record, or any spending already done here, refuses. */
    method RestoreSnapshot(s: Ledger.Snapshot, now: real) returns (restored: bool)
      modifies this
      ensures restored <==> (forall f :: f in s ==> !f.Unknown?) && Ledger.Valid(s) && Unspent(old(View()))
      ensures View() == if restored then Restored(old(View()), s, now) else old(View())
      ensures row == old(row)
    {
      hide Restored, Ledger.Valid, Ledger.Measure, Ledger.At;
      if exists f :: f in s && f.Unknown? {
        return false;
      }
      var parsed := Ledger.ValidateUsageSnapshot(s);
      if parsed.None? || !Unspent(View()) {
        return false;
      }
      Adopt(s, now);
      return true;
    }
  }
}
