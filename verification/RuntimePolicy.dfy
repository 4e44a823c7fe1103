/**
  The resolved envelope of a deployment: every dimension from the environment or
  the code's own default, and never wider than reviewed when money can be spent.
 */
module RuntimePolicy {
  import opened Common
  import LeaseWindows

  datatype Direction = LowerIsTighter | HigherIsTighter | DeclaredNotBounded

  /** Every enforceable limit of a run. */
  datatype Name =
    | MaxModelCallsPerRun | MaxInputTokensPerRun | MaxOutputTokensPerRun | MaxTotalTokensPerRun
    | MaxEstimatedCostPerRun | MaxCostPerRun | MaxRunDurationSeconds | MaxAgentSteps | MaxRetries
    | MaxConcurrentRunsPerUser | MaxConcurrentRunsPerProject | DailyUserBudget | DailyProjectBudget
    | EstimatedCostPerCall | MaxTasks | MaxToolCalls | MaxReplans | MaxToolCallsPerTask | MaxGraphDepth
    | MaxRecursionDepth | MaxCostUnits | ProviderMaxConcurrency | ProviderRpmLimit | ProviderTpmLimit
    | ProviderMaxRateLimitRetries | ProviderMaxBackpressureWaitSeconds | ProviderBackoffBaseSeconds
    | ProviderBackoffMaxSeconds | V1TechnicalParallelism | V2MaxActiveWorkers | SearchBasicQps | SearchProQps
    | MaxSearchInvocationsPerRun | MaxBuiltinSearchesPerRequest | SearchCostPerInvocation | HardMonetaryCapUsd
    | FirstPaidRunExecutionCap

  /** Limits are numbers, whole for most dimensions. */
  datatype Dimension = Dimension(
    name: Name, reviewed: real, whole: bool, direction: Direction, hasEnvKey: bool, runtimeDefault: Option<real>)

  predicate IsWider(d: Dimension, value: real) {
    match d.direction
    case DeclaredNotBounded => false
    case LowerIsTighter => value > d.reviewed
    case HigherIsTighter => value < d.reviewed
  }

  /** Leaving it unset would run wider than reviewed. */
  predicate MandatoryForPaid(d: Dimension) {
    d.hasEnvKey && (d.runtimeDefault.None? || IsWider(d, d.runtimeDefault.value))
  }

  /** A configured text, read as a number if it is one. */
  datatype Raw = Blank | Garbage | Number(x: real)

  datatype Environment = Environment(raw: map<Name, Raw>, catalogRead: bool, catalogPromotion: bool)

  function RawOf(env: Environment, d: Dimension): Raw {
    if d.hasEnvKey && d.name in env.raw then env.raw[d.name] else Blank
  }

  function Parse(d: Dimension, raw: Raw): Option<real> {
    if raw.Number? && raw.x > 0.0 && (d.whole ==> raw.x == raw.x.Floor as real) then Some(raw.x) else None
  }

  datatype Source = Deployment | RuntimeDefault | Unbounded | Refused

  datatype Violation =
    | ValueInvalid(dimension: Name)
    | WiderThanReviewed(dimension: Name)
    | DimensionAbsent(dimension: Name)
    | CatalogContradictory
    | InvariantViolated(dimension: Name)
    | ReviewedInconsistent(dimension: Name)
    | ReviewedLimitMissing              // the lookup raises, which refuses too

  // -- one dimension ------------------------------------------------------------------------

  function Refusal(d: Dimension, raw: Raw, paid: bool): Option<Violation> {
    if raw.Blank? then (if MandatoryForPaid(d) && paid then Some(DimensionAbsent(d.name)) else None)
    else if Parse(d, raw).None? then Some(ValueInvalid(d.name))
    else if IsWider(d, Parse(d, raw).value) && paid then Some(WiderThanReviewed(d.name))
    else None
  }

  function ValueOf(d: Dimension, raw: Raw, paid: bool): Option<real> {
    if Refusal(d, raw, paid).Some? then Some(d.reviewed)
    else if raw.Blank? then d.runtimeDefault
    else Parse(d, raw)
  }

  function SourceOf(d: Dimension, raw: Raw, paid: bool): Source {
    if Refusal(d, raw, paid).Some? then Refused
    else if !raw.Blank? then Deployment
    else if d.runtimeDefault.Some? then RuntimeDefault
    else Unbounded
  }

  /** Set wider than reviewed where it cannot buy anything: recorded, not refused. */
  predicate IsRelaxed(d: Dimension, raw: Raw, paid: bool) {
    !paid && Parse(d, raw).Some? && IsWider(d, Parse(d, raw).value)
  }

  /** Listed as tightened: in force, and not the reviewed number. */
  predicate IsTightened(d: Dimension, raw: Raw, paid: bool) {
    && Refusal(d, raw, paid).None? && !IsRelaxed(d, raw, paid)
    && ValueOf(d, raw, paid).Some? && ValueOf(d, raw, paid).value != d.reviewed
  }

  /** Looser than reviewed, in the dimension's own direction. */
  predicate Looser(d: Dimension, x: real) {
    (d.direction == LowerIsTighter && d.reviewed < x) || (d.direction == HigherIsTighter && x < d.reviewed)
  }

  /** A positive number, whole where the dimension is. */
  predicate Readable(d: Dimension, raw: Raw) {
    raw.Number? && raw.x > 0.0 && (d.whole ==> raw.x.Floor as real == raw.x)
  }

  /** What one dimension resolves to, case by case: a value, where it came from,
      why it is refused, and how it is listed. */
  lemma DimensionIs(d: Dimension, raw: Raw, paid: bool)
    ensures var value, source, refusal := ValueOf(d, raw, paid), SourceOf(d, raw, paid), Refusal(d, raw, paid);
            var relaxed, tightened := IsRelaxed(d, raw, paid), IsTightened(d, raw, paid);
            if raw.Blank? then
              var absent := paid && d.hasEnvKey && (d.runtimeDefault.None? || Looser(d, d.runtimeDefault.value));
              && !relaxed
              && (absent ==> value == Some(d.reviewed) && source == Refused && refusal == Some(DimensionAbsent(d.name))
                             && !tightened)
              && (!absent ==> value == d.runtimeDefault && refusal.None?
                              && source == (if value.Some? then RuntimeDefault else Unbounded)
                              && (tightened <==> value.Some? && value.value != d.reviewed))
            else if !Readable(d, raw) then
              && value == Some(d.reviewed) && source == Refused && refusal == Some(ValueInvalid(d.name))
              && !relaxed && !tightened
            else if Looser(d, raw.x) && paid then
              && value == Some(d.reviewed) && source == Refused && refusal == Some(WiderThanReviewed(d.name))
              && !relaxed && !tightened
            else
              && value == Some(raw.x) && source == Deployment && refusal.None?
              && (relaxed <==> Looser(d, raw.x)) && (tightened <==> !relaxed && raw.x != d.reviewed)
  {
  }

  /** A dimension listed as tightened is really wider than reviewed exactly when
      nothing is configured, the default is wider, and paid execution does not
      refuse to run on it. */
  lemma TightenedButWiderIff(d: Dimension, raw: Raw, paid: bool)
    ensures IsTightened(d, raw, paid) && IsWider(d, ValueOf(d, raw, paid).value) <==>
              raw.Blank? && d.runtimeDefault.Some? && IsWider(d, d.runtimeDefault.value) && !(paid && d.hasEnvKey)
  {
  }

  function Refusals(registry: seq<Dimension>, env: Environment, paid: bool): seq<Violation> {
    if registry == [] then []
    else
      var n := |registry| - 1;
      Refusals(registry[..n], env, paid)
      + (match Refusal(registry[n], RawOf(env, registry[n]), paid) case Some(v) => [v] case None => [])
  }

  predicate Distinct(registry: seq<Dimension>) {
    forall i, j :: 0 <= i < j < |registry| ==> registry[i].name != registry[j].name
  }

  // -- what dimensions owe each other -----------------------------------------------------------

  const WORKER_JOB_TIMEOUT_SECONDS: real := 3600.0
  const LONGEST_PROVIDER_CALL_SECONDS: real := 660.0

  function Resolved(values: map<Name, Option<real>>, name: Name): Option<real> {
    if name in values then values[name] else None
  }

  predicate AboveHardCap(values: map<Name, Option<real>>, name: Name) {
    Resolved(values, HardMonetaryCapUsd).Some? && Resolved(values, name).Some?
        && Resolved(values, name).value > Resolved(values, HardMonetaryCapUsd).value
  }

  predicate OutlivesTheWorker(values: map<Name, Option<real>>) {
    Resolved(values, MaxRunDurationSeconds).Some?
        && Resolved(values, MaxRunDurationSeconds).value + LONGEST_PROVIDER_CALL_SECONDS >= WORKER_JOB_TIMEOUT_SECONDS
  }

  /** In dollars and seconds. */
  lemma InvariantsAre(values: map<Name, Option<real>>, dollars: real, cap: real, seconds: real)
    requires Resolved(values, HardMonetaryCapUsd) == Some(cap)
    requires Resolved(values, MaxCostPerRun) == Some(dollars)
    requires Resolved(values, MaxRunDurationSeconds) == Some(seconds)
    ensures AboveHardCap(values, MaxCostPerRun) <==> dollars > cap
    ensures OutlivesTheWorker(values) <==> seconds + 660.0 >= 3600.0
  {
  }

  method InvariantViolations(values: map<Name, Option<real>>) returns (out: seq<Violation>)
    ensures out == [] <==>
        !AboveHardCap(values, MaxEstimatedCostPerRun) && !AboveHardCap(values, MaxCostPerRun)
        && !OutlivesTheWorker(values)
  {
    out := [];
    var cap := Resolved(values, HardMonetaryCapUsd);
    if cap.Some? {
      var estimated, cost := Resolved(values, MaxEstimatedCostPerRun), Resolved(values, MaxCostPerRun);
      if estimated.Some? && estimated.value > cap.value {
        out := out + [InvariantViolated(MaxEstimatedCostPerRun)];
      }
      if cost.Some? && cost.value > cap.value {
        out := out + [InvariantViolated(MaxCostPerRun)];
      }
    }
    var duration := Resolved(values, MaxRunDurationSeconds);
    if duration.Some? && duration.value >= WORKER_JOB_TIMEOUT_SECONDS {
      out := out + [InvariantViolated(MaxRunDurationSeconds)];
    } else if duration.Some? && duration.value + LONGEST_PROVIDER_CALL_SECONDS >= WORKER_JOB_TIMEOUT_SECONDS {
      out := out + [InvariantViolated(MaxRunDurationSeconds)];
    }
  }

  // -- what the reviewed limits owe each other ------------------------------------------------------

  const WORKER_ATTEMPTS := 2
  const CORRECTION_CALLS := 3
  const CORRECTION_ROUNDS := 1
  const PLAN_REPAIRS := 1
  const VERIFIER_BATCHES := 1
  const LONGEST_ROLE_SECONDS: real := 600.0
  const REVIEWED_LEASE_SECONDS: real := 800.0

  /** Model calls, and agent steps, that a plan may need at worst: each worker
      repaired once, a decision for each replan and to end, one verification, a
      correction round, and one repair of the plan itself. */
  function PlanWorstCase(tasks: int, replans: int): int {
    var pending := MaxInt(0, tasks);
    pending + pending * (WORKER_ATTEMPTS - 1) + (MaxInt(0, replans) + 1)
    + VERIFIER_BATCHES + CORRECTION_CALLS * CORRECTION_ROUNDS + PLAN_REPAIRS
  }

  /** Two calls a task, one decision a replan, and six besides. */
  lemma PlansCost(tasks: nat, replans: nat)
    ensures PlanWorstCase(tasks, replans) == 2 * tasks + replans + 6
    ensures forall n: int :: n <= 0 ==>
              PlanWorstCase(n, replans) == replans + 6 && PlanWorstCase(tasks, n) == 2 * tasks + 6
  {
  }

  function ReviewedValues(registry: seq<Dimension>): map<Name, Option<real>> {
    if registry == [] then map[]
    else
      var n := |registry| - 1;
      ReviewedValues(registry[..n])[registry[n].name := Some(registry[n].reviewed)]
  }

  predicate Stated(values: map<Name, Option<real>>, name: Name) {
    Resolved(values, name).Some?
  }

  /** Every limit the reviewed envelope is checked on is there. */
  predicate Complete(values: map<Name, Option<real>>) {
    && Stated(values, MaxTotalTokensPerRun) && Stated(values, MaxInputTokensPerRun)
    && Stated(values, MaxOutputTokensPerRun) && Stated(values, MaxTasks) && Stated(values, MaxReplans)
    && Stated(values, MaxAgentSteps) && Stated(values, MaxModelCallsPerRun)
    && Stated(values, ProviderMaxConcurrency) && Stated(values, ProviderRpmLimit) && Stated(values, ProviderTpmLimit)
  }

  /** The lease window admits the longest deadline a role declares. */
  predicate LeaseAdmitsRoles() {
    && LeaseWindows.DeadlineSafe(LONGEST_ROLE_SECONDS, REVIEWED_LEASE_SECONDS)
    && LeaseWindows.DefaultDeadline(REVIEWED_LEASE_SECONDS) >= LONGEST_ROLE_SECONDS
  }

  predicate ValuesConsistent(values: map<Name, Option<real>>)
    requires Complete(values)
  {
    var worst := PlanWorstCase(values[MaxTasks].value.Floor, values[MaxReplans].value.Floor) as real;
    && !AboveHardCap(values, MaxEstimatedCostPerRun) && !AboveHardCap(values, MaxCostPerRun)
    && !OutlivesTheWorker(values)
    && values[MaxTotalTokensPerRun].value <= values[MaxInputTokensPerRun].value + values[MaxOutputTokensPerRun].value
    && worst <= values[MaxAgentSteps].value && worst <= values[MaxModelCallsPerRun].value
    && LeaseAdmitsRoles()
    && values[ProviderMaxConcurrency].value <= LeaseWindows.MAX_CONCURRENCY as real
    && values[ProviderRpmLimit].value <= LeaseWindows.MAX_RPM as real
    && values[ProviderTpmLimit].value <= LeaseWindows.MAX_TPM as real
  }

  /** The registry is consistent with itself. */
  predicate ReviewedConsistent(registry: seq<Dimension>) {
    Complete(ReviewedValues(registry)) && ValuesConsistent(ReviewedValues(registry))
  }

  /** Nothing a deployment does can change what this reports. */
  method ReviewedViolations(registry: seq<Dimension>) returns (out: seq<Violation>)
    ensures out == [] <==> ReviewedConsistent(registry)
  {
    hide AboveHardCap, OutlivesTheWorker, LeaseAdmitsRoles, PlanWorstCase;
    var values: map<Name, Option<real>> := map[];
    for n := 0 to |registry|
      invariant values == ReviewedValues(registry[..n])
    {
      assert registry[..n + 1][..n] == registry[..n];
      values := values[registry[n].name := Some(registry[n].reviewed)];
    }
    assert registry[..|registry|] == registry;
    if !Complete(values) {
      return [ReviewedLimitMissing];
    }
    var violations := InvariantViolations(values);
    if values[MaxTotalTokensPerRun].value > values[MaxInputTokensPerRun].value + values[MaxOutputTokensPerRun].value {
      violations := violations + [ReviewedInconsistent(MaxTotalTokensPerRun)];
    }
    var worst := PlanWorstCase(values[MaxTasks].value.Floor, values[MaxReplans].value.Floor) as real;
    if worst > values[MaxAgentSteps].value {
      violations := violations + [ReviewedInconsistent(MaxTasks)];
    }
    if worst > values[MaxModelCallsPerRun].value {
      violations := violations + [ReviewedInconsistent(MaxTasks)];
    }
    if !LeaseAdmitsRoles() {
      violations := violations + [ReviewedInconsistent(MaxRunDurationSeconds)];
    }
    var ceilings := OverCeilings(values);
    out := violations + ceilings;
    assert out == [] <==> violations == [] && ceilings == [];
  }

  method OverCeilings(values: map<Name, Option<real>>) returns (out: seq<Violation>)
    requires Complete(values)
    ensures out == [] <==>
              && values[ProviderMaxConcurrency].value <= LeaseWindows.MAX_CONCURRENCY as real
              && values[ProviderRpmLimit].value <= LeaseWindows.MAX_RPM as real
              && values[ProviderTpmLimit].value <= LeaseWindows.MAX_TPM as real
  {
    out := [];
    if values[ProviderMaxConcurrency].value > LeaseWindows.MAX_CONCURRENCY as real {
      out := out + [ReviewedInconsistent(ProviderMaxConcurrency)];
    }
    if values[ProviderRpmLimit].value > LeaseWindows.MAX_RPM as real {
      out := out + [ReviewedInconsistent(ProviderRpmLimit)];
    }
    if values[ProviderTpmLimit].value > LeaseWindows.MAX_TPM as real {
      out := out + [ReviewedInconsistent(ProviderTpmLimit)];
    }
  }

  // -- resolution -----------------------------------------------------------------------------------

  datatype Policy = Policy(
    paid: bool, values: map<Name, Option<real>>, sources: map<Name, Source>, tightened: seq<Name>, relaxed: seq<Name>)

  /** What a resolution yields, dimension by dimension. */
  function Values(registry: seq<Dimension>, env: Environment, paid: bool): map<Name, Option<real>> {
    if registry == [] then map[]
    else
      var n := |registry| - 1;
      Values(registry[..n], env, paid)[registry[n].name := ValueOf(registry[n], RawOf(env, registry[n]), paid)]
  }

  function Sources(registry: seq<Dimension>, env: Environment, paid: bool): map<Name, Source> {
    if registry == [] then map[]
    else
      var n := |registry| - 1;
      Sources(registry[..n], env, paid)[registry[n].name := SourceOf(registry[n], RawOf(env, registry[n]), paid)]
  }

  function Named(registry: seq<Dimension>, env: Environment, paid: bool,
      listed: (Dimension, Raw, bool) -> bool): seq<Name> {
    if registry == [] then []
    else
      var n := |registry| - 1;
      Named(registry[..n], env, paid, listed)
      + (if listed(registry[n], RawOf(env, registry[n]), paid) then [registry[n].name] else [])
  }

  /** One dimension of the loop: its value, its source, and what it adds. */
  method ResolveOne(d: Dimension, raw: Raw, paid: bool)
    returns (value: Option<real>, source: Source, violation: Option<Violation>, tightens: bool, relaxes: bool)
    ensures value == ValueOf(d, raw, paid) && source == SourceOf(d, raw, paid) && violation == Refusal(d, raw, paid)
    ensures relaxes == IsRelaxed(d, raw, paid)
    ensures tightens == IsTightened(d, raw, paid)
  {
    violation, tightens, relaxes := None, false, false;
    if !raw.Blank? {
      var parsed := Parse(d, raw);
      if parsed.None? {
        return Some(d.reviewed), Refused, Some(ValueInvalid(d.name)), false, false;
      }
      source, value := Deployment, parsed;
      if IsWider(d, parsed.value) {
        if paid {
          violation, value, source := Some(WiderThanReviewed(d.name)), Some(d.reviewed), Refused;
        } else {
          relaxes := true;
        }
      } else if parsed.value != d.reviewed {
        tightens := true;
      }
      return;
    }
    if MandatoryForPaid(d) && paid {
      return Some(d.reviewed), Refused, Some(DimensionAbsent(d.name)), false, false;
    }
    value := d.runtimeDefault;
    source := if value.Some? then RuntimeDefault else Unbounded;
    tightens := value.Some? && value.value != d.reviewed;
  }

  /** Resolve every dimension; collect every reason this environment is refused. */
  method Resolve(registry: seq<Dimension>, env: Environment, paid: bool) returns (p: Policy, violations: seq<Violation>)
    ensures p.paid == paid && p.values == Values(registry, env, paid) && p.sources == Sources(registry, env, paid)
    ensures p.tightened == Named(registry, env, paid, IsTightened) && p.relaxed == Named(registry, env, paid, IsRelaxed)
    ensures violations == [] <==> Accepted(registry, env, paid)
  {
    hide Refusal, ValueOf, SourceOf, IsRelaxed, IsTightened, RawOf, AboveHardCap, OutlivesTheWorker, ReviewedConsistent;
    var values: map<Name, Option<real>> := map[];
    var sources: map<Name, Source> := map[];
    var tightened: seq<Name>, relaxed: seq<Name> := [], [];
    violations := [];
    for n := 0 to |registry|
      invariant values == Values(registry[..n], env, paid) && sources == Sources(registry[..n], env, paid)
      invariant tightened == Named(registry[..n], env, paid, IsTightened)
      invariant relaxed == Named(registry[..n], env, paid, IsRelaxed)
      invariant violations == Refusals(registry[..n], env, paid)
    {
      var d := registry[n];
      assert registry[..n + 1][..n] == registry[..n];
      var value, source, violation, tightens, relaxes := ResolveOne(d, RawOf(env, d), paid);
      values, sources := values[d.name := value], sources[d.name := source];
      if violation.Some? {
        violations := violations + [violation.value];
      }
      if tightens {
        tightened := tightened + [d.name];
      }
      if relaxes {
        relaxed := relaxed + [d.name];
      }
    }
    assert registry[..|registry|] == registry;
    p := Policy(paid, values, sources, tightened, relaxed);
    if env.catalogPromotion && !env.catalogRead {
      violations := violations + [CatalogContradictory];
    }
    if paid {
      var broken := InvariantViolations(values);
      var shipped := ReviewedViolations(registry);
      violations := violations + broken + shipped;
    }
  }

  lemma {:induction false} ValuesAre(registry: seq<Dimension>, env: Environment, paid: bool)
    requires Distinct(registry)
    ensures forall i :: 0 <= i < |registry| ==>
              Resolved(Values(registry, env, paid), registry[i].name) ==
                  ValueOf(registry[i], RawOf(env, registry[i]), paid)
  {
    hide ValueOf, RawOf;
    if registry != [] {
      var n := |registry| - 1;
      ValuesAre(registry[..n], env, paid);
      forall i | 0 <= i < |registry|
        ensures Resolved(Values(registry, env, paid), registry[i].name) ==
            ValueOf(registry[i], RawOf(env, registry[i]), paid)
      {
        if i < n {
          assert registry[..n][i] == registry[i] && registry[i].name != registry[n].name;
        }
      }
    }
  }

  lemma {:induction false} SourcesAre(registry: seq<Dimension>, env: Environment, paid: bool)
    requires Distinct(registry)
    ensures forall i :: 0 <= i < |registry| ==>
              && registry[i].name in Sources(registry, env, paid)
              && Sources(registry, env, paid)[registry[i].name] == SourceOf(registry[i], RawOf(env, registry[i]), paid)
  {
    hide SourceOf, RawOf;
    if registry != [] {
      var n := |registry| - 1;
      SourcesAre(registry[..n], env, paid);
      forall i | 0 <= i < |registry|
        ensures registry[i].name in Sources(registry, env, paid)
        ensures Sources(registry, env, paid)[registry[i].name]
                == SourceOf(registry[i], RawOf(env, registry[i]), paid)
      {
        if i < n {
          assert registry[..n][i] == registry[i] && registry[i].name != registry[n].name;
        }
      }
    }
  }

  /** The lists of tightened and relaxed dimensions name exactly those. */
  lemma {:induction false} ListsAre(registry: seq<Dimension>, env: Environment, paid: bool,
                                    listed: (Dimension, Raw, bool) -> bool, name: Name)
    ensures name in Named(registry, env, paid, listed) <==>
              exists i :: 0 <= i < |registry| && registry[i].name == name
                          && listed(registry[i], RawOf(env, registry[i]), paid)
  {
    hide RawOf;
    if registry != [] {
      var n := |registry| - 1;
      ListsAre(registry[..n], env, paid, listed, name);
      if i :| 0 <= i < n && registry[i].name == name && listed(registry[i], RawOf(env, registry[i]), paid) {
        assert registry[..n][i] == registry[i];
      }
    }
  }

  lemma {:induction false} NothingRefusedIff(registry: seq<Dimension>, env: Environment, paid: bool)
    ensures Refusals(registry, env, paid) == [] <==>
              forall i :: 0 <= i < |registry| ==> Refusal(registry[i], RawOf(env, registry[i]), paid).None?
  {
    hide Refusal, RawOf;
    if registry != [] {
      var n := |registry| - 1;
      var rest := registry[..n];
      NothingRefusedIff(rest, env, paid);
      assert forall i :: 0 <= i < n ==> rest[i] == registry[i];
    }
  }

  /** Nothing about the environment is refused. */
  predicate Accepted(registry: seq<Dimension>, env: Environment, paid: bool) {
    && Refusals(registry, env, paid) == []
    && (env.catalogPromotion ==> env.catalogRead)
    && (paid ==>
          && !AboveHardCap(Values(registry, env, paid), MaxEstimatedCostPerRun)
          && !AboveHardCap(Values(registry, env, paid), MaxCostPerRun)
          && !OutlivesTheWorker(Values(registry, env, paid))
          && ReviewedConsistent(registry))
  }

  // -- never wider than reviewed -------------------------------------------------------------------

  /** An unbounded dimension is wider than any reviewed limit. */
  predicate RunsWider(d: Dimension, value: Option<real>) {
    if value.Some? then IsWider(d, value.value) else d.direction != DeclaredNotBounded
  }

  /** What nobody can configure is bounded by its own default. */
  predicate SafeDefault(d: Dimension) {
    d.hasEnvKey || !RunsWider(d, d.runtimeDefault)
  }

  /** What configuring a dimension comes to: nothing, where it has no key. */
  function Configured(d: Dimension, raw: Raw): Raw {
    if d.hasEnvKey then raw else Blank
  }

  predicate WiderWhenPaid(d: Dimension, raw: Raw) {
    RunsWider(d, ValueOf(d, Configured(d, raw), true))
  }

  lemma PaidDimensionIff(d: Dimension)
    ensures (forall raw :: !WiderWhenPaid(d, raw)) <==> SafeDefault(d)
  {
    if !SafeDefault(d) {
      assert WiderWhenPaid(d, Blank);
    }
  }

  /** The paid envelope of an environment lies within the reviewed one. */
  predicate WithinReviewed(registry: seq<Dimension>, env: Environment) {
    forall i :: 0 <= i < |registry| ==> !RunsWider(registry[i], Resolved(Values(registry, env, true), registry[i].name))
  }

  /**
    In the paid posture no environment, refused or not, resolves any dimension
    wider than reviewed, exactly when every dimension without an environment key
    has a default that is not wider itself.
   */
  lemma PaidNeverRunsWiderIff(registry: seq<Dimension>)
    requires Distinct(registry)
    ensures (forall env :: WithinReviewed(registry, env)) <==>
        forall i :: 0 <= i < |registry| ==> SafeDefault(registry[i])
  {
    hide RunsWider, SafeDefault, ValueOf, Values, RawOf;
    if forall i :: 0 <= i < |registry| ==> SafeDefault(registry[i]) {
      forall env ensures WithinReviewed(registry, env) {
        ValuesAre(registry, env, true);
        forall i | 0 <= i < |registry|
          ensures !RunsWider(registry[i], Resolved(Values(registry, env, true), registry[i].name))
        {
          PaidDimensionIff(registry[i]);
          KeylessIs(registry[i], env);
          assert !WiderWhenPaid(registry[i], RawOf(env, registry[i]));
        }
      }
    } else {
      var i :| 0 <= i < |registry| && !SafeDefault(registry[i]);
      PaidDimensionIff(registry[i]);
      var raw :| WiderWhenPaid(registry[i], raw);
      var env := Environment(map[registry[i].name := raw], false, false);
      ValuesAre(registry, env, true);
      ConfiguredAlone(registry[i], raw, env);
      assert !WithinReviewed(registry, env);
    }
  }

  lemma ConfiguredAlone(d: Dimension, raw: Raw, env: Environment)
    requires env.raw == map[d.name := raw]
    ensures RawOf(env, d) == Configured(d, raw)
  {
  }

  lemma KeylessIs(d: Dimension, env: Environment)
    ensures RawOf(env, d) == Configured(d, RawOf(env, d))
    ensures !d.hasEnvKey ==> RawOf(env, d) == Blank
  {
  }

  // -- tightening is always accepted ---------------------------------------------------------------

  predicate AtLeastAsTight(d: Dimension, x: real, y: real) {
    match d.direction
    case DeclaredNotBounded => true
    case LowerIsTighter => y <= x
    case HigherIsTighter => y >= x
  }

  /** Only configured values change, each to a readable, tighter, positive one. */
  predicate TightensAt(d: Dimension, before: Raw, after: Raw) {
    if before.Blank? then after.Blank?
    else
      && after.Number? && Parse(d, after).Some?
      && (before.Number? ==> AtLeastAsTight(d, before.x, after.x))
  }

  predicate Tightens(registry: seq<Dimension>, before: Environment, after: Environment) {
    && after.catalogRead == before.catalogRead && after.catalogPromotion == before.catalogPromotion
    && forall i :: 0 <= i < |registry| ==>
        TightensAt(registry[i], RawOf(before, registry[i]), RawOf(after, registry[i]))
  }

  lemma TighterIsNotRefused(d: Dimension, before: Raw, after: Raw, paid: bool)
    requires TightensAt(d, before, after) && Refusal(d, before, paid).None?
    ensures Refusal(d, after, paid).None?
    ensures d.direction == LowerIsTighter && ValueOf(d, before, paid).Some? ==>
              ValueOf(d, after, paid).Some? && ValueOf(d, after, paid).value <= ValueOf(d, before, paid).value
    ensures ValueOf(d, before, paid).None? <==> ValueOf(d, after, paid).None?
    ensures !d.hasEnvKey && before == Blank ==> ValueOf(d, after, paid) == ValueOf(d, before, paid)
  {
  }

  predicate Holds(registry: seq<Dimension>, i: nat, name: Name) {
    i < |registry| && registry[i].name == name
  }

  /** The money cap is not configurable; costs and duration tighten downwards. */
  predicate MoneyAndTimeTighten(registry: seq<Dimension>, cap: nat, estimated: nat, cost: nat, duration: nat) {
    && Holds(registry, cap, HardMonetaryCapUsd) && !registry[cap].hasEnvKey
    && Holds(registry, estimated, MaxEstimatedCostPerRun) && registry[estimated].direction == LowerIsTighter
    && Holds(registry, cost, MaxCostPerRun) && registry[cost].direction == LowerIsTighter
    && Holds(registry, duration, MaxRunDurationSeconds) && registry[duration].direction == LowerIsTighter
  }

  /**
    Replacing configured values of an accepted environment by tighter ones is
    always accepted: tightening a deployment can never be what refuses it.
   */
  lemma TighteningStaysAccepted(registry: seq<Dimension>, before: Environment, after: Environment, paid: bool,
                                cap: nat, estimated: nat, cost: nat, duration: nat)
    requires Distinct(registry) && MoneyAndTimeTighten(registry, cap, estimated, cost, duration)
    requires Accepted(registry, before, paid) && Tightens(registry, before, after)
    ensures Accepted(registry, after, paid)
  {
    hide Refusal, ValueOf, RawOf, TightensAt, Values, Refusals, ReviewedConsistent;
    NothingRefusedIff(registry, before, paid);
    NothingRefusedIff(registry, after, paid);
    ValuesAre(registry, before, paid);
    ValuesAre(registry, after, paid);
    forall i | 0 <= i < |registry| ensures Refusal(registry[i], RawOf(after, registry[i]), paid).None? {
      TighterIsNotRefused(registry[i], RawOf(before, registry[i]), RawOf(after, registry[i]), paid);
    }
    KeylessIs(registry[cap], before);
    TighterIsNotRefused(registry[cap], RawOf(before, registry[cap]), RawOf(after, registry[cap]), paid);
    TighterIsNotRefused(registry[estimated], RawOf(before, registry[estimated]),
        RawOf(after, registry[estimated]), paid);
    TighterIsNotRefused(registry[cost], RawOf(before, registry[cost]), RawOf(after, registry[cost]), paid);
    TighterIsNotRefused(registry[duration], RawOf(before, registry[duration]), RawOf(after, registry[duration]), paid);
  }

  // -- the same environment, paid and unpaid ---------------------------------------------------

  /** Enough for paying, beyond what an unpaid deployment is held to. */
  predicate ReadyToPay(registry: seq<Dimension>, env: Environment) {
    && (forall i :: 0 <= i < |registry| ==>
          && !IsRelaxed(registry[i], RawOf(env, registry[i]), false)
          && (MandatoryForPaid(registry[i]) ==> !RawOf(env, registry[i]).Blank?))
    && !AboveHardCap(Values(registry, env, false), MaxEstimatedCostPerRun)
    && !AboveHardCap(Values(registry, env, false), MaxCostPerRun)
    && !OutlivesTheWorker(Values(registry, env, false))
    && ReviewedConsistent(registry)
  }

  lemma PaidRefusalIff(d: Dimension, raw: Raw)
    ensures Refusal(d, raw, true).None? <==>
              && Refusal(d, raw, false).None? && !IsRelaxed(d, raw, false)
              && (MandatoryForPaid(d) ==> !raw.Blank?)
    ensures Refusal(d, raw, true).None? ==> ValueOf(d, raw, true) == ValueOf(d, raw, false)
  {
  }

  lemma {:induction false} UnrefusedValuesAgree(registry: seq<Dimension>, env: Environment)
    requires forall i :: 0 <= i < |registry| ==> Refusal(registry[i], RawOf(env, registry[i]), true).None?
    ensures Values(registry, env, true) == Values(registry, env, false)
  {
    hide Refusal, ValueOf, RawOf;
    if registry != [] {
      var n := |registry| - 1;
      UnrefusedValuesAgree(registry[..n], env);
      PaidRefusalIff(registry[n], RawOf(env, registry[n]));
    }
  }

  /**
    Turning payment on is accepted exactly when the unpaid deployment was, has
    relaxed nothing, configured every mandatory dimension, and already kept what
    the dimensions owe each other - and it then runs on the very same values.
   */
  lemma PaymentIsAcceptedIff(registry: seq<Dimension>, env: Environment)
    ensures Accepted(registry, env, true) <==> Accepted(registry, env, false) && ReadyToPay(registry, env)
    ensures Accepted(registry, env, true) ==> Values(registry, env, true) == Values(registry, env, false)
  {
    hide Refusal, IsRelaxed, RawOf, ValueOf, AboveHardCap, OutlivesTheWorker, Refusals, Values, ReviewedConsistent;
    NothingRefusedIff(registry, env, true);
    NothingRefusedIff(registry, env, false);
    forall i | 0 <= i < |registry|
      ensures Refusal(registry[i], RawOf(env, registry[i]), true).None? <==>
                && Refusal(registry[i], RawOf(env, registry[i]), false).None?
                && !IsRelaxed(registry[i], RawOf(env, registry[i]), false)
                && (MandatoryForPaid(registry[i]) ==> !RawOf(env, registry[i]).Blank?)
    {
      PaidRefusalIff(registry[i], RawOf(env, registry[i]));
    }
    if forall i :: 0 <= i < |registry| ==> Refusal(registry[i], RawOf(env, registry[i]), true).None? {
      UnrefusedValuesAgree(registry, env);
    }
  }

  // -- the reviewed registry --------------------------------------------------------------------------

  const REVIEWED: seq<Dimension> := [
    Dimension(MaxModelCallsPerRun, 150.0, true, LowerIsTighter, true, None),
    Dimension(MaxInputTokensPerRun, 500000.0, true, LowerIsTighter, true, None),
    Dimension(MaxOutputTokensPerRun, 400000.0, true, LowerIsTighter, true, None),
    Dimension(MaxTotalTokensPerRun, 900000.0, true, LowerIsTighter, true, None),
    Dimension(MaxEstimatedCostPerRun, 3.0, false, LowerIsTighter, true, None),
    Dimension(MaxCostPerRun, 3.0, false, LowerIsTighter, true, None),
    Dimension(MaxRunDurationSeconds, 1800.0, true, LowerIsTighter, true, None),
    Dimension(MaxAgentSteps, 56.0, true, LowerIsTighter, true, None),
    Dimension(MaxRetries, 15.0, true, LowerIsTighter, true, None),
    Dimension(MaxConcurrentRunsPerUser, 1.0, true, LowerIsTighter, true, None),
    Dimension(MaxConcurrentRunsPerProject, 1.0, true, LowerIsTighter, true, None),
    Dimension(DailyUserBudget, 10.0, false, LowerIsTighter, true, None),
    Dimension(DailyProjectBudget, 10.0, false, LowerIsTighter, true, None),
    Dimension(EstimatedCostPerCall, 0.02, false, HigherIsTighter, true, Some(0.05)),
    Dimension(MaxTasks, 23.0, true, LowerIsTighter, true, Some(64.0)),
    Dimension(MaxToolCalls, 24.0, true, LowerIsTighter, true, Some(100.0)),
    Dimension(MaxReplans, 1.0, true, LowerIsTighter, true, Some(3.0)),
    Dimension(MaxToolCallsPerTask, 4.0, true, LowerIsTighter, false, Some(4.0)),
    Dimension(MaxGraphDepth, 12.0, true, LowerIsTighter, false, Some(12.0)),
    Dimension(MaxRecursionDepth, 4.0, true, LowerIsTighter, false, Some(4.0)),
    Dimension(MaxCostUnits, 100000.0, true, LowerIsTighter, false, Some(100000.0)),
    Dimension(ProviderMaxConcurrency, 2.0, true, LowerIsTighter, true, Some(2.0)),
    Dimension(ProviderRpmLimit, 40.0, true, LowerIsTighter, true, Some(3.0)),
    Dimension(ProviderTpmLimit, 1200000.0, true, LowerIsTighter, true, None),
    Dimension(ProviderMaxRateLimitRetries, 5.0, true, LowerIsTighter, true, Some(5.0)),
    Dimension(ProviderMaxBackpressureWaitSeconds, 240.0, false, LowerIsTighter, true, Some(240.0)),
    Dimension(ProviderBackoffBaseSeconds, 2.0, false, DeclaredNotBounded, true, Some(2.0)),
    Dimension(ProviderBackoffMaxSeconds, 30.0, false, DeclaredNotBounded, true, Some(30.0)),
    Dimension(V1TechnicalParallelism, 4.0, true, LowerIsTighter, true, Some(1.0)),
    Dimension(V2MaxActiveWorkers, 2.0, true, LowerIsTighter, true, Some(4.0)),
    Dimension(SearchBasicQps, 1.0, true, LowerIsTighter, false, Some(1.0)),
    Dimension(SearchProQps, 1.0, true, LowerIsTighter, false, Some(1.0)),
    Dimension(MaxSearchInvocationsPerRun, 60.0, true, LowerIsTighter, false, Some(60.0)),
    Dimension(MaxBuiltinSearchesPerRequest, 4.0, true, LowerIsTighter, false, Some(4.0)),
    Dimension(SearchCostPerInvocation, 0.003, false, HigherIsTighter, false, Some(0.003)),
    Dimension(HardMonetaryCapUsd, 3.0, false, LowerIsTighter, false, Some(3.0)),
    Dimension(FirstPaidRunExecutionCap, 1.0, true, LowerIsTighter, false, Some(1.0))]

  function Rank(n: Name): nat {
    match n
    case MaxModelCallsPerRun => 0 case MaxInputTokensPerRun => 1 case MaxOutputTokensPerRun => 2
    case MaxTotalTokensPerRun => 3 case MaxEstimatedCostPerRun => 4 case MaxCostPerRun => 5
    case MaxRunDurationSeconds => 6 case MaxAgentSteps => 7 case MaxRetries => 8
    case MaxConcurrentRunsPerUser => 9 case MaxConcurrentRunsPerProject => 10 case DailyUserBudget => 11
    case DailyProjectBudget => 12 case EstimatedCostPerCall => 13 case MaxTasks => 14 case MaxToolCalls => 15
    case MaxReplans => 16 case MaxToolCallsPerTask => 17 case MaxGraphDepth => 18 case MaxRecursionDepth => 19
    case MaxCostUnits => 20 case ProviderMaxConcurrency => 21 case ProviderRpmLimit => 22
    case ProviderTpmLimit => 23 case ProviderMaxRateLimitRetries => 24
    case ProviderMaxBackpressureWaitSeconds => 25 case ProviderBackoffBaseSeconds => 26
    case ProviderBackoffMaxSeconds => 27 case V1TechnicalParallelism => 28 case V2MaxActiveWorkers => 29
    case SearchBasicQps => 30 case SearchProQps => 31 case MaxSearchInvocationsPerRun => 32
    case MaxBuiltinSearchesPerRequest => 33 case SearchCostPerInvocation => 34 case HardMonetaryCapUsd => 35
    case FirstPaidRunExecutionCap => 36
  }

  lemma ReviewedIsRanked(i: nat)
    requires i < |REVIEWED|
    ensures Rank(REVIEWED[i].name) == i
  {
    assert |REVIEWED| == 37;
    hide REVIEWED, Rank;
    if i < 14 {
      BudgetIsRanked(i);
    } else if i < 21 {
      PlanIsRanked(i);
    } else if i < 28 {
      ProviderIsRanked(i);
    } else {
      RestIsRanked(i);
    }
  }

  lemma BudgetIsRanked(i: nat)
    requires i < 14
    ensures i < |REVIEWED| && Rank(REVIEWED[i].name) == i
  {
  }

  lemma PlanIsRanked(i: nat)
    requires 14 <= i < 21
    ensures i < |REVIEWED| && Rank(REVIEWED[i].name) == i
  {
  }

  lemma ProviderIsRanked(i: nat)
    requires 21 <= i < 28
    ensures i < |REVIEWED| && Rank(REVIEWED[i].name) == i
  {
  }

  lemma RestIsRanked(i: nat)
    requires 28 <= i < |REVIEWED|
    ensures Rank(REVIEWED[i].name) == i
  {
  }

  lemma ReviewedDefaultsAreSafe(i: nat)
    requires i < |REVIEWED|
    ensures SafeDefault(REVIEWED[i])
  {
  }

  lemma ReviewedIsDistinct()
    ensures Distinct(REVIEWED)
  {
    hide REVIEWED, Rank;
    forall i, j | 0 <= i < j < |REVIEWED| ensures REVIEWED[i].name != REVIEWED[j].name {
      ReviewedIsRanked(i);
      ReviewedIsRanked(j);
    }
  }

  // -- the reviewed envelope itself ----------------------------------------------------------------

  lemma {:induction false} ReviewedValuesAre(registry: seq<Dimension>)
    requires Distinct(registry)
    ensures forall i :: 0 <= i < |registry| ==>
              Resolved(ReviewedValues(registry), registry[i].name) == Some(registry[i].reviewed)
  {
    if registry != [] {
      var n := |registry| - 1;
      ReviewedValuesAre(registry[..n]);
      forall i | 0 <= i < |registry|
        ensures Resolved(ReviewedValues(registry), registry[i].name) == Some(registry[i].reviewed)
      {
        if i < n {
          assert registry[..n][i] == registry[i] && registry[i].name != registry[n].name;
        }
      }
    }
  }

  /** Every dimension configured at its reviewed number, where it has a key. */
  ghost predicate PinsTheReviewed(registry: seq<Dimension>, env: Environment) {
    forall i :: 0 <= i < |registry| ==>
      RawOf(env, registry[i]) == if registry[i].hasEnvKey then Number(registry[i].reviewed) else Blank
  }

  /** A readable number where there is a key, and that very default where not. */
  predicate CanBePinned(d: Dimension) {
    if d.hasEnvKey then Parse(d, Number(d.reviewed)).Some? else d.runtimeDefault == Some(d.reviewed)
  }

  lemma {:induction false} PinnedValuesAre(registry: seq<Dimension>, env: Environment)
    requires PinsTheReviewed(registry, env) && forall i :: 0 <= i < |registry| ==> CanBePinned(registry[i])
    ensures Values(registry, env, true) == ReviewedValues(registry) && Refusals(registry, env, true) == []
  {
    hide RawOf, Parse;
    if registry != [] {
      var n := |registry| - 1;
      assert PinsTheReviewed(registry[..n], env) by {
        assert forall i :: 0 <= i < n ==> registry[..n][i] == registry[i];
      }
      PinnedValuesAre(registry[..n], env);
      PinnedIs(registry[n], RawOf(env, registry[n]));
    }
  }

  lemma PinnedIs(d: Dimension, raw: Raw)
    requires CanBePinned(d) && raw == if d.hasEnvKey then Number(d.reviewed) else Blank
    ensures Refusal(d, raw, true).None? && ValueOf(d, raw, true) == Some(d.reviewed)
  {
  }

  /** A paid deployment pinned to the reviewed envelope runs on exactly that
      envelope, and is accepted exactly when the envelope is consistent. */
  lemma PinnedIsAcceptedIff(registry: seq<Dimension>, env: Environment)
    requires PinsTheReviewed(registry, env) && forall i :: 0 <= i < |registry| ==> CanBePinned(registry[i])
    requires env.catalogPromotion ==> env.catalogRead
    ensures Values(registry, env, true) == ReviewedValues(registry)
    ensures Accepted(registry, env, true) <==> ReviewedConsistent(registry)
  {
    hide Values, Refusals, AboveHardCap, OutlivesTheWorker, Complete, CanBePinned, PinsTheReviewed, LeaseAdmitsRoles;
    PinnedValuesAre(registry, env);
  }

  /** The reviewed number of the dimension at this place. */
  predicate Says(i: nat, name: Name, limit: real) {
    i < |REVIEWED| && REVIEWED[i].name == name && REVIEWED[i].reviewed == limit
  }

  lemma RunLimitsAre()
    ensures Says(0, MaxModelCallsPerRun, 150.0) && Says(1, MaxInputTokensPerRun, 500000.0)
    ensures Says(2, MaxOutputTokensPerRun, 400000.0) && Says(3, MaxTotalTokensPerRun, 900000.0)
    ensures Says(4, MaxEstimatedCostPerRun, 3.0) && Says(5, MaxCostPerRun, 3.0)
    ensures Says(6, MaxRunDurationSeconds, 1800.0) && Says(7, MaxAgentSteps, 56.0)
  {
  }

  lemma PlanAndProviderLimitsAre()
    ensures Says(14, MaxTasks, 23.0) && Says(16, MaxReplans, 1.0) && Says(21, ProviderMaxConcurrency, 2.0)
    ensures Says(22, ProviderRpmLimit, 40.0) && Says(23, ProviderTpmLimit, 1200000.0)
    ensures Says(35, HardMonetaryCapUsd, 3.0)
  {
  }

  lemma ReviewedLimit(i: nat, name: Name, limit: real)
    requires Says(i, name, limit)
    ensures Resolved(ReviewedValues(REVIEWED), name) == Some(limit)
  {
    ReviewedIsDistinct();
    hide REVIEWED;
    ReviewedValuesAre(REVIEWED);
  }

  lemma TheReviewedRegistryIsConsistent()
    ensures ReviewedConsistent(REVIEWED) && forall i :: 0 <= i < |REVIEWED| ==> CanBePinned(REVIEWED[i])
  {
    RunLimitsAre();
    PlanAndProviderLimitsAre();
    hide REVIEWED, ReviewedValues, CanBePinned, Says;
    ReviewedLimit(0, MaxModelCallsPerRun, 150.0);
    ReviewedLimit(1, MaxInputTokensPerRun, 500000.0);
    ReviewedLimit(2, MaxOutputTokensPerRun, 400000.0);
    ReviewedLimit(3, MaxTotalTokensPerRun, 900000.0);
    ReviewedLimit(4, MaxEstimatedCostPerRun, 3.0);
    ReviewedLimit(5, MaxCostPerRun, 3.0);
    ReviewedLimit(6, MaxRunDurationSeconds, 1800.0);
    ReviewedLimit(7, MaxAgentSteps, 56.0);
    ReviewedLimit(14, MaxTasks, 23.0);
    ReviewedLimit(16, MaxReplans, 1.0);
    ReviewedLimit(21, ProviderMaxConcurrency, 2.0);
    ReviewedLimit(22, ProviderRpmLimit, 40.0);
    ReviewedLimit(23, ProviderTpmLimit, 1200000.0);
    ReviewedLimit(35, HardMonetaryCapUsd, 3.0);
    forall i | 0 <= i < |REVIEWED| ensures CanBePinned(REVIEWED[i]) {
      ReviewedCanBePinned(i);
    }
  }

  lemma ReviewedCanBePinned(i: nat)
    requires i < |REVIEWED|
    ensures CanBePinned(REVIEWED[i])
  {
  }

  /** The shipped registry: paid execution never runs wider than reviewed, a
      tighter deployment of it is never refused, and the envelope itself is
      consistent - so a paid deployment pinned to it is accepted. */
  lemma TheReviewedRegistryHolds(env: Environment)
    ensures WithinReviewed(REVIEWED, env)
    ensures ReviewedConsistent(REVIEWED)
    ensures PinsTheReviewed(REVIEWED, env) && (env.catalogPromotion ==> env.catalogRead) ==>
              Accepted(REVIEWED, env, true) && Values(REVIEWED, env, true) == ReviewedValues(REVIEWED)
    ensures forall tighter, paid :: Accepted(REVIEWED, env, paid) && Tightens(REVIEWED, env, tighter) ==>
        Accepted(REVIEWED, tighter, paid)
  {
    ReviewedIsDistinct();
    MoneyAndTimeAreReviewed();
    TheReviewedRegistryIsConsistent();
    hide REVIEWED, Rank, CanBePinned, PinsTheReviewed, ValuesConsistent, Complete, SafeDefault, WithinReviewed;
    hide Accepted, Tightens, MoneyAndTimeTighten;
    forall i | 0 <= i < |REVIEWED| ensures SafeDefault(REVIEWED[i]) {
      ReviewedDefaultsAreSafe(i);
    }
    PaidNeverRunsWiderIff(REVIEWED);
    if PinsTheReviewed(REVIEWED, env) && (env.catalogPromotion ==> env.catalogRead) {
      PinnedIsAcceptedIff(REVIEWED, env);
    }
    forall tighter, paid | Accepted(REVIEWED, env, paid) && Tightens(REVIEWED, env, tighter)
      ensures Accepted(REVIEWED, tighter, paid)
    {
      TighteningStaysAccepted(REVIEWED, env, tighter, paid, 35, 4, 5, 6);
    }
  }

  lemma MoneyAndTimeAreReviewed()
    ensures MoneyAndTimeTighten(REVIEWED, 35, 4, 5, 6)
  {
  }
}
