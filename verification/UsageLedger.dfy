/**
  The cumulative usage record of one run: how a durable record is parsed, how
  several are folded into the most advanced of them, and what they leave to spend.
 */
module UsageLedger {
  import opened Common

  datatype Field =
    | ModelCalls | ProviderAttempts | ProviderFailures | InputTokens | OutputTokens | Retries
    | BackpressureEvents | AgentSteps | ToolCalls | TasksCompleted | TasksFailed | SearchInvocations
    | Replans | CorrectionRounds | CachedInputTokens | CacheWriteTokens | ReasoningTokens
    | ReasoningTokensEstimated | ReasoningEstimatedCalls | AnswerTokens
    | EstimatedCost | ActualCost | SearchCost | ElapsedSeconds
    | LedgerVersion | SchemaVersion
    | TotalTokens
    | Unknown(name: string)

  const COUNTERS: seq<Field> := [
    ModelCalls, ProviderAttempts, ProviderFailures, InputTokens, OutputTokens, Retries,
    BackpressureEvents, AgentSteps, ToolCalls, TasksCompleted, TasksFailed, SearchInvocations,
    Replans, CorrectionRounds, CachedInputTokens, CacheWriteTokens, ReasoningTokens,
    ReasoningTokensEstimated, ReasoningEstimatedCalls, AnswerTokens]
  const AMOUNTS: seq<Field> := [EstimatedCost, ActualCost, SearchCost, ElapsedSeconds]
  const METADATA: seq<Field> := [LedgerVersion, SchemaVersion]

  /** A JSON value. NaN, infinities, booleans, strings and the rest are `Other`. */
  datatype Json = Int(n: int) | Float(x: real) | Null | Other

  type Snapshot = map<Field, Json>

  predicate IsAmount(f: Field) {
    f == EstimatedCost || f == ActualCost || f == SearchCost || f == ElapsedSeconds
  }

  /** The fields a merge maximises: everything but the derived total and keys
      this release does not know. */
  predicate IsMeasured(f: Field) {
    f != TotalTokens && !f.Unknown?
  }

  /** The three lists a merge walks hold exactly the measured fields. */
  lemma FieldsAreCovered(f: Field)
    ensures f in COUNTERS || f in METADATA <==> IsMeasured(f) && !IsAmount(f)
    ensures f in AMOUNTS <==> IsAmount(f)
    ensures f in COUNTERS || f in METADATA || f in AMOUNTS <==> IsMeasured(f)
  {
    ListsHoldMeasured(f);
    MeasuredIsListed(f);
  }

  lemma ListsHoldMeasured(f: Field)
    ensures f in COUNTERS || f in METADATA ==> IsMeasured(f) && !IsAmount(f)
    ensures f in AMOUNTS ==> IsAmount(f)
  {
    if f in COUNTERS {
      CountersAreMeasured(f);
    }
  }

  lemma CountersAreMeasured(f: Field)
    requires f in COUNTERS
    ensures IsMeasured(f) && !IsAmount(f)
  {
    var i :| 0 <= i < |COUNTERS| && COUNTERS[i] == f;
    assert |COUNTERS| == 20;
    CounterIsMeasured(i);
  }

  lemma CounterIsMeasured(i: nat)
    requires i < |COUNTERS|
    ensures IsMeasured(COUNTERS[i]) && !IsAmount(COUNTERS[i])
  {
    assert |COUNTERS| == 20;
    if i < 7 {
      FirstCounters(i);
    } else if i < 14 {
      MiddleCounters(i);
    } else {
      LastCounters(i);
    }
  }

  lemma FirstCounters(i: nat)
    requires i < 7
    ensures i < |COUNTERS| && IsMeasured(COUNTERS[i]) && !IsAmount(COUNTERS[i])
  {
  }

  lemma MiddleCounters(i: nat)
    requires 7 <= i < 14
    ensures i < |COUNTERS| && IsMeasured(COUNTERS[i]) && !IsAmount(COUNTERS[i])
  {
  }

  lemma LastCounters(i: nat)
    requires 14 <= i < |COUNTERS|
    ensures IsMeasured(COUNTERS[i]) && !IsAmount(COUNTERS[i])
  {
  }

  lemma MeasuredIsListed(f: Field)
    ensures IsMeasured(f) && !IsAmount(f) ==> f in COUNTERS || f in METADATA
    ensures IsAmount(f) ==> f in AMOUNTS
  {
    match f
    case ModelCalls => assert COUNTERS[0] == f;
    case ProviderAttempts => assert COUNTERS[1] == f;
    case ProviderFailures => assert COUNTERS[2] == f;
    case InputTokens => assert COUNTERS[3] == f;
    case OutputTokens => assert COUNTERS[4] == f;
    case Retries => assert COUNTERS[5] == f;
    case BackpressureEvents => assert COUNTERS[6] == f;
    case AgentSteps => assert COUNTERS[7] == f;
    case ToolCalls => assert COUNTERS[8] == f;
    case TasksCompleted => assert COUNTERS[9] == f;
    case TasksFailed => assert COUNTERS[10] == f;
    case SearchInvocations => assert COUNTERS[11] == f;
    case Replans => assert COUNTERS[12] == f;
    case CorrectionRounds => assert COUNTERS[13] == f;
    case CachedInputTokens => assert COUNTERS[14] == f;
    case CacheWriteTokens => assert COUNTERS[15] == f;
    case ReasoningTokens => assert COUNTERS[16] == f;
    case ReasoningTokensEstimated => assert COUNTERS[17] == f;
    case ReasoningEstimatedCalls => assert COUNTERS[18] == f;
    case AnswerTokens => assert COUNTERS[19] == f;
    case EstimatedCost => assert AMOUNTS[0] == f;
    case ActualCost => assert AMOUNTS[1] == f;
    case SearchCost => assert AMOUNTS[2] == f;
    case ElapsedSeconds => assert AMOUNTS[3] == f;
    case LedgerVersion => assert METADATA[0] == f;
    case SchemaVersion => assert METADATA[1] == f;
    case TotalTokens =>
    case Unknown(_) =>
  }

  function Num(j: Json): real
    requires j.Int? || j.Float?
  {
    if j.Int? then j.n as real else j.x
  }

  predicate ValidValue(f: Field, j: Json) {
    if IsAmount(f) then (j.Int? || j.Float?) && Num(j) >= 0.0
    else j.Int? && j.n >= 0
  }

  /** What a record says about one field. */
  function At(s: Snapshot, f: Field): Option<Json> {
    if f in s then Some(s[f]) else None
  }

  lemma SameEverywhere(a: Snapshot, b: Snapshot)
    requires forall f :: At(a, f) == At(b, f)
    ensures a == b
  {
    forall f ensures f in a <==> f in b {
      assert At(a, f) == At(b, f);
    }
    forall f | f in a ensures a[f] == b[f] {
      assert At(a, f) == At(b, f);
    }
  }

  function CounterOf(s: Snapshot, f: Field): Json {
    if f in s then s[f] else Int(0)
  }

  /** A declared total that is present must be the sum of its components. */
  predicate ConsistentTotal(s: Snapshot) {
    TotalTokens in s && s[TotalTokens] != Null ==>
      && s[TotalTokens].Int? && s[TotalTokens].n >= 0
      && CounterOf(s, InputTokens).Int? && CounterOf(s, OutputTokens).Int?
      && s[TotalTokens].n == CounterOf(s, InputTokens).n + CounterOf(s, OutputTokens).n
  }

  predicate ValidAt(s: Snapshot, f: Field) {
    f in s && IsMeasured(f) ==> ValidValue(f, s[f])
  }

  ghost predicate Valid(s: Snapshot) {
    (forall f :: ValidAt(s, f)) && ConsistentTotal(s)
  }

  predicate Absent(s: Snapshot, f: Field) {
    f !in s || s[f] == Null
  }

  /**
    When a record is valid, told from its values: amounts are numbers and counters
    whole numbers, neither negative; and a total, where there is one, is the sum of
    an input and an output that count as nothing only when they are missing.
   */
  lemma ValidIff(s: Snapshot)
    ensures Valid(s) <==>
              && (forall f :: f in s && f in {EstimatedCost, ActualCost, SearchCost, ElapsedSeconds} ==>
                    (s[f].Int? && s[f].n >= 0) || (s[f].Float? && s[f].x >= 0.0))
              && (forall f :: f in s && !f.Unknown? ==>
                    f in {EstimatedCost, ActualCost, SearchCost, ElapsedSeconds, TotalTokens}
                    || (s[f].Int? && s[f].n >= 0))
              && (Absent(s, TotalTokens)
                  || (var input := if InputTokens in s && s[InputTokens].Int? then s[InputTokens].n else 0;
                      var output := if OutputTokens in s && s[OutputTokens].Int? then s[OutputTokens].n else 0;
                      s[TotalTokens] == Int(input + output)))
  {
    if Valid(s) {
      assert ValidAt(s, InputTokens) && ValidAt(s, OutputTokens);
      forall f | f in s ensures ValidAt(s, f) {
      }
    } else if forall f :: ValidAt(s, f) {
      assert ValidAt(s, InputTokens) && ValidAt(s, OutputTokens);
    }
  }

  /** Amounts are stored as floats, counters as they are. */
  function Parsed(f: Field, j: Json): Json {
    if IsAmount(f) && j.Int? then Float(j.n as real) else j
  }

  /** What a valid record contributes to a merge, field by field. */
  function Measure(s: Snapshot, f: Field): Option<Json> {
    if f in s && IsMeasured(f) then Some(Parsed(f, s[f])) else None
  }

  // -- parsing -------------------------------------------------------------------

  method ParseFields(fields: seq<Field>, s: Snapshot, before: Snapshot) returns (r: Option<Snapshot>)
    requires forall f :: f in fields ==> IsMeasured(f)
    ensures r.Some? <==> forall f :: f in fields ==> ValidAt(s, f)
    ensures r.Some? ==> forall f :: At(r.value, f) == if f in fields && f in s then Measure(s, f) else At(before, f)
  {
    hide ValidValue, Parsed, IsMeasured;
    var parsed := before;
    for i := 0 to |fields|
      invariant forall f :: f in fields[..i] ==> ValidAt(s, f)
      invariant forall f :: At(parsed, f) == if f in fields[..i] && f in s then Measure(s, f) else At(before, f)
    {
      var f := fields[i];
      assert fields[..i + 1] == fields[..i] + [f];
      if f in s {
        if !ValidValue(f, s[f]) {
          assert !ValidAt(s, f);
          return None;
        }
        parsed := parsed[f := Parsed(f, s[f])];
      }
    }
    assert fields[..|fields|] == fields;
    return Some(parsed);
  }

  /** Parse one record, failing closed: it is accepted exactly when every known
      value is valid and a declared total is the sum of its parts. */
  method ValidateUsageSnapshot(s: Snapshot) returns (r: Option<Snapshot>)
    ensures r.Some? <==> Valid(s)
    ensures r.Some? ==> forall f :: IsMeasured(f) ==> At(r.value, f) == Measure(s, f)
    ensures r.Some? ==> forall f :: !IsMeasured(f) ==>
              At(r.value, f) == if f == TotalTokens && f in s && s[f] != Null then Some(s[f]) else None
  {
    hide ValidValue, Parsed;
    forall f ensures f in COUNTERS || f in METADATA <==> IsMeasured(f) && !IsAmount(f)
             ensures f in AMOUNTS <==> IsAmount(f)
    {
      FieldsAreCovered(f);
    }
    hide COUNTERS, METADATA, AMOUNTS, IsAmount;
    r := ParseFields(COUNTERS, s, map[]);
    if r.None? {
      return;
    }
    r := ParseFields(AMOUNTS, s, r.value);
    if r.None? {
      return;
    }
    r := ParseFields(METADATA, s, r.value);
    if r.None? {
      return;
    }
    if TotalTokens in s && s[TotalTokens] != Null {
      if !ConsistentTotal(s) {
        return None;
      }
      return Some(r.value[TotalTokens := s[TotalTokens]]);
    }
  }

  // -- merging -------------------------------------------------------------------

  predicate NormalAt(f: Field, o: Option<Json>) {
    o.Some? ==> IsMeasured(f)
                && (if IsAmount(f) then o.value.Float? && o.value.x >= 0.0 else o.value.Int? && o.value.n >= 0)
  }

  /** Parsed measures: each of its own kind, non-negative. */
  ghost predicate Normal(m: Snapshot) {
    forall f :: NormalAt(f, At(m, f))
  }

  function Larger(a: Json, b: Json): Json {
    if (a.Int? && b.Int? && a.n < b.n) || (a.Float? && b.Float? && a.x < b.x) then b else a
  }

  function JoinAt(a: Option<Json>, b: Option<Json>): Option<Json> {
    if a.None? then b else if b.None? then a else Some(Larger(a.value, b.value))
  }

  /** The component-wise maximum of two parsed records. */
  function Join(a: Snapshot, b: Snapshot): (m: Snapshot)
    ensures forall f :: At(m, f) == JoinAt(At(a, f), At(b, f))
  {
    map f | f in a.Keys + b.Keys :: JoinAt(At(a, f), At(b, f)).value
  }

  lemma JoinStaysNormal(a: Snapshot, b: Snapshot)
    requires Normal(a) && Normal(b)
    ensures Normal(Join(a, b))
  {
    forall f ensures NormalAt(f, At(Join(a, b), f)) {
      assert NormalAt(f, At(a, f)) && NormalAt(f, At(b, f));
    }
  }

  /** On one field, the maximum of values of one kind is a semilattice. */
  lemma JoinAtLaws(f: Field, a: Option<Json>, b: Option<Json>, c: Option<Json>)
    requires NormalAt(f, a) && NormalAt(f, b) && NormalAt(f, c)
    ensures JoinAt(a, b) == JoinAt(b, a)
    ensures JoinAt(a, JoinAt(b, c)) == JoinAt(JoinAt(a, b), c)
    ensures JoinAt(a, a) == a
  {
  }

  lemma JoinLaws(a: Snapshot, b: Snapshot, c: Snapshot)
    requires Normal(a) && Normal(b) && Normal(c)
    ensures Join(a, b) == Join(b, a)
    ensures Join(a, Join(b, c)) == Join(Join(a, b), c)
    ensures Join(a, a) == a
    ensures Join(a, map[]) == a == Join(map[], a)
  {
    hide JoinAt, Join;
    forall f
      ensures At(Join(a, b), f) == At(Join(b, a), f)
      ensures At(Join(a, Join(b, c)), f) == At(Join(Join(a, b), c), f)
      ensures At(Join(a, a), f) == At(a, f)
    {
      assert NormalAt(f, At(a, f)) && NormalAt(f, At(b, f)) && NormalAt(f, At(c, f));
      JoinAtLaws(f, At(a, f), At(b, f), At(c, f));
    }
    SameEverywhere(Join(a, b), Join(b, a));
    SameEverywhere(Join(a, Join(b, c)), Join(Join(a, b), c));
    SameEverywhere(Join(a, a), a);
    JoinNothing(a);
  }

  lemma JoinNothing(a: Snapshot)
    ensures Join(a, map[]) == a == Join(map[], a)
  {
    SameEverywhere(Join(a, map[]), a);
    SameEverywhere(Join(map[], a), a);
  }

  function Measures(s: Snapshot): (m: Snapshot)
    ensures forall f :: At(m, f) == Measure(s, f)
  {
    map f | f in s && IsMeasured(f) :: Parsed(f, s[f])
  }

  lemma MeasuresAreNormal(s: Snapshot)
    requires Valid(s)
    ensures Normal(Measures(s))
  {
    forall f ensures NormalAt(f, At(Measures(s), f)) {
      assert ValidAt(s, f);
    }
  }

  /** A missing, empty or non-object record contributes nothing. */
  predicate Contributes(s: Option<Snapshot>) {
    s.Some? && s.value != map[]
  }

  ghost predicate Acceptable(s: Option<Snapshot>) {
    Contributes(s) ==> Valid(s.value)
  }

  ghost predicate AllAcceptable(records: seq<Option<Snapshot>>) {
    forall i :: 0 <= i < |records| ==> Acceptable(records[i])
  }

  function Contribution(s: Option<Snapshot>): Snapshot {
    if Contributes(s) then Measures(s.value) else map[]
  }

  function Folded(records: seq<Option<Snapshot>>): Snapshot {
    if records == [] then map[]
    else Join(Folded(records[..|records| - 1]), Contribution(records[|records| - 1]))
  }

  /** The derived total is recomputed, never maximised. */
  function WithTotal(m: Snapshot): Snapshot {
    if InputTokens in m || OutputTokens in m
    then m[TotalTokens := Int(Whole(m, InputTokens) + Whole(m, OutputTokens))]
    else m
  }

  function Whole(m: Snapshot, f: Field): int {
    if f in m && m[f].Int? then m[f].n else 0
  }

  /** What merging acceptable records means. */
  function Merged(records: seq<Option<Snapshot>>): Snapshot {
    WithTotal(Folded(records))
  }

  lemma ContributionIsNormal(s: Option<Snapshot>)
    requires Acceptable(s)
    ensures Normal(Contribution(s))
  {
    if Contributes(s) {
      MeasuresAreNormal(s.value);
    }
  }

  lemma {:induction false} FoldedIsNormal(records: seq<Option<Snapshot>>)
    requires AllAcceptable(records)
    ensures Normal(Folded(records))
  {
    if records != [] {
      var n := |records| - 1;
      FoldedIsNormal(records[..n]);
      ContributionIsNormal(records[n]);
      JoinStaysNormal(Folded(records[..n]), Contribution(records[n]));
    }
  }

  // -- the method that merges ------------------------------------------------------

  method MergeFields(fields: seq<Field>, merged: Snapshot, parsed: Snapshot) returns (r: Snapshot)
    requires forall f :: f in fields ==> IsMeasured(f) && NormalAt(f, At(parsed, f))
    ensures forall f :: At(r, f) == if f in fields then JoinAt(At(merged, f), At(parsed, f)) else At(merged, f)
  {
    r := merged;
    for i := 0 to |fields|
      invariant forall f :: At(r, f) == if f in fields[..i] then JoinAt(At(merged, f), At(parsed, f)) else At(merged, f)
    {
      var f := fields[i];
      assert fields[..i + 1] == fields[..i] + [f];
      if f in parsed {
        assert NormalAt(f, At(parsed, f));
        // A name listed twice would be maximised twice, with the same result.
        var current := if f in r then r[f] else if IsAmount(f) then Float(0.0) else Int(0);
        assert JoinAt(Some(current), At(parsed, f)) == JoinAt(At(r, f), At(parsed, f));
        r := r[f := Larger(current, parsed[f])];
      }
    }
    assert fields[..|fields|] == fields;
  }

  /** Walk the three lists: together they are the component-wise maximum. */
  method MergeMeasured(merged: Snapshot, parsed: Snapshot, measures: Snapshot) returns (r: Snapshot)
    requires Normal(merged) && Normal(measures)
    requires forall f :: IsMeasured(f) ==> At(parsed, f) == At(measures, f)
    ensures r == Join(merged, measures)
  {
    hide Normal, JoinAt, IsMeasured, IsAmount, COUNTERS, METADATA, AMOUNTS, NormalAt;
    forall f ensures f in COUNTERS || f in METADATA || f in AMOUNTS <==> IsMeasured(f)
             ensures f in AMOUNTS ==> f !in COUNTERS && f !in METADATA
    {
      FieldsAreCovered(f);
    }
    forall f ensures NormalAt(f, At(measures, f)) && (!IsMeasured(f) ==> At(merged, f) == At(measures, f) == None) {
      NormalMeasures(merged, f);
      NormalMeasures(measures, f);
    }
    r := MergeFields(COUNTERS + METADATA, merged, parsed);
    r := MergeFields(AMOUNTS, r, parsed);
    forall f ensures At(r, f) == At(Join(merged, measures), f) {
      NothingJoins(f, At(merged, f));
    }
    SameEverywhere(r, Join(merged, measures));
  }

  lemma NormalMeasures(m: Snapshot, f: Field)
    requires Normal(m)
    ensures NormalAt(f, At(m, f)) && (!IsMeasured(f) ==> At(m, f) == None)
  {
    assert NormalAt(f, At(m, f));
  }

  lemma NothingJoins(f: Field, o: Option<Json>)
    ensures JoinAt(o, None) == o == JoinAt(None, o)
  {
  }

  /** Fold durable records of one run into the most advanced of them, or
      refuse if any record that says anything is invalid. */
  method MergeUsageSnapshots(records: seq<Option<Snapshot>>) returns (r: Option<Snapshot>)
    ensures r.Some? <==> AllAcceptable(records)
    ensures r.Some? ==> r.value == Merged(records)
  {
    hide Valid, Measure, Normal, JoinAt, IsMeasured, Join, At, COUNTERS, METADATA, AMOUNTS, Measures;
    var merged: Snapshot := map[];
    for i := 0 to |records|
      invariant AllAcceptable(records[..i]) && merged == Folded(records[..i])
    {
      var before := records[..i];
      assert records[..i + 1] == before + [records[i]];
      assert records[..i + 1][..i] == before;
      if Contributes(records[i]) {
        var parsed := ValidateUsageSnapshot(records[i].value);
        if parsed.None? {
          assert !Acceptable(records[i]);
          return None;
        }
        MeasuresAreNormal(records[i].value);
        FoldedIsNormal(before);
        MeasuresAgree(records[i].value, parsed.value);
        merged := MergeMeasured(merged, parsed.value, Measures(records[i].value));
      } else {
        JoinNothing(merged);
      }
    }
    assert records[..|records|] == records;
    if InputTokens in merged || OutputTokens in merged {
      merged := merged[TotalTokens := Int(Whole(merged, InputTokens) + Whole(merged, OutputTokens))];
    }
    return Some(merged);
  }

  lemma MeasuresAgree(s: Snapshot, parsed: Snapshot)
    requires forall f :: IsMeasured(f) ==> At(parsed, f) == Measure(s, f)
    ensures forall f :: IsMeasured(f) ==> At(parsed, f) == At(Measures(s), f)
  {
  }

  // -- what merging promises ---------------------------------------------------------

  lemma {:induction false} FoldedConcat(a: seq<Option<Snapshot>>, b: seq<Option<Snapshot>>)
    requires AllAcceptable(a) && AllAcceptable(b)
    ensures Folded(a + b) == Join(Folded(a), Folded(b))
  {
    hide Normal, Acceptable, Join, Contribution;
    if b == [] {
      assert a + b == a;
      JoinNothing(Folded(a));
    } else {
      var n := |b| - 1;
      FoldedConcat(a, b[..n]);
      assert (a + b)[..|a + b| - 1] == a + b[..n];
      FoldedIsNormal(a);
      FoldedIsNormal(b[..n]);
      ContributionIsNormal(b[n]);
      JoinLaws(Folded(a), Folded(b[..n]), Contribution(b[n]));
    }
  }

  /** One record set aside, the rest may be folded first. */
  lemma FoldedWithout(p: seq<Option<Snapshot>>, x: Option<Snapshot>, q: seq<Option<Snapshot>>)
    requires AllAcceptable(p) && Acceptable(x) && AllAcceptable(q)
    ensures Folded(p + [x] + q) == Join(Folded(p + q), Contribution(x))
  {
    hide Normal, Acceptable, Join, Contribution;
    FoldedConcat(p + [x], q);
    assert (p + [x])[..|p|] == p;
    FoldedConcat(p, q);
    FoldedIsNormal(p);
    FoldedIsNormal(q);
    ContributionIsNormal(x);
    JoinLaws(Folded(p), Contribution(x), Folded(q));
    JoinLaws(Contribution(x), Folded(q), Folded(p));
    JoinLaws(Folded(p), Folded(q), Contribution(x));
  }

  /** The order in which durable sources are read does not matter. */
  lemma {:induction false} MergeIgnoresOrder(a: seq<Option<Snapshot>>, b: seq<Option<Snapshot>>)
    requires multiset(a) == multiset(b) && AllAcceptable(a)
    ensures AllAcceptable(b) && Merged(a) == Merged(b)
  {
    forall i | 0 <= i < |b| ensures Acceptable(b[i]) {
      assert b[i] in multiset(b);
      assert b[i] in a;
    }
    PermutedFold(a, b);
  }

  lemma {:induction false} PermutedFold(a: seq<Option<Snapshot>>, b: seq<Option<Snapshot>>)
    requires multiset(a) == multiset(b) && AllAcceptable(a) && AllAcceptable(b)
    ensures Folded(a) == Folded(b)
  {
    hide Acceptable, Join, Contribution;
    if a == [] {
      assert |multiset(b)| == 0;
      assert b == [];
    } else {
      var n := |a| - 1;
      var x := a[n];
      var k := SameBagWithout(a, b);
      var p, q := b[..k], b[k + 1..];
      assert b == p + [x] + q;
      PermutedFold(a[..n], p + q);
      FoldedWithout(p, x, q);
    }
  }

  /** The last element of one ordering, taken out of both. */
  lemma SameBagWithout(a: seq<Option<Snapshot>>, b: seq<Option<Snapshot>>) returns (k: nat)
    requires multiset(a) == multiset(b) && a != []
    ensures k < |b| && b[k] == a[|a| - 1]
    ensures multiset(a[..|a| - 1]) == multiset(b[..k] + b[k + 1..])
  {
    var n := |a| - 1;
    assert a == a[..n] + [a[n]];
    assert a[n] in multiset(b);
    k :| 0 <= k < |b| && b[k] == a[n];
    assert b == b[..k] + [a[n]] + b[k + 1..];
    assert multiset(a[..n]) == multiset(a) - multiset{a[n]};
  }

  lemma NormalWhole(m: Snapshot)
    requires Normal(m)
    ensures Whole(m, InputTokens) >= 0 && Whole(m, OutputTokens) >= 0
    ensures InputTokens in m ==> m[InputTokens].Int?
    ensures OutputTokens in m ==> m[OutputTokens].Int?
    ensures TotalTokens !in m
  {
    assert NormalAt(InputTokens, At(m, InputTokens)) && NormalAt(OutputTokens, At(m, OutputTokens));
    assert NormalAt(TotalTokens, At(m, TotalTokens));
  }

  /** The result of a merge is itself a valid record with a consistent total,
      and says nothing but what was folded. */
  lemma MergedIsValid(records: seq<Option<Snapshot>>)
    requires AllAcceptable(records)
    ensures Valid(Merged(records)) && Measures(Merged(records)) == Folded(records)
    ensures InputTokens in Merged(records) || OutputTokens in Merged(records) ==> TotalTokens in Merged(records)
  {
    var m, r := Folded(records), Merged(records);
    FoldedIsNormal(records);
    NormalWhole(m);
    forall f ensures ValidAt(r, f) && At(Measures(r), f) == At(m, f) {
      assert NormalAt(f, At(m, f));
    }
    SameEverywhere(Measures(r), m);
  }

  lemma {:induction false} MergedContributes(records: seq<Option<Snapshot>>)
    requires AllAcceptable(records)
    ensures Acceptable(Some(Merged(records))) && Contribution(Some(Merged(records))) == Folded(records)
  {
    MergedIsValid(records);
  }

  /** Merging merges is merging everything at once: associativity, for any
      grouping of any number of records. */
  lemma MergeOfMerges(a: seq<Option<Snapshot>>, b: seq<Option<Snapshot>>)
    requires AllAcceptable(a) && AllAcceptable(b)
    ensures AllAcceptable([Some(Merged(a)), Some(Merged(b))])
    ensures Merged([Some(Merged(a)), Some(Merged(b))]) == Merged(a + b)
  {
    MergedContributes(a);
    MergedContributes(b);
    FoldedConcat(a, b);
    FoldedPair(Some(Merged(a)), Some(Merged(b)));
  }

  lemma FoldedPair(x: Option<Snapshot>, y: Option<Snapshot>)
    ensures Folded([x, y]) == Join(Contribution(x), Contribution(y))
  {
    hide Join, Contribution;
    assert [x, y][..1] == [x];
    FoldedOne(x);
  }

  lemma FoldedOne(x: Option<Snapshot>)
    ensures Folded([x]) == Contribution(x)
  {
    hide Join, Contribution;
    assert [x][..0] == [];
    JoinNothing(Contribution(x));
  }

  /** A record merged with itself, or with what it already merged into, adds nothing. */
  lemma MergeIsIdempotent(records: seq<Option<Snapshot>>)
    requires AllAcceptable(records)
    ensures Merged(records + records) == Merged(records)
    ensures Merged([Some(Merged(records))]) == Merged(records)
  {
    FoldedConcat(records, records);
    FoldedIsNormal(records);
    JoinLaws(Folded(records), Folded(records), Folded(records));
    MergedContributes(records);
    FoldedOne(Some(Merged(records)));
  }

  /** What a valid record says was consumed on one dimension. */
  function Used(s: Snapshot, f: Field): real {
    if f == TotalTokens then (Whole(s, InputTokens) + Whole(s, OutputTokens)) as real
    else if f in s && (s[f].Int? || s[f].Float?) then Num(s[f]) else 0.0
  }

  lemma JoinUses(a: Snapshot, b: Snapshot, f: Field)
    requires Normal(a) && Normal(b) && IsMeasured(f)
    ensures Used(Join(a, b), f) == Max(Used(a, f), Used(b, f))
    ensures !IsAmount(f) ==> Whole(Join(a, b), f) == MaxInt(Whole(a, f), Whole(b, f))
  {
    assert NormalAt(f, At(a, f)) && NormalAt(f, At(b, f));
    assert At(Join(a, b), f) == JoinAt(At(a, f), At(b, f));
  }

  /** On every measured dimension the merge shows the largest consumption any
      record shows: never less than one of them, never more than all. */
  lemma {:induction false} MergeIsTheMaximum(records: seq<Option<Snapshot>>, f: Field)
    requires AllAcceptable(records) && IsMeasured(f)
    ensures forall i :: 0 <= i < |records| ==> Used(Contribution(records[i]), f) <= Used(Folded(records), f)
    ensures Used(Folded(records), f) == 0.0
            || exists i :: 0 <= i < |records| && Used(Contribution(records[i]), f) == Used(Folded(records), f)
  {
    hide Used, Join, Contribution, Acceptable, Normal;
    if records == [] {
      assert Used(map[], f) == 0.0 by { NothingUsed(f); }
    } else {
      var n := |records| - 1;
      MergeIsTheMaximum(records[..n], f);
      FoldedIsNormal(records[..n]);
      ContributionIsNormal(records[n]);
      JoinUses(Folded(records[..n]), Contribution(records[n]), f);
      forall i | 0 <= i < |records| ensures Used(Contribution(records[i]), f) <= Used(Folded(records), f) {
        assert i < n ==> records[i] == records[..n][i];
      }
      if Used(Folded(records), f) != Used(Contribution(records[n]), f) && Used(Folded(records), f) != 0.0 {
        var i :| 0 <= i < n && Used(Contribution(records[..n][i]), f) == Used(Folded(records[..n]), f);
        assert Used(Contribution(records[i]), f) == Used(Folded(records), f);
      }
    }
  }

  lemma NothingUsed(f: Field)
    ensures Used(map[], f) == 0.0
  {
  }

  // -- what is left to spend -----------------------------------------------------------

  /** The dimension each enforceable limit is spent from. */
  const LIMITED: seq<Field> := [
    ModelCalls, InputTokens, OutputTokens, TotalTokens, EstimatedCost, ActualCost, ElapsedSeconds, AgentSteps, Retries]

  /** Every measured value is a number of its own kind. */
  ghost predicate Countable(s: Snapshot) {
    forall f :: f in s && IsMeasured(f) ==> s[f].Int? || (IsAmount(f) && s[f].Float?)
  }

  function Remaining(s: Snapshot, limit: real, f: Field): real {
    Max(0.0, limit - Used(s, f))
  }

  /** What is left and what was used make up the limit, until nothing is left. */
  lemma RemainingIs(s: Snapshot, limit: real, f: Field)
    ensures Remaining(s, limit, f) >= 0.0
    ensures Used(s, f) <= limit ==> Remaining(s, limit, f) + Used(s, f) == limit
    ensures Used(s, f) >= limit ==> Remaining(s, limit, f) == 0.0
    ensures f != TotalTokens && f in s && s[f].Int? ==> Used(s, f) == s[f].n as real
    ensures f != TotalTokens && f in s && s[f].Float? ==> Used(s, f) == s[f].x
    ensures f != TotalTokens && (f !in s || s[f].Null? || s[f].Other?) ==> Used(s, f) == 0.0
    ensures InputTokens in s && OutputTokens in s && s[InputTokens].Int? && s[OutputTokens].Int? ==>
              Used(s, TotalTokens) == (s[InputTokens].n + s[OutputTokens].n) as real
  {
  }

  /** Nine limits are enforceable. */
  lemma LimitsAre(f: Field)
    ensures f in LIMITED <==>
              f in {ModelCalls, InputTokens, OutputTokens, TotalTokens, EstimatedCost, ActualCost, ElapsedSeconds,
                    AgentSteps, Retries}
  {
    assert |LIMITED| == 9;
    assert LIMITED[0] == ModelCalls && LIMITED[1] == InputTokens && LIMITED[2] == OutputTokens;
    assert LIMITED[3] == TotalTokens && LIMITED[4] == EstimatedCost && LIMITED[5] == ActualCost;
    assert LIMITED[6] == ElapsedSeconds && LIMITED[7] == AgentSteps && LIMITED[8] == Retries;
  }

  method RemainingCapacity(ledger: Snapshot, limits: map<Field, real>) returns (r: map<Field, Option<real>>)
    requires Countable(ledger)
    ensures forall f :: f in r <==> f in LIMITED
    ensures forall f :: f in LIMITED ==> r[f] == if f in limits then Some(Remaining(ledger, limits[f], f)) else None
  {
    hide Used;
    r := map[];
    for i := 0 to |LIMITED|
      invariant forall f :: f in r <==> f in LIMITED[..i]
      invariant forall f :: f in LIMITED[..i] ==>
                  r[f] == if f in limits then Some(Remaining(ledger, limits[f], f)) else None
    {
      var f := LIMITED[i];
      assert LIMITED[..i + 1] == LIMITED[..i] + [f];
      r := r[f := if f in limits then Some(Max(0.0, limits[f] - Used(ledger, f))) else None];
    }
    assert LIMITED[..|LIMITED|] == LIMITED;
  }

  lemma UsedOfContribution(s: Snapshot, f: Field)
    requires Valid(s) && s != map[] && (IsMeasured(f) || f == TotalTokens)
    ensures Used(Contribution(Some(s)), f) == Used(s, f)
  {
    assert ValidAt(s, f) && ValidAt(s, InputTokens) && ValidAt(s, OutputTokens);
    assert At(Measures(s), f) == Measure(s, f);
    assert At(Measures(s), InputTokens) == Measure(s, InputTokens);
    assert At(Measures(s), OutputTokens) == Measure(s, OutputTokens);
  }

  lemma UsedOfMerged(records: seq<Option<Snapshot>>, f: Field)
    ensures IsMeasured(f) || f == TotalTokens ==> Used(Merged(records), f) == Used(Folded(records), f)
  {
  }

  lemma UsedOfWhole(s: Snapshot, f: Field)
    requires Normal(s) && (f == InputTokens || f == OutputTokens)
    ensures Used(s, f) == Whole(s, f) as real
  {
    assert NormalAt(f, At(s, f));
  }

  lemma FoldedUsesNoLess(records: seq<Option<Snapshot>>, i: nat, f: Field)
    requires AllAcceptable(records) && i < |records| && (IsMeasured(f) || f == TotalTokens)
    ensures Used(Contribution(records[i]), f) <= Used(Folded(records), f)
  {
    hide Normal, Join, Contribution, Acceptable;
    if IsMeasured(f) {
      MergeIsTheMaximum(records, f);
    } else {
      FoldedIsNormal(records);
      ContributionIsNormal(records[i]);
      MergeIsTheMaximum(records, InputTokens);
      MergeIsTheMaximum(records, OutputTokens);
      UsedOfWhole(Folded(records), InputTokens);
      UsedOfWhole(Folded(records), OutputTokens);
      UsedOfWhole(Contribution(records[i]), InputTokens);
      UsedOfWhole(Contribution(records[i]), OutputTokens);
    }
  }

  /** A resumed run never regains capacity: on every limit, what is left of the
      merge is at most what is left of any record that went into it. */
  lemma MergeLeavesNoMore(records: seq<Option<Snapshot>>, i: nat, limit: real, f: Field)
    requires AllAcceptable(records) && i < |records| && Contributes(records[i]) && f in LIMITED
    ensures Remaining(Merged(records), limit, f) <= Remaining(records[i].value, limit, f)
  {
    hide Valid, Used, Merged, Contribution;
    LimitedIsKnown(f);
    assert Acceptable(records[i]);
    UsedOfContribution(records[i].value, f);
    UsedOfMerged(records, f);
    FoldedUsesNoLess(records, i, f);
  }

  lemma LimitedIsKnown(f: Field)
    requires f in LIMITED
    ensures IsMeasured(f) || f == TotalTokens
  {
  }

  /** The monotonic invariant a resume must satisfy. */
  method UsageIsNotBelow(after: Snapshot, before: Snapshot) returns (r: bool)
    requires Countable(after) && Countable(before)
    ensures r <==> forall f :: f in COUNTERS + AMOUNTS && f in before ==> Used(after, f) >= Used(before, f)
  {
    hide Used, Valid, COUNTERS, AMOUNTS;
    var fields := COUNTERS + AMOUNTS;
    for i := 0 to |fields|
      invariant forall f :: f in fields[..i] && f in before ==> Used(after, f) >= Used(before, f)
    {
      var f := fields[i];
      assert fields[..i + 1] == fields[..i] + [f];
      if f in before && Used(after, f) < Used(before, f) {
        return false;
      }
    }
    assert fields[..|fields|] == fields;
    return true;
  }
}
