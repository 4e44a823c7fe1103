/**
  What a finished run means: a semantic status, what stands between it and a
  complete product, and how facts the product does not carry can lower it.
 */
module ProductOutcome {
  import opened Common

  datatype Semantic = Complete | Partial | Unusable | RefusedProduct | NotProduced

  /** The allowlisted blocking codes, in the order they sort. */
  datatype Code =
    | ConflictingClaims | CoverageGaps | DegradedEnrichment | DegradedVerification
    | EngineReportedFailure | FailedAgents | NoProductPayload | NoUsableResult
    | OutcomeContractViolation | OutstandingReviewItems | RefusedBeforeExecution
    | RejectedItems | RunNotProduced | TaskFailures | UnverifiedClaims
    | Unlisted(name: string)

  const CODES: seq<Code> := [
    ConflictingClaims, CoverageGaps, DegradedEnrichment, DegradedVerification,
    EngineReportedFailure, FailedAgents, NoProductPayload, NoUsableResult,
    OutcomeContractViolation, OutstandingReviewItems, RefusedBeforeExecution,
    RejectedItems, RunNotProduced, TaskFailures, UnverifiedClaims]

  function Rank(c: Code): nat {
    match c
    case ConflictingClaims => 0 case CoverageGaps => 1 case DegradedEnrichment => 2 case DegradedVerification => 3
    case EngineReportedFailure => 4 case FailedAgents => 5 case NoProductPayload => 6 case NoUsableResult => 7
    case OutcomeContractViolation => 8 case OutstandingReviewItems => 9 case RefusedBeforeExecution => 10
    case RejectedItems => 11 case RunNotProduced => 12 case TaskFailures => 13 case UnverifiedClaims => 14
    case Unlisted(_) => 15
  }

  lemma CodesAreRanked(i: nat)
    requires i < |CODES|
    ensures Rank(CODES[i]) == i
  {
  }

  lemma ListedIsInCodes(c: Code)
    requires !c.Unlisted?
    ensures Rank(c) < |CODES| && CODES[Rank(c)] == c
  {
  }

  datatype Item = Item(code: Code, count: nat)

  /** Two payloads are the same when their digests are: an opaque value. */
  datatype Payload = Payload(present: bool, digest: nat)

  datatype Coverage = Coverage(produced: nat, outstanding: nat)

  datatype Kind = UsableResult | PartialResult | NoUsable

  datatype Outcome = Outcome(
    semantic: Semantic, coverage: Coverage, blocking: seq<Item>, payload: Payload, kind: Option<Kind>)

  /** How much a status claims. Refused and not produced claim nothing. */
  function Worth(s: Semantic): nat {
    match s
    case Complete => 3
    case Partial => 2
    case Unusable => 1
    case RefusedProduct => 0
    case NotProduced => 0
  }

  /** Complete claims most, then partial, then unusable. */
  lemma WorthIs(a: Semantic, b: Semantic)
    ensures Worth(a) < Worth(b) <==>
              || (b.Complete? && !a.Complete?)
              || (b.Partial? && !a.Complete? && !a.Partial?)
              || (b.Unusable? && (a.RefusedProduct? || a.NotProduced?))
  {
  }

  // -- blocking items as counts ------------------------------------------------------

  function CountsOf(items: seq<Item>): map<Code, nat> {
    if items == [] then map[]
    else CountsOf(items[..|items| - 1])[items[|items| - 1].code := items[|items| - 1].count]
  }

  function CountAt(m: map<Code, nat>, c: Code): nat {
    if c in m then m[c] else 0
  }

  /** Every listed code with a positive count, in sorted order, up to the i-th. */
  function ItemsBelow(m: map<Code, nat>, i: nat): seq<Item>
    requires i <= |CODES|
  {
    if i == 0 then []
    else if CountAt(m, CODES[i - 1]) > 0 then ItemsBelow(m, i - 1) + [Item(CODES[i - 1], m[CODES[i - 1]])]
    else ItemsBelow(m, i - 1)
  }

  function Items(m: map<Code, nat>): seq<Item> {
    ItemsBelow(m, |CODES|)
  }

  function TotalBelow(m: map<Code, nat>, i: nat): nat
    requires i <= |CODES|
  {
    if i == 0 then 0 else TotalBelow(m, i - 1) + CountAt(m, CODES[i - 1])
  }

  function Total(m: map<Code, nat>): nat {
    TotalBelow(m, |CODES|)
  }

  /** Counts an outcome can hold: listed codes, each with something to count. */
  predicate Proper(m: map<Code, nat>) {
    forall c :: c in m ==> !c.Unlisted? && m[c] > 0
  }

  lemma {:induction false} ItemsBelowCount(m: map<Code, nat>, i: nat, c: Code)
    requires Proper(m) && i <= |CODES|
    ensures CountAt(CountsOf(ItemsBelow(m, i)), c) == if Rank(c) < i then CountAt(m, c) else 0
    ensures c in CountsOf(ItemsBelow(m, i)) ==> Rank(c) < i && c in m
  {
    hide CODES, Rank;
    if i > 0 {
      ItemsBelowCount(m, i - 1, c);
      var last := CODES[i - 1];
      CodesAreRanked(i - 1);
      if CountAt(m, last) > 0 {
        var shown := ItemsBelow(m, i);
        assert shown[..|shown| - 1] == ItemsBelow(m, i - 1);
      }
      if Rank(c) == i - 1 && !c.Unlisted? {
        ListedIsInCodes(c);
      }
    }
  }

  /** Listing counts and reading them back gives the same counts. */
  lemma ItemsRoundTrip(m: map<Code, nat>)
    requires Proper(m)
    ensures CountsOf(Items(m)) == m
  {
    hide CODES, Rank;
    forall c ensures c in CountsOf(Items(m)) <==> c in m
             ensures c in m ==> CountAt(CountsOf(Items(m)), c) == m[c] {
      ItemsBelowCount(m, |CODES|, c);
      if c in m {
        ListedIsInCodes(c);
      }
    }
    assert forall c :: c in m ==> CountsOf(Items(m))[c] == CountAt(CountsOf(Items(m)), c);
  }

  /** The total counts every listed code once: setting one count moves it by the
      difference, and no counts make nothing. */
  lemma TotalIs(m: map<Code, nat>, c: Code, n: nat)
    requires !c.Unlisted?
    ensures Total(map[]) == 0 && Total(m[c := n]) == Total(m) - CountAt(m, c) + n
  {
    hide CODES, Rank;
    ListedIsInCodes(c);
    TotalMoves(m, c, n, |CODES|);
    NothingTotals(|CODES|);
  }

  lemma {:induction false} NothingTotals(i: nat)
    requires i <= |CODES|
    ensures TotalBelow(map[], i) == 0
  {
    if i > 0 {
      NothingTotals(i - 1);
    }
  }

  lemma {:induction false} TotalMoves(m: map<Code, nat>, c: Code, n: nat, i: nat)
    requires i <= |CODES| && !c.Unlisted?
    ensures TotalBelow(m[c := n], i) == TotalBelow(m, i) + (if Rank(c) < i then n - CountAt(m, c) else 0)
  {
    hide CODES, Rank;
    if i > 0 {
      TotalMoves(m, c, n, i - 1);
      CodesAreRanked(i - 1);
      ListedIsInCodes(c);
    }
  }

  lemma {:induction false} TotalGrows(a: map<Code, nat>, b: map<Code, nat>, i: nat)
    requires i <= |CODES| && forall c :: CountAt(a, c) <= CountAt(b, c)
    ensures TotalBelow(a, i) <= TotalBelow(b, i)
  {
    if i > 0 {
      TotalGrows(a, b, i - 1);
    }
  }

  /** An outcome whose blocking items are listed once each, sorted, and positive. */
  ghost predicate Canonical(o: Outcome) {
    Proper(CountsOf(o.blocking)) && o.blocking == Items(CountsOf(o.blocking))
  }

  // -- demotion ---------------------------------------------------------------------

  predicate Allowed(counts: map<Code, int>) {
    forall c :: c in counts && counts[c] > 0 ==> !c.Unlisted?
  }

  function Raised(current: map<Code, nat>, counts: map<Code, int>): map<Code, nat> {
    map c | c in current.Keys + counts.Keys && MaxInt(CountAt(current, c), Asked(counts, c)) > 0 ::
      MaxInt(CountAt(current, c), Asked(counts, c))
  }

  function Asked(counts: map<Code, int>, c: Code): nat {
    if c in counts then MaxInt(0, counts[c]) else 0
  }

  predicate Adds(current: map<Code, nat>, counts: map<Code, int>) {
    exists c :: c in counts && counts[c] > CountAt(current, c)
  }

  function Demoted(o: Outcome, counts: map<Code, int>): Outcome {
    var current := CountsOf(o.blocking);
    if !Adds(current, counts) then o
    else
      var merged := Raised(current, counts);
      Outcome(if o.semantic == Complete then Partial else o.semantic,
              Coverage(o.coverage.produced, MaxInt(o.coverage.outstanding, Total(merged))),
              Items(merged), o.payload,
              if o.semantic == Complete then Some(PartialResult) else o.kind)
  }

  method BuildBlocking(m: map<Code, nat>) returns (items: seq<Item>)
    ensures items == Items(m)
  {
    hide CODES;
    items := [];
    for i := 0 to |CODES|
      invariant items == ItemsBelow(m, i)
    {
      var c := CODES[i];
      if c in m && m[c] > 0 {
        items := items + [Item(c, m[c])];
      }
    }
  }

  method Sum(m: map<Code, nat>) returns (total: nat)
    ensures total == Total(m)
  {
    hide CODES;
    total := 0;
    for i := 0 to |CODES|
      invariant total == TotalBelow(m, i)
    {
      total := total + (if CODES[i] in m then m[CODES[i]] else 0);
    }
  }

  /** Every code outside `rest` has been folded into the counts. */
  ghost predicate FoldedBut(merged: map<Code, nat>, rest: set<Code>, current: map<Code, nat>, counts: map<Code, int>) {
    forall c :: CountAt(merged, c) == if c in rest then CountAt(current, c)
        else MaxInt(CountAt(current, c), Asked(counts, c))
  }

  predicate AddsBut(rest: set<Code>, current: map<Code, nat>, counts: map<Code, int>) {
    exists c :: c in counts && c !in rest && counts[c] > CountAt(current, c)
  }

  predicate AllowedBut(rest: set<Code>, counts: map<Code, int>) {
    forall c :: c in counts && c !in rest && counts[c] > 0 ==> !c.Unlisted?
  }

  function FoldOne(merged: map<Code, nat>, counts: map<Code, int>, c: Code): map<Code, nat>
    requires c in counts
  {
    if counts[c] > CountAt(merged, c) then merged[c := counts[c]] else merged
  }

  lemma FoldOneIsFolded(merged: map<Code, nat>, rest: set<Code>, current: map<Code, nat>,
      counts: map<Code, int>, c: Code)
    requires FoldedBut(merged, rest, current, counts) && c in rest && c in counts
    ensures FoldedBut(FoldOne(merged, counts, c), rest - {c}, current, counts)
    ensures CountAt(merged, c) == CountAt(current, c)
  {
  }

  lemma OneLess(rest: set<Code>, current: map<Code, nat>, counts: map<Code, int>, c: Code)
    requires c in rest && c in counts
    ensures AddsBut(rest - {c}, current, counts) <==> AddsBut(rest, current, counts) || counts[c] > CountAt(current, c)
    ensures AllowedBut(rest - {c}, counts) <==> AllowedBut(rest, counts) && (counts[c] > 0 ==> !c.Unlisted?)
  {
    hide CountAt;
    assert forall d :: d !in rest - {c} <==> d == c || d !in rest;
  }

  /** Walk the counts in whatever order they come: the larger of two counts stays. */
  method FoldCounts(current: map<Code, nat>, counts: map<Code, int>) returns (r: Option<(map<Code, nat>, bool)>)
    requires Proper(current)
    ensures r.Some? <==> Allowed(counts)
    ensures r.Some? ==> r.value.0 == Raised(current, counts) && r.value.1 == Adds(current, counts)
  {
    hide CountAt, FoldedBut, AddsBut, AllowedBut, Asked;
    var merged: map<Code, nat> := current;
    var changed, rest := false, counts.Keys;
    NothingFolded(current, counts);
    while rest != {}
      invariant rest <= counts.Keys && (forall c :: c in merged ==> merged[c] > 0)
      invariant FoldedBut(merged, rest, current, counts)
      invariant AllowedBut(rest, counts) && changed == AddsBut(rest, current, counts)
      decreases |rest|
    {
      var c :| c in rest;
      FoldOneIsFolded(merged, rest, current, counts, c);
      OneLess(rest, current, counts, c);
      rest := rest - {c};
      if counts[c] > 0 && c.Unlisted? {
        return None;
      }
      if counts[c] > CountAt(merged, c) {
        merged, changed := merged[c := counts[c]], true;
      }
    }
    EverythingFolded(merged, current, counts);
    return Some((merged, changed));
  }

  lemma NothingFolded(current: map<Code, nat>, counts: map<Code, int>)
    ensures FoldedBut(current, counts.Keys, current, counts)
    ensures !AddsBut(counts.Keys, current, counts) && AllowedBut(counts.Keys, counts)
  {
  }

  lemma EverythingFolded(merged: map<Code, nat>, current: map<Code, nat>, counts: map<Code, int>)
    requires FoldedBut(merged, {}, current, counts) && forall c :: c in merged ==> merged[c] > 0
    ensures merged == Raised(current, counts)
    ensures AddsBut({}, current, counts) <==> Adds(current, counts)
    ensures AllowedBut({}, counts) <==> Allowed(counts)
  {
    forall c ensures CountAt(merged, c) == CountAt(Raised(current, counts), c) {
      RaisedCount(current, counts, c);
    }
    SameCounts(merged, Raised(current, counts));
  }

  lemma SameCounts(a: map<Code, nat>, b: map<Code, nat>)
    requires (forall c :: c in a ==> a[c] > 0) && (forall c :: c in b ==> b[c] > 0)
    requires forall c :: CountAt(a, c) == CountAt(b, c)
    ensures a == b
  {
    forall c ensures c in a <==> c in b
             ensures c in a && c in b ==> a[c] == b[c] {
      assert CountAt(a, c) == CountAt(b, c);
    }
  }

  /**
    What folding counts in does. Nothing, unless one of them is more than is
    counted already; then every code has the larger of its two counts, a complete
    outcome is complete no longer, and at least their total is outstanding.
   */
  lemma DemotionIs(o: Outcome, counts: map<Code, int>)
    requires Canonical(o) && Allowed(counts)
    ensures var z := Demoted(o, counts);
            var before, after := CountsOf(o.blocking), CountsOf(z.blocking);
            var more := exists c :: c in counts && counts[c] > CountAt(before, c);
            && (!more ==> z == o)
            && (forall c :: CountAt(after, c) == if c in counts && counts[c] > CountAt(before, c) then counts[c]
                                                 else CountAt(before, c))
            && z.payload == o.payload && z.coverage.produced == o.coverage.produced
            && (more ==>
                  && z.coverage.outstanding == (if Total(after) > o.coverage.outstanding then Total(after)
                                                else o.coverage.outstanding)
                  && z.semantic == (if o.semantic.Complete? then Partial else o.semantic)
                  && z.kind == (if o.semantic.Complete? then Some(PartialResult) else o.kind))
  {
    hide CODES, Rank, Items, Total;
    var before := CountsOf(o.blocking);
    forall c ensures CountAt(Raised(before, counts), c)
                     == if c in counts && counts[c] > CountAt(before, c) then counts[c] else CountAt(before, c) {
      RaisedCount(before, counts, c);
    }
    if Adds(before, counts) {
      RaisedIsProper(before, counts);
      ItemsRoundTrip(Raised(before, counts));
    }
  }

  /** Fold in blocking facts the payload does not carry; a positive count under
      a code nobody reviewed is refused. */
  method DemotedWith(o: Outcome, counts: map<Code, int>) returns (r: Option<Outcome>)
    requires Canonical(o)
    ensures r.Some? <==> Allowed(counts)
    ensures r.Some? ==> r.value == Demoted(o, counts)
  {
    hide CODES, Rank, Items, Total;
    var folded := FoldCounts(CountsOf(o.blocking), counts);
    if folded.None? {
      return None;
    }
    var (merged, changed) := folded.value;
    if !changed {
      return Some(o);
    }
    var semantic, kind := o.semantic, o.kind;
    if semantic == Complete {
      semantic, kind := Partial, Some(PartialResult);
    }
    var outstanding := Sum(merged);
    var items := BuildBlocking(merged);
    return Some(Outcome(semantic, Coverage(o.coverage.produced, MaxInt(o.coverage.outstanding, outstanding)),
                        items, o.payload, kind));
  }

  // -- demotion is a join --------------------------------------------------------------

  /** For every code, the larger of two counts. */
  function PointwiseMax(a: map<Code, int>, b: map<Code, int>): map<Code, int> {
    map c | c in a.Keys + b.Keys :: MaxInt(Asked(a, c), Asked(b, c))
  }

  lemma RaisedCount(current: map<Code, nat>, counts: map<Code, int>, c: Code)
    ensures CountAt(Raised(current, counts), c) == MaxInt(CountAt(current, c), Asked(counts, c))
  {
  }

  lemma RaisedIsProper(current: map<Code, nat>, counts: map<Code, int>)
    requires Proper(current) && Allowed(counts)
    ensures Proper(Raised(current, counts))
  {
  }

  lemma DemotionIsCanonical(o: Outcome, counts: map<Code, int>)
    requires Canonical(o) && Allowed(counts)
    ensures Canonical(Demoted(o, counts))
    ensures CountsOf(Demoted(o, counts).blocking) == Raised(CountsOf(o.blocking), counts)
  {
    hide CODES, Rank, Items, Total, Allowed;
    var current := CountsOf(o.blocking);
    RaisedIsProper(current, counts);
    ItemsRoundTrip(Raised(current, counts));
    if !Adds(current, counts) {
      forall c ensures CountAt(current, c) == CountAt(Raised(current, counts), c) {
        assert c in counts ==> counts[c] <= CountAt(current, c);
      }
      SameCounts(current, Raised(current, counts));
    }
  }

  lemma RaisedTwice(current: map<Code, nat>, a: map<Code, int>, b: map<Code, int>)
    ensures Raised(Raised(current, a), b) == Raised(current, PointwiseMax(a, b))
  {
    forall c ensures CountAt(Raised(Raised(current, a), b), c) == CountAt(Raised(current, PointwiseMax(a, b)), c) {
      RaisedCount(Raised(current, a), b, c);
      RaisedCount(current, a, c);
      RaisedCount(current, PointwiseMax(a, b), c);
    }
    SameCounts(Raised(Raised(current, a), b), Raised(current, PointwiseMax(a, b)));
  }

  lemma AddsEither(current: map<Code, nat>, a: map<Code, int>, b: map<Code, int>)
    ensures Adds(current, PointwiseMax(a, b)) <==> Adds(current, a) || Adds(Raised(current, a), b)
  {
    hide Raised;
    var m := PointwiseMax(a, b);
    if Adds(current, m) {
      var c :| c in m && m[c] > CountAt(current, c);
      RaisedCount(current, a, c);
      if !Adds(current, a) {
        assert c in a ==> a[c] <= CountAt(current, c);
        assert b[c] > CountAt(Raised(current, a), c);
      }
    }
    MaxAddsWhatEitherAdds(current, a, b);
  }

  lemma MaxAddsWhatEitherAdds(current: map<Code, nat>, a: map<Code, int>, b: map<Code, int>)
    ensures Adds(current, a) || Adds(Raised(current, a), b) ==> Adds(current, PointwiseMax(a, b))
  {
    hide Raised;
    var m := PointwiseMax(a, b);
    if Adds(current, a) {
      var c :| c in a && a[c] > CountAt(current, c);
      assert c in m && m[c] > CountAt(current, c);
    } else if Adds(Raised(current, a), b) {
      var c :| c in b && b[c] > CountAt(Raised(current, a), c);
      RaisedCount(current, a, c);
      assert c in m && m[c] > CountAt(current, c);
    }
  }

  /**
    Two demotions are one demotion by the larger count of each code: what a
    checkpoint and a payload know may be folded in any order, any number of
    times.
   */
  lemma DemotionIsAJoin(o: Outcome, a: map<Code, int>, b: map<Code, int>)
    requires Canonical(o) && Allowed(a) && Allowed(b)
    ensures Demoted(Demoted(o, a), b) == Demoted(o, PointwiseMax(a, b))
  {
    hide CODES, Rank, Items, Total, Canonical, Raised, Adds, PointwiseMax;
    var current := CountsOf(o.blocking);
    DemotionIsCanonical(o, a);
    RaisedIsPositive(current, a);
    RaisedTwice(current, a, b);
    AddsEither(current, a, b);
    LaterTotalCovers(Raised(current, a), b);
    if !Adds(Raised(current, a), b) {
      AddsNothing(Raised(current, a), b);
    }
  }

  lemma RaisedIsPositive(current: map<Code, nat>, counts: map<Code, int>)
    ensures forall c :: c in Raised(current, counts) ==> Raised(current, counts)[c] > 0
  {
  }

  lemma LaterTotalCovers(current: map<Code, nat>, counts: map<Code, int>)
    ensures Total(current) <= Total(Raised(current, counts))
  {
    hide CODES;
    forall c ensures CountAt(current, c) <= CountAt(Raised(current, counts), c) {
      RaisedCount(current, counts, c);
    }
    TotalGrows(current, Raised(current, counts), |CODES|);
  }

  lemma AddsNothing(current: map<Code, nat>, counts: map<Code, int>)
    requires !Adds(current, counts) && forall c :: c in current ==> current[c] > 0
    ensures Raised(current, counts) == current
  {
    forall c ensures CountAt(current, c) == CountAt(Raised(current, counts), c) {
      assert c in counts ==> counts[c] <= CountAt(current, c);
    }
    SameCounts(current, Raised(current, counts));
  }

  /** So order and repetition do not matter, and the status never rises. */
  lemma DemotionOrderIsIrrelevant(o: Outcome, a: map<Code, int>, b: map<Code, int>)
    requires Canonical(o) && Allowed(a) && Allowed(b)
    ensures Demoted(Demoted(o, a), b) == Demoted(Demoted(o, b), a)
    ensures Demoted(Demoted(o, a), a) == Demoted(o, a)
    ensures Worth(Demoted(o, a).semantic) <= Worth(o.semantic)
    ensures Demoted(o, a).coverage.outstanding >= o.coverage.outstanding
    ensures Demoted(o, a).semantic == Complete ==> Demoted(o, a) == o
  {
    hide CODES, Rank, Items, Total, Canonical, Raised, Adds;
    DemotionIsAJoin(o, a, b);
    DemotionIsAJoin(o, b, a);
    assert PointwiseMax(a, b) == PointwiseMax(b, a);
    DemotionIsAJoin(o, a, a);
    assert Demoted(o, PointwiseMax(a, a)) == Demoted(o, a) by { MaxWithItself(CountsOf(o.blocking), a); }
  }

  lemma MaxWithItself(current: map<Code, nat>, a: map<Code, int>)
    ensures Raised(current, PointwiseMax(a, a)) == Raised(current, a)
    ensures Adds(current, PointwiseMax(a, a)) <==> Adds(current, a)
  {
    var m := PointwiseMax(a, a);
    forall c ensures CountAt(Raised(current, m), c) == CountAt(Raised(current, a), c) {
      RaisedCount(current, m, c);
      RaisedCount(current, a, c);
    }
    SameCounts(Raised(current, m), Raised(current, a));
    if Adds(current, m) {
      var c :| c in m && m[c] > CountAt(current, c);
      assert a[c] > CountAt(current, c);
    }
    if Adds(current, a) {
      var c :| c in a && a[c] > CountAt(current, c);
      assert m[c] > CountAt(current, c);
    }
  }

  // -- catalog documents -----------------------------------------------------------------

  /** What a status text claims. */
  datatype Claim = ClaimsComplete | ClaimsFailed | ClaimsOther

  datatype Verdict = RejectedModel | UnsettledModel | SettledModel

  datatype Quality = Quality(verifierDegraded: bool, enrichmentDegraded: bool)

  /** A mapping, as far as the reader looks at it; a field that is not a list or
      a mapping is absent. */
  datatype Document = Document(
    status: Claim, models: Option<seq<Verdict>>, quality: Option<Quality>,
    needsReview: nat, rejected: nat, failedAgents: nat)

  /** A stored result: `own` is the envelope read as a document, `inner` its
      `result`, when that is a mapping. */
  datatype Stored =
    | NotAMapping
    | Envelope(own: Document, inner: Option<Document>, mentionsModelsOrQuality: bool)

  function Tally(models: seq<Verdict>, v: Verdict): nat {
    if models == [] then 0 else Tally(models[..|models| - 1], v) + (if models[|models| - 1] == v then 1 else 0)
  }

  function ReviewCount(d: Document): nat
    requires d.models.Some?
  {
    MaxInt(Tally(d.models.value, UnsettledModel), d.needsReview)
  }

  function RejectedCount(d: Document): nat
    requires d.models.Some?
  {
    MaxInt(Tally(d.models.value, RejectedModel), d.rejected)
  }

  predicate IsCatalog(d: Document) {
    d.models.Some? && d.quality.Some?
  }

  function One(b: bool): nat {
    if b then 1 else 0
  }

  /** What stands between the document and a complete product, code by code. */
  function BlockerCount(d: Document, c: Code): nat
    requires IsCatalog(d)
  {
    match c
    case OutstandingReviewItems => ReviewCount(d)
    case RejectedItems => RejectedCount(d)
    case FailedAgents => d.failedAgents
    case DegradedVerification => One(d.quality.value.verifierDegraded)
    case DegradedEnrichment => One(d.quality.value.enrichmentDegraded)
    case NoUsableResult => One(Tally(d.models.value, SettledModel) == 0)
    case _ => 0
  }

  function Blockers(d: Document): map<Code, nat>
    requires IsCatalog(d)
  {
    map c | c in CODES && BlockerCount(d, c) > 0 :: BlockerCount(d, c)
  }

  lemma BlockersAre(d: Document)
    requires IsCatalog(d)
    ensures Proper(Blockers(d)) && forall c :: CountAt(Blockers(d), c) == BlockerCount(d, c)
  {
    hide CODES, Rank, ReviewCount, RejectedCount, Tally;
    forall c ensures CountAt(Blockers(d), c) == BlockerCount(d, c)
             ensures c in Blockers(d) ==> !c.Unlisted? && Blockers(d)[c] > 0 {
      if !c.Unlisted? {
        ListedIsInCodes(c);
      }
    }
  }

  function CatalogSemantic(declared: Claim, d: Document): Semantic
    requires IsCatalog(d)
  {
    if Tally(d.models.value, SettledModel) == 0 then Unusable
    else if Blockers(d) == map[] && declared == ClaimsComplete && d.status == ClaimsComplete then Complete
    else Partial
  }

  function KindOf(s: Semantic): Option<Kind> {
    match s
    case Complete => Some(UsableResult)
    case Partial => Some(PartialResult)
    case Unusable => Some(NoUsable)
    case _ => None
  }

  function CatalogOutcome(declared: Claim, d: Document, payload: Payload): Outcome
    requires IsCatalog(d)
  {
    var s := CatalogSemantic(declared, d);
    Outcome(s, Coverage(Tally(d.models.value, SettledModel), ReviewCount(d) + RejectedCount(d) + d.failedAgents),
            Items(Blockers(d)), payload, KindOf(s))
  }

  /**
    What a catalog derives, from its models and its lists: what was settled, and
    for each of unsettled and rejected models the larger of the two ways they are
    counted. Without one settled model it is unusable, whatever it claims.
   */
  lemma CatalogIs(declared: Claim, d: Document, payload: Payload)
    requires IsCatalog(d)
    ensures var o := CatalogOutcome(declared, d, payload);
            var settled := Tally(d.models.value, SettledModel);
            var unsettled, rejected := Tally(d.models.value, UnsettledModel), Tally(d.models.value, RejectedModel);
            var review := if unsettled < d.needsReview then d.needsReview else unsettled;
            var refused := if rejected < d.rejected then d.rejected else rejected;
            var blocked := CountsOf(o.blocking);
            && o.coverage == Coverage(settled, review + refused + d.failedAgents) && o.payload == payload
            && (o.semantic == Unusable <==> settled == 0) && o.semantic in {Unusable, Partial, Complete}
            && (o.kind == Some(UsableResult) <==> o.semantic == Complete)
            && (o.kind == Some(PartialResult) <==> o.semantic == Partial)
            && (o.kind == Some(NoUsable) <==> o.semantic == Unusable)
            && CountAt(blocked, OutstandingReviewItems) == review && CountAt(blocked, RejectedItems) == refused
            && CountAt(blocked, FailedAgents) == d.failedAgents
            && CountAt(blocked, DegradedVerification) == (if d.quality.value.verifierDegraded then 1 else 0)
            && CountAt(blocked, DegradedEnrichment) == (if d.quality.value.enrichmentDegraded then 1 else 0)
            && CountAt(blocked, NoUsableResult) == (if settled == 0 then 1 else 0)
            && (forall c :: c in blocked ==>
                  c in {OutstandingReviewItems, RejectedItems, FailedAgents, DegradedVerification, DegradedEnrichment,
                        NoUsableResult})
  {
    hide Tally, CODES, Items, CountsOf, Blockers;
    BlockersAre(d);
    ItemsRoundTrip(Blockers(d));
    forall c | c in Blockers(d) ensures BlockerCount(d, c) > 0 {
      assert CountAt(Blockers(d), c) == BlockerCount(d, c);
    }
  }

  method CountModels(models: seq<Verdict>) returns (settled: nat, unsettled: nat, rejected: nat)
    ensures settled == Tally(models, SettledModel)
    ensures unsettled == Tally(models, UnsettledModel) && rejected == Tally(models, RejectedModel)
  {
    settled, unsettled, rejected := 0, 0, 0;
    for i := 0 to |models|
      invariant settled == Tally(models[..i], SettledModel)
      invariant unsettled == Tally(models[..i], UnsettledModel) && rejected == Tally(models[..i], RejectedModel)
    {
      assert models[..i + 1][..i] == models[..i];
      match models[i] {
        case RejectedModel => rejected := rejected + 1;
        case UnsettledModel => unsettled := unsettled + 1;
        case SettledModel => settled := settled + 1;
      }
    }
    assert models[..|models|] == models;
  }

  /** Read one catalog document: count, then decide. */
  method ReadCatalog(declared: Claim, d: Document, payload: Payload) returns (o: Outcome)
    requires IsCatalog(d)
    ensures o == CatalogOutcome(declared, d, payload)
  {
    hide CODES, Items, Tally, Blockers;
    var settled, unsettled, rejected := CountModels(d.models.value);
    var reviewCount := MaxInt(unsettled, d.needsReview);
    var rejectedCount := MaxInt(rejected, d.rejected);
    var outstanding := reviewCount + rejectedCount + d.failedAgents;
    var counts := CountBlockers(d, reviewCount, rejectedCount, settled);
    var items := BuildBlocking(counts);
    if settled == 0 {
      return Outcome(Unusable, Coverage(0, outstanding), items, payload, Some(NoUsable));
    }
    var complete := counts == map[] && declared == ClaimsComplete && d.status == ClaimsComplete;
    return Outcome(if complete then Complete else Partial, Coverage(settled, outstanding), items, payload,
                   Some(if complete then UsableResult else PartialResult));
  }

  method CountBlockers(d: Document, reviewCount: nat, rejectedCount: nat, settled: nat) returns (counts: map<Code, nat>)
    requires IsCatalog(d) && reviewCount == ReviewCount(d) && rejectedCount == RejectedCount(d)
    requires settled == Tally(d.models.value, SettledModel)
    ensures counts == Blockers(d)
  {
    hide CODES, Tally, ReviewCount, RejectedCount, Blockers;
    counts := map[];
    if reviewCount > 0 {
      counts := counts[OutstandingReviewItems := reviewCount];
    }
    if rejectedCount > 0 {
      counts := counts[RejectedItems := rejectedCount];
    }
    if d.failedAgents > 0 {
      counts := counts[FailedAgents := d.failedAgents];
    }
    if d.quality.value.verifierDegraded {
      counts := counts[DegradedVerification := 1];
    }
    if d.quality.value.enrichmentDegraded {
      counts := counts[DegradedEnrichment := 1];
    }
    if settled == 0 {
      counts := counts[NoUsableResult := 1];
    }
    BlockersAre(d);
    assert forall c :: CountAt(counts, c) == BlockerCount(d, c);
    SameCounts(counts, Blockers(d));
  }

  /** The document the reader counts, if it gets as far as reading one. */
  function DocumentOf(s: Stored): Option<Document> {
    if s.NotAMapping? then None
    else if s.inner.Some? then s.inner
    else if s.mentionsModelsOrQuality then Some(s.own)
    else None
  }

  function Single(c: Code): seq<Item> {
    [Item(c, 1)]
  }

  function V1Outcome(s: Stored, payload: Payload): Outcome {
    if s.NotAMapping? then Outcome(NotProduced, Coverage(0, 0), Single(NoProductPayload), payload, None)
    else if s.own.status == ClaimsFailed then
      Outcome(NotProduced, Coverage(0, 0), Single(EngineReportedFailure), payload, None)
    else if DocumentOf(s).None? then Outcome(NotProduced, Coverage(0, 0), Single(NoProductPayload), payload, None)
    else if IsCatalog(DocumentOf(s).value) then CatalogOutcome(s.own.status, DocumentOf(s).value, payload)
    else if s.own.status == ClaimsComplete then
      Outcome(Complete, Coverage(1, 0), [], payload, Some(UsableResult))
    else Outcome(Partial, Coverage(1, 1), Single(OutstandingReviewItems), payload, Some(PartialResult))
  }

  method DeriveV1(s: Stored, payload: Payload) returns (o: Outcome)
    ensures o == V1Outcome(s, payload)
  {
    hide CatalogOutcome;
    if s.NotAMapping? {
      return Outcome(NotProduced, Coverage(0, 0), Single(NoProductPayload), payload, None);
    }
    var final := s.inner;
    if final.None? && s.mentionsModelsOrQuality {
      final := Some(s.own);
    }
    if s.own.status == ClaimsFailed || final.None? {
      var code := if s.own.status == ClaimsFailed then EngineReportedFailure else NoProductPayload;
      return Outcome(NotProduced, Coverage(0, 0), Single(code), payload, None);
    }
    if !IsCatalog(final.value) {
      if s.own.status == ClaimsComplete {
        return Outcome(Complete, Coverage(1, 0), [], payload, Some(UsableResult));
      }
      return Outcome(Partial, Coverage(1, 1), Single(OutstandingReviewItems), payload, Some(PartialResult));
    }
    o := ReadCatalog(s.own.status, final.value, payload);
  }

  /** What a stored result derives when there is nothing to count: no product
      where it is no mapping, claims failure, or has no document; otherwise it is
      only believed downwards. */
  lemma FallbacksAre(s: Stored, payload: Payload)
    ensures var o := V1Outcome(s, payload);
            var missing := s.NotAMapping? || (s.inner.None? && !s.mentionsModelsOrQuality);
            var failed := s.Envelope? && s.own.status == ClaimsFailed;
            && (o.semantic == NotProduced <==> missing || failed)
            && (missing || failed ==>
                  && o.coverage == Coverage(0, 0) && o.kind.None?
                  && o.blocking == [Item(if failed then EngineReportedFailure else NoProductPayload, 1)])
            && (!missing && !failed ==>
                  var d := if s.inner.Some? then s.inner.value else s.own;
                  if d.models.None? || d.quality.None? then
                    (if s.own.status == ClaimsComplete
                     then o == Outcome(Complete, Coverage(1, 0), [], payload, Some(UsableResult))
                     else o == Outcome(Partial, Coverage(1, 1), [Item(OutstandingReviewItems, 1)], payload,
                                       Some(PartialResult)))
                  else o == CatalogOutcome(s.own.status, d, payload))
            && o.payload == payload
  {
    hide Blockers, Items, Tally;
  }

  // -- what a worse document derives -------------------------------------------------------

  /** At least as much owed: no more settled models, and no fewer unsettled or
      rejected ones, review items, rejections and failed agents; no stage
      repaired, no claim improved. */
  predicate OwesMore(d: Document, e: Document) {
    && IsCatalog(d) && IsCatalog(e)
    && Tally(e.models.value, SettledModel) <= Tally(d.models.value, SettledModel)
    && Tally(d.models.value, UnsettledModel) <= Tally(e.models.value, UnsettledModel)
    && Tally(d.models.value, RejectedModel) <= Tally(e.models.value, RejectedModel)
    && (d.quality.value.verifierDegraded ==> e.quality.value.verifierDegraded)
    && (d.quality.value.enrichmentDegraded ==> e.quality.value.enrichmentDegraded)
    && d.needsReview <= e.needsReview && d.rejected <= e.rejected && d.failedAgents <= e.failedAgents
    && (e.status == ClaimsComplete ==> d.status == ClaimsComplete)
  }

  lemma {:induction false} TallyConcat(a: seq<Verdict>, b: seq<Verdict>, v: Verdict)
    ensures Tally(a + b, v) == Tally(a, v) + Tally(b, v)
  {
    if b == [] {
      assert a + b == a;
    } else {
      TallyConcat(a, b[..|b| - 1], v);
      assert (a + b)[..|a + b| - 1] == a + b[..|b| - 1];
    }
  }

  /** A further model that is not settled, wherever it stands, is something owed;
      so is a settled model that no longer is. */
  lemma FurtherModelOwesMore(d: Document, i: nat, v: Verdict, w: Verdict)
    requires IsCatalog(d) && i <= |d.models.value| && v != SettledModel
    requires i < |d.models.value| ==> w == d.models.value[i]
    ensures OwesMore(d, d.(models := Some(d.models.value[..i] + [v] + d.models.value[i..])))
    ensures i < |d.models.value| && w == SettledModel ==> OwesMore(d, d.(models := Some(d.models.value[i := v])))
  {
    hide Tally;
    var models := d.models.value;
    forall x ensures Tally(models, x) == Tally(models[..i], x) + Tally(models[i..], x)
             ensures Tally(models[..i] + [v] + models[i..], x) == Tally(models, x) + Tally([v], x) {
      TallyConcat(models[..i], models[i..], x);
      assert models == models[..i] + models[i..];
      TallyConcat(models[..i] + [v], models[i..], x);
      TallyConcat(models[..i], [v], x);
    }
    forall x ensures Tally([x], x) == 1 && forall y :: y != x ==> Tally([x], y) == 0 {
      TallyOfOne(x);
    }
    if i < |models| {
      forall x ensures Tally(models[i := v], x) + Tally([w], x) == Tally(models, x) + Tally([v], x) {
        assert models == models[..i] + [w] + models[i + 1..] && models[i := v] == models[..i] + [v] + models[i + 1..];
        TallyConcat(models[..i] + [w], models[i + 1..], x);
        TallyConcat(models[..i], [w], x);
        TallyConcat(models[..i] + [v], models[i + 1..], x);
        TallyConcat(models[..i], [v], x);
      }
    }
  }

  lemma TallyOfOne(x: Verdict)
    ensures Tally([x], x) == 1 && forall y :: y != x ==> Tally([x], y) == 0
  {
    assert [x][..0] == [];
  }

  lemma BlockersGrow(d: Document, e: Document)
    requires OwesMore(d, e)
    ensures forall c :: CountAt(Blockers(d), c) <= CountAt(Blockers(e), c)
    ensures Blockers(e) == map[] ==> Blockers(d) == map[]
  {
    hide Tally, CODES, Blockers;
    BlockersAre(d);
    BlockersAre(e);
    if Blockers(e) == map[] {
      SameCounts(Blockers(d), map[]) by {
        assert forall c :: CountAt(Blockers(d), c) <= CountAt(Blockers(e), c) == 0;
      }
    }
  }

  /**
    No further failed agent, review item, rejection or degraded stage ever
    raises what a catalog document derives, nor removes a blocking item.
   */
  lemma OwingMoreNeverRaises(declared: Claim, d: Document, e: Document, payload: Payload)
    requires OwesMore(d, e)
    ensures Worth(CatalogOutcome(declared, e, payload).semantic) <= Worth(CatalogOutcome(declared, d, payload).semantic)
    ensures CatalogOutcome(declared, d, payload).coverage.outstanding
            <= CatalogOutcome(declared, e, payload).coverage.outstanding
    ensures forall c :: CountAt(CountsOf(CatalogOutcome(declared, d, payload).blocking), c)
                        <= CountAt(CountsOf(CatalogOutcome(declared, e, payload).blocking), c)
  {
    hide Tally, CODES, Items, CountsOf, Blockers;
    BlockersGrow(d, e);
    BlockersAre(d);
    BlockersAre(e);
    ItemsRoundTrip(Blockers(d));
    ItemsRoundTrip(Blockers(e));
  }

  /** What a stored result owes beside another: no better declaration, and a
      document that is missing, uncountable where the other was, or owes more. */
  predicate StoredOwesMore(s: Stored, z: Stored) {
    || z.NotAMapping?
    || (&& s.Envelope?
        && (z.own.status == ClaimsComplete ==> s.own.status == ClaimsComplete)
        && (s.own.status == ClaimsFailed ==> z.own.status == ClaimsFailed)
        && (DocumentOf(z).Some? ==> DocumentOf(s).Some?)
        && (DocumentOf(z).Some? && IsCatalog(DocumentOf(s).value) ==>
            OwesMore(DocumentOf(s).value, DocumentOf(z).value)))
  }

  /** Through every fallback, a stored result that owes more never derives more. */
  lemma StoredOwingMoreNeverRaises(s: Stored, z: Stored, payload: Payload)
    requires StoredOwesMore(s, z)
    ensures Worth(V1Outcome(z, payload).semantic) <= Worth(V1Outcome(s, payload).semantic)
  {
    hide CatalogOutcome, OwesMore;
    if z.Envelope? && DocumentOf(z).Some? {
      if IsCatalog(DocumentOf(s).value) {
        var d, e := DocumentOf(s).value, DocumentOf(z).value;
        assert IsCatalog(e) by { OwesMoreReads(d, e); }
        OwingMoreNeverRaises(s.own.status, d, e, payload);
        WorseClaim(s.own.status, z.own.status, e, payload);
      } else if IsCatalog(DocumentOf(z).value) {
        CompleteCatalogs(z.own.status, DocumentOf(z).value, payload);
      }
    }
  }

  lemma OwesMoreReads(d: Document, e: Document)
    requires OwesMore(d, e)
    ensures IsCatalog(d) && IsCatalog(e)
  {
  }

  lemma WorseClaim(before: Claim, after: Claim, d: Document, payload: Payload)
    requires IsCatalog(d) && (after == ClaimsComplete ==> before == ClaimsComplete)
    ensures Worth(CatalogOutcome(after, d, payload).semantic) <= Worth(CatalogOutcome(before, d, payload).semantic)
  {
    hide Blockers, Items, Tally;
  }

  /** A catalog derives complete exactly when it claims so twice, settled a model,
      and nothing whatever is outstanding. */
  lemma CompleteCatalogs(declared: Claim, d: Document, payload: Payload)
    requires IsCatalog(d)
    ensures CatalogOutcome(declared, d, payload).semantic == Complete <==>
              && declared == ClaimsComplete && d.status == ClaimsComplete
              && Tally(d.models.value, SettledModel) > 0
              && Tally(d.models.value, UnsettledModel) == 0 && Tally(d.models.value, RejectedModel) == 0
              && d.needsReview == 0 && d.rejected == 0 && d.failedAgents == 0
              && !d.quality.value.verifierDegraded && !d.quality.value.enrichmentDegraded
    ensures CatalogOutcome(declared, d, payload).semantic == Complete ==>
              CatalogOutcome(declared, d, payload).blocking == []
                  && CatalogOutcome(declared, d, payload).coverage.outstanding == 0
  {
    hide Tally, CODES, Blockers;
    BlockersAre(d);
    if Blockers(d) == map[] {
      NoBlockers(d);
      NothingListed(|CODES|);
    } else {
      var c :| c in Blockers(d);
      assert CountAt(Blockers(d), c) > 0;
    }
  }

  lemma NoBlockers(d: Document)
    requires IsCatalog(d) && Blockers(d) == map[] && forall c :: CountAt(Blockers(d), c) == BlockerCount(d, c)
    ensures ReviewCount(d) == 0 && RejectedCount(d) == 0 && d.failedAgents == 0
    ensures !d.quality.value.verifierDegraded && !d.quality.value.enrichmentDegraded
    ensures Tally(d.models.value, SettledModel) > 0
  {
    hide Tally, Blockers, ReviewCount, RejectedCount;
    assert BlockerCount(d, OutstandingReviewItems) == 0 && BlockerCount(d, RejectedItems) == 0;
    assert BlockerCount(d, FailedAgents) == 0 && BlockerCount(d, NoUsableResult) == 0;
    assert BlockerCount(d, DegradedVerification) == 0 && BlockerCount(d, DegradedEnrichment) == 0;
  }

  lemma {:induction false} NothingListed(i: nat)
    requires i <= |CODES|
    ensures ItemsBelow(map[], i) == []
  {
    if i > 0 {
      NothingListed(i - 1);
    }
  }

  /**
    Success is never inferred: a complete outcome was declared complete, is held
    back by nothing, and owes nothing - whichever reader it came through.
   */
  lemma CompleteIsDeclared(s: Stored, payload: Payload)
    requires V1Outcome(s, payload).semantic == Complete
    ensures s.Envelope? && s.own.status == ClaimsComplete && DocumentOf(s).Some?
    ensures V1Outcome(s, payload).blocking == [] && V1Outcome(s, payload).coverage.outstanding == 0
    ensures V1Outcome(s, payload).coverage.produced > 0
  {
    hide CatalogOutcome;
    if IsCatalog(DocumentOf(s).value) {
      CompleteCatalogs(s.own.status, DocumentOf(s).value, payload);
      CatalogProduces(s.own.status, DocumentOf(s).value, payload);
    }
  }

  lemma CatalogProduces(declared: Claim, d: Document, payload: Payload)
    requires IsCatalog(d)
    ensures CatalogOutcome(declared, d, payload).coverage.produced == Tally(d.models.value, SettledModel)
  {
  }

  /**
    A checkpoint's failed agents folded in afterwards and the same agents
    written in the document give the same status and the same blocking items.
   */
  lemma DemotionAgreesWithDerivation(declared: Claim, d: Document, n: nat, payload: Payload)
    requires IsCatalog(d)
    ensures var folded := Demoted(CatalogOutcome(declared, d, payload), map[FailedAgents := n]);
            var written := CatalogOutcome(declared, d.(failedAgents := MaxInt(d.failedAgents, n)), payload);
            folded.semantic == written.semantic && folded.blocking == written.blocking && folded.kind == written.kind
  {
    hide Tally, CODES, Items, CountsOf, Total, Blockers;
    var e := d.(failedAgents := MaxInt(d.failedAgents, n));
    BlockersAre(d);
    BlockersAre(e);
    ItemsRoundTrip(Blockers(d));
    RaisedByAgents(d, n);
  }

  lemma RaisedByAgents(d: Document, n: nat)
    requires IsCatalog(d)
    ensures Raised(Blockers(d), map[FailedAgents := n]) == Blockers(d.(failedAgents := MaxInt(d.failedAgents, n)))
    ensures Adds(Blockers(d), map[FailedAgents := n]) <==> n > d.failedAgents
    ensures n > d.failedAgents ==> Blockers(d.(failedAgents := MaxInt(d.failedAgents, n))) != map[]
  {
    hide Tally, CODES, Blockers;
    var e := d.(failedAgents := MaxInt(d.failedAgents, n));
    var counts: map<Code, int> := map[FailedAgents := n];
    BlockersAre(d);
    BlockersAre(e);
    RaisedIsPositive(Blockers(d), counts);
    forall c ensures CountAt(Raised(Blockers(d), counts), c) == CountAt(Blockers(e), c) {
      RaisedCount(Blockers(d), counts, c);
      assert BlockerCount(e, c) == MaxInt(BlockerCount(d, c), Asked(counts, c));
    }
    SameCounts(Raised(Blockers(d), counts), Blockers(e));
    assert counts[FailedAgents] == n && CountAt(Blockers(d), FailedAgents) == d.failedAgents;
    assert CountAt(Blockers(e), FailedAgents) == e.failedAgents;
  }
}
