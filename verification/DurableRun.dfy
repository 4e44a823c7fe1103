/**
  One run across processes. Each holder of the lease works on a tracker of its
  own, restored from what is durable; it may crash, or lose the lease, between
  any two operations. A request it was admitted to send may still go out later,
  even after another process has taken over.
 */
module DurableRun {
  import opened Common
  import opened BudgetTracker
  import opened RunAccounting
  import Ledger = UsageLedger

  datatype Life = Life(
    live: Option<Tracker>,           // the lease holder's tracker
    row: Ledger.Snapshot,            // its ledger row, merged by maximum
    copies: seq<Ledger.Snapshot>,    // other durable records: public usage, checkpoints
    ready: nat, sent: nat,           // requests admitted durably and not yet sent, and sent
    chargedSearches: nat, searched: nat)

  datatype Action =
    | Work(step: Step, now: real, written: bool) // one tracker operation, and whether the row was written
    | Send                                       // an admitted request goes out
    | Search                                     // a charged mediated search is performed
    | Copy(record: Ledger.Snapshot, now: real)   // a record of the live ledger is kept elsewhere
    | LoseLease                                  // crash, or another process reclaims the run
    | Resume(now: real)

  /** The mediated path performs a search only when its settlement returned. */
  predicate SearchMayRun(c: Config, t: Tracker, step: Step) {
    && step.e.SettleSearches? && step.e.preExecution && step.e.actual == Some(1)
    && step.e.seq' in t.openSearches && step.recorded
    && SearchAccepted(c, t, step.e.seq', Some(1), step.e.unit, true)
  }

  /** A request may be sent only when its admission was recorded first. */
  predicate RequestMayGo(c: Config, t: Tracker, step: Step) {
    step.e.Open? && Admissible(c, t, step.e.r, step.e.g) && step.recorded
  }

  /** Some or all of the fields of a record, still valid on its own. */
  ghost predicate Projects(record: Ledger.Snapshot, full: Ledger.Snapshot) {
    Ledger.Valid(record) && forall f :: f in record ==> f in full && record[f] == full[f]
  }

  function Sources(s: Life): seq<Option<Ledger.Snapshot>> {
    [Some(s.row)] + seq(|s.copies|, i requires 0 <= i < |s.copies| => Some(s.copies[i]))
  }

  ghost predicate Possible(s: Life, a: Action) {
    match a
    case Work(step, now, written) =>
      && s.live.Some? && now >= s.live.value.startedAt
      && (step.recorded ==> written)     // an answer may be lost after the row was written
      && (step.e.SettleSearches? ==> step.e.unit >= 0.0)
    case Send => s.ready > 0
    case Search => s.chargedSearches > 0
    case Copy(record, now) =>
      && s.live.Some? && now >= s.live.value.startedAt
      && Projects(record, LedgerSnapshot(s.live.value, now))
    case LoseLease => true
    case Resume(now) => true
  }

  function After(c: Config, s: Life, a: Action): Life
    requires a.Work? || a.Copy? ==> s.live.Some?
    requires a.Send? ==> s.ready > 0
    requires a.Search? ==> s.chargedSearches > 0
  {
    match a
    case Work(step, now, written) =>
      var t' := Next(c, s.live.value, step);
      s.(live := Some(t'),
         row := if written then Recorded(s.row, t', now) else s.row,
         ready := if RequestMayGo(c, s.live.value, step) then s.ready + 1 else s.ready,
         chargedSearches := if SearchMayRun(c, s.live.value, step) then s.chargedSearches + 1 else s.chargedSearches)
    case Send => s.(ready := s.ready - 1, sent := s.sent + 1)
    case Search => s.(chargedSearches := s.chargedSearches - 1, searched := s.searched + 1)
    case Copy(record, now) => s.(copies := s.copies + [record])
    case LoseLease => s.(live := None)
    case Resume(now) => s.(live := Some(Restored(NewTracker(now), Ledger.Merged(Sources(s)), now)))
  }

  function Created(): Life {
    Life(None, map[], [], 0, 0, 0, 0)
  }

  /** A life: every action possible where it happens. */
  ghost predicate History(c: Config, lives: seq<Life>, actions: seq<Action>) {
    && |lives| == |actions| + 1 && lives[0] == Created()
    && forall i :: 0 <= i < |actions| ==> Happens(c, lives[i], actions[i], lives[i + 1])
  }

  ghost predicate Happens(c: Config, s: Life, a: Action, s': Life) {
    Possible(s, a) && s' == After(c, s, a)
  }

  // -- what a record shows of a tracker -------------------------------------------------

  predicate Billable(t: Tracker) {
    t.spent.estimated >= 0.0 && t.spent.actual >= 0.0 && t.spent.searchCost >= 0.0
  }

  lemma SnapshotIsValid(t: Tracker, now: real)
    requires Billable(t) && now >= t.startedAt
    ensures Ledger.Valid(LedgerSnapshot(t, now))
  {
    forall f ensures Ledger.ValidAt(LedgerSnapshot(t, now), f) {
    }
  }

  /** Recording a tracker moves each counter of the row up to the tracker's. */
  lemma RecordedCounts(row: Ledger.Snapshot, t: Tracker, now: real)
    requires Ledger.Valid(row) && Billable(t) && now >= t.startedAt
    ensures Ledger.Valid(Recorded(row, t, now))
    ensures CountOf(Recorded(row, t, now), Ledger.ModelCalls) ==
        MaxInt(CountOf(row, Ledger.ModelCalls), t.spent.modelCalls)
    ensures CountOf(Recorded(row, t, now), Ledger.SearchInvocations)
            == MaxInt(CountOf(row, Ledger.SearchInvocations), t.spent.searches)
  {
    hide LedgerSnapshot, Ledger.Valid;
    var snapshot := LedgerSnapshot(t, now);
    SnapshotIsValid(t, now);
    Ledger.MergedIsValid([Some(row), Some(snapshot)]);
    PairCounts(row, snapshot, Ledger.ModelCalls);
    PairCounts(row, snapshot, Ledger.SearchInvocations);
    SnapshotCounts(t, now);
  }

  lemma SnapshotCounts(t: Tracker, now: real)
    ensures CountOf(LedgerSnapshot(t, now), Ledger.ModelCalls) == t.spent.modelCalls
    ensures CountOf(LedgerSnapshot(t, now), Ledger.SearchInvocations) == t.spent.searches
  {
  }

  lemma PairCounts(a: Ledger.Snapshot, b: Ledger.Snapshot, f: Ledger.Field)
    requires Ledger.Valid(a) && Ledger.Valid(b) && Counter(f)
    ensures CountOf(Ledger.Merged([Some(a), Some(b)]), f) == MaxInt(CountOf(a, f), CountOf(b, f))
  {
    hide Ledger.Valid, Ledger.Join, Ledger.Contribution, Ledger.Normal;
    Ledger.FoldedPair(Some(a), Some(b));
    Ledger.ContributionIsNormal(Some(a));
    Ledger.ContributionIsNormal(Some(b));
    Ledger.JoinUses(Ledger.Contribution(Some(a)), Ledger.Contribution(Some(b)), f);
    ContributedCount(a, f);
    ContributedCount(b, f);
    MergedCount([Some(a), Some(b)], f);
  }

  predicate Counter(f: Ledger.Field) {
    f == Ledger.ModelCalls || f == Ledger.SearchInvocations
  }

  lemma ContributedCount(s: Ledger.Snapshot, f: Ledger.Field)
    requires Ledger.Valid(s) && Counter(f)
    ensures Ledger.Whole(Ledger.Contribution(Some(s)), f) == CountOf(s, f)
  {
    assert Ledger.ValidAt(s, f);
    assert Ledger.At(Ledger.Measures(s), f) == Ledger.Measure(s, f);
  }

  lemma MergedCount(records: seq<Option<Ledger.Snapshot>>, f: Ledger.Field)
    requires Counter(f)
    ensures Ledger.Whole(Ledger.Merged(records), f) == Ledger.Whole(Ledger.Folded(records), f)
  {
  }

  /** A resumed process starts from at least what every record shows, and from no
      more than the largest of them. */
  lemma ResumedCount(records: seq<Option<Ledger.Snapshot>>, f: Ledger.Field, most: nat)
    requires Ledger.AllAcceptable(records) && Counter(f)
    requires forall i :: 0 <= i < |records| ==> records[i].Some? && Ledger.Valid(records[i].value)
    ensures forall i :: 0 <= i < |records| ==> CountOf(records[i].value, f) <= CountOf(Ledger.Merged(records), f)
    ensures (forall i :: 0 <= i < |records| ==> CountOf(records[i].value, f) <= most) ==>
              CountOf(Ledger.Merged(records), f) <= most
  {
    hide Ledger.Valid, Ledger.Contribution, Ledger.Normal, Ledger.Merged, Ledger.Acceptable;
    Ledger.MergeIsTheMaximum(records, f);
    MergedCount(records, f);
    UsedIsTheCount(Ledger.Folded(records), f) by { Ledger.FoldedIsNormal(records); }
    forall i | 0 <= i < |records|
      ensures Ledger.Used(Ledger.Contribution(records[i]), f) == CountOf(records[i].value, f) as real
    {
      ContributedCount(records[i].value, f);
      Ledger.ContributionIsNormal(records[i]);
      UsedIsTheCount(Ledger.Contribution(records[i]), f);
    }
  }

  lemma UsedIsTheCount(m: Ledger.Snapshot, f: Ledger.Field)
    requires Ledger.Normal(m) && Counter(f)
    ensures Ledger.Used(m, f) == Ledger.Whole(m, f) as real && Ledger.Whole(m, f) >= 0
  {
    assert Ledger.NormalAt(f, Ledger.At(m, f));
  }

  /** Resuming from the last recorded ledger restores exactly what was spent. */
  lemma RestoreKeepsSpending(t: Tracker, now: real, later: real)
    requires Billable(t) && now >= t.startedAt
    ensures var resumed := Restored(NewTracker(later), Ledger.Merged([Some(LedgerSnapshot(t, now))]), later);
            resumed.spent == t.spent && later - resumed.startedAt == now - t.startedAt
  {
    hide LedgerSnapshot, SpentIn, AmountOf, Ledger.Merged, Ledger.Valid;
    SnapshotIsValid(t, now);
    MergedWithNothing(LedgerSnapshot(t, now));
    SameSpending(LedgerSnapshot(t, now), Ledger.Merged([Some(LedgerSnapshot(t, now))]));
    SnapshotSpending(t, now);
  }

  lemma MergedWithNothing(s: Ledger.Snapshot)
    requires Ledger.Valid(s)
    ensures forall f :: Ledger.IsMeasured(f) ==> Ledger.At(Ledger.Merged([Some(s)]), f) == Ledger.Measure(s, f)
  {
    Ledger.FoldedOne(Some(s));
    forall f | Ledger.IsMeasured(f) ensures Ledger.At(Ledger.Merged([Some(s)]), f) == Ledger.Measure(s, f) {
      assert Ledger.At(Ledger.Measures(s), f) == Ledger.Measure(s, f);
    }
  }

  lemma SnapshotSpending(t: Tracker, now: real)
    requires Billable(t) && now >= t.startedAt
    ensures SpentIn(LedgerSnapshot(t, now)) == t.spent
    ensures AmountOf(LedgerSnapshot(t, now), Ledger.ElapsedSeconds) == now - t.startedAt
  {
    hide CountOf, AmountOf, LedgerSnapshot;
    SnapshotCalls(t, now);
    SnapshotWork(t, now);
    SnapshotAmounts(t, now);
  }

  lemma SnapshotCalls(t: Tracker, now: real)
    ensures CountOf(LedgerSnapshot(t, now), Ledger.ModelCalls) == t.spent.modelCalls
    ensures CountOf(LedgerSnapshot(t, now), Ledger.ProviderAttempts) == t.spent.attempts
    ensures CountOf(LedgerSnapshot(t, now), Ledger.ProviderFailures) == t.spent.failures
    ensures CountOf(LedgerSnapshot(t, now), Ledger.InputTokens) == t.spent.input
  {
  }

  lemma SnapshotWork(t: Tracker, now: real)
    ensures CountOf(LedgerSnapshot(t, now), Ledger.OutputTokens) == t.spent.output
    ensures CountOf(LedgerSnapshot(t, now), Ledger.Retries) == t.spent.retries
    ensures CountOf(LedgerSnapshot(t, now), Ledger.AgentSteps) == t.spent.steps
    ensures CountOf(LedgerSnapshot(t, now), Ledger.SearchInvocations) == t.spent.searches
  {
  }

  lemma SnapshotAmounts(t: Tracker, now: real)
    requires Billable(t) && now >= t.startedAt
    ensures AmountOf(LedgerSnapshot(t, now), Ledger.EstimatedCost) == t.spent.estimated
    ensures AmountOf(LedgerSnapshot(t, now), Ledger.ActualCost) == t.spent.actual
    ensures AmountOf(LedgerSnapshot(t, now), Ledger.SearchCost) == t.spent.searchCost
    ensures AmountOf(LedgerSnapshot(t, now), Ledger.ElapsedSeconds) == now - t.startedAt
  {
  }

  lemma SameSpending(a: Ledger.Snapshot, b: Ledger.Snapshot)
    requires forall f :: Ledger.IsMeasured(f) ==> Ledger.At(b, f) == Ledger.Measure(a, f)
    ensures SpentIn(a) == SpentIn(b) && AmountOf(a, Ledger.ElapsedSeconds) == AmountOf(b, Ledger.ElapsedSeconds)
  {
    hide CountOf, AmountOf, Ledger.At, Ledger.Measure;
    SameCounters(a, b);
    SameAmounts(a, b);
  }

  lemma SameCounter(a: Ledger.Snapshot, b: Ledger.Snapshot, f: Ledger.Field)
    requires Ledger.At(b, f) == Ledger.Measure(a, f) && Ledger.IsMeasured(f) && !Ledger.IsAmount(f)
    ensures CountOf(a, f) == CountOf(b, f)
  {
  }

  lemma SameAmount(a: Ledger.Snapshot, b: Ledger.Snapshot, f: Ledger.Field)
    requires Ledger.At(b, f) == Ledger.Measure(a, f) && Ledger.IsAmount(f)
    ensures AmountOf(a, f) == AmountOf(b, f)
  {
  }

  lemma SameCounters(a: Ledger.Snapshot, b: Ledger.Snapshot)
    requires forall f :: Ledger.IsMeasured(f) ==> Ledger.At(b, f) == Ledger.Measure(a, f)
    ensures forall f :: Ledger.IsMeasured(f) && !Ledger.IsAmount(f) ==> CountOf(a, f) == CountOf(b, f)
  {
    hide CountOf;
    forall f | Ledger.IsMeasured(f) && !Ledger.IsAmount(f) ensures CountOf(a, f) == CountOf(b, f) {
      SameCounter(a, b, f);
    }
  }

  lemma SameAmounts(a: Ledger.Snapshot, b: Ledger.Snapshot)
    requires forall f :: Ledger.IsMeasured(f) ==> Ledger.At(b, f) == Ledger.Measure(a, f)
    ensures forall f :: Ledger.IsAmount(f) ==> AmountOf(a, f) == AmountOf(b, f)
  {
    hide AmountOf;
    forall f | Ledger.IsAmount(f) ensures AmountOf(a, f) == AmountOf(b, f) {
      SameAmount(a, b, f);
    }
  }

  // -- what every life keeps ---------------------------------------------------------------

  /** The holder knows at least what its row shows. */
  predicate Ahead(t: Tracker, row: Ledger.Snapshot) {
    && Billable(t)
    && t.spent.modelCalls >= CountOf(row, Ledger.ModelCalls)
    && t.spent.searches >= CountOf(row, Ledger.SearchInvocations)
  }

  predicate CallsBelow(c: Config, s: Ledger.Snapshot) {
    c.maxCalls.Some? ==> CountOf(s, Ledger.ModelCalls) <= c.maxCalls.value
  }

  ghost predicate Sound(c: Config, s: Life) {
    && Ledger.Valid(s.row) && CallsBelow(c, s.row)
    && (forall i :: 0 <= i < |s.copies| ==> Ledger.Valid(s.copies[i]) && CallsBelow(c, s.copies[i]))
    && (s.live.Some? ==> Ahead(s.live.value, s.row) && CallsWithin(c, s.live.value))
    && s.sent + s.ready <= CountOf(s.row, Ledger.ModelCalls)
    && s.searched + s.chargedSearches <= CountOf(s.row, Ledger.SearchInvocations)
    && (c.maxSearches.Some? ==> s.searched + s.chargedSearches <= c.maxSearches.value)
  }

  /** No operation takes back a call or a search. */
  lemma StepOnlyAdds(c: Config, t: Tracker, step: Step)
    requires Billable(t) && c.perCall >= 0.0 && (step.e.SettleSearches? ==> step.e.unit >= 0.0)
    ensures var t' := Next(c, t, step);
            && Billable(t') && t'.startedAt == t.startedAt
            && t'.spent.modelCalls >= t.spent.modelCalls && t'.spent.searches >= t.spent.searches
            && (RequestMayGo(c, t, step) ==> t'.spent.modelCalls == t.spent.modelCalls + 1)
  {
    hide Admissible, Allowance, WorstCase, SearchFits, Overage, PriceRefuses, SearchOverage;
    if step.e.SettleSearches? && step.e.seq' in t.openSearches {
      var charged := SearchesCharged(t, step.e.seq', step.e.actual);
      assert step.e.unit * charged as real >= 0.0;
    }
  }

  lemma SearchIsCounted(c: Config, t: Tracker, step: Step)
    requires SearchMayRun(c, t, step)
    ensures Next(c, t, step).spent.searches == t.spent.searches + 1
    ensures c.maxSearches.Some? ==> t.spent.searches + 1 <= c.maxSearches.value
  {
  }

  lemma WorkIsSound(c: Config, s: Life, step: Step, now: real, written: bool)
    requires Sound(c, s) && c.perCall >= 0.0 && Possible(s, Work(step, now, written))
    ensures Sound(c, After(c, s, Work(step, now, written)))
  {
    hide Next, RequestMayGo, SearchMayRun, CountOf, Recorded, Ledger.Valid;
    var t := s.live.value;
    StepOnlyAdds(c, t, step);
    StepKeepsCalls(c, t, step);
    RecordedCounts(s.row, Next(c, t, step), now);
    if RequestMayGo(c, t, step) {
      assert step.recorded && !SearchMayRun(c, t, step) by { OneOrTheOther(c, t, step); }
    }
    if SearchMayRun(c, t, step) {
      SearchIsCounted(c, t, step);
      assert step.recorded && !RequestMayGo(c, t, step) by { OneOrTheOther(c, t, step); }
    }
  }

  lemma OneOrTheOther(c: Config, t: Tracker, step: Step)
    ensures RequestMayGo(c, t, step) || SearchMayRun(c, t, step) ==> step.recorded
    ensures !(RequestMayGo(c, t, step) && SearchMayRun(c, t, step))
  {
  }

  lemma CopyIsSound(c: Config, s: Life, record: Ledger.Snapshot, now: real)
    requires Sound(c, s) && Possible(s, Copy(record, now))
    ensures Sound(c, After(c, s, Copy(record, now)))
  {
    hide Ledger.Valid;
    assert CountOf(record, Ledger.ModelCalls) <= s.live.value.spent.modelCalls;
  }

  lemma ResumeIsSound(c: Config, s: Life, now: real)
    requires Sound(c, s)
    ensures Sound(c, After(c, s, Resume(now)))
  {
    hide Ledger.Valid, CountOf, AmountOf, Ledger.Merged;
    var records := Sources(s);
    assert records[0] == Some(s.row);
    forall i | 0 <= i < |records|
      ensures Ledger.Acceptable(records[i]) && records[i].Some? && Ledger.Valid(records[i].value)
      ensures CallsBelow(c, records[i].value)
    {
      if i > 0 {
        assert records[i] == Some(s.copies[i - 1]);
      }
    }
    ResumedCount(records, Ledger.ModelCalls, if c.maxCalls.Some? then c.maxCalls.value else 0);
    ResumedCount(records, Ledger.SearchInvocations, 0);
    AmountsAreNonNegative(Ledger.Merged(records));
  }

  lemma AmountsAreNonNegative(s: Ledger.Snapshot)
    ensures AmountOf(s, Ledger.EstimatedCost) >= 0.0 && AmountOf(s, Ledger.ActualCost) >= 0.0
    ensures AmountOf(s, Ledger.SearchCost) >= 0.0
  {
  }

  lemma ActionIsSound(c: Config, s: Life, a: Action)
    requires Sound(c, s) && c.perCall >= 0.0 && Possible(s, a)
    ensures Sound(c, After(c, s, a))
  {
    hide Ledger.Valid, CountOf, Next, Recorded, RequestMayGo, SearchMayRun, Projects, Ledger.Merged, Restored;
    match a {
      case Work(step, now, written) => WorkIsSound(c, s, step, now, written);
      case Copy(record, now) => CopyIsSound(c, s, record, now);
      case Resume(now) => ResumeIsSound(c, s, now);
      case _ =>
    }
  }

  lemma {:induction false} LifeIsSound(c: Config, lives: seq<Life>, actions: seq<Action>, n: nat)
    requires c.perCall >= 0.0 && History(c, lives, actions) && n <= |actions|
    ensures Sound(c, lives[n])
  {
    hide Sound, Possible, After;
    if n == 0 {
      NothingIsSound(c);
    } else {
      LifeIsSound(c, lives, actions, n - 1);
      assert Happens(c, lives[n - 1], actions[n - 1], lives[n]);
      ActionIsSound(c, lives[n - 1], actions[n - 1]);
    }
  }

  /**
    However often a run crashes, loses its lease and is resumed, and whenever
    the requests it admitted go out, the provider never sees more of them than
    the run may make, and no more mediated searches are performed than it may.
   */
  lemma ARunStaysWithinItsCeilings(c: Config, lives: seq<Life>, actions: seq<Action>, n: nat)
    requires c.perCall >= 0.0 && History(c, lives, actions) && n <= |actions|
    ensures c.maxCalls.Some? ==> lives[n].sent <= c.maxCalls.value
    ensures c.maxSearches.Some? ==> lives[n].searched <= c.maxSearches.value
    ensures lives[n].sent <= CountOf(lives[n].row, Ledger.ModelCalls)
    ensures lives[n].searched <= CountOf(lives[n].row, Ledger.SearchInvocations)
  {
    hide CountOf, Happens;
    LifeIsSound(c, lives, actions, n);
  }

  lemma NothingIsSound(c: Config)
    ensures Sound(c, Created())
  {
  }
}
