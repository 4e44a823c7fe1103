/**
  The permit protocol as every process sharing the lease store practises it,
  one atomic step at a time: any number of processes, crashes at any point,
  settlements in any order, and operators reclaiming what is held.

  `running` is the set the ceiling is really about: the requests the provider
  may still be working on. No process can see it.
 */
module PermitProtocol {
  import opened Common
  import opened OrganizationQuota

  /** Where one lease's holder is. `Crashed` is a holder that will never act again. */
  datatype Phase = Held | Sent | Answered(proven: bool) | Settled(outcome: Outcome) | Crashed

  datatype State = State(
    leases: map<LeaseId, Expiry>,  // the shared store
    phase: map<LeaseId, Phase>,    // every id ever issued
    running: set<LeaseId>,
    returned: set<LeaseId>,        // slots given back on proof
    reclaimed: set<LeaseId>,       // slots given back by a human
    lapsed: set<LeaseId>)          // slots given back by a timer

  datatype Action =
    | Acquire(id: LeaseId, limit: int, ttl: Option<nat>, now: int)
    | GiveBack(id: LeaseId, storeAnswers: bool)  // refused by a window: nothing was sent
    | Send(id: LeaseId)
    | ProviderFinishes(id: LeaseId)
    | CallEnds(id: LeaseId, proven: bool)
    | Settle(id: LeaseId, storeAnswers: bool)
    | SettleAgain(id: LeaseId)                   // late or repeated
    | Crash(id: LeaseId)
    | OperatorReclaim(id: LeaseId)

  const INITIAL := State(map[], map[], {}, {}, {}, {})

  /** The release a settled lease object performs on the store. */
  function Drop(s: State, id: LeaseId, storeAnswers: bool): State {
    if storeAnswers && id in s.leases
    then s.(leases := s.leases - {id}, returned := s.returned + {id})
    else s
  }

  function Move(s: State, id: LeaseId, p: Phase): State {
    s.(phase := s.phase[id := p])
  }

  ghost predicate Step(s: State, a: Action, s': State) {
    match a
    case Acquire(id, limit, ttl, now) =>
      var live := Live(s.leases, now);
      var purged := s.(leases := live, lapsed := s.lapsed + (s.leases.Keys - live.Keys));
      && id !in s.phase
      && s' == if |live| >= limit then purged
               else Move(purged, id, Held).(leases := WithLease(live, id, ttl, now))
    case GiveBack(id, storeAnswers) =>
      && id in s.phase && s.phase[id] == Held
      && s' == Move(Drop(s, id, storeAnswers), id, Settled(Released))
    case Send(id) =>
      && id in s.phase && s.phase[id] == Held
      && s' == Move(s, id, Sent).(running := s.running + {id})
    case ProviderFinishes(id) =>
      s' == s.(running := s.running - {id})
    case CallEnds(id, proven) =>
      // What "proven" means: structural evidence that the provider is done.
      && id in s.phase && s.phase[id] == Sent
      && (proven ==> id !in s.running)
      && s' == Move(s, id, Answered(proven))
    case Settle(id, storeAnswers) =>
      && id in s.phase && s.phase[id].Answered?
      && s' == if s.phase[id].proven then Move(Drop(s, id, storeAnswers), id, Settled(Released))
               else Move(s, id, Settled(Quarantined))
    case SettleAgain(id) =>
      && id in s.phase && s.phase[id].Settled?
      && s' == s
    case Crash(id) =>
      && id in s.phase && !s.phase[id].Settled?
      && s' == Move(s, id, Crashed)
    case OperatorReclaim(id) =>
      && id in s.leases
      && s' == s.(leases := s.leases - {id}, reclaimed := s.reclaimed + {id})
  }

  ghost predicate Execution(states: seq<State>, acts: seq<Action>) {
    && |states| == |acts| + 1
    && states[0] == INITIAL
    && forall i :: 0 <= i < |acts| ==> Step(states[i], acts[i], states[i + 1])
  }

  /** Every `max_concurrency` any process acquires under is at most `max`. */
  ghost predicate ConfiguredWithin(acts: seq<Action>, max: nat) {
    forall i :: 0 <= i < |acts| && acts[i].Acquire? ==> acts[i].limit <= max
  }

  ghost predicate NoTimer(acts: seq<Action>) {
    forall i :: 0 <= i < |acts| && acts[i].Acquire? ==> acts[i].ttl.None?
  }

  function Reclaims(acts: seq<Action>): nat {
    if acts == [] then 0
    else Reclaims(acts[..|acts| - 1]) + (if acts[|acts| - 1].OperatorReclaim? then 1 else 0)
  }

  /** A request may be running only while its lease's fate is open: sent and
      unproven, quarantined, or lost with its process. */
  predicate MayRun(p: Phase) {
    p == Sent || p == Answered(false) || p == Settled(Quarantined) || p == Crashed
  }

  /** An id that was issued is held, or went back exactly one of three ways;
      and one that went back on proof is not running. */
  predicate Placed(s: State, id: LeaseId) {
    && (id in s.phase <==> id in s.leases || id in s.returned || id in s.reclaimed || id in s.lapsed)
    && (id in s.leases ==> id !in s.returned && id !in s.reclaimed && id !in s.lapsed)
    && (id in s.returned ==> id !in s.reclaimed && id !in s.lapsed)
    && (id in s.reclaimed ==> id !in s.lapsed)
    && (id in s.running ==> id in s.phase && MayRun(s.phase[id]))
    && (id in s.returned ==> id in s.phase && s.phase[id] == Settled(Released))
  }

  /** Slots are conserved. */
  ghost predicate Conserved(s: State) {
    forall id :: Placed(s, id)
  }

  lemma StepConserves(s: State, a: Action, s': State)
    requires Conserved(s) && Step(s, a, s')
    ensures Conserved(s')
  {
    forall id ensures Placed(s', id) {
      assert Placed(s, id);
      if !a.ProviderFinishes? {
        assert Placed(s, a.id);
      }
    }
  }

  lemma StepStaysWithin(s: State, a: Action, s': State, max: nat)
    requires Step(s, a, s') && |s.leases| <= max
    requires a.Acquire? ==> a.limit <= max
    ensures |s'.leases| <= max
  {
    if a.Acquire? {
      var live := Live(s.leases, a.now);
      SubsetSize(live.Keys, s.leases.Keys);
      assert |live| < a.limit ==> s'.leases.Keys == live.Keys + {a.id};
    } else {
      SubsetSize(s'.leases.Keys, s.leases.Keys);
    }
  }

  lemma {:induction false} SubsetSize(a: set<LeaseId>, b: set<LeaseId>)
    requires a <= b
    ensures |a| <= |b|
  {
    if a != {} {
      var x :| x in a;
      SubsetSize(a - {x}, b - {x});
    }
  }

  lemma {:induction false} ReachableIsConserved(states: seq<State>, acts: seq<Action>, max: nat, n: nat)
    requires Execution(states, acts) && ConfiguredWithin(acts, max) && n <= |acts|
    ensures Conserved(states[n]) && |states[n].leases| <= max
    ensures |states[n].reclaimed| <= Reclaims(acts[..n])
    ensures NoTimer(acts) ==> Untimed(states[n].leases) && states[n].lapsed == {}
  {
    if n > 0 {
      ReachableIsConserved(states, acts, max, n - 1);
      assert Step(states[n - 1], acts[n - 1], states[n]);
      StepConserves(states[n - 1], acts[n - 1], states[n]);
      StepStaysWithin(states[n - 1], acts[n - 1], states[n], max);
      StepCounts(states[n - 1], acts[n - 1], states[n]);
      assert acts[..n][..n - 1] == acts[..n - 1];
    }
  }

  lemma StepCounts(s: State, a: Action, s': State)
    requires Step(s, a, s')
    ensures |s'.reclaimed| <= |s.reclaimed| + (if a.OperatorReclaim? then 1 else 0)
    ensures Untimed(s.leases) && s.lapsed == {} && (a.Acquire? ==> a.ttl.None?) ==>
              Untimed(s'.leases) && s'.lapsed == {}
  {
    if a.Acquire? && Untimed(s.leases) {
      assert Live(s.leases, a.now) == s.leases;
    }
  }

  /**
    The ceiling holds for the quantity nobody can observe. In every
    interleaving, with crashes anywhere, the provider is never running more of
    our requests than the largest configured concurrency plus the slots that
    came back without proof: those a human reclaimed and those a timer dropped.
   */
  lemma RunningIsBounded(states: seq<State>, acts: seq<Action>, max: nat, n: nat)
    requires Execution(states, acts) && ConfiguredWithin(acts, max) && n <= |acts|
    ensures |states[n].running| <= max + Reclaims(acts[..n]) + |states[n].lapsed|
  {
    ReachableIsConserved(states, acts, max, n);
    var s := states[n];
    forall id | id in s.running ensures id in s.leases.Keys + s.reclaimed + s.lapsed {
      assert Placed(s, id);
    }
    assert s.running <= s.leases.Keys + s.reclaimed + s.lapsed;
    SubsetSize(s.running, s.leases.Keys + s.reclaimed + s.lapsed);
    UnionSize(s.leases.Keys + s.reclaimed, s.lapsed);
    UnionSize(s.leases.Keys, s.reclaimed);
  }

  /** Without a timer, only an operator can loosen the ceiling. */
  lemma RunningIsBoundedUntimed(states: seq<State>, acts: seq<Action>, max: nat, n: nat)
    requires Execution(states, acts) && ConfiguredWithin(acts, max) && NoTimer(acts) && n <= |acts|
    ensures |states[n].running| <= max + Reclaims(acts[..n])
  {
    RunningIsBounded(states, acts, max, n);
    ReachableIsConserved(states, acts, max, n);
  }

  lemma UnionSize(a: set<LeaseId>, b: set<LeaseId>)
    ensures |a + b| <= |a| + |b|
  {
    assert a + b == a + (b - a);
    SubsetSize(b - a, b);
  }

  /** A slot leaves the store only on proof (its request never sent, or over),
      by a human, or by a timer; and no settlement touches another's slot. */
  lemma SlotsAreFreedOneWay(s: State, a: Action, s': State, id: LeaseId)
    requires Conserved(s) && Step(s, a, s') && id in s.leases && id !in s'.leases
    ensures a.OperatorReclaim? || a.Acquire? || (a.id == id && id !in s'.running)
    ensures a.Acquire? ==> Expired(s.leases[id], a.now)
    ensures a.Settle? || a.GiveBack? ==> forall other :: other != a.id && other in s.leases ==>
              other in s'.leases && s'.leases[other] == s.leases[other]
  {
    assert Placed(s, id);
  }

  /** Every acquisition is configured with one of these timers, or none. */
  ghost predicate Uses(acts: seq<Action>, timers: set<Option<nat>>) {
    forall i :: 0 <= i < |acts| && acts[i].Acquire? ==> acts[i].ttl in timers
  }

  /** A history of one process-wide configuration, its last state, and no human. */
  ghost predicate TimedRun(states: seq<State>, acts: seq<Action>, ttl: nat, last: State) {
    && Execution(states, acts) && ConfiguredWithin(acts, 1) && Uses(acts, {Some(ttl)}) && Reclaims(acts) == 0
    && states[|acts|] == last
  }

  lemma Extend(states: seq<State>, acts: seq<Action>, ttl: nat, s: State, a: Action, s': State)
    requires TimedRun(states, acts, ttl, s) && Step(s, a, s')
    requires !a.OperatorReclaim? && (a.Acquire? ==> a.limit == 1 && a.ttl == Some(ttl))
    ensures TimedRun(states + [s'], acts + [a], ttl, s')
  {
    hide Step;
    assert (acts + [a])[..|acts|] == acts;
  }

  function Holding(ttl: nat, p: Phase): State {
    State(map[0 := At(ttl)], map[0 := p], if p == Held then {} else {0}, {}, {}, {})
  }

  lemma FirstHolderSteps(ttl: nat)
    ensures Step(INITIAL, Acquire(0, 1, Some(ttl), 0), Holding(ttl, Held))
    ensures Step(Holding(ttl, Held), Send(0), Holding(ttl, Sent))
    ensures Step(Holding(ttl, Sent), Crash(0), Holding(ttl, Crashed))
  {
    assert Live(INITIAL.leases, 0) == map[];
  }

  function Replaced(ttl: nat, p: Phase): State {
    State(map[1 := At(ttl + ttl)], map[0 := Crashed][1 := p], if p == Held then {0} else {0, 1}, {}, {}, {0})
  }

  lemma SecondHolderAcquires(ttl: nat)
    ensures Step(Holding(ttl, Crashed), Acquire(1, 1, Some(ttl), ttl), Replaced(ttl, Held))
  {
    var s := Holding(ttl, Crashed);
    var live := Live(s.leases, ttl);
    assert live == map[];
    assert s.leases.Keys == {0} && live.Keys == {};
    assert {} + (s.leases.Keys - live.Keys) == {0};
    var purged := s.(leases := live, lapsed := {} + (s.leases.Keys - live.Keys));
    assert purged == State(map[], map[0 := Crashed], {0}, {}, {}, {0});
    assert WithLease(live, 1, Some(ttl), ttl) == map[1 := At(ttl + ttl)];
    assert Replaced(ttl, Held) == Move(purged, 1, Held).(leases := WithLease(live, 1, Some(ttl), ttl));
  }

  lemma SecondHolderSends(ttl: nat)
    ensures Step(Replaced(ttl, Held), Send(1), Replaced(ttl, Sent))
  {
    var s := Replaced(ttl, Held);
    assert s.phase[1 := Sent] == Replaced(ttl, Sent).phase;
    assert s.running + {1} == {0, 1};
  }

  /**
    A timer is what breaks the ceiling, and every timer does, however long: with
    one slot and no operator, two requests run at once, although nothing lapses
    before its holder is dead.
   */
  lemma TimedReclaimBreaksTheCeiling(ttl: nat) returns (states: seq<State>, acts: seq<Action>)
    ensures Execution(states, acts) && ConfiguredWithin(acts, 1) && Reclaims(acts) == 0 && Uses(acts, {Some(ttl)})
    ensures |states[|acts|].running| == 2
  {
    states, acts := [INITIAL], [];
    assert TimedRun(states, acts, ttl, INITIAL);
    FirstHolderSteps(ttl);
    SecondHolderAcquires(ttl);
    SecondHolderSends(ttl);
    hide Step, TimedRun, Holding, Replaced;
    Extend(states, acts, ttl, INITIAL, Acquire(0, 1, Some(ttl), 0), Holding(ttl, Held));
    states, acts := states + [Holding(ttl, Held)], acts + [Acquire(0, 1, Some(ttl), 0)];
    Extend(states, acts, ttl, Holding(ttl, Held), Send(0), Holding(ttl, Sent));
    states, acts := states + [Holding(ttl, Sent)], acts + [Send(0)];
    Extend(states, acts, ttl, Holding(ttl, Sent), Crash(0), Holding(ttl, Crashed));
    states, acts := states + [Holding(ttl, Crashed)], acts + [Crash(0)];
    Extend(states, acts, ttl, Holding(ttl, Crashed), Acquire(1, 1, Some(ttl), ttl), Replaced(ttl, Held));
    states, acts := states + [Replaced(ttl, Held)], acts + [Acquire(1, 1, Some(ttl), ttl)];
    Extend(states, acts, ttl, Replaced(ttl, Held), Send(1), Replaced(ttl, Sent));
    states, acts := states + [Replaced(ttl, Sent)], acts + [Send(1)];
    TwoAtOnce(states, acts, ttl);
  }

  lemma TwoAtOnce(states: seq<State>, acts: seq<Action>, ttl: nat)
    requires TimedRun(states, acts, ttl, Replaced(ttl, Sent))
    ensures Execution(states, acts) && ConfiguredWithin(acts, 1) && Reclaims(acts) == 0 && Uses(acts, {Some(ttl)})
    ensures |states[|acts|].running| == 2
  {
    hide Execution, ConfiguredWithin, Uses;
  }

  /** The ceiling every execution under these timer settings keeps, whatever the
      configured concurrency and however many slots humans give back. */
  ghost predicate CeilingHolds(timers: set<Option<nat>>) {
    forall states: seq<State>, acts: seq<Action>, max: nat | Execution(states, acts) && ConfiguredWithin(acts, max)
        && Uses(acts, timers) ::
      |states[|acts|].running| <= max + Reclaims(acts)
  }

  /** The concurrency ceiling is kept in every execution exactly when no process
      is configured to reclaim on a timer. */
  lemma CeilingHoldsIffUntimed(timers: set<Option<nat>>)
    ensures CeilingHolds(timers) <==> forall t :: t in timers ==> t.None?
  {
    if forall t :: t in timers ==> t.None? {
      forall states: seq<State>, acts: seq<Action>, max: nat | Execution(states, acts) && ConfiguredWithin(acts, max)
          && Uses(acts, timers)
        ensures |states[|acts|].running| <= max + Reclaims(acts)
      {
        RunningIsBoundedUntimed(states, acts, max, |acts|);
        assert acts[..|acts|] == acts;
      }
    } else {
      var t :| t in timers && t.Some?;
      var states, acts := TimedReclaimBreaksTheCeiling(t.value);
      assert Uses(acts, timers);
    }
  }

  // -- the organization's methods take these steps --------------------------------------------

  /** Acquiring through the coordinator is an `Acquire` step, or no step at all
      while the organization is paused. */
  method PerformAcquire(c: ProviderQuotaCoordinator, ghost s: State, id: LeaseId, now: int)
    returns (lease: InferenceLease?, ghost s': State)
    requires s.leases == c.backend.leases && id !in s.phase && c.config.maxConcurrency >= 0
    modifies c.backend`leases, c.backend`acquired
    ensures s'.leases == c.backend.leases
    ensures s' == s || Step(s, Acquire(id, c.config.maxConcurrency, c.config.abandonedReclaimMs, now), s')
    ensures lease != null ==>
        lease.id == id && lease.outcome == None && s' != s && id in s'.phase && s'.phase[id] == Held
  {
    lease := c.TryAcquireInference(id, now);
    var live := Live(s.leases, now);
    var purged := s.(leases := live, lapsed := s.lapsed + (s.leases.Keys - live.Keys));
    if lease != null {
      s' := Move(purged, id, Held).(leases := WithLease(live, id, c.config.abandonedReclaimMs, now));
    } else if c.backend.leases == s.leases {
      s' := s;
    } else {
      s' := purged;
    }
  }

  /** Settling a lease is the settlement step of its holder, or a repeat that
      changes nothing. */
  method PerformSettle(lease: InferenceLease, ghost s: State, proven: bool,
      storeAnswers: bool) returns (ghost s': State)
    requires s.leases == lease.coordinator.backend.leases && lease.id in s.phase
    requires lease.outcome.None? ==> s.phase[lease.id] == Answered(proven)
    requires lease.outcome.Some? ==> s.phase[lease.id] == Settled(lease.outcome.value)
    modifies lease`outcome, lease.coordinator.backend`leases, lease.coordinator.backend`acquired
    ensures s'.leases == lease.coordinator.backend.leases
    ensures Step(s, if old(lease.outcome).None? then Settle(lease.id, storeAnswers) else SettleAgain(lease.id), s')
    ensures lease.outcome.Some? && s'.phase[lease.id] == Settled(lease.outcome.value)
  {
    ghost var before := lease.outcome;
    var _ := lease.Settle(proven, storeAnswers);
    if before.Some? {
      s' := s;
    } else if proven {
      s' := Move(Drop(s, lease.id, storeAnswers), lease.id, Settled(Released));
      assert s.leases - {lease.id} == (if lease.id in s.leases then s.leases - {lease.id} else s.leases);
    } else {
      s' := Move(s, lease.id, Settled(Quarantined));
    }
  }

  /** A refused window gives the lease back before anything is sent. */
  method PerformGiveBack(lease: InferenceLease, ghost s: State, storeAnswers: bool) returns (ghost s': State)
    requires s.leases == lease.coordinator.backend.leases && lease.id in s.phase
    requires lease.outcome.None? && s.phase[lease.id] == Held
    modifies lease`outcome, lease.coordinator.backend`leases, lease.coordinator.backend`acquired
    ensures s'.leases == lease.coordinator.backend.leases
    ensures Step(s, GiveBack(lease.id, storeAnswers), s')
  {
    var _ := lease.Release(storeAnswers);
    s' := Move(Drop(s, lease.id, storeAnswers), lease.id, Settled(Released));
    assert s.leases - {lease.id} == (if lease.id in s.leases then s.leases - {lease.id} else s.leases);
  }

  /** A reclaim is an `OperatorReclaim` step exactly when it is allowed. */
  method PerformReclaim(c: ProviderQuotaCoordinator, ghost s: State, id: LeaseId, reasonRecorded: bool, now: int)
    returns (reclaimed: bool, ghost s': State)
    requires s.leases == c.backend.leases
    modifies c.backend`leases, c.backend`acquired
    ensures s'.leases == c.backend.leases
    ensures if reclaimed then Step(s, OperatorReclaim(id), s') else s' == s
  {
    reclaimed := c.OperatorReclaim(id, reasonRecorded, now);
    s' := if reclaimed then s.(leases := s.leases - {id}, reclaimed := s.reclaimed + {id}) else s;
  }
}
