/**
  The process-local scheduler: a second, tighter guard in front of the
  organization's permits, and the loop every provider request goes through.

  What the scheduler cannot decide - the clock, cancellation, what the store or
  the provider answers, whether a callback raises, what other threads and other
  processes do meanwhile - is a script the caller passes in, without end, so
  every contract below is about every such script.
 */
module ProviderScheduler {
  import opened Common
  import opened RollingWindow
  import opened OrganizationQuota
  import ProviderVerdicts

  const WINDOW: real := 60.0
  const WAIT_CHUNK: real := 1.0
  const SLOT_POLL: real := 0.05
  const LEAST_DELAY: real := 0.001

  datatype Limits = Limits(
    maxConcurrency: nat, rpm: Option<nat>, tpm: Option<nat>,
    maxRetries: nat, maxWait: real, backoffBase: real, backoffMax: real)

  /** What configuration validation guarantees: positive numbers. */
  predicate Configured(c: Limits) {
    && c.maxConcurrency > 0 && c.maxRetries > 0
    && (c.rpm.Some? ==> c.rpm.value > 0) && (c.tpm.Some? ==> c.tpm.value > 0)
    && c.maxWait > 0.0 && c.backoffBase > 0.0 && c.backoffMax > 0.0
  }

  /** How a wait for capacity ends. */
  datatype Waited = Proceed(seconds: real) | Cancelled | Exhausted | Raised

  /** How one whole call through the scheduler ends. */
  datatype Exit =
    | Returned
    | QuotaRefused                     // the account is out of quota
    | BackpressureExceeded             // the wait or the retries ran out
    | RunCancelled
    | ProviderRaised(e: ProviderVerdicts.Failure)
    | OtherRaised                      // the store, a callback or the probe raised
    | InterruptedInAdmission           // a non-Exception raise while a window was consulted
    | StrandedByFailedProbe            // the probe failed to start AND giving the lease back raised

  datatype Offer = Granted | Retry(delay: real) | Failed(exit: Exit)

  /** Pairwise different leases. */
  ghost predicate Fresh(taken: seq<InferenceLease>) {
    forall i, j :: 0 <= i < j < |taken| ==> taken[i] != taken[j]
  }

  // -- what the world answers ---------------------------------------------------------

  /** What another thread of this process does while this one is suspended. */
  datatype LocalStep = Admits(estimated: int, now: real) | TakesSlot | GivesSlot

  /** One pass of waiting for the local windows. A sleep is interrupted after as
      many cancellation checks as `sleep` says, or never. */
  datatype WindowPass = WindowPass(
    cancelled: bool, others: seq<LocalStep>, reading: real, callbackRaises: bool, sleep: Option<nat>)

  /** One pass of waiting for a slot. */
  datatype SlotPass = SlotPass(cancelled: bool, callbackRaises: bool, cancelledAfter: bool, others: seq<LocalStep>)

  /** A request another process offers, under limits of its own. */
  datatype Offered = Offered(maxRpm: int, maxTpm: int, reserved: int, at: int)

  /** What other processes have made of the shared store since the last look. */
  datatype Elsewhere = Elsewhere(
    leases: map<LeaseId, Expiry>, acquired: map<LeaseId, int>, pauses: map<Pause, int>, offers: seq<Offered>)

  /** How a window check is cut short. KeyboardInterrupt and SystemExit are not
      an `Exception`; the check may have been made by then, or not. */
  datatype Interruption = Uninterrupted | StoreRaises | NotAnException

  /** One pass at the organization. */
  datatype OrgPass = OrgPass(
    cancelled: bool, elsewhere: Elsewhere, acquireRaises: bool, id: LeaseId, acquiredAt: int, admittedAt: int,
    interruption: Interruption, consulted: bool, releaseAnswers: bool, callbackRaises: bool, sleep: Option<nat>)

  /** One turn of the loop, answered from outside: what each wait meets, pass by
      pass, whether the probe starts, what the provider raises, and who answers. */
  datatype TurnScript = TurnScript(
    window: nat -> WindowPass, cancelled: bool, slotOthers: seq<LocalStep>, slot: nat -> SlotPass, org: nat -> OrgPass,
    probeStarts: bool, probeReleaseAnswers: bool, call: Option<ProviderVerdicts.Failure>, signalRaises: bool,
        jitter: real,
    settlementAnswers: bool, sinkAnswers: bool, callbackRaises: bool, sleep: Option<nat>)

  /** One lease this call took, and what became of its request. */
  datatype Attempt = Attempt(lease: InferenceLease, sent: bool, proven: bool)

  function Cap(limit: Option<nat>): (cap: Option<int>) {
    if limit.Some? then Some(limit.value) else None
  }

  /** The delay `_try_admit` answers, from what the two queues still hold. */
  function AdmissionDelay(c: Limits, requests: seq<Entry>, tokens: seq<Entry>, estimated: int, now: real): real
    requires Configured(c)
  {
    var forRequests :=
      if c.rpm.Some? && |requests| >= c.rpm.value then Max(0.0, WINDOW - (now - requests[0].at)) else 0.0;
    var delay :=
      if c.tpm.Some? && estimated > 0 && tokens != [] && Weight(tokens) + estimated > c.tpm.value
      then Max(forRequests, WINDOW - (now - tokens[0].at)) else forRequests;
    if delay > 0.0 then Max(delay, LEAST_DELAY) else 0.0
  }

  /** Does one more request fit into the windows that end now? */
  predicate Fits(c: Limits, requests: seq<Entry>, tokens: seq<Entry>, estimated: int) {
    && (c.rpm.Some? ==> |requests| + 1 <= c.rpm.value)
    && (c.tpm.Some? && estimated > 0 ==> Weight(tokens) + estimated <= c.tpm.value)
  }

  /** The queue admits exactly what fits - and, alone in its window, a request
      larger than the token limit: an empty token queue is not compared with it.
      Only the guard in `_admit` refuses that one. */
  lemma DelayMeansFull(c: Limits, requests: seq<Entry>, tokens: seq<Entry>, estimated: int, now: real)
    requires Configured(c)
    requires AllAfter(requests, now - WINDOW) && AllAfter(tokens, now - WINDOW)
    ensures AdmissionDelay(c, requests, tokens, estimated, now) == 0.0 <==>
              || Fits(c, requests, tokens, estimated)
              || (tokens == [] && c.tpm.Some? && estimated > c.tpm.value && Fits(c, requests, tokens, 0))
    ensures AdmissionDelay(c, requests, tokens, estimated, now) != 0.0 ==>
              AdmissionDelay(c, requests, tokens, estimated, now) >= LEAST_DELAY
  {
    assert requests != [] ==> requests[0].at > now - WINDOW;
    assert tokens != [] ==> tokens[0].at > now - WINDOW;
  }

  /** How long: until every queue that is too full has lost its oldest entry, and
      not a moment longer - but at least a millisecond. */
  lemma DelayIsUntilTheOldestLeave(c: Limits, requests: seq<Entry>, tokens: seq<Entry>, estimated: int, now: real)
    requires Configured(c)
    requires AllAfter(requests, now - WINDOW) && AllAfter(tokens, now - WINDOW)
    ensures var delay := AdmissionDelay(c, requests, tokens, estimated, now);
            var byRequests := c.rpm.Some? && |requests| >= c.rpm.value;
            var byTokens := c.tpm.Some? && estimated > 0 && tokens != [] && Weight(tokens) + estimated > c.tpm.value;
            && (byRequests ==> now + delay >= requests[0].at + 60.0)
            && (byTokens ==> now + delay >= tokens[0].at + 60.0)
            && (delay > 0.001 ==> (byRequests && now + delay == requests[0].at + 60.0)
                                  || (byTokens && now + delay == tokens[0].at + 60.0))
            && (delay == 0.0 || delay >= 0.001) && (delay > 0.0 <==> byRequests || byTokens)
  {
    assert requests != [] ==> requests[0].at > now - WINDOW;
    assert tokens != [] ==> tokens[0].at > now - WINDOW;
  }

  /** In every history, sorted arrivals keep a sorted queue. */
  lemma AppendKeepsOrder(history: seq<Entry>, e: Entry)
    requires Sorted(history) && NoneAfter(history, e.at)
    ensures Sorted(history + [e])
  {
  }

  /** A deque of admissions with, beside it, everything it ever admitted. */
  class StartQueue {
    var entries: seq<Entry>
    const cap: Option<int>
    ghost var history: seq<Entry>
    ghost var lo: real      // entries up to here have been dropped
    ghost var clock: real

    ghost predicate Valid()
      reads this
    {
      Tracks(entries, history, lo, clock, WINDOW, cap) && Sorted(history)
    }

    constructor (cap: Option<int>, now: real)
      requires cap.Some? ==> cap.value >= 0
      ensures Valid() && history == [] && clock == now && this.cap == cap
    {
      this.cap := cap;
      entries, history, lo, clock := [], [], now - WINDOW, now;
    }

    /** Popping expired entries from the front forgets exactly what a filter
        over the whole history would, because the queue stays sorted. */
    method Prune(now: real)
      requires Valid() && clock <= now
      modifies this`entries, this`lo, this`clock
      ensures Valid() && clock == now && lo == now - WINDOW
      ensures entries == Since(history, now - WINDOW)
      ensures AllAfter(entries, now - WINDOW)
      ensures Weight(entries) == Spent(history, WINDOW, now)
    {
      hide Spent, Since, Weight, Capped;
      TracksLater(entries, history, lo, clock, WINDOW, cap, now);
      SinceKeepsOrder(history, lo);
      entries := PopExpired(entries, now);
      lo, clock := now - WINDOW, now;
    }

    method Append(now: real, weight: nat)
      requires Valid() && clock == now && lo == now - WINDOW
      requires cap.Some? ==> Spent(history, WINDOW, now) + weight <= cap.value
      modifies this`entries, this`history
      ensures Valid() && history == old(history) + [Entry(now, weight)]
    {
      hide Spent, Since, Capped;
      TracksAdmitted(entries, history, now, WINDOW, cap, Entry(now, weight));
      AppendKeepsOrder(history, Entry(now, weight));
      entries := entries + [Entry(now, weight)];
      history := history + [Entry(now, weight)];
    }
  }

  class Scheduler {
    const limits: Limits
    const coordinator: ProviderQuotaCoordinator?
    const requests: StartQueue
    const tokens: StartQueue

    var clock: real            // the latest reading of the monotonic clock
    var freeSlots: nat
    var heldHere: nat          // slots this thread holds
    var heldElsewhere: nat     // slots the other threads hold
    var calls: nat             // provider requests this thread sent
    var slept: real            // seconds this thread slept

    ghost predicate Valid()
      reads this, requests, tokens
    {
      && Configured(limits)
      && requests != tokens && requests.Valid() && tokens.Valid()
      && requests.cap == Cap(limits.rpm) && tokens.cap == Cap(limits.tpm)
      && requests.clock <= clock && tokens.clock <= clock
      && Unit(requests.history)
      && freeSlots + heldHere + heldElsewhere == limits.maxConcurrency
    }

    /** The one object of this thread's world that other processes change. */
    ghost function Shared(): set<object> {
      if coordinator == null then {} else {coordinator.backend, coordinator.backend.rpm, coordinator.backend.tpm}
    }

    constructor (limits: Limits, coordinator: ProviderQuotaCoordinator?, now: real)
      requires Configured(limits)
      ensures Valid() && fresh(requests) && fresh(tokens)
      ensures this.limits == limits && this.coordinator == coordinator
      ensures requests.history == [] && tokens.history == [] && clock == now
      ensures freeSlots == limits.maxConcurrency && heldHere == 0 && calls == 0 && slept == 0.0
    {
      this.limits, this.coordinator := limits, coordinator;
      requests := new StartQueue(Cap(limits.rpm), now);
      tokens := new StartQueue(Cap(limits.tpm), now);
      clock := now;
      freeSlots, heldHere, heldElsewhere := limits.maxConcurrency, 0, 0;
      calls, slept := 0, 0.0;
    }

    /** Does one more request fit into the two windows that end now, judged by
        everything ever admitted? */
    ghost predicate Room(requested: seq<Entry>, reserved: seq<Entry>, estimated: int, now: real) {
      && (limits.rpm.Some? ==> Spent(requested, WINDOW, now) + 1 <= limits.rpm.value)
      && (limits.tpm.Some? && estimated > 0 ==> Spent(reserved, WINDOW, now) + estimated <= limits.tpm.value)
    }

    /** Admit the request now, or answer how long to wait. The answer is the
        one the whole history calls for. */
    method TryAdmit(estimated: int, now: real) returns (delay: real)
      requires Valid() && clock <= now
      requires limits.tpm.Some? ==> estimated <= limits.tpm.value  // refused earlier, in Admit
      modifies this`clock, requests, tokens
      ensures Valid() && clock == now
      ensures delay == 0.0 <==> Room(old(requests.history), old(tokens.history), estimated, now)
      ensures delay == 0.0 || delay >= LEAST_DELAY
      ensures delay == AdmissionDelay(limits, Since(old(requests.history), now - WINDOW),
                                      Since(old(tokens.history), now - WINDOW), estimated, now)
      ensures requests.history == old(requests.history) + (if delay == 0.0 then [Entry(now, 1)] else [])
      ensures tokens.history == old(tokens.history)
          + (if delay == 0.0 && estimated > 0 then [Entry(now, estimated)] else [])
    {
      hide Tracks, Spent, Sorted, Since, AdmissionDelay;
      delay := Measure(estimated, now);
      if delay > 0.0 {
        return;
      }
      requests.Append(now, 1);
      if estimated > 0 {
        tokens.Append(now, estimated);
      }
    }

    /** Forget what has expired and compare what is left with the limits. */
    method Measure(estimated: int, now: real) returns (delay: real)
      requires Valid() && clock <= now
      requires limits.tpm.Some? ==> estimated <= limits.tpm.value
      modifies this`clock, requests`entries, requests`lo, requests`clock, tokens`entries, tokens`lo, tokens`clock
      ensures Valid() && clock == requests.clock == tokens.clock == now
      ensures requests.lo == tokens.lo == now - WINDOW
      ensures delay == 0.0 <==> Room(requests.history, tokens.history, estimated, now)
      ensures delay == 0.0 || delay >= LEAST_DELAY
      ensures delay == AdmissionDelay(limits, Since(requests.history, now - WINDOW),
                                      Since(tokens.history, now - WINDOW), estimated, now)
    {
      hide Tracks, Spent, Since, Weight, Sorted;
      clock := now;
      requests.Prune(now);
      tokens.Prune(now);
      UnitQueue(requests.history, now - WINDOW);
      delay := AdmissionDelay(limits, requests.entries, tokens.entries, estimated, now);
      DelayMeansFull(limits, requests.entries, tokens.entries, estimated, now);
    }

    /** What the other threads do while this one is suspended: admissions of their
        own, and slots they take and give back. */
    method OthersRun(steps: seq<LocalStep>)
      requires Valid()
      modifies this`clock, requests, tokens, this`freeSlots, this`heldElsewhere
      ensures Valid()
      ensures old(requests.history) <= requests.history && old(tokens.history) <= tokens.history && old(clock) <= clock
      ensures steps == [] ==> requests.history == old(requests.history) && tokens.history == old(tokens.history)
                              && clock == old(clock) && freeSlots == old(freeSlots)
    {
      hide Tracks, Spent, Sorted;
      for i := 0 to |steps|
        invariant Valid()
        invariant old(requests.history) <= requests.history && old(tokens.history) <= tokens.history
            && old(clock) <= clock
        invariant i == 0 ==> requests.history == old(requests.history) && tokens.history == old(tokens.history)
                             && clock == old(clock) && freeSlots == old(freeSlots)
      {
        match steps[i] {
          case Admits(estimated, now) =>
            if clock <= now && (limits.tpm.Some? ==> estimated <= limits.tpm.value) {
              var _ := TryAdmit(estimated, now);
            }
          case TakesSlot =>
            if freeSlots > 0 {
              freeSlots, heldElsewhere := freeSlots - 1, heldElsewhere + 1;
            }
          case GivesSlot =>
            if heldElsewhere > 0 {
              freeSlots, heldElsewhere := freeSlots + 1, heldElsewhere - 1;
            }
        }
      }
    }

    /** Sleeps in small steps so that a cancellation is noticed: `cancelled` says
        how many checks pass before one raises. */
    method Wait(seconds: real, cancelled: Option<nat>) returns (completed: bool)
      requires seconds >= 0.0
      modifies this`slept
      ensures old(slept) <= slept <= old(slept) + seconds
      ensures completed ==> slept == old(slept) + seconds
      ensures cancelled.None? ==> completed
      ensures cancelled.Some? && cancelled.value as real <= seconds ==>
                !completed && slept == old(slept) + cancelled.value as real
      ensures cancelled.Some? && cancelled.value as real >= seconds + 1.0 ==> completed
      ensures old(Valid()) ==> Valid()
    {
      hide Tracks, Unit, Sorted, Configured;
      var remaining, checks := seconds, 0;
      while remaining > 0.0
        invariant 0.0 <= remaining <= seconds && slept == old(slept) + seconds - remaining
        invariant seconds <= checks as real + remaining && (remaining > 0.0 ==> seconds == checks as real + remaining)
        invariant checks as real < seconds + 1.0
        invariant cancelled.Some? ==> cancelled.value >= checks
        decreases remaining.Floor, remaining > 0.0
      {
        if cancelled == Some(checks) {
          return false;
        }
        checks := checks + 1;
        var step := Min(remaining, WAIT_CHUNK);
        slept := slept + step;
        remaining := remaining - step;
      }
      completed := cancelled != Some(checks);
    }

    /** Wait for room in the request and token windows. */
    method Admit(estimated: int, waitedTotal: real, passes: nat -> WindowPass) returns (w: Waited, ghost n: nat)
      requires Valid() && 0.0 <= waitedTotal <= limits.maxWait
      modifies this`clock, requests, tokens, this`freeSlots, this`heldElsewhere, this`slept
      ensures Valid()
      ensures w.Proceed? ==> 0.0 <= w.seconds <= limits.maxWait - waitedTotal && slept == old(slept) + w.seconds
      ensures old(slept) <= slept <= old(slept) + limits.maxWait - waitedTotal
      ensures limits.tpm.Some? && estimated > limits.tpm.value ==>
          w == Exhausted && tokens.history == old(tokens.history)
      ensures old(AdmitsAtOnce(estimated, passes(0))) ==> w == Proceed(0.0) && freeSlots == old(freeSlots)
      ensures passes(0).cancelled && (limits.tpm.Some? ==> estimated <= limits.tpm.value) ==>
                w == Cancelled && slept == old(slept)
      ensures n == 0 <==> limits.tpm.Some? && estimated > limits.tpm.value
      ensures forall i :: 0 <= i < n - 1 ==> !passes(i).cancelled && !passes(i).callbackRaises
      ensures n > 0 && passes(n - 1).cancelled ==> w == Cancelled
      ensures w == Cancelled ==> n > 0 && (passes(n - 1).cancelled || passes(n - 1).sleep.Some?)
      ensures w == Raised ==> n > 0 && passes(n - 1).callbackRaises
    {
      hide Tracks, Spent, Sorted, Unit, Configured, AdmissionDelay, Since;
      if limits.tpm.Some? && estimated > limits.tpm.value {
        return Exhausted, 0;
      }
      var waited, i := 0.0, 0;
      while true
        invariant Valid() && 0.0 <= waited <= limits.maxWait - waitedTotal && slept == old(slept) + waited
        invariant forall k :: 0 <= k < i ==> !passes(k).cancelled && !passes(k).callbackRaises
        invariant i == 0 ==> waited == 0.0 && requests.history == old(requests.history)
                             && tokens.history == old(tokens.history) && clock == old(clock)
                                 && freeSlots == old(freeSlots)
        invariant old(AdmitsAtOnce(estimated, passes(0))) || passes(0).cancelled ==> i == 0
        decreases ((limits.maxWait - waitedTotal - waited) / LEAST_DELAY).Floor
      {
        var pass := passes(i);
        if pass.cancelled {
          return Cancelled, i + 1;
        }
        OthersRun(pass.others);
        var delay := TryAdmit(estimated, Max(clock, pass.reading));
        if delay == 0.0 {
          return Proceed(waited), i + 1;
        }
        if waitedTotal + waited + delay > limits.maxWait {
          return Exhausted, i + 1;
        }
        if pass.callbackRaises {
          return Raised, i + 1;
        }
        var completed := Wait(delay, pass.sleep);
        if !completed {
          return Cancelled, i + 1;
        }
        waited, i := waited + delay, i + 1;
      }
    }

    /** Nothing stands between the request and both local windows. */
    ghost predicate AdmitsAtOnce(estimated: int, pass: WindowPass)
      reads this, requests, tokens
    {
      && !pass.cancelled && pass.others == []
      && (limits.tpm.Some? ==> estimated <= limits.tpm.value)
      && Room(requests.history, tokens.history, estimated, Max(clock, pass.reading))
    }

    predicate Undisturbed(p: SlotPass) {
      !p.cancelled && !p.callbackRaises && !p.cancelledAfter
    }

    /** Take one process-local slot; on any other exit none is held. */
    method AcquireSlot(waitedTotal: real, others: seq<LocalStep>, passes: nat -> SlotPass)
      returns (w: Waited, ghost n: nat)
      requires Valid() && 0.0 <= waitedTotal <= limits.maxWait
      modifies this`clock, requests, tokens, this`freeSlots, this`heldElsewhere, this`heldHere, this`slept
      ensures Valid()
      ensures heldHere == old(heldHere) + (if w.Proceed? then 1 else 0)
      ensures w.Proceed? ==> 0.0 <= w.seconds <= limits.maxWait - waitedTotal && slept == old(slept) + w.seconds
      ensures old(slept) <= slept <= old(slept) + limits.maxWait - waitedTotal
      ensures others == [] && old(freeSlots) > 0 ==> w == Proceed(0.0)
      ensures forall i :: 0 <= i < n - 1 ==> Undisturbed(passes(i))
      ensures n > 0 && passes(n - 1).cancelled ==> w == Cancelled
      ensures w == Cancelled ==> n > 0 && (passes(n - 1).cancelled || passes(n - 1).cancelledAfter)
      ensures w == Raised ==> n > 0 && passes(n - 1).callbackRaises
    {
      hide Tracks, Spent, Sorted, Unit, Configured;
      OthersRun(others);
      if freeSlots > 0 {
        freeSlots, heldHere := freeSlots - 1, heldHere + 1;
        return Proceed(0.0), 0;
      }
      var waited, i := 0.0, 0;
      while true
        invariant Valid() && heldHere == old(heldHere)
        invariant forall k :: 0 <= k < i ==> Undisturbed(passes(k))
        invariant 0.0 <= waited <= limits.maxWait - waitedTotal && slept == old(slept) + waited
        decreases ((limits.maxWait - waitedTotal - waited) / SLOT_POLL).Floor
      {
        var pass := passes(i);
        if pass.cancelled {
          return Cancelled, i + 1;
        }
        if waitedTotal + waited + SLOT_POLL > limits.maxWait {
          return Exhausted, i + 1;
        }
        if pass.callbackRaises {
          return Raised, i + 1;
        }
        slept := slept + SLOT_POLL;
        waited, i := waited + SLOT_POLL, i + 1;
        if pass.cancelledAfter {
          return Cancelled, i;
        }
        OthersRun(pass.others);
        if freeSlots > 0 {
          freeSlots, heldHere := freeSlots - 1, heldHere + 1;
          return Proceed(waited), i;
        }
      }
    }

    // -- organization-wide admission ------------------------------------------

    /** The coordinator's own configuration stays within what the windows track. */
    ghost predicate Organized()
      reads if coordinator == null then {} else {coordinator.backend, coordinator.backend.rpm, coordinator.backend.tpm}
    {
      coordinator != null ==>
        && coordinator.backend.Valid()
        && coordinator.config.maxRpm <= coordinator.backend.rpm.cap
            && coordinator.config.maxTpm <= coordinator.backend.tpm.cap
    }

    /** What both windows of the organization admitted so far, whoever asked. */
    ghost function Grants(): seq<Grant>
      reads if coordinator == null then {} else {coordinator.backend}
    {
      if coordinator == null then [] else coordinator.backend.grants
    }

    /** How often they admitted a reservation of this size through this coordinator. */
    ghost function AdmittedHere(reserved: int): nat
      reads if coordinator == null then {} else {coordinator.backend}
    {
      if coordinator == null then 0 else GrantsTo(Grants(), coordinator, reserved)
    }

    /** A reading of the store's clock that does not run backwards. */
    function NotBefore(reading: int): (now: int)
      requires coordinator != null
      reads coordinator.backend.rpm, coordinator.backend.tpm
      ensures now >= reading && coordinator.backend.rpm.clock <= now as real
          && coordinator.backend.tpm.clock <= now as real
    {
      MaxInt(reading, -((-Max(coordinator.backend.rpm.clock, coordinator.backend.tpm.clock)).Floor))
    }

    /** Other processes acquire, settle, reclaim, pause, and offer requests of
        their own to the organization's windows. */
    method OtherProcesses(e: Elsewhere, ghost reserved: int)
      requires coordinator != null && Organized()
      modifies Shared()
      ensures Organized() && AdmittedHere(reserved) == old(AdmittedHere(reserved))
      ensures coordinator.backend.leases == e.leases && coordinator.backend.pauses == e.pauses
      ensures e.offers == [] ==> coordinator.backend.rpm.history == old(coordinator.backend.rpm.history)
                                 && coordinator.backend.tpm.history == old(coordinator.backend.tpm.history)
                                 && coordinator.backend.rpm.clock == old(coordinator.backend.rpm.clock)
                                 && coordinator.backend.tpm.clock == old(coordinator.backend.tpm.clock)
    {
      hide Tracks, Spent, Covers, GrantsTo, Accounted;
      for i := 0 to |e.offers|
        invariant Organized() && AdmittedHere(reserved) == old(AdmittedHere(reserved))
        invariant i == 0 ==> coordinator.backend.rpm.history == old(coordinator.backend.rpm.history)
                             && coordinator.backend.tpm.history == old(coordinator.backend.tpm.history)
                             && coordinator.backend.rpm.clock == old(coordinator.backend.rpm.clock)
                             && coordinator.backend.tpm.clock == old(coordinator.backend.tpm.clock)
      {
        var offer := e.offers[i];
        if offer.maxRpm <= coordinator.backend.rpm.cap && offer.maxTpm <= coordinator.backend.tpm.cap {
          var config := coordinator.config.(maxRpm := offer.maxRpm, maxTpm := offer.maxTpm);
          var other := new ProviderQuotaCoordinator(coordinator.backend, config);
          ghost var before := coordinator.backend.grants;
          var a := other.TryAdmitRequest(offer.reserved, NotBefore(offer.at));
          if a.Admitted? {
            GrantAdds(before, coordinator.backend.grants[|before|], coordinator, reserved);
          }
        }
      }
      coordinator.backend.leases := e.leases;
      coordinator.backend.acquired := e.acquired;
      coordinator.backend.pauses := e.pauses;
    }

    /** The store hands out a lease: it answers, no pause is on, a slot is free. */
    predicate LeaseGranted(p: OrgPass)
      requires coordinator != null
    {
      && !p.acquireRaises && p.acquiredAt >= PausedUntil(p.elsewhere.pauses, PauseInference)
      && |Live(p.elsewhere.leases, p.acquiredAt)| < coordinator.config.maxConcurrency
    }

    /** The lease was taken, and what interrupts its window check is not an
        `Exception`: the one handler there is does not see it. */
    predicate StaysOpen(p: OrgPass)
      requires coordinator != null
    {
      !p.cancelled && LeaseGranted(p) && p.interruption == NotAnException
    }

    /** The lease was taken, and its window check ran to the end. */
    predicate HandsOut(p: OrgPass)
      requires coordinator != null
    {
      !p.cancelled && LeaseGranted(p) && p.interruption == Uninterrupted
    }

    /** Nothing stands between the request and a lease with both windows passed. */
    ghost predicate GrantsAtOnce(p: OrgPass, reserved: int)
      requires coordinator != null
      reads coordinator.backend, coordinator.backend.rpm, coordinator.backend.tpm
    {
      var now := NotBefore(p.admittedAt);
      && !p.cancelled && LeaseGranted(p) && p.interruption == Uninterrupted && p.elsewhere.offers == []
      && PausedUntil(p.elsewhere.pauses, PauseInference) <= now && PausedUntil(p.elsewhere.pauses, PauseTpm) <= now
      && WindowsFit(now, reserved)
    }

    /** Both windows have room for a request of this size. */
    ghost predicate WindowsFit(now: int, reserved: int)
      requires coordinator != null
      reads coordinator.backend, coordinator.backend.rpm, coordinator.backend.tpm
    {
      && 1 <= reserved <= coordinator.config.maxTpm
      && HasRoom(coordinator.backend.rpm.history, now as real, 1, coordinator.config.maxRpm)
      && HasRoom(coordinator.backend.tpm.history, now as real, reserved, coordinator.config.maxTpm)
    }

    /** How long a refusal asks to wait: for a pause to end, or for the oldest entry
        of a full window to leave it. */
    ghost predicate OrgDelay(seconds: real, now: int)
      requires coordinator != null
      reads coordinator.backend`pauses, coordinator.backend.rpm, coordinator.backend.tpm
    {
      || seconds == coordinator.backend.PauseRemaining(PauseInference, now)
      || seconds == coordinator.backend.PauseRemaining(PauseTpm, now)
      || seconds == WindowRetry(coordinator.backend.rpm.history, now as real)
      || seconds == WindowRetry(coordinator.backend.tpm.history, now as real)
    }

    predicate Unpaused(now: int)
      requires coordinator != null
      reads coordinator.backend
    {
      && PausedUntil(coordinator.backend.pauses, PauseInference) <= now
      && PausedUntil(coordinator.backend.pauses, PauseTpm) <= now
    }

    /** Offer the request to the organization's windows. */
    method Consult(reading: int, reserved: int) returns (a: Admission, ghost at: int)
      requires coordinator != null && Organized()
      modifies coordinator.backend.rpm, coordinator.backend.tpm
      modifies coordinator.backend`requests, coordinator.backend`grants
      ensures Organized()
      ensures AdmittedHere(reserved) == old(AdmittedHere(reserved)) + (if a.Admitted? then 1 else 0)
      ensures old(Unpaused(NotBefore(reading)) && WindowsFit(NotBefore(reading), reserved)) ==> a.Admitted?
      ensures a.Refused? ==> a.retry >= 0.0 && OrgDelay(a.retry, at)
      ensures at == old(NotBefore(reading))
      ensures !a.Refused? && !a.Admitted? ==> reserved < 1 || reserved > coordinator.config.maxTpm
    {
      hide Tracks, Spent, Covers, HasRoom, GrantsTo, Accounted, WindowRetry;
      ghost var before := coordinator.backend.grants;
      at := NotBefore(reading);
      a := coordinator.TryAdmitRequest(reserved, NotBefore(reading));
      if a.Admitted? {
        GrantAdds(before, coordinator.backend.grants[|before|], coordinator, reserved);
      }
      assert a.Refused? && a.dimension == RpmFull ==>
          coordinator.backend.rpm.history == old(coordinator.backend.rpm.history);
      assert a.Refused? ==> coordinator.backend.tpm.history == old(coordinator.backend.tpm.history);
    }

    /** What can raise at the organization: the store, a callback - or a
        reservation no window will ever admit. */
    predicate OrgRaises(p: OrgPass, reserved: int)
      requires coordinator != null
    {
      || p.acquireRaises || p.interruption == StoreRaises || !p.releaseAnswers || p.callbackRaises
      || reserved < 1 || reserved > coordinator.config.maxTpm
    }

    /** One pass at the organization: a lease, then the two windows. Whatever the
        windows answer, a lease that will not be used is given back - unless what
        interrupts the check is not an `Exception`. */
    method OfferOnce(p: OrgPass, reserved: int) returns (offer: Offer, lease: InferenceLease?, ghost at: int)
      requires coordinator != null && Organized() && !p.cancelled
      modifies Shared()
      ensures Organized()
      ensures AdmittedHere(reserved) >= old(AdmittedHere(reserved)) + (if offer.Granted? then 1 else 0)
      ensures lease != null <==> LeaseGranted(p)
      ensures lease != null ==> fresh(lease) && lease.coordinator == coordinator
      ensures lease != null ==> lease.outcome == if offer.Granted? || StaysOpen(p) then None else Some(Released)
      ensures offer.Granted? ==> lease != null && HandsOut(p)
      ensures offer == Failed(InterruptedInAdmission) <==> StaysOpen(p)
      ensures offer.Failed? ==> offer.exit in {OtherRaised, InterruptedInAdmission}
      ensures offer == Failed(OtherRaised) ==> OrgRaises(p, reserved)
      ensures offer.Retry? ==> offer.delay >= SLOT_POLL && (lease == null ==> offer.delay == SLOT_POLL)
      ensures at >= p.admittedAt
      ensures offer.Retry? && lease != null ==>
                exists asked :: OrgDelay(asked, at) && offer.delay == if asked >= SLOT_POLL then asked else SLOT_POLL
      ensures old(GrantsAtOnce(p, reserved)) ==> offer.Granted?
    {
      hide Tracks, Spent, Covers, HasRoom, Live, GrantsTo, Accounted, OrgDelay;
      at := p.admittedAt;
      OtherProcesses(p.elsewhere, reserved);
      if p.acquireRaises {
        return Failed(OtherRaised), null, at;
      }
      lease := coordinator.TryAcquireInference(p.id, p.acquiredAt);
      if lease == null {
        return Retry(SLOT_POLL), null, at;
      }
      offer, at := OfferUnder(lease, p, reserved);
    }

    /** The windows are asked while the lease is held; unless the request is
        admitted the lease goes back, or stays open when that is cut short. */
    method OfferUnder(lease: InferenceLease, p: OrgPass, reserved: int) returns (offer: Offer, ghost at: int)
      requires coordinator != null && Organized() && lease.coordinator == coordinator && lease.outcome == None
      modifies lease`outcome, coordinator.backend.rpm, coordinator.backend.tpm
      modifies coordinator.backend`requests, coordinator.backend`grants, coordinator.backend`leases
      modifies coordinator.backend`acquired
      ensures Organized()
      ensures AdmittedHere(reserved) >= old(AdmittedHere(reserved)) + (if offer.Granted? then 1 else 0)
      ensures lease.outcome == if offer.Granted? || p.interruption == NotAnException then None else Some(Released)
      ensures offer.Granted? ==> p.interruption == Uninterrupted
      ensures offer == Failed(InterruptedInAdmission) <==> p.interruption == NotAnException
      ensures offer.Failed? ==> offer.exit in {OtherRaised, InterruptedInAdmission}
      ensures offer == Failed(OtherRaised) ==> OrgRaises(p, reserved)
      ensures at >= p.admittedAt
      ensures offer.Retry? ==>
                exists asked :: OrgDelay(asked, at) && offer.delay == if asked >= SLOT_POLL then asked else SLOT_POLL
      ensures p.interruption == Uninterrupted
              && old(Unpaused(NotBefore(p.admittedAt)) && WindowsFit(NotBefore(p.admittedAt), reserved)) ==>
                offer.Granted?
    {
      hide Tracks, Spent, Covers, HasRoom, Live, GrantsTo, Accounted, OrgDelay, Unpaused, WindowsFit;
      at := p.admittedAt;
      var a := Admission.InvalidReservation;
      if p.interruption == Uninterrupted || p.consulted {
        a, at := Consult(p.admittedAt, reserved);
      }
      if p.interruption == NotAnException {
        return Failed(InterruptedInAdmission), at;
      }
      if p.interruption == Uninterrupted && a.Admitted? {
        return Granted, at;
      }
      var _ := lease.Release(p.releaseAnswers);
      if p.interruption == StoreRaises || !a.Refused? || !p.releaseAnswers {
        return Failed(OtherRaised), at;
      }
      assert OrgDelay(a.retry, at);
      return Retry(Max(a.retry, SLOT_POLL)), at;
    }

    /**
      Hold one lease with both organization windows satisfied. A window that
      refuses costs the lease, so a waiting caller parks nothing.

      `taken` lists every lease acquired on the way, in order, and `n` counts the
      passes begun.
     */
    method AcquireGlobal(waitedTotal: real, reserved: int, passes: nat -> OrgPass)
      returns (exit: Option<Exit>, lease: InferenceLease?, seconds: real, taken: seq<InferenceLease>, n: nat)
      requires Valid() && coordinator != null && Organized() && 0.0 <= waitedTotal <= limits.maxWait
      modifies this`slept, Shared()
      ensures Valid() && Organized()
      ensures AdmittedHere(reserved) >= old(AdmittedHere(reserved)) + (if exit.None? then 1 else 0)
      ensures old(slept) <= slept <= old(slept) + limits.maxWait - waitedTotal
      ensures exit.None? ==> 0.0 <= seconds <= limits.maxWait - waitedTotal && slept == old(slept) + seconds
      ensures exit.None? ==>
          lease != null && lease.coordinator == coordinator && taken != [] && taken[|taken| - 1] == lease
      ensures n > 0 && forall i :: 0 <= i < n - 1 ==> !StaysOpen(passes(i))
      ensures exit.None? ==> HandsOut(passes(n - 1))
      ensures exit == Some(InterruptedInAdmission) <==> StaysOpen(passes(n - 1))
      ensures StaysOpen(passes(n - 1)) ==> taken != []
      ensures exit.Some? ==> exit.value in {RunCancelled, BackpressureExceeded, OtherRaised, InterruptedInAdmission}
      ensures passes(n - 1).cancelled ==> exit == Some(RunCancelled)
      ensures exit == Some(RunCancelled) ==> passes(n - 1).cancelled || passes(n - 1).sleep.Some?
      ensures exit == Some(OtherRaised) ==> OrgRaises(passes(n - 1), reserved)
      ensures Fresh(taken) && forall i :: 0 <= i < |taken| ==> fresh(taken[i])
      ensures forall i :: 0 <= i < |taken| ==>
                taken[i].outcome == if i == |taken| - 1 && (exit.None? || StaysOpen(passes(n - 1))) then None
                    else Some(Released)
      ensures StaysOpen(passes(0)) ==> n == 1 && |taken| == 1
      ensures old(GrantsAtOnce(passes(0), reserved)) ==> n == 1 && exit.None?
    {
      hide Spent, HasRoom, Live, LeaseGranted, HandsOut, Valid, AdmittedHere, Organized;
      seconds, taken, n := 0.0, [], 0;
      while true
        invariant Valid() && Organized() && AdmittedHere(reserved) >= old(AdmittedHere(reserved))
        invariant 0.0 <= seconds <= limits.maxWait - waitedTotal && slept == old(slept) + seconds
        invariant Fresh(taken) && forall i :: 0 <= i < |taken| ==> fresh(taken[i]) && taken[i].outcome == Some(Released)
        invariant forall i :: 0 <= i < n ==> !StaysOpen(passes(i))
        invariant n == 0 ==> taken == []
        invariant n > 0 ==> !old(GrantsAtOnce(passes(0), reserved))
        invariant n == 0 && old(GrantsAtOnce(passes(0), reserved)) ==> GrantsAtOnce(passes(0), reserved)
        decreases ((limits.maxWait - waitedTotal - seconds) / SLOT_POLL).Floor
      {
        var pass := passes(n);
        n := n + 1;
        if pass.cancelled {
          return Some(RunCancelled), null, seconds, taken, n;
        }
        var offer: Offer;
        ghost var at;
        offer, lease, at := OfferOnce(pass, reserved);
        if lease != null {
          taken := taken + [lease];
        }
        if offer.Granted? {
          return None, lease, seconds, taken, n;
        }
        if offer.Failed? {
          return Some(offer.exit), null, seconds, taken, n;
        }
        if waitedTotal + seconds + offer.delay > limits.maxWait {
          return Some(BackpressureExceeded), null, seconds, taken, n;
        }
        if pass.callbackRaises {
          return Some(OtherRaised), null, seconds, taken, n;
        }
        var completed := Wait(offer.delay, pass.sleep);
        if !completed {
          return Some(RunCancelled), null, seconds, taken, n;
        }
        seconds := seconds + offer.delay;
      }
    }

    // -- the guarded call -----------------------------------------------------

    /** What a failed request leads to, told from the exception. An exhausted quota
        and whatever is not the provider's "not now" end the call; "not now" is tried
        again, after the delay the provider asked for or a jittered backoff, while
        both the retries and the wait allow it. */
    ghost predicate Answers(exit: Option<Exit>, delay: real, e: ProviderVerdicts.Failure, signalRaises: bool,
                            tries: nat, waitedTotal: real)
      requires Configured(limits)
    {
      if !e.isException then exit == Some(ProviderRaised(e))
      else if ProviderVerdicts.IsOutOfQuota(e) then exit == Some(QuotaRefused)
      else if !ProviderVerdicts.IsPaced(e) then exit == Some(ProviderRaised(e))
      else if coordinator != null && signalRaises then exit == Some(OtherRaised)
      else
        && (if exists asked :: ProviderVerdicts.AsksFor(e, asked) then ProviderVerdicts.AsksFor(e, delay)
            else Backoff(limits, tries) <= delay <= Backoff(limits, tries) * 1.25)
        && exit == if tries + 1 > limits.maxRetries || waitedTotal + delay > limits.maxWait
                   then Some(BackpressureExceeded) else None
    }

    /** The request is known to be over: it returned, or what was raised says so. */
    predicate CallIsOver(s: TurnScript) {
      s.call.None? || ProviderVerdicts.IsOver(s.call.value)
    }

    /** What is known of each of the first n requests. */
    function Verdicts(script: nat -> TurnScript, n: nat): (known: seq<bool>)
      ensures |known| == n
    {
      seq(n, i requires 0 <= i < n => CallIsOver(script(i)))
    }

    /** The provider said "not now". */
    predicate CallIsPaced(s: TurnScript) {
      s.call.Some? && s.call.value.isException && ProviderVerdicts.IsPaced(s.call.value)
    }

    /** Settling what is over asks the store; keeping what is not tells the sink. */
    predicate SettlingRaises(s: TurnScript) {
      coordinator != null && (if CallIsOver(s) then !s.settlementAnswers else !s.sinkAnswers)
    }

    lemma OneMoreTurn(script: nat -> TurnScript, n: nat)
      ensures Verdicts(script, n + 1) == Verdicts(script, n) + [CallIsOver(script(n))]
      ensures Verdicts(script, 0) == [] && AllPaced(script, 0)
      ensures AllPaced(script, n + 1) <==> AllPaced(script, n) && CallIsPaced(script(n)) && EndsTurn(None, script(n))
    {
      hide EndsTurn, CallIsPaced, CallIsOver;
    }

    /** The first n turns were all paced, and to be made again. */
    predicate AllPaced(script: nat -> TurnScript, n: nat) {
      forall i :: 0 <= i < n ==> CallIsPaced(script(i)) && EndsTurn(None, script(i))
    }

    /** How a turn that sent its request ends; None if it is to be sent again. */
    predicate EndsTurn(ended: Option<Exit>, s: TurnScript) {
      if SettlingRaises(s) then ended == Some(OtherRaised)
      else if s.call.None? then ended == Some(Returned)
      else if s.call.value.isException && ProviderVerdicts.IsOutOfQuota(s.call.value) then ended == Some(QuotaRefused)
      else if CallIsPaced(s) then
        && ended in {None, Some(BackpressureExceeded), Some(OtherRaised), Some(RunCancelled)}
        && (coordinator != null && s.signalRaises ==> ended == Some(OtherRaised))
        && (ended == Some(OtherRaised) ==> (coordinator != null && s.signalRaises) || s.callbackRaises)
        && (ended == Some(RunCancelled) ==> s.sleep.Some?)
      else ended == Some(ProviderRaised(s.call.value))
    }

    /** A turn that will surely be made again: paced, with retries and wait to spare
        and nothing to raise or cancel. */
    ghost predicate SurelyAgain(s: TurnScript, tries: nat, waitedTotal: real)
      requires Configured(limits)
    {
      && CallIsPaced(s) && !SettlingRaises(s) && !s.signalRaises && !s.callbackRaises && s.sleep.None?
      && tries + 1 <= limits.maxRetries
      && (if exists asked :: ProviderVerdicts.AsksFor(s.call.value, asked)
          then forall asked :: ProviderVerdicts.AsksFor(s.call.value, asked) ==> waitedTotal + asked <= limits.maxWait
          else waitedTotal + Backoff(limits, tries) * 1.25 <= limits.maxWait)
    }

    /** One provider request, and what the scheduler makes of its answer:
        the exit to take, or the delay after which to try again. */
    method SendRequest(tries: nat, waitedTotal: real, s: TurnScript)
      returns (exit: Option<Exit>, proven: bool, delay: real)
      requires Valid() && tries <= limits.maxRetries && 0.0 <= waitedTotal <= limits.maxWait
      modifies this`calls
      ensures calls == old(calls) + 1
      ensures s.call.None? ==> exit == Some(Returned) && proven
      ensures proven <==> CallIsOver(s)
      ensures s.call.Some? ==> Answers(exit, delay, s.call.value, s.signalRaises, tries, waitedTotal)
      ensures exit != Some(StrandedByFailedProbe) && exit != Some(InterruptedInAdmission)
      ensures exit == Some(Returned) ==> proven
      ensures exit.None? ==> tries < limits.maxRetries && 0.0 <= delay <= limits.maxWait - waitedTotal
      ensures Valid()
    {
      hide Tracks, Unit, Sorted, Backoff, Jittered, ProviderVerdicts.IsPaced, ProviderVerdicts.IsOver;
      hide ProviderVerdicts.Classify, ProviderVerdicts.IsOutOfQuota;
      calls := calls + 1;
      if s.call.None? {
        return Some(Returned), true, 0.0;
      }
      var e := s.call.value;
      var verdict := ProviderVerdicts.Classify(e);
      ProviderVerdicts.AccountsAre(e);
      proven := verdict.proven;
      if !e.isException {
        return Some(ProviderRaised(e)), proven, 0.0;
      }
      if verdict.IsQuotaExhaustion() {
        return Some(QuotaRefused), proven, 0.0;
      }
      if !verdict.IsBackpressure() {
        return Some(ProviderRaised(e)), proven, 0.0;
      }
      if coordinator != null && s.signalRaises {
        return Some(OtherRaised), proven, 0.0;
      }
      if verdict.retryAfter.Some? {
        delay := verdict.retryAfter.value;
      } else {
        delay := Jittered(Backoff(limits, tries), Max(0.0, Min(s.jitter, 1.0)));
      }
      if tries + 1 > limits.maxRetries || waitedTotal + delay > limits.maxWait {
        return Some(BackpressureExceeded), proven, delay;
      }
      return None, proven, delay;
    }

    /** In the last pass this turn began, the lease stays open. */
    predicate LeavesOpen(s: TurnScript, n: nat) {
      coordinator != null && n > 0 && StaysOpen(s.org(n - 1))
    }

    /** In the last pass this turn began, a lease was handed out. */
    predicate HandedOut(s: TurnScript, n: nat) {
      coordinator != null && n > 0 && HandsOut(s.org(n - 1))
    }

    /** The probe does not start, and giving the lease back raises as well. */
    predicate Strands(s: TurnScript) {
      !s.probeStarts && !s.probeReleaseAnswers
    }

    /** Nothing stands between the request and its slot. */
    ghost predicate SlotAtOnce(estimated: int, s: TurnScript)
      reads this, requests, tokens
    {
      AdmitsAtOnce(estimated, s.window(0)) && !s.cancelled && s.slotOthers == [] && freeSlots > 0
    }

    /** An exit of the local half, and what it takes. */
    ghost predicate ExplainedHere(exit: Exit, s: TurnScript) {
      && (exit == RunCancelled ==>
            || s.cancelled
            || (exists i: nat :: s.window(i).cancelled || s.window(i).sleep.Some?)
            || (exists i: nat :: s.slot(i).cancelled || s.slot(i).cancelledAfter))
      && (exit == OtherRaised ==>
            (exists i: nat :: s.window(i).callbackRaises) || (exists i: nat :: s.slot(i).callbackRaises))
    }

    /** An exit without a request, and what it takes: someone cancelled the run on
        the way, or something on the way raised. */
    ghost predicate Explained(exit: Exit, s: TurnScript, reserved: int) {
      || ExplainedHere(exit, s)
      || (exit == RunCancelled && exists i: nat :: s.org(i).cancelled || s.org(i).sleep.Some?)
      || (exit == OtherRaised && coordinator != null
          && ((exists i: nat :: OrgRaises(s.org(i), reserved)) || !s.probeStarts))
    }

    lemma HereExplains(exit: Exit, s: TurnScript, reserved: int)
      ensures ExplainedHere(exit, s) ==> Explained(exit, s, reserved)
    {
      hide ExplainedHere;
    }

    lemma OrgExplains(exit: Exit, s: TurnScript, reserved: int, n: nat)
      requires coordinator != null && n > 0
      requires exit == RunCancelled ==> s.org(n - 1).cancelled || s.org(n - 1).sleep.Some?
      requires exit == OtherRaised ==> OrgRaises(s.org(n - 1), reserved) || !s.probeStarts
      ensures Explained(exit, s, reserved)
    {
      hide OrgRaises;
    }

    /** How a turn ends whose request was not sent. */
    predicate Unsendable(exit: Exit) {
      exit in {RunCancelled, BackpressureExceeded, OtherRaised, InterruptedInAdmission, StrandedByFailedProbe}
    }

    /** The local half of a reservation: a place in both windows, then a slot. */
    method ReserveHere(estimated: int, waitedTotal: real, s: TurnScript) returns (failed: Option<Exit>, waited: real)
      requires Valid() && 0.0 <= waitedTotal <= limits.maxWait
      modifies this`clock, requests, tokens, this`freeSlots, this`heldElsewhere, this`heldHere, this`slept
      ensures Valid()
      ensures old(slept) <= slept <= old(slept) + limits.maxWait - waitedTotal
      ensures failed.None? ==> 0.0 <= waited <= limits.maxWait - waitedTotal && slept == old(slept) + waited
      ensures heldHere == old(heldHere) + (if failed.None? then 1 else 0)
      ensures failed.Some? ==> failed.value in {RunCancelled, BackpressureExceeded, OtherRaised}
      ensures failed.Some? ==> ExplainedHere(failed.value, s)
      ensures old(SlotAtOnce(estimated, s)) ==> failed.None?
      ensures s.window(0).cancelled ==>
                failed == Some(if limits.tpm.Some? && estimated > limits.tpm.value then BackpressureExceeded
                               else RunCancelled)
    {
      hide Tracks, Unit, Sorted, Spent, Configured, Room, AdmitsAtOnce;
      var w, n := Admit(estimated, waitedTotal, s.window);
      if !w.Proceed? {
        return Some(ExitOf(w)), 0.0;
      }
      waited := w.seconds;
      if s.cancelled {
        return Some(RunCancelled), waited;
      }
      w, n := AcquireSlot(waitedTotal + waited, s.slotOthers, s.slot);
      if !w.Proceed? {
        return Some(ExitOf(w)), waited;
      }
      return None, waited + w.seconds;
    }

    /**
      Everything before the request: window, slot, lease, probe - in that order,
      so that no organization permit is held while queueing locally. `n` counts
      the passes begun at the organization; `probed` says a lease was handed out
      and its probe asked for.
     */
    method Reserve(estimated: int, reserved: int, waitedTotal: real, s: TurnScript)
      returns (failed: Option<Exit>, lease: InferenceLease?, waited: real, taken: seq<InferenceLease>, n: nat,
          probed: bool)
      requires Valid() && Organized() && 0.0 <= waitedTotal <= limits.maxWait
      modifies this`clock, requests, tokens, this`freeSlots, this`heldElsewhere, this`heldHere, this`slept, Shared()
      ensures Valid() && Organized()
      ensures AdmittedHere(MaxInt(1, reserved)) >=
                old(AdmittedHere(MaxInt(1, reserved))) + (if failed.None? && coordinator != null then 1 else 0)
      ensures old(slept) <= slept <= old(slept) + limits.maxWait - waitedTotal
      ensures failed.None? ==> 0.0 <= waited <= limits.maxWait - waitedTotal && slept == old(slept) + waited
      ensures heldHere == old(heldHere) + (if failed.None? || (probed && Strands(s)) then 1 else 0)
      ensures failed == Some(StrandedByFailedProbe) <==> probed && Strands(s)
      ensures failed == Some(InterruptedInAdmission) <==> LeavesOpen(s, n)
      ensures probed ==> HandedOut(s, n) && (failed.None? <==> s.probeStarts)
      ensures failed.Some? ==> Unsendable(failed.value) && Explained(failed.value, s, MaxInt(1, reserved))
      ensures s.window(0).cancelled ==> failed.Some? && failed.value in {RunCancelled, BackpressureExceeded}
      ensures failed.None? ==> if coordinator == null then lease == null
                               else lease != null && lease.coordinator == coordinator
      ensures failed.None? && coordinator != null ==> probed && taken != [] && taken[|taken| - 1] == lease
      ensures coordinator == null ==> taken == []
      ensures LeavesOpen(s, n) ==> taken != []
      ensures Fresh(taken) && forall i :: 0 <= i < |taken| ==> fresh(taken[i])
      ensures forall i :: 0 <= i < |taken| ==>
                taken[i].outcome == if i == |taken| - 1 && (failed.None? || LeavesOpen(s, n)) then None
                    else Some(Released)
      ensures coordinator != null && old(SlotAtOnce(estimated, s)) && StaysOpen(s.org(0)) ==>
          LeavesOpen(s, n) && |taken| == 1
      ensures coordinator != null && old(SlotAtOnce(estimated, s) && GrantsAtOnce(s.org(0), MaxInt(1, reserved))) ==>
                probed
    {
      hide Tracks, Unit, Sorted, Spent, Configured, Room, HasRoom, Live, StaysOpen, HandsOut, GrantsAtOnce,
          SlotAtOnce, Valid, Organized, Grants, GrantsTo, Strands, OrgRaises, ExplainedHere, Explained;
      lease, taken, n, probed := null, [], 0, false;
      failed, waited := ReserveHere(estimated, waitedTotal, s);
      if failed.Some? {
        HereExplains(failed.value, s, MaxInt(1, reserved));
        return;
      }
      if coordinator == null {
        return None, null, waited, taken, n, probed;
      }
      var seconds: real;
      failed, lease, seconds, taken, n := AcquireGlobal(waitedTotal + waited, MaxInt(1, reserved), s.org);
      if failed.Some? {
        OrgExplains(failed.value, s, MaxInt(1, reserved), n);
        GiveSlotBack();
        return;
      }
      waited, probed := waited + seconds, true;
      failed := StartProbe(lease, s);
      if failed.Some? {
        OrgExplains(failed.value, s, MaxInt(1, reserved), n);
        lease := null;
      }
    }

    /** Start watching the lease. If that fails the lease goes back, then the slot -
        which stays taken when giving the lease back raises first. */
    method StartProbe(lease: InferenceLease, s: TurnScript) returns (failed: Option<Exit>)
      requires Valid() && heldHere > 0
      requires coordinator != null && Organized() && lease.coordinator == coordinator && lease.outcome == None
      modifies lease`outcome, coordinator.backend`leases, coordinator.backend`acquired, this`freeSlots, this`heldHere
      ensures Valid() && Organized() && Grants() == old(Grants())
      ensures failed.None? <==> s.probeStarts
      ensures failed == Some(StrandedByFailedProbe) <==> Strands(s)
      ensures failed.Some? && !Strands(s) ==> failed == Some(OtherRaised)
      ensures lease.outcome == if failed.None? then None else Some(Released)
      ensures heldHere == old(heldHere) - (if failed.None? || Strands(s) then 0 else 1)
    {
      hide Tracks, Unit, Sorted, Configured, Organized;
      if s.probeStarts {
        return None;
      }
      GiveUnsentBack(lease, s.probeReleaseAnswers);
      if !s.probeReleaseAnswers {
        return Some(StrandedByFailedProbe);
      }
      GiveSlotBack();
      return Some(OtherRaised);
    }

    /** Return a lease nothing was sent under. */
    method GiveUnsentBack(lease: InferenceLease, answers: bool)
      requires coordinator != null && Organized() && lease.coordinator == coordinator && lease.outcome == None
      modifies lease`outcome, coordinator.backend`leases, coordinator.backend`acquired
      ensures Organized() && Grants() == old(Grants()) && lease.outcome == Some(Released)
    {
      hide Tracks, Covers, Accounted;
      var _ := lease.Release(answers);
    }

    /** Give the local slot back. */
    method GiveSlotBack()
      requires Valid() && heldHere > 0
      modifies this`freeSlots, this`heldHere
      ensures Valid() && heldHere == old(heldHere) - 1 && freeSlots == old(freeSlots) + 1
    {
      hide Tracks, Unit, Sorted, Configured;
      freeSlots, heldHere := freeSlots + 1, heldHere - 1;
    }

    /** Settle the lease of a request that was sent. Giving it back asks the store,
        and keeping it tells the diagnostic sink: either may raise. */
    method SettleSent(lease: InferenceLease, taken: seq<InferenceLease>, proven: bool, s: TurnScript)
      returns (attempts: seq<Attempt>, raises: bool)
      requires coordinator != null && Organized() && lease.coordinator == coordinator
      requires taken != [] && taken[|taken| - 1] == lease && Fresh(taken) && lease.outcome == None
      requires forall i :: 0 <= i < |taken| - 1 ==> taken[i].outcome == Some(Released)
      modifies lease`outcome, coordinator.backend`leases, coordinator.backend`acquired
      ensures Organized() && Grants() == old(Grants())
      ensures |attempts| == |taken| && SettledBut(attempts, false) && Proofs(attempts) == [proven]
      ensures forall i :: 0 <= i < |taken| ==> attempts[i].lease == taken[i]
      ensures attempts[|attempts| - 1] == Attempt(lease, true, proven)
      ensures raises <==> if proven then !s.settlementAnswers else !s.sinkAnswers
    {
      hide Proofs, Tracks, Covers, Accounted;
      var _ := lease.Settle(proven, s.settlementAnswers);
      NothingSent(taken);
      SendAdds(Unsent(taken), proven);
      attempts := Unsent(taken)[..|taken| - 1] + [Attempt(lease, true, proven)];
      raises := if proven then !s.settlementAnswers else !s.sinkAnswers;
    }

    /** One turn of the loop: reserve, send, settle. `ended` is None only when
        a rate-limited attempt will be made again after `waited` seconds. */
    method Turn(estimated: int, reserved: int, tries: nat, waitedTotal: real, s: TurnScript)
      returns (ended: Option<Exit>, waited: real, attempts: seq<Attempt>, n: nat, probed: bool)
      requires Valid() && Organized() && tries <= limits.maxRetries && 0.0 <= waitedTotal <= limits.maxWait
      modifies this, requests, tokens, Shared()
      ensures Valid() && Organized()
      ensures old(calls) <= calls <= old(calls) + 1
      ensures coordinator != null ==>
                AdmittedHere(MaxInt(1, reserved)) - old(AdmittedHere(MaxInt(1, reserved))) >= calls - old(calls)
      ensures ended.None? ==> tries < limits.maxRetries && calls == old(calls) + 1 && CallIsPaced(s)
      ensures old(slept) <= slept <= old(slept) + limits.maxWait - waitedTotal
      ensures ended.None? ==> 0.0 <= waited <= limits.maxWait - waitedTotal && slept == old(slept) + waited
      ensures heldHere == old(heldHere) + (if probed && Strands(s) then 1 else 0)
      ensures ended == Some(StrandedByFailedProbe) <==> probed && Strands(s)
      ensures ended == Some(InterruptedInAdmission) <==> LeavesOpen(s, n)
      ensures probed ==> HandedOut(s, n)
      ensures SettledBut(attempts, LeavesOpen(s, n)) && forall i :: 0 <= i < |attempts| ==> fresh(attempts[i].lease)
      ensures coordinator != null ==> Proofs(attempts) == if calls > old(calls) then [CallIsOver(s)] else []
      ensures if calls > old(calls) then EndsTurn(ended, s)
              else ended.Some? && Unsendable(ended.value) && Explained(ended.value, s, MaxInt(1, reserved))
      ensures s.window(0).cancelled ==> calls == old(calls) && ended in {Some(RunCancelled), Some(BackpressureExceeded)}
      ensures coordinator != null && old(SlotAtOnce(estimated, s)) && StaysOpen(s.org(0)) ==>
          LeavesOpen(s, n) && |attempts| == 1
      ensures coordinator != null && old(SlotAtOnce(estimated, s) && GrantsAtOnce(s.org(0), MaxInt(1, reserved))) ==>
                probed
    {
      hide Proofs, SettledBut, StaysOpen, HandsOut, SlotAtOnce, GrantsAtOnce, Organized, Valid, Fresh, EndsTurn;
      hide Explained;
      var lease, taken;
      ended, lease, waited, taken, n, probed := Reserve(estimated, reserved, waitedTotal, s);
      attempts := Unsent(taken);
      NothingSent(taken);
      UnsentAreSettled(taken, LeavesOpen(s, n)) by {
        assert ended.Some? ==> forall i :: 0 <= i < |taken| ==>
          taken[i].outcome == if i == |taken| - 1 && LeavesOpen(s, n) then None else Some(Released);
      }
      if ended.Some? {
        return;
      }
      var seconds;
      ended, seconds, attempts := SendAndSettle(lease, taken, tries, waitedTotal + waited, s);
      waited := waited + seconds;
    }

    /** The request itself: send it, give the slot back, settle the lease, and wait
        if it will be made again. */
    method SendAndSettle(lease: InferenceLease?, taken: seq<InferenceLease>, tries: nat, waitedTotal: real,
        s: TurnScript)
      returns (ended: Option<Exit>, waited: real, attempts: seq<Attempt>)
      requires Valid() && Organized() && tries <= limits.maxRetries && 0.0 <= waitedTotal <= limits.maxWait
          && heldHere > 0
      requires if coordinator == null then lease == null && taken == []
               else lease != null && lease.coordinator == coordinator && lease.outcome == None
                    && taken != [] && taken[|taken| - 1] == lease && Fresh(taken)
                    && forall i :: 0 <= i < |taken| - 1 ==> taken[i].outcome == Some(Released)
      modifies this`calls, this`freeSlots, this`heldHere, this`slept, Shared(), if lease == null then {} else {lease}
      ensures Valid() && Organized() && Grants() == old(Grants())
      ensures calls == old(calls) + 1 && heldHere == old(heldHere) - 1
      ensures ended.None? ==> tries < limits.maxRetries && CallIsPaced(s)
      ensures old(slept) <= slept <= old(slept) + limits.maxWait - waitedTotal
      ensures ended.None? ==> 0.0 <= waited <= limits.maxWait - waitedTotal && slept == old(slept) + waited
      ensures ended != Some(StrandedByFailedProbe) && ended != Some(InterruptedInAdmission)
      ensures SettledBut(attempts, false) && |attempts| == |taken|
      ensures forall i :: 0 <= i < |attempts| ==> attempts[i].lease == taken[i]
      ensures coordinator != null ==> Proofs(attempts) == [CallIsOver(s)]
      ensures EndsTurn(ended, s)
      ensures SurelyAgain(s, tries, waitedTotal) ==> ended.None?
    {
      hide Proofs, Organized, Valid, Fresh, Settled, ProviderVerdicts.Classify, Backoff;
      hide ProviderVerdicts.IsPaced, ProviderVerdicts.IsOver, ProviderVerdicts.IsOutOfQuota;
      attempts, waited := [], 0.0;
      if CallIsPaced(s) {
        ProviderVerdicts.PacedHasQuota(s.call.value);
      }
      var proven, delay;
      ended, proven, delay := SendRequest(tries, waitedTotal, s);
      GiveSlotBack();
      if lease != null {
        var settleRaises;
        attempts, settleRaises := SettleSent(lease, taken, proven, s);
        if settleRaises {
          ended := Some(OtherRaised);
          return;
        }
      }
      if ended.Some? {
        return;
      }
      if s.callbackRaises {
        ended := Some(OtherRaised);
        return;
      }
      var completed := Wait(delay, s.sleep);
      waited := delay;
      ended := if completed then None else Some(RunCancelled);
    }

    /**
      Run one provider request under capacity scheduling and bounded retries.

      However it ends: no more than `1 + maxRetries` requests were sent, each
      admitted by both organization windows; no more than `maxWait` was slept;
      every lease taken was settled as its request deserves and the local slot is
      free again - except that the slot stays taken exactly when the last turn's
      probe did not start and giving its lease back raised too, and the last
      lease stays open exactly when something that is not an `Exception`
      interrupted the window check after it was taken.
     */
    method Execute(estimated: int, reserved: int, script: nat -> TurnScript)
      returns (exit: Exit, attempts: seq<Attempt>, turns: nat, n: nat, probed: bool)
      requires Valid() && Organized()
      modifies this, requests, tokens, Shared()
      ensures Valid() && Organized() && 1 <= turns <= 1 + limits.maxRetries
      ensures calls == old(calls) + turns || calls == old(calls) + turns - 1
      ensures AllPaced(script, turns - 1)
      ensures if calls == old(calls) + turns then EndsTurn(Some(exit), script(turns - 1))
              else Unsendable(exit) && Explained(exit, script(turns - 1), MaxInt(1, reserved))
      ensures script(0).window(0).cancelled ==> calls == old(calls) && exit in {RunCancelled, BackpressureExceeded}
      ensures coordinator != null ==>
                AdmittedHere(MaxInt(1, reserved)) - old(AdmittedHere(MaxInt(1, reserved))) >= calls - old(calls)
      ensures old(slept) <= slept <= old(slept) + limits.maxWait
      ensures heldHere == old(heldHere) + (if probed && Strands(script(turns - 1)) then 1 else 0)
      ensures exit == StrandedByFailedProbe <==> probed && Strands(script(turns - 1))
      ensures exit == InterruptedInAdmission <==> LeavesOpen(script(turns - 1), n)
      ensures probed ==> HandedOut(script(turns - 1), n)
      ensures SettledBut(attempts, LeavesOpen(script(turns - 1), n)) && forall i :: 0 <= i < |attempts| ==>
          fresh(attempts[i].lease)
      ensures coordinator != null ==> Proofs(attempts) == Verdicts(script, calls - old(calls))
      ensures coordinator != null && old(SlotAtOnce(estimated, script(0))) && StaysOpen(script(0).org(0)) ==>
                turns == 1 && LeavesOpen(script(0), n) && |attempts| == 1
      ensures coordinator != null && Strands(script(0))
              && old(SlotAtOnce(estimated, script(0)) && GrantsAtOnce(script(0).org(0), MaxInt(1, reserved))) ==>
                turns == 1 && probed
    {
      hide Proofs, SettledBut, EndsTurn, Explained, CallIsPaced, CallIsOver, AllPaced, Verdicts;
      hide StaysOpen, HandedOut, LeavesOpen, Strands, SlotAtOnce, GrantsAtOnce, Organized,
          AdmittedHere, Tracks, Unit, Sorted;
      attempts, turns := [], 0;
      var waitedTotal := 0.0;
      ghost var slotAtOnce := SlotAtOnce(estimated, script(0));
      ghost var grantsAtOnce := coordinator != null && GrantsAtOnce(script(0).org(0), MaxInt(1, reserved));
      assert Proofs([]) == [] by { NothingSent([]); }
      OneMoreTurn(script, 0);
      NothingTaken();
      while true
        invariant Valid() && Organized() && heldHere == old(heldHere)
        invariant 0 <= turns <= limits.maxRetries && calls == old(calls) + turns
        invariant AllPaced(script, turns)
        invariant turns > 0 ==> !script(0).window(0).cancelled
        invariant coordinator != null ==>
                    AdmittedHere(MaxInt(1, reserved)) - old(AdmittedHere(MaxInt(1, reserved))) >= calls - old(calls)
        invariant 0.0 <= waitedTotal <= limits.maxWait && slept == old(slept) + waitedTotal
        invariant SettledBut(attempts, false) && forall i :: 0 <= i < |attempts| ==> fresh(attempts[i].lease)
        invariant coordinator != null ==> Proofs(attempts) == Verdicts(script, turns)
        invariant turns == 0 ==> attempts == []
        invariant turns == 0 ==> slotAtOnce == SlotAtOnce(estimated, script(0))
        invariant turns == 0 && coordinator != null ==>
            grantsAtOnce == GrantsAtOnce(script(0).org(0), MaxInt(1, reserved))
        invariant turns > 0 && coordinator != null && slotAtOnce ==>
                    !StaysOpen(script(0).org(0)) && !(Strands(script(0)) && grantsAtOnce)
        decreases limits.maxRetries - turns
      {
        var ended, waited, turn;
        ended, waited, turn, n, probed := Turn(estimated, reserved, turns, waitedTotal, script(turns));
        OneMoreTurn(script, turns);
        ProofsTogether(attempts, turn);
        SettledTogether(attempts, turn, LeavesOpen(script(turns), n));
        attempts, turns := attempts + turn, turns + 1;
        if ended.Some? {
          return ended.value, attempts, turns, n, probed;
        }
        waitedTotal := waitedTotal + waited;
      }
    }
  }

  // -- the two exits where the promise fails do happen ------------------------------------------

  /** Plain answers: nothing is cancelled, nothing raises, nobody else acts. */
  const QUIET_WINDOW := WindowPass(false, [], 0.0, false, None)
  const QUIET_SLOT := SlotPass(false, false, false, [])
  const NOBODY := Elsewhere(map[], map[], map[], [])

  function QuietOrg(i: Interruption): OrgPass {
    OrgPass(false, NOBODY, false, 0, 0, 0, i, false, true, false, None)
  }

  function QuietTurn(i: Interruption, probeStarts: bool): (s: TurnScript)
    ensures s.window(0) == QUIET_WINDOW && s.org(0) == QuietOrg(i) && !s.cancelled && s.slotOthers == []
    ensures s.probeStarts == probeStarts && !s.probeReleaseAnswers
  {
    TurnScript((_: nat) => QUIET_WINDOW, false, [], (_: nat) => QUIET_SLOT, (_: nat) => QuietOrg(i), probeStarts, false,
               None, false, 0.0, true, true, false, None)
  }

  function Always(s: TurnScript): (script: nat -> TurnScript)
    ensures script(0) == s
  {
    (_: nat) => s
  }

  const ONE_AT_A_TIME := Limits(1, None, None, 1, 1.0, 1.0, 1.0)

  lemma NothingSpent(width: real, t: real)
    ensures Spent([], width, t) == 0
  {
  }

  /** A process and an organization in which nothing has happened yet. */
  method QuietProcess() returns (s: Scheduler)
    ensures fresh(s) && fresh(s.requests) && fresh(s.tokens) && s.Valid() && s.Organized() && s.coordinator != null
    ensures fresh(s.coordinator.backend) && fresh(s.coordinator.backend.rpm) && fresh(s.coordinator.backend.tpm)
    ensures s.heldHere == 0 && s.freeSlots == 1 && s.calls == 0 && s.limits == ONE_AT_A_TIME
    ensures s.AdmitsAtOnce(0, QUIET_WINDOW)
    ensures s.GrantsAtOnce(QuietOrg(Uninterrupted), 1) && s.StaysOpen(QuietOrg(NotAnException))
  {
    hide Tracks, Sorted, Covers, Spent;
    var backend := new MemoryQuotaBackend(1, 1, 0.0);
    var coordinator := new ProviderQuotaCoordinator(backend, QuotaConfig(1, 1, 1, None, 0));
    s := new Scheduler(ONE_AT_A_TIME, coordinator, 0.0);
    assert Live(map[], 0) == map[];
    NothingSpent(WINDOW_MS, s.NotBefore(0) as real);
    assert s.LeaseGranted(QuietOrg(NotAnException));
    assert HasRoom(backend.rpm.history, s.NotBefore(0) as real, 1, 1);
    assert HasRoom(backend.tpm.history, s.NotBefore(0) as real, 1, 1);
    assert PausedUntil(map[], PauseInference) <= 0;
    assert PausedUntil(map[], PauseTpm) <= 0;
  }

  /** The slot of a call stays taken after the call is over. */
  method ASlotIsStranded() returns (s: Scheduler, exit: Exit)
    ensures exit == StrandedByFailedProbe && s.heldHere == 1
  {
    hide Spent, Tracks, Sorted, Covers, Unit;
    s := QuietProcess();
    var script := QuietTurn(Uninterrupted, false);
    assert s.SlotAtOnce(0, script) by { QuietSlot(s, script); }
    assert s.Strands(script) by { QuietStrands(s, script); }
    var attempts, turns, n, probed;
    assert fresh(s.Shared());
    exit, attempts, turns, n, probed := s.Execute(0, 1, Always(script));
    assert turns == 1;
  }

  lemma QuietSlot(s: Scheduler, script: TurnScript)
    requires s.AdmitsAtOnce(0, QUIET_WINDOW) && s.freeSlots == 1
    requires script.window(0) == QUIET_WINDOW && !script.cancelled && script.slotOthers == []
    ensures s.SlotAtOnce(0, script)
  {
  }

  lemma QuietStrands(s: Scheduler, script: TurnScript)
    requires !script.probeStarts && !script.probeReleaseAnswers
    ensures s.Strands(script)
  {
  }

  /** A lease stays open although nothing was sent: its permit is never given back. */
  method ALeaseStaysOpen() returns (exit: Exit, attempt: Attempt)
    ensures exit == InterruptedInAdmission && attempt.lease.outcome == None && !attempt.sent
  {
    var s := QuietProcess();
    hide Spent, Tracks, Sorted, Covers, Unit;
    var script := QuietTurn(NotAnException, true);
    assert s.SlotAtOnce(0, script) by { QuietSlot(s, script); }
    var attempts, turns, n, probed;
    assert fresh(s.Shared());
    exit, attempts, turns, n, probed := s.Execute(0, 1, Always(script));
    attempt := attempts[0];
  }

  function ExitOf(w: Waited): Exit
    requires !w.Proceed?
  {
    match w
    case Cancelled => RunCancelled
    case Exhausted => BackpressureExceeded
    case Raised => OtherRaised
  }

  /** Exponential, capped. */
  function Backoff(c: Limits, tries: nat): (seconds: real)
    requires Configured(c)
    ensures 0.0 < seconds <= c.backoffMax
  {
    Min(c.backoffMax, c.backoffBase * Doubled(tries))
  }

  /** The first retry waits the base; each further one twice as long, up to the
      most there is. */
  lemma BackoffDoubles(c: Limits, tries: nat)
    requires Configured(c)
    ensures Backoff(c, 0) == if c.backoffBase <= c.backoffMax then c.backoffBase else c.backoffMax
    ensures var twice := Backoff(c, tries) + Backoff(c, tries);
            Backoff(c, tries + 1) == if twice <= c.backoffMax then twice else c.backoffMax
  {
    assert c.backoffBase * Doubled(tries + 1) == 2.0 * (c.backoffBase * Doubled(tries));
    assert c.backoffBase * Doubled(tries) > 0.0;
  }

  /** Up to a quarter longer, at random. */
  function Jittered(base: real, jitter: real): (seconds: real)
    requires base >= 0.0 && 0.0 <= jitter <= 1.0
    ensures base <= seconds <= base * 1.25
  {
    assert 0.0 <= base * jitter <= base;
    base + 0.25 * (base * jitter)
  }

  function Doubled(n: nat): (r: real)
    ensures r >= 1.0
  {
    if n == 0 then 1.0 else 2.0 * Doubled(n - 1)
  }

  /** The leases of one call are different leases. */
  ghost predicate Leases(attempts: seq<Attempt>) {
    forall i, j :: 0 <= i < j < |attempts| ==> attempts[i].lease != attempts[j].lease
  }

  /** Given back if nothing was sent or the request is proven over; held otherwise. */
  predicate Settled(a: Attempt)
    reads a.lease
  {
    a.lease.outcome == Some(if !a.sent || a.proven then Released else Quarantined)
  }

  function Unsent(taken: seq<InferenceLease>): (r: seq<Attempt>)
    ensures |r| == |taken|
    ensures forall i :: 0 <= i < |taken| ==> r[i] == Attempt(taken[i], false, false)
  {
    seq(|taken|, i requires 0 <= i < |taken| => Attempt(taken[i], false, false))
  }

  /** What was known of each request sent, in order. */
  function Proofs(attempts: seq<Attempt>): seq<bool> {
    if attempts == [] then []
    else
      var last := attempts[|attempts| - 1];
      Proofs(attempts[..|attempts| - 1]) + (if last.sent then [last.proven] else [])
  }

  lemma {:induction false} NothingSent(taken: seq<InferenceLease>)
    ensures Proofs(Unsent(taken)) == []
  {
    if taken != [] {
      var fewer := taken[..|taken| - 1];
      NothingSent(fewer);
      assert Unsent(taken)[..|fewer|] == Unsent(fewer);
    }
  }

  /** Every lease of a call is settled as its request deserves, but the one left
      open by an interruption, which was never sent. */
  ghost predicate SettledBut(attempts: seq<Attempt>, open: bool)
    reads set a | a in attempts :: a.lease
  {
    && Leases(attempts) && (open ==> attempts != [])
    && forall i :: 0 <= i < |attempts| ==>
         if open && i == |attempts| - 1 then attempts[i].lease.outcome == None && !attempts[i].sent
         else Settled(attempts[i])
  }

  lemma NothingTaken()
    ensures SettledBut([], false)
  {
  }

  lemma UnsentAreSettled(taken: seq<InferenceLease>, open: bool)
    requires Fresh(taken) && (open ==> taken != [])
    ensures (forall i :: 0 <= i < |taken| ==>
               taken[i].outcome == if i == |taken| - 1 && open then None else Some(Released))
            ==> SettledBut(Unsent(taken), open)
  {
  }

  lemma SettledTogether(a: seq<Attempt>, b: seq<Attempt>, open: bool)
    requires SettledBut(a, false) && SettledBut(b, open)
    requires forall i, j :: 0 <= i < |a| && 0 <= j < |b| ==> a[i].lease != b[j].lease
    ensures SettledBut(a + b, open)
  {
    var all := a + b;
    forall i | 0 <= i < |all|
      ensures if open && i == |all| - 1 then all[i].lease.outcome == None && !all[i].sent else Settled(all[i])
    {
      assert i < |a| ==> all[i] == a[i] && Settled(a[i]);
      assert i >= |a| ==> all[i] == b[i - |a|];
    }
  }

  lemma {:induction false} ProofsTogether(a: seq<Attempt>, b: seq<Attempt>)
    ensures Proofs(a + b) == Proofs(a) + Proofs(b)
  {
    if b == [] {
      assert a + b == a;
    } else {
      ProofsTogether(a, b[..|b| - 1]);
      assert (a + b)[..|a + b| - 1] == a + b[..|b| - 1];
    }
  }

  lemma SendAdds(attempts: seq<Attempt>, proven: bool)
    requires attempts != [] && !attempts[|attempts| - 1].sent
    ensures Proofs(attempts[..|attempts| - 1] + [Attempt(attempts[|attempts| - 1].lease, true, proven)]) ==
        Proofs(attempts) + [proven]
  {
    var front := attempts[..|attempts| - 1];
    var sent := front + [Attempt(attempts[|attempts| - 1].lease, true, proven)];
    assert sent[..|sent| - 1] == front;
  }

  method PopExpired(queue: seq<Entry>, now: real) returns (kept: seq<Entry>)
    requires Sorted(queue)
    ensures kept == Since(queue, now - WINDOW) && AllAfter(kept, now - WINDOW)
  {
    kept := queue;
    while kept != [] && now - kept[0].at >= WINDOW
      invariant Sorted(kept) && Since(kept, now - WINDOW) == Since(queue, now - WINDOW)
    {
      SinceHead(kept, now - WINDOW);
      kept := kept[1..];
    }
    SinceAll(kept, now - WINDOW);
  }

  lemma UnitQueue(history: seq<Entry>, lo: real)
    requires Unit(history)
    ensures Weight(Since(history, lo)) == |Since(history, lo)|
  {
    var kept := Since(history, lo);
    forall i | 0 <= i < |kept| ensures kept[i].weight == 1 {
      assert kept[i] in history;
    }
    UnitWeight(kept);
  }

  /** With a monotonic clock, every 60-second window of the whole history keeps
      the configured request and token limits. */
  lemma EveryLocalWindowHolds(s: Scheduler)
    requires s.Valid()
    ensures s.limits.rpm.Some? ==> Capped(s.requests.history, WINDOW, s.limits.rpm.value)
    ensures s.limits.tpm.Some? ==> Capped(s.tokens.history, WINDOW, s.limits.tpm.value)
  {
    assert s.requests.cap == Cap(s.limits.rpm) && s.tokens.cap == Cap(s.limits.tpm);
  }
}
