/**
  The organization-wide admission authority: concurrency leases, the rolling
  request and token windows, and the lease object a caller settles.

  Times are the integer milliseconds the coordinator reads once per decision.
  The store methods are atomic; `clock` is the latest reading they were given.
 */
module OrganizationQuota {
  import opened Common
  import opened RollingWindow

  /** A fresh uuid per acquisition: an id is never issued twice. */
  type LeaseId = nat

  datatype Expiry = Never | At(ms: int)
  datatype Recovery = Removed | NotHeld | TooYoung
  datatype Pause = PauseInference | PauseTpm
  /** The moment a pause ends; no pause has always ended. */
  function PausedUntil(pauses: map<Pause, int>, p: Pause): int {
    if p in pauses then pauses[p] else 0
  }

  datatype Outcome = Released | Quarantined

  const WINDOW_MS: real := 60000.0

  predicate Expired(expiry: Expiry, now: int) {
    expiry.At? && expiry.ms <= now
  }

  /** What is left of the lease table once lapsed leases are dropped. */
  function Live(leases: map<LeaseId, Expiry>, now: int): map<LeaseId, Expiry> {
    map id | id in leases && !Expired(leases[id], now) :: leases[id]
  }

  /** A lease is held without expiry unless a timer was configured. */
  function WithLease(leases: map<LeaseId, Expiry>, id: LeaseId, ttl: Option<nat>, now: int): map<LeaseId, Expiry> {
    leases[id := if ttl.None? then Never else At(now + ttl.value)]
  }

  /** The admission history leaves room for one more entry of this weight. */
  ghost predicate HasRoom(history: seq<Entry>, now: real, weight: int, limit: int) {
    Spent(history, WINDOW_MS, now) + weight <= limit
  }

  /** With no timer configured nothing ever lapses. */
  ghost predicate Untimed(leases: map<LeaseId, Expiry>) {
    forall id :: id in leases ==> leases[id] == Never
  }

  /** No window holds more of `part` than of `whole`. */
  ghost predicate Covers(whole: seq<Entry>, part: seq<Entry>) {
    forall t: real :: Spent(part, WINDOW_MS, t) <= Spent(whole, WINDOW_MS, t)
  }

  lemma CoversMore(whole: seq<Entry>, part: seq<Entry>, e: Entry)
    requires Covers(whole, part) && e.weight >= 0
    ensures Covers(whole + [e], part) && Covers(whole + [e], part + [e])
  {
    forall t: real
      ensures Spent(part, WINDOW_MS, t) <= Spent(whole + [e], WINDOW_MS, t)
      ensures Spent(part + [e], WINDOW_MS, t) <= Spent(whole + [e], WINDOW_MS, t)
    {
      SpentAppend(whole, e, WINDOW_MS, t);
      SpentAppend(part, e, WINDOW_MS, t);
    }
  }

  function MinAt(entries: seq<Entry>): (least: real)
    requires entries != []
    ensures exists i :: 0 <= i < |entries| && entries[i].at == least
    ensures forall i :: 0 <= i < |entries| ==> least <= entries[i].at
  {
    if |entries| == 1 then entries[0].at
    else Min(MinAt(entries[..|entries| - 1]), entries[|entries| - 1].at)
  }

  /** Seconds until the oldest remembered entry leaves the window. */
  function RetryAfter(kept: seq<Entry>, now: real): (seconds: real)
    ensures seconds >= 0.0
    ensures seconds > 0.0 ==>
              && (forall i :: 0 <= i < |kept| ==> now + seconds * 1000.0 <= kept[i].at + WINDOW_MS)
              && (kept != [] ==> exists i :: 0 <= i < |kept| && now + seconds * 1000.0 == kept[i].at + WINDOW_MS)
    ensures seconds == 0.0 && kept != [] ==> exists i :: 0 <= i < |kept| && kept[i].at + WINDOW_MS <= now
    ensures kept == [] ==> seconds == 60.0
  {
    var oldest := if kept == [] then now else MinAt(kept);
    Max(0.0, (oldest + WINDOW_MS - now) / 1000.0)
  }

  /** ... told from everything the window ever admitted. */
  function WindowRetry(history: seq<Entry>, now: real): (seconds: real)
    ensures seconds >= 0.0
  {
    RetryAfter(Since(history, now - WINDOW_MS), now)
  }

  /** One rolling window of the store: what it still remembers, and, beside
      it, everything it ever admitted. */
  class WindowLog {
    var kept: seq<Entry>
    const cap: int            // the largest limit any process is configured with
    ghost var history: seq<Entry>
    var clock: real           // the latest reading it was given
    ghost var lo: real        // entries up to here have been forgotten

    ghost predicate Valid()
      reads this
    {
      Tracks(kept, history, lo, clock, WINDOW_MS, Some(cap))
    }

    constructor (cap: nat, now: real)
      ensures Valid() && history == [] && clock == now && this.cap == cap
    {
      this.cap := cap;
      kept, history, lo, clock := [], [], now - WINDOW_MS, now;
    }

    /**
      Offer `weight` to the window. The decision is exactly the one the whole
      admission history calls for, although only part of it is kept.
     */
    method Admit(limit: int, now: real, weight: nat) returns (admitted: bool, used: int, retry: real)
      requires Valid() && clock <= now && limit <= cap
      modifies this
      ensures Valid() && clock == now
      ensures admitted <==> HasRoom(old(history), now, weight, limit)
      ensures history == if admitted then old(history) + [Entry(now, weight)] else old(history)
      ensures used == Spent(old(history), WINDOW_MS, now) + (if admitted then weight else 0)
      ensures retry == if admitted then 0.0 else WindowRetry(old(history), now)
    {
      hide Tracks, Spent, Since, Weight;
      TracksLater(kept, history, lo, clock, WINDOW_MS, Some(cap), now);
      kept := Since(kept, now - WINDOW_MS);
      lo, clock := now - WINDOW_MS, now;
      used := Weight(kept);
      if used + weight > limit {
        return false, used, RetryAfter(kept, now);
      }
      var e := Entry(now, weight);
      TracksAdmitted(kept, history, now, WINDOW_MS, Some(cap), e);
      kept := kept + [e];
      history := history + [e];
      return true, used + weight, 0.0;
    }
  }

  /** One admission by both windows, and through which coordinator it came. */
  datatype Grant = Grant(asker: ProviderQuotaCoordinator, tokens: int, at: int)

  /** Every admitted request and every admitted reservation is somebody's, once. */
  ghost predicate Accounted(grants: seq<Grant>, requests: seq<Entry>, reserved: seq<Entry>) {
    && |grants| == |requests| == |reserved|
    && forall i :: 0 <= i < |grants| ==>
         && requests[i] == Entry(grants[i].at as real, 1)
         && reserved[i] == Entry(grants[i].at as real, grants[i].tokens)
  }

  lemma AccountedMore(grants: seq<Grant>, requests: seq<Entry>, reserved: seq<Entry>, g: Grant)
    requires Accounted(grants, requests, reserved)
    ensures Accounted(grants + [g], requests + [Entry(g.at as real, 1)], reserved + [Entry(g.at as real, g.tokens)])
  {
  }

  /** How often requests of this size were admitted through one coordinator. */
  ghost function GrantsTo(grants: seq<Grant>, c: ProviderQuotaCoordinator, tokens: int): nat {
    if grants == [] then 0
    else
      var last := grants[|grants| - 1];
      GrantsTo(grants[..|grants| - 1], c, tokens) + (if last.asker == c && last.tokens == tokens then 1 else 0)
  }

  lemma GrantAdds(grants: seq<Grant>, g: Grant, c: ProviderQuotaCoordinator, tokens: int)
    ensures GrantsTo(grants + [g], c, tokens)
            == GrantsTo(grants, c, tokens) + (if g.asker == c && g.tokens == tokens then 1 else 0)
  {
    assert (grants + [g])[..|grants|] == grants;
  }

  class MemoryQuotaBackend {
    var leases: map<LeaseId, Expiry>
    var acquired: map<LeaseId, int>
    var pauses: map<Pause, int>
    const rpm: WindowLog
    const tpm: WindowLog
    ghost var requests: seq<Entry>  // requests admitted by BOTH windows
    ghost var grants: seq<Grant>    // whose they were

    /** Every request both windows admitted is an entry of the request window. */
    ghost predicate Valid()
      reads this, rpm, tpm
    {
      && rpm != tpm && rpm.Valid() && tpm.Valid()
      && Covers(rpm.history, requests) && Accounted(grants, requests, tpm.history)
    }

    constructor (rpmCeiling: nat, tpmCeiling: nat, now: real)
      ensures Valid() && fresh(rpm) && fresh(tpm)
      ensures leases == map[] && acquired == map[] && pauses == map[] && requests == [] && grants == []
      ensures rpm.cap == rpmCeiling && tpm.cap == tpmCeiling && rpm.clock == tpm.clock == now
      ensures rpm.history == tpm.history == []
    {
      rpm := new WindowLog(rpmCeiling, now);
      tpm := new WindowLog(tpmCeiling, now);
      leases, acquired, pauses, requests, grants := map[], map[], map[], [], [];
    }

    /** Walk the lease table and drop what has lapsed. */
    method DropLapsed(now: int)
      modifies this`leases, this`acquired
      ensures leases == old(Live(leases, now))
      ensures forall other :: other in leases && other in old(acquired) ==>
                other in acquired && acquired[other] == old(acquired)[other]
    {
      hide Expired;
      var pending := leases.Keys;
      while pending != {}
        invariant pending <= leases.Keys <= old(leases.Keys)
        invariant forall held :: held in leases ==> leases[held] == old(leases)[held]
        invariant forall held :: held in leases && held !in pending ==> !Expired(leases[held], now)
        invariant forall held :: held in old(leases) && held !in leases ==> Expired(old(leases)[held], now)
        invariant forall other :: other in leases && other in old(acquired) ==>
                    other in acquired && acquired[other] == old(acquired)[other]
        decreases pending
      {
        var held :| held in pending;
        pending := pending - {held};
        if Expired(leases[held], now) {
          leases := leases - {held};
          acquired := acquired - {held};
        }
      }
    }

    /** Drop what lapsed, then take a slot only if one is free. */
    method AcquireConcurrency(id: LeaseId, limit: int, ttl: Option<nat>, now: int)
      returns (granted: bool, active: nat)
      modifies this`leases, this`acquired
      ensures granted <==> |old(Live(leases, now))| < limit
      ensures leases == if granted then WithLease(old(Live(leases, now)), id, ttl, now) else old(Live(leases, now))
      ensures granted ==> id in acquired && acquired[id] == now
      ensures forall other :: other != id && other in leases && other in old(acquired) ==>
                other in acquired && acquired[other] == old(acquired)[other]
      ensures active == |leases|
    {
      hide Live, Expired;
      DropLapsed(now);
      if |leases| >= limit {
        return false, |leases|;
      }
      leases := leases[id := if ttl.None? then Never else At(now + ttl.value)];
      acquired := acquired[id := now];
      return true, |leases|;
    }

    /** Keyed by the unique id: no other holder's entry can be touched. */
    method ReleaseConcurrency(id: LeaseId) returns (wasHeld: bool)
      modifies this`leases, this`acquired
      ensures wasHeld <==> id in old(leases)
      ensures leases == old(leases) - {id} && acquired == old(acquired) - {id}
    {
      acquired := acquired - {id};
      wasHeld := id in leases;
      leases := leases - {id};
    }

    /** An operator's reclaim, with the age check in the same critical section. */
    method RecoverConcurrency(id: LeaseId, acquiredBefore: int) returns (r: Recovery)
      modifies this`leases, this`acquired
      ensures r == Removed <==> id in old(leases) && id in old(acquired) && old(acquired)[id] <= acquiredBefore
      ensures r == NotHeld <==> id !in old(leases)
      ensures leases == if r == Removed then old(leases) - {id} else old(leases)
      ensures r == TooYoung ==> acquired == old(acquired)
    {
      if id !in leases {
        acquired := acquired - {id};
        return NotHeld;
      }
      if id !in acquired || acquired[id] > acquiredBefore {
        return TooYoung;
      }
      leases := leases - {id};
      acquired := acquired - {id};
      return Removed;
    }

    method VerifyConcurrency(id: LeaseId, now: int) returns (ours: bool)
      ensures ours <==> id in Live(leases, now)
    {
      ours := id in leases && !Expired(leases[id], now);
    }

    method SetPause(p: Pause, until: int)
      modifies this`pauses
      ensures pauses == old(pauses)[p := MaxInt(PausedUntil(old(pauses), p), until)]
    {
      var current := PausedUntil(pauses, p);
      pauses := pauses[p := MaxInt(current, until)];
    }

    function PauseRemaining(p: Pause, now: int): (seconds: real)
      reads this`pauses
      ensures seconds >= 0.0 && (seconds > 0.0 <==> now < PausedUntil(pauses, p))
      ensures seconds > 0.0 ==> now as real + seconds * 1000.0 == (if p in pauses then pauses[p] else 0) as real
    {
      Max(0.0, (PausedUntil(pauses, p) - now) as real / 1000.0)
    }
  }

  datatype QuotaConfig = QuotaConfig(maxConcurrency: int, maxRpm: int, maxTpm: int,
                                     abandonedReclaimMs: Option<nat>, reclaimFloorMs: nat)

  /** What a request is refused for. */
  datatype Obstacle = InferencePaused | TpmPaused | RpmFull | TpmFull

  datatype Admission =
    | Admitted
    | Refused(dimension: Obstacle, retry: real)
    | InvalidReservation       // fewer than one reserved token
    | LargerThanCeiling        // no amount of waiting can make it fit

  class ProviderQuotaCoordinator {
    const backend: MemoryQuotaBackend
    const config: QuotaConfig

    constructor (backend: MemoryQuotaBackend, config: QuotaConfig)
      ensures this.backend == backend && this.config == config
    {
      this.backend, this.config := backend, config;
    }

    /** One lease, held without expiry unless a timer was configured. */
    method TryAcquireInference(id: LeaseId, now: int) returns (lease: InferenceLease?)
      modifies backend`leases, backend`acquired
      ensures lease != null ==> fresh(lease) && lease.id == id && lease.coordinator == this
                                && lease.outcome == None && id in backend.leases
      ensures lease != null <==> old(backend.PauseRemaining(PauseInference, now)) == 0.0
                                 && |old(Live(backend.leases, now))| < config.maxConcurrency
      ensures lease != null ==>
                backend.leases == WithLease(old(Live(backend.leases, now)), id, config.abandonedReclaimMs, now)
      ensures lease == null ==>
                backend.leases == if old(backend.PauseRemaining(PauseInference, now)) > 0.0 then old(backend.leases)
                                  else old(Live(backend.leases, now))
    {
      hide Live;
      if backend.PauseRemaining(PauseInference, now) > 0.0 {
        return null;
      }
      var granted, active := backend.AcquireConcurrency(id, config.maxConcurrency, config.abandonedReclaimMs, now);
      if !granted {
        return null;
      }
      assert id in backend.leases;
      lease := new InferenceLease(id, this);
    }

    /**
      Offer one request to both windows, requests first. When the token window
      then refuses, the request entry stays: it was really offered. A refusal
      names the window, and when its oldest entry leaves.
     */
    method OfferToWindows(reservedTokens: int, now: int) returns (a: Admission)
      requires backend.Valid() && backend.rpm.clock <= now as real && backend.tpm.clock <= now as real
      requires config.maxRpm <= backend.rpm.cap && 1 <= reservedTokens <= config.maxTpm <= backend.tpm.cap
      modifies backend.rpm, backend.tpm, backend`requests, backend`grants
      ensures backend.Valid()
      ensures var rpmRoom := HasRoom(old(backend.rpm.history), now as real, 1, config.maxRpm);
              var tpmRoom := HasRoom(old(backend.tpm.history), now as real, reservedTokens, config.maxTpm);
              a == if !rpmRoom then Refused(RpmFull, WindowRetry(old(backend.rpm.history), now as real))
                   else if !tpmRoom then Refused(TpmFull, WindowRetry(old(backend.tpm.history), now as real))
                   else Admitted
      ensures a.Admitted? ==>
                && backend.requests == old(backend.requests) + [Entry(now as real, 1)]
                && backend.grants == old(backend.grants) + [Grant(this, reservedTokens, now)]
                && backend.rpm.history == old(backend.rpm.history) + [Entry(now as real, 1)]
                && backend.tpm.history == old(backend.tpm.history) + [Entry(now as real, reservedTokens)]
      ensures !a.Admitted? ==>
                && backend.requests == old(backend.requests) && backend.grants == old(backend.grants)
                && backend.tpm.history == old(backend.tpm.history)
                && backend.rpm.history == old(backend.rpm.history)
                     + (if a.Refused? && a.dimension == TpmFull then [Entry(now as real, 1)] else [])
    {
      hide Spent, HasRoom, Covers, Accounted, Tracks, Since, Sorted, RetryAfter;
      var admitted, used, retry := backend.rpm.Admit(config.maxRpm, now as real, 1);
      if !admitted {
        return Refused(RpmFull, retry);
      }
      ghost var e := Entry(now as real, 1);
      CoversMore(old(backend.rpm.history), old(backend.requests), e);
      admitted, used, retry := backend.tpm.Admit(config.maxTpm, now as real, reservedTokens);
      if !admitted {
        return Refused(TpmFull, retry);
      }
      backend.requests := backend.requests + [e];
      backend.grants := backend.grants + [Grant(this, reservedTokens, now)];
      AccountedMore(old(backend.grants), old(backend.requests), old(backend.tpm.history),
                    Grant(this, reservedTokens, now));
      return Admitted;
    }

    /** Admit one request: no pause, a reservation that can fit at all, then both
        windows. */
    method TryAdmitRequest(reservedTokens: int, now: int) returns (a: Admission)
      requires backend.Valid() && backend.rpm.clock <= now as real && backend.tpm.clock <= now as real
      requires config.maxRpm <= backend.rpm.cap && config.maxTpm <= backend.tpm.cap
      modifies backend.rpm, backend.tpm, backend`requests, backend`grants
      ensures backend.Valid()
      ensures a.Admitted? <==>
                && old(backend.PauseRemaining(PauseInference, now)) == 0.0
                && old(backend.PauseRemaining(PauseTpm, now)) == 0.0
                && 1 <= reservedTokens <= config.maxTpm
                && HasRoom(old(backend.rpm.history), now as real, 1, config.maxRpm)
                && HasRoom(old(backend.tpm.history), now as real, reservedTokens, config.maxTpm)
      ensures !a.Admitted? ==>
                a == if old(backend.PauseRemaining(PauseInference, now)) > 0.0
                     then Refused(InferencePaused, old(backend.PauseRemaining(PauseInference, now)))
                     else if old(backend.PauseRemaining(PauseTpm, now)) > 0.0
                     then Refused(TpmPaused, old(backend.PauseRemaining(PauseTpm, now)))
                     else if reservedTokens < 1 then InvalidReservation
                     else if reservedTokens > config.maxTpm then LargerThanCeiling
                     else if !HasRoom(old(backend.rpm.history), now as real, 1, config.maxRpm)
                     then Refused(RpmFull, WindowRetry(old(backend.rpm.history), now as real))
                     else Refused(TpmFull, WindowRetry(old(backend.tpm.history), now as real))
      ensures a.Refused? ==> a.retry >= 0.0
      ensures a.Admitted? ==>
                && backend.requests == old(backend.requests) + [Entry(now as real, 1)]
                && backend.grants == old(backend.grants) + [Grant(this, reservedTokens, now)]
                && backend.rpm.history == old(backend.rpm.history) + [Entry(now as real, 1)]
                && backend.tpm.history == old(backend.tpm.history) + [Entry(now as real, reservedTokens)]
      ensures !a.Admitted? ==>
                && backend.requests == old(backend.requests) && backend.grants == old(backend.grants)
                && backend.tpm.history == old(backend.tpm.history)
                && backend.rpm.history == old(backend.rpm.history)
                     + (if a.Refused? && a.dimension == TpmFull then [Entry(now as real, 1)] else [])
    {
      hide Spent, HasRoom, Covers, Accounted, Tracks, Since, Sorted, RetryAfter;
      if backend.PauseRemaining(PauseInference, now) > 0.0 {
        return Refused(InferencePaused, backend.PauseRemaining(PauseInference, now));
      }
      if backend.PauseRemaining(PauseTpm, now) > 0.0 {
        return Refused(TpmPaused, backend.PauseRemaining(PauseTpm, now));
      }
      if reservedTokens < 1 {
        return InvalidReservation;
      }
      if reservedTokens > config.maxTpm {
        return LargerThanCeiling;
      }
      a := OfferToWindows(reservedTokens, now);
    }

    /** A human's assertion that a request is over; refused while it can be shown wrong. */
    method OperatorReclaim(id: LeaseId, reasonRecorded: bool, now: int) returns (reclaimed: bool)
      modifies backend`leases, backend`acquired
      ensures reclaimed <==> reasonRecorded && id in old(backend.leases) && id in old(backend.acquired)
                             && now - old(backend.acquired)[id] >= config.reclaimFloorMs
      ensures backend.leases == if reclaimed then old(backend.leases) - {id} else old(backend.leases)
    {
      if !reasonRecorded {
        return false;
      }
      var r := backend.RecoverConcurrency(id, now - config.reclaimFloorMs);
      return r == Removed;
    }
  }

  /** One held unit of organization concurrency, settled at most once. */
  class InferenceLease {
    const id: LeaseId
    const coordinator: ProviderQuotaCoordinator
    var outcome: Option<Outcome>

    constructor (id: LeaseId, coordinator: ProviderQuotaCoordinator)
      ensures this.id == id && this.coordinator == coordinator && outcome == None
    {
      this.id, this.coordinator, outcome := id, coordinator, None;
    }

    /** Give the slot back. `storeAnswers` is false when the store call raises:
        the lease is settled all the same and the slot stays taken. */
    method Release(storeAnswers: bool) returns (returned: bool)
      modifies this`outcome, coordinator.backend`leases, coordinator.backend`acquired
      ensures old(outcome).Some? ==> !returned && outcome == old(outcome)
                                     && coordinator.backend.leases == old(coordinator.backend.leases)
      ensures old(outcome).None? ==>
                && outcome == Some(Released)
                && coordinator.backend.leases == (if storeAnswers then old(coordinator.backend.leases) - {id}
                                                  else old(coordinator.backend.leases))
                && (returned <==> storeAnswers && id in old(coordinator.backend.leases))
    {
      if outcome.Some? {
        return false;
      }
      outcome := Some(Released);
      if !storeAnswers {
        return false;
      }
      returned := coordinator.backend.ReleaseConcurrency(id);
    }

    /** Keep the slot: holding is what the store already does. */
    method Quarantine() returns (held: bool)
      modifies this`outcome
      ensures held <==> old(outcome).None?
      ensures outcome == if old(outcome).None? then Some(Quarantined) else old(outcome)
    {
      if outcome.Some? {
        return false;
      }
      outcome := Some(Quarantined);
      return true;
    }

    /** The single exit point: proof releases, everything else holds. */
    method Settle(provenFinished: bool, storeAnswers: bool) returns (acted: bool)
      modifies this`outcome, coordinator.backend`leases, coordinator.backend`acquired
      ensures outcome == if old(outcome).Some? then old(outcome)
                         else if provenFinished then Some(Released) else Some(Quarantined)
      ensures coordinator.backend.leases == if old(outcome).None? && provenFinished && storeAnswers
                                            then old(coordinator.backend.leases) - {id}
                                            else old(coordinator.backend.leases)
    {
      if provenFinished {
        acted := Release(storeAnswers);
      } else {
        acted := Quarantine();
      }
    }
  }

  /**
    Over the whole history of the organization, in every 60-second window: no
    more requests than the request ceiling, no more reserved tokens than the
    token ceiling - although a request the token window refused keeps its entry.
   */
  lemma EveryWindowHolds(backend: MemoryQuotaBackend)
    requires backend.Valid()
    ensures Capped(backend.requests, WINDOW_MS, backend.rpm.cap)
    ensures Capped(backend.tpm.history, WINDOW_MS, backend.tpm.cap)
    ensures Accounted(backend.grants, backend.requests, backend.tpm.history)
  {
    forall t: real ensures Spent(backend.requests, WINDOW_MS, t) <= backend.rpm.cap {
      assert Spent(backend.requests, WINDOW_MS, t) <= Spent(backend.rpm.history, WINDOW_MS, t);
    }
  }
}
