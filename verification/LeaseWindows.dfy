/** How long a request may take, and how old a lease must be, as the organization's configuration allows. */
module LeaseWindows {
  import opened Common

  const MARGIN_RATIO: real := 0.25
  const MIN_MARGIN_SECONDS: real := 15.0
  const WORKER_MAX_LIFETIME_SECONDS: real := 3600.0
  const NON_STREAMING_DEADLINE_SECONDS: real := 90.0
  const MAX_CONCURRENCY := 32
  const MAX_RPM := 80
  const MAX_TPM := 2400000

  /** The part of a window no request may use: a quarter of it, at least fifteen
      seconds once the window is long enough to carry them. */
  function SafetyMargin(window: real): real {
    if window >= MIN_MARGIN_SECONDS / MARGIN_RATIO then Max(MIN_MARGIN_SECONDS, window * MARGIN_RATIO)
    else window * MARGIN_RATIO
  }

  /** The fifteen seconds never bind: a window long enough to carry them has a
      quarter that is longer. */
  lemma MarginIsAQuarter(window: real)
    ensures SafetyMargin(window) == window / 4.0
  {
  }

  function DefaultDeadline(ttl: real): real {
    ttl - SafetyMargin(ttl)
  }

  predicate DeadlineSafe(deadline: real, ttl: real) {
    deadline > 0.0 && ttl > 0.0 && deadline + SafetyMargin(ttl) <= ttl
  }

  /** The derived deadline is the longest safe one, for every window there is. */
  lemma DefaultIsTheLongestSafeDeadline(ttl: real, deadline: real)
    requires ttl > 0.0
    ensures DeadlineSafe(DefaultDeadline(ttl), ttl)
    ensures DeadlineSafe(deadline, ttl) <==> 0.0 < deadline <= DefaultDeadline(ttl)
  {
  }

  function ReclaimFloor(lifetime: real): real {
    lifetime + SafetyMargin(lifetime)
  }

  predicate ReclaimSafe(reclaim: Option<real>, lifetime: real) {
    lifetime > 0.0 && (reclaim.Some? ==> reclaim.value >= ReclaimFloor(lifetime))
  }

  /** A process alive at `t` that took a lease at `acquired`. */
  predicate AliveWith(started: real, acquired: real, t: real, lifetime: real) {
    started <= acquired <= t <= started + lifetime
  }

  /**
    A timed reclaim is accepted exactly when it never lapses a lease whose own
    process is still alive, with the whole margin to spare.
   */
  lemma ReclaimOutlivesTheProcessIff(reclaim: real, lifetime: real)
    requires lifetime > 0.0
    ensures ReclaimSafe(Some(reclaim), lifetime) <==>
              forall started, acquired, t :: AliveWith(started, acquired, t, lifetime) ==>
                t + SafetyMargin(lifetime) <= acquired + reclaim
  {
    if !ReclaimSafe(Some(reclaim), lifetime) {
      assert AliveWith(0.0, 0.0, lifetime, lifetime);
    }
  }

  datatype Settings = Settings(
    maxConcurrency: int, maxRpm: int, maxTpm: int, ttl: real, timeout: Option<real>, lifetime: real,
        reclaim: Option<real>)

  function RequestDeadline(s: Settings): real {
    if s.timeout.None? then DefaultDeadline(s.ttl) else s.timeout.value
  }

  function NonStreamingDeadline(s: Settings): real {
    Min(NON_STREAMING_DEADLINE_SECONDS, RequestDeadline(s))
  }

  /** An unsafe configuration cannot be built. */
  predicate Buildable(s: Settings) {
    && 1 <= s.maxConcurrency <= MAX_CONCURRENCY && 1 <= s.maxRpm <= MAX_RPM && 1 <= s.maxTpm <= MAX_TPM
    && DeadlineSafe(RequestDeadline(s), s.ttl) && ReclaimSafe(s.reclaim, s.lifetime)
  }

  /** In every configuration that can be built, no request is allowed past its
      lease window less the margin, streamed or not; without a stated timeout
      only the window itself has to be sensible. */
  lemma BuildableKeepsRequestsInsideTheirWindow(s: Settings)
    ensures Buildable(s) ==> 0.0 < NonStreamingDeadline(s) <= RequestDeadline(s) <= s.ttl - SafetyMargin(s.ttl) < s.ttl
    ensures s.timeout.None? ==> (DeadlineSafe(RequestDeadline(s), s.ttl) <==> s.ttl > 0.0)
  {
    if s.ttl > 0.0 {
      DefaultIsTheLongestSafeDeadline(s.ttl, RequestDeadline(s));
    }
  }

  /** The reviewed window and the worker's lifetime, in seconds. */
  lemma TheReviewedWindow()
    ensures DefaultDeadline(800.0) == 600.0 && ReclaimFloor(WORKER_MAX_LIFETIME_SECONDS) == 4500.0
    ensures forall reclaim: real :: ReclaimSafe(Some(reclaim), WORKER_MAX_LIFETIME_SECONDS) <==> reclaim >= 4500.0
  {
  }
}
