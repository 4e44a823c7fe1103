/**
  The one classification of a provider attempt. An exception is kept as the
  structural facts the classifier reads, plus what its text appears to say.
 */
module ProviderVerdicts {
  import opened Common

  datatype Outcome =
    | Success | RateLimit | RetryableFailure | NonRetryableFailure | Timeout | Cancellation | Unknown

  datatype Code = RateLimitReached | EngineOverloaded | ExceededQuota | SearchRateLimited | SearchRateLimitUnavailable

  /** What a message claims. Permissive by design, and never evidence. */
  datatype Text = Text(marker: Option<Code>, says429: bool, saysOverloaded: bool, saysOrganization: bool)

  datatype Response = Response(status: Option<int>, retryAfter: Option<real>)

  datatype Failure = Failure(
    isException: bool,          // false for KeyboardInterrupt and SystemExit
    isCancellation: bool,
    declared: Option<bool>,     // provider_request_completed, when some code set it
    deadlineInChain: bool,      // the total deadline fired somewhere along the causes
    neverSentInChain: bool,     // a connect-phase failure somewhere along the causes
    response: Option<Response>,
    advertisedStatus: Option<int>,
    text: Text)

  datatype Verdict = Verdict(
    outcome: Outcome, code: Option<Code>, proven: bool, unprovenReason: string, retryAfter: Option<real>)
  {
    predicate IsBackpressure() { outcome == RateLimit }

    predicate IsQuotaExhaustion() { code == Some(ExceededQuota) }

    predicate ConsumesSemanticRetry() {
      !IsQuotaExhaustion() && outcome in {RetryableFailure, NonRetryableFailure, Timeout, Unknown}
    }
  }

  predicate CarriesResponse(e: Failure) {
    e.response.Some? && e.response.value.status.Some? && 100 <= e.response.value.status.value <= 599
  }

  function ClaimedStatus(e: Failure): Option<int> {
    if e.advertisedStatus.Some? then e.advertisedStatus
    else if e.response.Some? then e.response.value.status
    else None
  }

  function FailureCode(e: Failure): Option<Code> {
    if e.text.marker.Some? then e.text.marker
    else if ClaimedStatus(e) == Some(429) || e.text.says429 then Some(RateLimitReached)
    else if ClaimedStatus(e) == Some(503) || e.text.saysOverloaded then Some(EngineOverloaded)
    else if e.text.saysOrganization then Some(RateLimitReached)
    else None
  }

  function RetryAfter(e: Failure): Option<real> {
    if e.response.Some? && e.response.value.retryAfter.Some? && e.response.value.retryAfter.value >= 0.0
    then e.response.value.retryAfter else None
  }

  /** Can the request be PROVEN over? The default is no. */
  function CompletionIsProven(e: Failure): (bool, string) {
    if e.declared.Some? then
      (e.declared.value, if e.declared.value then "" else "PROVIDER_REQUEST_OUTCOME_DECLARED_UNKNOWN")
    else if e.deadlineInChain then (false, "PROVIDER_REQUEST_DEADLINE_EXCEEDED")
    else if CarriesResponse(e) then (true, "")
    else if e.neverSentInChain then (true, "")
    else (false, "PROVIDER_REQUEST_OUTCOME_UNKNOWN")
  }

  function Classify(e: Failure): Verdict {
    var (proven, reason) := CompletionIsProven(e);
    var code := FailureCode(e);
    var status := if CarriesResponse(e) then ClaimedStatus(e) else None;
    var (outcome, named) :=
      if e.isCancellation then (Cancellation, None)
      else if e.deadlineInChain then (Timeout, None)
      else if code == Some(ExceededQuota) then (NonRetryableFailure, code)
      else if code.Some? then (RateLimit, code)
      else if status.Some? then
        (if 500 <= status.value <= 599 then RetryableFailure
         else if 400 <= status.value <= 499 then NonRetryableFailure
         else Unknown, None)
      else if e.neverSentInChain then (RetryableFailure, None)
      else (Unknown, None);
    Verdict(outcome, named, proven, reason, RetryAfter(e))
  }

  /** An exception raised while another is being handled: the chain of causes
      runs on into the earlier one, and nothing else of it is seen. */
  function Replacing(later: Failure, earlier: Failure): Failure {
    later.(deadlineInChain := later.deadlineInChain || earlier.deadlineInChain,
           neverSentInChain := later.neverSentInChain || earlier.neverSentInChain)
  }

  /** Marked by code that knows which side of the request it ran on. */
  function Marked(e: Failure, completed: bool): Failure {
    e.(declared := Some(completed))
  }

  lemma MarkedIsProven(e: Failure, completed: bool)
    ensures Classify(Marked(e, completed)).proven == completed
  {
    hide FailureCode, RetryAfter;
  }

  /** No message can free an organization slot: whatever an exception says,
      whether its request is proven over depends on its structure alone. */
  lemma ProofIgnoresText(e: Failure, t: Text)
    ensures Classify(e).proven == Classify(e.(text := t)).proven
    ensures Classify(e).unprovenReason == Classify(e.(text := t)).unprovenReason
  {
    assert CarriesResponse(e) == CarriesResponse(e.(text := t));
  }

  /** A fired total deadline proves nothing about the provider, even on an
      exception that carries an answer; only the code's own mark overrides it. */
  lemma DeadlineIsNoProof(e: Failure)
    requires e.deadlineInChain && e.declared != Some(true)
    ensures !Classify(e).proven
    ensures Classify(e).outcome in {Timeout, Cancellation}
  {
  }

  // -- the verdict, from what the exception carries -----------------------------------

  /** The status the exception claims: its own, else its response's. */
  predicate ClaimsStatus(e: Failure, status: int) {
    if e.advertisedStatus.Some? then e.advertisedStatus.value == status
    else e.response.Some? && e.response.value.status == Some(status)
  }

  /** A cancelled run, or a deadline of ours that fired. */
  predicate IsOurs(e: Failure) {
    e.isCancellation || e.deadlineInChain
  }

  predicate IsOutOfQuota(e: Failure) {
    !IsOurs(e) && e.text.marker == Some(ExceededQuota)
  }

  /** The provider says "not now": by a marker, or else by 429, 503 or words. */
  predicate IsPaced(e: Failure) {
    && !IsOurs(e)
    && (if e.text.marker.Some? then e.text.marker.value != ExceededQuota
        else ClaimsStatus(e, 429) || ClaimsStatus(e, 503)
             || e.text.says429 || e.text.saysOverloaded || e.text.saysOrganization)
  }

  lemma PacedHasQuota(e: Failure)
    requires IsPaced(e)
    ensures !IsOutOfQuota(e)
  {
  }

  /** A response with a status arrived, or the request never left. */
  predicate IsOver(e: Failure) {
    if e.declared.Some? then e.declared.value
    else !e.deadlineInChain
         && (e.neverSentInChain
             || (e.response.Some? && e.response.value.status.Some? && 100 <= e.response.value.status.value <= 599))
  }

  predicate AsksFor(e: Failure, seconds: real) {
    e.response.Some? && e.response.value.retryAfter == Some(seconds) && seconds >= 0.0
  }

  /**
    Which account a failure goes to, told from the exception alone. Out of quota
    is the marker and nothing else: a plain 429 is paced, and so is a 503.
   */
  lemma AccountsAre(e: Failure)
    ensures var v := Classify(e);
            && (v.outcome == Cancellation <==> e.isCancellation)
            && (v.outcome == Timeout <==> e.deadlineInChain && !e.isCancellation)
            && (v.IsQuotaExhaustion() <==> IsOutOfQuota(e))
            && (v.IsBackpressure() <==> IsPaced(e))
            && (v.proven <==> IsOver(e)) && (v.unprovenReason == "" <==> v.proven)
            && (forall x :: v.retryAfter == Some(x) <==> AsksFor(e, x))
  {
    assert RetryAfter(e).Some? ==> AsksFor(e, RetryAfter(e).value);
  }

  /** The code a paced or refused request is reported under. */
  lemma CodesAre(e: Failure)
    ensures IsOurs(e) ==> Classify(e).code.None?
    ensures !IsOurs(e) && e.text.marker.Some? ==> Classify(e).code == e.text.marker
    ensures !IsOurs(e) && e.text.marker.None? ==>
              && (Classify(e).code == Some(RateLimitReached) <==>
                    || ClaimsStatus(e, 429) || e.text.says429
                    || (e.text.saysOrganization && !ClaimsStatus(e, 503) && !e.text.saysOverloaded))
              && (Classify(e).code == Some(EngineOverloaded) <==>
                    && (ClaimsStatus(e, 503) || e.text.saysOverloaded) && !ClaimsStatus(e, 429) && !e.text.says429)
              && (Classify(e).code.Some? ==> Classify(e).code.value in {RateLimitReached, EngineOverloaded})
  {
  }

  /** What is neither ours, nor paced, nor out of quota goes by the status that
      arrived with it: refused for a 4xx, retried for a 5xx; retried too when it
      never left, and otherwise not known. */
  lemma OtherOutcomesAre(e: Failure, status: int)
    requires !IsOurs(e) && !IsOutOfQuota(e) && !IsPaced(e)
    ensures var arrived := e.response.Some? && e.response.value.status.Some?
                           && 100 <= e.response.value.status.value <= 599;
            && (arrived && ClaimsStatus(e, status) ==>
                  Classify(e).outcome == if 500 <= status <= 599 then RetryableFailure
                                         else if 400 <= status <= 499 then NonRetryableFailure else Unknown)
            && (!arrived ==> Classify(e).outcome == if e.neverSentInChain then RetryableFailure else Unknown)
  {
  }

  /** A deadline that fired before is not forgotten by what is raised after it. */
  lemma ReplacingKeepsTheChain(later: Failure, earlier: Failure)
    requires later.declared.None?
    ensures later.deadlineInChain || earlier.deadlineInChain ==> !Classify(Replacing(later, earlier)).proven
    ensures Classify(Replacing(later, earlier)).outcome == Timeout <==>
              (later.deadlineInChain || earlier.deadlineInChain) && !later.isCancellation
    ensures var deadline := later.deadlineInChain || earlier.deadlineInChain;
            !deadline && (later.neverSentInChain || earlier.neverSentInChain) ==>
              Classify(Replacing(later, earlier)).proven
  {
  }

  /** One provider event is charged to exactly one account: paced as
      backpressure, a hard quota refusal, a semantic retry, or a cancellation. */
  lemma ChargedOnce(e: Failure)
    ensures var v := Classify(e);
            One(v.IsBackpressure()) + One(v.IsQuotaExhaustion()) + One(v.ConsumesSemanticRetry())
            + One(v.outcome == Cancellation) == 1
  {
    hide CompletionIsProven, RetryAfter, ClaimedStatus, CarriesResponse;
  }

  function One(b: bool): nat {
    if b then 1 else 0
  }

  // -- the chain of causes ------------------------------------------------------

  type ExceptionId = nat

  /** `__cause__` when set, else `__context__`; the graph may be cyclic. */
  datatype Links = Links(cause: Option<ExceptionId>, context: Option<ExceptionId>)

  type Graph = map<ExceptionId, Links>

  predicate Closed(g: Graph) {
    forall x :: x in g ==>
        (g[x].cause.Some? ==> g[x].cause.value in g) && (g[x].context.Some? ==> g[x].context.value in g)
  }

  function Next(g: Graph, x: ExceptionId): Option<ExceptionId>
    requires x in g
  {
    if g[x].cause.Some? then g[x].cause else g[x].context
  }

  /** The exception reached after `k` links, if the chain is that long. */
  function Nth(g: Graph, start: ExceptionId, k: nat): (r: Option<ExceptionId>)
    requires Closed(g) && start in g
    ensures r.Some? ==> r.value in g
  {
    if k == 0 then Some(start)
    else
      var before := Nth(g, start, k - 1);
      if before.None? then None else Next(g, before.value)
  }

  /** The chain follows the links, and after its last entry comes `next`. */
  ghost predicate Follows(g: Graph, start: ExceptionId, chain: seq<ExceptionId>, next: Option<ExceptionId>) {
    && (if chain == [] then next == Some(start) else chain[0] == start)
    && forall i :: 0 <= i < |chain| ==> LinkedAt(g, chain, next, i)
  }

  predicate LinkedAt(g: Graph, chain: seq<ExceptionId>, next: Option<ExceptionId>, i: nat)
    requires i < |chain|
  {
    chain[i] in g && Next(g, chain[i]) == if i == |chain| - 1 then next else Some(chain[i + 1])
  }

  lemma FollowsOn(g: Graph, start: ExceptionId, chain: seq<ExceptionId>, here: ExceptionId)
    requires Follows(g, start, chain, Some(here)) && here in g
    ensures Follows(g, start, chain + [here], Next(g, here))
  {
    var longer := chain + [here];
    forall i | 0 <= i < |longer| ensures LinkedAt(g, longer, Next(g, here), i) {
      assert i < |chain| ==> LinkedAt(g, chain, Some(here), i);
    }
  }

  lemma {:induction false} FollowsNth(g: Graph, start: ExceptionId, chain: seq<ExceptionId>,
      next: Option<ExceptionId>, k: nat)
    requires Closed(g) && start in g && Follows(g, start, chain, next) && k < |chain|
    ensures Nth(g, start, k) == Some(chain[k])
  {
    hide Closed;
    if k > 0 {
      FollowsNth(g, start, chain, next, k - 1);
      assert LinkedAt(g, chain, next, k - 1);
    }
  }

  /** A chain that ends, or closes on itself, has visited everything. */
  lemma {:induction false} FollowsAll(g: Graph, start: ExceptionId, chain: seq<ExceptionId>,
      next: Option<ExceptionId>, k: nat)
    requires Closed(g) && start in g && Follows(g, start, chain, next) && chain != []
    requires next.Some? ==> next.value in chain
    ensures Nth(g, start, k).Some? ==> Nth(g, start, k).value in chain
  {
    hide Closed;
    if k > 0 {
      FollowsAll(g, start, chain, next, k - 1);
      var before := Nth(g, start, k - 1);
      if before.Some? {
        var i :| 0 <= i < |chain| && chain[i] == before.value;
        assert LinkedAt(g, chain, next, i);
      }
    }
  }

  /** Walks a possibly cyclic chain and stops: every exception reachable from
      `start` is visited, in order, and none twice. */
  method CauseChain(g: Graph, start: ExceptionId) returns (chain: seq<ExceptionId>)
    requires Closed(g) && start in g
    ensures forall i :: 0 <= i < |chain| ==> Nth(g, start, i) == Some(chain[i])
    ensures forall i, j :: 0 <= i < j < |chain| ==> chain[i] != chain[j]
    ensures forall k: nat :: Nth(g, start, k).Some? ==> Nth(g, start, k).value in chain
  {
    chain := [];
    var seen: set<ExceptionId> := {};
    var current := Some(start);
    while current.Some? && current.value !in seen
      invariant Follows(g, start, chain, current)
      invariant current.Some? ==> current.value in g
      invariant seen <= g.Keys && (forall x :: x in seen <==> x in chain)
      invariant forall i, j :: 0 <= i < j < |chain| ==> chain[i] != chain[j]
      decreases g.Keys - seen
    {
      var here := current.value;
      FollowsOn(g, start, chain, here);
      seen := seen + {here};
      chain := chain + [here];
      current := Next(g, here);
    }
    forall i | 0 <= i < |chain| ensures Nth(g, start, i) == Some(chain[i]) {
      FollowsNth(g, start, chain, current, i);
    }
    forall k: nat | Nth(g, start, k).Some? ensures Nth(g, start, k).value in chain {
      FollowsAll(g, start, chain, current, k);
    }
  }
}
