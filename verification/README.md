# The paid-call control plane, as a verified model

This project models how one worker admits, sends, settles, records and closes paid calls to a model
provider, and proves what those state machines keep in every interleaving, with crashes at any point.

| file | what it models |
|---|---|
| `RollingWindow.dfy`, `OrganizationQuota.dfy`, `LeaseWindows.dfy` | the organization's leases, its request and token windows, its configuration |
| `PermitProtocol.dfy` | every process sharing the lease store, and the requests the provider may still be running |
| `ProviderVerdicts.dfy` | what a failed request proves, and which account it is charged to |
| `ProviderScheduler.dfy` | the process-local scheduler and the retry loop every request goes through |
| `UsageLedger.dfy` | the cumulative usage record: parsing, merging, what is left |
| `ModelProfiles.dfy` | prices, usage cost and the worst-case reservation |
| `BudgetTracker.dfy`, `RunAccounting.dfy`, `RunSums.dfy` | the budget gate of one run, what it keeps over whole runs, and what they add up to |
| `DurableRun.dfy` | one run across crashes, lost leases and resumes |
| `GuardedClient.dfy` | the client that opens, sends and settles each call |
| `RunStates.dfy`, `RunStore.dfy`, `Finalization.dfy` | the transition table, the stored row, and the one way a run ends |
| `LaunchOwnership.dfy` | launching a run at most once |
| `ProductOutcome.dfy` | the semantic outcome of a run, and how it is demoted |
| `RuntimePolicy.dfy` | the resolved deployment envelope |
| `ProviderTransport.dfy` | one deadline split across the phases of a request |

Objects the program mutates are classes, and their methods are proved against functions over values;
the theorems about whole runs are lemmas over those functions. Money and seconds are exact reals. What
a process cannot decide - the clock, other threads and processes, whether a store, a recorder or the
provider answers - is a parameter or a script of parameters, so every contract holds for every choice.

## Where the code keeps its promise only under a condition

Each of these is stated as an exact condition, with a witness that it fails otherwise.

* The concurrency ceiling holds in every execution exactly when no timed reclaim is configured; every
  timer breaks it (`PermitProtocol.CeilingHoldsIffUntimed`, `TimedReclaimBreaksTheCeiling`).
* `execute` leaves one lease open exactly when something that is not an `Exception` interrupts the
  window check after the lease was taken, and leaves the local slot taken exactly when the ownership
  probe fails to start and giving the lease back raises as well (`ProviderScheduler.Scheduler.Execute`;
  `ALeaseStaysOpen` and `ASlotIsStranded` are runs that do).
* What the guarded client raises proves of the request what was known exactly when the recorder answers
  and a semantic retry is still allowed, or when settling is refused first - and, while the run is not
  stopped and another call may be refused before the scheduler looks, when settling latches no stop
  (`GuardedClient.ProofIsKeptIff`). The stop a run keeps is one object: refusing another call raises it
  again and marks it, so a request that may still be running is taken for over
  (`SharedStopProvesTooMuch`, reached from a fresh tracker in `ASharedStopFreesARunningRequest`).
  Recording the retry or the backpressure is not guarded: an HTTP 500 at the retry limit leaves the
  client unproven (`ServerErrorIsLost`), a rate limit is no longer paced
  (`UnrecordedBackpressureIsNotPaced`), and a recorder that cannot be reached makes a request that may
  still be running look as if it had never been sent (`UnreachableRecorderProvesTooMuch`).
* A settlement whose sequence is not open, and an admission with a negative output cap, can unbalance
  the reservations (`RunAccounting.BalanceSurvivesSettlementIff`, `BalanceSurvivesAdmissionIff`).
* The token ceilings are overshot when a byte bound above the estimate is charged
  (`GuardedClient.TokensAreCoveredIff`); the dollar ceiling is overshot by a priced mediated search
  beside open reservations (`RunAccounting.PricedSearchKeepsTheCeilingIff`, reached by a run from a
  fresh tracker in `PricedSearchBreaksTheCeiling`) and by an answer billed at
  the one-hour cache tier (`GuardedClient.OneHourTierEscapesTheHold`).
* A same-status refresh of a run, and any move from a status this release does not know, compare
  nothing, and can undo a cancellation or an ending that came after their read
  (`RunStore.OverwriteIsHarmlessIff`, `LegacyMoveUndoesAnEnding`, and over whole histories
  `HistoriesStaySoundIff`).
* A launch that succeeded with an unreadable body - or that started although the service answered with
  an error, which the launcher takes to be impossible - is reported as a definite failure and may be
  launched twice (`LaunchOwnership.MisreportedIff`, `OneExecutionIff`).
* A dimension whose wider default is merely inherited is listed as tightened
  (`RuntimePolicy.TightenedButWiderIff`).
* The phases of a request exceed deadlines below four milliseconds (`ProviderTransport.PhasesFitIff`);
  the docstring of `allocate_request_timeouts` states the bound for every positive deadline.

## Model

| member | source | states |
|---|---|---|
| `RollingWindow.AdmitKeepsCap` | backend/provider_quota.py:547-558 | Checking only the window that ends now caps every 60-second window of the whole history, for non-decreasing readings |
| `RollingWindow.SpentShrinks` | backend/provider_quota.py:547-558 | A window that slides past the last admission only loses weight |
| `RollingWindow.RememberedIsSpent` | backend/provider_scheduler.py:368-372 | The entries a limiter still remembers weigh exactly what the whole history put into the current window |
| `RollingWindow.SinceSince` | backend/provider_scheduler.py:368-372 | Pruning repeatedly forgets exactly what pruning once from the later point would |
| `RollingWindow.SinceHead` | backend/provider_scheduler.py:368-372 | Dropping entries one by one from the front agrees with filtering the whole queue |
| `RollingWindow.ClosedWindowIsNotCapped` | backend/provider_quota.py:547-558 | A window counting both its ends is not capped: two admissions one width apart share it |
| `OrganizationQuota.WindowLog.Admit` | backend/provider_quota.py:547-558 | The decision from the pruned entries is the one the full admission history calls for; history grows exactly on admission and the cap is kept |
| `OrganizationQuota.RetryAfter` | backend/provider_quota.py:547-558 | The retry hint ends exactly when the oldest remembered entry leaves the window, never before now, and is a minute for an empty one |
| `OrganizationQuota.MemoryQuotaBackend.DropLapsed` | backend/provider_quota.py:493-496 | Walking the table drops exactly the leases that have lapsed |
| `OrganizationQuota.MemoryQuotaBackend.AcquireConcurrency` | backend/provider_quota.py:483-501 | Lapsed leases go; a slot is granted exactly when fewer than the limit remain, and no other lease is touched |
| `OrganizationQuota.MemoryQuotaBackend.ReleaseConcurrency` | backend/provider_quota.py:540-545 | Removes the one lease named, and nothing else; repeats are harmless |
| `OrganizationQuota.MemoryQuotaBackend.RecoverConcurrency` | backend/provider_quota.py:510-527 | A reclaim removes exactly a held lease whose age is known and at least the floor; the three answers are exclusive |
| `OrganizationQuota.MemoryQuotaBackend.VerifyConcurrency` | backend/provider_quota.py:529-538 | Ownership is a live entry, read without extending it |
| `OrganizationQuota.MemoryQuotaBackend.SetPause` | backend/provider_quota.py:568-570 | A pause only ever moves later |
| `OrganizationQuota.ProviderQuotaCoordinator.TryAcquireInference` | backend/provider_quota.py:1104-1127 | A lease is granted exactly when no pause is on and a live slot is free, and is held without expiry unless a timer was configured |
| `OrganizationQuota.ProviderQuotaCoordinator.OfferToWindows` | backend/provider_quota.py:1251-1261 | The request window first, then the token window: a refusal names the full one and when its oldest entry leaves, told from the whole history |
| `OrganizationQuota.ProviderQuotaCoordinator.TryAdmitRequest` | backend/provider_quota.py:1226-1261 | Admitted exactly when no pause is on, the reservation is between one token and the ceiling, and both full histories have room; otherwise exactly the first obstacle is named; a grant names its coordinator and its tokens; a token refusal keeps the request entry |
| `OrganizationQuota.ProviderQuotaCoordinator.OperatorReclaim` | backend/provider_quota.py:1177-1224 | An operator reclaim succeeds exactly with a reason recorded, for a held lease past the process-lifetime floor |
| `OrganizationQuota.InferenceLease.Release` | backend/provider_quota.py:1047-1057 | The first settlement wins; the slot leaves the store only when the store answers |
| `OrganizationQuota.InferenceLease.Quarantine` | backend/provider_quota.py:1059-1072 | Quarantine settles an open lease and never touches the store |
| `OrganizationQuota.InferenceLease.Settle` | backend/provider_quota.py:1074-1079 | Proof releases, everything else holds, and a settled lease never changes |
| `OrganizationQuota.EveryWindowHolds` | backend/provider_quota.py:1226-1261 | In every 60-second window of the whole history, admitted requests and admitted reserved tokens stay within their ceilings, and each of them is the grant of one coordinator, once |
| `LeaseWindows.DefaultIsTheLongestSafeDeadline` | backend/provider_quota.py:287-353 | For every window, a deadline is safe exactly when it is positive and at most the derived one |
| `LeaseWindows.ReclaimOutlivesTheProcessIff` | backend/provider_quota.py:302-375 | A timed reclaim is accepted exactly when it can never lapse a lease whose own process is alive, margin included |
| `LeaseWindows.BuildableKeepsRequestsInsideTheirWindow` | backend/provider_quota.py:841-918 | In every configuration that can be built, every request deadline fits in the lease window less its margin |
| `LeaseWindows.MarginIsAQuarter` | backend/provider_quota.py:287-300 | The safety margin is a quarter of every window: its fifteen-second floor never binds |
| `LeaseWindows.TheReviewedWindow` | backend/provider_quota.py:302-353 | The reviewed window allows ten minutes; a timed reclaim is accepted from seventy-five minutes on |
| `PermitProtocol.StepConserves` | backend/provider_quota.py:1004-1079 | Every step keeps each issued id in exactly one place: held, returned on proof, reclaimed or lapsed |
| `PermitProtocol.ReachableIsConserved` | backend/provider_quota.py:483-545 | Over every execution: slots are conserved, held leases stay within the largest configured limit, reclaims are at most the operator actions |
| `PermitProtocol.RunningIsBounded` | backend/provider_quota.py:1047-1136 | In every interleaving with crashes anywhere, requests the provider may still run are at most the largest limit plus reclaimed plus lapsed slots |
| `PermitProtocol.RunningIsBoundedUntimed` | backend/provider_quota.py:1104-1136 | Without a timer only operator reclaims loosen the ceiling |
| `PermitProtocol.SlotsAreFreedOneWay` | backend/provider_quota.py:540-545 | A slot is freed only by its own proven settlement, an operator or a timer; no settlement touches another holder |
| `PermitProtocol.TimedReclaimBreaksTheCeiling` | backend/provider_quota.py:1104-1113 | With any timer, however long, one slot and no operator, two requests run at once: the first holder crashed while its request still ran |
| `PermitProtocol.CeilingHoldsIffUntimed` | backend/provider_quota.py:1104-1136 | Over every execution under a set of timer settings, running requests stay within the limit plus operator reclaims exactly when none of the settings is a timer |
| `PermitProtocol.PerformAcquire` | backend/provider_quota.py:1115-1127 | Acquiring through the coordinator is an acquire step, or no step |
| `PermitProtocol.PerformSettle` | backend/provider_quota.py:1074-1079 | Settling a lease is its holder's settlement step, or a repeat that changes nothing |
| `PermitProtocol.PerformGiveBack` | backend/provider_quota.py:1047-1057 | Releasing an unsent lease is a give-back step |
| `PermitProtocol.PerformReclaim` | backend/provider_quota.py:1177-1224 | An operator reclaim is a reclaim step exactly when it is allowed |
| `ProviderVerdicts.AccountsAre` | backend/provider_authority.py:324-424 | From the exception alone: out of quota is its marker and nothing else; another marker, a 429, a 503 or the words for them are paced; what is proven over, and the delay asked for |
| `ProviderVerdicts.CodesAre` | backend/provider_authority.py:252-275 | The code a paced or refused request is reported under |
| `ProviderVerdicts.OtherOutcomesAre` | backend/provider_authority.py:408-424 | Everything else goes by the status that arrived: 4xx refused, 5xx retried, never sent retried, the rest unknown |
| `ProviderVerdicts.ReplacingKeepsTheChain` | backend/provider_authority.py:200-207 | A deadline that fired before is not forgotten by what is raised after it |
| `ProviderVerdicts.ChargedOnce` | backend/provider_authority.py:145-198 | Each failure is exactly one of: backpressure, quota exhaustion, semantic retry, cancellation |
| `ProviderVerdicts.CauseChain` | backend/provider_authority.py:200-207 | The walk over a possibly cyclic chain of causes stops and visits exactly the reachable exceptions, each once |
| `ProviderScheduler.DelayMeansFull` | backend/provider_scheduler.py:374-392 | The computed delay is zero exactly when the request fits - or is larger than the token limit and alone in its window, which only the guard in `_admit` refuses; otherwise at least a millisecond |
| `ProviderScheduler.DelayIsUntilTheOldestLeave` | backend/provider_scheduler.py:374-392 | The delay lasts exactly until every full queue has lost its oldest entry, and at least a millisecond |
| `ProviderScheduler.BackoffDoubles` | backend/provider_scheduler.py:674-676 | The first retry waits the base, each further one twice as long, up to the most there is |
| `ProviderScheduler.PopExpired` | backend/provider_scheduler.py:368-372 | Popping from the front of a sorted queue equals filtering the whole queue |
| `ProviderScheduler.StartQueue.Prune` | backend/provider_scheduler.py:368-372 | After pruning the queue is the whole history since the window began and weighs what that window holds |
| `ProviderScheduler.StartQueue.Append` | backend/provider_scheduler.py:389-391 | An admission keeps the queue sorted and every window of the history within its limit |
| `ProviderScheduler.Scheduler.Measure` | backend/provider_scheduler.py:377-388 | The delay from the two queues is zero exactly when the full histories have room |
| `ProviderScheduler.Scheduler.TryAdmit` | backend/provider_scheduler.py:374-392 | Admits exactly when the full histories have room, recording one request and its tokens; otherwise answers at least a millisecond |
| `ProviderScheduler.Scheduler.Wait` | backend/provider_scheduler.py:358-366 | Sleeps in one-second steps, never past the request, and all of it unless cancelled; a cancellation seen at the k-th check has slept k seconds |
| `ProviderScheduler.Scheduler.Admit` | backend/provider_scheduler.py:394-420 | Terminates, waits within what is left of the bound, refuses a request larger than the token limit before anything, and names what ended it: a cancellation or a callback of its last pass |
| `ProviderScheduler.Scheduler.AcquireSlot` | backend/provider_scheduler.py:422-449 | Holds a slot exactly on success; the wait stays within the bound; a cancellation or a raise is that of its last pass |
| `ProviderScheduler.Scheduler.OfferOnce` | backend/provider_scheduler.py:472-487 | A lease is taken exactly when the store answers, nothing is paused and a slot is free; it stays open exactly when a non-Exception interrupts its window check, and is given back on every other refusal; whatever is granted was admitted by both windows through this coordinator with these tokens, whatever others offered meanwhile |
| `ProviderScheduler.Scheduler.OfferUnder` | backend/provider_scheduler.py:477-487 | Under a lease: admitted, or given back and asked to wait exactly for the pause or the full window that refused, but no less than the poll |
| `ProviderScheduler.Scheduler.AcquireGlobal` | backend/provider_scheduler.py:451-496 | Terminates within the bound; every lease taken on the way is released, except the one handed out and the one whose window check a non-Exception interrupted, which is the last pass and the only such pass |
| `ProviderScheduler.Scheduler.SendRequest` | backend/provider_scheduler.py:635-684 | Sends once, and answers from what was raised: an exhausted quota and whatever is not "not now" end the call; a plain 429 or 503 is sent again after the delay the provider asked for, or a capped backoff with at most a quarter of jitter, while retries and wait allow it |
| `ProviderScheduler.Scheduler.ReserveHere` | backend/provider_scheduler.py:592-607 | The local half: a place in both windows, then a slot, held exactly on success |
| `ProviderScheduler.Scheduler.Reserve` | backend/provider_scheduler.py:592-634 | Window, slot, lease, probe: a failure leaves the slot taken exactly when the probe did not start and giving the lease back raised, and a lease open exactly when its window check was interrupted |
| `ProviderScheduler.Scheduler.StartProbe` | backend/provider_scheduler.py:618-634 | A probe that does not start gives the lease back and then the slot, which stays taken exactly when giving the lease back raised |
| `ProviderScheduler.Scheduler.SettleSent` | backend/provider_scheduler.py:688-705 | The lease of a sent request is settled on proof alone; settling raises exactly when the store, after proof, or the diagnostic sink, without it, does not answer |
| `ProviderScheduler.Scheduler.SendAndSettle` | backend/provider_scheduler.py:635-712 | The slot is given back and the lease settled on what was raised, before anything is waited for; a paced request with retries and wait to spare is surely sent again |
| `ProviderScheduler.Scheduler.Turn` | backend/provider_scheduler.py:592-712 | One attempt settles its lease exactly once, on what its own request raised, and leaves the local slot count as it found it, but for the two exits, each exactly when its cause is in the script; its exit is the one its request, or the wait before it, calls for |
| `ProviderScheduler.Scheduler.Execute` | backend/provider_scheduler.py:580-712 | For every script of the outside world: at most 1 + retries requests sent, every one but the last paced, each admitted by both organization windows through this coordinator at its own reservation, each settled as what it raised proves; the exit is the last request's, or names a cancellation or a raise on the way; at most the bound slept, the slot count restored - but for a slot left taken exactly when the last turn's probe did not start and its release raised, and a lease left open exactly when a non-Exception interrupted the last window check |
| `ProviderScheduler.ASlotIsStranded` | backend/provider_scheduler.py:626-634 | A run of `execute` that ends with its slot still taken |
| `ProviderScheduler.ALeaseStaysOpen` | backend/provider_scheduler.py:472-477 | A run of `execute` that ends with a lease open although nothing was sent |
| `ProviderScheduler.EveryLocalWindowHolds` | backend/provider_scheduler.py:368-420 | With a monotonic clock every 60-second window of the local history respects the request and token limits |
| `UsageLedger.ValidateUsageSnapshot` | backend/execution_usage.py:153-179 | A record parses exactly when every known value is valid and a declared total is the sum of its parts |
| `UsageLedger.ValidIff` | backend/execution_usage.py:138-179 | From the values: amounts and counters are non-negative numbers of their kind, and a stated total is the sum of an input and an output |
| `UsageLedger.ParseFields` | backend/execution_usage.py:163-171 | One list of fields parses exactly when each present value is valid, keeping only what is present |
| `UsageLedger.MergeMeasured` | backend/execution_usage.py:208-214 | Walking the three field lists computes the component-wise maximum |
| `UsageLedger.MergeUsageSnapshots` | backend/execution_usage.py:182-221 | Refuses exactly when a contributing record is invalid; otherwise the maximum on every dimension with a recomputed total |
| `UsageLedger.JoinLaws` | backend/execution_usage.py:182-221 | The component-wise maximum is commutative, associative, idempotent and has the empty record as unit |
| `UsageLedger.MergeIgnoresOrder` | backend/execution_usage.py:182-221 | Any permutation of the records merges to the same result |
| `UsageLedger.MergeOfMerges` | backend/execution_usage.py:182-221 | Merging merges equals merging everything at once, for any grouping |
| `UsageLedger.MergeIsIdempotent` | backend/execution_usage.py:182-221 | Repeating records, or re-merging a merge, adds nothing |
| `UsageLedger.MergedIsValid` | backend/execution_usage.py:182-221 | A merge is itself a valid record with a consistent token total |
| `UsageLedger.MergeIsTheMaximum` | backend/execution_usage.py:182-221 | On each measured dimension the merge shows the largest consumption of any record, and one record shows it |
| `UsageLedger.MergeLeavesNoMore` | backend/execution_usage.py:253-276 | On every limit, what remains of the merge is at most what remains of any record in it |
| `UsageLedger.RemainingCapacity` | backend/execution_usage.py:253-276 | Fills exactly the enforceable dimensions: unset limits stay open, others never go below zero |
| `UsageLedger.RemainingIs` | backend/execution_usage.py:253-276 | What is left and what was used make up the limit, until nothing is left |
| `UsageLedger.LimitsAre` | backend/execution_usage.py:240-250 | Nine limits are enforceable |
| `UsageLedger.UsageIsNotBelow` | backend/execution_usage.py:229-238 | True exactly when no cumulative dimension the earlier record carries went down |
| `ModelProfiles.Money` | backend/model_profiles.py:81-83 | Rounds up to the quantum, by less than one quantum |
| `ModelProfiles.MoneyIsWhole` | backend/model_profiles.py:81-83 | ... to a whole number of quanta |
| `ModelProfiles.EveryTokenIsBilled` | backend/model_profiles.py:138-160 | Every prompt token is billed once, at the hit, write or miss price, and every output token at the output price |
| `ModelProfiles.ReportsAreReadAs` | backend/model_profiles.py:138-160 | A report that does not add up is billed as the one that does: nothing counts below nothing, nor more of a prompt than there is |
| `ModelProfiles.TheWorstCaseIsReached` | backend/model_profiles.py:162-168 | The worst case is the exact cost of a prompt written wholly to the five-minute cache, or not cached at all |
| `ModelProfiles.WorstCaseBounds` | backend/model_profiles.py:138-168 | Every breakdown within the reserved input and output costs at most the worst case, when no input price exceeds the reserve rate |
| `ModelProfiles.ReservationCoversIff` | backend/model_profiles.py:117-168 | The worst case covers every breakdown exactly when neither the hit price nor the write price exceeds the reserve rate |
| `ModelProfiles.CachedPromptEscapes` | backend/model_profiles.py:127-168 | A cache-hit price above the reserve rate is escaped by some prompt, rounding included |
| `ModelProfiles.WrittenPromptEscapes` | backend/model_profiles.py:127-168 | So is a cache-write price above it |
| `ModelProfiles.RegisteredProfiles` | backend/model_profiles.py:181-213 | Both registered models are covered at the five-minute tier; one of them is not at the one-hour tier |
| `BudgetTracker.Budget.constructor` | backend/budget.py:342-424 | A fresh tracker has spent and reserved nothing |
| `BudgetTracker.Budget.Record` | backend/budget.py:479-495 | The row moves to the maximum of itself and the ledger exactly when the recorder answers |
| `BudgetTracker.Budget.Stop` | backend/budget.py:431-436 | The first stop is kept |
| `BudgetTracker.Budget.CountRefusal` | backend/budget.py:606-613 | No refusal exactly when duration, calls, steps and retries have room; otherwise the first full one is named |
| `BudgetTracker.Budget.TokenRefusal` | backend/budget.py:616-629 | No refusal exactly when input, output and total ceilings have room beside what is in flight |
| `BudgetTracker.Budget.ContractRefusal` | backend/budget.py:642-684 | No refusal exactly when a role call is priced, capped, above its answer reserve and affordable beside every open worst case |
| `BudgetTracker.Budget.FirstFullLimit` | backend/budget.py:606-633 | The run's own limits, checked in order, let a call through exactly when every one has room, and name the first that has none |
| `BudgetTracker.Budget.DailyOrContractRefusal` | backend/budget.py:634-716 | Daily sums, then the role's contract, then the external reservation: no refusal exactly when all admit, otherwise the first one's code |
| `BudgetTracker.Budget.Reserve` | backend/budget.py:719-731 | Admission takes one call, its estimate, its allowance and its worst case under the next sequence |
| `BudgetTracker.Budget.OpenCall` | backend/budget.py:576-748 | Admitted exactly when nothing stopped the run and every limit has room; durable before it returns; a refusal latches the stop already reached or the first refusal in the gate's order; a cancellation or a raising reserver changes nothing |
| `BudgetTracker.Budget.Apply` | backend/budget.py:773-816 | Releases exactly the hold of its sequence, or the passed-back numbers when none is open, and adds exactly what was stated (`RunSums.RunAddsUp`) |
| `BudgetTracker.Budget.SettleCall` | backend/budget.py:750-846 | A failed daily settlement changes nothing but the stop; otherwise release and charge, recorded, and checked against the limits only once recorded |
| `BudgetTracker.Budget.RecordAgentStep` | backend/budget.py:855-860 | Counts the step, then stops above the limit once recorded |
| `BudgetTracker.Budget.RecordRetry` | backend/budget.py:862-867 | Counts the retry, then stops above the limit once recorded |
| `BudgetTracker.Budget.ReserveSearch` | backend/budget.py:893-928 | A hold is granted exactly when nothing stopped the run and the ceiling has room for all of it |
| `BudgetTracker.Budget.SettleSearch` | backend/budget.py:930-1017 | Releases its own hold once; unknown counts charge the whole hold; an unaffordable mediated search charges nothing and stops the run; it returns exactly when it was recorded, affordable and within every limit |
| `BudgetTracker.Budget.RestoreSnapshot` | backend/budget.py:497-524 | Restores exactly into an unspent tracker from a known, valid record, and refuses otherwise |
| `RunAccounting.SumHoldsWithout` | backend/budget.py:773-796 | A sum over open calls loses exactly the hold that is removed, whichever it is |
| `RunAccounting.StepKeepsBalance` | backend/budget.py:719-796 | Every operation keeps reserved totals equal to the sums over open calls and searches |
| `RunAccounting.StepKeepsTokens` | backend/budget.py:616-641 | Every operation that charges no more than its hold keeps spent plus reserved within all three token ceilings |
| `RunAccounting.StepKeepsDollars` | backend/budget.py:667-684 | Every operation that charges no more than its hold keeps spent plus reserved dollars within the ceiling |
| `RunAccounting.StepKeepsSearches` | backend/budget.py:893-1017 | Spent plus held searches stay within the ceiling, or the run is stopped |
| `RunAccounting.StepKeepsStopLatch` | backend/budget.py:431-436 | Every recorded operation that takes usage over a limit leaves the stop set |
| `RunAccounting.RunKeeps` | backend/budget.py:576-867 | Conservation, token, dollar, search and call ceilings and the stop latch, over every interleaving, each under its own per-step obligation |
| `RunAccounting.FreshKeeps` | backend/budget.py:420-424 | A fresh tracker keeps every promise |
| `RunAccounting.RestoredKeeps` | backend/budget.py:497-524 | A restored tracker is balanced and proper, and within the token and dollar ceilings exactly when what it inherits is |
| `RunAccounting.BalanceSurvivesSettlementIff` | backend/budget.py:773-787 | A settlement keeps the books exactly when its sequence is open or its passed-back numbers release nothing reserved |
| `RunAccounting.BalanceSurvivesAdmissionIff` | backend/budget.py:725-728 | An admission keeps the books exactly when its output cap is not negative |
| `RunAccounting.PricedSearchKeepsTheCeilingIff` | backend/budget.py:970-1003 | In a state within its dollar ceiling, settling a mediated search stays within it exactly when the search is refused on what was spent alone or also fits beside every open call: reserved dollars are not looked at |
| `RunAccounting.PricedSearchBreaksTheCeiling` | backend/budget.py:970-1003 | A run from a fresh tracker, every call charged no more than it held, that ends above its dollar ceiling because of one search |
| `RunAccounting.OverLimitAdmitsNothing` | backend/budget.py:606-633 | Usage above a limit admits no call even before the stop is set, so a resumed run is refused too |
| `RunAccounting.StopIsFinal` | backend/budget.py:596-597 | Once stopped, over any further run - calls settling late, twice, or under no sequence of theirs: nothing is admitted, the code stays, calls and every reservation never grow |
| `RunAccounting.RunsAreProper` | backend/budget.py:773-796 | However calls are settled, in every run of well-priced calls nothing reserved and nothing held goes below zero |
| `RunAccounting.StoppedRunsStayStopped` | backend/budget.py:596-597 | So every run of a fresh tracker that has stopped stays stopped, whatever came before and whatever comes after |
| `RunAccounting.OverLimitHasStopped` | backend/budget.py:835-867 | From a fresh tracker whose recorder answers, usage above a token, cost, step or retry limit has stopped the run |
| `RunAccounting.SecondSearchSettlementIsNothing` | backend/budget.py:966-968 | However much happens in between, a second settlement of a search changes nothing |
| `RunSums.RunAddsUp` | backend/budget.py:719-1003 | Over any run, recorded or not: input, output, failures, dollars, searches, steps, retries, calls and estimates are the starting values plus what the steps stated, no more and no less |
| `RunSums.TokensAddUp` | backend/budget.py:793-796 | Spent tokens are the starting ones plus the sums the settlements stated, told from the steps alone |
| `RunSums.TokensOverACeilingStop` | backend/budget.py:835-846 | A recorded settlement whose stated tokens take the run over a ceiling stops it, under that ceiling's name |
| `RunSums.RefusalsAre` | backend/budget.py:595-716 | The refusal is the first full limit of one ordered list: the gate, the run, the day, the role, the reservation |
| `RunSums.AdmittedIff` | backend/budget.py:595-748 | A call is admitted exactly when nothing refuses and nothing interrupts it |
| `RunSums.AllowanceIsTheMost` | backend/budget.py:617-641 | The allowance is the most output that the caller asked for and that both ceilings still have beside all in flight |
| `RunSums.AdmissionHolds` | backend/budget.py:719-731 | An admitted call holds its estimate, its allowance and its worst case under the next sequence, and touches no other hold |
| `RunSums.SettlementReleases` | backend/budget.py:773-791 | A settlement gives back its own hold, or what its caller passed, and never more than is reserved |
| `RunSums.OveragesAre` | backend/budget.py:835-1017 | Why a recorded settlement of a call or a search stops the run, in order |
| `RunSums.SearchesHold` | backend/budget.py:893-1017 | Search holds, told from the counts: room for all or none, given back whatever is charged, stopped for the first reason there is |
| `RunSums.Perform` | backend/budget.py:576-1017 | Every operation of the tracker is the step of that name |
| `RunSums.TheRecordShowsCalls` | backend/budget.py:442-477 | The ledger row shows the tracker's own calls, attempts, failures and retries |
| `RunSums.TheRecordShowsTokens` | backend/budget.py:442-477 | ... its tokens and their total |
| `RunSums.TheRecordShowsWork` | backend/budget.py:442-477 | ... its steps, searches and elapsed time |
| `RunSums.TheRecordShowsDollars` | backend/budget.py:442-477 | ... and its dollars |
| `DurableRun.RecordedCounts` | backend/execution_usage.py:182-221 | Recording moves each counter of the row to the larger of the row and the tracker |
| `DurableRun.ResumedCount` | backend/execution_usage.py:182-221 | A resumed counter is at least every record and at most the largest |
| `DurableRun.RestoreKeepsSpending` | backend/budget.py:442-524 | Resuming from the last ledger restores every cumulative dimension and the elapsed time exactly |
| `DurableRun.WorkIsSound` | backend/budget.py:479-495 | Any tracker operation, recorded or not - or recorded with its answer lost - keeps the durable counters at or above what may have been sent |
| `DurableRun.ResumeIsSound` | backend/budget.py:497-524 | So does restoring the merge of the durable records into a fresh tracker |
| `DurableRun.LifeIsSound` | backend/budget.py:595-748 | So does every sequence of operations, sends, crashes, lost leases and resumes |
| `DurableRun.ARunStaysWithinItsCeilings` | backend/provider_authority.py:959-1064 | Across every crash and resume, requests sent never exceed the call ceiling and mediated searches performed never exceed the search ceiling |
| `GuardedClient.GuardedCompletions.FollowUp` | backend/budget.py:1193-1208 | A retry or a backpressure is recorded as the verdict says; what recording raises replaces the failure, unmarked until the same stop refuses another call |
| `GuardedClient.GuardedCompletions.SettleFailure` | backend/budget.py:1150-1208 | A failed call is charged nothing when proven over and its whole hold otherwise; what is raised carries the verdict, or what replaced it |
| `GuardedClient.GuardedCompletions.SettleAnswer` | backend/budget.py:1235-1252 | An answered call settles its usage; a refusal to settle is marked as over |
| `GuardedClient.GuardedCompletions.Close` | backend/budget.py:1149-1252 | Settles with the call's own sequence, charges the whole worst case when nothing is proven, counts a retry only where the verdict says so, and raises exactly the failure the caller will classify |
| `GuardedClient.SettlingKeepsTheProof` | backend/budget.py:1184-1192 | A refused settlement, a call that was not settled, and an answer leave what is known about the request as it was, unless the stop it raised is the one the run keeps and refuses another call |
| `GuardedClient.ProofIsKeptIff` | backend/budget.py:1184-1208 | For every outcome and whatever this side raises, what leaves the client proves what was known exactly when the recorder answers and a semantic retry is still allowed, or settling is refused first; where the run is not stopped yet and another call is refused before this one is classified, exactly when the daily budget settles and either the recorder refuses the settlement, or charging the whole hold breaks no limit and the follow-up answers |
| `GuardedClient.NoTextFreesAPermit` | backend/provider_authority.py:324-370 | Under that condition no text decides whether a permit goes back, and a fired total deadline never gives one back |
| `GuardedClient.ServerErrorIsLost` | backend/budget.py:1199-1200 | Otherwise an HTTP 500, proven over, leaves the client unproven and its permit is held |
| `GuardedClient.SharedStopProvesTooMuch` | backend/budget.py:431-436 | Closing a timed-out request latches the stop; refusing another call marks that same object, and the request that may still run is proven over |
| `GuardedClient.ASharedStopFreesARunningRequest` | backend/budget.py:595-597 | A run from a fresh tracker in which that happens: the latched stop refuses every next call |
| `GuardedClient.UnreachableRecorderProvesTooMuch` | backend/budget.py:1199-1200 | And a timed-out request that may still run leaves it proven over when the recorder could not be connected to |
| `GuardedClient.UnrecordedBackpressureIsNotPaced` | backend/budget.py:1193-1198 | A rate limit whose recording fails is no longer backpressure to the scheduler |
| `GuardedClient.ChargesAre` | backend/budget.py:1149-1252 | What each outcome is charged: the very hold of the call when it may still be running, nothing when a failure is proven over, what it used when answered, all it was allowed when unmeasured |
| `GuardedClient.RetriesAre` | backend/provider_authority.py:145-198 | A semantic retry is charged for every failure but a cancellation, an exhausted quota and a paced one |
| `GuardedClient.ChargeIsCoveredByTheHold` | backend/budget.py:1158-1238 | No role call costs more than it held: answered, unmeasured, or failed without proof |
| `GuardedClient.OneHourTierEscapesTheHold` | backend/model_profiles.py:117-136 | At the one-hour tier an answer within its bounds costs more than was held |
| `GuardedClient.TokensAreCoveredIff` | backend/budget.py:1158-1223 | A failed or unmeasured call charges no more input than it held exactly when it is proven over, has no role, or its byte bound is at most the estimate |
| `GuardedClient.ByteBoundOvershootsTheTokenCeiling` | backend/budget.py:1158-1170 | An admitted call whose charged bytes leave the input ceiling, which stops the run |
| `GuardedClient.RoleCallsStayWithinTheDollarCeiling` | backend/budget.py:667-796 | In every run of role calls, recorded plus reserved dollars stay within the run ceiling whatever the outcomes |
| `RunStates.AcceptedRequestsHaveAWorker` | backend/runtime.py:68-95 | A cancellation passes both checks exactly when the run is claimed, or queued with its launch recorded as started |
| `RunStates.RefusalsAre` | backend/runtime.py:68-95 | Without a worker: refused as unresolved while a launch may be running, and as not launched when there is none |
| `RunStates.WhereEachStatusComesFrom` | backend/runtime.py:16-31 | The table of moves read backwards: the statuses each one can be reached from |
| `RunStates.WhereCancellationEnds` | backend/runtime.py:16-31 | Along every path of the table a cancellation ends cancelled or failed, and nothing leaves a terminal status |
| `RunStore.EveryHistoryIsSound` | backend/finalization.py:34-47 | In every interleaving of finalizers, cancellations, claims and compared moves: at most one terminal write, a terminal row never changes, an accepted cancellation ends only cancelled or failed |
| `RunStore.WhatLands` | backend/repository/supabase.py:1134-1225 | What each write changes, and when, told from the row and the statuses it read |
| `RunStore.OverwriteIsHarmlessIff` | backend/repository/supabase.py:1134-1171 | A refresh, or a move from a status this release does not know, compares nothing: it keeps that exactly when the run is not over and it takes no accepted cancellation back |
| `RunStore.LegacyMoveUndoesAnEnding` | backend/repository/supabase.py:1138-1171 | A row of an unknown status finished by one worker and reopened by another that had read it before |
| `RunStore.HistoriesStaySoundIff` | backend/repository/supabase.py:1134-1171 | Over every history of compared and uncompared writes, every step keeps it exactly when no uncompared write lands where it harms |
| `RunStore.WriteEvolves` | supabase/migrations/20260920000200_atomic_run_finalization.sql:75-98 | The guarded statement either closes an open row once, or leaves it alone, whatever the network does |
| `RunStore.Store.UpdateGuarded` | supabase/migrations/20260920000200_atomic_run_finalization.sql:75-98 | The update matches exactly under the current lease and the expected status |
| `RunStore.Store.FinalizeRun` | backend/repository/supabase.py:1185-1225 | An illegal move is refused before the database; otherwise the statement lands or not, and the answer may be lost either way |
| `Finalization.StatusOf` | backend/finalization.py:252-259 | Every claim derives a terminal status |
| `Finalization.EndingsAre` | backend/finalization.py:251-259 | Which claims derive which ending: an unusable product is still a partial success |
| `Finalization.SameDecisionIff` | backend/finalization.py:264-275 | Two claims are one decision exactly when they agree in everything but the output, all budget stops of a status being alike |
| `Finalization.Winner` | backend/finalization.py:395-405 | No claim, noted or live, has more authority than the winner |
| `Finalization.WinnerIsTheFirstStrongest` | backend/finalization.py:395-405 | The winner is the finalize claim on a tie, else the first of the strongest |
| `Finalization.TheWinnerEndsAs` | backend/finalization.py:83-90 | In statuses: a cancellation stands before anything, then a timeout or a budget stop, then a failure, then a partial success; completed only when every claim says so |
| `Finalization.ArrivalOnlyBreaksTies` | backend/finalization.py:395-417 | Any arrangement of the same claims picks the same authority, and the same status but for a timeout against a budget stop |
| `Finalization.LegalizedIsLegal` | backend/finalization.py:437-457 | Under an accepted cancellation every claim becomes legal - failed stays failed, the rest is cancelled under its own code - and keeps its product; otherwise nothing changes |
| `Finalization.CommitIsHonest` | backend/finalization.py:459-508 | In every schedule: a returned result names the terminal status, a write was this worker's and the first, a lost race wrote nothing, the product is kept |
| `Finalization.FinalizeIsHonest` | backend/finalization.py:362-375 | The same for a whole finalization: the written status is the ending that stands among all claims or, after a cancellation, cancelled; a writer names its claim, an adopter none |
| `Finalization.CancellationIsAbsorbed` | backend/finalization.py:478-497 | One cancellation between the read and the write is absorbed: the re-decision commits under it and the output survives |
| `Finalization.QuietCommit` | backend/finalization.py:459-528 | Undisturbed, a claim commits exactly when the status may end that way, adopts what is over, and otherwise surfaces as an illegal move |
| `Finalization.CommitFailsAs` | backend/finalization.py:459-528 | Unread, unanswered or without the lease, each failure has its own name and leaves the row as it says |
| `Finalization.AnswersAre` | backend/finalization.py:407-417 | A claim is heard exactly when, and as often as, some source answers with it |
| `Finalization.RunFinalizer.constructor` | backend/finalization.py:304-325 | A new finalizer has decided nothing |
| `Finalization.RunFinalizer.Note` | backend/finalization.py:333-345 | A claim is noted exactly while nothing is decided |
| `Finalization.RunFinalizer.Claims` | backend/finalization.py:407-417 | Noted claims first, then every source that answers |
| `Finalization.RunFinalizer.Adopt` | backend/finalization.py:428-435 | Adopts exactly a terminal status |
| `Finalization.RunFinalizer.Repeat` | backend/finalization.py:383-393 | A repeat writes nothing, names the durable status, and is a duplicate exactly when the identities agree |
| `Finalization.RunFinalizer.OthersRun` | backend/finalization.py:34-47 | What a finalizer reported stays true whatever others do next |
| `Finalization.RunFinalizer.Commit` | backend/finalization.py:459-508 | Performs the specified commit, and its own record agrees with the row |
| `Finalization.RunFinalizer.Finalize` | backend/finalization.py:362-375 | Performs the specified finalization; every returned status is the row's for good; a write takes the row from no terminal write to one |
| `LaunchOwnership.MisreportedIff` | backend/job_launcher.py:65-76 | A started execution is reported as a definite failure exactly when the service answered with an error or with a success whose body cannot be read; taking an error for proof that nothing started, as the launcher does, exactly after the unreadable success |
| `LaunchOwnership.StepKeepsOwnership` | backend/main.py:524-568 | Every step by any request keeps one owner at most, and nothing started while the launch can be taken |
| `LaunchOwnership.OneExecutionIff` | backend/main.py:516-568 | In every interleaving at most one attempt may have started an execution, exactly when no started execution is reported as a definite failure |
| `LaunchOwnership.TwoLaunches` | backend/main.py:554-561 | The history in which a misreported launch is launched again |
| `LaunchOwnership.AParkedLaunchStaysParked` | backend/main.py:519-529 | Once parked or taken by a dead owner, no later request ever starts another execution |
| `LaunchOwnership.Board.TryAcquireLaunch` | backend/repository/supabase.py:691-698 | Exactly one caller moves a queued pending or failed launch to launching |
| `LaunchOwnership.Board.LaunchCreatedRun` | backend/main.py:487-568 | A request performs exactly the protocol steps, with anything in between |
| `LaunchOwnership.ARequestKeepsOwnership` | backend/main.py:487-568 | Where an error answer does prove that nothing started and bodies can be read: a whole request keeps ownership, and reports a retryable failure only when nothing started |
| `LaunchOwnership.WhatALaunchLeaves` | backend/main.py:519-568 | From the reply: a POST that raised leaves the launch unknown, parked and not cancellable while queued; an accepted one launched; any other failed and retryable; and exactly when it is acquired at all |
| `ProductOutcome.ItemsRoundTrip` | backend/product_outcome.py:422-425 | Listing counts in sorted order and reading them back is the identity |
| `ProductOutcome.FoldCounts` | backend/product_outcome.py:324-333 | Folding in any order keeps the larger of two counts, and refuses exactly a positive count under an unlisted code |
| `ProductOutcome.DemotedWith` | backend/product_outcome.py:314-345 | Returns the demoted outcome, or refuses exactly when a positive count is not allowlisted |
| `ProductOutcome.DemotionIs` | backend/product_outcome.py:314-345 | Nothing changes unless a count is more than is counted already; then each code has the larger count, complete becomes partial, and at least their total is outstanding |
| `ProductOutcome.TotalIs` | backend/product_outcome.py:338-344 | The total counts every listed code once |
| `ProductOutcome.DemotionIsCanonical` | backend/product_outcome.py:314-345 | A demoted outcome lists the merged counts once each, sorted |
| `ProductOutcome.DemotionIsAJoin` | backend/product_outcome.py:314-345 | Two demotions equal one by the pointwise maximum |
| `ProductOutcome.DemotionOrderIsIrrelevant` | backend/product_outcome.py:314-345 | Order and repetition do not matter; the status never rises; the outstanding count never falls |
| `ProductOutcome.CountModels` | backend/product_outcome.py:559-570 | Counts each verdict over the whole list |
| `ProductOutcome.ReadCatalog` | backend/product_outcome.py:559-616 | Reads a catalog document as the counted outcome |
| `ProductOutcome.CatalogIs` | backend/product_outcome.py:559-616 | From the models and the lists: what was settled, what is outstanding and each blocking count, the larger of two ways of counting; unusable exactly without a settled model |
| `ProductOutcome.FallbacksAre` | backend/product_outcome.py:498-556 | A stored result with nothing to count derives no product, or only what it claims, downwards |
| `ProductOutcome.WorthIs` | backend/product_outcome.py:314-345 | Complete claims more than partial, partial more than unusable, and the rest nothing |
| `ProductOutcome.DeriveV1` | backend/product_outcome.py:498-616 | The reader with its early returns derives the outcome the four results below are about |
| `ProductOutcome.StoredOwingMoreNeverRaises` | backend/product_outcome.py:498-616 | Through every fallback, a stored result that declares no better and owes more - or lost its document - never derives a higher status |
| `ProductOutcome.CompleteCatalogs` | backend/product_outcome.py:583-616 | A catalog derives complete exactly when it claims so twice, settled a model, and has nothing unsettled, rejected, under review, failed or degraded |
| `ProductOutcome.CompleteIsDeclared` | backend/product_outcome.py:498-616 | A complete outcome, whichever reader it came through, was declared complete, produced something, is blocked by nothing and owes nothing |
| `ProductOutcome.FurtherModelOwesMore` | backend/product_outcome.py:559-582 | A further unsettled or rejected model anywhere in the list, or a settled one demoted in place, is something more owed |
| `ProductOutcome.OwingMoreNeverRaises` | backend/product_outcome.py:577-616 | Fewer settled models, more unsettled or rejected ones, failed agents, review items, rejections or degraded stages never raise a catalog's status, lower what is outstanding, or lower any blocking count |
| `ProductOutcome.DemotionAgreesWithDerivation` | backend/product_outcome.py:314-345 | Folding in a checkpoint's failed agents gives the status and items the document would derive had it carried them |
| `RuntimePolicy.TightenedButWiderIff` | backend/runtime_policy.py:872-877 | A dimension listed as tightened is wider than reviewed exactly when nothing is configured, its default is wider and paid execution does not refuse it |
| `RuntimePolicy.InvariantViolations` | backend/runtime_policy.py:903-943 | Nothing is reported exactly when both costs fit the hard cap and the duration plus the longest call fits the job |
| `RuntimePolicy.ResolveOne` | backend/runtime_policy.py:822-877 | One turn of the loop yields the specified value, source, refusal and listings |
| `RuntimePolicy.DimensionIs` | backend/runtime_policy.py:822-877 | Case by case: the value, its source, the refusal and the listing of a dimension that is blank, unreadable, too wide or in force |
| `RuntimePolicy.SourcesAre` | backend/runtime_policy.py:822-877 | Every dimension of the document names its own source |
| `RuntimePolicy.ListsAre` | backend/runtime_policy.py:857-877 | The lists of tightened and relaxed dimensions name exactly those |
| `RuntimePolicy.PlansCost` | backend/runtime_policy.py:975-987 | The worst-case plan takes two calls a task, one decision a replan, and six besides |
| `RuntimePolicy.ReviewedViolations` | backend/runtime_policy.py:956-1020 | Reports nothing exactly when the reviewed registry is consistent: costs, duration, joint tokens, the worst-case plan, the lease window and the provider ceilings |
| `RuntimePolicy.Resolve` | backend/runtime_policy.py:812-894 | Resolves every dimension as specified and reports nothing exactly when the environment is acceptable and, paid, the reviewed registry consistent |
| `RuntimePolicy.PaidNeverRunsWiderIff` | backend/runtime_policy.py:812-877 | No environment, refused or not, resolves a paid dimension wider than reviewed, exactly when every dimension without a key has a safe default |
| `RuntimePolicy.TighteningStaysAccepted` | backend/runtime_policy.py:903-943 | Replacing configured values of an accepted environment by tighter positive ones is always accepted |
| `RuntimePolicy.PaymentIsAcceptedIff` | backend/runtime_policy.py:822-943 | Turning payment on is accepted exactly when the unpaid deployment was, relaxed nothing, configured every mandatory dimension and kept the invariants; it then runs on the same values |
| `RuntimePolicy.PinnedIsAcceptedIff` | backend/runtime_policy.py:812-1020 | A paid deployment pinned to the reviewed numbers runs on exactly them, and is accepted exactly when they are consistent |
| `RuntimePolicy.TheReviewedRegistryHolds` | backend/runtime_policy.py:257-465 | The shipped registry satisfies all: never wider when paid, tightening never refused, consistent with itself, and accepted when pinned |
| `ProviderTransport.AllocateRequestTimeouts` | backend/provider_transport.py:192-223 | Refuses exactly a non-positive deadline; otherwise the specified split |
| `ProviderTransport.EachPhaseIs` | backend/provider_transport.py:192-223 | Each phase on its own: a twentieth or a tenth of the deadline up to its cap, connect no longer than its timeout, read all that is left or the inactivity window, none under a millisecond |
| `ProviderTransport.PhasesFitIff` | backend/provider_transport.py:192-223 | Pool, connect, write and read fit in the deadline exactly when it is at least 0.004 s, for every connect timeout and inactivity window |
| `ProviderTransport.OverridesOnlyTighten` | backend/provider_transport.py:297-308 | A caller's override holds exactly where it is the smaller, and so never increases a phase nor the sum |
| `ProviderTransport.TimingIs` | backend/provider_transport.py:276-296 | A caller's total only brings the deadline forward; its inactivity window is taken over |
| `ProviderTransport.Tighten` | backend/provider_transport.py:297-308 | Each stated override is applied as a minimum, in any order |
| `ProviderTransport.HandleRequest` | backend/provider_transport.py:276-319 | Leaves on the request each phase of the split, or the caller's own smaller number; leaves it alone under a bad deadline; fails exactly when the headers used up the deadline |
| `ProviderTransport.Stream` | backend/provider_transport.py:254-262 | Hands on exactly the chunks before the first late one, and raises exactly when there is one |
| `ProviderTransport.Exchange` | backend/provider_transport.py:254-319 | Hands on exactly the chunks before the first one past the tightened deadline, which never exceeds the client's |

## Left out

- The Redis-backed store, its Lua scripts and all HTTP: the in-memory store is the modelled statement of the same algorithm. The per-endpoint search interval is not modelled.
- What an exception's text says is a record of flags: pattern matching, header parsing and NaN delays are not modelled.
- The ownership probe only matters where it fails to start; its thread, event emission, warnings, logs and traces are not modelled.
- Rounding of recorded amounts to six decimals, `ledger_version`, and the tracker's own tool, task, replan, backpressure, cache and reasoning counters (the ledger's merge does cover those fields).
- Daily budgets are external: whether their sums have room, whether the reserver rejects or raises, and whether settling with it succeeds are parameters of each call.
- The database merge of a usage row is the same component-wise maximum as the in-process merge.
- Reading usage from a response, building requests, and which exception a provider raises are parameters.
- Swarm V2's product contract, plan limits, and the preflight of a concrete plan are separate; provider and budget configuration objects are taken as validated numbers.
- Digests, payloads and JSON rendering are opaque values; payload shape, coverage ratio and the terminal event's content are not modelled.
- Lease expiry is the database's decision on each write; attempt numbers and worker names are one lease token.
- An environment variable's text is a number, garbage or blank; `tightened` and `relaxed` are listed in registry order rather than sorted.
- OrganizationQuota.WindowLog.Admit: clock readings are non-decreasing per window, as the property is promised; a reading that goes back is not modelled.
- ProviderScheduler.Scheduler.TryAdmit: requires the request to fit the token limit, as `_admit` checks first; `DelayMeansFull` says what happens without that check.
- RunAccounting.RunKeeps: the token and dollar promises need each settlement to stay within its hold; `GuardedClient` proves when the client meets that.
- DurableRun.ARunStaysWithinItsCeilings: needs a recorder attached and one lease holder at a time; a deposed holder may still send what it was admitted to send, but records nothing.
- LaunchOwnership.OneExecutionIff: operator reconciliation of a parked launch is a human's assertion and is not modelled.
- RunStore.EveryHistoryIsSound: moves are compare-and-set here; the writes that compare nothing are treated by `HistoriesStaySoundIff`, and runs are never deleted.
- GuardedClient.ProofIsKeptIff: the other way round - a refused call whose mark the latching call then overwrites, so that its unused permit is held - is the safe direction and not modelled.
- PermitProtocol.RunningIsBounded: a settlement is proven only after its request has ended; `GuardedClient.UnreachableRecorderProvesTooMuch` and `ASharedStopFreesARunningRequest` show inputs on which the code's own proof is wrong.
- ProviderScheduler.Scheduler.Execute: other processes replace the lease table as they like between two looks, and offer requests of their own to the windows, each through a coordinator of its own (other threads of this process count among them); within one step the store answers alone.
