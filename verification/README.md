# Verification of the run ledger, the incident monitor and their arithmetic

Dafny models of the parts of the repository that keep state other parts rely on, with proofs of what
they promise. To check the project, use `dafny verify dfyconfig.toml`.

**The run ledger** (`gateway/app/run-ledger`). A run of an agent has a budget. `precall` decides
whether the next model call may go ahead and reserves its worst-case cost; `postcall` settles it.
`AdmissionRule` is the decision, a pure function, and `AdmissionAnswers` what it means for the
caller. `RunLedger` is what Redis holds for a run and the atomic effect of each operation on it, key
expiry included. `LedgerSafety` proves what every sequence of effects keeps: money and concurrency
are conserved, the budget holds up to two named terms, the policies keep their promises.
`LedgerLimits` says exactly which steps exceed a budget, and has the runs that go to the limit;
`LedgerCharges` joins what is reserved to what is charged. `PrecallProtocol` breaks `precall` into
its steps (watch and read the hash, read the prompt list, EXEC), lets any number of clients
interleave, and proves that the store is always the one left by a sequence of atomic effects.
`RunLedgerService` is the service as an object whose fields are the Redis keys, with the retry loop
of `precall`.

**Budget leases** (`budget_lease.py`). `BudgetLease` has the ledger of slices, its fencing tokens
and any number of leases, as effects on values, and the laws every mix of renewals, debits, releases
and expiries obeys; `LeaseAccounts` says what of the spending the ledger learns, `LeaseFencing`
follows the tokens over whole runs, `LeaseLimits` says exactly when all runs obey the documented
bound, `LeaseGranted` exactly when the ledger never counts less than nothing as granted, and
`LeaseService` is the same as objects updated in place.

**The incident monitor** (`agent/incident_monitor.py`). `Timestamps` and `PendingKeys` show that
cursor strings order as time does and that keys of pending work do not collide. `MonitorSteps` is
the poll on the durable blob; what the handler, the lease and the process do is a parameter, so
every handler, every loss of the lease and every crash between two writes is covered.
`MonitorQueries` says exactly what a poll asks for and in which order it takes it. `MonitorSafety`
has the invariant, `MonitorGuarantees` what it means over whole runs of polls, and `MonitorService`
the monitor as an object.

**Arithmetic.** `Reconcile` is the daily budget reconciler, `Enforcement` the points at which it
bites, `UsageFolds` the two separately written groupings of usage rows (worker and admin UI),
`Interpolation` the telemetry traces. `Numbers` has half-even rounding.

Effects are functions from state to state, because lemmas speak about them; each operation that
changes fields in place is also a method of a class, proved equal to the function. Whole-run results
are stated about sequences of effects, of any length and in any order.

## What the proofs say about the code

Some statements one might expect are false of the code. Each has a lemma that names an input or a run
on which it fails, and a lemma that says exactly when it holds.

- *The budget is never exceeded.* The progress guard admits before the fit is checked
  (`decide.py:80-88`), and a settled call may cost more than it reserved. A run stays within its budget
  if and only if no step of it is a guarded admission or a settlement for more than is left
  (`LedgerLimits.BudgetIsExceededExactly`). `LedgerSafety.BudgetHolds` bounds the excess;
  `LedgerLimits.BudgetBoundIsReached` has runs, under any repeat limit the window can hold, in which
  each term of that bound is used up.
- *An EXEC that commits answers to the current state.* It does for the run hash. The prompt list is
  not watched; admissions are the only writers and also write the hash, but the list expires on its
  own, and `create_run` and `postcall` keep only the hash alive.
  `PrecallProtocol.ExpiredPromptsCanDecide` is such a run; the decision is the current one exactly if the
  list has not expired since it was read, or the progress guard did not make the decision or makes all
  (`PrecallProtocol.CommittedDecisionIsCurrentExactly`).
- *A postcall that finds its reservation finds its run.* Exactly when neither run TTL is shorter than
  the reservation TTL: `LedgerSafety.TtlOrderingIsExact`. Shorter ones are accepted, and then
  `postcall` rebuilds a run without a budget (`LedgerSafety.ShortTtlCorruptsTheRun`).
- *A run past the threshold is steered.* At most one call is sent to the cheap model, and the progress
  guard can use that one up without sending any: `LedgerLimits.GuardLosesTheSteer` is such a run. It
  happens exactly if the guard admits the first call at or past the threshold:
  `LedgerLimits.SteerIsLostExactly`.
- *Pricing never fails.* `decide` divides by an output price of zero on the inputs of
  `AdmissionRule.FreeOutputCanRaise`, and exactly in the case `AdmissionRule.RaisesExactly` names.
- *Overshoot is at most leaseholders times lease size* (`budget_lease.py:5-7`). For a given number and
  size of leases, all disciplined runs within a limit of time obey it exactly if that limit is below the
  300 seconds of a grant and, should leases be released, there is a single one or their size is at most 2
  (`LeaseLimits.LeaseholderBoundExactly`); counted per lease epoch, exactly if the limit is below that
  (`LeaseLimits.EpochBoundExactly`). `LeaseLimits.ReleasesOverspend` and `LeaseLimits.LateRunOverspends`
  are runs that exceed it by any amount, `LeaseLimits.SlowHolderOverspends` some whose clock only moves
  forward.
- *The granted amount is what is out.* A lease remembers only its newest token, so a release can hand
  back more than that token was granted, and expiry then hands it back again
  (`LeaseGranted.ReclaimReturnsTwice`). The granted amount never drops below zero exactly if leases are
  renewed by hand only when nothing remains (`LeaseGranted.GrantedStaysNonNegativeExactly`); renewing when
  `needs_renewal` says so keeps to that only for sizes up to 1 / `renew_at`
  (`LeaseGranted.PrefetchKeepsGrantedExactly`).
- *The UI shows what is enforced.* It asks only about names it finds safe, while the worker counts all of
  them: for a consumer such as a@b it shows level 0 where the worker enforces level 2
  (`UsageFolds.UnsafeNamesAreHidden`). It shows the usage, the cost and the level of the worker exactly if
  the name is safe or there is none to show (`UsageFolds.ShownIsCountedExactly`,
  `UsageFolds.DisplayMatchesEnforcement`).

Another fact the code relies on is true of its queries: they sum up usage by slot, so that adding and
overwriting rows amount to the same (`UsageFolds.QueriesMatch`, `UsageFolds.FoldsAgree`). Over rows with
two for a slot the two groupings would differ (`UsageFolds.AgreementIsUniqueness`).

## Assumptions

- Prices, costs, thresholds and telemetry values are exact reals where the code uses floats; `round`
  is half-even on the exact value. Integers are unbounded, as in Python. Prices are not negative.
- The store holds one run, and `postcall` names the run its reservation belongs to. Redis keys vanish
  at the first moment at or after their expiry; the expiry of a watched key fails the EXEC.
- `create_run` and the part of `postcall` up to its transaction are atomic; the halt flag is a
  separate effect, so anything may happen before it.
- Request fields are as the request models admit them: token counts and caps not negative, budgets
  and TTLs positive. A step arrives as the number its string stands for, 0 if it is none; a missing
  model name is "". Prices are those the settings yield, per token.
- The monitor has one leader writing at a time. The source is ordered by cursor, each poll sees a
  prefix of it, and what the query should return lies inside the query's window of time.
- The UI and the worker look at the same samples of usage and at one price table: the same moment of a day,
  and no price changed since the UI read the table when it started.
- Incident timestamps and stored cursors have the form `_iso` writes. Notes of traces are in lower
  case. Dictionary iteration order is irrelevant wherever the model picks any element.

## Model

| member | source | states |
|---|---|---|
| AdmissionRule.ShrinkingIsSoundAndOptimal | gateway/app/run-ledger/run_ledger/decide.py:104-113 | off the guard's path the reservation fits the remaining budget, and a shrunk cap is the largest whose exact cost fits |
| AdmissionAnswers.GrantedCapExactly | gateway/app/run-ledger/run_ledger/decide.py:94-123 | off the guard's path a call gets at most the cap it asks for (its own, or the default if it names none or 0), that cap exactly if its rounded price fits, and a reservation of the price of the cap granted |
| AdmissionAnswers.HaltedForItsCapExactly | gateway/app/run-ledger/run_ledger/decide.py:104-111 | a call is halted for its worst case if and only if no earlier guard answers, output has a price, the cap it asks for does not fit and not even one output token's exact cost does |
| AdmissionAnswers.AllowedMeansUntouched | gateway/app/run-ledger/run_ledger/decide.py:115-123 | a call is allowed, not mutated, if and only if it goes out with its own cap, to its own model and without a note |
| AdmissionAnswers.QueuedForASlotExactly | gateway/app/run-ledger/run_ledger/decide.py:90-92 | a call is queued if and only if an idle slot would change the answer |
| AdmissionAnswers.HaltedForItsStepsExactly | gateway/app/run-ledger/run_ledger/decide.py:76-78 | a run is halted for its steps if and only if a higher step cap would change the answer |
| AdmissionAnswers.GuardIgnoresTheRest | gateway/app/run-ledger/run_ledger/decide.py:80-88 | the guard admits a repeated call at the default cap and its price, whatever cap was asked for and whatever is in flight |
| AdmissionRule.RaisesExactly | gateway/app/run-ledger/run_ledger/decide.py:105-109 | the rule raises if and only if the output price is zero and the rounded input cost alone does not fit |
| AdmissionRule.FreeOutputCanRaise | gateway/app/run-ledger/run_ledger/decide.py:105-109 | an untouched run in which the rule raises: output free, one input token more than the budget |
| AdmissionRule.MoreBudgetNeverHurts | gateway/app/run-ledger/run_ledger/decide.py:72-123 | a call admitted under one budget is admitted under any larger one, with at least as many output tokens |
| AdmissionRule.PromptsMatterOnlyToTheGuard | gateway/app/run-ledger/run_ledger/decide.py:80-88 | another prompt list changes an admitting decision exactly if it changes the progress guard's answer |
| RunLedger.PostCallTwiceIsOnce | gateway/app/run-ledger/run_ledger/service.py:217-239 | a second postcall for the same reservation changes nothing |
| RunLedger.PostCallSettles | gateway/app/run-ledger/run_ledger/service.py:217-249 | a postcall removes its reservation and no other, gives back its amount and its place, adds its charge, and flags the run exactly if it is spent out |
| LedgerCharges.ChargeIsPriced | gateway/app/run-ledger/run_ledger/service.py:225-230 | the charge is the input and output tokens at the rates of the model named, or else of the model admitted, rounded; nothing for a failed call or a model without rates |
| LedgerCharges.WithinGrantFits | gateway/app/run-ledger/run_ledger/service.py:225-237 | a call settled at its model, with no more tokens than estimated and granted, costs at most what it reserved |
| LedgerCharges.WithinGrantsNothingOverruns | gateway/app/run-ledger/run_ledger/service.py:184-239 | a run in which every settlement does so never overruns |
| LedgerCharges.WithinGrantsBudgetHolds | gateway/app/run-ledger/run_ledger/service.py:184-239 | such a run exceeds its budget by less than its largest guarded reservation |
| LedgerLimits.FlaggedHashIsHalted | gateway/app/run-ledger/run_ledger/service.py:88-100 | a flagged hash halts every call for the reason it was flagged with |
| LedgerLimits.RunLivesExactly | gateway/app/run-ledger/run_ledger/service.py:122-126 | left alone, a run hash lives for just the time to live its last operation gave it |
| LedgerLimits.AdmissionLivesExactly | gateway/app/run-ledger/run_ledger/service.py:194-202 | an admission gives its reservation the reservation TTL and the prompt list the run TTL, each to the moment |
| LedgerLimits.RunsSteerOnce | gateway/app/run-ledger/run_ledger/service.py:176-193 | in every healthy run exactly the first admission at or past the threshold names the cheap model, unless the guard made it, and the run counts as steered from then on |
| LedgerLimits.SteerIsLostExactly | gateway/app/run-ledger/run_ledger/service.py:176-193 | a steered run has sent no call to the cheap model if and only if the guard admitted the first call at or past the threshold |
| LedgerSafety.HealthyRunsAreSafe | gateway/app/run-ledger/run_ledger/service.py:102-249 | the invariant of every run: conservation, the budget bound, the policies, and live reservations backed by admissions |
| LedgerSafety.BudgetHolds | gateway/app/run-ledger/run_ledger/decide.py:72-123 | over every run spend + inflight <= budget + (largest guarded reservation - 1) + overruns, and <= budget when neither occurs |
| LedgerLimits.StepExceedsExactly | gateway/app/run-ledger/run_ledger/decide.py:80-123 | a step takes a run beyond its budget if and only if it is a guarded admission or a settlement for more than is left |
| LedgerLimits.BudgetIsExceededExactly | gateway/app/run-ledger/run_ledger/service.py:147-239 | a run is within its budget throughout if and only if it has no such step |
| LedgerLimits.BudgetBoundIsReached | gateway/app/run-ledger/run_ledger/decide.py:80-92 | for any repeat limit the window can hold, runs reading the real prompt list in which the bound is an equality, by the guarded term and by the overrun term |
| LedgerLimits.GuardLosesTheSteer | gateway/app/run-ledger/run_ledger/service.py:176-193 | a run past the threshold that counts as steered although no call was or will be sent to the cheap model |
| LedgerSafety.CountersAreSums | gateway/app/run-ledger/run_ledger/service.py:184-239 | inflight and concurrent are sums over admitted, unsettled calls, expired ones included; spend is the sum of settled costs |
| LedgerSafety.PoliciesHold | gateway/app/run-ledger/run_ledger/service.py:176-249 | the halt flag implies a spent budget; steps stay below the cap; at most one override; unguarded calls outstanding stay within the fan-out cap |
| LedgerSafety.SpentOutStaysHalted | gateway/app/run-ledger/run_ledger/decide.py:69-74 | once the spend has reached the budget, every precall in every continuation that keeps the hash alive is halted with cost_budget, flag written or not |
| LedgerSafety.LiveRunsOnlyProgress | gateway/app/run-ledger/run_ledger/service.py:184-249 | over every continuation that keeps the hash alive the budget is fixed and spend, steps, flags, admissions and settlements only grow |
| LedgerSafety.OrderedTtlsKeepRunsHealthy | gateway/app/run-ledger/run_ledger/service.py:194-199 | with ordered TTLs no live reservation outlives its run hash, in any timed run |
| LedgerSafety.TtlOrderingIsExact | gateway/app/run-ledger/run_ledger/service.py:103-126 | all runs are healthy if and only if neither run TTL is shorter than the reservation TTL |
| LedgerSafety.ShortTtlCorruptsTheRun | gateway/app/run-ledger/run_ledger/service.py:220-249 | with either TTL too short a postcall rebuilds the run with no budget and a negative reservation count |
| LedgerSafety.PromptListIsNewestHashes | gateway/app/run-ledger/run_ledger/service.py:200-202 | the pushed and trimmed list is the newest loop_window hashes of the admission history |
| LedgerSafety.ProgressGuardSeesHistory | gateway/app/run-ledger/run_ledger/decide.py:81-82 | the progress guard's answer is the one computed from the admissions since the list last expired; if it never did, from all admissions ever made |
| LedgerSafety.HashesAreAdmissions | gateway/app/run-ledger/run_ledger/service.py:200-202 | the recorded hashes are the tail of those of all committed admissions, and all of them while the list has not expired |
| PrecallProtocol.EffectsMoveTheVersion | gateway/app/run-ledger/run_ledger/service.py:184-203 | every write to the hash or the list moves the watched version, expiry of the list excepted |
| PrecallProtocol.ReachableReadsAreCurrent | gateway/app/run-ledger/run_ledger/service.py:150-155 | what any client has read is current as long as the version it watches stands |
| PrecallProtocol.InterleavingsAreAtomicRuns | gateway/app/run-ledger/run_ledger/service.py:147-215 | refinement: every interleaving leaves the store of some sequence of atomic effects |
| PrecallProtocol.InterleavedBudgetHolds | gateway/app/run-ledger/run_ledger/service.py:147-239 | the budget bound and conservation for any number of interleaved clients |
| PrecallProtocol.CommittedPrecallIsLinearizable | gateway/app/run-ledger/run_ledger/service.py:147-211 | a committing EXEC returns and applies the decision on the state just before it |
| PrecallProtocol.AloneClientsAreAnswered | gateway/app/run-ledger/run_ledger/service.py:147-211 | a client left alone is answered in three moves, with the effect of the atomic admission |
| PrecallProtocol.MissingRunsEndTheCall | gateway/app/run-ledger/run_ledger/service.py:151-153 | a client that finds no run ends its call and writes nothing |
| PrecallProtocol.ConflictsStartOver | gateway/app/run-ledger/run_ledger/service.py:212-213 | a client whose watched key has moved starts over with the same request and writes nothing |
| PrecallProtocol.CommittedDecisionIsCurrentExactly | gateway/app/run-ledger/run_ledger/service.py:154-163 | the decision of a committing EXEC is the one of the state just before it if and only if the list has not expired since it was read, or the guard did not make it or answers to every call |
| PrecallProtocol.ExpiredPromptsCanDecide | gateway/app/run-ledger/run_ledger/service.py:200-202 | a run in which the guard answers to a list that has expired |
| RunLedgerService.Service.CreateRun | gateway/app/run-ledger/run_ledger/service.py:102-141 | an existing run keeps all its fields and gets a new time to live; the budget returned is the one held |
| RunLedgerService.Service.Precall | gateway/app/run-ledger/run_ledger/service.py:143-215 | a grant is the atomic admission at the store just before EXEC, whatever others did between the steps; anything else leaves the store alone |
| RunLedgerService.Service.PostCall | gateway/app/run-ledger/run_ledger/service.py:217-249 | settles and flags as the atomic effect does |
| BudgetLease.SpendingLaw | gateway/app/run-ledger/run_ledger/budget_lease.py:40-116 | true spending <= budget + reclaimed + overdrafts of all lease epochs, for any mix of operations |
| BudgetLease.SpendingIsAccountedFor | gateway/app/run-ledger/run_ledger/budget_lease.py:40-116 | the exact account: spending equals granted + taken back - still held - held at release |
| LeaseAccounts.SpendingIsReported | gateway/app/run-ledger/run_ledger/budget_lease.py:64-71 | over every run, spending is what the ledger has settled plus what leases have still to report plus what they reported with a stale token |
| LeaseAccounts.SettledIsTrueExactly | gateway/app/run-ledger/run_ledger/budget_lease.py:64-71 | the settled amount never exceeds spending, and equals it if and only if every lease has reported and no stale token did |
| LeaseAccounts.ReleaseReports | gateway/app/run-ledger/run_ledger/budget_lease.py:110-116 | a release is accepted exactly if its token is outstanding; it then settles the lease's spending and hands back what is left |
| LeaseAccounts.RenewalHaltsExactly | gateway/app/run-ledger/run_ledger/budget_lease.py:40-48 | a renewal leaves a lease halted exactly if the ledger is, and that exactly if it was or all of the budget is granted |
| LeaseAccounts.AffordableExactly | gateway/app/run-ledger/run_ledger/budget_lease.py:86-87 | a cost is affordable exactly if its debit needs no help from the ledger to avoid an overdraft |
| BudgetLease.OvershootBound | gateway/app/run-ledger/run_ledger/budget_lease.py:5-7 | if nothing was reclaimed, disciplined runs overshoot by at most epochs times (size - 1) |
| LeaseLimits.EpochBoundExactly | gateway/app/run-ledger/run_ledger/budget_lease.py:5-7 | that bound holds for all disciplined runs within a limit of time if and only if the limit is below the time to live of a grant |
| LeaseLimits.LeaseholderBoundExactly | gateway/app/run-ledger/run_ledger/budget_lease.py:5-7 | for each number and size of leases, of equal or differing size, the documented bound holds for all disciplined runs if and only if time stays below the TTL and releases are not used, or by one holder, or at size 2 at most |
| LeaseLimits.ReleasesOverspend | gateway/app/run-ledger/run_ledger/budget_lease.py:110-116 | runs at time 0 in which releases alone make two or more leases of size 3 or more overshoot by any amount |
| LeaseLimits.LateRunOverspends | gateway/app/run-ledger/run_ledger/budget_lease.py:92-108 | within 300 seconds and without a release one of any number of leases spends n slices on a budget of one |
| LeaseLimits.SlowHolderOverspends | gateway/app/run-ledger/run_ledger/budget_lease.py:5-7 | one disciplined holder slower than the TTL overshoots by n (size - 1) - size, for every n |
| BudgetLease.BooksBalance | gateway/app/run-ledger/run_ledger/budget_lease.py:40-71 | granted <= budget; granted is outstanding plus what settled tokens kept; each token is settled at most once |
| BudgetLease.StaleTokensStayStale | gateway/app/run-ledger/run_ledger/budget_lease.py:56-71 | a token no longer outstanding never is again, and settling it is refused without effect, for ever |
| LeaseFencing.TokensAreFenced | gateway/app/run-ledger/run_ledger/budget_lease.py:40-71 | over every run the issued tokens rise strictly and are, without overlap, the outstanding, the reclaimed and the settled ones |
| LeaseFencing.NoTokenIsReissued | gateway/app/run-ledger/run_ledger/budget_lease.py:49-71 | a token once settled or reclaimed is neither outstanding nor issued at any later time |
| BudgetLease.HaltIsFinal | gateway/app/run-ledger/run_ledger/budget_lease.py:43-48 | a halted ledger issues no token and no lease gains budget |
| BudgetLease.GrantsAreFew | gateway/app/run-ledger/run_ledger/budget_lease.py:40-54 | with one size and nothing handed back at most ceil(budget / size) grants succeed |
| LeaseGranted.ReclaimReturnsTwice | gateway/app/run-ledger/run_ledger/budget_lease.py:92-116 | two renewals, a release and an expiry leave a negative granted amount |
| LeaseGranted.GrantedStaysNonNegativeExactly | gateway/app/run-ledger/run_ledger/budget_lease.py:56-116 | granted never drops below zero in all runs that renew by hand only at or below a threshold if and only if the threshold is zero or less |
| LeaseGranted.PrefetchKeepsGrantedExactly | gateway/app/run-ledger/run_ledger/budget_lease.py:89-100 | leases of one size renewed when needs_renewal says so keep granted from dropping below zero if and only if size times renew_at is at most 1 |
| LeaseService.Ledger.ReclaimExpired | gateway/app/run-ledger/run_ledger/budget_lease.py:56-62 | exactly the expired grants leave, and their sum is returned |
| LeaseService.Ledger.Grant | gateway/app/run-ledger/run_ledger/budget_lease.py:40-54 | reclaims, then issues a possibly partial slice or halts |
| LeaseService.Ledger.Settle | gateway/app/run-ledger/run_ledger/budget_lease.py:64-71 | closes an outstanding token, refuses any other |
| LeaseService.Lease.Renew | gateway/app/run-ledger/run_ledger/budget_lease.py:92-100 | adds the slice and keeps its token, or halts |
| LeaseService.Lease.Debit | gateway/app/run-ledger/run_ledger/budget_lease.py:102-108 | local debit; an affordable cost below what remains touches no ledger |
| LeaseService.Lease.Release | gateway/app/run-ledger/run_ledger/budget_lease.py:110-116 | settles true spending and hands back what is left |
| LeaseService.RenewUntilHalted | gateway/app/run-ledger/run_ledger/budget_lease.py:163-170 | renewing all leases until the ledger halts terminates, with the whole budget handed out in at most ceil(budget / size) grants |
| Timestamps.IsoOrdersTime | agent/incident_monitor.py:32-40 | string order of timestamps is time order, for all valid instants |
| Timestamps.IsoRoundTrip | agent/incident_monitor.py:32-40 | writing and reading back gives the same instant |
| Timestamps.IsoForm | agent/incident_monitor.py:39-40 | the text is the seven fields with all their digits between the marks of RFC 3339, section 5.6 |
| Timestamps.PadIsDecimal | agent/incident_monitor.py:39-40 | the digits of a field are those of its number, zeros in front |
| Timestamps.CursorOrderIsTimeOrder | agent/incident_monitor.py:47-54 | cursor order is (instant, id) order |
| Timestamps.QueryMatchesCursorOrder | agent/incident_monitor.py:114-124 | the query's filter selects exactly the incidents beyond the cursor |
| PendingKeys.PendingKeysAreInjective | agent/incident_monitor.py:391-393 | two incidents share a pending key only if they are the same |
| PendingKeys.StripLeavesBare | agent/incident_monitor.py:391-393 | stripping the padding leaves the base64 digits and nothing else |
| PendingKeys.AlphabetIsStandard | agent/incident_monitor.py:391-393 | the characters of keys are those of section 5 of RFC 4648 |
| PendingKeys.Utf8IsStandard | agent/incident_monitor.py:391-393 | the bytes of a character are those of section 3 of RFC 3629 |
| PendingKeys.QuadIsTheBits | agent/incident_monitor.py:391-393 | four characters of a key stand for the 24 bits of three bytes |
| PendingKeys.TailIsTheBits | agent/incident_monitor.py:391-393 | one or two last bytes are encoded as section 4 of RFC 4648 has it, zeros understood and padded |
| PendingKeys.KeysHaveNoPadding | agent/incident_monitor.py:391-393 | no key has padding, and its length is that of the unpadded encoding |
| PendingKeys.KeyOfSmallCursor | agent/incident_monitor.py:391-393 | the key of a cursor encodes its timestamp, a newline and its id |
| MonitorSafety.RunOnceKeepsTidy | agent/incident_monitor.py:364-437 | every poll, however it ends, keeps the invariant: the first incidents of the source are settled in order, at most the next one is pending |
| MonitorSafety.ProcessKeepsTidy | agent/incident_monitor.py:402-437 | one handler call settles the pending incident exactly if the poll may go on, else leaves it with its attempts counted |
| MonitorSafety.QueryIsNextBatch | agent/incident_monitor.py:111-138 | the query returns the next unsettled incidents, a batch at most |
| MonitorQueries.MatchesExactly | agent/incident_monitor.py:114-127 | with a cursor the query asks for what is beyond it and within the catch-up limit, without one for the lookback; the overlap never decides |
| MonitorQueries.QueryTakesFirstMatches | agent/incident_monitor.py:128-137 | an incident is returned if and only if it matches and fewer than a batch of visible ones match before it |
| MonitorQueries.NextIsReturnedExactly | agent/incident_monitor.py:114-137 | a poll returns the next incident if and only if it is visible and in the window; otherwise it leaves a gap or finds nothing |
| MonitorQueries.EventsAreTakenInOrder | agent/incident_monitor.py:384-398 | whatever a poll returns, the handler gets incidents beyond the cursor in rising order, none twice |
| MonitorQueries.PendingIsSorted | agent/incident_monitor.py:375-380 | pending work is processed in cursor order, all of it and nothing else |
| MonitorQueries.PutThenFind | agent/incident_monitor.py:394 | storing a pending entry replaces the one of its key and no other |
| MonitorQueries.WithoutThenFind | agent/incident_monitor.py:426-435 | deleting a pending entry removes it and no other |
| MonitorGuarantees.NoGapDelivery | agent/incident_monitor.py:364-437 | the incidents at or below the durable cursor are exactly those settled, each once, as completed or dead-lettered and never both |
| MonitorGuarantees.DeadLettersAreTrue | agent/incident_monitor.py:416-424 | there is one dead letter for each incident given up, in order, with its id, the instant it happened at and all its attempts |
| MonitorGuarantees.EveryIncidentIsHandled | agent/incident_monitor.py:402-437 | a completed incident has one recorded success after fewer than max_attempts failures; a dead-lettered one exactly max_attempts failures and no success |
| MonitorGuarantees.HandlerCallsAreOrdered | agent/incident_monitor.py:375-398 | handler calls over a whole run never go back in cursor order |
| MonitorGuarantees.DurableWritesAreSound | agent/incident_monitor.py:375-437 | every durable write has at most one pending incident, beyond the cursor with attempts to spare, dead letters with all attempts used, and a cursor not behind the last |
| MonitorGuarantees.FullPollAdvances | agent/incident_monitor.py:375-398 | a poll without crash or lease loss lowers a rank of batches and retries left |
| MonitorGuarantees.BoundedDrain | agent/incident_monitor.py:375-429 | n incidents are settled within n (max_attempts - 1) + ceil(n / batch) polls, whatever the handler does |
| MonitorService.IncidentMonitor.RunOnce | agent/incident_monitor.py:364-400 | run_once on the blob and its working copy does what the poll on values does |
| MonitorService.IncidentMonitor.Process | agent/incident_monitor.py:402-437 | _process likewise; the working copy agrees with the blob whenever the poll goes on |
| Reconcile.CostFor | gateway/app/config-sync-worker/budget.py:20-31 | the rounded sum over all priced models, in any order of iteration |
| Reconcile.LevelIsMonotone | gateway/app/config-sync-worker/budget.py:12-53 | despite two roundings the level never falls with more tokens nor rises with a larger budget |
| Enforcement.LevelPoints | gateway/app/config-sync-worker/budget.py:12-17 | level 1 is called for from 0.79995 of the budget on and level 2 from 0.99995, through the rounding of the share |
| Enforcement.UsageIsPriced | gateway/app/config-sync-worker/budget.py:24-30 | usage costs prompt tokens at the prompt rate and completion tokens at the completion rate, per thousand, summed over priced models |
| Enforcement.CostIsInMillionths | gateway/app/config-sync-worker/budget.py:31 | the cost is a whole number of millionths, at most half a millionth off |
| Enforcement.OutdatedChangeExactly | gateway/app/config-sync-worker/budget.py:44-55 | a consumer changes if and only if it has a document with a name, a budget, a ladder and another level stored than its cost calls for |
| Enforcement.ChangesRecordTruly | gateway/app/config-sync-worker/budget.py:56-61 | a changed document records the level called for, the cost, its share to four decimals and the time, or nothing if no level is called for |
| Reconcile.EvaluateDowngrades | gateway/app/config-sync-worker/budget.py:34-62 | the loop computes the changes the lemmas below describe |
| Reconcile.ChangedExactly | gateway/app/config-sync-worker/budget.py:44-61 | a consumer changes if and only if it has an eligible document with an outdated level |
| Reconcile.ChangesAreUpdates | gateway/app/config-sync-worker/budget.py:56-61 | each change has the due level, keeps all other fields, and drops the state at level 0 |
| Reconcile.ReconciliationSettles | gateway/app/config-sync-worker/budget.py:34-62 | evaluating the updated documents changes nothing |
| UsageFolds.ShapeUsage | gateway/app/config-sync-worker/sync.py:138-149 | the in-place grouping adds each counting row to its slot |
| UsageFolds.ConsumerUsage | gateway/app/admin-ui/bff/metrics.py:81-97 | nothing for an unsafe name, else the in-place grouping keeps the last row of each slot |
| UsageFolds.QueriesMatch | gateway/app/config-sync-worker/sync.py:123-133 | rows that sum up samples by slot are unique, and the UI's are the worker's for its consumer |
| UsageFolds.ShownIsCountedExactly | gateway/app/admin-ui/bff/metrics.py:81-97 | the UI shows the usage the worker counts if and only if the name is safe or the worker counts none |
| UsageFolds.CostUsd | gateway/app/admin-ui/bff/cost.py:5-15 | the UI's formula gives the worker's cost, in any order of iteration |
| UsageFolds.UnsafeNamesAreHidden | gateway/app/admin-ui/bff/metrics.py:81-82 | under any unsafe name, the worker enforces level 2 where the UI shows level 0 |
| UsageFolds.LiveSpend | gateway/app/admin-ui/bff/app.py:233-242 | the cost is the worker's, a percentage is shown only with a budget, and the stored state is shown when the query has failed |
| UsageFolds.WorkerSlotIsSum | gateway/app/config-sync-worker/sync.py:141-148 | whatever the rows, a worker slot is the sum of the tokens of the rows that hit it |
| UsageFolds.UiSlotIsLast | gateway/app/admin-ui/bff/metrics.py:90-97 | whatever the rows, a UI slot has the tokens of the last row that hits it |
| UsageFolds.UnnamedRowsAreDropped | gateway/app/config-sync-worker/sync.py:145-146 | rows without a consumer or model, or of another kind, change nothing in either grouping |
| UsageFolds.NamesAskedAbout | gateway/app/admin-ui/bff/metrics.py:18 | which names the UI asks about: the marks and the length allowed |
| UsageFolds.FoldsAgree | gateway/app/config-sync-worker/sync.py:138-149 | on rows unique by slot, in any order, the adding and the overwriting fold give the same usage |
| UsageFolds.DisplayMatchesEnforcement | gateway/app/admin-ui/bff/app.py:233-239 | displayed cost and level are those the worker enforces if and only if the name is safe or the worker finds no cost, respectively no level |
| UsageFolds.AgreementIsUniqueness | gateway/app/admin-ui/bff/metrics.py:90-97 | on rows that count tokens the folds would agree on every slot if and only if no slot had two rows |
| UsageFolds.DuplicateRowsDisagree | gateway/app/admin-ui/bff/metrics.py:90-97 | on two rows for one slot, which the query does not return, the worker would show their sum and the UI the last |
| Interpolation.ValueIsBounded | scripts/generate_incident_telemetry.py:46-93 | the value lies between the least and greatest of the first three, at every instant |
| Interpolation.ValueIsMonotone | scripts/generate_incident_telemetry.py:46-93 | rising (falling) values never fall (rise) over time, across leg boundaries and guards |
| Interpolation.ValueBeforeStart | scripts/generate_incident_telemetry.py:46-55 | up to the start of the window the value is the first one |
| Interpolation.ValueAfterEnd | scripts/generate_incident_telemetry.py:46-93 | past the end the value is the last of the first three, unless the guard cuts the last leg short |
| Interpolation.ArrivesExactly | scripts/generate_incident_telemetry.py:50-93 | the last leg is complete from the first microsecond past the end if and only if no guard of one second cuts it short |
| Interpolation.TwoValuesAreEven | scripts/generate_incident_telemetry.py:50-55 | between two values the trace goes evenly |
| Interpolation.TurningTracesAreEven | scripts/generate_incident_telemetry.py:57-67 | a trace that recovers, cycles or spikes goes evenly to its second value up to its duration and evenly to its third from there |
| Interpolation.DeclinesAreEven | scripts/generate_incident_telemetry.py:69-84 | a decline without a duration takes the whole seconds of the window, at most 900, half of them on either leg, and then stays |
| Interpolation.PlainTracesAreEven | scripts/generate_incident_telemetry.py:86-93 | any other trace spends half of its window on either leg, evenly |
| Interpolation.MentionsExactly | scripts/generate_incident_telemetry.py:57-69 | a note mentions words if and only if it contains them |
| Numbers.RoundIsNearestEven | gateway/app/run-ledger/run_ledger/decide.py:56-57 | rounding is pinned down as the nearest integer, even on a tie |

## Left out

- Floating-point error: all arithmetic is over exact reals.
- Token minting and validation, policy_set, intent, user, team and task: they play no part in a decision.
- Reservation ids are a counter; uuid4 is assumed never to repeat one.
- Postcalls for one reservation racing between GET and the transaction, and racing first create_runs: those Redis paths are not watched, so the atomicity is an assumption.
- A postcall that names another run than its reservation's: the model has one run.
- Step strings, JSON encoding of reservations, string-typed Redis fields.
- How the UI's usage query fails; it returns rows or has failed.
- MonitorService.IncidentMonitor.RunOnce: last_error, last_poll_at, the error type of dead letters and health are not modelled.
- The leader election loop and the lease renewal task; two leaders writing at once; sources whose incidents arrive late or out of order.
- Forms of timestamps other than the one _iso writes, which fromisoformat reads too: incidents and cursors are given in that form, in UTC.
- String escaping and text of the Kusto query; its meaning is modelled.
- Reconcile: documents are read and written by sync.py; consumers are taken from the documents as given, and a price entry without rates counts as a rate of zero.
- Interpolation: a trace without values, which the code would fail on; the row builders and their noise.
- Clients of Redis, Blob, Cosmos, Kusto and the gateway, the agent's turn handling, the admin UI's pages and its key and consumer registries, provisioning scripts.
