# VelocityGuard: a verified model of the spend control plane

VelocityGuard sits in front of metered providers. For every request it looks up a price, scores the tenant's recent
spend, reserves the estimate against the tenant's budget, calls the provider, settles the actual cost and writes each
step to an event log. This project models that control plane in Dafny and proves what it promises about money, blocking
and recovery.

| file | what it holds |
|---|---|
| `Totals.dfy` | sums over the values of a map |
| `Digits.dfy` | `itoa` on its 20-byte buffer, reservation and event ids |
| `Books.dfy` | accounts, reservations and the effect of each critical section, as values |
| `Managers.dfy` | the reservation manager object, each method proved against `Books` |
| `BookRuns.dfy` | sequences of whole calls: what a hold lives through, what a budget then allows |
| `Interleaving.dfy`, `ReservationRuns.dfy` | the manager's operations taken apart into lock-delimited steps, run by any number of threads |
| `Sequential.dfy` | how the interleaved manager and the whole-call one agree |
| `Locks.dfy` | the manager's locks: order, mutual exclusion, no deadlock, every schedule finishes |
| `Sections.dfy` | that the interleaved steps take exactly the locks listed there |
| `CircuitBreaker.dfy`, `Trials.dfy` | the breaker object, its runs, and concurrent `Evaluate` calls around it |
| `Windows.dfy`, `Trackers.dfy` | rolling windows, the learned baseline, projected exposure |
| `Scoring.dfy`, `Decisions.dfy`, `Engines.dfy` | the score, `Evaluate` as a function, the engine object |
| `SpendHistory.dfy` | the speeds `Evaluate` scores against the spend ever reported, over whole runs |
| `Pricing.dfy`, `RateLimit.dfy`, `Ledger.dfy` | price versions, the token bucket with its sweep, the event log and its replay |
| `Pipeline.dfy`, `Gateways.dfy` | one request through the gateway, as values and as the object |
| `PipelineRuns.dfy`, `Replay.dfy` | many requests interleaved event by event, and what replaying the log gives |
| `Stories.dfy`, `Feeds.dfy` | the events of every outcome, whose prices apply, and the way back from payments to velocities |
| `Expiries.dfy` | runs in which a hold expires in flight, and what log and account then say |

The pattern is the same throughout: a class whose methods change fields step by step, each method tied by its `ensures`
to a function of the old state; and lemmas about those functions over every run.

## Where the code and its documentation differ

The model follows the code. Each case below has a lemma that shows the failing family and the exact condition.

- "at no point can total (reserved + settled) exceed the tenant's configured limit" (`internal/reservation/reservation.go:4-6`):
  false when an actual cost exceeds its reservation or a budget is cut under commitments. `CapSurvivesExactly` says which
  steps break it, `HeaderClaimFails` and `HeaderClaimFailsByCut` give a run for every overrun and every cut, `CapOverRuns`
  is the bound that always holds.
- "history stays gapless and non-overlapping" (`internal/pricing/pricing.go:60-62`): false for a version that starts before
  an open one (`OutOfOrderOverlaps`), for one added at the zero time (`ZeroTimeOverlaps`), and after a version that carries
  its own end, which is never closed: one added before that end overlaps it (`OwnEndOverlaps`), one added after it leaves a
  gap (`OwnEndLeavesGap`). `TilingKeptExactly` is the condition for any history and any version, `TilingOverRunsExactly`
  for whole runs of `AddRate`.
- "guards against a stale half-open test result racing a new trip" (`internal/circuit/circuit.go:26`): the counter is never
  read, and a call admitted before the trip can end somebody else's trial. `TrialIsItsOwnExactly`, `StaleCaseReachable`.
- The limiter's idle sweep forgets buckets that are not full when `rate * idleTTL < burst`; then it can be seen, and the
  long-run rate bound fails. `SweepUnobservableExactly` and `RateBoundedExactly` give the same condition for both.
- `ExpireStale` writes no event, so an expired hold stays open in the log for ever (`LeftOpenForGood`). `ReplayIsExactIff` and
  `ServedIsChargedIff` are the conditions; `AnyCoveredEstimateCanExpire` gives, for every estimate a new tenant's budget covers,
  a run that ends with log and account apart by it, and goes on to a served request that is charged nothing.

## Model

| member | source | states |
|---|---|---|
| Digits.Itoa | internal/reservation/reservation.go:117-129 | for every 64-bit n the backwards fill never leaves the 20-byte buffer and the text reads back as n; the ledger's copy is the same code |
| Digits.RoundTrip | internal/ledger/ledger.go:116-128 | the decimal text of any number decodes to that number |
| Digits.SerialOfId | internal/reservation/reservation.go:110-115 | whatever the clock text, the counter can be read back from the id after its last dash |
| Digits.IdsDistinct | internal/reservation/reservation.go:110-115 | two draws less than 2^64 apart never give the same id |
| Digits.IdsRepeatAfterFullTurn | internal/reservation/reservation.go:110-115 | that bound is exact: one full turn of the counter repeats an id |
| Books.ComputeReconcileResult | internal/reservation/reservation.go:253-261 | released and overage are non-negative, never both positive, and net to reserved minus actual |
| Books.GrantedKeeps | internal/reservation/reservation.go:155-181 | a grant inserts under an id not in use and keeps every tenant's totals equal to the sums over its reservations |
| Books.CloseInKeeps | internal/reservation/reservation.go:186-251 | Release and Reconcile keep those totals whatever state the reservation is in |
| Books.SweptKeeps | internal/reservation/reservation.go:266-287 | so does a whole ExpireStale |
| Managers.Manager.SetBudget | internal/reservation/reservation.go:80-91 | sets that tenant's limit, creating the account if needed, and changes nothing else |
| Managers.Manager.GetAccount | internal/reservation/reservation.go:93-108 | the tenant's account, empty when new |
| Managers.Manager.NextId | internal/reservation/reservation.go:110-115 | the counter moves by one, wrapping at 2^64, and the id carries it |
| Managers.Manager.GetExposure | internal/reservation/reservation.go:139-149 | reports limit, reserved, settled and what is available |
| Managers.Manager.Reserve | internal/reservation/reservation.go:155-181 | grants exactly when available covers the amount; then one RESERVED record is filed and `reserved` rises by it, otherwise no money moves |
| Managers.Manager.Release | internal/reservation/reservation.go:186-206 | gives a RESERVED amount back, does nothing to a closed reservation, NotFound for an unknown id |
| Managers.Manager.Reconcile | internal/reservation/reservation.go:220-251 | moves a RESERVED amount to settled at the actual cost; original result again when already reconciled; error when released or expired |
| Managers.Manager.ExpireStale | internal/reservation/reservation.go:266-287 | in whatever order the map gives them, exactly the RESERVED records whose expiry lies before `now` become EXPIRED and nothing else changes in any record; each account falls by its own, and their number is returned |
| BookRuns.HoldExpiresExactly | internal/reservation/reservation.go:155-287 | through any whole calls that do not close it, a hold granted at `at` for `ttl` is EXPIRED exactly when a sweep has run later than at + ttl, and RESERVED until then |
| BookRuns.BudgetThenReserve | internal/reservation/reservation.go:80-164 | after SetBudget the next Reserve is granted exactly when the new limit covers it on top of all that is held and settled; no other tenant's account moves |
| BookRuns.ReleaseExactly | internal/reservation/reservation.go:183-206 | on a known id Release never fails, frees a RESERVED amount once, and leaves anything closed as it is |
| Interleaving.StampKeepsShape | internal/reservation/reservation.go:166-174 | of any number of threads between grant and insert no two hold the same id, and none holds one already filed |
| Interleaving.InsertKeepsShape | internal/reservation/reservation.go:176-178 | an insert never overwrites a reservation |
| Interleaving.GrantKeepsMoney | internal/reservation/reservation.go:158-164 | the locked grant keeps conservation and the cap: the amount is pending from that step on |
| Interleaving.CloseKeepsMoney | internal/reservation/reservation.go:194-250 | the locked section of Release, Reconcile or ExpireStale keeps conservation and the cap, however old its lookups |
| ReservationRuns.StepKeepsInv | internal/reservation/reservation.go:80-287 | every step of every thread keeps the whole invariant, never replaces an account and never changes a closed reservation |
| ReservationRuns.Conservation | internal/reservation/reservation.go:49-54 | over every interleaving: reserved is the RESERVED sum plus amounts granted and not yet inserted, settled the sum of RECONCILED actual costs |
| ReservationRuns.ConservationAtRest | internal/reservation/reservation.go:49-54 | with no call in flight, reserved is exactly the RESERVED sum |
| ReservationRuns.ClosedForGood | internal/reservation/reservation.go:198-204 | whichever thread closes a reservation first, its record never changes again, so its amount leaves reserved once |
| ReservationRuns.ReconcileIsIdempotent | internal/reservation/reservation.go:216-235 | after any run in between and with any cost, a repeated Reconcile returns the original result and changes no account and no reservation |
| ReservationRuns.CloseIsAtomic | internal/reservation/reservation.go:194-250 | once found, a Release or Reconcile interleaved with anything takes effect at its locked section exactly as the whole call would at that moment, reply included |
| Sequential.FindIsAtomic | internal/reservation/reservation.go:186-192 | and its lookup answers NotFound exactly when the whole call would at that moment, changing nothing |
| Sequential.GrantIsAtomic | internal/reservation/reservation.go:158-164 | the locked section of an interleaved Reserve grants exactly when the whole call would at that moment and moves the accounts as it would |
| ReservationRuns.OnlyStaleExpire | internal/reservation/reservation.go:263-287 | ExpireStale acts only on reservations past their expiry |
| ReservationRuns.ExpiryCompletes | internal/reservation/reservation.go:263-287 | when a sweep is through, nothing that was stale at its scan is still RESERVED, whatever other threads did |
| ReservationRuns.AccountsAreNeverReplaced | internal/reservation/reservation.go:93-108 | getAccount gives the same account for a tenant for ever |
| ReservationRuns.CapOverRuns | internal/reservation/reservation.go:155-164 | reserved + settled never passes the greatest limit ever set plus the overage of reconciled reservations |
| ReservationRuns.CapWithRisingLimits | internal/reservation/reservation.go:80-91 | with limits never lowered, reserved + settled <= limit + overage |
| ReservationRuns.NeverOvercommitted | internal/reservation/reservation.go:4-6 | the header's claim, for runs in which no actual exceeds its estimate and no limit is lowered |
| ReservationRuns.CapSurvivesExactly | internal/reservation/reservation.go:4-6 | a step keeps reserved + settled <= limit exactly when it neither settles an overrun larger than what is available nor sets a limit below the commitments |
| ReservationRuns.HeaderClaimFails | internal/reservation/reservation.go:243-244 | for every amount and every larger cost there is a run with the limit set once that ends above the limit |
| ReservationRuns.HeaderClaimFailsByCut | internal/reservation/reservation.go:80-91 | for every amount and every smaller limit there is a run without overruns that ends above the limit |
| ReservationRuns.AccountsFitInt64 | internal/reservation/reservation.go:56-58 | account fields and the terms of available stay in int64 while limit plus overage does |
| Sequential.QuiescentIsBook | internal/reservation/reservation.go:60-67 | every reachable state with all threads idle is a state of the whole-call manager with its totals in order |
| Sequential.ReserveAlone | internal/reservation/reservation.go:155-181 | Reserve's four or five critical sections, uninterrupted, amount to the whole-call Reserve, refusal and new account included |
| Sequential.SweepAlone | internal/reservation/reservation.go:266-287 | an uninterrupted ExpireStale, scan and rounds in any order, is the whole-call sweep |
| Sequential.BudgetIsAtomic | internal/reservation/reservation.go:80-91 | the interleaved SetBudget is the whole-call one |
| Locks.OperationsAreDisciplined | internal/reservation/reservation.go:80-298 | on every path each operation takes m.mu only when it holds nothing, an account lock only alone or under m.mu, and gives all back |
| Locks.MutualExclusion | internal/reservation/reservation.go:50-65 | in every run no two threads hold the same lock, and no reader is inside while the write lock is held |
| Locks.NoDeadlock | internal/reservation/reservation.go:80-298 | in every reachable state with unfinished work some thread can take its next step, even when readers queue behind a waiting writer |
| Locks.EveryScheduleFinishes | internal/reservation/reservation.go:80-298 | without new calls every schedule runs until all operations are finished and stops nowhere else |
| Sections.CallsTakeTheirLocks | internal/reservation/reservation.go:93-287 | in every interleaving, from the start of a Reserve, Release, Reconcile, ExpireStale or Exposure to its end, a thread takes section by section exactly the locks the locking model lists for that operation on some path |
| CircuitBreaker.Breaker.MaybeAdvance | internal/circuit/circuit.go:49-53 | OPEN becomes HALF_OPEN once the cooldown has passed |
| CircuitBreaker.Breaker.State | internal/circuit/circuit.go:39-47 | advances, then reports the phase with the testing sub-state shown as HALF_OPEN |
| CircuitBreaker.Breaker.Trip | internal/circuit/circuit.go:55-62 | opens from any phase and restarts the cooldown |
| CircuitBreaker.Breaker.Allow | internal/circuit/circuit.go:68-83 | yes from CLOSED, yes once from HALF_OPEN taking the trial slot, otherwise no |
| CircuitBreaker.Breaker.ReportSuccess | internal/circuit/circuit.go:92-98 | closes a breaker under trial and nothing else |
| CircuitBreaker.Breaker.ReportFailure | internal/circuit/circuit.go:103-110 | opens a closed breaker or one under trial and nothing else |
| CircuitBreaker.ClosedOnlyAfterTrial | internal/circuit/circuit.go:49-110 | after any Trip the breaker is CLOSED only if, since its latest opening, a cooldown passed, then one trial was granted, then a success was reported |
| CircuitBreaker.QuarantineRefuses | internal/circuit/circuit.go:49-85 | until a cooldown has passed since it opened, no sequence of calls makes Allow say yes |
| CircuitBreaker.FirstLateAllowIsGranted | internal/circuit/circuit.go:49-85 | asked again and again since it opened, the breaker says yes exactly once: to the first Allow a full cooldown after |
| CircuitBreaker.TrialsAreSeparated | internal/circuit/circuit.go:62-85 | without a report or a trip in between, no second trial is granted |
| Trials.TrialSlotNeverLost | internal/risk/engine.go:206-290 | with concurrent Evaluate calls, whenever the breaker is under trial the call that took the slot is admitted and has yet to report |
| Trials.HolderReportFreesSlot | internal/circuit/circuit.go:92-110 | and its report is always possible and ends the trial, closed on success and open on failure |
| Trials.TrialIsItsOwnExactly | internal/circuit/circuit.go:26 | every continuation ends the trial by the holder's own report exactly when no other admitted call is unreported |
| Trials.StaleCaseReachable | internal/circuit/circuit.go:26 | for any cooldown two calls and a kill reach the other case |
| Trials.GrantsAreSeparated | internal/circuit/circuit.go:62-85 | in every interleaving, between two trial grants there is a report or a trip |
| Trials.RunIsEvents | internal/risk/engine.go:206-290 | the interleaved calls drive the breaker as the sequence of their breaker events does, so the breaker's own run theorems apply |
| Trials.EvaluateIsOneCall | internal/risk/engine.go:189-291 | every Evaluate, on its breaker, is one such call: its steps are possible, lead to the breaker it leaves and end the call |
| Windows.RollingWindow.EvictLocked | internal/risk/window.go:38-47 | the loop drops exactly the leading samples older than the cutoff |
| Windows.RollingWindow.Add | internal/risk/window.go:31-36 | appends the sample and evicts |
| Windows.RollingWindow.Total | internal/risk/window.go:50-59 | evicts, then the sum of what is left |
| Windows.RollingWindow.VelocityPerSec | internal/risk/window.go:70-77 | that sum per second, 0 for a non-positive lookback |
| Windows.WindowSumIsExact | internal/risk/window.go:31-59 | after any Records and reads under a non-decreasing clock, Sum is the total of all samples ever recorded not before now minus lookback |
| Windows.SumSinceByOne | internal/risk/window.go:38-47 | a sample as old as the cutoff still counts and an older one does not |
| Windows.VelocityIsPerSecond | internal/risk/window.go:70-77 | a velocity times its window is the total, in millionths of a unit |
| Trackers.MultiWindowTracker.Record | internal/risk/window.go:109-124 | feeds all three windows and blends the long velocity into the baseline, which starts at its first value |
| Trackers.MultiWindowTracker.VelocityMultiplier | internal/risk/window.go:135-145 | short velocity over baseline; 1 or 0 while there is no baseline |
| Trackers.MultiWindowTracker.Accelerate | internal/risk/window.go:150-154 | short velocity minus medium velocity, read at one instant |
| Trackers.MultiWindowTracker.ProjectedExposure | internal/risk/window.go:158-179 | exposure plus the projected spend, reading nothing but the short and medium windows |
| Trackers.TrackedSpeedsAreExact | internal/risk/window.go:69-154 | after any Records and reads of a tracker under a non-decreasing clock, each of its three velocities is that of all spend ever recorded within its window |
| Trackers.TrackedSpeedsAreNested | internal/risk/window.go:79-85 | so for non-negative costs the short, medium and long velocities the tracker reads are non-negative and nested by the ratio of their windows |
| Trackers.ProjectionRises | internal/risk/window.go:158-179 | after any such calls the projection is exposure plus the recorded short speed carried on, plus half the recorded acceleration squared in when positive; never less than linear, never falling as the horizon grows |
| Trackers.FedIsRecorded | internal/risk/window.go:114-123 | the i-th velocity fed to the baseline is that of the spend recorded by then within the long window |
| Trackers.BaselineStaysInRange | internal/risk/window.go:114-123 | whatever reads come between, the baseline never leaves the range of long-window velocities seen at its Records |
| Trackers.BaselineLags | internal/risk/window.go:114-123 | after k Records with long velocity at most m, and any reads, at least 0.98^k of the gap from baseline to m is left |
| Trackers.BaselineLearns | internal/risk/window.go:114-123 | after k Records with long velocity at least m, and any reads, at most 0.98^k of it is left |
| Trackers.BaselineSettles | internal/risk/window.go:114-123 | at a steady velocity exactly 0.98^k of the gap is left, and a new tracker starts at it |
| Scoring.BlendedInRange | internal/risk/engine.go:45-54 | for non-negative weights summing to 1 the blend is in 0..100 and the final clamps never act |
| Scoring.ScoreExactly | internal/risk/engine.go:313-357 | the score is the four weighed shares in percent, rounded down |
| Scoring.ScoreMonotone | internal/risk/engine.go:313-369 | more cost, reserved, settled, velocity, acceleration or concurrency never lowers the score |
| Scoring.VelocityCounts | internal/risk/engine.go:324-325 | the fraction f of the velocity target adds f times 100 times its weight to the score, to within the rounding |
| Scoring.AccelerationCounts | internal/risk/engine.go:327-338 | so does the fraction f of the baseline for acceleration |
| Scoring.ConcurrencyCounts | internal/risk/engine.go:340-344 | and the fraction f of the cap for requests in flight |
| Scoring.CommittedCounts | internal/risk/engine.go:316-322 | and the fraction f of the limit, whether reserved, settled or estimated |
| Scoring.RuleExactly | internal/risk/engine.go:359-368 | which rule is named, on amounts, velocities and the baseline |
| Scoring.VerdictMonotone | internal/risk/engine.go:242-290 | nor softens the action, whatever the thresholds, the budget refusal included |
| Scoring.DefaultBlockMeans | internal/risk/engine.go:75-90 | a default-policy score of 90 means short velocity at least 15 times a positive baseline, at least two thirds of the limit committed, acceleration at least half the baseline |
| Scoring.DefaultThrottleMeans | internal/risk/engine.go:75-90 | a default-policy score of 70 means short velocity at least 5 times the baseline |
| Scoring.DefaultVerdictExactly | internal/risk/engine.go:75-90 | the default policy's ALLOW, THROTTLE or BLOCK for every tracker, account and request, on speeds, amounts and requests in flight |
| Scoring.DefaultBlockForced | internal/risk/engine.go:75-90 | 20 times the baseline, speeding up by the baseline, two thirds committed and 50 in flight force a BLOCK |
| Scoring.DefaultThrottleForced | internal/risk/engine.go:75-90 | the same burst with one third committed forces at least a THROTTLE |
| Decisions.DecisionAndBooks | internal/risk/engine.go:242-290 | ALLOW and THROTTLE file exactly the estimate, which the account covered; every other decision moves no money and names no reservation |
| Decisions.EvaluateIsVerdict | internal/risk/engine.go:205-290 | without a kill switch Evaluate refuses for the circuit exactly when the breaker is under trial or open for less than its cooldown, and otherwise answers the score's verdict |
| Decisions.DefaultEvaluateExactly | internal/risk/engine.go:220-290 | under the default policy that answer on the tenant's speeds, its account and the request alone |
| Decisions.DecisionExplained | internal/risk/engine.go:194-289 | the score, level, rule and circuit state a decision reports, in every branch |
| Decisions.KillSwitchExactly | internal/risk/engine.go:161-203 | over every sequence of engine calls, Evaluate answers KILL_SWITCH exactly when the latest switch for all, for the tenant or for the provider was on |
| Decisions.ActionMonotone | internal/risk/engine.go:189-291 | so Evaluate's severity is monotone in cost, reserved, settled, velocity, acceleration and concurrency |
| Decisions.DefaultBlockDecision | internal/risk/engine.go:243-251 | what a score-based BLOCK under the default policy says about the tenant's tracker and account |
| Decisions.DefaultThrottleDecision | internal/risk/engine.go:253-273 | what a THROTTLE under the default policy says about the tenant's tracker |
| SpendHistory.TrackerFollowsReports | internal/risk/engine.go:293-298 | over every sequence of engine calls, each tenant's three windows stand for the spend reported for that tenant and nothing else |
| SpendHistory.ScoredSpeedsAreReported | internal/risk/engine.go:220-225 | so the velocity and acceleration Evaluate scores are those of the reported spend |
| SpendHistory.DefaultWindows | internal/risk/engine.go:75-90 | under the default policy the windows are 10, 60 and 300 seconds of reported spend |
| SpendHistory.BlockIsAboutReportedSpend | internal/risk/engine.go:243-251 | over every run, a score-based BLOCK by the default policy means reported spend at 15 times the baseline, still speeding up, and two thirds of the limit committed |
| SpendHistory.ThrottleIsAboutReportedSpend | internal/risk/engine.go:253-273 | and a THROTTLE means reported spend at 5 times the baseline |
| Decisions.ViolationOpens | internal/risk/engine.go:194-284 | KILL_SWITCH, and BLOCK for any rule but CIRCUIT_OPEN, leaves the breaker open since that call |
| Decisions.ViolationQuarantines | internal/risk/engine.go:189-291 | after such a decision, every Evaluate of the tenant within the cooldown is BLOCK or KILL_SWITCH and moves no money, whatever happens in between, the kill switch turned off included |
| Decisions.DefaultQuarantine | internal/risk/engine.go:75-90 | under the default policy that is 15 seconds |
| Decisions.DefaultHold | internal/risk/engine.go:75-90 | and a granted hold lasts 30 |
| Decisions.DecideDrivesBreaker | internal/risk/engine.go:206-290 | the breaker ends where a run of the listed calls takes it: one Allow and, after a yes, one report, success if it reserved and failure if it blocked, plus a Trip on a critical block |
| Decisions.FirstRequestIsAllowed | internal/risk/engine.go:75-90 | under the default policy a new tenant's request is allowed whenever its budget covers the estimate |
| Decisions.TrialEndsInEvaluate | internal/risk/engine.go:205-290 | a trial granted to Evaluate is over when it returns: CLOSED if it reserved, OPEN if it blocked |
| Decisions.NoTrialIsLeftOver | internal/risk/engine.go:189-291 | no sequence of engine calls, one at a time, leaves a breaker in the testing state |
| Decisions.TenantsAreIsolated | internal/risk/engine.go:147-159 | a decision for one tenant moves no other tenant's breaker, tracker or account |
| Engines.TenantState.Decide | internal/risk/engine.go:189-291 | the kill branch, the gate and the scored part on the tenant's own tracker and breaker; the calls it makes on the breaker, recorded by the breaker itself, are exactly those of `BreakerCalls` |
| Engines.TenantState.Conclude | internal/risk/engine.go:242-290 | the switch on the score: block and punish, refuse for budget, or reserve and report |
| Engines.RiskEngine.StateFor | internal/risk/engine.go:147-159 | the tenant's own state object, fresh on first use and the same one ever after |
| Engines.RiskEngine.KillAll | internal/risk/engine.go:163-167 | sets only the global switch |
| Engines.RiskEngine.KillTenant | internal/risk/engine.go:169-173 | sets only that tenant's switch |
| Engines.RiskEngine.KillProvider | internal/risk/engine.go:175-179 | sets only that provider's switch |
| Engines.RiskEngine.Evaluate | internal/risk/engine.go:189-291 | new engine state, new books and decision are the ones the decision theorems speak about |
| Engines.RiskEngine.RecordUsage | internal/risk/engine.go:295-298 | feeds the cost to that tenant's tracker only |
| Pricing.EstimateMonotone | internal/pricing/pricing.go:39-41 | for non-negative prices and units a cost is non-negative and rises with usage |
| Pricing.EstimateByUnit | internal/pricing/pricing.go:39-41 | a request costs its fee, and each further input or output unit its own price |
| Pricing.Registry.AddRate | internal/pricing/pricing.go:63-75 | the in-place loop closes exactly the open versions that start no later, then appends |
| Pricing.Registry.RateAt | internal/pricing/pricing.go:80-90 | the first active version in list order, or the error |
| Pricing.PastIsNeverRewritten | internal/pricing/pricing.go:3-5 | adding any rate changes no version, price or error for any time before it takes effect |
| Pricing.TilingKeptExactly | internal/pricing/pricing.go:60-75 | for any gapless, non-overlapping history and any version, with its own end or without, adding it keeps history so exactly when the version is empty, or history is, or it starts where history is open at a non-zero time or has ended, or it ends where history begins |
| Pricing.TilingOverRunsExactly | internal/pricing/pricing.go:63-75 | over any AddRate calls in any order, history is gapless and non-overlapping after every one exactly when each version fitted when it was added |
| Pricing.OnlyVersionWins | internal/pricing/pricing.go:80-90 | in a gapless, non-overlapping history of any order the version in effect is the one RateAt returns |
| Pricing.LatestVersionWins | internal/pricing/pricing.go:80-90 | open versions added in strictly increasing order tile time, and RateAt gives the latest already started |
| Pricing.OutOfOrderOverlaps | internal/pricing/pricing.go:67-73 | in any list, an open version that starts before an open one is in effect together with it from the later start on, and the older entry keeps winning |
| Pricing.ZeroTimeOverlaps | internal/pricing/pricing.go:67-73 | in any list, a version added at the zero time closes nothing and overlaps an open version |
| Pricing.OwnEndOverlaps | internal/pricing/pricing.go:67-73 | in any list, a version added before the end another version carries is in effect together with it |
| Pricing.OwnEndLeavesGap | internal/pricing/pricing.go:80-90 | in any list that ends, a version added after the end leaves the lookup failing at the end though it succeeds before and after |
| RateLimit.Limiter.Allow | internal/httpapi/ratelimit.go:48-73 | refills, caps, spends one token or refuses, for that key only |
| RateLimit.Limiter.SweepOnce | internal/httpapi/ratelimit.go:78-91 | forgets exactly the keys idle for longer than idleTTL |
| RateLimit.TokensExactly | internal/httpapi/ratelimit.go:55-72 | a yes costs one token, a no costs nothing, and time gives back `rate` a second up to the burst |
| RateLimit.RateBound | internal/httpapi/ratelimit.go:48-73 | without sweeps, from any state, at most burst + rate * d requests of a key in any stretch of length d |
| RateLimit.RateBoundedExactly | internal/httpapi/ratelimit.go:35-91 | with sweeps at any times that bound holds in every stretch of every run exactly when rate * idleTTL >= burst or burst < 1 |
| RateLimit.SpacedAllServed | internal/httpapi/ratelimit.go:48-91 | with burst at least 1, requests at least 1/rate apart are never refused, swept or not |
| RateLimit.SweepUnobservableExactly | internal/httpapi/ratelimit.go:75-91 | a sweeping limiter answers every request sequence as one that never sweeps exactly under the same condition |
| Ledger.EventLedger.Append | internal/ledger/ledger.go:65-77 | adds one entry at the end, leaves the others alone, and numbers it |
| Ledger.EventLedger.Since | internal/ledger/ledger.go:82-94 | the suffix from the cursor; all for a negative one, nothing past the end |
| Ledger.EventLedger.ForTenantEvents | internal/ledger/ledger.go:102-112 | exactly that tenant's events, in order |
| Ledger.ForTenantKeeps | internal/ledger/ledger.go:102-112 | every event of the tenant is in the result, behind exactly its earlier ones |
| Ledger.ForTenantOnly | internal/ledger/ledger.go:102-112 | and nothing else is |
| Ledger.EntryIdsDistinct | internal/ledger/ledger.go:65-71 | event ids never repeat within 2^64 appends |
| Ledger.ReplaysAgree | internal/ledger/ledger.go:102-112 | reading a tenant's log backwards (created, not closed later) and forwards gives the same open holds and the same spend |
| Pipeline.RequestMoves | internal/gateway/gateway.go:52-142 | one request raises settled by exactly the actual cost if it completed, reserved by exactly the estimate if throttled, nothing else and no other account, with one rate for both prices |
| Pipeline.RequestIsEvaluated | internal/gateway/gateway.go:55-97 | the decision a request gets is Evaluate's on its own tenant, provider, estimate and concurrency, and only an ALLOW is executed |
| Stories.RequestTellsStory | internal/gateway/gateway.go:52-142 | every outcome appends exactly its events, in order and with their amounts, written out kind by kind |
| Stories.OwnPricesOverRuns | internal/gateway/gateway.go:55-61 | over every interleaving no request is priced with another provider's or model's rate |
| Stories.PastOverRuns | internal/pricing/pricing.go:3-5 | nor does any rate added meanwhile change what a model cost before the rate starts |
| Stories.OperatorsAct | internal/risk/engine.go:161-185 | budgets, rates and switches set between requests take effect as set |
| Gateways.Gateway.Judge | internal/gateway/gateway.go:66-97 | Evaluate and the events its action calls for, in order |
| Gateways.Gateway.Execute | internal/gateway/gateway.go:99-118 | release and its events when there is no provider or it fails; otherwise the execution and usage events, then settlement |
| Gateways.Gateway.Settle | internal/gateway/gateway.go:120-141 | reconcile, its event, and the cost fed to the tracker; the failure event if reconciling is refused |
| Feeds.ChargesFeedTracker | internal/gateway/gateway.go:134-136 | after any sequence of requests, each tenant's three windows stand for exactly what its completed requests were charged, at the times it was recorded |
| Feeds.ChargesAreLogged | internal/gateway/gateway.go:128-136 | and those charges are, in order, the COST_RECONCILED amounts of the tenant's log |
| Feeds.ScoredSpeedsArePaid | internal/gateway/gateway.go:134-136 | so the velocity and acceleration scored next are those of the payments the log shows |
| Feeds.RunFeedsTracker | internal/gateway/gateway.go:134-136 | over every interleaving, the windows stand for exactly what was recorded for the tenant |
| Feeds.RunSpeedsArePaid | internal/gateway/gateway.go:128-136 | and once all is recorded that is, amount for amount, what the log says was paid |
| Gateways.Gateway.RunPriced | internal/gateway/gateway.go:66-141 | from the priced request on: judged, and executed only if allowed |
| Gateways.Gateway.HandleRequest | internal/gateway/gateway.go:52-142 | the new house and the result are those of the pipeline that `RequestMoves` and the replay theorems speak about |
| PipelineRuns.StepKeepsInv | internal/gateway/gateway.go:52-142 | every shared action and every append of any number of interleaved requests keeps log, flights and books in step |
| PipelineRuns.ReplayUpToPending | internal/gateway/gateway.go:75-131 | in every such state log and account differ by exactly the events not yet appended and the expiries |
| Replay.ReplayOverRuns | internal/gateway/gateway.go:52-142 | that holds over every run from an empty gateway, with expiry, budget changes, new rates and kill switches interleaved |
| Replay.ReplayIsExact | internal/gateway/gateway.go:52-142 | once all events are appended and if nothing was expired, replaying a tenant's log gives exactly its reserved and settled |
| Replay.ReplayAfterRequests | internal/gateway/gateway.go:52-142 | in particular after any sequence of HandleRequest calls with any provider outcomes |
| Replay.ReplayIsExactIff | internal/reservation/reservation.go:263-287 | with expiry, the log's open holds equal reserved exactly when no open hold of positive amount has expired |
| Replay.ServedIsChargedIff | internal/gateway/gateway.go:120-131 | a served request is charged its actual cost exactly when its hold has not expired; otherwise no account moves |
| Replay.OnePricePerRequest | internal/gateway/gateway.go:55-121 | estimate and actual use the rate found on arrival, whatever rates are added meanwhile |
| Replay.ThrottleLeavesOpen | internal/gateway/gateway.go:82-90 | every THROTTLE leaves the request over with its hold open in the log, or about to be |
| Replay.LateServiceLeavesOpen | internal/gateway/gateway.go:124-129 | so does every reconciliation refused because the hold had expired |
| Replay.LeftOpenForGood | internal/gateway/gateway.go:52-142 | over every run after either, no event ever closes that hold in the log |
| Expiries.ExpiryShowsInLog | internal/reservation/reservation.go:263-287 | for every allowed first request there is a run that ends, all events appended, with the log showing its estimate outstanding and the account reserving nothing |
| Expiries.ServedForNothing | internal/gateway/gateway.go:120-129 | that run carried on: the provider serves the request, the usage is logged, nothing is charged, and the hold stays open in the log |
| Expiries.AnyCoveredEstimateCanExpire | internal/gateway/gateway.go:52-142 | under the default policy both happen to every new tenant, every estimate its budget covers and every usage |

## Left out

- `float64` is `real`: no rounding, overflow or NaN, so no claim about the last bit of a score, a velocity or a token count.
- `Micros` and unit counts are unbounded integers; `AccountsFitInt64` states the account range separately, and the products
  in `Estimate` are not range-checked.
- Amounts, costs, prices and units are taken as non-negative, as the gateway's callers and providers give them.
- Clocks are arguments. One whole call reads its clock once in `Managers`, `Decisions`, `Engines`, `Pipeline` and `RateLimit`;
  `Interleaving`, `Trials`, `CircuitBreaker` and `PipelineRuns` give every step its own time.
- Go's memory model: reads of `State` in `ExpireStale`'s scan race with writes under account locks. The scan is one step that
  may also collect reservations closed while it ran (`Interleaving.Collects`); torn reads are not modelled.
- `Managers.Manager` keeps accounts and reservations by value in its maps; shared account pointers, and what getAccount
  hands out, are in `Interleaving`. `Engines.RiskEngine` keeps real tracker and breaker objects.
- `PipelineRuns` takes a whole `Evaluate` as one step; its reservation sections are interleaved in `Interleaving`, its breaker
  calls in `Trials`.
- `SetBudget`, one step under both locks, and `Get` appear in `Locks` with their lock calls and are not part of
  `Sections.CallsTakeTheirLocks`.
- `Manager.Get` and `RollingWindow.Count`: copies and counts without effect.
- The decision's figures for display (exposures, velocity, projection, reason text), the request id and provider response echoed in
  the result, and `ALLOW_WITH_LIMIT`, which is never produced.
- Event timestamps, metadata, provider and route, event kinds the gateway does not emit, and caller-supplied event ids.
- The provider call is an arbitrary outcome: no provider, an error, or any usage.
- The nil limiter, which allows everything, and the ticker that starts the sweeps.
- HTTP routing, client addresses, configuration, stores and the database schema.
