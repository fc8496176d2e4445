# p-ui, verified

A Dafny model of the parts of p-ui whose promises are about every interleaving,
every failure pattern or every input list, with proofs of those promises:

- **Shared-rate authority.** A client's bandwidth budget is split across nodes
  that apply changes late. A share's `outstanding` rate bounds what its node may
  still enforce; the budget comparison of a request is made against it.
- **The fair allocator** above it: exact remainder division, carry totals in two
  64-bit words, and a raise/lower rule per participant.
- **Client terms.** Transition, completion behind a drain gate, and cancellation.
- **The byte ledger.** Budgets, grants, meters, usage batches, per-term totals and
  client credit with an authority ceiling.
- **Policy routing.** One converge pass over a host's rules and routes, with every
  kernel call free to fail, and the reconciliation of all rows on one snapshot.
- **Release activation** on a node, with a crash possible around every write.
- **The counter-to-delta engine** and its durable form.
- **Session fencing, the leased admission queue and the ban-set cache.**

`dafny verify dfyconfig.toml` verifies the project.

## How it is written

A database transaction is one atomic step: a function from the tables before it to
the tables after it, or an error that leaves them alone. Each such function has a
class method beside it (`AuthorityStore`, `LedgerStore`, `DeploymentStore`,
`AdmissionStore`) that updates its tables in place, loops where the source loops,
and is proved to do exactly what the function says, errors included, and to keep the
invariant the function is proved to keep. The promises are then proved about the
functions: as invariants kept by every step, and as statements over every run.

The methods also say what they accept and what they leave without naming those
functions: as relations between the rows before, the request and the rows after
(`AuthorityEffects`, `LedgerEffects`, `LedgerBatches`, `AllocationOutcome`,
`EgressTraffic`, and beside the smaller stores). A function that took a wrong branch
or swapped two values would not satisfy them.

| files | what they hold |
|---|---|
| `Sums`, `MapSums`, `Results` | sums over lists and tables; ids, results, early returns |
| `Rates`, `RateAllocation`, `AllocationOutcome` | rates, their order and fit; the allocator; what it gives everyone, by plain sums |
| `Authority`, `AuthorityEffects`, `AuthorityRuns`, `AuthoritySafety`, `AuthorityExpiry`, `AuthorityStore` | the transactions on shares, budgets and terms; what they accept and write, row by row; events and the invariant; what holds in every run; when terms end; the store |
| `Egress`, `EgressTraffic`, `Diffs`, `EgressPlan`, `EgressKernel`, `EgressPass`, `EgressManager`, `Gateway` | rules, routes and lookup; what a row does to packets; list differences; the plan and the owned view; the kernel and safe runs; what a pass does; the manager; gateway addresses |
| `Ledger`, `LedgerEffects`, `LedgerBatches`, `LedgerRuns`, `LedgerSafety`, `LedgerStore` | the ledger's transactions; what reservations and credits accept and write, row by row; what batches add up to; the invariant; what holds in every run; the store |
| `Release`, `Counters`, `CounterBilling` | release activation; the counter; what it bills |
| `Deployments`, `DeploymentStore`, `Admissions`, `AdmissionStore`, `BanSet` | sessions and deployments; the admission queue; the ban set |

## What is taken for granted

- Ids are numbers, 0 being an invalid one; canonical UUIDs order like numbers. A
  digest stands for the payload it hashes. New ids were never used before.
- A node applies any revision that was issued to it, never goes back, and reports
  only what it applied. Nothing else is assumed of nodes, of the order of events or
  of the clock values requests carry.
- Rates are what the node's limiter accepts: blocked and unlimited carry zero
  fields, limited has positive bits up to 2^53 and burst up to 2^20
  (`internal/node/limits/account.go:133-156`), so 32768 bursts cannot wrap 64 bits.
- A kernel call that fails changes nothing, and a route of a kind the manager does
  not know drops the packet. Bringing a device up or down may change devices and
  addresses in any way, and rules and routes not at all.
- A failed file write, removal or symlink move either took effect or did not. A
  release directory appears complete or not at all.
- A failed firewall write changes nothing. The clock does not run backwards.
- A counter source shows what a key moved since its counter last went to zero.

## False promises, and when they hold

- The authority ceiling of a credit does not always count just the term's opening
  and issued bytes: a grant of another client or term may draw on the term's
  budget. `CeilingIsExactWithoutForeignGrants` gives the exact condition and
  `ForeignGrantCounts` a run in which it fails. The ceiling never counts less, so
  `CeilingHolds` and `CeilingHoldsOverRuns` need no such condition.
- A ban whose deadline moves on within its second is not written again, so it can
  leave the host early. `SkippedIsExactIff` gives the exact condition,
  `MovedDeadlineIsMissed` the example.
- A pass without a failed call is clean exactly when no spare blackhole, one beyond
  the planned one in a family with planned rules, was there (`KeptExactly`). Where
  one is, no such pass ever reports clean (`SpareHoleIsReportedForever`), as in
  `SpareHoleExample`.
- A key can be billed more than it moved. `OverbillsExactlyWhenUnfair` gives the
  exact condition for every run of every truthful source. Two families break it: a
  token that is sometimes silent (`SilentTokenBillsTwice`), and a key that misses ten
  readings or more (`MissingTenBillsAgain`), each with its own exact condition and a
  run. A source that reports its token always or never, and whose unknown keys come
  from zero, never does (`HonestRunIsFair`).

## Model

| member | source | states |
|---|---|---|
| Rates.CoversIsAPartialOrder | internal/controlplane/rates.go:26-28 | "contains" is a partial order on valid rates |
| Rates.EnvelopeIsLeastUpperBound | internal/controlplane/rates.go:97-108 | the envelope is the least rate covering both its arguments, and widening changes nothing exactly when the first covers the second |
| Rates.LowerRateIsGreatestLowerBound | internal/controlplane/rate_allocation.go:140-151 | the lower rate is the greatest rate both arguments cover, so asking for it never widens an envelope |
| Rates.FitsRates | internal/controlplane/rates.go:110-126 | the loop with its early exits and overflow guards decides exactly whether the true, unbounded sums fit the bound |
| Rates.FitsIsMonotone | internal/controlplane/rates.go:110-126 | lowering any rates keeps a fit |
| Rates.RaisingKeepsUnfit | internal/controlplane/rates.go:110-126 | raising a rate never restores a lost fit |
| Rates.FitsOthersThen | internal/controlplane/rates.go:195-213 | comparing the other shares followed by the new envelope is comparing the updated list |
| RateAllocation.RateTotals.Add | internal/controlplane/rate_allocation.go:112-122 | adding with carry keeps the two-word totals equal to the true sums |
| RateAllocation.RateTotals.Remove | internal/controlplane/rate_allocation.go:124-134 | removing with borrow does too |
| RateAllocation.RateTotals.TotalsDecideFit | internal/controlplane/rate_allocation.go:136-138 | the test on the carry totals agrees with recomputing the fit from all rates |
| RateAllocation.RetainFeasibleRates | internal/controlplane/rate_allocation.go:207-216 | when the bound cannot serve everyone, eligible participants keep what they have if it fits and drop to zero otherwise |
| RateAllocation.TakeFrozen | internal/controlplane/rate_allocation.go:155-172 | what the frozen participants leave of the bound, or that they leave nothing |
| RateAllocation.TotalMinimum | internal/controlplane/rate_allocation.go:185-188 | whether the remainder admits every eligible minimum |
| RateAllocation.GrantUnlimited | internal/controlplane/rate_allocation.go:176-181 | with an unlimited bound every participant to be served gets the unlimited rate, every frozen one keeps what it has, and every other one is blocked |
| RateAllocation.Divide | internal/controlplane/rate_allocation.go:192-204 | the division loop deals each eligible participant its share by rank, first come first extra |
| RateAllocation.FairRateTargets | internal/controlplane/rate_allocation.go:153-205 | the whole computation gives everyone the target of the declarative definition |
| RateAllocation.DealingIsExact | internal/controlplane/rate_allocation.go:192-204 | the shares of a remainder division add up to the total |
| RateAllocation.DealingIsFair | internal/controlplane/rate_allocation.go:192-204 | a later place is never dealt more than an earlier one, and at most one less |
| RateAllocation.TargetsExhaustTheBound | internal/controlplane/rate_allocation.go:153-205 | in a feasible limited direction frozen rates and fair targets use up the bound exactly, in bits and in burst |
| RateAllocation.TargetsAreFair | internal/controlplane/rate_allocation.go:153-205 | two eligible participants differ by at most one bit and one byte of burst above their own minimum; everyone gets its minimum burst and at least one bit |
| RateAllocation.TargetsFit | internal/controlplane/rate_allocation.go:153-205 | unless the frozen rates alone break the bound, the targets fit it |
| RateAllocation.SumUp | internal/controlplane/rate_allocation.go:78-81 | the initial totals are the true sums |
| RateAllocation.DecideNext | internal/controlplane/rate_allocation.go:82-97 | a participant gets its target exactly when raising it fits together with all others, else the lower rate |
| RateAllocation.AllocateDirection | internal/controlplane/rate_allocation.go:57-103 | one direction with carry totals computes the declarative targets and steps |
| RateAllocation.RaisingStaysWithinTheBound | internal/controlplane/rate_allocation.go:82-99 | from a fitting state, raising participants to their step in id order fits after every single step |
| RateAllocation.NobodyIsRaisedWhileUnfit | internal/controlplane/rate_allocation.go:82-99 | from an unfitting state nothing becomes outstanding, and every step is at or below what its participant has |
| RateAllocation.DirectionCheck | internal/controlplane/rates.go:195-213 | one direction of the budget comparison accepts a step exactly when the direction fitted at the start |
| RateAllocation.StepsAreAcceptedExactlyWhenBothFit | internal/controlplane/rates.go:195-213 | granted in id order, every step passes the budget comparison if and only if both directions fitted before the first |
| RateAllocation.SecondPassFinishes | internal/controlplane/rate_allocation.go:57-103 | applying the steps and dividing again keeps every target and grants it to everyone, whatever the start was |
| RateAllocation.AllocatingAgainReachesTargets | internal/controlplane/rate_allocation.go:40-105 | the same for whole allocations of both directions |
| RateAllocation.Validate | internal/controlplane/rate_allocation.go:46-51 | the loop over sorted neighbours accepts exactly the lists of valid participants with distinct ids |
| RateAllocation.SortSorts | internal/controlplane/rate_allocation.go:44-45 | sorting by id permutes the participants into ascending order |
| RateAllocation.AllocationIgnoresInputOrder | internal/controlplane/rate_allocation.go:44-45 | the order in which participants are listed decides neither acceptance nor anyone's result |
| AllocationOutcome.TargetMeans | internal/controlplane/rate_allocation.go:153-216 | each target, case by case: frozen, ineligible, unlimited, blocked, frozen rates too high, no room for all, and a share of at least one bit and the minimum burst |
| AllocationOutcome.TargetsAreDealtOut | internal/controlplane/rate_allocation.go:182-204 | where a limited bound serves somebody, the targets add up to it exactly, and an earlier one is at most one bit and one byte ahead |
| AllocationOutcome.NextMeans | internal/controlplane/rate_allocation.go:82-99 | a step is the target exactly where that fits beside what earlier participants were granted and later ones hold, and else the lower of it and what the participant has |
| AllocationOutcome.UnlimitedServesAtOnce | internal/controlplane/rate_allocation.go:176-181 | under an unlimited bound target and step of everyone to be served are the unlimited rate, and of everyone else not frozen nothing |
| AllocationOutcome.ShortageMeans | internal/controlplane/rate_allocation.go:60-70 | a direction is reported short exactly when the participants to be served outnumber its bits or their minimum bursts exceed its burst, with those four numbers |
| AllocationOutcome.AcceptableMeans | internal/controlplane/rate_allocation.go:40-51 | the inputs accepted are exactly those with valid rates and minima, at most 32768 participants and no id missing or used twice, in any order |
| AllocationOutcome.AllocateSharedRates | internal/controlplane/rate_allocation.go:40-105 | refuses exactly the invalid inputs; otherwise gives everyone, in id order, what plain sums over the participants decide in each direction: frozen rates kept, nothing for the ineligible, the unlimited rate at once under an unlimited bound, what everyone has if it fits and nothing otherwise where a limited bound cannot serve all, and else an even split that uses the bound up; each step is the target where it fits beside the earlier grants; a capacity error exactly for a direction that could not serve everyone even if nothing were frozen |
| Authority.TableFitsIsMonotone | internal/controlplane/rates.go:110-126 | shares that are lower row by row still fit their budget |
| AuthorityRuns.RequestCovers | internal/controlplane/rates.go:195-234 | a request leaves an outstanding rate covering every revision the node may still enforce |
| AuthorityRuns.RevocationCovers | internal/controlplane/stop_configuration.go:208-234 | a revocation does too, though it lowers the desired rate |
| AuthorityRuns.SettlementCovers | internal/controlplane/rates.go:263-276 | a settlement does too, because the node has applied the latest revision |
| AuthorityRuns.RequestIsLegal | internal/controlplane/rates.go:128-242 | an accepted request moves one share, and only by widening its envelope over a new revision |
| AuthorityRuns.ConfirmIsLegal | internal/controlplane/rates.go:244-278 | an honest confirmation settles a share whose node stands at its latest revision |
| AuthorityRuns.AcknowledgeIsLegal | internal/controlplane/configuration.go:141-208 | an honestly applied deployment settles only shares whose latest revision it carried |
| AuthorityRuns.AcknowledgeUpdatesIsLegal | internal/controlplane/authority_delivery.go:435-467 | acknowledged authority updates settle only shares at their latest revision |
| AuthorityRuns.ZeroStopIsLegal | internal/controlplane/stop_configuration.go:208-234 | a stop leaves the outstanding rate alone and asks for nothing |
| AuthorityRuns.LifecycleKeepsTerms | internal/controlplane/client_lifecycle.go:279-322 | every lifecycle call, replayed or not, keeps current, pending and draining pointers in agreement with the term states |
| AuthorityRuns.TransitionKeepsTerms | internal/controlplane/client_lifecycle.go:160-248 | so does a transition |
| AuthorityRuns.CompleteKeepsTerms | internal/controlplane/client_drain.go:20-72 | so does a completion: its drain gate leaves nothing of the closed predecessor outstanding |
| AuthorityRuns.CancelKeepsTerms | internal/controlplane/client_cancel.go:12-50 | so does a cancellation |
| AuthorityRuns.RequestKeepsTerms | internal/controlplane/rates.go:195-213 | so does a rate request: only a share of the current active term is raised |
| AuthorityRuns.ReserveKeepsTerms | internal/controlplane/client_drain.go:129-147 | so does a reservation: a grant is bound to its client's current term only |
| AuthorityRuns.EventIsSound | internal/controlplane/rates.go:128-278 | every event moves every share legally and keeps the terms in agreement |
| AuthorityRuns.EventKeepsInv | internal/controlplane/rates.go:128-278 | every event of every kind, late node applies included, keeps the whole invariant |
| AuthoritySafety.RunKeepsInv | internal/controlplane/rates.go:128-278 | the invariant holds after every honest run |
| AuthoritySafety.OutstandingCoversTheNode | internal/controlplane/rates.go:97-108 | a share's outstanding rate covers what its node enforces and everything it may still apply |
| AuthoritySafety.OutstandingIsTheEnvelope | internal/controlplane/rates.go:195-234 | in every run the outstanding rate is exactly the envelope of the last proven revision and all that followed |
| AuthoritySafety.OutstandingIsLeast | internal/controlplane/rates.go:97-108 | it is the least rate covering the unproven revisions, and once the latest is proven it is what the node enforces |
| AuthoritySafety.AcceptedReportIsExact | internal/controlplane/rates.go:263-276 | an accepted confirmation or acknowledgement gives back everything the node no longer needs |
| AuthoritySafety.FittingSharesBoundTheNodes | internal/controlplane/rates.go:195-213 | while the outstanding rates fit, what the nodes really enforce together stays within the budget |
| AuthoritySafety.FitSurvives | internal/controlplane/rates.go:128-278 | every event that does not lower the bound keeps a fitting budget fitting |
| AuthoritySafety.NodesNeverExceedAnUnloweredBudget | internal/controlplane/rates.go:128-278 | in every honest run from the empty store the nodes' real rates never exceed a budget that was never lowered |
| AuthoritySafety.NothingIsRaisedWhileUnfit | internal/controlplane/rates.go:195-213 | after a budget was lowered below what is outstanding, no event raises a share of it |
| AuthoritySafety.UnfitStretchOnlyShrinks | internal/controlplane/rates.go:280-310 | along any stretch of a run in which a budget does not fit, its shares only shrink |
| AuthoritySafety.OutsideCurrentTermIsSilent | internal/controlplane/client_drain.go:113-127 | a share outside its client's current term has nothing outstanding, enforces nothing, and can apply nothing that forwards |
| AuthoritySafety.SuccessorFollowsASilentPredecessor | internal/controlplane/client_drain.go:20-111 | a term that took over did so from a predecessor all of whose shares are silent |
| AuthoritySafety.CancelUndoesTransition | internal/controlplane/client_cancel.go:12-50 | cancelling a transition is always possible and restores every table but the client's revision and the closed row of the term that never started |
| AuthoritySafety.CompleteHandsOver | internal/controlplane/client_drain.go:20-72 | completion makes the waiting term current and active, closes its predecessor, bounds the pool by the new rates and moves nothing else |
| AuthoritySafety.ClosedStaysClosed | internal/controlplane/client_drain.go:20-72 | no event changes a closed term |
| AuthoritySafety.ClosedTermIsSilentForever | internal/controlplane/client_drain.go:74-111 | once a term is closed, its shares are silent in every later state of every run |
| AuthorityStore.Store.SetRateBudget | internal/controlplane/rates.go:48-83 | a budget is written exactly when its term runs and it neither changes hands nor goes back; the invariant of the authority survives whatever the nodes know and enforce, and nothing but the budgets moves |
| AuthorityStore.Store.Collect | internal/controlplane/rates.go:175-194 | the collected outstanding rates have the same sums as the budget's rows |
| AuthorityStore.Store.FitsWith | internal/controlplane/rates.go:195-213 | the two loops decide whether the table with the widened share fits in both directions |
| AuthorityStore.Store.RequestRateShare | internal/controlplane/rates.go:128-242 | a new request is accepted exactly when its node, grant, budget, term and share rows agree with it and, where it asks for more than may be enforced already, the term is the budget's own, current and unexpired and both directions have room; then the grant's share is the one returned, desires what was asked, is one revision on, and per direction its outstanding rate is the least valid one covering the old, valid in every reachable store, and the asked; a repeated request returns the recorded share, and a refused one changes nothing |
| AuthorityStore.Store.ConfirmRateShare | internal/controlplane/rates.go:244-278 | accepted exactly from the share's own node for its latest revision with its own rates, which are then all that is outstanding; the invariant survives every honest confirmation |
| AuthorityStore.Store.RateBudgetPending | internal/controlplane/rates.go:280-310 | a budget is pending exactly when its outstanding rates do not fit what is desired |
| AuthorityStore.Store.CheckClaims | internal/controlplane/configuration.go:161-203 | the loop accepts exactly the deployments whose claims match, and collects exactly the shares it settles |
| AuthorityStore.Store.AcknowledgeConfiguration | internal/controlplane/configuration.go:141-208 | taken exactly when every share named is on the reporting node and runtime and, at the revision carried, desires the rates carried; then exactly the shares whose latest revision was carried are settled, else nothing moves |
| AuthorityStore.Store.CheckEntries | internal/controlplane/authority_delivery.go:435-450 | the loop accepts exactly the batches whose entries match their shares |
| AuthorityStore.Store.AcknowledgeAuthority | internal/controlplane/authority_delivery.go:435-467 | taken exactly when every entry names a share of the node at its latest revision and rates; then exactly those shares are settled, disabled entries become stops and enabled ones withdraw theirs, else nothing moves |
| AuthorityStore.Store.ZeroStopRateShare | internal/controlplane/stop_configuration.go:208-234 | accepted exactly for an owned client's share in the state expected; it asks for nothing under a new revision while what may be enforced stays outstanding, and the invariant survives |
| AuthorityStore.Store.RecordStoppedGrants | internal/controlplane/client_drain.go:265-311 | a stop is recorded, for the deployment and the claimed revision, of exactly the claimed grants whose node applied that revision with nothing outstanding; other stops stay |
| AuthorityStore.Store.RequireStoppedGrants | internal/controlplane/client_drain.go:74-111 | the drain gate opens exactly when every grant of the term has a stopped, silent share |
| AuthoritySafety.FirstTermStarts | internal/controlplane/client_lifecycle.go:192-207 | a client's first term is current and active at once, not expired, and bounds the pool; nothing else moves |
| AuthoritySafety.TransitionWaits | internal/controlplane/client_lifecycle.go:207-226 | a later term waits behind its draining predecessor and nothing else moves |
| AuthoritySafety.TransitionIsNumberedLast | internal/controlplane/client_lifecycle.go:184-198 | a new term is numbered after every term of its client |
| AuthoritySafety.RunKeepsNumbers | internal/controlplane/client_lifecycle.go:184-198 | in every run the terms of a client are numbered apart, each after its predecessor, within int64 |
| AuthorityStore.Store.HighestNumber | internal/controlplane/client_lifecycle.go:185-191 | the scan finds the highest number among a client's terms |
| AuthorityStore.Store.CompleteTransition | internal/controlplane/client_drain.go:20-72 | accepted exactly when the client's pending term follows its draining current one, carries the policy named, every grant of the draining term is silent with a recorded stop, the clock leaves room and the pool is the client's; then the term is active from now, expires its duration from now or, without one, when it was created to, the predecessor is closed, client and pool name the term, and nothing else moves; refused, it changes nothing |
| AuthorityStore.Store.LifecycleOperation | internal/controlplane/client_lifecycle.go:279-322 | a repeated call gives the recorded result back and changes nothing; a new one is accepted exactly when the rows allow it and writes exactly the rows of an activation, a succession, a completion or a cancellation; the invariant of the authority, rates and terms alike, survives every call |
| AuthoritySafety.LifecycleReplays | internal/controlplane/client_lifecycle.go:279-322 | asking again under an operation id, at any time and under any new term id, returns what was answered and changes nothing |
| AuthoritySafety.RequestReplays | internal/controlplane/rates.go:143-159 | so does a rate request |
| AuthorityEffects.RequestDoes | internal/controlplane/rates.go:128-242 | what a request is accepted for and what it writes, stated of the rows before and after alone |
| AuthorityEffects.BudgetDoes | internal/controlplane/rates.go:48-83 | the same of a budget: written as given exactly when its term runs, its owner stays and its revision grows, or the very same budget is written again |
| AuthorityEffects.ConfirmDoes | internal/controlplane/rates.go:244-278 | the same of a confirmation |
| AuthorityEffects.ConfigurationDoes | internal/controlplane/configuration.go:141-208 | the same of an applied deployment |
| AuthorityEffects.AuthorityDoes | internal/controlplane/authority_delivery.go:435-467 | the same of an acknowledged batch of updates |
| AuthorityEffects.ZeroStopDoes | internal/controlplane/stop_configuration.go:208-234 | the same of a stop |
| AuthorityEffects.StopsDoes | internal/controlplane/client_drain.go:265-311 | the same of the stops a deployment proves |
| AuthorityEffects.WellPosedIsValid | internal/controlplane/client_lifecycle.go:140-165 | which calls are well formed: opening counters that add up within the quota, at most one way to end, a renewal with a duration, a reset without one |
| AuthorityEffects.TermStarts | internal/controlplane/client_lifecycle.go:250-262 | a term starts now and expires its duration from now or, without one, as created; it is refused exactly when that overflows or, but for a reset, is over already |
| AuthorityEffects.ActivationDoes | internal/controlplane/client_lifecycle.go:160-248 | a first term is accepted exactly for a client at the expected revision without any term and with a pool of its own, and is active, numbered last, current and bounding the pool, starting now |
| AuthorityEffects.SuccessionDoes | internal/controlplane/client_lifecycle.go:207-226 | a successor is accepted exactly behind the active current term, over already if it is a renewal; it waits with its own number, duration, rates and policy, a reset with its predecessor's expiry, while the predecessor drains |
| AuthorityEffects.CompletionDoes | internal/controlplane/client_drain.go:20-72 | the same of a completion, with the drain gate spelled out on grants, shares and stops |
| AuthorityEffects.CancellationDoes | internal/controlplane/client_cancel.go:12-50 | a cancellation is accepted exactly while a term waits, closes it and makes its predecessor active again |
| AuthorityEffects.LifecycleDoes | internal/controlplane/client_lifecycle.go:279-322 | under its operation id a call is run once, and then exactly one of these four things happened |
| AuthorityExpiry.RunKeepsEnds | internal/controlplane/client_lifecycle.go:219-222 | in every honest run a term that followed another is a renewal with a duration or a reset that ends when its predecessor does |
| AuthorityExpiry.TakeoverEnds | internal/controlplane/client_drain.go:50-56 | whenever a waiting term takes over in an honest run it starts then; a renewal ends its duration later, a reset when the term it replaced would have |
| Egress.MaskedContainsTheSame | internal/egress/manager.go:537-546 | masking a source prefix does not change which addresses it selects |
| Egress.OwnedNamesRoundTrip | internal/egress/alloc.go:73-124 | a device name is owned by an id exactly when it is the name that id prints to |
| Egress.TableAlwaysAnswers | internal/egress/manager.go:131-201 | in a converged table every packet outside the source pools is answered by the planned front or a drop |
| Egress.ConvergedNeverLeaks | internal/egress/manager.go:360-486 | a packet a converged row selects, with a destination outside its pools, is answered at the row's own priority by the planned front or a drop, under longest-prefix-then-metric lookup with throw |
| Egress.InstalledFrontAnswers | internal/egress/manager.go:144-157 | with its fronts in place and nothing foreign in its table, the answer to a packet of a family the row carries is the front |
| Egress.PriorityHasAnAnswer | internal/egress/plane.go:65-103 | every lookup has an answer, so the statements about every answer are not empty |
| EgressTraffic.LeavesIsUp | internal/egress/manager.go:119-127 | a front is up for a family exactly when the driver names a device, the host has it, it carries the address the driver names if it names one, and the family is not ruled out |
| EgressTraffic.UntakenFallsThrough | internal/egress/manager.go:131-201 | packets a row is not for, and all packets of a disabled row, fall through to the rules below |
| EgressTraffic.PoolsDoNotLeave | internal/egress/manager.go:165-186 | packets back into the row's own source pools never leave by its device, and without foreign routes fall through |
| EgressTraffic.ConvergedIsIsolated | internal/egress/manager.go:119-215 | a converged row lets its packets out only by the device its driver names, there on the host with its address and for a family it carries, drops them otherwise, and touches nobody else's |
| EgressTraffic.SettledIsRouted | internal/egress/manager.go:119-215 | conversely, a settled row without foreign routes answers by that device whenever link and address are there and the family is carried, and else with a drop |
| EgressTraffic.StaleFrontsAreGone | internal/egress/manager.go:277-290 | a settled row has no default route left by a device of the panel's own namespaces, or one a driver derives for it, but the one it is to leave by |
| EgressManager.UplinkNames | internal/egress/alloc.go:73-92 | a device name spells an uplink's id exactly when it is one of the two names that id prints to |
| Diffs.CountItems | internal/egress/manager.go:515-518 | the pool counts each item as often as it is listed |
| Diffs.TakeWanted | internal/egress/manager.go:519-525 | what is added is what is wanted beyond what is there, counting repeats |
| Diffs.TakeSurplus | internal/egress/manager.go:526-531 | what is deleted is what is there beyond what is wanted, counting repeats |
| Diffs.Diff | internal/egress/manager.go:514-533 | the two lists are the exact multiset differences both ways |
| EgressPlan.UniqueNames | internal/egress/manager.go:548-557 | the non-empty names, each once |
| EgressPlan.UniquePrefixes | internal/egress/manager.go:537-546 | the valid prefixes, masked, each once |
| EgressPlan.PlanDefaults | internal/egress/manager.go:144-157 | one blackhole a family, and a front exactly where it is up and carries the family |
| EgressPlan.PlanIngress | internal/egress/manager.go:158-164 | one rule a family for every ingress device, each once |
| EgressPlan.PlanSources | internal/egress/manager.go:165-186 | one rule and one throw for every source pool in its own family |
| EgressPlan.PlanMarks | internal/egress/manager.go:187-196 | mark rules exactly for a row that carries a mark |
| EgressPlan.Plan | internal/egress/manager.go:131-201 | the plan lists exactly the wanted rules and routes, each once, and reports a row without a usable driver |
| EgressPlan.SortRuleOwns | internal/egress/manager.go:230-245 | classifying one rule keeps the owned and shadowing lists exact |
| EgressPlan.SortRouteOwns | internal/egress/manager.go:245-268 | classifying one route does too |
| EgressPlan.OwnedView | internal/egress/manager.go:230-268 | the view holds exactly the host's owned rules and routes and what shadows them, with multiplicity |
| EgressKernel.Kernel.AddRule | internal/egress/plane.go:156-175 | one rule more, or a failure that changed nothing; the call is traced |
| EgressKernel.Kernel.DelRule | internal/egress/plane.go:156-175 | one rule less, or no change; "not installed" means it was not there |
| EgressKernel.Kernel.AddRoute | internal/egress/plane.go:156-175 | one route more, or no change |
| EgressKernel.Kernel.DelRoute | internal/egress/plane.go:156-175 | one route less, or no change |
| EgressKernel.Kernel.Snapshot | internal/egress/plane.go:156-175 | a listing of everything the band holds, or a failed read |
| EgressKernel.SafeStepContains | internal/egress/manager.go:385-474 | a safe call keeps every id contained: rules into a table come with a default blackhole in it |
| EgressKernel.SafeRunContains | internal/egress/manager.go:385-474 | containment of any id holds after every single call of a safe run |
| EgressKernel.SafeRunOnlyId | internal/egress/alloc.go:57-137 | a safe run touches only its own id's table and priority |
| EgressPass.NoRuleIsRefused | internal/egress/manager.go:425-435 | a rule is refused only where adding its blackhole failed |
| EgressPass.KeptExactly | internal/egress/manager.go:466-474 | once the planned rules are in, a blackhole is kept exactly when a spare one of a family with planned rules is there |
| EgressPass.SpareHoleStays | internal/egress/manager.go:466-474 | a spare blackhole outlives every pass without a failed call |
| EgressPass.SpareHoleIsReportedForever | internal/egress/manager.go:466-474 | so no number of such passes ever reports clean |
| EgressPass.SpareHoleExample | internal/egress/manager.go:466-474 | a row and a host where this happens, though without the extra blackhole the host would be settled |
| EgressPass.PassOutcome | internal/egress/manager.go:385-474 | a pass without failure leaves exactly the planned rules, blackholes and throws, no unplanned front, and every planned front if none was put off |
| EgressPass.SettledNeedsNothing | internal/egress/manager.go:385-388 | from a settled state there is nothing to add and nothing to delete |
| EgressPass.StaysUnshadowed | internal/egress/manager.go:230-268 | a clean pass leaves nothing shadowing the row |
| EgressPass.SafeKeepsContainment | internal/egress/manager.go:385-474 | what one pass contains stays contained for every id |
| EgressPass.ConvergedStays | internal/egress/alloc.go:57-137 | a converged row stays converged while other ids are worked on, because ids share neither table nor priority |
| EgressPass.SettledStays | internal/egress/alloc.go:57-137 | so does a settled one |
| EgressPass.ReconcilingNext | internal/egress/manager.go:52-96 | one more id converged on the same stale snapshot keeps all that was established for the earlier ones |
| EgressPass.UnlistedIsSettled | internal/egress/manager.go:60-86 | an id without a row of which the snapshot holds nothing needs nothing |
| EgressManager.Manager.RemoveRules | internal/egress/manager.go:393-403 | rules go first; every call is safe and the count of live rules stays exact |
| EgressManager.Manager.Contain | internal/egress/manager.go:407-417 | the families reported contained have their blackhole in the table |
| EgressManager.Manager.AddRoutes | internal/egress/manager.go:420-452 | routes are added; a front whose device is not ready is put off, not failed |
| EgressManager.Manager.InstallRules | internal/egress/manager.go:425-435 | a rule goes in only where its table is contained |
| EgressManager.Manager.RemoveRoutes | internal/egress/manager.go:439-465 | fronts and throws go; a route that is gone already is as good as removed |
| EgressManager.Manager.Uncontain | internal/egress/manager.go:466-474 | a blackhole goes last, and is kept exactly while a rule of its family is live |
| EgressManager.Manager.Apply | internal/egress/manager.go:385-474 | every call of a pass is safe whatever fails, and no blackhole goes while a rule of its family is left; without a failed call the plan is in place, or a spare blackhole is kept |
| EgressManager.Manager.Differences | internal/egress/manager.go:385-388 | the four change lists are exact differences between plan and view |
| EgressManager.Manager.Prepare | internal/egress/manager.go:360-384 | the plan is made for the devices seen, read again once after bringing one up |
| EgressManager.Manager.Converge | internal/egress/manager.go:360-486 | every call is safe; a pass that reports nothing leaves a row whose packets leave only by the device its driver names, with link and address there and the family carried, and are dropped otherwise, while nobody else's are touched; one that put nothing off, without foreign routes, lets them leave whenever they can; this holds for devices the host had, those of the snapshot or those its own driver left; a settled row costs no call |
| EgressManager.Manager.Ensure | internal/egress/manager.go:34-42 | one row from a fresh snapshot: containment kept throughout, other ids untouched, a clean report means converged, on the devices there were or those its own driver left |
| EgressManager.Manager.RowsById | internal/egress/manager.go:60-86 | exactly the ids with a row and the ids of the band the host holds a rule, a route or an uplink of are worked on, each with its last row or the empty one |
| EgressManager.Manager.Reconcile | internal/egress/manager.go:52-96 | containment kept after every call of every id; every report stands at the end, and the packets of every id reported clean go where its row says; if every call succeeded and nothing was kept, exactly each id's plan is left and nothing of ids without a row; a settled host costs no call; each row is planned for the devices of the snapshot or those its own driver left |
| EgressPass.NextReconcileFindsNothing | internal/egress/manager.go:52-96 | once every id is settled, the next reconciliation finds every plan in place as long as the fronts of enabled rows are up or down as they were |
| EgressPass.SettledForTheSameFronts | internal/egress/manager.go:119-127 | a settled row is settled for other devices if and only if they put its front up or down alike, or it has none |
| EgressPass.SettledBeforehand | internal/egress/manager.go:52-96 | where no driver works on an enabled row, being settled for the devices there were to begin with is enough for a reconciliation without a call |
| Gateway.AddInPlace | internal/egress/alloc.go:172-178 | the carry loop adds a number to a byte array exactly, returning what did not fit |
| Gateway.CarryStep | internal/egress/alloc.go:172-178 | one byte of the addition keeps the total |
| Gateway.MappedSum | internal/egress/alloc.go:168-192 | in the IPv4-mapped form of section 2.5.5.2 of RFC 4291 the prefix survives exactly when the IPv4 sum does not overflow |
| Gateway.OffsetAddr | internal/egress/alloc.go:168-192 | an address exists exactly when the sum stays in its family, and is that sum |
| Gateway.GatewayOf | internal/egress/alloc.go:145-157 | exactly the ids below the prefix's size have a gateway: the masked base plus the id, inside the prefix |
| Gateway.CheckGatewayBase | internal/egress/alloc.go:161-164 | a base is accepted exactly when every id of the band has a gateway in it |
| LedgerRuns.GrantDecides | internal/controlplane/accounting.go:366-381 | a limited budget never rejects a delta its grant accepts |
| LedgerRuns.BatchKeepsBudgets | internal/controlplane/accounting.go:337-389 | a batch keeps used equal to opening plus consumed, and reserved equal to what linked grants still hold |
| LedgerRuns.BatchKeepsReadings | internal/controlplane/accounting.go:337-389 | a batch keeps every grant's consumed bytes equal to its meters' readings |
| LedgerRuns.BatchKeepsDeltas | internal/controlplane/accounting.go:337-389 | what a batch hands to the term totals is what the meters grew by, per client and term |
| LedgerRuns.RecordingKeepsTotals | internal/controlplane/usage_projection.go:17-65 | recording those deltas keeps each term's totals equal to its meters |
| LedgerRuns.IngestKeepsInv | internal/controlplane/accounting.go:248-428 | ingesting a batch keeps the books balanced |
| LedgerRuns.ReserveKeepsInv | internal/controlplane/accounting.go:103-226 | reserving keeps them balanced, within limits and within int64 |
| LedgerRuns.CreditKeepsInv | internal/controlplane/client_credit.go:33-200 | so does drawing a credit, with its new parent limits |
| LedgerRuns.CreateBudgetKeepsInv | internal/controlplane/client_lifecycle.go:227-230 | so does a new budget |
| LedgerRuns.OpenTermKeepsInv | internal/controlplane/client_lifecycle.go:227-236 | so does a new term with its own budget |
| LedgerRuns.EventKeepsInv | internal/controlplane/accounting.go:103-428 | so does every event |
| LedgerRuns.RunKeepsInv | internal/controlplane/accounting.go:103-428 | the books balance after every run: used is opening plus consumed, reserved what limited budgets' grants still hold, both within the limit, term totals what the meters read, nothing past int64 |
| LedgerSafety.MetersReadCheckpoints | internal/controlplane/accounting.go:337-389 | after an accepted batch every meter shows its last reading |
| LedgerSafety.AcceptedBatchesCountOnce | internal/controlplane/accounting.go:248-428 | however batches are duplicated, reordered or resent, the accepted ones of every node are 1 to n without a gap, each applied once, and the meters hold their last readings |
| LedgerSafety.ResentBatchChangesNothing | internal/controlplane/accounting.go:275-281 | a batch not newer than the cursor changes nothing, accepted or refused |
| LedgerSafety.ReplayReturnsTheGrant | internal/controlplane/accounting.go:109-139 | a reservation asked for again, with its budgets in any order, returns the grant that was given and changes nothing |
| LedgerSafety.CeilingCounts | internal/controlplane/client_credit.go:149-167 | both branches of the ceiling count opening plus issued bytes of the term, plus what foreign grants on its budget were issued (limited) or consumed (unlimited) |
| LedgerSafety.CeilingIsExactWithoutForeignGrants | internal/controlplane/client_credit.go:149-167 | the count is exactly opening plus issued if and only if no foreign grant counts against the budget, and never less |
| LedgerSafety.ForeignGrantCounts | internal/controlplane/client_credit.go:149-167 | a run in which a foreign grant makes it count more |
| LedgerSafety.UnlimitedCeilingIsSane | internal/controlplane/client_credit.go:151-163 | the unlimited branch refuses exactly an unlimited grant in the term or a sum past int64 |
| LedgerSafety.CeilingHolds | internal/controlplane/client_credit.go:137-176 | every new credit with a ceiling leaves the term's opening plus issued bytes within it |
| LedgerSafety.CeilingHoldsOverRuns | internal/controlplane/client_credit.go:137-176 | over every run in which a term is issued bytes only by credits under a ceiling, its opening plus issued bytes stay within it from the first credit on |
| LedgerSafety.LeastRoomIsLeast | internal/controlplane/client_credit.go:137-148 | the amount is lowered to the smallest room and no further |
| LedgerSafety.PartialAmountIsLargest | internal/controlplane/client_credit.go:137-176 | a partial request gets the largest amount that the request, every budget and the ceiling admit, and is refused only when they admit nothing |
| LedgerSafety.CreditBudgetsAreBalanced | internal/controlplane/client_credit.go:125-136 | new parent limits never fall below what is used and reserved |
| LedgerStore.ReserveBudgets | internal/controlplane/accounting.go:188-206 | all budgets reserve or none does, exactly when each has room |
| LedgerStore.SpendBudgets | internal/controlplane/accounting.go:369-381 | a delta is spent from all budgets of a grant or from none |
| LedgerStore.AccountCheckpoint | internal/controlplane/accounting.go:337-389 | one reading moves meter, grant, budgets and deltas, or refuses, as the transaction says |
| LedgerStore.AccountCheckpoints | internal/controlplane/accounting.go:337-389 | the first refused reading refuses the batch |
| LedgerStore.OwnersOf | internal/controlplane/usage_projection.go:17-26 | two owners of one term refuse the totals |
| LedgerStore.AddTermUsage | internal/controlplane/usage_projection.go:17-65 | every known term of the right client gets its delta, or the batch is refused |
| LedgerStore.TermTotals | internal/controlplane/client_credit.go:151-163 | the scan gives the exact issued and consumed sums of a term |
| LedgerStore.SmallestRoom | internal/controlplane/client_credit.go:139-148 | the loop finds the smallest room, or a budget out of balance |
| LedgerStore.AmountOf | internal/controlplane/client_credit.go:137-176 | without parts all that was asked, exactly when the ceiling admits it; with parts an amount that every smaller one is admitted with, by request, budgets and ceiling, and no larger one |
| LedgerStore.RelimitParents | internal/controlplane/client_credit.go:125-136 | all parents take their limits or none does |
| LedgerStore.ScopeHolds | internal/controlplane/accounting.go:285-320 | a batch is in scope exactly when every checkpoint names a known grant of the node |
| LedgerStore.Store.Reserve | internal/controlplane/accounting.go:103-226 | a new reservation is accepted exactly when every budget named is known and has room, the own budget of a managed term is among them, and the grant is new or the same; then the grant has the bytes issued one revision on, and every limited budget has them reserved; a repeated one returns the recorded grant, and a refused one changes nothing |
| LedgerStore.Store.Ingest | internal/controlplane/accounting.go:248-428 | a batch not newer than the last is acknowledged with the sequence reached, unless it is the last one with other contents; the next is ingested exactly when its readings are of grants of the node and its totals fit grants, budgets and terms, and is acknowledged with its own sequence; any other is refused; whatever is refused changes nothing |
| LedgerStore.Store.ReserveCredit | internal/controlplane/client_credit.go:33-200 | a new credit without parts issues exactly the bytes asked, and is accepted, once the guards pass, exactly when every limited budget and the ceiling have room for all of them; with parts it issues the largest amount they have room for; parents take their new limits, every limited budget drawn on reserves the amount, the placement names the grant; a repeated one returns the recorded grant, and a refused one changes nothing |
| LedgerEffects.ReserveDoes | internal/controlplane/accounting.go:103-226 | what a reservation is accepted for and what it writes, stated of the rows before and after alone |
| LedgerEffects.AmountIsGiven | internal/controlplane/client_credit.go:137-176 | the amount of a credit, stated of budgets, grants and ceiling: all of it or, with parts, exactly up to what they have room for |
| LedgerEffects.CreditDoes | internal/controlplane/client_credit.go:33-200 | what a credit is accepted for and what it writes, stated of the rows before and after alone |
| LedgerBatches.BatchAddsUp | internal/controlplane/accounting.go:337-389 | whatever the order of its readings, a batch passes exactly when what it adds up to fits every grant and budget, and moves each by exactly that |
| LedgerBatches.TermsAreTaken | internal/controlplane/usage_projection.go:17-65 | the term totals take a batch exactly when no term moves for two clients or another than its own and every total still counts |
| LedgerBatches.InvariantCounts | internal/controlplane/accounting.go:337-389 | in every reachable ledger used and consumed bytes and term totals are not negative |
| LedgerBatches.IngestDoes | internal/controlplane/accounting.go:248-428 | what a batch is acknowledged or ingested for, with which sequence, and what it writes, stated of the rows before and after alone |
| Release.StartsFromAnywhere | deploy/node/install-node.py:313-339 | every disk the invariant describes is one a start accepts, and how it reads it |
| Release.Disk.RecoverActivation | deploy/node/install-node.py:342-351 | a completed recovery leaves no journal, no pending entry, and current and active at the release committed before; an interrupted one leaves a disk the next can recover |
| Release.Disk.Recoveries | deploy/node/install-node.py:342-362 | any number of interrupted recoveries keeps the release to go back to and the high-water mark; the first that completes is back at it |
| Release.Disk.Commit | deploy/node/install-node.py:384-400 | an activation that completes has committed its target; one that did not is still described by its journal or already undone |
| Release.Disk.UpdateLocked | deploy/node/install-node.py:354-400 | whatever a run did and wherever it died, the next start accepts the disk, the high-water mark did not go down, and an interrupted operation committed nothing else |
| Release.Disk.Runs | deploy/node/install-node.py:354-400 | so it is after any number of runs, each ending in any way, and the committed release only gives way to one at least as new of the same state format |
| Release.Disk.WriteJournal | deploy/node/install-node.py:167-180 | a write that did not complete left the old journal or the new one |
| Release.Disk.SaveLedger | deploy/node/install-node.py:282-283 | so did a ledger write |
| Release.Disk.ClearActivation | deploy/node/install-node.py:293-295 | so did the journal's removal |
| Release.Disk.ActivateRelease | deploy/node/install-node.py:242-279 | the symlink points at the old directory or the new one, and at the new one on success |
| Release.Disk.FetchRelease | deploy/node/install-node.py:298-310 | a fetched release is complete under its own record and no other release changed |
| Counters.ObservingIsDeterministic | internal/core/counter.go:61-127 | the specification of an observation has one outcome |
| Counters.ReachableIsRestorable | internal/core/counter_checkpoint.go:17-36 | a reachable counter's checkpoint is taken back exactly when its names are valid |
| Counters.ObservingStaysSound | internal/core/counter.go:61-127 | every observation of a reachable counter leaves one whose checkpoint is well formed |
| Counters.ForgettingStaysSound | internal/core/counter.go:140-154 | so do a noted restart and a forgotten key |
| Counters.ObservingKeepsNames | internal/core/counter_checkpoint.go:17-36 | valid readings keep the names valid |
| Counters.Counter.Observe | internal/core/counter.go:61-103 | after the first observation every reading that is not negative bills its growth over the last one, or all of it without a baseline, below it, or after a restart the tokens show; the baseline is the reading, and is lost at the tenth observation running that mentions others and not the key |
| Counters.ObservingBills | internal/core/counter.go:61-103 | what an observation bills, stated of readings, baselines and tokens alone |
| Counters.ObservingKeeps | internal/core/counter.go:61-127 | what an observation keeps of each key |
| Counters.Counter.ReadAll | internal/core/counter.go:76-95 | the loop over readings bills each key once |
| Counters.Counter.ExpireAll | internal/core/counter.go:112-127 | a baseline is lost at the tenth missed reading and not before; an empty reading ages nothing |
| Counters.NotedRestartIsARestart | internal/core/counter.go:137-145 | a noted restart is the push counterpart of a changed token: the next observation leaves and bills the same, every key its whole reading |
| Counters.Counter.Forget | internal/core/counter.go:149-154 | one key loses its baseline and no other does |
| Counters.Counter.FromCheckpoint | internal/core/counter_checkpoint.go:17-36 | a restored counter is equivalent to the one written down; exactly invalid checkpoints are refused |
| Counters.Counter.ObserveDurably | internal/core/counter_checkpoint.go:48-65 | a failed commit leaves the counter as it was; a successful one is a plain observation |
| Counters.BillingIsDeterministic | internal/core/counter_checkpoint.go:48-65 | what a plain counter bills is determined by what it observed |
| Counters.RunSchedule | internal/core/counter_checkpoint.go:17-65 | over any schedule of failed commits and process restarts, exactly the deltas of a plain counter that saw the committed readings are billed |
| CounterBilling.KeyFollowsCounter | internal/core/counter.go:61-127 | the one-key world moves and bills as the whole counter does for that key |
| CounterBilling.EventKeepsInv | internal/core/counter.go:61-154 | every truthful event keeps baselines what the key showed when it was last counted, or stale since a zero |
| CounterBilling.OverbillsExactlyWhenUnfair | internal/core/counter.go:61-127 | in every run of a truthful source no reading is billed more than the key moved since it was last counted, if and only if every counted reading finds a baseline it keeps to or a counter that went to zero since |
| CounterBilling.FairRunNeverOverbills | internal/core/counter.go:61-154 | over every such fair run a key is never billed more than it moved since counting began |
| CounterBilling.HonestRunIsFair | internal/core/counter.go:61-154 | a source whose token is reported always or never and changes with restarts, and whose unknown keys come from zero, is always fair |
| CounterBilling.NeverOverbills | internal/core/counter.go:61-154 | over every honest run a key is never billed more than it moved since counting began |
| CounterBilling.SteadyBillingIsExact | internal/core/counter.go:61-127 | while nothing resets, what is billed is the last reading minus the first, even if the key misses fewer than ten readings in a row |
| CounterBilling.SilentTokenBillsTwice | internal/core/counter.go:61-95 | a restart read first without its token bills the bytes after it twice, for every number of bytes; too much exactly when the silent reading bills more than was unread before |
| CounterBilling.MissingTenBillsAgain | internal/core/counter.go:112-127 | for every number of missed readings: below ten the key is billed what it moved since, from ten on all its counter shows, too much exactly when that was not zero before |
| CounterBilling.TenBytesBilledAsTwenty | internal/core/counter.go:61-95 | a run in which ten bytes are billed as twenty |
| CounterBilling.NothingBilledAsHundred | internal/core/counter.go:112-127 | a run in which a hundred bytes are billed though none moved |
| Deployments.EventKeepsInv | internal/controlplane/deployment.go:42-266 | every event keeps desired, applied and sent payloads stored, and moves generation, desired and applied revision only forward |
| Deployments.RunKeepsInv | internal/controlplane/deployment.go:42-266 | so it is after every run |
| Deployments.NodeOnlyMovesForward | internal/controlplane/deployment.go:42-266 | from any point of a run to any later one, generation, desired and applied never decrease, and applied never passes desired |
| Deployments.NewSessionsAreNewest | internal/controlplane/deployment.go:93-148 | a new session's generation is above every earlier one |
| Deployments.SupersededChangesNothing | internal/controlplane/service.go:146-238 | a superseded session changes nothing, whatever it sends or reports |
| Deployments.AwaitedResultIsAccepted | internal/controlplane/deployment.go:195-259 | in every run, what a live session waits for is still stored: its outcome is refused only where its acknowledgement is, and an accepted application is recorded |
| Deployments.PublishedIsDelivered | internal/controlplane/deployment.go:42-193 | a published payload is what the current session is handed next, under the revision returned for it |
| Deployments.DeliveryKeeps | internal/controlplane/deployment.go:150-193 | what is delivered is the desired revision with its stored payload, to the current session only |
| Deployments.ObserveKeeps | internal/controlplane/deployment.go:195-259 | an outcome never prunes what was sent, and one from another generation changes nothing |
| Deployments.RegistrationMovesUp | internal/controlplane/service.go:104-124 | the service only ever moves on to a newer session |
| Deployments.PruneKeeps | internal/controlplane/deployment.go:261-266 | pruning keeps every payload that may still be delivered or awaited, and never more than three |
| DeploymentStore.Store.Publish | internal/controlplane/deployment.go:42-91 | the node only moves forward; what is returned is the desired revision with the payload stored under it, and session and applied revision are untouched; accepted exactly unless fenced or out of revisions; another payload than the desired one is stored under the next revision, and only the desired, applied and sent deployments stay stored |
| DeploymentStore.Store.BeginSession | internal/controlplane/deployment.go:93-148 | the node only moves forward; a session gets a generation above all before, and a node ahead of the store fences it; accepted exactly when neither fenced, behind the node in anything, nor out of generations |
| DeploymentStore.Store.Delivery | internal/controlplane/deployment.go:150-193 | the node only moves forward; another generation gets nothing and changes nothing; what is handed out is the desired payload, recorded as sent; accepted exactly for the node's own generation with the desired deployment stored, or none desired |
| DeploymentStore.Store.Observe | internal/controlplane/deployment.go:195-259 | the node only moves forward; another generation changes nothing; the applied revision moves only up and only on an accepted application; accepted exactly from the node's own generation for a stored deployment with its payload, acknowledged if applied |
| DeploymentStore.Stream.Send | internal/controlplane/service.go:146-175 | a stream in order stays in order with its node moved only forward; a superseded one changes nothing, and one that waits does nothing |
| DeploymentStore.Stream.TakeResult | internal/controlplane/service.go:221-238 | a stream in order stays in order with its node moved only forward; a superseded one changes nothing and ends, and so does one handed an outcome it does not wait for |
| Admissions.StepStaysQueued | internal/controlplane/admission_queue.go:14-90 | every step keeps the node of every open demand queued |
| Admissions.OpenDemandsAreQueued | internal/controlplane/admission_queue.go:14-90 | in every interleaving a pending, unexpired demand has its node's queue row pending |
| Admissions.ReleasedForItsWork | internal/controlplane/admission_queue.go:66-90 | a release never puts a node off past the work it has left |
| Admissions.LeaseHolds | internal/controlplane/admission_queue.go:14-26 | until its lease ends a claim is taken away only by its own release |
| Admissions.LostClaimNeverSettles | internal/controlplane/admission_queue.go:51-64 | in every run, a worker whose claim on a node expired, was released or was replaced never settles, puts off or drops anything of that node again |
| Admissions.DemandsOnlyGetNewer | internal/controlplane/admission_enqueue.go:102-131 | a placement's row is only ever replaced by a newer revision |
| Admissions.SettlingSparesNewerDemands | internal/controlplane/admission_queue.go:51-64 | settling a demand read at any earlier time leaves a row that replaced it since exactly as it is |
| AdmissionStore.Store.EnqueueDemand | internal/controlplane/admission_enqueue.go:97-131 | open demands stay queued and rows only get newer; an accepted demand is the placement's, its node is due at once, and no lease is touched; accepted exactly within fifteen seconds of its deadline, unless the same request came with another digest; a new one replaces the row under the next revision |
| AdmissionStore.Store.ClaimNodes | internal/controlplane/admission_queue.go:14-26 | up to the limit, the longest due unlocked nodes are leased, and none is passed over for a later one; for a minute each |
| AdmissionStore.Store.DropExpired | internal/controlplane/admission_queue.go:32-43 | exactly the holder drops exactly the demands past their deadline |
| AdmissionStore.Store.SettleDemand | internal/controlplane/admission_queue.go:51-64 | a settlement counts exactly for the pending row of the same request and revision while the settler's lease runs; one to be retried before its deadline stays pending, one attempt on up to five, and available after 2, 4, 8, 16 or 30 seconds but no later than its deadline; any other is done; nothing else moves, and open demands stay queued |
| AdmissionStore.SettleDoes | internal/controlplane/admission_queue.go:51-64 | the same, stated of the rows before and after alone |
| AdmissionStore.Store.EarliestLeft | internal/controlplane/admission_queue.go:76-83 | the scan finds the earliest remaining work, if any |
| AdmissionStore.Store.ReleaseNode | internal/controlplane/admission_queue.go:66-90 | a released node stays pending exactly while work is left |
| BanSet.FilterLive | internal/banset/banset.go:108-114 | exactly the unexpired entries, in bare form |
| BanSet.Sort | internal/banset/banset.go:115-123 | sorted by source and port, the latest deadline first, with the same entries |
| BanSet.Compact | internal/banset/banset.go:124 | the first of every run is the latest of its key |
| BanSet.LiveSorted | internal/banset/banset.go:107-125 | one element a source and port, IPv4 in IPv6 form taken as IPv4 and zones dropped; each asked for until its deadline by some entry with a port and a deadline ahead and beyond it by none, and no such entry without its element |
| BanSet.ExpiryIsClose | internal/banset/banset.go:60-73 | a written expiry is at the wanted deadline or less than a second after it |
| BanSet.SameFingerprint | internal/banset/banset.go:129-140 | lists of one fingerprint agree key by key, with deadlines in the same second |
| BanSet.WrittenIsClose | internal/banset/banset.go:129-140 | a set written for one list is within two seconds of every list of the same fingerprint |
| BanSet.SkippedIsExactIff | internal/banset/banset.go:166-184 | a set that was not written again holds exactly the wanted bans if and only if none of its rounded deadlines has passed |
| BanSet.UnmovedIsExact | internal/banset/banset.go:166-184 | so it does while no deadline moved on within its second |
| BanSet.MovedDeadlineIsMissed | internal/banset/banset.go:129-140 | a ban wanted until 10.9 s and written until 10 s is gone at 10.5 s |
| BanSet.Manager.Render | internal/banset/banset.go:60-73 | each entry is written with its rounded expiry |
| BanSet.Manager.Converge | internal/banset/banset.go:166-184 | after every success the host holds exactly the wanted keys close to their deadlines; a failed write changes nothing and is tried again; an unchanged list is not written |

## Left out

- gRPC, HTTP, TLS, certificates, keys and their renewal, the panel, the frontend and the database schema.
- SQL isolation and chunked queries: a transaction is one atomic step. Row order inside a query is kept only where a result depends on it.
- `internal/controlplane/stop_composition.go`, `stop_provider_provenance.go` and `admission_projection.go`: how stops and admissions are composed from configuration bundles.
- The guards on configuration bundles (`guardManagedBundle`, `guardOwnedPlacements`) and on runtime journals; where a transaction calls one, the model takes its verdict as a parameter (`guard`, `fence`, `inner`).
- Text of configuration, nft scripts, JSON and protobuf encodings, and the size bound of a batch's encoding.
- Sysctls, masquerading and forwarding of an egress, and the withdrawal of a route by the kernel when its device goes.
- `internal/awg`, core registries, mtproto and sing-box runtimes, and installer set-up beyond release activation.
- AuthorityStore.Store.Transition: writes the client and term rows; the term's byte budget and usage row are opened in `Ledger.OpenTerm`.
- AuthorityStore.Store.AcknowledgeAuthority: starts from updates already matched to their outbox rows; the outbox's own bookkeeping is not modelled, and one error stands for the several the source gives for mismatches of different kinds.
- AuthorityStore.Store.AcknowledgeConfiguration: starts from the claims a deployment's payload decodes to.
- RateAllocation.RateTotals.FitsIn: is a function of the three totals only and carries no contract; `TotalsDecideFit` says what it decides.
- EgressPlan.Plan: states which rules and routes are listed, each once, and not the order of the lists; no promise depends on it.
- EgressKernel.Kernel.Provision: may change devices and addresses in any way, so which sysctls or devices a driver sets up is not stated.
- LedgerStore.Store.Ingest: does not keep the per-day usage history or the observation times.
- LedgerStore.Store.ReserveCredit: acceptance and effect are stated for the ledger operation a credit derives for itself being unused, as a hash of the operation id is.
- LedgerStore.TermTotals: sums without bound; a sum past int64 is refused by `CreditAmount` as a budget error, where the database would fail the query.
- Release.Disk.FetchRelease: stands for fetching, signature and asset verification and staging; the release it returns is arbitrary but complete.
- Counters.Counter.ObserveDurably: the caller's commit is atomic, and its outcome is a parameter.
- DeploymentStore.Store.Observe: the settlement of shares and stops inside the same transaction is modelled in `AuthorityStore`; here only whether it goes through is a parameter.
- DeploymentStore.Stream.Send: retry timers, back-off and the periodic session re-examination are events that may come at any time.
- AdmissionStore.Store.EnqueueDemand: the scope of the request (session, placement, term, deployment) is examined by code outside this model.
- AdmissionStore.Store.ClaimNodes: nodes due at the same time are leased in any order, where the source orders them by id.
- AdmissionStore.Store.DropExpired: models the expiry of demands; the list of up to eight due demands that the same call returns is not modelled.
- BanSet.Manager.Render: gives elements and expiry times in whole nanoseconds; floating-point rounding of the remaining seconds is not modelled.
