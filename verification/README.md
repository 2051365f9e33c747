# InferQoS admission control: a Dafny model

InferQoS admits inference requests into finite capacity. This project models the four state machines
that decide who is admitted and when, and proves what they guarantee over every run:

- **Scheduler** (`SchedulerModel`, `SchedulerImpl`, `SchedulerChoice`, `SchedulerRuns`, `SchedulerShares`, `SchedulerLongRun`,
  `SchedulerNeighbour`, `SchedulerRetries`): per-key FIFO queues with an id index and counters, chosen by fairness, age and deadline pressure. `SchedulerModel` describes it as one flat
  list in arrival order; `SchedulerImpl.Scheduler` is the two-level structure, proved to follow the list.
- **Lease coordinator** (`Coordinator`, `CoordinatorRuns`, `Valkey`, `ValkeyRefinement`, `ValkeyHardLimit`,
  `ValkeyLimits`): the in-memory map of leases, and the Valkey hash of `amount:expiry:scope` texts behind Lua scripts.
- **Admission** (`Concurrency`, `Shares`, `Distributed`, `DistributedLimits`, `Guard`, `AdmissionRow`, `AdmissionSteps`, `Ownership`,
  `AdmissionRuns`, `AdmissionWaits`, `AdmissionAttempts`, `AdmissionTheorems`, `AdmissionFailures`): concurrency slots, tenant shares,
  the three-lease acquisition, the guard that settles an admission, and the whole handler/dispatcher protocol
  as interleaved steps. A step is one lock acquisition or one coordinator call; any number of requests
  interleave in any order, and a client may go away at any await.
- **Capacity** (`Capacity`, `CalibrationRuns`): the local ledger and the calibration of its safety factor.
- **Jain's index** (`Jain`), which the simulator reports.

`Sums` holds options and sums over maps.

`f64` is modelled by `real`, clock readings by `nat`, random identifiers by arguments that callers keep
distinct. Iteration over a hash map takes its entries in any order.

## What the proofs found

Several properties one would expect do not hold of the code as it is. For each the project gives an input
that breaks it and states when it does hold.

- A request future dropped while it claims capacity, or while an unread grant sits in its channel, keeps
  its concurrency slot for ever (`AdmissionFailures.DroppedClaimLocksTenantOut`,
  `AdmissionFailures.UnreadGrantIsLost`). The counters are exact if and only if neither happens
  (`AdmissionTheorems.CountersExactIffNoSlotLost`), and then all slots come back
  (`AdmissionTheorems.EverythingIsGivenBack`).
- The handler enqueues before it files its pending entry, and a pop in between strands the request until its
  deadline (`AdmissionFailures.PopBeforePendingStrands`). So does an enqueue by the dispatcher that the full
  queue refuses, whose result it ignores (`AdmissionFailures.RefusedRequeueStrands`), and so does draining
  while a request that was already let in has not filed its entry: the dispatcher finds nothing pending and
  stops (`AdmissionFailures.DrainStrands`). A waiting request is stranded if and only if one of the three
  happened to it (`AdmissionWaits.StrandedIffMissed`).
- An entry of `pending` stays there for ever if and only if the client of a stranded request goes away, or the
  dispatcher files the entry after the handler is gone and outside of the queue
  (`AdmissionWaits.PendingForEver`; `AdmissionFailures.DrainLeavesEntry`, `AdmissionFailures.CancelLeavesEntry`).
  Such an entry goes on counting as a waiting tenant and keeps a dispatcher that has not stopped from stopping.
- The two coordinators answer differently when an amount does not survive Lua's number format, when a
  scope is empty, when an expired lease is renewed after its key has timed out, and when leases of one pool
  have different lifetimes (`ValkeyLimits`, each with its exact condition). An amount that the format rounds up
  overfills its pool (`ValkeyLimits.RoundedUpOverfills`), by no more than it was rounded up
  (`ValkeyHardLimit.SharedPoolWithinLimit`).
- The ledger takes small outstanding amounts for rounding residue and can then admit more than is
  configured (`Capacity.ResidueHidesAReservation`); a release stays exact if and only if what is left is
  zero or at least the threshold (`Capacity.ReleaseStaysExact`).
- A tenant's limit leaves room for the guarantees of the tenants that wait if and only if those and its own
  add up to at most 1, which configuration validation does not ask for
  (`Shares.LimitLeavesRoomForOthers`, `Shares.PromisesMayExceedThePool`).
- The slots of a tenant are kept under a key made of pool and tenant name; with a colon in a pool name two pools and
  tenants can share one (`DistributedLimits.ColonsMayClash`), without one none do (`DistributedLimits.PlainKeysDiffer`).
- A request that the dispatcher enqueues again starts over in age and deadline, so counted from when it first
  came it can be overtaken without bound (`SchedulerRetries.RetryRestartsAge`); the bound grows by no more
  than the time from its first to its latest enqueue (`SchedulerRetries.OvertakingSinceFirstEnqueue`).
- Queues do not always receive service in proportion to their weights, as ADR 0004 has it. The weight both
  multiplies the score and divides the charge, which alone gives shares by the squares of the weights
  (`SchedulerShares.SquareLaw`); renormalisation takes the same off every queue and brings them back. Two
  competing queues deviate from their shares by weight by exactly the growth of the gap between their `served`
  amounts (`SchedulerLongRun.DeviationIsGap`), hence stay within a constant of them exactly as long as the
  `served` amount of the lighter one is bounded (`SchedulerLongRun.ShareFollowsServed`,
  `SchedulerLongRun.DeviationReachesPeak`). It is bounded when all occupied queues compete alike
  (`SchedulerLongRun.LinearLaw`), and not beside a queue that waits unserved, where the deviation grows
  with the work (`SchedulerNeighbour.NotByWeight`, `SchedulerNeighbour.WeightsDoNotDecide`).

Where documentation and code differ the model follows the code. The scheduler's module comment calls the age
term bounded, but it grows without limit, and the overtaking bound rests on that. ADR 0004 also says that
active queues are capped; only depth and bytes are.

## Model

| member | source | states |
|---|---|---|
| SchedulerRuns.BoundedOvertaking | crates/scheduler/src/lib.rs:206-256 | In every run with weights at most W, no pop takes a request that was enqueued (W + 1,000,000) half-lives or more after one that is still queued, wherever that one stands in its queue; for a pop whose clock reading predates that enqueue, the window ends at the reading. |
| SchedulerRuns.EventualService | crates/scheduler/src/lib.rs:133-256 | In every run, a request accepted while n others wait, in whose window m more are enqueued, has been popped or cancelled once more than n + m pops were made with readings at most a given lag behind what they took; any other pops are harmless, and where all readings lag by no more than that, all pops count. |
| SchedulerRuns.BurstFairness | crates/scheduler/src/lib.rs:211-244 | Two equally weighted queues that start empty and then stay occupied by equally old, equally urgent requests never differ by more than one largest request in work popped, whatever other queues do and across renormalisation. |
| SchedulerRuns.NoOvertaking | crates/scheduler/src/lib.rs:211-228 | The overtaking bound for a single pop, with any clock reading, in any state with ordered enqueue times. |
| SchedulerRetries.OvertakingSinceFirstEnqueue | crates/proxy/src/lib.rs:368-375 | Counted from its first enqueue a request is overtaken within the window and the time to its latest enqueue; without retries, within the window. |
| SchedulerRetries.RetryRestartsAge | crates/proxy/src/lib.rs:401-408 | For every length of time, a run in which a request that was tried and enqueued again waits while one that came so much later than its first enqueue is taken. |
| SchedulerRuns.LeadStep | crates/scheduler/src/lib.rs:229-244 | A step changes the lead of one queue over another by exactly the work it serves, also when `served` is renormalised. |
| SchedulerRuns.ServesTheOneNotAhead | crates/scheduler/src/lib.rs:214-228 | Of two queues of any weights with equally old and urgent fronts, a pop never serves the one whose weighted service is ahead. |
| SchedulerShares.SquareLaw | crates/scheduler/src/lib.rs:211-244 | Until `served` is first renormalised, two queues of any weights that start empty and then stay occupied by equally old, equally urgent requests are served in the ratio of the squares of their weights up to a constant; each renormalisation adds the shift it causes to that term. |
| SchedulerLongRun.DeviationIsGap | crates/scheduler/src/lib.rs:229-244 | In every run, across any renormalisations and whatever other queues do, the work per weight of two queues that stay occupied differs by exactly what the gap of their `served` amounts has grown. |
| SchedulerLongRun.ShareFollowsServed | crates/scheduler/src/lib.rs:211-244 | Of two competing queues the heavier exceeds its share by weight by the difference of the weights times a `served` amount of the lighter one, up to a constant: at least that at the end of the run and at most its largest in it. |
| SchedulerLongRun.DeviationReachesPeak | crates/scheduler/src/lib.rs:211-244 | The upper bound is met, up to the constant, at the point of the run where the lighter queue has its largest `served` amount. |
| SchedulerLongRun.LinearLaw | crates/scheduler/src/lib.rs:211-244 | In every run, of any length, in which the occupied queues stay the same and all compete alike, the work per weight of any two of them differs by at most a constant. |
| SchedulerLongRun.LinearLawFrom | crates/scheduler/src/lib.rs:211-244 | The same from any state in which some queue was served at most a thousand quanta and none more than its ceiling, counting the gap there was. |
| SchedulerNeighbour.NotByWeight | crates/scheduler/src/lib.rs:234-244 | Beside a queue that stays occupied and unserved nothing is renormalised, and the heavier of two competing queues exceeds its share by weight in proportion to the work served to the lighter one. |
| SchedulerNeighbour.WeightsDoNotDecide | crates/scheduler/src/lib.rs:211-244 | A run from the empty scheduler, for every n, after whose n pops a tenant of weight 2 is ahead of its share against one of weight 1 by a fifth of n. |
| SchedulerModel.SelectedExists | crates/scheduler/src/lib.rs:211-228 | Whenever a request waits, one is the earliest of its key and beats the earliest of every other key. |
| SchedulerModel.SelectedUnique | crates/scheduler/src/lib.rs:211-228 | That request is unique, so the choice does not depend on map order. |
| SchedulerModel.ScoreBounds | crates/scheduler/src/lib.rs:216-224 | The fairness term lies in (0, weight] and the deadline term in (0, 1,000,000]. |
| SchedulerChoice.NearerDeadlineFirst | crates/scheduler/src/lib.rs:215-228 | Of two equally old requests whose queues stand alike, neither overdue, a pop takes the one with the nearer deadline, unless both are within a hundred-thousandth of the window; then, and with equal deadlines, the one that came first. |
| SchedulerChoice.OverdueFirst | crates/scheduler/src/lib.rs:218-228 | An overdue request goes before an equally old one that is not; of two overdue ones the first goes. |
| SchedulerChoice.AgeAgainstUrgency | crates/scheduler/src/lib.rs:216-224 | A request is taken before an older one only if what it is younger by, in half-lives, is at most window over its remaining time less window over the other's. |
| SchedulerChoice.OverdueAgainstAge | crates/scheduler/src/lib.rs:218-224 | A request that is not overdue is taken before an overdue one only if it is older by at least 900,000 half-lives. |
| SchedulerChoice.MoreImportantFirst | crates/scheduler/src/lib.rs:162-168 | Of two new queues whose first requests are equally old and urgent, a pop never serves the one whose class, tenant and application weights multiply to less, nor the later of two equal ones. |
| SchedulerChoice.SoonerDueFirst | crates/scheduler/src/lib.rs:152-154 | Of two equally weighted new queues whose first requests came at the same time, a pop does not serve the one due later, save when both are overdue, both capped, or the clock ends first. |
| SchedulerChoice.WeightScales | crates/scheduler/src/lib.rs:162-164 | Each of the three weights scales the weight of a new queue, zero counts as one, and all ones give 1. |
| SchedulerChoice.AcceptedIffWithinLimits | crates/scheduler/src/lib.rs:142-150 | An enqueue is accepted if and only if the line with the request in it is within depth and bytes and has no id twice, and the first of these that it breaks is the error. |
| SchedulerChoice.OneRequestMoves | crates/scheduler/src/lib.rs:133-256 | Every operation brings in or takes out exactly the request it is about; no other is lost, added or changed. |
| SchedulerChoice.WorkIsEstimated | crates/scheduler/src/lib.rs:234-234 | The work of the fairness theorems is the estimated units of the requests popped where these are at least one, and one each where they are not more. |
| SchedulerModel.Next | crates/scheduler/src/lib.rs:133-256 | Every operation keeps the list in order: keys with credit are exactly the keys with requests, sequence numbers increase, ids are distinct, served amounts are not negative. |
| SchedulerImpl.SelectQueue | crates/scheduler/src/lib.rs:211-228 | Scanning the queues in any order finds the one whose front has the greatest score, then the lowest sequence number. |
| SchedulerImpl.BestQueueIsSelected | crates/scheduler/src/lib.rs:211-233 | The front of the best queue is the request the flat list selects. |
| SchedulerImpl.Scheduler.Enqueue | crates/scheduler/src/lib.rs:133-185 | Follows the flat list, with the same errors in the same order, and keeps index, depth and bytes exact and within their limits. |
| SchedulerImpl.Scheduler.Cancel | crates/scheduler/src/lib.rs:186-205 | Follows the flat list; returns true exactly when the id was queued; drops the queue when it becomes empty. |
| SchedulerImpl.Scheduler.PopNext | crates/scheduler/src/lib.rs:206-256 | Follows the flat list; returns nothing exactly when nothing waits, else the selected request. |
| SchedulerImpl.Scheduler.Snapshot | crates/scheduler/src/lib.rs:257-264 | Reports the true count, the true byte sum and the number of keys with requests. |
| Coordinator.InMemoryCoordinator.Reserve | crates/coordinator/src/lib.rs:54-81 | Purges, sums and stores as the specification of a pool says, with the same answer. |
| Coordinator.InMemoryCoordinator.ReserveScoped | crates/coordinator/src/lib.rs:82-114 | The same with the limit of a scope. |
| Coordinator.InMemoryCoordinator.Release | crates/coordinator/src/lib.rs:115-120 | Removes the lease if it is there and changes nothing else. |
| Coordinator.InMemoryCoordinator.Renew | crates/coordinator/src/lib.rs:121-131 | Restamps any stored lease, also one that has expired. |
| CoordinatorRuns.HardLimit | crates/coordinator/src/lib.rs:54-131 | In every run, for any clock readings, what a pool stores is within the limit of its latest grant and what a scope stores within the scope limit of its latest grant. |
| CoordinatorRuns.FixedLimit | crates/coordinator/src/lib.rs:54-131 | A pool whose callers never ask for more than a fixed limit never stores more than it. |
| CoordinatorRuns.LeaseLifetime | crates/coordinator/src/lib.rs:54-131 | A lease that nobody renews or releases is counted by a later reserve exactly until its expiry. |
| CoordinatorRuns.GrantStores | crates/coordinator/src/lib.rs:72-80 | A grant or a renewal stores a lease that expires one time-to-live later. |
| CoordinatorRuns.LeaseIsNotGivenTwice | crates/coordinator/src/lib.rs:67-71 | While a lease counts, a grant in its pool or scope fits beside its units. |
| CoordinatorRuns.CrashRecovery | crates/coordinator/src/lib.rs:64-81 | Once all leases of a pool have expired, a reserve is granted if and only if its units are within the limits. |
| Valkey.SplitJoin | crates/coordinator/src/lib.rs:172-183 | Amount, expiry and scope come back exactly from the stored text, also when the scope contains colons. |
| Valkey.PurgeAndSum | crates/coordinator/src/lib.rs:168-181 | One pass over the hash deletes exactly the expired fields and sums exactly the others, in total and for one scope. |
| Valkey.ValkeyServer.ReserveScript | crates/coordinator/src/lib.rs:159-186 | The whole script: its answer and the hash and key lifetime it leaves. |
| Valkey.ValkeyServer.RenewScript | crates/coordinator/src/lib.rs:255-257 | Restamps the expiry text and keeps amount and scope texts. |
| Valkey.Call | crates/coordinator/src/lib.rs:187-268 | Every coordinator call against the server, with unscoped reserves mapped to the empty scope. |
| ValkeyRefinement.ValkeyRefinesMemory | crates/coordinator/src/lib.rs:54-268 | On every run of allowed calls, renewals of expired leases before the key times out included, both coordinators give the same answers. |
| ValkeyRefinement.KeyExpiryLosesNothing | crates/coordinator/src/lib.rs:184-184 | A key that times out takes no unexpired lease with it. |
| ValkeyRefinement.KeyKeepsOutliving | crates/coordinator/src/lib.rs:183-184 | With one time-to-live, no call makes a key time out before one of its fields. |
| ValkeyHardLimit.SharedPoolWithinLimit | crates/coordinator/src/lib.rs:159-186 | In every run, for any clock readings of callers and server, lifetimes, scopes and renewals, all fields that a shared pool stores are within the limit of its latest grant, and those of a scope within the scope limit of its latest grant, each plus what that grant was rounded up. |
| ValkeyHardLimit.SharedPoolWithinExactLimit | crates/coordinator/src/lib.rs:159-186 | Where no amount is read back as more than was written, within the limits themselves. |
| ValkeyLimits.AmountMustSurvive | crates/coordinator/src/lib.rs:173-183 | A run of two reserves that both coordinators answer alike if and only if the first amount survives being written and read back. |
| ValkeyLimits.LongAmountsDiffer | crates/coordinator/src/lib.rs:173-183 | In a format of fourteen significant digits every amount between 1 and 10 with more than thirteen decimals makes the answers differ. |
| ValkeyLimits.OneLongAmount | crates/coordinator/src/lib.rs:183-183 | 1.00000000000005 is such an amount. |
| ValkeyLimits.LimitNeedsNoMoreReadBack | crates/coordinator/src/lib.rs:173-183 | A grant of a whole pool stays within its limit if and only if the amount is not read back as more. |
| ValkeyLimits.RoundedUpOverfills | crates/coordinator/src/lib.rs:183-183 | With fourteen digits rounded to the nearest, 1.00000000000007 is read back as 1.0000000000001 and one grant of it overfills a pool of that size. |
| ValkeyLimits.ScopeMustBeNamed | crates/coordinator/src/lib.rs:199-200 | An unscoped lease counts for a scope in the shared store if and only if that scope is empty. |
| ValkeyLimits.RenewMustBeInTime | crates/coordinator/src/lib.rs:121-131 | A late renewal is answered alike if and only if the key has not timed out. |
| ValkeyLimits.OneTtlForAll | crates/coordinator/src/lib.rs:184-184 | With two lifetimes in a pool the answers differ exactly between the shorter key lifetime and the longer lease. |
| ValkeyLimits.WholeNumbersAreExact | crates/coordinator/src/lib.rs:183-183 | Decimal text writes and reads back every whole number exactly, so the condition on numbers can be met. |
| Concurrency.ConcurrencyState.TryEnter | crates/proxy/src/lib.rs:488-516 | Enters exactly when both counters are below their limits, a name without policy having one slot. |
| Concurrency.ConcurrencyState.Leave | crates/proxy/src/lib.rs:525-529 | Takes one off both counters and keeps no zero. |
| Concurrency.DecrementCounts | crates/proxy/src/lib.rs:657-664 | Takes exactly one off a counted name, nothing off an uncounted one, and keeps no zero. |
| Concurrency.LeaveUndoesEnter | crates/proxy/src/lib.rs:510-529 | Leaving restores the counters that entering found. |
| Concurrency.EntersUpToLimit | crates/proxy/src/lib.rs:488-516 | An identity enters until its tenant or application has reached its limit, one for a name without policy, and is then refused. |
| Shares.TenantCapacityLimit | crates/proxy/src/lib.rs:530-555 | Computes the specified limit, visiting the waiting tenants in any order. |
| Shares.LimitBetweenShares | crates/proxy/src/lib.rs:530-555 | For validated shares the limit lies between the guaranteed and the maximum share of the pool. |
| Shares.LimitNeverRises | crates/proxy/src/lib.rs:534-554 | More waiting tenants never raise the limit. |
| Shares.UnusedShareIsLent | crates/proxy/src/lib.rs:539-555 | Alone a tenant may have its maximum; every amount within it that leaves the waiting tenants' guarantees free is within its limit; the limit goes beyond that only to be the tenant's own guarantee. |
| Shares.LimitLeavesRoomForOthers | crates/config/src/lib.rs:383-391 | The limit leaves the waiting tenants' guarantees free if and only if those and the tenant's own add up to at most 1. |
| Shares.PromisesMayExceedThePool | crates/config/src/lib.rs:383-391 | Policies that pass validation and under which one tenant may take what is guaranteed to another that waits. |
| Shares.GrantLeavesRoomForOthers | crates/proxy/src/lib.rs:607-627 | Every grant under the limit leaves what the tenant stores outside the guarantees of those that wait. |
| Distributed.ReserveDistributed | crates/proxy/src/lib.rs:556-633 | Makes exactly the specified calls, with rollback, and reports their outcome. |
| DistributedLimits.LeasedIffRoom | crates/proxy/src/lib.rs:582-633 | An attempt is granted if and only if the store it starts from has a slot for the tenant, one for the application, room for the charge in the pool and room for it in the tenant's part of the pool. |
| DistributedLimits.LeasedIffRoomIsFound | crates/proxy/src/lib.rs:582-633 | The same with calls of others in between, of the stores that the calls find. |
| DistributedLimits.SlotsNeverExceedLimits | crates/proxy/src/lib.rs:582-606 | In every run of the calls of any attempts, with any releases and renewals, the slots stored for a tenant or an application never outnumber its limit. |
| DistributedLimits.PlainKeysDiffer | crates/proxy/src/lib.rs:574-581 | Without a colon in pool names, slot keys of different pools, tenants and applications differ, and none is a pool name. |
| DistributedLimits.ColonsMayClash | crates/proxy/src/lib.rs:574-581 | With one, two pools and tenants can share a key. |
| Distributed.NothingLeftBehind | crates/proxy/src/lib.rs:587-626 | Interleaved with any calls of others, an attempt that is not granted leaves none of its leases stored in any pool. |
| Distributed.ThreeLeasesStored | crates/proxy/src/lib.rs:628-632 | Interleaved with any calls of others, a granted attempt that takes less than one time-to-live leaves its three leases live in their pools, and nowhere else. |
| Distributed.OthersUntouched | crates/proxy/src/lib.rs:582-633 | Whatever the outcome and whatever others do meanwhile, an attempt changes no unexpired lease of anyone else. |
| Distributed.ErrorLeavesSlots | crates/proxy/src/lib.rs:608-619 | An attempt that ends in an error leaves both slot leases stored and live, and no capacity lease. |
| Distributed.ErrorIffNegativeAmount | crates/proxy/src/lib.rs:608-619 | An attempt ends in an error exactly when both slots were granted and an amount is negative. |
| Distributed.ReleaseUndoesReserve | crates/proxy/src/lib.rs:556-644 | Interleaved with any calls of others before, between and after, releasing a grant leaves no lease of it anywhere and every lease that the others left alone as it was before the attempt. |
| Guard.ActiveAdmissionGuard.CompleteThenDrop | crates/proxy/src/lib.rs:79-128 | Completion followed by the drop that the language adds settles everything once. |
| Guard.ActiveAdmissionGuard.DropToTheEnd | crates/proxy/src/lib.rs:114-128 | The drop alone, with its spawned task, settles the same things once. |
| Guard.SettlingUndoesAdmission | crates/proxy/src/lib.rs:858-952 | Settling gives back the slot, the ledger entry, the active count and the three leases that admission took: the live leases of the coordinator are those from before the admission, whatever calls others made meanwhile. Only the calibration remembers the request, by the reported work and throttle. |
| AdmissionSteps.ClaimOwns | crates/proxy/src/lib.rs:582-633 | Call by call, a reservation owns exactly what it stored and has not released. |
| AdmissionAttempts.Whereabouts | crates/proxy/src/lib.rs:556-644 | In every interleaving a lease once stored for a request is in the coordinator exactly while the request owns it and it has not expired, and in the ledger exactly while the request tracks it. |
| AdmissionAttempts.AllOrNothing | crates/proxy/src/lib.rs:587-632 | In every interleaving, from the beginning of a reservation until it is decided, the coordinator holds for it exactly the unexpired leases it lists and the ledger none: three distinct ones when it is complete, none when it was not granted. |
| AdmissionSteps.StepKeeps | crates/proxy/src/lib.rs:344-412 | Every step of a request keeps it consistent, changes its slot, guard, leases and ledger entries by exactly what the step takes and gives back, and grants it at most once. |
| AdmissionSteps.GivenBackInOrder | crates/proxy/src/lib.rs:634-644 | Completion, a dropped guard and a dispatcher whose grant was refused all set out to release capacity first, then the application's slot, then the tenant's. |
| AdmissionSteps.ReleasesTheFirst | crates/proxy/src/lib.rs:634-644 | Each release deletes the first of the leases that are left and keeps the others for later. |
| AdmissionAttempts.RefusedGrantIsUndone | crates/proxy/src/lib.rs:382-393 | In every interleaving, a grant whose receiver is gone has, once the dispatcher is done with it and no release failed, no lease in the coordinator, no entry in the ledger and no slot in the counters. |
| AdmissionAttempts.RetreatGoesOn | crates/proxy/src/lib.rs:384-393 | The dispatcher can always go on with undoing such a grant, and each of its steps brings it one nearer to the end. |
| AdmissionFailures.UnreadGrantIsLost | crates/proxy/src/lib.rs:910-927 | A run from the start in which a grant arrives as the wait ends and is lost: the request is finished, its slot stays counted, its ledger entry booked and its leases stored. |
| AdmissionFailures.PopBeforePendingStrands | crates/proxy/src/lib.rs:887-908 | A run from the start in which a pop between enqueue and the pending entry strands the request. |
| AdmissionFailures.RefusedRequeueStrands | crates/proxy/src/lib.rs:401-408 | A run from the start in which an enqueue by the dispatcher is refused and strands the request. |
| AdmissionFailures.DrainStrands | crates/proxy/src/lib.rs:350-352 | A run from the start in which the dispatcher stops for draining before a request has filed its entry, and strands it. |
| AdmissionFailures.DrainLeavesEntry | crates/proxy/src/lib.rs:350-352 | If its client then goes away, its entry is pending in every continuation. |
| AdmissionFailures.CancelLeavesEntry | crates/proxy/src/lib.rs:401-408 | A run from the start in which the handler gives up between the dispatcher's enqueue and its insert, after which the entry is pending in every continuation. |
| AdmissionWaits.StrandedIffMissed | crates/proxy/src/lib.rs:348-408 | In every interleaving a waiting request is stranded if and only if the dispatcher looked for its pending entry before it was filed, had an enqueue of it refused, or stopped for draining before it was filed. |
| AdmissionWaits.StrandedUntilItLeaves | crates/proxy/src/lib.rs:353-358 | However the run goes on, a stranded request is never granted and holds no slot; it stays stranded until its deadline or its client ends the wait. |
| AdmissionWaits.PendingForEver | crates/proxy/src/lib.rs:348-408 | In every interleaving an entry of `pending` stays in every continuation if and only if the client of a stranded request went away, or the dispatcher filed it for a handler that was gone, outside of the queue. |
| AdmissionRuns.AccountingIsExact | crates/proxy/src/lib.rs:488-529 | In every interleaving each counter equals the attempts, sent grants and live guards under its name plus slots lost for good, no zero is kept, `active` is the number of live guards, and coordinator and ledger hold exactly what the requests own. |
| AdmissionTheorems.LimitsHold | crates/proxy/src/lib.rs:488-516 | With fixed limits in enforcing mode no counter ever exceeds its limit. |
| AdmissionTheorems.InFlightWithinLimit | crates/proxy/src/lib.rs:488-529 | The same for the number of requests of a tenant that hold a slot. |
| AdmissionTheorems.ShadowNeverQueues | crates/proxy/src/lib.rs:862-871 | In shadow mode no request is ever queued, and none is rejected for want of capacity. |
| AdmissionTheorems.NothingGivenBackTwice | crates/proxy/src/lib.rs:79-128 | In every reachable state a decrement finds a positive counter, a release finds its lease stored or expired, a ledger release finds its entry, tracking finds none, and `active` stays non-negative. |
| AdmissionTheorems.ExactlyOnceSettlement | crates/proxy/src/lib.rs:79-128 | In every interleaving each lease is stored at most once and then released exactly once or still owned; it is tracked in the ledger at most once and then released from it exactly once or still there. |
| AdmissionTheorems.EveryEnterIsLeftOnce | crates/proxy/src/lib.rs:79-128 | In every interleaving each request leaves the concurrency state as often as it entered, less one while it holds a slot; its guard is built at most once and then counted out exactly once or still live. |
| AdmissionTheorems.EverythingIsGivenBack | crates/proxy/src/lib.rs:830-1032 | When all requests have finished, slots, ledger entries and leases have each come back if and only if no step of the run gave one up. |
| AdmissionTheorems.CountersExactIffNoSlotLost | crates/proxy/src/lib.rs:488-529 | In every interleaving all counters equal the attempts, sent grants and live guards under their names if and only if no request future was dropped while it claimed or with an unread grant in its channel. |
| AdmissionFailures.DroppedClaimLocksTenantOut | crates/proxy/src/lib.rs:831-857 | A run from the start in which a client leaves during the claim and leaves its tenant without a slot, although no request is left. |
| Capacity.CapacityModel.Reserve | crates/capacity/src/lib.rs:47-57 | Admits exactly when the charge is not negative and fits, and books it. |
| Capacity.AdmittedIffItFits | crates/capacity/src/lib.rs:47-57 | While the total is exact, a reservation is admitted if and only if its charge is not negative and fits beside what is outstanding, and then exactly that is added. |
| CalibrationRuns.ChargeBounds | crates/capacity/src/lib.rs:58-60 | Whatever the history, the charge quoted for a prediction covers it and is at most four times it. |
| CalibrationRuns.FirstCharge | crates/capacity/src/lib.rs:33-46 | At first a charge is the prediction times the configured factor, taken as 1 when less and as 4 when more. |
| Capacity.CapacityModel.TrackDistributed | crates/capacity/src/lib.rs:61-66 | Books a charge once per identifier. |
| Capacity.TrackingAgain | crates/capacity/src/lib.rs:61-66 | Tracking an identifier again does nothing for the same charge; the total stays exact if and only if the charge is the same. |
| Capacity.CapacityModel.Release | crates/capacity/src/lib.rs:67-91 | Gives the charge back, snaps residue to zero and recalibrates, once per reservation. |
| Capacity.ReservedNeverExceedsOutstanding | crates/capacity/src/lib.rs:47-81 | In every run the running total is between zero and what is outstanding. |
| Capacity.ReleaseStaysExact | crates/capacity/src/lib.rs:78-81 | A release keeps the total exact if and only if what stays outstanding is zero or at least the threshold. |
| Capacity.ExactRun | crates/capacity/src/lib.rs:47-81 | In every run whose charges are zero or at least the threshold, the total is exact, and admission by `reserve` alone keeps the true sum within capacity. |
| Capacity.ResidueHidesAReservation | crates/capacity/src/lib.rs:79-81 | With smaller charges, four calls bring the true sum above capacity. |
| CalibrationRuns.AlwaysInRange | crates/capacity/src/lib.rs:82-88 | In every history safety stays in [1, 4], error in [0, 9] and throttle in [0, 1]. |
| CalibrationRuns.EqualReports | crates/capacity/src/lib.rs:82-89 | After k releases that report the same relative deviation and throttle flag, error and throttle are 0.92 to the k of what they were plus the rest of what is reported. |
| CalibrationRuns.SafetyRisesIff | crates/capacity/src/lib.rs:85-88 | A release from a safety factor of 1 raises it if and only if it reports work other than max(predicted, 1) or a throttle, or earlier ones did. |
| CalibrationRuns.WorseHistoryNeverLowersSafety | crates/capacity/src/lib.rs:82-88 | Of two histories, the one with larger deviations and throttles never has the smaller safety factor or charge. |
| CalibrationRuns.WorseReportsNeverLowerCharges | crates/capacity/src/lib.rs:61-91 | Of two ledgers that track the same distributed reservations, the one with worse reports at every release never has the smaller safety factor or charge. |
| CalibrationRuns.SafetyDecays | crates/capacity/src/lib.rs:85-88 | The bound on safety after k quiet releases, met with equality when the target stays under its cap. |
| CalibrationRuns.QuietRelease | crates/capacity/src/lib.rs:82-86 | A release that reports no work, or exactly max(predicted, 1), is quiet exactly when it was not throttled. |
| CalibrationRuns.LedgerSafetyDecays | crates/capacity/src/lib.rs:67-91 | The same bound for every run of a ledger whose releases are quiet. |
| Jain.ComputeIndex | crates/simulator/src/lib.rs:260-271 | Computes the index as defined, 1 for an empty or all-zero allocation. |
| Jain.IndexBounds | crates/simulator/src/lib.rs:260-271 | The index of a non-negative allocation that is not all zero lies in [1/n, 1], is 1 exactly when all shares are equal and 1/n exactly when one tenant has everything. |
| Jain.IndexIsScaleFree | crates/simulator/src/lib.rs:260-271 | Multiplying all shares by a positive number leaves the index unchanged. |

## Left out

- HTTP, TLS, streaming, spool files, dashboard, admin routes and metrics text: input, output and presentation.
- Provider adapters, the external provider protocol and identity resolution: calls into other systems; work estimates and identities are inputs.
- Configuration parsing, and validation beyond the share ranges.
- Durable queues, the command line, SDK helpers, deployment files.
- The rest of the simulator's replay: heuristic projections.
- Floating-point rounding, infinities and NaN, and wrap-around of machine integers: amounts are reals, counters and sequence numbers unbounded; the byte limit differs only for a limit of the largest machine integer.
- Totals of admitted and rejected requests, and the per-class `max_queued`, which the scheduler does not enforce.
- The order of pops inside the admission protocol: there any queued request may be popped next; the scheduler part says which one is.
- Lease renewal inside the admission protocol: a lease there may expire at any time, whether or not its guard renews it.
- SchedulerRuns.BurstFairness: for equal weights; other weights are the subject of `SchedulerLongRun`.
- SchedulerRuns.EventualService: about one entry of the queue; a request that is enqueued again is a new entry.
- SchedulerLongRun.LinearLaw: for requests of one age and deadline; those terms otherwise decide before weights do.
- Malformed hash fields: no call stores a text without two colons, on which the Lua scripts would fail.
- ValkeyRefinement.ValkeyRefinesMemory: assumes one clock for callers and server, calls that reach the server, one time-to-live, named scopes, exactly written numbers and fresh identifiers; a renewal of an expired lease must come before its key times out, and not between an unscoped reserve of its pool with a negative limit and the next valid reserve there; a negative limit without a scope is refused by one coordinator and invalid for the other.
- DistributedLimits.SlotsNeverExceedLimits: for pool names without a colon.
- AdmissionRuns.AccountingIsExact: a coordinator call that reports an error is taken to have changed nothing; request identifiers in flight are distinct; the dispatcher's single task is not assumed.
- AdmissionTheorems.EverythingIsGivenBack: spawned settlement tasks count as part of the request, which finishes only when they have run.
