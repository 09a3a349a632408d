# A verified model of Fleetplane's control plane

Fleetplane keeps a fleet of cloud machines: it journals every provider call before making it, leases machines to
acquisitions, sizes pools, sweeps the provider for drift, and reclaims idle machines before the next billing boundary.
This project models that behaviour in Dafny and proves what the system promises.

Every state change of the program is one serialized store transaction, so the model has three layers.

1. **Transactions.** `storage.dfy` is the persisted fleet (resources, operations, leases, acquisitions) and a `Store`
   class whose writes update the tables in place. `transactions.dfy` gives every transaction as a guarded step of the
   fleet. The classes in `engine.dfy`, `scheduler.dfy`, `leasing.dfy`, `service.dfy`, `provision.dfy`, `reconcile.dfy`,
   `discovery.dfy` and `idempotency.dfy` follow the program statement by statement and are proved to perform exactly
   those steps, error paths and rollbacks included.
2. **Runs.** `invariants.dfy` proves that each step keeps one global invariant. `runs.dfy` lets all actors take steps in
   any order, with crashes and passing time anywhere, and `guarantees.dfy`, `allocation.dfy`, `lease_terms.dfy`,
   `stamps.dfy`, `exactly_once.dfy` and `cloud.dfy` prove the promises over every run. `evidence.dfy` and `grounds.dfy`
   say, on rows, operations and answers alone, exactly why anything changes: which answer fails, finishes, retries or
   tombstones, and on which grounds a row moves, appears or is taken. `cloud.dfy` adds an eventually consistent provider
   that loses replies and lists machines late.
3. **Algorithms.** `poolplan.dfy`, `poolboard.dfy`, `poolcycle.dfy` and `poolrun.dfy` are the six-loop pool cycle,
   proved against a closed form, with its bounds and its convergence. `billing.dfy` is the billing arithmetic,
   `reclaim.dfy` the cost sweep that uses it, `fake_cloud.dfy` the step-clocked provider, `gcp_labels.dfy` and
   `do_tags.dfy` the label codecs.

`dafny verify dfyconfig.toml` checks everything.

## What is promised, and where it is not kept

- A tombstoned row may still have an active create operation: the API delete of a row without a machine returns before
  it appends to the journal (`internal/app/service.go:312-326`), although its comment says the journal's uniqueness
  rule protects it. `Guarantees.TombstoneLeavesOperationIff` says exactly when this happens. The coupling of phases and
  operations is therefore stated for live rows.
- The park loop of the pool cycle relies on a count the drain loop does not update
  (`internal/reconcile/reconcile.go:646-664`, `689-708`), so a cycle that both drains and parks can drop below
  `minRunning`. `PoolPlan.ParkingFloorCanBreak` is a pool where it happens, `PoolPlan.ParkingFloorIff` says from the
  spec, the census and the budget exactly when it does, and a pool at or under its size keeps the floor in every cycle.
- A provider report may lower a machine's capacity under its leases, both when the sweep sights the machine and when a
  start completes on a machine that was parked with its leases (`internal/storage/sqlite/resources.go:224-229`,
  `internal/operations/engine.go:487-522`). `Allocation.SightingCanOverallocate` and `Allocation.StartCanOverallocate`
  are such runs, and `Allocation.StepAllocatesIff` says of every step exactly when the fleet stays well allocated.
- A ghost found stopped on a parkable class is minted parked, so the ready-to-draining move of its deletion conflicts and
  it stays (`internal/reconcile/discovery.go:246-262`); `Discovery.GhostFate` states both fates.
- The GCP codec upper-cases every payload that looks like a ULID, so a lower-case identity value does not come back;
  `GcpLabels.RoundTripIff` is the exact condition.
- The orphan tombstone does not re-check the phase it read from its snapshot. It is safe because no other actor moves an
  orphan; the invariant `Runs.SnapshotHolds` carries that argument.

## Model

| member | source | states |
|---|---|---|
| Cloud.NeverADuplicateMachine | internal/operations/engine.go:202-317 | over every run, with crashes anywhere, lost replies, lagging listings and any verification windows, two requests of one create operation never both have a live machine, without any deduplication by the provider |
| Cloud.RunKeepsSafe | internal/operations/engine.go:559-649 | in every reachable system at most one order of a create can still have a machine, there is none while the operation is merely journaled, and where the provider lists by label the persisted deadline bounds it and no create freezes |
| Cloud.MoveKeepsSafe | internal/operations/engine.go:202-317 | each protocol move (send, land, reply, lose, list, decide, vanish, any other actor, crash) keeps that invariant |
| Cloud.ActorKeepsSafe | internal/operations/engine.go:102-129 | resume, observation, thawing, crashes and every other actor never return a create with an open order to the journal and never move the deadline that bounds it |
| Cloud.SendKeepsSafe | internal/operations/engine.go:202-266 | a dispatch with any verification window is safe because a journaled create has no open order |
| Cloud.RefuseKeepsSafe | internal/operations/engine.go:268-317 | only an error that honestly claims no effect returns a create to the journal |
| Cloud.DecideKeepsSafe | internal/operations/engine.go:602-649 | a create is re-dispatched from verification only when nothing was listed after the deadline that bounds every order |
| Cloud.NoMachineOutlivesItsTombstone | internal/operations/engine.go:427-449 | over every run, once an engine step has turned a live row into a tombstone, no request ever runs that row's machine again |
| Cloud.RunKeepsGone | internal/operations/engine.go:559-601 | in every reachable system no machine runs whose row the engine turned into a tombstone |
| Evidence.EngineOutcome | internal/operations/engine.go:157-187 | the answer alone decides the whole effect of an engine step: attached, gone, serving, failed, journaled again, in doubt, frozen, or nothing at all |
| Evidence.RefusedOutcome | internal/operations/engine.go:268-317 | what a failed mutation leads to: a delete not found is gone, an invalid or fatal one fails, a park operation or one without effect is journaled again, any other is verified |
| Evidence.ObservedOutcome | internal/operations/engine.go:321-389 | what an observation leads to, per kind and gate |
| Evidence.LookedUpOutcome | internal/operations/engine.go:559-649 | what a lookup leads to: an absent delete is gone, a present one is journaled again, a found create is attached, an unlisted one waits for its deadline |
| Evidence.AcceptedOutcome | internal/operations/engine.go:236-266 | an accepted reference reaches operation and row unless another live row owns the machine |
| Evidence.AbandonedOutcome | internal/operations/engine.go:202-234 | an operation without a driver, or a park operation past its attempts, fails |
| Evidence.AttestedOutcome | internal/app/resolve.go:19-67 | the operator's word fails a frozen operation and its live row |
| Evidence.SettledExactlyOnEvidence | internal/operations/engine.go:268-389 | over every run an operation fails exactly on its named grounds and succeeds exactly on its confirming answer |
| Evidence.FinishedHasItsAnswer | internal/operations/engine.go:321-389 | the history of every finished operation holds the answer that finished it |
| Evidence.InconclusiveChangesNothing | internal/operations/engine.go:340-389 | a pending observation, a transient error, a machine not yet ready, a failed lookup and an empty listing before the deadline change nothing |
| Evidence.StillThereIsRetried | internal/operations/engine.go:578-601 | a verifying delete whose machine is still there is journaled again and its row stays live and unchanged |
| Evidence.TombstonedExactlyOnGrounds | internal/storage/sqlite/resources.go:242-246 | over every run a live row becomes a tombstone exactly when the provider said the machine of its delete is gone, a gated delete met a row without a machine, or a sweep buried a confirmed orphan |
| Grounds.MovesExactlyOnGrounds | internal/storage/sqlite/resources.go:182-213 | over every run a live row changes its phase exactly on the listed grounds of each actor, stated on row, leases, operations and step |
| Grounds.OnlyTheManagedAreTaken | internal/reconcile/reconcile.go:771-811 | over every run only managed, unprotected, unleased machines are taken for deletion, only managed ones are stopped, started or leased, and a protected one is stopped only by the operator |
| Grounds.AppearsExactlyAsAsked | internal/provision/provision.go:113-125 | over every run a row appears exactly as a command, an acquisition or a listed machine asks for it, with every column |
| Grounds.JournaledExactlyAsAsked | internal/storage/sqlite/operations.go:18-41 | over every run an operation is journaled exactly with the move or row it belongs to, on the machine its row records |
| Grounds.DemandExactlyAsServed | internal/scheduler/scheduler.go:514-592 | over every run acquisitions and leases change exactly as the step on them says: bound exactly when granted, pending again after a failed start, ended with their lease |
| Grounds.TraitsExactlyAsAsked | internal/operations/engine.go:236-266 | over every run owner, class, pool and creation time never change, protection changes at the operator's word, and the machine only when the provider names that of the row's create |
| Grounds.GrantsIff | internal/scheduler/scheduler.go:525-573 | a reservation succeeds exactly when the acquisition waits, the machine serves, nobody asked to be alone, the wanted dimensions fit and no other is over-allocated |
| LeaseTerms.BoundLeaseHonorsTerms | internal/scheduler/scheduler.go:549-563 | over every run the lease of a bound acquisition has the capacity it wanted, the exclusivity it asked for, and the expiry of its time to live |
| LeaseTerms.ExclusiveMeansAlone | internal/scheduler/scheduler.go:535-548 | over every run a bound acquisition that asked to be alone is the only bound one on its machine |
| LeaseTerms.RunKeepsTerms | internal/scheduler/scheduler.go:549-563 | every lease ever granted keeps the terms of its acquisition, and an exclusive active lease is alone, whatever capacity is reported |
| Stamps.ClocksSayWhen | internal/storage/sqlite/resources.go:182-213 | over every run the ready clock is the last move to ready other than from allocated, the drain clock the last drain, the park clock of a parked row the moment it was parked |
| Stamps.RunKeepsEnds | internal/lease/manager.go:138-156 | over every run the idle clock of a row is the end of the last lease that ended on it |
| Stamps.IdleMeansRested | internal/reconcile/reconcile.go:822-862 | over every run a machine passes the idle test exactly when it became ready, and ended every lease it ever had, that long ago |
| Guarantees.PhaseSaysOperation | internal/operations/engine.go:391-522 | in every reachable fleet a live row is provisioning, deleting, parking or starting exactly while an operation of that kind is active on it, and no two active operations share a row |
| Guarantees.LeasedNeverReclaimed | internal/operations/engine.go:427-449 | in every reachable fleet a leased machine is alive, is not deleting or parking, and has no active delete or stop |
| Guarantees.LeasesAreBoundAcquisitions | internal/storage/sqlite/leases.go:157-200 | active leases and bound acquisitions correspond one to one; provisioning acquisitions carry a pending machine, pending and bound ones do not |
| Guarantees.FailingOperationFindsItsRow | internal/operations/engine.go:704-734 | the phase write whose error the failing operation swallows never misses a live row |
| Guarantees.TombstoneLeavesOperationIff | internal/app/service.go:312-326 | the direct tombstone leaves an active operation behind exactly when the row was still being created |
| Guarantees.TombstoneCanLeaveOperation | internal/app/service.go:312-326 | a two-step run in which it does |
| Guarantees.OnlyCreatesFreeze | internal/operations/engine.go:566-601 | an operation in the uncertain state is a create |
| Guarantees.DoomedForever | internal/phase/phase.go:46-72 | a row that is deleting, failed or tombstoned never serves again in any later state |
| Guarantees.OnlyLegalMoves | internal/phase/phase.go:46-72 | every step of every actor moves a live row along an edge of the transition table, although the row write does not consult it |
| Guarantees.OrphanGate | internal/reconcile/discovery.go:321-371 | a tombstone of the sweep only falls on an unleased, unheld orphan that no sweep sighted within the grace period and whose machine a direct get of this sweep did not find |
| Guarantees.RunOpEdges | internal/operations/engine.go:202-266 | over a run the attempt column counts the dispatches exactly, and each state change of a park operation spends a lexicographic budget |
| Guarantees.ParkOpsAreBounded | internal/operations/engine.go:193-210 | a stop or start reaches the provider at most eight times and changes state finitely often, whatever fails and however often the process restarts |
| Guarantees.EngineOpEdge | internal/operations/engine.go:157-187 | what one engine step may do to any operation: identity kept, terminal states final, attempts counted, park states in cycle order |
| Runs.RunIsSound | internal/storage/sqlite/store.go:49-62 | every reachable world keeps the global invariant, the sweep's snapshot facts and the sighting clocks |
| Runs.StepKeepsSound | internal/storage/sqlite/store.go:49-62 | one step of any actor, a tick or a crash keeps them |
| Runs.SweepKeepsInv | internal/reconcile/discovery.go:114-184 | the sweep's writes from a stale snapshot keep the invariant |
| Runs.StepKeepsSnapshot | internal/reconcile/discovery.go:114-184 | no other actor undoes what the snapshot said of an unsighted orphan or of a row without an open operation |
| Runs.ArmingHolds | internal/reconcile/discovery.go:125-152 | reading the operations after the rows is enough to shield rows still being created |
| Runs.StepKeepsSightings | internal/reconcile/discovery.go:186-210 | a sighting bumps the row's clock and nothing sets it back |
| Runs.StepMovesLegally | internal/storage/sqlite/resources.go:182-213 | every step moves every row legally, keeps tombstones, and outside the sweep keeps orphans |
| Runs.EngineMovesLegally | internal/operations/engine.go:391-522 | the engine's phase writes follow the table |
| Runs.FleetMovesLegally | internal/app/queries.go:28-112 | the operator's and the reconciler's phase writes follow the table |
| Runs.SweepMovesLegally | internal/reconcile/discovery.go:186-210 | the sweep's phase writes follow the table |
| Allocation.NeverOverAllocated | internal/scheduler/scheduler.go:514-592 | over every run whose reports do not lower capacity under leases, active leases fit the machine on every tracked dimension and an exclusive lease is alone |
| Allocation.ReserveAllocates | internal/scheduler/scheduler.go:514-592 | a reservation keeps the fleet well allocated |
| Allocation.EndLeaseAllocates | internal/lease/manager.go:138-156 | ending a lease keeps the fleet well allocated |
| Allocation.ReaggregationFires | internal/scheduler/scheduler.go:564-573 | the check after the insert fires exactly when a dimension that was not requested was over-allocated before, so it is unreachable in an allocated fleet |
| Allocation.StepAllocatesIff | internal/storage/sqlite/resources.go:224-229 | every step of every actor keeps the fleet well allocated exactly when the capacity it writes over a row, if any, covers the leases of that row |
| Allocation.RunAllocatesIff | internal/storage/sqlite/resources.go:224-229 | over every run the fleet is well allocated at every moment exactly when every report covers the leases of its row |
| Allocation.OthersKeepCapacities | internal/operations/engine.go:391-522 | the only writers of capacity are sightings and confirmed creates and starts |
| Allocation.CoveredRow | internal/storage/sqlite/resources.go:224-229 | a new capacity on one row keeps the fleet well allocated exactly when it covers the row's leases |
| Allocation.SightingCanOverallocate | internal/reconcile/discovery.go:186-210 | a run from boot in which a sighting over-allocates a leased machine |
| Allocation.StartCanOverallocate | internal/operations/engine.go:487-522 | a run from boot in which a machine parked with its lease is started and its start over-allocates it |
| Allocation.LeasedOfEnded | internal/storage/sqlite/leases.go:72-88 | ending a lease returns exactly the capacity it held |
| ExactlyOnce.OneEffectPerKey | internal/storage/sqlite/idempotency.go:18-86 | two side effects of one key need a collection after the first one's retention |
| ExactlyOnce.OneEffectEver | internal/storage/sqlite/idempotency.go:18-42 | where nothing collects, as deployed, a key has at most one side effect ever |
| ExactlyOnce.LaterRequestsReplay | internal/app/service.go:172-205 | a later request with the same hash returns the stored bytes, one with another hash is refused, and both change nothing |
| ExactlyOnce.RepliesAreEarned | internal/app/service.go:172-205 | a replay repeats the reply of an effect of the same key and request, and a mismatch means an effect of the same key for another request |
| ExactlyOnce.FreshRequestTakesEffect | internal/app/service.go:172-205 | a request with a free key has its effect on rows and operations exactly when it passes its gates, and a refused one changes nothing and keeps its key free |
| ExactlyOnce.NeverInFlight | internal/storage/sqlite/idempotency.go:34-42 | no in-progress record is ever committed, so the in-flight answer is unreachable |
| Invariants.JournalCreateKeeps | internal/provision/provision.go:113-125 | a row journaled with its create keeps the invariant |
| Invariants.JournalPhaseOpKeeps | internal/provision/park.go:68-101 | a phase move journaled with its operation keeps the invariant |
| Invariants.DeleteKeeps | internal/reconcile/reconcile.go:771-811 | the gated delete keeps the invariant in both forms |
| Invariants.TombstoneKeeps | internal/storage/sqlite/resources.go:242-246 | a tombstone is safe on an unleased row outside the shields or without a machine |
| Invariants.MovePhaseKeeps | internal/storage/sqlite/resources.go:182-213 | a bare phase move between unshielded phases keeps the invariant |
| Invariants.DispatchKeeps | internal/operations/engine.go:202-266 | the dispatch marker keeps the invariant, including the bound on park attempts |
| Invariants.SucceedDeleteKeeps | internal/operations/engine.go:427-449 | the ungated tombstone of a confirmed delete only meets a deleting row without leases |
| Invariants.FailOpPhasesKeeps | internal/operations/engine.go:704-734 | a failing operation keeps the invariant and its live row is where it put it |
| Invariants.ApplyFailedKeeps | internal/operations/engine.go:268-317 | every reaction to a failed mutation keeps the invariant |
| Invariants.PolledKeeps | internal/operations/engine.go:321-389 | every reaction to an observation keeps the invariant |
| Invariants.VerifiedKeeps | internal/operations/engine.go:559-649 | every outcome of a verification keeps the invariant |
| Invariants.ResolveKeeps | internal/app/resolve.go:19-67 | the operator's thaw and failure mark keep the invariant |
| Invariants.ReserveKeeps | internal/scheduler/scheduler.go:514-592 | a reservation keeps phases, leases and acquisitions coupled |
| Invariants.EndLeaseKeeps | internal/lease/manager.go:138-156 | ending a lease keeps them coupled, whichever lease it is |
| Invariants.StartParkedKeeps | internal/scheduler/scheduler.go:147-207 | starting a parked machine for an acquisition keeps the invariant |
| Invariants.ScaleOnDemandKeeps | internal/scheduler/scheduler.go:597-629 | scaling on demand keeps the invariant |
| Invariants.RePendKeeps | internal/scheduler/scheduler.go:686-693 | returning an acquisition to the queue keeps the invariant |
| Invariants.MintKeeps | internal/reconcile/discovery.go:276-313 | a minted record keeps the invariant |
| Invariants.RefreshKeeps | internal/reconcile/discovery.go:186-210 | a sighting keeps the invariant even when it revives a leased orphan |
| Operations.Engine.BeginDispatch | internal/operations/engine.go:202-266 | the marker transaction: sent exactly when a driver is configured and the attempts are not used up, otherwise the operation fails |
| Operations.Engine.Accept | internal/operations/engine.go:236-266 | the reference is attached to the operation and, for a create, to the row, or everything is rolled back |
| Operations.Engine.HandleApplyError | internal/operations/engine.go:268-317 | the new fleet after each error class, effect and operation kind |
| Operations.Engine.Poll | internal/operations/engine.go:321-389 | the new fleet after each observation, readiness outcome and operation kind |
| Operations.Engine.Verify | internal/operations/engine.go:559-649 | the new fleet after each lookup, deadline and operation kind |
| Operations.Engine.Resume | internal/operations/engine.go:102-129 | exactly the in-flight operations go to verification and nothing else changes |
| Operations.Engine.Confirm | internal/operations/engine.go:391-425 | a confirmed create, stop or start moves operation and row together or not at all |
| Operations.Engine.ConfirmDelete | internal/operations/engine.go:427-449 | a confirmed delete tombstones the row and closes the operation together or not at all |
| Operations.Engine.FailPhases | internal/operations/engine.go:704-734 | the operation fails, and the row follows when it is still where the operation put it |
| Provision.Create | internal/provision/provision.go:113-125 | succeeds exactly when row and operation are new and the row is free, and writes both |
| Provision.Stop | internal/provision/park.go:29-49 | succeeds exactly for a ready, managed, parkable, unleased machine, unprotected where asked |
| Provision.Start | internal/provision/park.go:54-66 | succeeds exactly for a parked, managed, parkable machine |
| Storage.Store.CASPhase | internal/storage/sqlite/resources.go:182-213 | the compare-and-swap on a live row, with its side columns |
| Storage.Store.SetExternalRef | internal/storage/sqlite/resources.go:219-222 | the machine of a live row is unique |
| Storage.Store.AppendOp | internal/storage/sqlite/operations.go:18-41 | an operation is appended exactly when it is journaled, new, and the row has no active one |
| Storage.Store.TransitionOp | internal/storage/sqlite/operations.go:49-82 | the journal compare-and-swap |
| Storage.Store.SumActive | internal/storage/sqlite/leases.go:72-88 | the sum of the active leases on every dimension, and whether one is exclusive |
| Storage.Store.Bind | internal/storage/sqlite/leases.go:170-182 | only a pending or provisioning acquisition is bound, and its pending machine is cleared |
| Scheduling.Scheduler.Reserve | internal/scheduler/scheduler.go:514-592 | succeeds exactly when the machine is eligible, has room, and exclusivity allows it; otherwise nothing changes |
| Scheduling.Scheduler.StartParked | internal/scheduler/scheduler.go:147-207 | start operation and pre-bound acquisition are written together or not at all |
| Scheduling.Scheduler.ScaleOnDemand | internal/scheduler/scheduler.go:597-629 | row, create operation and pre-bound acquisition are written together or not at all |
| Scheduling.Scheduler.ResolvePending | internal/scheduler/scheduler.go:658-683 | a finished pre-bound operation binds its acquisition exactly when the reservation is granted, returns it to the queue with nothing attached after a failed start, or fails it |
| Scheduling.Scheduler.Satisfy | internal/scheduler/scheduler.go:79-140 | which rung satisfied the acquisition; a parked machine is started only when none of the first three ranked ones could be reserved, and it is queued, scaled or refused only when none of the first three parked ones could be started either |
| Leasing.Manager.EndLeaseLocked | internal/lease/manager.go:138-156 | the machine is stamped, and is ready again exactly when its last active lease ended |
| Leasing.Manager.Release | internal/lease/manager.go:38-71 | a release ends exactly an active lease |
| Leasing.Manager.ReleaseAcquisition | internal/lease/manager.go:75-96 | a bound acquisition releases its lease, a waiting one is withdrawn |
| Leasing.Manager.SweepExpired | internal/lease/manager.go:99-134 | only overdue leases expire and nothing else about the leases changes, the count is theirs, and below the batch limit none is left overdue |
| Leasing.ActiveLeaseCanEnd | internal/lease/manager.go:138-156 | in a sound fleet ending an active lease never fails |
| Idempotency.IdempotencyStore.Begin | internal/storage/sqlite/idempotency.go:18-42 | a free key is claimed; a taken one says how its record relates to the request |
| Idempotency.IdempotencyStore.Finish | internal/storage/sqlite/idempotency.go:55-69 | only an in-progress record is finished |
| Idempotency.IdempotencyStore.GC | internal/storage/sqlite/idempotency.go:73-86 | only expired records of settled operations go, all of them when the limit allows |
| Service.Service.Execute | internal/app/service.go:172-205 | effect, record and reply commit together or not at all |
| Service.Service.DeleteBody | internal/app/service.go:258-379 | a delete is admitted exactly past ownership, protection and lease gates, and in a deletable phase when there is a machine |
| Service.Service.DrainResource | internal/app/queries.go:28-49 | drains exactly ready and allocated rows |
| Service.Service.UndrainResource | internal/app/queries.go:57-81 | undrains exactly draining rows |
| Service.Service.SetResourceProtected | internal/app/queries.go:87-112 | changes the flag exactly when it differs |
| Service.Service.ParkResource | internal/app/park.go:23-41 | the operator's park bypasses protection and nothing else |
| Service.Service.StartResource | internal/app/park.go:44-62 | starts exactly parked, managed, parkable machines |
| Service.Service.ResolveOperation | internal/app/resolve.go:19-67 | thaws or fails exactly uncertain operations |
| Reconcile.Reconciler.DeleteInTx | internal/reconcile/reconcile.go:771-811 | succeeds exactly past every gate, with the tombstone or the journaled delete |
| Reconcile.Reconciler.JournalDelete | internal/reconcile/reconcile.go:755-766 | deletes exactly draining or failed rows past every gate |
| Reconcile.Reconciler.CostReclaim | internal/reconcile/reconcile.go:442-493 | deletes from ready or parked exactly when the other ready machines can absorb the queued work |
| Reconcile.Reconciler.CountQueued | internal/reconcile/reconcile.go:452-471 | the number of queued acquisitions the machine could host |
| Reconcile.Reconciler.CountSpares | internal/reconcile/reconcile.go:472-490 | the number of other ready machines of its class |
| Discovery.Sweeper.RefreshObserved | internal/reconcile/discovery.go:186-210 | facts and revival of a sighted row are written together or not at all |
| Discovery.Sweeper.ResolveOwnedUnmatched | internal/reconcile/discovery.go:213-244 | left alone while a create may claim the machine; otherwise recorded on a new row, under a delete exactly when policy deletes ghosts, its create failed or succeeded with another machine, and it was not found stopped |
| Discovery.Sweeper.HandleGhost | internal/reconcile/discovery.go:246-262 | a ghost is recorded when no live row owns its machine, and by policy drained and journaled for deletion; the new fleet exactly |
| Discovery.GhostFate | internal/reconcile/discovery.go:246-262 | a ghost to be deleted ends under a journaled delete of exactly its machine, except one found stopped on a parkable class, which stays parked |
| Discovery.Sweeper.JudgeUnmatched | internal/reconcile/discovery.go:213-244 | the verdict on an owned machine without a row |
| Discovery.ResolvedAs | internal/reconcile/discovery.go:213-244 | the verdict acts as the journal's evidence says, on rows and operations alone |
| Discovery.OneMore | internal/reconcile/discovery.go:148-172 | over the listing, every machine to be recorded ends on its own row under the right operation, and no other row or operation is added |
| Discovery.Sweeper.MintRecord | internal/reconcile/discovery.go:276-313 | minted exactly when no live row owns the machine; a stopped parkable machine is minted parked |
| Discovery.Sweeper.ConfirmOrphan | internal/reconcile/discovery.go:321-371 | orphaned or buried only when a direct get said not found |
| Discovery.Sweeper.SweepKind | internal/reconcile/discovery.go:114-184 | a live row is buried exactly when it was an unleased, unheld orphan outside its grace, unlisted and confirmed gone; rows neither listed nor confirmed gone are untouched; every listed machine ends recorded unless a create is under way for it or policy leaves it alone; a delete is journaled exactly for the recorded machines whose create failed or succeeded with another machine, by policy, unless found stopped, and every other owned one ends managed and ready or parked with no operation |
| Discovery.Sweeper.SightPass | internal/reconcile/discovery.go:148-172 | after the listing every listed machine is recorded, under a delete exactly on the journal's evidence and the ghost policy; rows of unlisted machines, operations and leases are as before and no other row or operation is added |
| PoolRun.RunOnce | internal/reconcile/reconcile.go:509-718 | one cycle keeps the invariant, accounts for every row and moves none twice, stays within budget, caps and floors, and keeps the powered floor in a pool at or under its size; when nothing blocks the loops that run, it is exactly the closed form, deletes the longest parked, drains the longest idle, and parks below the powered floor exactly in the pools that say so beforehand; only rows of the pool change, new ones are blank rows of its class, and only machines that became ready and ended all their leases as long ago as the policy asks are drained or parked, the longest rested first |
| PoolRun.CandidatesAreRested | internal/reconcile/reconcile.go:822-850 | the candidates of draining and parking are exactly the ready, unprotected machines that became ready and ended every lease as long ago as the policy asks |
| PoolRun.CycleDrainsTheRested | internal/reconcile/reconcile.go:646-712 | a cycle drains and parks only such machines, and undisturbed it drains those that rested longest |
| PoolRun.TakeRoll | internal/reconcile/reconcile.go:530-550 | the listing by phase: the unprotected ready machines idle beyond the policy, longest idle first, and the parked ones, longest parked first |
| PoolRun.Grow | internal/reconcile/reconcile.go:549-612 | undrain, warm-up and scale-up: which rows moved and exactly how many |
| PoolRun.Shrink | internal/reconcile/reconcile.go:614-712 | scale-down, drain pipeline, failed cleanup and parking: which rows moved and exactly how many |
| PoolRun.NoRowMovesTwice | internal/reconcile/reconcile.go:549-712 | every moved row was where its loop looks and ends where that loop put it: nothing undrained or started is deleted in the same cycle, nothing drained is parked, despite the stale listing |
| PoolRun.CycleCounts | internal/reconcile/reconcile.go:549-712 | the census after the cycle follows from its counters |
| PoolRun.HalvesBounded | internal/reconcile/reconcile.go:549-712 | the counters are bounded by the budget, the deficit, the surplus, the cap and the floors |
| PoolRun.HalvesPlan | internal/reconcile/reconcile.go:549-712 | when nothing blocks the loops that run, the counters are the closed form, whatever the state of the rows the other loops would touch |
| PoolRun.CycleApproachesTarget | internal/reconcile/reconcile.go:549-687 | an undisturbed cycle of a quiet pool leaves a fleet whose settled census is closer to the target by at least its mutations, and decides nothing exactly at the target |
| PoolRun.RoundApproaches | internal/reconcile/reconcile.go:549-687 | a round, one such cycle and the completion of its operations, brings a pool away from its target closer by at least one |
| PoolRun.FleetConverges | internal/reconcile/reconcile.go:507-509 | after as many rounds as its distance a fleet's pool has exactly its replicas ready and nothing draining or failed |
| PoolCycle.Cycle.UndrainPass | internal/reconcile/reconcile.go:552-564 | undrains as many rows as deficit and budget allow |
| PoolCycle.Cycle.WarmUpPass | internal/reconcile/reconcile.go:566-587 | starts parked machines below the powered floor, all it may when none is blocked |
| PoolCycle.Cycle.CreatePass | internal/reconcile/reconcile.go:589-612 | creates as many fresh rows as the limit and the provider allow |
| PoolCycle.Cycle.ShedParkedPass | internal/reconcile/reconcile.go:614-645 | surplus consumes the parked tier first |
| PoolCycle.Cycle.DrainPass | internal/reconcile/reconcile.go:646-664 | drains only unleased candidates above the ready floor |
| PoolCycle.Cycle.CleanUpPass | internal/reconcile/reconcile.go:666-685 | deletes draining or failed rows of the listing that are still in that phase |
| PoolCycle.Cycle.ParkPass | internal/reconcile/reconcile.go:686-712 | parks candidates above both floors until one cannot be parked |
| PoolBoard.Reclaimable | internal/reconcile/reconcile.go:822-850 | exactly the unprotected machines idle beyond the policy, longest idle first |
| PoolBoard.IdleIffRested | internal/reconcile/reconcile.go:851-862 | when the idle clock is true, idle for so long means that the machine became ready and ended all its leases so long ago |
| PoolBoard.SortByKey | internal/reconcile/reconcile.go:843-848 | the insertion sort permutes and orders |
| PoolPlan.PlanIsTheGreedyOne | internal/reconcile/reconcile.go:549-712 | the closed form is the only outcome that keeps the budget, caps and floors and in which every loop goes on until its purpose is reached, its rows run out, or it and the loops before it used up the budget |
| PoolPlan.PlanIsBounded | internal/reconcile/reconcile.go:549-712 | the closed form respects budget, cap and floors |
| PoolPlan.CycleKeepsTheCaps | internal/reconcile/reconcile.go:589-612 | a cycle never grows past the cap, never drops the ready floor by draining or parking, and never overshoots the replicas from either side |
| PoolPlan.ParkingFloorIff | internal/reconcile/reconcile.go:686-712 | an unhindered cycle parks below the powered floor exactly when, by spec, census and budget beforehand, both the drain and the park loop take machines and together more than the pool has above the floor |
| PoolPlan.NoSurplusKeepsTheFloor | internal/reconcile/reconcile.go:646-712 | a pool at or under its size drains nothing and keeps the powered floor when it parks, whatever blocks the other loops |
| PoolPlan.WarmSurplusPlan | internal/reconcile/reconcile.go:614-712 | above its size and its powered floor a pool undrains, starts and creates nothing, and what it deletes, drains and parks has a closed form |
| PoolPlan.ParkingFloorCanBreak | internal/reconcile/reconcile.go:646-712 | a pool whose cycle drains and parks below the powered floor |
| PoolPlan.CycleConverges | internal/reconcile/reconcile.go:549-687 | on the census: each cycle shortens the distance to the target by at least its mutations, makes one while there is distance, and none at the target |
| PoolPlan.PoolConverges | internal/reconcile/reconcile.go:507-509 | on the census: repeated cycles reach exactly the replicas with nothing draining or failed, within as many cycles as the distance |
| Reclaim.ReclaimPoolless | internal/reconcile/reconcile.go:231-341 | a machine goes only when due inside its billing window and only when every queued acquisition it could serve keeps another machine, which stays untouched; a due machine past its gates does go unless its budget is used up, an acquisition keeps it, or queued work outnumbers the other ready machines; the two budgets bound the sweep; an idle class is judged by the ends of the leases themselves, and each machine that goes ends parking, deleting or tombstoned as its class and its machine ask |
| Reclaim.Consider | internal/reconcile/reconcile.go:252-338 | one machine goes exactly when it is due, its budget is not used up, its gates pass and no unmatched queued acquisition could use it |
| Reclaim.JustifiedIffMayGo | internal/reconcile/reconcile.go:252-338 | when the idle clocks are true, due means: drained, parked for long, or ready, all leases ended long ago, and in the first half of the buffer before the next rise |
| Reclaim.WentRight | internal/reconcile/reconcile.go:231-341 | the sweep takes only machines that may go in those terms, and one that may go and stays has its excuse |
| Reclaim.WindowIsLastStretch | internal/reconcile/reconcile.go:296-321 | the decision window is the first half of the buffer before the next instant the amount paid rises |
| Reclaim.BlockedIffOutnumbered | internal/reconcile/reconcile.go:442-493 | a cost delete is blocked exactly when the queued acquisitions it could serve outnumber the other ready machines of its class |
| Reclaim.QueueBlocksOn | internal/reconcile/reconcile.go:442-493 | the sweep makes no machine ready, so queued work that blocks a machine at its turn still blocks it at the end |
| Reclaim.ClaimQueued | internal/reconcile/reconcile.go:372-385 | claims for an unmatched queued acquisition the machine can serve, and finds none only if all such are matched |
| Reclaim.Queued | internal/reconcile/reconcile.go:350-367 | exactly the pending acquisitions inside their deadline |
| Reclaim.WindowOpen | internal/reconcile/reconcile.go:296-321 | true exactly inside the termination window of the next boundary, or without a boundary |
| Billing.PaidIsLeast | internal/billing/billing.go:20-39 | the amount is the least that covers lifetime and minimum in whole increments, at least one |
| Billing.PaidGrows | internal/billing/billing.go:20-39 | living longer never costs less |
| Billing.NextBoundary | internal/billing/billing.go:45-69 | the least instant after now at which the amount rises; none exactly without an increment and with the minimum used up |
| Billing.RisesAtMultiples | internal/billing/billing.go:52-66 | under an increment the amount rises exactly at its multiples that reach past the minimum |
| Billing.FallbackComesLate | internal/billing/billing.go:60-63 | the search's bail-out is never taken before a real rise |
| Billing.TerminationWindow | internal/billing/billing.go:97-110 | the window starts a buffer before the next rise; a cutoff within the buffer is kept and any other is half the buffer |
| Billing.WindowHitIff | internal/billing/billing.go:71-81 | a window is hit by every periodic sweep exactly when it is at least an interval wide |
| Billing.EffectiveBuffer | internal/billing/billing.go:71-81 | the least buffer at or above both the policy's own and the kernel floor of two sweep intervals and five seconds |
| Billing.SweepCannotMissIff | internal/billing/billing.go:71-131 | for any buffer up to the increment and any cutoff, every periodic sweep decides to terminate for the boundary exactly when the window is at least an interval wide |
| Billing.SweepCannotMiss | internal/reconcile/reconcile.go:405-430 | any buffer at or above the kernel floor, learned or static, with a cutoff in its later half, makes every periodic sweep terminate for the boundary |
| Billing.DecidedIsHit | internal/billing/billing.go:97-131 | every tick inside the window targets its boundary, so a sweep decides exactly when it hits the window |
| Billing.TerminateIsFree | internal/billing/billing.go:97-131 | a delete confirmed within the cutoff of a terminate decision is billed what it would have been at the decision |
| Billing.ConfirmedBeforeBoundary | internal/billing/billing.go:83-95 | before the boundary the bill changes exactly when it was about to rise at the decision itself |
| Billing.BufferUnderIncrement | internal/billing/billing.go:71-81 | a buffer of at most an increment leaves no earlier rise inside the window |
| Billing.RisesApart | internal/billing/billing.go:52-66 | rises are at least an increment apart |
| Billing.AdaptiveBuffer | internal/billing/billing.go:137-151 | never under the floor nor over the cap, and uncut it leaves room for all but one in twenty of the observed deletes |
| Billing.UsefulMillis | internal/billing/billing.go:159-186 | the number of milliseconds in the union of the spans, for any order and overlap, when no span is inverted |
| Billing.Account | internal/app/cost.go:51-70 | paid time is useful plus idle time without clamping when the leases lie inside the lifetime |
| FakeCloud.DuplicatesReachTheTarget | providers/fake/fake.go:462-501 | however often a stop or start is dispatched, the machine reaches its target exactly when observed as often as the first dispatch made necessary |
| FakeCloud.DuplicatesAreInvisible | providers/fake/fake.go:462-501 | repeated stops or starts leave the same machine as one |
| FakeCloud.DeletedStaysDeleted | providers/fake/fake.go:443-460 | a repeated delete never brings a machine back |
| FakeCloud.VisibleAfterLag | providers/fake/fake.go:297-306 | a live machine is listed exactly after as many listings as its lag |
| FakeCloud.Fake.Create | providers/fake/fake.go:408-441 | a create that already made a live machine returns it and changes nothing; any other makes exactly one |
| FakeCloud.Fake.Tell | providers/fake/fake.go:443-501 | stop, start and delete per state, capability and presence |
| FakeCloud.Fake.Observe | providers/fake/fake.go:511-563 | one observation is one step; a gone machine is not found |
| FakeCloud.Fake.Get | providers/fake/fake.go:328-340 | a direct get finds exactly the machines that some later listing would name, whatever their lag |
| FakeCloud.Fake.Discover | providers/fake/fake.go:286-326 | a listing ages every machine and names at most one live machine per create operation |
| GcpLabels.RoundTripIff | providers/gcp/labels.go:96-126 | decoding undoes encoding for reserved keys exactly when every value is short and canonical for its key |
| GcpLabels.ValueRoundTripIff | providers/gcp/labels.go:71-73 | the same for one value |
| GcpLabels.LowercasePayloadIsLost | providers/gcp/labels.go:116-123 | a value that does not come back |
| GcpLabels.SanitizeRunes | providers/gcp/labels.go:75-86 | the loop yields only legal characters, position by position |
| GcpLabels.EncodeLabels | providers/gcp/labels.go:96-105 | every label is encoded, and every raw label comes from one |
| GcpLabels.DecodeLabels | providers/gcp/labels.go:111-126 | every raw label is decoded under its long key, unknown ones verbatim |
| DoTags.RoundTripIff | providers/digitalocean/tags.go:64-93 | in any order and among foreign tags, decoding undoes encoding exactly for reserved keys with tag-legal values |
| DoTags.RoundTripValues | providers/digitalocean/tags.go:75-93 | what any tag list carrying the labels decodes to |
| DoTags.EncodeTags | providers/digitalocean/tags.go:64-72 | the tags are exactly the encodings of the reserved labels |
| DoTags.DecodeTags | providers/digitalocean/tags.go:75-93 | the loop decodes tag by tag, later ones winning |

## Left out

- Kinds and provider instances: one kind on one provider; a class name stands for the machine template.
- Events, JSON payloads, logging and metrics: they carry no state the model needs.
- ULIDs: identities are natural numbers, fresh when minted; a lease is named by its position in the append-only table.
- Pacing: next-attempt times, backoff, start-failure backoff and the order in which due operations are driven; any runnable operation may be driven at any time, which is more than the engine does.
- The free-capacity score of the candidate ranking.
- The maxWait clamp of an acquire request, constraint parsing and capacity parsing: an acquisition carries its parsed request.
- Readiness probing: the gate's three outcomes are inputs.
- Integer widths and durations below a millisecond: all times are whole milliseconds without bound.
- Capacities and requests are natural numbers; negative ones do not occur in the model.
- PoolRun.RunOnce: other actors' transactions between those of one cycle; they are covered step by step in `runs.dfy`, and each write of the cycle re-checks its row.
- Discovery.Sweeper.SweepKind: other actors' transactions between those of one sweep; the sweep of `runs.dfy` is interleaved with every other actor.
- Reclaim.ReclaimPoolless: other actors' transactions between those of one sweep, as above.
- Scheduling.Scheduler.Satisfy: the candidate lists and the wait estimate are inputs, because ranking and estimation only choose among steps that re-check everything.
- Clocks: transactions read clocks in the order they commit, except the deadline check of a verification, which uses an earlier reading as the program does.
- A driver that gains or loses listing by label between restarts: `cloud.dfy` takes that capability as fixed.
- The provider's honesty: `cloud.dfy` assumes that an error claiming no effect is true, that a create lands before its deadline or never, that listings are complete from the deadline on, that it says the machine of a delete is gone only when it is, and that it never gives a new machine the identity of one it reported gone.
- The adaptive buffer's sampling and one-minute cache: the buffer is an input of the cost sweep and of `Billing.SweepCannotMiss`.
- Preparing a create inside a pool cycle: how many machines the providers would prepare is an input.
- Pool definitions, pausing through the API, classes and health tracking: plain record keeping.
- The other cloud drivers, the HTTP API, authentication, the command line and the web interface.
- Billing.UsefulMillis: for spans that end before they start only non-negativity is stated, because the program's result is then not a length of time.
- GcpLabels.EncodeLabels: which label wins when two foreign keys encode alike is left open, as map iteration leaves it open.
