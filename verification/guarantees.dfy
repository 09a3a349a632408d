/** What the control plane promises over every run: any actors, in any order, with crashes anywhere. */
module Guarantees {
  import opened Basics
  import opened Phases
  import opened Storage
  import opened ProviderErrors
  import opened Transactions
  import opened Invariants
  import opened Runs

  ghost predicate HeldBy(db: Fleet, id: ResourceId, kind: OpKind) {
    exists o :: ActiveOp(db.operations, o) && db.operations[o].resource == id && db.operations[o].kind == kind
  }

  /** A live row is in creation, deletion, parking or starting exactly while an operation of that kind is active on it,
      and two active operations never share a row. */
  lemma PhaseSaysOperation(clock: int, steps: seq<Step>, id: ResourceId, kind: OpKind)
    ensures var db := Run(Boot(clock), steps).db;
            && (Live(db.resources, id) ==> (db.resources[id].phase == ShieldOf(kind) <==> HeldBy(db, id, kind)))
            && OneActiveOp(db.operations)
  {
    BootIsSound(clock);
    RunIsSound(Boot(clock), steps);
    var db := Run(Boot(clock), steps).db;
    if InPhase(db.resources, id, ShieldOf(kind)) {
      var o := Holder(db.operations, id);
      assert OpHolds(db.resources, db.operations[o]);
    }
    if o :| ActiveOp(db.operations, o) && db.operations[o].resource == id && db.operations[o].kind == kind {
      assert OpHolds(db.resources, db.operations[o]);
    }
  }

  /** A leased machine is alive, is not being deleted or parked, and no delete or stop operation is active on it. */
  lemma LeasedNeverReclaimed(clock: int, steps: seq<Step>, l: LeaseId)
    requires var db := Run(Boot(clock), steps).db; l < |db.leases| && db.leases[l].state.LeaseActive?
    ensures var db := Run(Boot(clock), steps).db;
            var id := db.leases[l].resource;
            && Live(db.resources, id)
            && !db.resources[id].phase.Deleting? && !db.resources[id].phase.Parking?
            && !HeldBy(db, id, OpKindDelete) && !HeldBy(db, id, OpKindStop)
  {
    BootIsSound(clock);
    RunIsSound(Boot(clock), steps);
    var db := Run(Boot(clock), steps).db;
    var id := db.leases[l].resource;
    assert LeaseGuarded(db.resources, db.leases[l]);
    PhaseSaysOperation(clock, steps, id, OpKindDelete);
    PhaseSaysOperation(clock, steps, id, OpKindStop);
  }

  /** Active leases and bound acquisitions correspond one to one; in particular a withdrawn, failed, expired or waiting
      acquisition holds no active lease, whatever its pre-bound operation did in the meantime. */
  lemma LeasesAreBoundAcquisitions(clock: int, steps: seq<Step>, l: LeaseId, a: AcquisitionId)
    ensures var db := Run(Boot(clock), steps).db;
            (l < |db.leases| && db.leases[l].state.LeaseActive? && db.leases[l].acquisition == a)
            <==> (a in db.acquisitions && db.acquisitions[a].state.AcqBound? && db.acquisitions[a].lease == Some(l))
    ensures var db := Run(Boot(clock), steps).db;
            a in db.acquisitions ==>
              && (db.acquisitions[a].state.AcqProvisioning? ==> db.acquisitions[a].pendingResource.Some?)
              && (db.acquisitions[a].state in {AcqPending, AcqBound} ==> db.acquisitions[a].pendingResource.None?)
  {
    BootIsSound(clock);
    RunIsSound(Boot(clock), steps);
    var db := Run(Boot(clock), steps).db;
    assert l < |db.leases| && db.leases[l].state.LeaseActive? ==> BoundIs(db.acquisitions, db.leases[l].acquisition, l);
    assert a in db.acquisitions ==> AcqShape(db.leases, a, db.acquisitions[a]);
  }

  /** The phase write that a failing operation swallows errors from never misses a live row. */
  lemma FailingOperationFindsItsRow(clock: int, steps: seq<Step>, op: OperationId)
    requires ActiveOp(Run(Boot(clock), steps).db.operations, op)
    ensures var db := Run(Boot(clock), steps).db;
            var o := db.operations[op];
            Live(db.resources, o.resource) ==> InPhase(db.resources, o.resource, ShieldOf(o.kind))
  {
    BootIsSound(clock);
    RunIsSound(Boot(clock), steps);
    var db := Run(Boot(clock), steps).db;
    assert OpHolds(db.resources, db.operations[op]);
  }

  /** The direct tombstone of a row without a machine leaves an active operation behind exactly when the row was still
      being created. */
  lemma TombstoneLeavesOperationIff(db: Fleet, id: ResourceId, op: OperationId, now: int)
    requires Inv(db) && CanDelete(db, id, op) && db.resources[id].externalId.None?
    ensures var db' := DeleteResource(db, id, op, now);
            !Live(db'.resources, id) && (!OpFree(db'.operations, id) <==> db.resources[id].phase.Provisioning?)
  {
    var db' := DeleteResource(db, id, op, now);
    assert db'.operations == db.operations && db'.resources[id] == Tombstoned(db.resources[id], now);
    if !OpFree(db.operations, id) {
      var o := Holder(db.operations, id);
      assert OpHolds(db.resources, db.operations[o]);
    }
  }

  /** It does happen: create, then delete before the create was dispatched. */
  lemma TombstoneCanLeaveOperation(clock: int)
    ensures var db := Run(Boot(clock), [Manage(Create(0, 0, "", None, false)), Manage(ApiDelete(0, 1))]).db;
            !Live(db.resources, 0) && ActiveOp(db.operations, 0) && db.operations[0].resource == 0
  {
    var create, delete := Manage(Create(0, 0, "", None, false)), Manage(ApiDelete(0, 1));
    var steps := [create, delete];
    assert steps[..1] == [create] && [create][..0] == [];
    assert Run(Boot(clock), []) == Boot(clock);
    var w := Next(Boot(clock), create);
    assert Run(Boot(clock), [create]) == w;
    assert 0 in w.db.resources && w.db.resources[0].externalId.None?;
  }

  /** Only creates freeze: an operation whose outcome was given up on is a create, so no other kind waits for an operator. */
  lemma OnlyCreatesFreeze(clock: int, steps: seq<Step>, op: OperationId)
    requires OpIn(Run(Boot(clock), steps).db, op, OpUncertain)
    ensures Run(Boot(clock), steps).db.operations[op].kind.OpKindCreate?
  {
    BootIsSound(clock);
    RunIsSound(Boot(clock), steps);
    assert OpBounded(Run(Boot(clock), steps).db.operations[op]);
  }

  // ---- Rows over time ----

  /** Once a row is being deleted or has failed it never serves again: it stays on its way out until its tombstone. */
  lemma {:induction false} DoomedForever(w: World, steps: seq<Step>, id: ResourceId)
    requires id in w.db.resources && (w.db.resources[id].deletedAt.Some? || Doomed(w.db.resources[id].phase))
    ensures var rows := Run(w, steps).db.resources;
            id in rows && (rows[id].deletedAt.Some? || Doomed(rows[id].phase))
    ensures w.db.resources[id].deletedAt.Some? ==> Run(w, steps).db.resources[id].deletedAt.Some?
  {
    if |steps| > 0 {
      var before := Run(w, steps[..|steps| - 1]);
      DoomedForever(w, steps[..|steps| - 1], id);
      StepMovesLegally(before, steps[|steps| - 1], id);
    }
  }

  /** Every step of every actor moves a live row along the legal table, though the row write itself never consults it. */
  lemma OnlyLegalMoves(clock: int, steps: seq<Step>, s: Step, id: ResourceId)
    ensures LegalMove(Run(Boot(clock), steps).db.resources, Run(Boot(clock), steps + [s]).db.resources, id)
  {
    assert (steps + [s])[..|steps|] == steps;
    StepMovesLegally(Run(Boot(clock), steps), s, id);
  }

  /** The orphan tombstone: only an unleased orphan that no sweep has sighted within the grace window, and whose machine a
      direct get of this sweep did not find, is buried. */
  lemma OrphanGate(clock: int, steps: seq<Step>, id: ResourceId, graceMs: nat)
    requires var w := Run(Boot(clock), steps);
             Live(w.db.resources, id) && !Live(Next(w, Discover(Bury(id, graceMs))).db.resources, id)
    ensures var w := Run(Boot(clock), steps);
            && w.sweep.Armed?
            && w.db.resources[id].phase.Orphaned?
            && Unleased(w.db.leases, id) && OpFree(w.db.operations, id)
            && id !in w.sweep.seen && id in w.sweep.missing
            && (id in w.sightings ==> w.sightings[id] <= w.sweep.at - graceMs)
  {
    BootIsSound(clock);
    RunIsSound(Boot(clock), steps);
    var w := Run(Boot(clock), steps);
    assert TombstoneDue(w.sweep, id, graceMs) && Pending(w.sweep, id);
    assert EntryHolds(w.db.resources, w.sweep, id);
    UnshieldedFree(w.db.resources, w.db.operations, id);
  }

  // ---- Operations over time ----

  /** What one step may do to an existing operation. */
  ghost predicate OpEdge(o: Operation, o': Operation, dispatched: bool) {
    && o'.kind == o.kind && o'.resource == o.resource && o'.target == o.target
    && o'.attempt == o.attempt + (if dispatched then 1 else 0)
    && (dispatched ==> o.state.OpJournaled? && o'.state.OpInFlight?)
    && (o.state.Terminal() ==> o' == o)
    && (ParkOp(o.kind) && o'.state != o.state ==>
          match o.state
          case OpJournaled => o'.state.OpFailed? || dispatched
          case OpInFlight => true
          case OpExternalAccepted => o'.state.Terminal()
          case OpVerifying => o'.state.OpJournaled? || o'.state.OpFailed?
          case _ => false)
  }

  predicate Dispatches(db: Fleet, s: Step, op: OperationId) {
    s.Engine? && s.e.Dispatched? && s.e.op == op && CanDispatch(db, op)
  }

  lemma RefusedOpEdge(db: Fleet, o: OperationId, f: Failure, now: int, op: OperationId)
    requires op in db.operations
    ensures var db' := ApplyFailed(db, o, f, now);
            op in db'.operations && OpEdge(db.operations[op], db'.operations[op], false)
  {
    hide InPhase, Live, Moved, WithFacts, Tombstoned, Classify, Effect, CanFinish, ExternalFree;
  }

  lemma ObservedOpEdge(db: Fleet, o: OperationId, seen: Observation, gate: Gate, now: int, op: OperationId)
    requires op in db.operations
    ensures var db' := Polled(db, o, seen, gate, now);
            op in db'.operations && OpEdge(db.operations[op], db'.operations[op], false)
  {
    hide InPhase, Live, Moved, WithFacts, Tombstoned, Classify, Effect, CanFinish, ExternalFree;
  }

  lemma LookedUpOpEdge(db: Fleet, o: OperationId, labels: bool, found: Lookup, readAt: int, now: int, op: OperationId)
    requires op in db.operations
    ensures var db' := Verified(db, o, labels, found, readAt, now);
            op in db'.operations && OpEdge(db.operations[op], db'.operations[op], false)
  {
    hide InPhase, Live, Moved, WithFacts, Tombstoned, Classify, Effect, CanFinish, ExternalFree;
  }

  lemma EngineOpEdge(db: Fleet, e: EngineStep, now: int, op: OperationId)
    requires Inv(db) && op in db.operations
    ensures var db' := EngineNext(db, e, now);
            op in db'.operations && OpEdge(db.operations[op], db'.operations[op], Dispatches(db, Engine(e), op))
  {
    hide InPhase, Live, Moved, WithFacts, Tombstoned, Classify, Effect, CanFinish, ExternalFree;
    assert OpBounded(db.operations[op]);
    match e
    case Refused(o, f) => RefusedOpEdge(db, o, f, now, op);
    case Observed(o, seen, gate) => ObservedOpEdge(db, o, seen, gate, now, op);
    case LookedUp(o, labels, found, readAt) => LookedUpOpEdge(db, o, labels, found, readAt, now, op);
    case _ =>
  }

  lemma OthersKeepOps(w: World, s: Step, op: OperationId)
    requires !s.Engine? && op in w.db.operations
    ensures op in NextDb(w, s).operations && NextDb(w, s).operations[op] == w.db.operations[op]
  {
    hide InPhase, Live, Moved, WithFacts, Tombstoned, QueueBlocks, DeleteGates, EngineNext;
  }

  lemma EngineAddsNoOps(db: Fleet, e: EngineStep, now: int)
    ensures EngineNext(db, e, now).operations.Keys == db.operations.Keys
  {
    hide InPhase, Live, Moved, WithFacts, Tombstoned, Classify, Effect, CanFinish, ExternalFree, ShieldOf, FailureOf;
  }

  /** A new operation starts journaled. */
  lemma NewOpIsJournaled(w: World, s: Step, op: OperationId)
    requires op !in w.db.operations && op in NextDb(w, s).operations
    ensures OpIn(NextDb(w, s), op, OpJournaled)
  {
    hide InPhase, Live, Moved, WithFacts, Tombstoned, QueueBlocks, DeleteGates, EngineNext;
    if s.Engine? { EngineAddsNoOps(w.db, s.e, w.clock); }
  }

  lemma StepOpEdge(w: World, s: Step, op: OperationId)
    requires Inv(w.db) && op in w.db.operations
    ensures var db' := NextDb(w, s);
            op in db'.operations && OpEdge(w.db.operations[op], db'.operations[op], Dispatches(w.db, s, op))
  {
    if s.Engine? { EngineOpEdge(w.db, s.e, w.clock, op); } else { OthersKeepOps(w, s, op); }
  }

  /** How often a run hands the operation to the provider. */
  function DispatchCount(w: World, steps: seq<Step>, op: OperationId): nat {
    if |steps| == 0 then 0
    else
      DispatchCount(w, steps[..|steps| - 1], op)
      + if Dispatches(Run(w, steps[..|steps| - 1]).db, steps[|steps| - 1], op) then 1 else 0
  }

  /** How often a run changes the operation's state. */
  function ChangeCount(w: World, steps: seq<Step>, op: OperationId): nat {
    if |steps| == 0 then 0
    else
      var before, after := Run(w, steps[..|steps| - 1]).db, Run(w, steps).db;
      ChangeCount(w, steps[..|steps| - 1], op)
      + if op in before.operations && op in after.operations && before.operations[op].state != after.operations[op].state then 1 else 0
  }

  /** What a park operation has left: attempts first, then its place in the cycle. */
  function ParkBudget(o: Operation): int {
    (MAX_PARK_OP_ATTEMPTS - o.attempt) * 6 +
    match o.state
    case OpInFlight => 5
    case OpExternalAccepted => 4
    case OpVerifying => 3
    case OpJournaled => 2
    case _ => 0
  }

  /** The attempt column counts the dispatches exactly, and every change of a park operation spends its budget. */
  lemma {:induction false} RunOpEdges(w: World, steps: seq<Step>, op: OperationId)
    requires Sound(w) && op in w.db.operations
    ensures var db' := Run(w, steps).db;
            && op in db'.operations
            && db'.operations[op].kind == w.db.operations[op].kind
            && db'.operations[op].attempt == w.db.operations[op].attempt + DispatchCount(w, steps, op)
            && (ParkOp(w.db.operations[op].kind) ==>
                  ParkBudget(db'.operations[op]) + ChangeCount(w, steps, op) <= ParkBudget(w.db.operations[op]))
  {
    if |steps| > 0 {
      var prefix, s := steps[..|steps| - 1], steps[|steps| - 1];
      RunOpEdges(w, prefix, op);
      RunIsSound(w, prefix);
      StepOpEdge(Run(w, prefix), s, op);
    }
  }

  /** A stop or start reaches the provider at most eight times and settles after finitely many changes: it can never
      wedge its machine, whatever fails and however often the process restarts. */
  lemma ParkOpsAreBounded(w: World, steps: seq<Step>, op: OperationId)
    requires Sound(w) && op in w.db.operations && ParkOp(w.db.operations[op].kind)
    requires w.db.operations[op].state.OpJournaled? && w.db.operations[op].attempt == 0
    ensures DispatchCount(w, steps, op) <= MAX_PARK_OP_ATTEMPTS
    ensures ChangeCount(w, steps, op) <= 6 * MAX_PARK_OP_ATTEMPTS + 2
  {
    RunOpEdges(w, steps, op);
    RunIsSound(w, steps);
    assert OpBounded(Run(w, steps).db.operations[op]);
  }
}
