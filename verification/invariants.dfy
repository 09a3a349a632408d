/** What every transaction keeps true of the whole fleet. */
module Invariants {
  import opened Basics
  import opened Phases
  import opened Capacity
  import opened Storage
  import opened ProviderErrors
  import opened Transactions

  type Rows = map<ResourceId, Resource>
  type Ops = map<OperationId, Operation>
  type Acqs = map<AcquisitionId, Acquisition>

  // ---- Operations and phases ----

  /** An active operation holds a known resource in the phase of its kind; only a create may outlive its row. */
  ghost predicate OpHolds(rows: Rows, op: Operation) {
    !op.state.Terminal() ==>
      && op.resource in rows
      && (Live(rows, op.resource) ==> rows[op.resource].phase == ShieldOf(op.kind))
      && (!op.kind.OpKindCreate? ==>
            Live(rows, op.resource) && op.target.Some? && op.target == rows[op.resource].externalId)
  }

  /** Only creates freeze, and a park operation never exceeds its attempts. */
  ghost predicate OpBounded(op: Operation) {
    && (op.state.OpUncertain? ==> op.kind.OpKindCreate?)
    && (ParkOp(op.kind) ==> op.attempt <= MAX_PARK_OP_ATTEMPTS)
  }

  ghost predicate OneActiveOp(ops: Ops) {
    forall o1, o2 :: ActiveOp(ops, o1) && ActiveOp(ops, o2) && ops[o1].resource == ops[o2].resource ==> o1 == o2
  }

  ghost predicate ShieldsHeld(rows: Rows, ops: Ops) {
    forall id :: Live(rows, id) && Shielded(rows[id].phase) ==> !OpFree(ops, id)
  }

  ghost predicate Coupled(rows: Rows, ops: Ops) {
    && (forall o :: o in ops ==> OpHolds(rows, ops[o]) && OpBounded(ops[o]))
    && OneActiveOp(ops)
    && ShieldsHeld(rows, ops)
  }

  // ---- Leases and phases ----

  /** A leased machine is alive and is neither being created, nor deleted, nor parked. */
  ghost predicate LeaseGuarded(rows: Rows, l: Lease) {
    l.state.LeaseActive? ==>
      Live(rows, l.resource) && !(rows[l.resource].phase in {Provisioning, Deleting, Parking})
  }

  ghost predicate Guarded(rows: Rows, leases: seq<Lease>) {
    && (forall i | 0 <= i < |leases| :: LeaseGuarded(rows, leases[i]))
    && (forall id :: InPhase(rows, id, Allocated) ==> !Unleased(leases, id))
  }

  // ---- Leases and acquisitions ----

  ghost predicate BoundIs(acqs: Acqs, a: AcquisitionId, l: LeaseId) {
    a in acqs && acqs[a].state.AcqBound? && acqs[a].lease == Some(l)
  }

  ghost predicate AcqShape(leases: seq<Lease>, a: AcquisitionId, acq: Acquisition) {
    && (acq.state.AcqBound? ==>
          && acq.lease.Some? && acq.lease.value < |leases|
          && leases[acq.lease.value].state.LeaseActive?
          && leases[acq.lease.value].acquisition == a)
    && (acq.state.AcqProvisioning? ==> acq.pendingResource.Some?)
    && (acq.state.AcqPending? || acq.state.AcqBound? ==> acq.pendingResource.None?)
  }

  /** Active leases and bound acquisitions name each other. */
  ghost predicate Bijective(leases: seq<Lease>, acqs: Acqs) {
    && (forall i | 0 <= i < |leases| :: leases[i].state.LeaseActive? ==> BoundIs(acqs, leases[i].acquisition, i))
    && (forall a :: a in acqs ==> AcqShape(leases, a, acqs[a]))
  }

  ghost predicate Inv(db: Fleet) {
    Coupled(db.resources, db.operations) && Guarded(db.resources, db.leases) && Bijective(db.leases, db.acquisitions)
  }

  // ---- The shapes of change ----

  lemma Holder(ops: Ops, id: ResourceId) returns (o: OperationId)
    requires !OpFree(ops, id)
    ensures ActiveOp(ops, o) && ops[o].resource == id
  {
    o :| o in ops.Keys && ActiveOp(ops, o) && ops[o].resource == id;
  }

  /** A live row outside the shields has no active operation. */
  lemma UnshieldedFree(rows: Rows, ops: Ops, id: ResourceId)
    requires Coupled(rows, ops) && Live(rows, id) && !Shielded(rows[id].phase)
    ensures OpFree(ops, id)
  {
    forall o | o in ops.Keys && ActiveOp(ops, o)
      ensures ops[o].resource != id
    {
      assert OpHolds(rows, ops[o]);
    }
  }

  /** One operation and the row it holds change together: journaling, accepting, finishing, failing. */
  lemma OpStepCoupled(rows: Rows, ops: Ops, id: ResourceId, r: Resource, o: OperationId, op: Operation)
    requires Coupled(rows, ops) && op.resource == id && OpBounded(op)
    requires if o in ops then ActiveOp(ops, o) && ops[o].resource == id else OpFree(ops, id)
    requires OpHolds(map[id := r], op)
    requires r.deletedAt.None? && Shielded(r.phase) ==> !op.state.Terminal()
    ensures Coupled(rows[id := r], ops[o := op])
  {
    var rows', ops' := rows[id := r], ops[o := op];
    forall x | ActiveOp(ops, x) && x != o
      ensures ops[x].resource != id
    {
      if o in ops { assert ActiveOp(ops, o) && ActiveOp(ops, x); }
    }
    forall x | x in ops'
      ensures OpHolds(rows', ops'[x]) && OpBounded(ops'[x])
    {
      if x == o { assert OpHolds(map[id := r], op); } else { assert OpHolds(rows, ops[x]); }
    }
    forall x | Live(rows', x) && Shielded(rows'[x].phase)
      ensures !OpFree(ops', x)
    {
      if x == id {
        assert ActiveOp(ops', o) && o in ops'.Keys;
      } else {
        var h := Holder(ops, x);
        assert ActiveOp(ops', h) && h in ops'.Keys;
      }
    }
  }

  /** A row changes on its own: only outside the shields, or by dying under a create. */
  lemma RowStepCoupled(rows: Rows, ops: Ops, id: ResourceId, r: Resource)
    requires Coupled(rows, ops)
    requires r.deletedAt.None? ==> !Shielded(r.phase)
    requires forall o :: ActiveOp(ops, o) && ops[o].resource == id ==> id in rows && r.deletedAt.Some? && ops[o].kind.OpKindCreate?
    ensures Coupled(rows[id := r], ops)
  {
    var rows' := rows[id := r];
    forall x | x in ops
      ensures OpHolds(rows', ops[x]) && OpBounded(ops[x])
    {
      assert OpHolds(rows, ops[x]);
      assert !ops[x].state.Terminal() ==> ActiveOp(ops, x);
    }
  }

  /** A row changes within what its leases and its allocation allow. */
  lemma RowStepGuarded(rows: Rows, leases: seq<Lease>, id: ResourceId, r: Resource)
    requires Guarded(rows, leases)
    requires Unleased(leases, id) || (Live(rows, id) && r.deletedAt.None? && !(r.phase in {Provisioning, Deleting, Parking}))
    requires r.deletedAt.None? && r.phase.Allocated? ==> !Unleased(leases, id)
    ensures Guarded(rows[id := r], leases)
  {
    var rows' := rows[id := r];
    forall i | 0 <= i < |leases|
      ensures LeaseGuarded(rows', leases[i])
    {
      assert LeaseGuarded(rows, leases[i]);
      assert leases[i].state.LeaseActive? ==> ActiveOn(leases[i], leases[i].resource);
    }
  }

  /** A live row under a create, a delete or a stop has no lease. */
  lemma ShieldUnleased(rows: Rows, leases: seq<Lease>, id: ResourceId)
    requires Guarded(rows, leases)
    requires !Live(rows, id) || rows[id].phase in {Provisioning, Deleting, Parking}
    ensures Unleased(leases, id)
  {
    forall i | 0 <= i < |leases|
      ensures !ActiveOn(leases[i], id)
    {
      assert LeaseGuarded(rows, leases[i]);
    }
  }

  // ---- Journaling ----

  lemma JournalCreateKeeps(db: Fleet, id: ResourceId, op: OperationId, row: Resource, now: int)
    requires Inv(db) && row.phase.Provisioning?
    ensures Inv(JournalCreate(db, id, op, row, now))
  {
    if CanJournalCreate(db, id, op) {
      OpStepCoupled(db.resources, db.operations, id, row, op, NewOp(OpKindCreate, id, None, now));
      ShieldUnleased(db.resources, db.leases, id);
      RowStepGuarded(db.resources, db.leases, id, row);
    }
  }

  lemma JournalPhaseOpKeeps(db: Fleet, id: ResourceId, op: OperationId, kind: OpKind, now: int)
    requires Inv(db) && Live(db.resources, id) && CanAppend(db, op, id) && db.resources[id].externalId.Some?
    requires !kind.OpKindCreate? && (Unleased(db.leases, id) || kind.OpKindStart?)
    ensures Inv(JournalPhaseOp(db, id, op, kind, now))
  {
    var r := Moved(db.resources[id], ShieldOf(kind), now);
    OpStepCoupled(db.resources, db.operations, id, r, op, NewOp(kind, id, r.externalId, now));
    RowStepGuarded(db.resources, db.leases, id, r);
  }

  lemma TombstoneKeeps(db: Fleet, id: ResourceId, now: int)
    requires Inv(db) && Live(db.resources, id) && Unleased(db.leases, id)
    requires db.resources[id].externalId.None? || !Shielded(db.resources[id].phase)
    ensures Inv(SetRow(db, id, Tombstoned(db.resources[id], now)))
  {
    var r := Tombstoned(db.resources[id], now);
    forall o | ActiveOp(db.operations, o) && db.operations[o].resource == id
      ensures db.operations[o].kind.OpKindCreate?
    {
      assert OpHolds(db.resources, db.operations[o]);
    }
    RowStepCoupled(db.resources, db.operations, id, r);
    RowStepGuarded(db.resources, db.leases, id, r);
  }

  lemma DeleteKeeps(db: Fleet, id: ResourceId, op: OperationId, now: int)
    requires Inv(db)
    ensures Inv(Delete(db, id, op, now))
  {
    if CanDelete(db, id, op) {
      if db.resources[id].externalId.None? {
        TombstoneKeeps(db, id, now);
      } else {
        JournalPhaseOpKeeps(db, id, op, OpKindDelete, now);
      }
    }
  }

  /** A bare move between phases outside the shields. */
  lemma MovePhaseKeeps(db: Fleet, id: ResourceId, from: Phase, to: Phase, now: int)
    requires Inv(db) && !Shielded(from) && !Shielded(to) && !to.Allocated?
    ensures Inv(MovePhase(db, id, from, to, now))
  {
    if InPhase(db.resources, id, from) {
      var r := Moved(db.resources[id], to, now);
      UnshieldedFree(db.resources, db.operations, id);
      RowStepCoupled(db.resources, db.operations, id, r);
      RowStepGuarded(db.resources, db.leases, id, r);
    }
  }

  /** Side columns never matter to the invariant. */
  lemma SideColumnsKeep(db: Fleet, id: ResourceId, r: Resource)
    requires Inv(db) && id in db.resources
    requires r.phase == db.resources[id].phase && r.deletedAt == db.resources[id].deletedAt
    requires r.externalId == db.resources[id].externalId
    ensures Inv(SetRow(db, id, r))
  {
    var rows' := db.resources[id := r];
    forall o | o in db.operations
      ensures OpHolds(rows', db.operations[o])
    {
      assert OpHolds(db.resources, db.operations[o]);
    }
    forall x | Live(rows', x) && Shielded(rows'[x].phase)
      ensures !OpFree(db.operations, x)
    {
      assert Live(db.resources, x);
    }
    forall i | 0 <= i < |db.leases|
      ensures LeaseGuarded(rows', db.leases[i])
    {
      assert LeaseGuarded(db.resources, db.leases[i]);
    }
    forall x | InPhase(rows', x, Allocated)
      ensures !Unleased(db.leases, x)
    {
      assert InPhase(db.resources, x, Allocated);
    }
  }

  // ---- The engine ----

  /** The operation changes and its row stays. */
  lemma OpOnlyKeeps(db: Fleet, o: OperationId, op: Operation)
    requires Inv(db) && ActiveOp(db.operations, o) && !op.state.Terminal() && OpBounded(op)
    requires op.kind == db.operations[o].kind && op.resource == db.operations[o].resource && op.target == db.operations[o].target
    ensures Inv(SetOp(db, o, op))
  {
    assert OpHolds(db.resources, db.operations[o]);
    var id := op.resource;
    OpStepCoupled(db.resources, db.operations, id, db.resources[id], o, op);
    assert db.resources[id := db.resources[id]] == db.resources;
  }

  lemma DispatchKeeps(db: Fleet, op: OperationId, window: nat, now: int)
    requires Inv(db)
    ensures Inv(Dispatch(db, op, window, now))
  {
    if CanDispatch(db, op) {
      OpOnlyKeeps(db, op, Dispatch(db, op, window, now).operations[op]);
    }
  }

  lemma MoveOpKeeps(db: Fleet, op: OperationId, from: OpState, to: OpState)
    requires Inv(db) && !from.Terminal() && !to.Terminal()
    requires to.OpUncertain? && op in db.operations ==> db.operations[op].kind.OpKindCreate?
    ensures Inv(MoveOp(db, op, from, to))
  {
    if OpIn(db, op, from) {
      OpOnlyKeeps(db, op, db.operations[op].(state := to));
    }
  }

  /** The swallowed phase write of a failing operation never misses a live row. */
  lemma FailOpPhasesKeeps(db: Fleet, op: OperationId, from: OpState, resFrom: Phase, resTo: Phase, now: int)
    requires Inv(db) && OpIn(db, op, from) && !from.Terminal()
    requires resFrom == ShieldOf(db.operations[op].kind) && !Shielded(resTo) && !resTo.Allocated?
    ensures Inv(FailOpPhases(db, op, from, resFrom, resTo, now))
    ensures Live(db.resources, db.operations[op].resource) ==> InPhase(db.resources, db.operations[op].resource, resFrom)
  {
    var o := db.operations[op];
    var id := o.resource;
    assert OpHolds(db.resources, o);
    var r := if Live(db.resources, id) then Moved(db.resources[id], resTo, now) else db.resources[id];
    OpStepCoupled(db.resources, db.operations, id, r, op, o.(state := OpFailed));
    if Live(db.resources, id) {
      RowStepGuarded(db.resources, db.leases, id, r);
    } else {
      assert db.resources[id := r] == db.resources;
    }
  }

  lemma FailOpKeeps(db: Fleet, op: OperationId, from: OpState, now: int)
    requires Inv(db) && !from.Terminal()
    ensures Inv(FailOp(db, op, from, now))
  {
    if OpIn(db, op, from) {
      var kind := db.operations[op].kind;
      FailOpPhasesKeeps(db, op, from, ShieldOf(kind), FailureOf(kind), now);
    }
  }

  lemma AttachKeeps(db: Fleet, op: OperationId, from: OpState, ref: Option<ExternalId>)
    requires Inv(db) && !from.Terminal()
    ensures Inv(Attach(db, op, from, ref))
  {
    if CanAttach(db, op, from, ref) {
      var o := db.operations[op];
      var id := o.resource;
      assert OpHolds(db.resources, o);
      var o' := o.(state := OpExternalAccepted, ref := ref);
      if o.kind.OpKindCreate? && ref.Some? {
        var r := db.resources[id].(externalId := ref);
        OpStepCoupled(db.resources, db.operations, id, r, op, o');
        if Live(db.resources, id) {
          ShieldUnleased(db.resources, db.leases, id);
        } else {
          ShieldUnleased(db.resources, db.leases, id);
        }
        RowStepGuarded(db.resources, db.leases, id, r);
      } else {
        OpOnlyKeeps(db, op, o');
      }
    }
  }

  lemma FinishKeeps(db: Fleet, op: OperationId, from: OpState, to: Phase, facts: Option<Vector>, now: int)
    requires Inv(db) && !from.Terminal() && !Shielded(to) && !to.Allocated?
    ensures Inv(Finish(db, op, from, to, facts, now))
  {
    if CanFinish(db, op, from) {
      var o := db.operations[op];
      var id := o.resource;
      var r := Moved(WithFacts(db.resources[id], facts, now), to, now);
      OpStepCoupled(db.resources, db.operations, id, r, op, o.(state := OpSucceeded));
      RowStepGuarded(db.resources, db.leases, id, r);
    }
  }

  /** The ungated tombstone is safe: the operation's hold keeps leases off the row. */
  lemma SucceedDeleteKeeps(db: Fleet, op: OperationId, from: OpState, now: int)
    requires Inv(db) && !from.Terminal() && OpIn(db, op, from) && db.operations[op].kind.OpKindDelete?
    ensures Inv(SucceedDelete(db, op, from, now))
    ensures InPhase(db.resources, db.operations[op].resource, Deleting)
    ensures Unleased(db.leases, db.operations[op].resource)
  {
    var o := db.operations[op];
    var id := o.resource;
    assert OpHolds(db.resources, o);
    ShieldUnleased(db.resources, db.leases, id);
    var r := Tombstoned(db.resources[id], now);
    OpStepCoupled(db.resources, db.operations, id, r, op, o.(state := OpSucceeded));
    RowStepGuarded(db.resources, db.leases, id, r);
  }

  lemma ApplyFailedKeeps(db: Fleet, op: OperationId, f: Failure, now: int)
    requires Inv(db)
    ensures Inv(ApplyFailed(db, op, f, now))
  {
    hide Inv, SucceedDelete, FailOp, MoveOp, Classify, Effect;
    if OpIn(db, op, OpInFlight) {
      if db.operations[op].kind.OpKindDelete? { SucceedDeleteKeeps(db, op, OpInFlight, now); }
      FailOpKeeps(db, op, OpInFlight, now);
      MoveOpKeeps(db, op, OpInFlight, OpJournaled);
      MoveOpKeeps(db, op, OpInFlight, OpVerifying);
    }
  }

  lemma PolledKeeps(db: Fleet, op: OperationId, seen: Observation, gate: Gate, now: int)
    requires Inv(db)
    ensures Inv(Polled(db, op, seen, gate, now))
  {
    hide Inv, SucceedDelete, FailOp, FailOpPhases, MoveOp, Finish, Classify;
    if OpIn(db, op, OpExternalAccepted) {
      var kind := db.operations[op].kind;
      if kind.OpKindDelete? { SucceedDeleteKeeps(db, op, OpExternalAccepted, now); }
      if kind.OpKindStart? { FailOpPhasesKeeps(db, op, OpExternalAccepted, Starting, Failed, now); }
      FailOpKeeps(db, op, OpExternalAccepted, now);
      MoveOpKeeps(db, op, OpExternalAccepted, OpVerifying);
      FinishKeeps(db, op, OpExternalAccepted, Parked, None, now);
      if seen.ObserveSucceeded? { FinishKeeps(db, op, OpExternalAccepted, Ready, seen.facts, now); }
    }
  }

  lemma VerifiedKeeps(db: Fleet, op: OperationId, labels: bool, seen: Lookup, readAt: int, now: int)
    requires Inv(db)
    ensures Inv(Verified(db, op, labels, seen, readAt, now))
  {
    hide Inv, SucceedDelete, FailOp, MoveOp, Attach;
    if OpIn(db, op, OpVerifying) {
      var kind := db.operations[op].kind;
      if kind.OpKindDelete? { SucceedDeleteKeeps(db, op, OpVerifying, now); }
      if kind.OpKindCreate? { MoveOpKeeps(db, op, OpVerifying, OpUncertain); }
      FailOpKeeps(db, op, OpVerifying, now);
      MoveOpKeeps(db, op, OpVerifying, OpJournaled);
      if seen.LookupFound? { AttachKeeps(db, op, OpVerifying, Some(seen.ext)); }
    }
  }

  lemma ResolveKeeps(db: Fleet, op: OperationId, now: int)
    requires Inv(db)
    ensures Inv(Thaw(db, op, now)) && Inv(MarkFailed(db, op, now))
  {
    if OpIn(db, op, OpUncertain) {
      assert OpBounded(db.operations[op]);
      OpOnlyKeeps(db, op, Thaw(db, op, now).operations[op]);
      FailOpPhasesKeeps(db, op, OpUncertain, Provisioning, Failed, now);
    }
  }

  // ---- Acquisitions and leases ----

  lemma AcqStepBijective(leases: seq<Lease>, acqs: Acqs, a: AcquisitionId, acq: Acquisition)
    requires Bijective(leases, acqs) && AcqShape(leases, a, acq)
    requires a in acqs ==> !acqs[a].state.AcqBound?
    ensures Bijective(leases, acqs[a := acq])
  {
    forall i | 0 <= i < |leases| && leases[i].state.LeaseActive?
      ensures BoundIs(acqs[a := acq], leases[i].acquisition, i)
    {
      assert BoundIs(acqs, leases[i].acquisition, i);
    }
  }

  lemma MoveAcqKeeps(db: Fleet, a: AcquisitionId, from: AcqState, to: AcqState, now: int)
    requires Inv(db) && !from.AcqBound? && to in {AcqFailed, AcqReleased, AcqExpired}
    ensures Inv(MoveAcq(db, a, from, to, now))
  {
    if AcqIn(db, a, from) {
      AcqStepBijective(db.leases, db.acquisitions, a, db.acquisitions[a].(state := to, updatedAt := now));
    }
  }

  lemma RePendKeeps(db: Fleet, a: AcquisitionId, now: int)
    requires Inv(db)
    ensures Inv(RePend(db, a, now))
  {
    if AcqIn(db, a, AcqProvisioning) {
      AcqStepBijective(db.leases, db.acquisitions, a, RePend(db, a, now).acquisitions[a]);
    }
  }

  lemma PreBindKeeps(db: Fleet, a: AcquisitionId, id: ResourceId, now: int)
    requires Inv(db) && AcqIn(db, a, AcqPending)
    ensures Inv(PreBind(db, a, id, now))
  {
    AcqStepBijective(db.leases, db.acquisitions, a, PreBind(db, a, id, now).acquisitions[a]);
  }

  lemma StartParkedKeeps(db: Fleet, a: AcquisitionId, id: ResourceId, op: OperationId, now: int)
    requires Inv(db)
    ensures Inv(StartParked(db, a, id, op, now))
  {
    if AcqIn(db, a, AcqPending) && CanStart(db, id, op) {
      JournalPhaseOpKeeps(db, id, op, OpKindStart, now);
      PreBindKeeps(JournalStart(db, id, op, now), a, id, now);
    }
  }

  lemma ScaleOnDemandKeeps(db: Fleet, a: AcquisitionId, id: ResourceId, op: OperationId, row: Resource, now: int)
    requires Inv(db) && row.phase.Provisioning?
    ensures Inv(ScaleOnDemand(db, a, id, op, row, now))
  {
    if AcqIn(db, a, AcqPending) && CanJournalCreate(db, id, op) {
      JournalCreateKeeps(db, id, op, row, now);
      PreBindKeeps(JournalCreate(db, id, op, row, now), a, id, now);
    }
  }

  lemma InsertAcquisitionKeeps(db: Fleet, a: AcquisitionId, acq: Acquisition)
    requires Inv(db) && acq.state.AcqPending? && acq.pendingResource.None?
    ensures Inv(InsertAcquisition(db, a, acq))
  {
    if a !in db.acquisitions {
      AcqStepBijective(db.leases, db.acquisitions, a, acq);
    }
  }

  /** A new active lease on a serving row. */
  lemma LeaseAddedGuarded(rows: Rows, leases: seq<Lease>, l: Lease)
    requires Guarded(rows, leases) && l.state.LeaseActive?
    requires InPhase(rows, l.resource, Ready) || InPhase(rows, l.resource, Allocated)
    ensures Guarded(rows, leases + [l]) && !Unleased(leases + [l], l.resource)
  {
    var leases' := leases + [l];
    assert ActiveOn(leases'[|leases|], l.resource);
    forall x | InPhase(rows, x, Allocated)
      ensures !Unleased(leases', x)
    {
      var i :| 0 <= i < |leases| && ActiveOn(leases[i], x);
      assert ActiveOn(leases'[i], x);
    }
  }

  lemma ReserveKeeps(db: Fleet, a: AcquisitionId, id: ResourceId, now: int)
    requires Inv(db)
    ensures Inv(Reserve(db, a, id, now))
  {
    if CanReserve(db, a, id, now) {
      var db' := Reserve(db, a, id, now);
      var l := NewLease(db.acquisitions[a], a, id, now);
      LeaseAddedGuarded(db.resources, db.leases, l);
      UnshieldedFree(db.resources, db.operations, id);
      RowStepCoupled(db.resources, db.operations, id, db'.resources[id]);
      RowStepGuarded(db.resources, db'.leases, id, db'.resources[id]);
      forall i | 0 <= i < |db'.leases| && db'.leases[i].state.LeaseActive?
        ensures BoundIs(db'.acquisitions, db'.leases[i].acquisition, i)
      {
        if i < |db.leases| { assert BoundIs(db.acquisitions, db.leases[i].acquisition, i); }
      }
      forall x | x in db'.acquisitions
        ensures AcqShape(db'.leases, x, db'.acquisitions[x])
      {
        if x != a { assert AcqShape(db.leases, x, db.acquisitions[x]); }
      }
    }
  }

  /** An ended lease: the others still guard their rows. */
  lemma LeaseEndedGuarded(rows: Rows, leases: seq<Lease>, l: LeaseId, ended: Lease)
    requires Guarded(rows, leases) && l < |leases| && !ended.state.LeaseActive?
    ensures forall x :: InPhase(rows, x, Allocated) && !ActiveOn(leases[l], x) ==> !Unleased(leases[l := ended], x)
  {
    var leases' := leases[l := ended];
    forall x | InPhase(rows, x, Allocated) && !ActiveOn(leases[l], x)
      ensures !Unleased(leases', x)
    {
      var i :| 0 <= i < |leases| && ActiveOn(leases[i], x);
      assert ActiveOn(leases'[i], x);
    }
  }

  lemma EndLeaseKeeps(db: Fleet, l: LeaseId, expired: bool, now: int)
    requires Inv(db)
    ensures Inv(EndLease(db, l, expired, now))
  {
    if CanEndLease(db, l) {
      var db' := EndLease(db, l, expired, now);
      var lease := db.leases[l];
      var id, a := lease.resource, lease.acquisition;
      var r := db'.resources[id];
      assert LeaseGuarded(db.resources, lease);
      LeaseEndedGuarded(db.resources, db.leases, l, db'.leases[l]);
      EndedRow(db, l, expired, now);
      assert BoundIs(db.acquisitions, a, l);
      forall i | 0 <= i < |db'.leases| && db'.leases[i].state.LeaseActive?
        ensures BoundIs(db'.acquisitions, db'.leases[i].acquisition, i)
      {
        assert BoundIs(db.acquisitions, db.leases[i].acquisition, i);
      }
      forall x | x in db'.acquisitions
        ensures AcqShape(db'.leases, x, db'.acquisitions[x])
      {
        assert AcqShape(db.leases, x, db.acquisitions[x]);
      }
    }
  }

  lemma EndedRow(db: Fleet, l: LeaseId, expired: bool, now: int)
    requires Inv(db) && CanEndLease(db, l)
    ensures var db' := EndLease(db, l, expired, now);
            Coupled(db'.resources, db'.operations) && Guarded(db'.resources, db'.leases)
  {
    var db' := EndLease(db, l, expired, now);
    var id := db.leases[l].resource;
    var r := db'.resources[id];
    assert LeaseGuarded(db.resources, db.leases[l]);
    LeaseEndedGuarded(db.resources, db.leases, l, db'.leases[l]);
    var stamped := db.resources[id].(lastLeaseEndedAt := Some(now), updatedAt := now);
    SideColumnsKeep(db, id, stamped);
    var mid := db.resources[id := stamped];
    if r != stamped {
      UnshieldedFree(mid, db.operations, id);
      RowStepCoupled(mid, db.operations, id, r);
      assert mid[id := r] == db'.resources;
    }
    if r.phase.Allocated? {
      assert !LastLease(db, l);
      var i :| 0 <= i < |db.leases| && i != l && ActiveOn(db.leases[i], id);
      assert ActiveOn(db'.leases[i], id);
    }
    forall i | 0 <= i < |db'.leases|
      ensures LeaseGuarded(db'.resources, db'.leases[i])
    {
      assert LeaseGuarded(db.resources, db'.leases[i]);
    }
    forall x | InPhase(db'.resources, x, Allocated)
      ensures !Unleased(db'.leases, x)
    {
      if x != id { assert InPhase(db.resources, x, Allocated); }
    }
  }

  // ---- Discovery ----

  lemma MintKeeps(db: Fleet, id: ResourceId, row: Resource)
    requires Inv(db) && (row.phase.Ready? || row.phase.Parked?)
    ensures Inv(Mint(db, id, row))
  {
    if id !in db.resources {
      ShieldUnleased(db.resources, db.leases, id);
      forall o | ActiveOp(db.operations, o)
        ensures db.operations[o].resource != id
      {
        assert OpHolds(db.resources, db.operations[o]);
      }
      RowStepCoupled(db.resources, db.operations, id, row);
      RowStepGuarded(db.resources, db.leases, id, row);
    }
  }

  lemma RefreshKeeps(db: Fleet, id: ResourceId, snapshot: Resource, sighted: Sighting, cap: Vector, now: int)
    requires Inv(db)
    ensures Inv(Refresh(db, id, snapshot, sighted, cap, now))
  {
    if id in db.resources {
      var facts := SetRow(db, id, WithFacts(db.resources[id], Some(cap), now));
      SideColumnsKeep(db, id, facts.resources[id]);
      var to := Revival(snapshot, sighted);
      if to.Some? && InPhase(db.resources, id, Orphaned) {
        MovePhaseKeeps(facts, id, Orphaned, to.value, now);
      }
    }
  }
}
