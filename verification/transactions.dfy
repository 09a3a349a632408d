/**
 * Every write transaction of the control plane as one guarded step on the fleet:
 * a transaction whose guard fails is rolled back and leaves the fleet unchanged.
 */
module Transactions {
  import opened Basics
  import opened Phases
  import opened Capacity
  import opened Storage
  import opened ProviderErrors

  const MAX_PARK_OP_ATTEMPTS: nat := 8
  const RESOLVE_WINDOW_MS: int := 48 * 3600 * 1000

  /** The phase an operation of this kind holds its resource in while it is active. */
  function ShieldOf(kind: OpKind): Phase {
    match kind
    case OpKindCreate => Provisioning
    case OpKindDelete => Deleting
    case OpKindStop => Parking
    case OpKindStart => Starting
  }

  predicate ParkOp(kind: OpKind) {
    kind.OpKindStop? || kind.OpKindStart?
  }

  function SetOp(db: Fleet, id: OperationId, op: Operation): Fleet {
    db.(operations := db.operations[id := op])
  }

  function SetRow(db: Fleet, id: ResourceId, r: Resource): Fleet {
    db.(resources := db.resources[id := r])
  }

  // ---- Journaling ----

  function NewRow(className: string, pool: Option<PoolId>, parkable: bool, now: int): Resource {
    Resource(Provisioning, OwnershipManaged, None, false, pool, className, map[], parkable, now, now, None, None, None, None, None)
  }

  function NewOp(kind: OpKind, resource: ResourceId, target: Option<ExternalId>, now: int): Operation {
    Operation(kind, resource, target, OpJournaled, 0, None, None, now)
  }

  predicate CanAppend(db: Fleet, op: OperationId, resource: ResourceId) {
    op !in db.operations && OpFree(db.operations, resource)
  }

  /** A resource row and its create operation, journaled together. */
  predicate CanJournalCreate(db: Fleet, id: ResourceId, op: OperationId) {
    id !in db.resources && CanAppend(db, op, id)
  }

  function JournalCreate(db: Fleet, id: ResourceId, op: OperationId, row: Resource, now: int): Fleet {
    if CanJournalCreate(db, id, op) then
      SetOp(SetRow(db, id, row), op, NewOp(OpKindCreate, id, None, now))
    else
      db
  }

  /** The row moves under the shield of a new operation on the machine it records. */
  function JournalPhaseOp(db: Fleet, id: ResourceId, op: OperationId, kind: OpKind, now: int): Fleet
    requires Live(db.resources, id)
  {
    SetOp(SetRow(db, id, Moved(db.resources[id], ShieldOf(kind), now)), op, NewOp(kind, id, db.resources[id].externalId, now))
  }

  predicate CanStop(db: Fleet, id: ResourceId, op: OperationId, requireUnprotected: bool) {
    && InPhase(db.resources, id, Ready)
    && db.resources[id].ownership.OwnershipManaged?
    && (requireUnprotected ==> !db.resources[id].deleteProtected)
    && db.resources[id].parkable
    && Unleased(db.leases, id)
    && db.resources[id].externalId.Some?
    && CanAppend(db, op, id)
  }

  function JournalStop(db: Fleet, id: ResourceId, op: OperationId, requireUnprotected: bool, now: int): Fleet {
    if CanStop(db, id, op, requireUnprotected) then JournalPhaseOp(db, id, op, OpKindStop, now) else db
  }

  predicate CanStart(db: Fleet, id: ResourceId, op: OperationId) {
    && InPhase(db.resources, id, Parked)
    && db.resources[id].ownership.OwnershipManaged?
    && db.resources[id].parkable
    && db.resources[id].externalId.Some?
    && CanAppend(db, op, id)
  }

  function JournalStart(db: Fleet, id: ResourceId, op: OperationId, now: int): Fleet {
    if CanStart(db, id, op) then JournalPhaseOp(db, id, op, OpKindStart, now) else db
  }

  /** Ownership, protection and leases: the gates every delete passes inside its transaction. */
  predicate DeleteGates(db: Fleet, id: ResourceId) {
    && Live(db.resources, id)
    && db.resources[id].ownership.OwnershipManaged?
    && !db.resources[id].deleteProtected
    && Unleased(db.leases, id)
  }

  predicate CanDelete(db: Fleet, id: ResourceId, op: OperationId) {
    DeleteGates(db, id) && (db.resources[id].externalId.None? || CanAppend(db, op, id))
  }

  /** A row that never got a machine is tombstoned at once; any other is journaled for deletion. */
  function Delete(db: Fleet, id: ResourceId, op: OperationId, now: int): Fleet {
    if !CanDelete(db, id, op) then db
    else if db.resources[id].externalId.None? then SetRow(db, id, Tombstoned(db.resources[id], now))
    else JournalPhaseOp(db, id, op, OpKindDelete, now)
  }

  /** The API delete: a row with a machine must also be in a phase that may move to deleting. */
  function DeleteResource(db: Fleet, id: ResourceId, op: OperationId, now: int): Fleet {
    if Live(db.resources, id) && (db.resources[id].externalId.None? || CanTransition(db.resources[id].phase, Deleting))
    then Delete(db, id, op, now) else db
  }

  /** The drain pipeline and the failed cleanup. */
  function JournalDelete(db: Fleet, id: ResourceId, op: OperationId, now: int): Fleet {
    if InPhase(db.resources, id, Draining) || InPhase(db.resources, id, Failed) then Delete(db, id, op, now) else db
  }

  /** An acquisition that is pending inside its queue deadline and that the machine could host once idle. */
  predicate QueuedFor(db: Fleet, a: AcquisitionId, id: ResourceId, now: int) {
    && a in db.acquisitions && id in db.resources
    && var acq, r := db.acquisitions[a], db.resources[id];
    && acq.state.AcqPending?
    && !(acq.maxWaitMs > 0 && now > acq.createdAt + acq.maxWaitMs)
    && (acq.className != "" ==> acq.className == r.className)
    && Fits(r.capacity, map[], acq.want)
  }

  /** Another ready managed machine of the same class. An empty class name does not filter. */
  predicate Spare(db: Fleet, other: ResourceId, id: ResourceId) {
    && other != id && InPhase(db.resources, other, Ready) && id in db.resources
    && db.resources[other].ownership.OwnershipManaged?
    && (db.resources[id].className != "" ==> db.resources[other].className == db.resources[id].className)
  }

  function Queue(db: Fleet, id: ResourceId, now: int): set<AcquisitionId> {
    set a | a in db.acquisitions && QueuedFor(db, a, id, now)
  }

  function Spares(db: Fleet, id: ResourceId): set<ResourceId> {
    set o | o in db.resources && Spare(db, o, id)
  }

  /** Queued work that the other ready machines could not absorb. */
  predicate QueueBlocks(db: Fleet, id: ResourceId, now: int) {
    |Queue(db, id, now)| > |Spares(db, id)|
  }

  /** The cost delete: straight from ready or parked, unless queued work needs the machine. */
  function CostReclaim(db: Fleet, id: ResourceId, op: OperationId, from: Phase, now: int): Fleet {
    if InPhase(db.resources, id, from) && !QueueBlocks(db, id, now) then Delete(db, id, op, now) else db
  }

  /** A bare phase move: drain, undrain, orphan. */
  function MovePhase(db: Fleet, id: ResourceId, from: Phase, to: Phase, now: int): Fleet {
    if InPhase(db.resources, id, from) then SetRow(db, id, Moved(db.resources[id], to, now)) else db
  }

  function Protect(db: Fleet, id: ResourceId, protected: bool, now: int): Fleet {
    if Live(db.resources, id) then SetRow(db, id, db.resources[id].(deleteProtected := protected, updatedAt := now)) else db
  }

  // ---- The operation engine ----

  predicate CanDispatch(db: Fleet, op: OperationId) {
    OpIn(db, op, OpJournaled) && !(ParkOp(db.operations[op].kind) && db.operations[op].attempt >= MAX_PARK_OP_ATTEMPTS)
  }

  /** The dispatch marker, with the deadline by which a lost create must be listable. */
  function Dispatch(db: Fleet, op: OperationId, window: nat, now: int): Fleet {
    if CanDispatch(db, op) then
      var o := db.operations[op];
      SetOp(db, op, o.(state := OpInFlight, attempt := o.attempt + 1, verifyDeadline := Some(now + window)))
    else
      db
  }

  function MoveOp(db: Fleet, op: OperationId, from: OpState, to: OpState): Fleet {
    if OpIn(db, op, from) then SetOp(db, op, db.operations[op].(state := to)) else db
  }

  /** The operation fails; the phase follows if the row is still where the operation put it. */
  function FailOpPhases(db: Fleet, op: OperationId, from: OpState, resFrom: Phase, resTo: Phase, now: int): Fleet {
    if !OpIn(db, op, from) then db
    else
      var id := db.operations[op].resource;
      var failed := SetOp(db, op, db.operations[op].(state := OpFailed));
      if InPhase(db.resources, id, resFrom) then SetRow(failed, id, Moved(db.resources[id], resTo, now)) else failed
  }

  /** Where a failed operation leaves its resource: park operations revert, the others fail it. */
  function FailureOf(kind: OpKind): Phase {
    match kind
    case OpKindCreate => Failed
    case OpKindDelete => Failed
    case OpKindStop => Ready
    case OpKindStart => Parked
  }

  function FailOp(db: Fleet, op: OperationId, from: OpState, now: int): Fleet {
    if OpIn(db, op, from)
    then FailOpPhases(db, op, from, ShieldOf(db.operations[op].kind), FailureOf(db.operations[op].kind), now)
    else db
  }

  predicate CanAttach(db: Fleet, op: OperationId, from: OpState, ref: Option<ExternalId>) {
    && OpIn(db, op, from)
    && var o := db.operations[op];
    (o.kind.OpKindCreate? && ref.Some? ==>
        && o.resource in db.resources
        && (Live(db.resources, o.resource) ==> ExternalFree(db.resources, o.resource, ref.value)))
  }

  /** The provider accepted: its reference is kept on the operation and, for a create, on the row. */
  function Attach(db: Fleet, op: OperationId, from: OpState, ref: Option<ExternalId>): Fleet {
    if !CanAttach(db, op, from, ref) then db
    else
      var o := db.operations[op];
      var accepted := SetOp(db, op, o.(state := OpExternalAccepted, ref := ref));
      if o.kind.OpKindCreate? && ref.Some?
      then SetRow(accepted, o.resource, db.resources[o.resource].(externalId := ref))
      else accepted
  }

  predicate CanFinish(db: Fleet, op: OperationId, from: OpState) {
    OpIn(db, op, from) && InPhase(db.resources, db.operations[op].resource, ShieldOf(db.operations[op].kind))
  }

  /** A confirmed create, stop or start. */
  function Finish(db: Fleet, op: OperationId, from: OpState, to: Phase, facts: Option<Vector>, now: int): Fleet {
    if CanFinish(db, op, from) then
      var id := db.operations[op].resource;
      SetOp(SetRow(db, id, Moved(WithFacts(db.resources[id], facts, now), to, now)), op, db.operations[op].(state := OpSucceeded))
    else
      db
  }

  /** A confirmed delete. The tombstone checks neither the phase nor the leases of the row. */
  function SucceedDelete(db: Fleet, op: OperationId, from: OpState, now: int): Fleet {
    if OpIn(db, op, from) && Live(db.resources, db.operations[op].resource) then
      var id := db.operations[op].resource;
      SetOp(SetRow(db, id, Tombstoned(db.resources[id], now)), op, db.operations[op].(state := OpSucceeded))
    else
      db
  }

  /** What follows a failed provider mutation. */
  function ApplyFailed(db: Fleet, op: OperationId, f: Failure, now: int): Fleet {
    if !OpIn(db, op, OpInFlight) then db
    else
      var kind, cls := db.operations[op].kind, Classify(f);
      if kind.OpKindDelete? && cls.NotFound? then SucceedDelete(db, op, OpInFlight, now)
      else if cls.Invalid? || cls.FatalError? || (ParkOp(kind) && cls.NotFound?) then FailOp(db, op, OpInFlight, now)
      else if ParkOp(kind) || Effect(f).EffectNone? then MoveOp(db, op, OpInFlight, OpJournaled)
      else MoveOp(db, op, OpInFlight, OpVerifying)
  }

  datatype Observation =
    | ObserveError(failure: Failure)
    | ObserveSucceeded(facts: Option<Vector>)
    | ObserveFailed
    | ObservePending

  datatype Gate = GateReady | GateNotYet | GateExhausted

  /** What follows one observation of an accepted operation. */
  function Polled(db: Fleet, op: OperationId, seen: Observation, gate: Gate, now: int): Fleet {
    if !OpIn(db, op, OpExternalAccepted) then db
    else
      var kind := db.operations[op].kind;
      match seen
      case ObserveError(f) =>
        if !Classify(f).NotFound? then db
        else if kind.OpKindDelete? then SucceedDelete(db, op, OpExternalAccepted, now)
        else if ParkOp(kind) then FailOp(db, op, OpExternalAccepted, now)
        else MoveOp(db, op, OpExternalAccepted, OpVerifying)
      case ObserveSucceeded(facts) =>
        if kind.OpKindDelete? then SucceedDelete(db, op, OpExternalAccepted, now)
        else if kind.OpKindStop? then Finish(db, op, OpExternalAccepted, Parked, None, now)
        else if gate.GateReady? then Finish(db, op, OpExternalAccepted, Ready, facts, now)
        else if gate.GateNotYet? then db
        else if kind.OpKindStart? then FailOpPhases(db, op, OpExternalAccepted, Starting, Failed, now)
        else FailOp(db, op, OpExternalAccepted, now)
      case ObserveFailed => FailOp(db, op, OpExternalAccepted, now)
      case ObservePending => db
  }

  /** The answer to a direct get (deletes) or to a listing by operation label (creates). */
  datatype Lookup = LookupError | LookupAbsent | LookupFound(ext: ExternalId)

  /** What follows one verification of an operation whose outcome is unknown; the deadline is compared with the
      clock as it was read before the lookup. */
  function Verified(db: Fleet, op: OperationId, labels: bool, seen: Lookup, readAt: int, now: int): Fleet {
    if !OpIn(db, op, OpVerifying) then db
    else
      var o := db.operations[op];
      if ParkOp(o.kind) then MoveOp(db, op, OpVerifying, OpJournaled)
      else if o.kind.OpKindDelete? then
        if o.target.None? then FailOp(db, op, OpVerifying, now)
        else match seen
          case LookupAbsent => SucceedDelete(db, op, OpVerifying, now)
          case LookupError => db
          case LookupFound(_) => MoveOp(db, op, OpVerifying, OpJournaled)
      else if !labels then MoveOp(db, op, OpVerifying, OpUncertain)
      else match seen
        case LookupError => db
        case LookupFound(x) => Attach(db, op, OpVerifying, Some(x))
        case LookupAbsent =>
          if o.verifyDeadline.Some? && readAt < o.verifyDeadline.value then db
          else MoveOp(db, op, OpVerifying, OpJournaled)
  }

  /** The operator's thaw of a frozen operation, with a generous fresh window. */
  function Thaw(db: Fleet, op: OperationId, now: int): Fleet {
    if OpIn(db, op, OpUncertain) then
      SetOp(db, op, db.operations[op].(state := OpVerifying, verifyDeadline := Some(now + RESOLVE_WINDOW_MS)))
    else
      db
  }

  /** The operator attests that a frozen operation failed. */
  function MarkFailed(db: Fleet, op: OperationId, now: int): Fleet {
    if OpIn(db, op, OpUncertain) then
      var resFrom := if db.operations[op].kind.OpKindDelete? then Deleting else Provisioning;
      FailOpPhases(db, op, OpUncertain, resFrom, Failed, now)
    else
      db
  }

  // ---- Acquisitions and leases ----

  predicate Bindable(db: Fleet, a: AcquisitionId) {
    a in db.acquisitions && (db.acquisitions[a].state.AcqPending? || db.acquisitions[a].state.AcqProvisioning?)
  }

  predicate Eligible(db: Fleet, id: ResourceId) {
    (InPhase(db.resources, id, Ready) || InPhase(db.resources, id, Allocated)) && db.resources[id].ownership.OwnershipManaged?
  }

  predicate NoExclusiveHolder(db: Fleet, id: ResourceId) {
    forall i | 0 <= i < |db.leases| :: ActiveOn(db.leases[i], id) ==> !db.leases[i].exclusive
  }

  /** The requested capacity fits beside the active leases. */
  predicate Room(db: Fleet, id: ResourceId, want: Vector)
    requires id in db.resources
  {
    var total := db.resources[id].capacity;
    forall dim <- want.Keys :: dim in total && LeasedOf(db.leases, id, dim) + want[dim] <= total[dim]
  }

  /** The re-aggregation after the insert: no tracked dimension is over-allocated. */
  predicate WithinTotal(leases: seq<Lease>, id: ResourceId, total: Vector) {
    forall dim <- total.Keys :: LeasedOf(leases, id, dim) <= total[dim]
  }

  function NewLease(acq: Acquisition, a: AcquisitionId, id: ResourceId, now: int): Lease {
    Lease(a, id, acq.want, acq.exclusive, LeaseActive, if acq.ttlMs > 0 then Some(now + acq.ttlMs) else None, now, None)
  }

  predicate CanReserve(db: Fleet, a: AcquisitionId, id: ResourceId, now: int) {
    && Bindable(db, a)
    && Eligible(db, id)
    && var acq := db.acquisitions[a];
    && (acq.exclusive ==> Unleased(db.leases, id))
    && NoExclusiveHolder(db, id)
    && Room(db, id, acq.want)
    && WithinTotal(db.leases + [NewLease(acq, a, id, now)], id, db.resources[id].capacity)
  }

  function Reserve(db: Fleet, a: AcquisitionId, id: ResourceId, now: int): Fleet {
    if CanReserve(db, a, id, now) then
      var acq, r := db.acquisitions[a], db.resources[id];
      Fleet(
        db.resources[id := if r.phase.Ready? then Moved(r, Allocated, now) else r],
        db.operations,
        db.leases + [NewLease(acq, a, id, now)],
        db.acquisitions[a := acq.(state := AcqBound, lease := Some(|db.leases|), pendingResource := None, updatedAt := now)])
    else
      db
  }

  predicate AcqIn(db: Fleet, a: AcquisitionId, s: AcqState) {
    a in db.acquisitions && db.acquisitions[a].state == s
  }

  function MoveAcq(db: Fleet, a: AcquisitionId, from: AcqState, to: AcqState, now: int): Fleet {
    if AcqIn(db, a, from)
    then db.(acquisitions := db.acquisitions[a := db.acquisitions[a].(state := to, updatedAt := now)])
    else db
  }

  /** The acquisition is pre-bound to a machine that the same transaction creates or starts. */
  function PreBind(db: Fleet, a: AcquisitionId, id: ResourceId, now: int): Fleet
    requires a in db.acquisitions
  {
    db.(acquisitions := db.acquisitions[a := db.acquisitions[a].(state := AcqProvisioning, updatedAt := now, pendingResource := Some(id))])
  }

  function StartParked(db: Fleet, a: AcquisitionId, id: ResourceId, op: OperationId, now: int): Fleet {
    if AcqIn(db, a, AcqPending) && CanStart(db, id, op) then PreBind(JournalStart(db, id, op, now), a, id, now) else db
  }

  function ScaleOnDemand(db: Fleet, a: AcquisitionId, id: ResourceId, op: OperationId, row: Resource, now: int): Fleet {
    if AcqIn(db, a, AcqPending) && CanJournalCreate(db, id, op) then PreBind(JournalCreate(db, id, op, row, now), a, id, now) else db
  }

  /** A failed start returns the acquisition to the queue with nothing attached. */
  function RePend(db: Fleet, a: AcquisitionId, now: int): Fleet {
    if AcqIn(db, a, AcqProvisioning)
    then db.(acquisitions := db.acquisitions[a := db.acquisitions[a].(state := AcqPending, updatedAt := now, pendingResource := None)])
    else db
  }

  predicate LastLease(db: Fleet, l: LeaseId)
    requires l < |db.leases|
  {
    forall i | 0 <= i < |db.leases| && i != l :: !ActiveOn(db.leases[i], db.leases[l].resource)
  }

  predicate CanEndLease(db: Fleet, l: LeaseId) {
    && l < |db.leases| && db.leases[l].state.LeaseActive?
    && var id := db.leases[l].resource;
    && id in db.resources
    && (LastLease(db, l) && db.resources[id].phase.Allocated? ==> Live(db.resources, id))
  }

  /** Release or expiry: the bound acquisition follows its lease, and the last lease gives the machine back. */
  function EndLease(db: Fleet, l: LeaseId, expired: bool, now: int): Fleet {
    if !CanEndLease(db, l) then db
    else
      var lease := db.leases[l];
      var id, a := lease.resource, lease.acquisition;
      var stamped := db.resources[id].(lastLeaseEndedAt := Some(now), updatedAt := now);
      Fleet(
        db.resources[id := if LastLease(db, l) && stamped.phase.Allocated? then Moved(stamped, Ready, now) else stamped],
        db.operations,
        db.leases[l := lease.(state := if expired then LeaseExpired else LeaseReleased, endedAt := Some(now))],
        if AcqIn(db, a, AcqBound)
        then db.acquisitions[a := db.acquisitions[a].(state := if expired then AcqExpired else AcqReleased, updatedAt := now)]
        else db.acquisitions)
  }

  function InsertAcquisition(db: Fleet, a: AcquisitionId, acq: Acquisition): Fleet {
    if a !in db.acquisitions then db.(acquisitions := db.acquisitions[a := acq]) else db
  }

  // ---- Discovery ----

  /** A row for a machine found at the provider: ready, or parked when it was seen stopped. */
  function MintedRow(ext: ExternalId, ownership: Ownership, className: string, stopped: bool, parkable: bool, cap: Vector, now: int): Resource {
    var asParked := stopped && parkable;
    Resource(if asParked then Parked else Ready, ownership, Some(ext), false, None, className, cap, parkable, now, now,
             None, None, None, if asParked then Some(now) else None, None)
  }

  function Mint(db: Fleet, id: ResourceId, row: Resource): Fleet {
    if id !in db.resources && row.externalId.Some? && ExternalFree(db.resources, id, row.externalId.value)
    then SetRow(db, id, row) else db
  }

  datatype Sighting = SeenRunning | SeenStopped | SeenOther

  /** The phase a sighted row moves to; the sweep's own snapshot says whether it was orphaned. */
  function Revival(row: Resource, sighted: Sighting): Option<Phase> {
    if !row.phase.Orphaned? then None
    else if sighted.SeenRunning? then Some(Ready)
    else if sighted.SeenStopped? && row.parkable then Some(Parked)
    else None
  }

  /** A sighting refreshes the facts of the row and revives it when the snapshot had it orphaned. */
  function Refresh(db: Fleet, id: ResourceId, snapshot: Resource, sighted: Sighting, cap: Vector, now: int): Fleet {
    if id !in db.resources then db
    else
      var facts := SetRow(db, id, WithFacts(db.resources[id], Some(cap), now));
      match Revival(snapshot, sighted)
      case None => facts
      case Some(to) =>
        if InPhase(db.resources, id, Orphaned) then SetRow(facts, id, Moved(facts.resources[id], to, now)) else db
  }

  /** The orphan tombstone re-checks the leases in its transaction, but not the phase. */
  function TombstoneOrphan(db: Fleet, id: ResourceId, now: int): Fleet {
    if Live(db.resources, id) && Unleased(db.leases, id) then SetRow(db, id, Tombstoned(db.resources[id], now)) else db
  }
}
