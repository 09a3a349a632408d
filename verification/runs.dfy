/**
 * The fleet under all its actors: every transaction is one step, taken in any order and at any moment,
 * and a run is a sequence of steps. The discovery sweep is the one actor that acts on a stale snapshot,
 * so its memory is part of the state.
 */
module Runs {
  import opened Basics
  import opened Phases
  import opened Capacity
  import opened Storage
  import opened ProviderErrors
  import opened Transactions
  import opened Invariants

  /** What the sweep remembers between its transactions; a crash forgets it. seen are the rows it sighted, missing those
      whose machine a direct get answered not found for. */
  datatype Sweep =
    | NoSweep
    | Listed(rows: Rows)
    | Armed(rows: Rows, open: set<ResourceId>, at: int, seen: set<ResourceId>, missing: set<ResourceId>)

  /** sightings records, for each row, the time of the last sweep that saw its machine. */
  datatype World = World(db: Fleet, clock: int, sweep: Sweep, sightings: map<ResourceId, int>)

  datatype EngineStep =
    | Dispatched(op: OperationId, window: nat)
    | Accepted(op: OperationId, ref: Option<ExternalId>)
    | Refused(op: OperationId, failure: Failure)
    | Observed(op: OperationId, seen: Observation, gate: Gate)
    | LookedUp(op: OperationId, labels: bool, found: Lookup, readAt: int)
    | GaveUp(op: OperationId)
    | NoDriver(op: OperationId)
    | Resumed(op: OperationId)
    | Thawed(op: OperationId)
    | MarkedFailed(op: OperationId)

  datatype FleetStep =
    | Create(id: ResourceId, op: OperationId, className: string, pool: Option<PoolId>, parkable: bool)
    | ApiDelete(id: ResourceId, op: OperationId)
    | Drain(id: ResourceId, fromAllocated: bool)
    | Undrain(id: ResourceId)
    | SetProtected(id: ResourceId, protected: bool)
    | Stop(id: ResourceId, op: OperationId, requireUnprotected: bool)
    | Start(id: ResourceId, op: OperationId)
    | PoolDelete(id: ResourceId, op: OperationId)
    | Reclaim(id: ResourceId, op: OperationId, parked: bool)

  datatype DemandStep =
    | Acquire(a: AcquisitionId, className: string, want: Vector, exclusive: bool, ttlMs: nat, maxWaitMs: int)
    | Bind(a: AcquisitionId, id: ResourceId)
    | StartFor(a: AcquisitionId, id: ResourceId, op: OperationId)
    | ScaleFor(a: AcquisitionId, id: ResourceId, op: OperationId, parkable: bool)
    | Close(a: AcquisitionId, from: AcqState, to: AcqState)
    | Return(a: AcquisitionId)
    | EndOfLease(l: LeaseId, expired: bool)

  datatype SweepStep =
    | List
    | Arm
    | Sight(id: ResourceId, sighted: Sighting, cap: Vector)
    | MintFound(id: ResourceId, ext: ExternalId, ownership: Ownership, className: string, stopped: bool, parkable: bool, cap: Vector)
    | GetMissed(id: ResourceId)
    | MarkOrphan(id: ResourceId)
    | Bury(id: ResourceId, graceMs: nat)
    | Finished

  datatype Step =
    | Tick(ms: nat)
    | Crash
    | Engine(e: EngineStep)
    | Manage(m: FleetStep)
    | Serve(d: DemandStep)
    | Discover(v: SweepStep)

  /** Rows the sweep asks the provider about: known to the snapshot, not sighted, and without an open operation. */
  predicate Unsighted(sweep: Sweep, id: ResourceId) {
    sweep.Armed? && id in sweep.rows && sweep.rows[id].externalId.Some? && id !in sweep.seen && id !in sweep.open
  }

  /** And those it acts on: absence from a listing is not enough, a direct get must have said not found. */
  predicate ConfirmedLost(sweep: Sweep, id: ResourceId) {
    Unsighted(sweep, id) && id in sweep.missing
  }

  predicate TombstoneDue(sweep: Sweep, id: ResourceId, graceMs: nat) {
    ConfirmedLost(sweep, id) && sweep.rows[id].phase.Orphaned? && sweep.at - sweep.rows[id].updatedAt >= graceMs
  }

  function EngineNext(db: Fleet, e: EngineStep, now: int): Fleet {
    match e
    case Dispatched(op, window) => Dispatch(db, op, window, now)
    case Accepted(op, ref) => Attach(db, op, OpInFlight, ref)
    case Refused(op, f) => ApplyFailed(db, op, f, now)
    case Observed(op, seen, gate) => Polled(db, op, seen, gate, now)
    case LookedUp(op, labels, found, readAt) => Verified(db, op, labels, found, readAt, now)
    case GaveUp(op) => if CanDispatch(db, op) then db else FailOp(db, op, OpJournaled, now)
    case NoDriver(op) =>
      if op in db.operations && db.operations[op].state in {OpJournaled, OpExternalAccepted, OpVerifying}
      then FailOp(db, op, db.operations[op].state, now) else db
    case Resumed(op) => MoveOp(db, op, OpInFlight, OpVerifying)
    case Thawed(op) => Thaw(db, op, now)
    case MarkedFailed(op) => MarkFailed(db, op, now)
  }

  function FleetNext(db: Fleet, m: FleetStep, now: int): Fleet {
    match m
    case Create(id, op, className, pool, parkable) => JournalCreate(db, id, op, NewRow(className, pool, parkable, now), now)
    case ApiDelete(id, op) => DeleteResource(db, id, op, now)
    case Drain(id, fromAllocated) => MovePhase(db, id, if fromAllocated then Allocated else Ready, Draining, now)
    case Undrain(id) => MovePhase(db, id, Draining, Ready, now)
    case SetProtected(id, protected) => Protect(db, id, protected, now)
    case Stop(id, op, requireUnprotected) => JournalStop(db, id, op, requireUnprotected, now)
    case Start(id, op) => JournalStart(db, id, op, now)
    case PoolDelete(id, op) => JournalDelete(db, id, op, now)
    case Reclaim(id, op, parked) => CostReclaim(db, id, op, if parked then Parked else Ready, now)
  }

  function DemandNext(db: Fleet, d: DemandStep, now: int): Fleet {
    match d
    case Acquire(a, className, want, exclusive, ttlMs, maxWaitMs) =>
      InsertAcquisition(db, a, Acquisition(className, want, exclusive, ttlMs, maxWaitMs, AcqPending, None, None, now, now))
    case Bind(a, id) => Reserve(db, a, id, now)
    case StartFor(a, id, op) => StartParked(db, a, id, op, now)
    case ScaleFor(a, id, op, parkable) =>
      if a in db.acquisitions
      then ScaleOnDemand(db, a, id, op, NewRow(db.acquisitions[a].className, None, parkable, now), now) else db
    case Close(a, from, to) =>
      if from in {AcqPending, AcqProvisioning} && to in {AcqFailed, AcqReleased, AcqExpired} then MoveAcq(db, a, from, to, now) else db
    case Return(a) => RePend(db, a, now)
    case EndOfLease(l, expired) => EndLease(db, l, expired, now)
  }

  function SweepDb(db: Fleet, sweep: Sweep, v: SweepStep): Fleet {
    if !sweep.Armed? then db
    else match v
      case Sight(id, sighted, cap) => if id in sweep.rows then Refresh(db, id, sweep.rows[id], sighted, cap, sweep.at) else db
      case MintFound(id, ext, ownership, className, stopped, parkable, cap) =>
        Mint(db, id, MintedRow(ext, ownership, className, stopped, parkable, cap, sweep.at))
      case MarkOrphan(id) =>
        if ConfirmedLost(sweep, id) && CanTransition(sweep.rows[id].phase, Orphaned)
        then MovePhase(db, id, sweep.rows[id].phase, Orphaned, sweep.at) else db
      case Bury(id, graceMs) => if TombstoneDue(sweep, id, graceMs) then TombstoneOrphan(db, id, sweep.at) else db
      case _ => db
  }

  /** The fleet after one step. Steps that only touch memory or time leave it unchanged. */
  function NextDb(w: World, s: Step): Fleet {
    match s
    case Tick(_) => w.db
    case Crash => w.db
    case Engine(e) => EngineNext(w.db, e, w.clock)
    case Manage(m) => FleetNext(w.db, m, w.clock)
    case Serve(d) => DemandNext(w.db, d, w.clock)
    case Discover(v) => SweepDb(w.db, w.sweep, v)
  }

  function LiveRows(rows: Rows): Rows {
    map id | id in rows && rows[id].deletedAt.None? :: rows[id]
  }

  function HeldRows(ops: Ops): set<ResourceId> {
    set o | o in ops && !ops[o].state.Terminal() :: ops[o].resource
  }

  /** The sweep lists the rows first and the open operations after. */
  function SweepNext(w: World, v: SweepStep): Sweep {
    match v
    case List => if w.sweep.NoSweep? then Listed(LiveRows(w.db.resources)) else w.sweep
    case Arm => if w.sweep.Listed? then Armed(w.sweep.rows, HeldRows(w.db.operations), w.clock, {}, {}) else w.sweep
    case Sight(id, _, _) => if w.sweep.Armed? && id in w.sweep.rows then w.sweep.(seen := w.sweep.seen + {id}) else w.sweep
    case GetMissed(id) => if Unsighted(w.sweep, id) then w.sweep.(missing := w.sweep.missing + {id}) else w.sweep
    case Finished => NoSweep
    case _ => w.sweep
  }

  predicate Sights(w: World, s: Step) {
    s.Discover? && s.v.Sight? && w.sweep.Armed? && s.v.id in w.sweep.rows
  }

  function Next(w: World, s: Step): World {
    World(NextDb(w, s),
          if s.Tick? then w.clock + s.ms else w.clock,
          if s.Crash? then NoSweep else if s.Discover? then SweepNext(w, s.v) else w.sweep,
          if Sights(w, s) then w.sightings[s.v.id := w.sweep.at] else w.sightings)
  }

  function Run(w: World, steps: seq<Step>): World {
    if |steps| == 0 then w else Next(Run(w, steps[..|steps| - 1]), steps[|steps| - 1])
  }

  function Boot(clock: int): World {
    World(Fleet(map[], map[], [], map[]), clock, NoSweep, map[])
  }

  // ---- The sweep's snapshot ----

  /** Rows of the snapshot that this sweep has not sighted. */
  predicate Pending(sweep: Sweep, id: ResourceId) {
    !sweep.NoSweep? && id in sweep.rows && !(sweep.Armed? && id in sweep.seen)
  }

  /** What other actors cannot undo behind the sweep's back: an unsighted orphan stays where the snapshot saw it,
      and a row without an open operation never comes to be created again. */
  ghost predicate EntryHolds(rows: Rows, sweep: Sweep, id: ResourceId)
    requires Pending(sweep, id)
  {
    && id in rows
    && (sweep.rows[id].phase.Orphaned? ==> rows[id].phase.Orphaned?)
    && (sweep.Armed? && id !in sweep.open && Live(rows, id) ==> !rows[id].phase.Provisioning?)
  }

  ghost predicate SnapshotHolds(rows: Rows, sweep: Sweep) {
    forall id :: Pending(sweep, id) ==> EntryHolds(rows, sweep, id)
  }

  /** A sighting bumps the row's own clock, and nothing sets that clock back past it. */
  ghost predicate SightingsKept(w: World) {
    && (forall id :: id in w.sightings ==>
          && id in w.db.resources && w.sightings[id] <= w.clock
          && (Live(w.db.resources, id) ==> w.sightings[id] <= w.db.resources[id].updatedAt))
    && (w.sweep.Listed? || w.sweep.Armed? ==>
          forall id :: id in w.sweep.rows && id in w.sightings && !(w.sweep.Armed? && id in w.sweep.seen) ==>
            w.sightings[id] <= w.sweep.rows[id].updatedAt)
    && (w.sweep.Armed? ==>
          && w.sweep.at <= w.clock
          && (forall id :: id in w.sightings ==> w.sightings[id] <= w.sweep.at)
          && (forall id :: id in w.sweep.seen ==> id in w.sightings && w.sightings[id] == w.sweep.at))
  }

  ghost predicate Sound(w: World) {
    Inv(w.db) && SnapshotHolds(w.db.resources, w.sweep) && SightingsKept(w)
  }

  // ---- One step ----

  lemma EngineKeepsInv(db: Fleet, e: EngineStep, now: int)
    requires Inv(db)
    ensures Inv(EngineNext(db, e, now))
  {
    match e
    case Dispatched(op, window) => DispatchKeeps(db, op, window, now);
    case Accepted(op, ref) => AttachKeeps(db, op, OpInFlight, ref);
    case Refused(op, f) => ApplyFailedKeeps(db, op, f, now);
    case Observed(op, seen, gate) => PolledKeeps(db, op, seen, gate, now);
    case LookedUp(op, labels, found, readAt) => VerifiedKeeps(db, op, labels, found, readAt, now);
    case GaveUp(op) => FailOpKeeps(db, op, OpJournaled, now);
    case NoDriver(op) =>
      FailOpKeeps(db, op, OpJournaled, now);
      FailOpKeeps(db, op, OpExternalAccepted, now);
      FailOpKeeps(db, op, OpVerifying, now);
    case Resumed(op) => MoveOpKeeps(db, op, OpInFlight, OpVerifying);
    case Thawed(op) => ResolveKeeps(db, op, now);
    case MarkedFailed(op) => ResolveKeeps(db, op, now);
  }

  lemma FleetKeepsInv(db: Fleet, m: FleetStep, now: int)
    requires Inv(db)
    ensures Inv(FleetNext(db, m, now))
  {
    match m
    case Create(id, op, className, pool, parkable) => JournalCreateKeeps(db, id, op, NewRow(className, pool, parkable, now), now);
    case ApiDelete(id, op) => DeleteKeeps(db, id, op, now);
    case Drain(id, fromAllocated) => MovePhaseKeeps(db, id, if fromAllocated then Allocated else Ready, Draining, now);
    case Undrain(id) => MovePhaseKeeps(db, id, Draining, Ready, now);
    case SetProtected(id, protected) =>
      if Live(db.resources, id) {
        SideColumnsKeep(db, id, db.resources[id].(deleteProtected := protected, updatedAt := now));
      }
    case Stop(id, op, requireUnprotected) =>
      if CanStop(db, id, op, requireUnprotected) { JournalPhaseOpKeeps(db, id, op, OpKindStop, now); }
    case Start(id, op) =>
      if CanStart(db, id, op) { JournalPhaseOpKeeps(db, id, op, OpKindStart, now); }
    case PoolDelete(id, op) => DeleteKeeps(db, id, op, now);
    case Reclaim(id, op, parked) => DeleteKeeps(db, id, op, now);
  }

  lemma DemandKeepsInv(db: Fleet, d: DemandStep, now: int)
    requires Inv(db)
    ensures Inv(DemandNext(db, d, now))
  {
    match d
    case Acquire(a, className, want, exclusive, ttlMs, maxWaitMs) =>
      InsertAcquisitionKeeps(db, a, Acquisition(className, want, exclusive, ttlMs, maxWaitMs, AcqPending, None, None, now, now));
    case Bind(a, id) => ReserveKeeps(db, a, id, now);
    case StartFor(a, id, op) => StartParkedKeeps(db, a, id, op, now);
    case ScaleFor(a, id, op, parkable) =>
      if a in db.acquisitions {
        ScaleOnDemandKeeps(db, a, id, op, NewRow(db.acquisitions[a].className, None, parkable, now), now);
      }
    case Close(a, from, to) =>
      if from in {AcqPending, AcqProvisioning} && to in {AcqFailed, AcqReleased, AcqExpired} { MoveAcqKeeps(db, a, from, to, now); }
    case Return(a) => RePendKeeps(db, a, now);
    case EndOfLease(l, expired) => EndLeaseKeeps(db, l, expired, now);
  }

  /** The stale snapshot cannot orphan a row out from under an operation, and the tombstone that does not
      re-check the phase still only hits orphans. */
  lemma SweepKeepsInv(db: Fleet, sweep: Sweep, v: SweepStep)
    requires Inv(db) && SnapshotHolds(db.resources, sweep)
    ensures Inv(SweepDb(db, sweep, v))
  {
    if sweep.Armed? {
      match v {
        case Sight(id, sighted, cap) =>
          if id in sweep.rows { RefreshKeeps(db, id, sweep.rows[id], sighted, cap, sweep.at); }
        case MintFound(id, ext, ownership, className, stopped, parkable, cap) =>
          MintKeeps(db, id, MintedRow(ext, ownership, className, stopped, parkable, cap, sweep.at));
        case MarkOrphan(id) =>
          if ConfirmedLost(sweep, id) && CanTransition(sweep.rows[id].phase, Orphaned) && InPhase(db.resources, id, sweep.rows[id].phase) {
            assert Pending(sweep, id);
            MovePhaseKeeps(db, id, sweep.rows[id].phase, Orphaned, sweep.at);
          }
        case Bury(id, graceMs) =>
          if TombstoneDue(sweep, id, graceMs) && Live(db.resources, id) && Unleased(db.leases, id) {
            assert Pending(sweep, id);
            TombstoneKeeps(db, id, sweep.at);
          }
        case _ =>
      }
    }
  }

  lemma StepKeepsInv(w: World, s: Step)
    requires Inv(w.db) && SnapshotHolds(w.db.resources, w.sweep)
    ensures Inv(NextDb(w, s))
  {
    match s
    case Tick(_) =>
    case Crash =>
    case Engine(e) => EngineKeepsInv(w.db, e, w.clock);
    case Manage(m) => FleetKeepsInv(w.db, m, w.clock);
    case Serve(d) => DemandKeepsInv(w.db, d, w.clock);
    case Discover(v) => SweepKeepsInv(w.db, w.sweep, v);
  }

  // ---- Phase moves ----

  /** What one transaction may do to a row: a live row moves along the table, a tombstone is final, and a new row
      starts in creation or as found. */
  ghost predicate LegalMove(rows: Rows, rows': Rows, id: ResourceId) {
    if id in rows then
      && id in rows'
      && (rows[id].deletedAt.Some? ==> rows'[id].deletedAt.Some?)
      && (rows'[id].phase == rows[id].phase ||
          (Live(rows, id) && Live(rows', id) && CanTransition(rows[id].phase, rows'[id].phase)))
    else
      id in rows' ==> rows'[id].phase in {Provisioning, Ready, Parked} && rows'[id].deletedAt.None?
  }

  /** Outside the sweep, moreover, an orphan stays an orphan, and a row's clock moves to the present or not at all. */
  ghost predicate PlainMove(rows: Rows, rows': Rows, id: ResourceId, now: int) {
    && LegalMove(rows, rows', id)
    && (id in rows ==>
          && (rows[id].phase.Orphaned? ==> rows'[id].phase.Orphaned?)
          && (rows'[id].updatedAt == rows[id].updatedAt || rows'[id].updatedAt == now))
  }

  lemma FailOpMoves(db: Fleet, op: OperationId, from: OpState, now: int, id: ResourceId)
    ensures PlainMove(db.resources, FailOp(db, op, from, now).resources, id, now)
  {
  }

  lemma ApplyFailedMoves(db: Fleet, op: OperationId, f: Failure, now: int, id: ResourceId)
    ensures PlainMove(db.resources, ApplyFailed(db, op, f, now).resources, id, now)
  {
    hide PlainMove, FailOp, Classify, Effect;
    RowsKept(db.resources, id, now);
    FailOpMoves(db, op, OpInFlight, now, id);
    SucceedDeleteMoves(db, op, OpInFlight, now, id);
    MoveOpKeepsRows(db, op, OpInFlight, OpJournaled);
    MoveOpKeepsRows(db, op, OpInFlight, OpVerifying);
    hide SucceedDelete, MoveOp;
  }

  lemma RowsKept(rows: Rows, id: ResourceId, now: int)
    ensures PlainMove(rows, rows, id, now)
  {
  }

  lemma MoveOpKeepsRows(db: Fleet, op: OperationId, from: OpState, to: OpState)
    ensures MoveOp(db, op, from, to).resources == db.resources
  {
  }

  lemma FinishMoves(db: Fleet, op: OperationId, from: OpState, to: Phase, facts: Option<Vector>, now: int, id: ResourceId)
    requires op in db.operations ==> CanTransition(ShieldOf(db.operations[op].kind), to)
    ensures PlainMove(db.resources, Finish(db, op, from, to, facts, now).resources, id, now)
  {
    if CanFinish(db, op, from) && db.operations[op].resource == id {
      var r := db.resources[id];
      assert Moved(WithFacts(r, facts, now), to, now).phase == to && r.phase == ShieldOf(db.operations[op].kind);
    }
  }

  lemma SucceedDeleteMoves(db: Fleet, op: OperationId, from: OpState, now: int, id: ResourceId)
    ensures PlainMove(db.resources, SucceedDelete(db, op, from, now).resources, id, now)
  {
  }

  lemma PolledMoves(db: Fleet, op: OperationId, seen: Observation, gate: Gate, now: int, id: ResourceId)
    ensures PlainMove(db.resources, Polled(db, op, seen, gate, now).resources, id, now)
  {
    hide PlainMove, FailOp, Classify, SucceedDelete, Finish, MoveOp, FailOpPhases;
    RowsKept(db.resources, id, now);
    MoveOpKeepsRows(db, op, OpExternalAccepted, OpVerifying);
    FailOpMoves(db, op, OpExternalAccepted, now, id);
    if OpIn(db, op, OpExternalAccepted) {
      StartFailMoves(db, op, now, id);
      var kind := db.operations[op].kind;
      SucceedDeleteMoves(db, op, OpExternalAccepted, now, id);
      if kind.OpKindStop? { FinishMoves(db, op, OpExternalAccepted, Parked, None, now, id); }
      if !kind.OpKindDelete? && seen.ObserveSucceeded? { FinishMoves(db, op, OpExternalAccepted, Ready, seen.facts, now, id); }
    }
  }

  lemma StartFailMoves(db: Fleet, op: OperationId, now: int, id: ResourceId)
    ensures PlainMove(db.resources, FailOpPhases(db, op, OpExternalAccepted, Starting, Failed, now).resources, id, now)
  {
  }

  lemma AttachMoves(db: Fleet, op: OperationId, from: OpState, ref: Option<ExternalId>, now: int, id: ResourceId)
    ensures PlainMove(db.resources, Attach(db, op, from, ref).resources, id, now)
  {
  }

  lemma VerifiedMoves(db: Fleet, op: OperationId, labels: bool, seen: Lookup, readAt: int, now: int, id: ResourceId)
    ensures PlainMove(db.resources, Verified(db, op, labels, seen, readAt, now).resources, id, now)
  {
    hide PlainMove, FailOp, SucceedDelete, MoveOp, Attach;
    RowsKept(db.resources, id, now);
    FailOpMoves(db, op, OpVerifying, now, id);
    SucceedDeleteMoves(db, op, OpVerifying, now, id);
    MoveOpKeepsRows(db, op, OpVerifying, OpJournaled);
    MoveOpKeepsRows(db, op, OpVerifying, OpUncertain);
    if seen.LookupFound? { AttachMoves(db, op, OpVerifying, Some(seen.ext), now, id); }
  }

  lemma EngineMovesLegally(db: Fleet, e: EngineStep, now: int, id: ResourceId)
    ensures PlainMove(db.resources, EngineNext(db, e, now).resources, id, now)
  {
    match e
    case Dispatched(op, window) =>
    case Accepted(op, ref) =>
    case Refused(op, f) => ApplyFailedMoves(db, op, f, now, id);
    case Observed(op, seen, gate) => PolledMoves(db, op, seen, gate, now, id);
    case LookedUp(op, labels, found, readAt) => VerifiedMoves(db, op, labels, found, readAt, now, id);
    case GaveUp(op) => FailOpMoves(db, op, OpJournaled, now, id);
    case NoDriver(op) =>
      FailOpMoves(db, op, OpJournaled, now, id);
      FailOpMoves(db, op, OpExternalAccepted, now, id);
      FailOpMoves(db, op, OpVerifying, now, id);
    case Resumed(op) =>
    case Thawed(op) =>
    case MarkedFailed(op) =>
  }

  lemma FleetMovesLegally(db: Fleet, m: FleetStep, now: int, id: ResourceId)
    ensures PlainMove(db.resources, FleetNext(db, m, now).resources, id, now)
  {
    hide PlainMove, Delete, QueueBlocks, CanJournalCreate, JournalPhaseOp;
    RowsKept(db.resources, id, now);
    match m
    case Create(x, op, className, pool, parkable) =>
      if CanJournalCreate(db, x, op) { NewRowMoves(db, x, op, NewRow(className, pool, parkable, now), now, id); }
    case ApiDelete(x, op) => DeleteMoves(db, x, op, now, id);
    case Drain(x, fromAllocated) => BareMoves(db, x, if fromAllocated then Allocated else Ready, Draining, now, id);
    case Undrain(x) => BareMoves(db, x, Draining, Ready, now, id);
    case SetProtected(x, protected) => ProtectMoves(db, x, protected, now, id);
    case Stop(x, op, requireUnprotected) =>
      if CanStop(db, x, op, requireUnprotected) { PhaseOpMoves(db, x, op, OpKindStop, now, id); }
    case Start(x, op) =>
      if CanStart(db, x, op) { PhaseOpMoves(db, x, op, OpKindStart, now, id); }
    case PoolDelete(x, op) => DeleteMoves(db, x, op, now, id);
    case Reclaim(x, op, parked) => DeleteMoves(db, x, op, now, id);
  }

  lemma NewRowMoves(db: Fleet, x: ResourceId, op: OperationId, row: Resource, now: int, id: ResourceId)
    requires CanJournalCreate(db, x, op) && row.phase.Provisioning? && row.deletedAt.None?
    ensures PlainMove(db.resources, JournalCreate(db, x, op, row, now).resources, id, now)
  {
  }

  lemma BareMoves(db: Fleet, x: ResourceId, from: Phase, to: Phase, now: int, id: ResourceId)
    requires CanTransition(from, to) && !from.Orphaned?
    ensures PlainMove(db.resources, MovePhase(db, x, from, to, now).resources, id, now)
  {
  }

  lemma ProtectMoves(db: Fleet, x: ResourceId, protected: bool, now: int, id: ResourceId)
    ensures PlainMove(db.resources, Protect(db, x, protected, now).resources, id, now)
  {
  }

  lemma PhaseOpMoves(db: Fleet, x: ResourceId, op: OperationId, kind: OpKind, now: int, id: ResourceId)
    requires if kind.OpKindStop? then InPhase(db.resources, x, Ready) else InPhase(db.resources, x, Parked)
    requires kind.OpKindStop? || kind.OpKindStart?
    ensures PlainMove(db.resources, JournalPhaseOp(db, x, op, kind, now).resources, id, now)
  {
  }

  lemma DeleteMoves(db: Fleet, x: ResourceId, op: OperationId, now: int, id: ResourceId)
    ensures Live(db.resources, x) && (db.resources[x].externalId.None? || CanTransition(db.resources[x].phase, Deleting)) ==>
              PlainMove(db.resources, Delete(db, x, op, now).resources, id, now)
  {
  }

  lemma DemandMovesLegally(db: Fleet, d: DemandStep, now: int, id: ResourceId)
    ensures PlainMove(db.resources, DemandNext(db, d, now).resources, id, now)
  {
  }

  lemma SweepMovesLegally(db: Fleet, sweep: Sweep, v: SweepStep, id: ResourceId)
    ensures LegalMove(db.resources, SweepDb(db, sweep, v).resources, id)
    ensures !(v.Sight? && v.id == id) && sweep.Armed? ==> PlainMove(db.resources, SweepDb(db, sweep, v).resources, id, sweep.at)
  {
  }

  lemma StepMovesLegally(w: World, s: Step, id: ResourceId)
    ensures LegalMove(w.db.resources, NextDb(w, s).resources, id)
    ensures !s.Discover? ==> PlainMove(w.db.resources, NextDb(w, s).resources, id, w.clock)
  {
    match s
    case Tick(_) =>
    case Crash =>
    case Engine(e) => EngineMovesLegally(w.db, e, w.clock, id);
    case Manage(m) => FleetMovesLegally(w.db, m, w.clock, id);
    case Serve(d) => DemandMovesLegally(w.db, d, w.clock, id);
    case Discover(v) => SweepMovesLegally(w.db, w.sweep, v, id);
  }

  // ---- Every reachable world is sound ----

  lemma ListingHolds(db: Fleet)
    ensures SnapshotHolds(db.resources, Listed(LiveRows(db.resources)))
  {
  }

  /** Arming reads the operations after the rows: a row still being created then is held open. */
  lemma ArmingHolds(db: Fleet, rows: Rows, at: int)
    requires Inv(db) && SnapshotHolds(db.resources, Listed(rows))
    ensures SnapshotHolds(db.resources, Armed(rows, HeldRows(db.operations), at, {}, {}))
  {
    var armed := Armed(rows, HeldRows(db.operations), at, {}, {});
    forall id | Pending(armed, id)
      ensures EntryHolds(db.resources, armed, id)
    {
      assert Pending(Listed(rows), id);
      if InPhase(db.resources, id, Provisioning) {
        var o := Holder(db.operations, id);
        assert o in db.operations && !db.operations[o].state.Terminal();
      }
    }
  }

  /** One row of the snapshot, across one step that keeps it pending. */
  lemma EntryKept(rows: Rows, rows': Rows, sweep: Sweep, id: ResourceId)
    requires Pending(sweep, id) && EntryHolds(rows, sweep, id)
    requires LegalMove(rows, rows', id)
    requires rows[id].phase.Orphaned? ==> rows'[id].phase.Orphaned?
    ensures EntryHolds(rows', sweep, id)
  {
  }

  lemma StepKeepsEntry(w: World, s: Step, id: ResourceId)
    requires SnapshotHolds(w.db.resources, w.sweep) && Pending(w.sweep, id) && !(Sights(w, s) && s.v.id == id)
    ensures EntryHolds(NextDb(w, s).resources, w.sweep, id)
  {
    assert EntryHolds(w.db.resources, w.sweep, id);
    StepMovesLegally(w, s, id);
    if s.Discover? && w.sweep.Armed? { SweepMovesLegally(w.db, w.sweep, s.v, id); }
    EntryKept(w.db.resources, NextDb(w, s).resources, w.sweep, id);
  }

  lemma StepKeepsSnapshot(w: World, s: Step)
    requires Sound(w)
    ensures SnapshotHolds(NextDb(w, s).resources, Next(w, s).sweep)
  {
    var sweep' := Next(w, s).sweep;
    if s == Discover(List) && w.sweep.NoSweep? {
      ListingHolds(w.db);
    } else if s == Discover(Arm) && w.sweep.Listed? {
      ArmingHolds(w.db, w.sweep.rows, w.clock);
    } else {
      forall id | Pending(sweep', id)
        ensures EntryHolds(NextDb(w, s).resources, sweep', id)
      {
        StepKeepsEntry(w, s, id);
      }
    }
  }

  lemma SightedRow(w: World, s: Step, id: ResourceId)
    requires Sound(w) && id in Next(w, s).sightings && Live(NextDb(w, s).resources, id)
    ensures id in w.db.resources && Next(w, s).sightings[id] <= NextDb(w, s).resources[id].updatedAt
  {
    StepMovesLegally(w, s, id);
    if Sights(w, s) && s.v.id == id {
      assert id !in w.sweep.seen ==> Pending(w.sweep, id);
    } else if s.Discover? && w.sweep.Armed? {
      SweepMovesLegally(w.db, w.sweep, s.v, id);
    }
  }

  lemma StepKeepsSightings(w: World, s: Step)
    requires Sound(w)
    ensures SightingsKept(Next(w, s))
  {
    var w' := Next(w, s);
    forall id | id in w'.sightings
      ensures id in w'.db.resources && w'.sightings[id] <= w'.clock
      ensures Live(w'.db.resources, id) ==> w'.sightings[id] <= w'.db.resources[id].updatedAt
    {
      if Sights(w, s) && s.v.id == id { assert id !in w.sweep.seen ==> Pending(w.sweep, id); }
      StepMovesLegally(w, s, id);
      if Live(w'.db.resources, id) { SightedRow(w, s, id); }
    }
  }

  lemma StepKeepsSound(w: World, s: Step)
    requires Sound(w)
    ensures Sound(Next(w, s))
  {
    StepKeepsInv(w, s);
    StepKeepsSnapshot(w, s);
    StepKeepsSightings(w, s);
  }

  /** Every reachable world is sound: any actors, in any order, with crashes anywhere. */
  lemma {:induction false} RunIsSound(w: World, steps: seq<Step>)
    requires Sound(w)
    ensures Sound(Run(w, steps))
  {
    if |steps| > 0 {
      RunIsSound(w, steps[..|steps| - 1]);
      StepKeepsSound(Run(w, steps[..|steps| - 1]), steps[|steps| - 1]);
    }
  }

  lemma BootIsSound(clock: int)
    ensures Sound(Boot(clock))
  {
  }
}
