/**
 * Why a row moves: for every step of every actor, the exact grounds on which a live row changes its phase, a new row
 * appears or an acquisition changes its state. Stated on the rows, leases, operations and the step alone.
 */
module Grounds {
  import opened Basics
  import opened Phases
  import opened Capacity
  import opened Storage
  import opened ProviderErrors
  import opened Transactions
  import opened Invariants
  import opened Runs
  import opened Guarantees
  import opened Evidence
  import Allocation

  // ---- Reservations ----

  predicate Waiting(db: Fleet, a: AcquisitionId) {
    a in db.acquisitions && (db.acquisitions[a].state.AcqPending? || db.acquisitions[a].state.AcqProvisioning?)
  }

  /** The acquisition is waiting, the machine serves, nobody who shares it asked to be alone on it, what is wanted fits beside
      what is leased, and no other dimension is over-allocated already. */
  predicate Grants(db: Fleet, a: AcquisitionId, id: ResourceId) {
    && Waiting(db, a)
    && Live(db.resources, id) && db.resources[id].phase in {Ready, Allocated} && db.resources[id].ownership.OwnershipManaged?
    && (forall i | 0 <= i < |db.leases| && ActiveOn(db.leases[i], id) :: !db.acquisitions[a].exclusive && !db.leases[i].exclusive)
    && var want, total := db.acquisitions[a].want, db.resources[id].capacity;
    && (forall dim <- want.Keys :: dim in total && LeasedOf(db.leases, id, dim) + want[dim] <= total[dim])
    && (forall dim <- total.Keys :: dim !in want ==> LeasedOf(db.leases, id, dim) <= total[dim])
  }

  lemma GrantsIff(db: Fleet, a: AcquisitionId, id: ResourceId, now: int)
    ensures CanReserve(db, a, id, now) <==> Grants(db, a, id)
  {
    if Waiting(db, a) && Live(db.resources, id) {
      var acq, total := db.acquisitions[a], db.resources[id].capacity;
      if forall dim <- acq.want.Keys :: dim in total && LeasedOf(db.leases, id, dim) + acq.want[dim] <= total[dim] {
        Allocation.ReaggregationFires(db.leases, NewLease(acq, a, id, now), id, total);
      }
    }
  }

  // ---- Phases ----

  /** What every command that takes a machine out of service asks of it. */
  predicate Takeable(db: Fleet, id: ResourceId, op: OperationId)
    requires Live(db.resources, id)
  {
    var r := db.resources[id];
    r.ownership.OwnershipManaged? && !r.deleteProtected && Unleased(db.leases, id) && r.externalId.Some? && op !in db.operations
  }

  predicate Startable(db: Fleet, id: ResourceId, op: OperationId)
    requires Live(db.resources, id)
  {
    var r := db.resources[id];
    r.phase.Parked? && r.ownership.OwnershipManaged? && r.parkable && r.externalId.Some? && op !in db.operations
  }

  predicate LastActive(db: Fleet, l: LeaseId, id: ResourceId) {
    l < |db.leases| && ActiveOn(db.leases[l], id) && forall i | 0 <= i < |db.leases| && i != l :: !ActiveOn(db.leases[i], id)
  }

  /** The answer moves its row. */
  predicate Answers(db: Fleet, e: EngineStep, id: ResourceId, to: Phase) {
    && e.op in db.operations && db.operations[e.op].resource == id
    && var o := db.operations[e.op];
    || (Confirms(o, e) && to == if o.kind.OpKindStop? then Parked else Ready)
    || (Fails(o, e) && to == FailedPhase(o, e))
  }

  predicate Commands(db: Fleet, m: FleetStep, id: ResourceId, to: Phase, now: int)
    requires Live(db.resources, id)
  {
    var r := db.resources[id];
    m.id == id && match m
    case Drain(_, fromAllocated) => to.Draining? && if fromAllocated then r.phase.Allocated? else r.phase.Ready?
    case Undrain(_) => to.Ready? && r.phase.Draining?
    case Stop(_, op, requireUnprotected) =>
      && to.Parking? && r.phase.Ready? && r.ownership.OwnershipManaged? && (r.deleteProtected ==> !requireUnprotected)
      && r.parkable && Unleased(db.leases, id) && r.externalId.Some? && op !in db.operations
    case Start(_, op) => to.Starting? && Startable(db, id, op)
    case ApiDelete(_, op) => to.Deleting? && r.phase in {Unknown, Ready, Draining, Failed, Parked} && Takeable(db, id, op)
    case PoolDelete(_, op) => to.Deleting? && r.phase in {Draining, Failed} && Takeable(db, id, op)
    case Reclaim(_, op, parked) =>
      to.Deleting? && (if parked then r.phase.Parked? else r.phase.Ready?) && !QueueBlocks(db, id, now) && Takeable(db, id, op)
    case _ => false
  }

  predicate Demands(db: Fleet, d: DemandStep, id: ResourceId, to: Phase)
    requires Live(db.resources, id)
  {
    match d
    case Bind(a, x) => x == id && to.Allocated? && db.resources[id].phase.Ready? && Grants(db, a, id)
    case StartFor(a, x, op) =>
      x == id && to.Starting? && Startable(db, id, op) && a in db.acquisitions && db.acquisitions[a].state.AcqPending?
    case EndOfLease(l, _) => to.Ready? && db.resources[id].phase.Allocated? && LastActive(db, l, id)
    case _ => false
  }

  predicate Discovers(db: Fleet, sweep: Sweep, v: SweepStep, id: ResourceId, to: Phase)
    requires Live(db.resources, id)
  {
    && sweep.Armed? && id in sweep.rows
    && match v
       case Sight(x, sighted, _) =>
         && x == id && sweep.rows[id].phase.Orphaned? && db.resources[id].phase.Orphaned?
         && ((sighted.SeenRunning? && to.Ready?) || (sighted.SeenStopped? && sweep.rows[id].parkable && to.Parked?))
       case MarkOrphan(x) =>
         && x == id && to.Orphaned?
         && sweep.rows[id].externalId.Some? && id !in sweep.seen && id !in sweep.open && id in sweep.missing
         && sweep.rows[id].phase in {Unknown, Provisioning, Ready, Allocated, Parked} && db.resources[id].phase == sweep.rows[id].phase
       case _ => false
  }

  /** The grounds on which a live row moves to another phase. */
  predicate Moves(w: World, s: Step, id: ResourceId, to: Phase)
    requires Live(w.db.resources, id)
  {
    match s
    case Engine(e) => Answers(w.db, e, id, to)
    case Manage(m) => Commands(w.db, m, id, to, w.clock)
    case Serve(d) => Demands(w.db, d, id, to)
    case Discover(v) => Discovers(w.db, w.sweep, v, id, to)
    case _ => false
  }

  /** The row is live after the step, and in another phase than before. */
  predicate MovedTo(rows: Rows, rows': Rows, id: ResourceId, to: Phase)
    requires id in rows
  {
    InPhase(rows', id, to) && rows[id].phase != to
  }

  lemma AnswerMoves(db: Fleet, e: EngineStep, now: int, id: ResourceId, to: Phase)
    requires Inv(db) && Live(db.resources, id)
    ensures MovedTo(db.resources, EngineNext(db, e, now).resources, id, to) <==> Answers(db, e, id, to)
  {
    if e.op in db.operations {
      var o := db.operations[e.op];
      assert OpHolds(db.resources, o);
      hide Inv, EngineNext;
      EngineOutcome(db, e, now);
      OutcomeMoves(db, EngineNext(db, e, now), e, now, id, to);
    } else {
      NoOpNoChange(db, e, now);
    }
  }

  lemma OutcomeMoves(db: Fleet, db': Fleet, e: EngineStep, now: int, id: ResourceId, to: Phase)
    requires e.op in db.operations && Live(db.resources, id) && OpHolds(db.resources, db.operations[e.op])
    requires Outcome(db, db', e, now)
    ensures MovedTo(db.resources, db'.resources, id, to) <==> Answers(db, e, id, to)
  {
    var o := db.operations[e.op];
    if o.resource != id {
      OutcomeIsScoped(db, db', e, now);
    } else if Fails(o, e) || Confirms(o, e) {
      SettlingMoves(db, db', e, now, to);
    } else {
      hide Fails, Confirms;
    }
  }

  lemma SettlingMoves(db: Fleet, db': Fleet, e: EngineStep, now: int, to: Phase)
    requires e.op in db.operations && Live(db.resources, db.operations[e.op].resource) && OpHolds(db.resources, db.operations[e.op])
    requires Outcome(db, db', e, now) && (Fails(db.operations[e.op], e) || Confirms(db.operations[e.op], e))
    ensures MovedTo(db.resources, db'.resources, db.operations[e.op].resource, to) <==> Answers(db, e, db.operations[e.op].resource, to)
  {
    hide Sends, Accepts, SaysGone, Scoped;
    assert !db.operations[e.op].state.Terminal();
    assert !Sends(db.operations[e.op], e) && !Accepts(db.operations[e.op], e) && !SaysGone(db.operations[e.op], e) by {
      Disjoint(db.operations[e.op], e);
    }
  }

  /** No answer both settles an operation and lets it go on. */
  lemma Disjoint(o: Operation, e: EngineStep)
    ensures Fails(o, e) || Confirms(o, e) ==> !Sends(o, e) && !Accepts(o, e) && !SaysGone(o, e) && !(Fails(o, e) && Confirms(o, e))
  {
  }

  lemma StopMoves(db: Fleet, x: ResourceId, op: OperationId, requireUnprotected: bool, now: int, id: ResourceId, to: Phase)
    requires Live(db.resources, id) && (db.resources[id].phase.Ready? ==> OpFree(db.operations, id))
    ensures var m := Stop(x, op, requireUnprotected);
            MovedTo(db.resources, FleetNext(db, m, now).resources, id, to) <==> Commands(db, m, id, to, now)
  {
    hide OpFree, Unleased;
  }

  lemma StartMoves(db: Fleet, x: ResourceId, op: OperationId, now: int, id: ResourceId, to: Phase)
    requires Live(db.resources, id) && (db.resources[id].phase.Parked? ==> OpFree(db.operations, id))
    ensures MovedTo(db.resources, JournalStart(db, x, op, now).resources, id, to) <==> x == id && to.Starting? && Startable(db, id, op)
  {
    hide OpFree;
  }

  lemma TakingMoves(db: Fleet, x: ResourceId, op: OperationId, now: int, id: ResourceId, to: Phase)
    requires Live(db.resources, id) && (x == id ==> !Shielded(db.resources[id].phase) && OpFree(db.operations, id))
    ensures MovedTo(db.resources, Delete(db, x, op, now).resources, id, to) <==> x == id && to.Deleting? && Takeable(db, id, op)
  {
    hide OpFree, Unleased;
  }

  /** The phases of the three deletes let nothing through that an operation holds. */
  lemma GuardedDelete(db: Fleet, m: FleetStep, now: int)
    requires m.ApiDelete? || m.PoolDelete? || m.Reclaim?
    ensures FleetNext(db, m, now) == db || FleetNext(db, m, now) == Delete(db, m.id, m.op, now)
    ensures Live(db.resources, m.id) && db.resources[m.id].externalId.Some? ==>
              var p := db.resources[m.id].phase;
              FleetNext(db, m, now) == if (m.ApiDelete? && p in {Unknown, Ready, Draining, Failed, Parked})
                                          || (m.PoolDelete? && p in {Draining, Failed})
                                          || (m.Reclaim? && p == (if m.parked then Parked else Ready) && !QueueBlocks(db, m.id, now))
                                       then Delete(db, m.id, m.op, now) else db
  {
    hide Delete, QueueBlocks;
  }

  lemma DeleteMoves(db: Fleet, m: FleetStep, now: int, id: ResourceId, to: Phase)
    requires Inv(db) && Live(db.resources, id) && (m.ApiDelete? || m.PoolDelete? || m.Reclaim?)
    ensures MovedTo(db.resources, FleetNext(db, m, now).resources, id, to) <==> Commands(db, m, id, to, now)
  {
    var free := !Shielded(db.resources[id].phase);
    if free { UnshieldedFree(db.resources, db.operations, id); }
    GuardedDelete(db, m, now);
    Unmoved(db.resources, id, to);
    hide Inv, QueueBlocks, OpFree, Unleased, FleetNext, MovedTo;
    if m.id != id {
      TakingMoves(db, m.id, m.op, now, id, to);
    } else if db.resources[id].externalId.None? {
      NoMachineNoMove(db, id, m.op, now, id, to);
    } else if free {
      TakingMoves(db, id, m.op, now, id, to);
    }
    hide Delete;
  }

  lemma Unmoved(rows: Rows, id: ResourceId, to: Phase)
    requires id in rows
    ensures !MovedTo(rows, rows, id, to)
  {
  }

  lemma NoMachineNoMove(db: Fleet, x: ResourceId, op: OperationId, now: int, id: ResourceId, to: Phase)
    requires Live(db.resources, id) && db.resources[id].externalId.None?
    ensures !MovedTo(db.resources, Delete(db, x, op, now).resources, id, to)
  {
    hide OpFree, Unleased;
  }

  /** Commands that journal nothing on an existing row. */
  lemma BareCommandMoves(db: Fleet, m: FleetStep, now: int, id: ResourceId, to: Phase)
    requires Live(db.resources, id) && (m.Create? || m.Drain? || m.Undrain? || m.SetProtected?)
    ensures MovedTo(db.resources, FleetNext(db, m, now).resources, id, to) <==> Commands(db, m, id, to, now)
  {
    hide OpFree, Unleased, QueueBlocks;
  }

  lemma CommandMoves(db: Fleet, m: FleetStep, now: int, id: ResourceId, to: Phase)
    requires Inv(db) && Live(db.resources, id)
    ensures MovedTo(db.resources, FleetNext(db, m, now).resources, id, to) <==> Commands(db, m, id, to, now)
  {
    if !Shielded(db.resources[id].phase) { UnshieldedFree(db.resources, db.operations, id); }
    hide Inv, QueueBlocks, OpFree, Unleased, Delete, JournalStart, JournalStop, DeleteResource, JournalDelete, CostReclaim, MovePhase,
         Protect, JournalCreate;
    match m
    case Stop(x, op, requireUnprotected) => StopMoves(db, x, op, requireUnprotected, now, id, to);
    case Start(x, op) => StartMoves(db, x, op, now, id, to);
    case ApiDelete(_, _) => DeleteMoves(db, m, now, id, to);
    case PoolDelete(_, _) => DeleteMoves(db, m, now, id, to);
    case Reclaim(_, _, _) => DeleteMoves(db, m, now, id, to);
    case _ => BareCommandMoves(db, m, now, id, to);
  }

  lemma BindMoves(db: Fleet, a: AcquisitionId, x: ResourceId, now: int, id: ResourceId, to: Phase)
    requires Live(db.resources, id)
    ensures MovedTo(db.resources, Reserve(db, a, x, now).resources, id, to) <==> Demands(db, Bind(a, x), id, to)
  {
    GrantsIff(db, a, x, now);
    hide Room, WithinTotal, NoExclusiveHolder, Unleased;
  }

  lemma DemandMoves(db: Fleet, d: DemandStep, now: int, id: ResourceId, to: Phase)
    requires Inv(db) && Live(db.resources, id)
    ensures MovedTo(db.resources, DemandNext(db, d, now).resources, id, to) <==> Demands(db, d, id, to)
  {
    if !Shielded(db.resources[id].phase) { UnshieldedFree(db.resources, db.operations, id); }
    hide Inv, Grants, OpFree, Reserve, JournalStart;
    match d
    case Bind(a, x) => BindMoves(db, a, x, now, id, to);
    case StartFor(a, x, op) => StartMoves(db, x, op, now, id, to);
    case EndOfLease(l, expired) => EndMoves(db, l, expired, now, id, to);
    case _ =>
  }

  lemma EndMoves(db: Fleet, l: LeaseId, expired: bool, now: int, id: ResourceId, to: Phase)
    requires Inv(db) && Live(db.resources, id)
    ensures MovedTo(db.resources, EndLease(db, l, expired, now).resources, id, to) <==> Demands(db, EndOfLease(l, expired), id, to)
  {
    if l < |db.leases| { assert LeaseGuarded(db.resources, db.leases[l]); }
  }

  lemma SightingMoves(db: Fleet, sweep: Sweep, v: SweepStep, id: ResourceId, to: Phase)
    requires Live(db.resources, id) && v.Sight?
    ensures MovedTo(db.resources, SweepDb(db, sweep, v).resources, id, to) <==> Discovers(db, sweep, v, id, to)
  {
  }

  lemma DiscoveryMoves(db: Fleet, sweep: Sweep, v: SweepStep, id: ResourceId, to: Phase)
    requires Live(db.resources, id)
    ensures MovedTo(db.resources, SweepDb(db, sweep, v).resources, id, to) <==> Discovers(db, sweep, v, id, to)
  {
    if v.Sight? {
      SightingMoves(db, sweep, v, id, to);
    } else {
      hide Refresh, Unleased, ExternalFree;
    }
  }

  /** Over every run: a live row changes its phase exactly on these grounds. */
  lemma MovesExactlyOnGrounds(clock: int, steps: seq<Step>, s: Step, id: ResourceId, to: Phase)
    requires Live(Run(Boot(clock), steps).db.resources, id)
    ensures MovedTo(Run(Boot(clock), steps).db.resources, Run(Boot(clock), steps + [s]).db.resources, id, to)
            <==> Moves(Run(Boot(clock), steps), s, id, to)
  {
    var w := Run(Boot(clock), steps);
    assert (steps + [s])[..|steps|] == steps;
    BootIsSound(clock);
    RunIsSound(Boot(clock), steps);
    InvOf(w);
    hide Sound, Inv, Answers, Commands, Demands, Discovers, EngineNext, FleetNext, DemandNext, SweepDb;
    match s
    case Engine(e) => AnswerMoves(w.db, e, w.clock, id, to);
    case Manage(m) => CommandMoves(w.db, m, w.clock, id, to);
    case Serve(d) => DemandMoves(w.db, d, w.clock, id, to);
    case Discover(v) => DiscoveryMoves(w.db, w.sweep, v, id, to);
    case _ =>
  }

  /** Over every run: a machine that is protected or not managed is never taken for deletion, and one that is not managed
      is never stopped, started or leased. */
  lemma OnlyTheManagedAreTaken(clock: int, steps: seq<Step>, s: Step, id: ResourceId, to: Phase)
    requires var rows := Run(Boot(clock), steps).db.resources;
             Live(rows, id) && MovedTo(rows, Run(Boot(clock), steps + [s]).db.resources, id, to)
    ensures var r := Run(Boot(clock), steps).db.resources[id];
            && (to.Deleting? ==> r.ownership.OwnershipManaged? && !r.deleteProtected && Unleased(Run(Boot(clock), steps).db.leases, id))
            && (to.Parking? || to.Starting? || to.Allocated? ==> r.ownership.OwnershipManaged?)
            && (to.Parking? && r.deleteProtected ==> s.Manage? && s.m.Stop? && !s.m.requireUnprotected)
  {
    MovesExactlyOnGrounds(clock, steps, s, id, to);
  }

  // ---- New rows and operations ----

  function BlankRow(className: string, pool: Option<PoolId>, parkable: bool, now: int): Resource {
    Resource(Provisioning, OwnershipManaged, None, false, pool, className, map[], parkable, now, now, None, None, None, None, None)
  }

  /** A new row is either in creation, without a machine, or that of a found machine no live row owns. */
  predicate Appears(w: World, s: Step, id: ResourceId, r: Resource) {
    match s
    case Manage(m) =>
      && m.Create? && m.id == id && m.op !in w.db.operations
      && r == BlankRow(m.className, m.pool, m.parkable, w.clock)
    case Serve(d) =>
      && d.ScaleFor? && d.id == id && d.op !in w.db.operations
      && d.a in w.db.acquisitions && w.db.acquisitions[d.a].state.AcqPending?
      && r == BlankRow(w.db.acquisitions[d.a].className, None, d.parkable, w.clock)
    case Discover(v) =>
      && v.MintFound? && v.id == id && w.sweep.Armed?
      && (forall x <- w.db.resources.Keys :: Live(w.db.resources, x) ==> w.db.resources[x].externalId != Some(v.ext))
      && var parked := v.stopped && v.parkable;
      r == Resource(if parked then Parked else Ready, v.ownership, Some(v.ext), false, None, v.className, v.cap, v.parkable,
                    w.sweep.at, w.sweep.at, None, None, None, if parked then Some(w.sweep.at) else None, None)
    case _ => false
  }

  lemma FreshFree(db: Fleet, id: ResourceId)
    requires Inv(db) && id !in db.resources
    ensures OpFree(db.operations, id)
  {
    forall o | o in db.operations.Keys && ActiveOp(db.operations, o)
      ensures db.operations[o].resource != id
    {
      assert OpHolds(db.resources, db.operations[o]);
    }
  }

  lemma CommandAppears(w: World, m: FleetStep, id: ResourceId, r: Resource)
    requires Inv(w.db) && id !in w.db.resources
    ensures var rows' := FleetNext(w.db, m, w.clock).resources; (id in rows' && rows'[id] == r) <==> Appears(w, Manage(m), id, r)
  {
    FreshFree(w.db, id);
    CommandAddsNoOthers(w.db, m, w.clock, id);
    hide Inv, OpFree, Delete, JournalStop, JournalStart, JournalDelete, DeleteResource, CostReclaim, MovePhase;
  }

  lemma DemandAppears(w: World, d: DemandStep, id: ResourceId, r: Resource)
    requires Inv(w.db) && id !in w.db.resources
    ensures var rows' := DemandNext(w.db, d, w.clock).resources; (id in rows' && rows'[id] == r) <==> Appears(w, Serve(d), id, r)
  {
    FreshFree(w.db, id);
    hide Inv, OpFree, CanReserve, LastLease;
  }

  lemma SweepAppears(w: World, v: SweepStep, id: ResourceId, r: Resource)
    requires id !in w.db.resources
    ensures var rows' := SweepDb(w.db, w.sweep, v).resources; (id in rows' && rows'[id] == r) <==> Appears(w, Discover(v), id, r)
  {
    hide Unleased;
  }

  lemma StepAppears(w: World, s: Step, id: ResourceId, r: Resource)
    requires Inv(w.db) && id !in w.db.resources
    ensures var rows' := NextDb(w, s).resources; (id in rows' && rows'[id] == r) <==> Appears(w, s, id, r)
  {
    hide Inv, EngineNext, FleetNext, DemandNext, SweepDb;
    match s
    case Engine(e) => EngineKeepsKeys(w.db, e, w.clock);
    case Manage(m) => CommandAppears(w, m, id, r);
    case Serve(d) => DemandAppears(w, d, id, r);
    case Discover(v) => SweepAppears(w, v, id, r);
    case _ =>
  }

  lemma CommandAddsNoOthers(db: Fleet, m: FleetStep, now: int, id: ResourceId)
    requires id !in db.resources
    ensures !m.Create? ==> id !in FleetNext(db, m, now).resources
  {
    hide OpFree, Unleased, QueueBlocks;
  }

  lemma EngineKeepsKeys(db: Fleet, e: EngineStep, now: int)
    requires Inv(db)
    ensures EngineNext(db, e, now).resources.Keys == db.resources.Keys
  {
    hide Inv, EngineNext;
    if e.op in db.operations {
      EngineOutcome(db, e, now);
      OutcomeIsScoped(db, EngineNext(db, e, now), e, now);
    } else {
      NoOpNoChange(db, e, now);
    }
  }

  /** Over every run: a row appears exactly as a command, an acquisition or a listed machine asks for it. */
  lemma AppearsExactlyAsAsked(clock: int, steps: seq<Step>, s: Step, id: ResourceId, r: Resource)
    requires id !in Run(Boot(clock), steps).db.resources
    ensures var rows' := Run(Boot(clock), steps + [s]).db.resources;
            (id in rows' && rows'[id] == r) <==> Appears(Run(Boot(clock), steps), s, id, r)
  {
    Reached(clock, steps, s);
    StepAppears(Run(Boot(clock), steps), s, id, r);
  }

  lemma ReachedInv(clock: int, steps: seq<Step>)
    ensures Inv(Run(Boot(clock), steps).db)
  {
    BootIsSound(clock);
    RunIsSound(Boot(clock), steps);
    InvOf(Run(Boot(clock), steps));
  }

  lemma Reached(clock: int, steps: seq<Step>, s: Step)
    ensures Inv(Run(Boot(clock), steps).db)
    ensures Run(Boot(clock), steps + [s]).db == NextDb(Run(Boot(clock), steps), s)
  {
    assert (steps + [s])[..|steps|] == steps;
    ReachedInv(clock, steps);
  }

  /** A new operation is journaled with the phase move or the row it belongs to, on the machine its row records. */
  predicate Journals(w: World, s: Step, op: OperationId, o: Operation) {
    match s
    case Manage(m) =>
      (match m
       case Create(id, x, _, _, _) => x == op && id !in w.db.resources && o == Journaled(OpKindCreate, id, None, w.clock)
       case Stop(id, x, _) =>
         x == op && Live(w.db.resources, id) && Commands(w.db, m, id, Parking, w.clock)
         && o == Journaled(OpKindStop, id, w.db.resources[id].externalId, w.clock)
       case Start(id, x) =>
         x == op && Live(w.db.resources, id) && Commands(w.db, m, id, Starting, w.clock)
         && o == Journaled(OpKindStart, id, w.db.resources[id].externalId, w.clock)
       case Drain(_, _) => false
       case Undrain(_) => false
       case SetProtected(_, _) => false
       case _ =>
         m.op == op && Live(w.db.resources, m.id) && Commands(w.db, m, m.id, Deleting, w.clock)
         && o == Journaled(OpKindDelete, m.id, w.db.resources[m.id].externalId, w.clock))
    case Serve(d) =>
      (match d
       case StartFor(_, id, x) =>
         x == op && Live(w.db.resources, id) && Demands(w.db, d, id, Starting)
         && o == Journaled(OpKindStart, id, w.db.resources[id].externalId, w.clock)
       case ScaleFor(a, id, x, _) =>
         x == op && id !in w.db.resources && a in w.db.acquisitions && w.db.acquisitions[a].state.AcqPending?
         && o == Journaled(OpKindCreate, id, None, w.clock)
       case _ => false)
    case _ => false
  }

  function Journaled(kind: OpKind, id: ResourceId, target: Option<ExternalId>, now: int): Operation {
    Operation(kind, id, target, OpJournaled, 0, None, None, now)
  }

  lemma ParkJournals(w: World, m: FleetStep, op: OperationId, o: Operation)
    requires Inv(w.db) && op !in w.db.operations && (m.Stop? || m.Start?)
    ensures var ops' := FleetNext(w.db, m, w.clock).operations; (op in ops' && ops'[op] == o) <==> Journals(w, Manage(m), op, o)
  {
    if Live(w.db.resources, m.id) && !Shielded(w.db.resources[m.id].phase) { UnshieldedFree(w.db.resources, w.db.operations, m.id); }
    hide Inv, OpFree, Unleased, Shielded;
  }

  lemma TakingJournals(db: Fleet, x: ResourceId, op': OperationId, now: int, op: OperationId, o: Operation)
    requires op !in db.operations
    requires Live(db.resources, x) ==> !Shielded(db.resources[x].phase) && OpFree(db.operations, x)
    ensures var ops' := Delete(db, x, op', now).operations;
            (op in ops' && ops'[op] == o)
            <==> op' == op && Live(db.resources, x) && Takeable(db, x, op) && o == Journaled(OpKindDelete, x, db.resources[x].externalId, now)
  {
    hide OpFree, Unleased;
  }

  lemma DeleteJournals(w: World, m: FleetStep, op: OperationId, o: Operation)
    requires Inv(w.db) && op !in w.db.operations && (m.ApiDelete? || m.PoolDelete? || m.Reclaim?)
    ensures var ops' := FleetNext(w.db, m, w.clock).operations; (op in ops' && ops'[op] == o) <==> Journals(w, Manage(m), op, o)
  {
    if Live(w.db.resources, m.id) && !Shielded(w.db.resources[m.id].phase) { UnshieldedFree(w.db.resources, w.db.operations, m.id); }
    GuardedDelete(w.db, m, w.clock);
    hide Inv, OpFree, Unleased, QueueBlocks, FleetNext;
    if !Live(w.db.resources, m.id) || !Shielded(w.db.resources[m.id].phase) { TakingJournals(w.db, m.id, m.op, w.clock, op, o); }
    if Live(w.db.resources, m.id) && w.db.resources[m.id].externalId.None? { NoMachineNoJournal(w.db, m.id, m.op, w.clock); }
    hide Delete, Takeable;
  }

  lemma NoMachineNoJournal(db: Fleet, x: ResourceId, op: OperationId, now: int)
    requires Live(db.resources, x) && db.resources[x].externalId.None?
    ensures Delete(db, x, op, now).operations == db.operations
  {
    hide OpFree, Unleased;
  }

  lemma CommandJournals(w: World, m: FleetStep, op: OperationId, o: Operation)
    requires Inv(w.db) && op !in w.db.operations
    ensures var ops' := FleetNext(w.db, m, w.clock).operations; (op in ops' && ops'[op] == o) <==> Journals(w, Manage(m), op, o)
  {
    if m.id !in w.db.resources { FreshFree(w.db, m.id); }
    hide Inv, OpFree, Commands, Delete, JournalStop, JournalStart, JournalDelete, DeleteResource, CostReclaim, MovePhase;
    match m
    case Stop(_, _, _) => ParkJournals(w, m, op, o);
    case Start(_, _) => ParkJournals(w, m, op, o);
    case ApiDelete(_, _) => DeleteJournals(w, m, op, o);
    case PoolDelete(_, _) => DeleteJournals(w, m, op, o);
    case Reclaim(_, _, _) => DeleteJournals(w, m, op, o);
    case Create(_, _, _, _, _) =>
    case Drain(x, fromAllocated) => BareMoveJournalsNothing(w.db, x, if fromAllocated then Allocated else Ready, Draining, w.clock);
    case Undrain(x) => BareMoveJournalsNothing(w.db, x, Draining, Ready, w.clock);
    case SetProtected(_, _) =>
  }

  lemma BareMoveJournalsNothing(db: Fleet, id: ResourceId, from: Phase, to: Phase, now: int)
    ensures MovePhase(db, id, from, to, now).operations == db.operations
  {
  }

  lemma DemandJournals(w: World, d: DemandStep, op: OperationId, o: Operation)
    requires Inv(w.db) && op !in w.db.operations
    ensures var ops' := DemandNext(w.db, d, w.clock).operations; (op in ops' && ops'[op] == o) <==> Journals(w, Serve(d), op, o)
  {
    if d.StartFor? && Live(w.db.resources, d.id) && !Shielded(w.db.resources[d.id].phase) {
      UnshieldedFree(w.db.resources, w.db.operations, d.id);
    }
    if d.ScaleFor? && d.id !in w.db.resources { FreshFree(w.db, d.id); }
    hide Inv, OpFree, CanReserve, CanEndLease;
  }

  /** Over every run: an operation is journaled exactly so. */
  lemma JournaledExactlyAsAsked(clock: int, steps: seq<Step>, s: Step, op: OperationId, o: Operation)
    requires op !in Run(Boot(clock), steps).db.operations
    ensures var ops' := Run(Boot(clock), steps + [s]).db.operations;
            (op in ops' && ops'[op] == o) <==> Journals(Run(Boot(clock), steps), s, op, o)
  {
    var w := Run(Boot(clock), steps);
    Reached(clock, steps, s);
    hide Journals, EngineNext, FleetNext, DemandNext, SweepDb, Run;
    match s
    case Engine(e) => EngineAddsNoOps(w.db, e, w.clock); NoJournal(w, s, op, o);
    case Manage(m) => CommandJournals(w, m, op, o);
    case Serve(d) => DemandJournals(w, d, op, o);
    case Discover(v) => SweepJournalsNothing(w, v, op); NoJournal(w, s, op, o);
    case _ => NoJournal(w, s, op, o);
  }

  lemma NoJournal(w: World, s: Step, op: OperationId, o: Operation)
    requires !s.Manage? && !s.Serve?
    ensures !Journals(w, s, op, o)
  {
  }

  lemma SweepJournalsNothing(w: World, v: SweepStep, op: OperationId)
    ensures SweepDb(w.db, w.sweep, v).operations == w.db.operations
  {
  }

  // ---- Acquisitions and leases ----

  /** What one step makes of an acquisition. */
  function AcquisitionAfter(w: World, s: Step, a: AcquisitionId): Acquisition
    requires a in w.db.acquisitions
  {
    var acq := w.db.acquisitions[a];
    if !s.Serve? then acq
    else match s.d
      case Bind(x, id) =>
        if x == a && Grants(w.db, a, id)
        then acq.(state := AcqBound, lease := Some(|w.db.leases|), pendingResource := None, updatedAt := w.clock) else acq
      case StartFor(x, id, op) =>
        if x == a && acq.state.AcqPending? && Live(w.db.resources, id) && Startable(w.db, id, op)
        then acq.(state := AcqProvisioning, pendingResource := Some(id), updatedAt := w.clock) else acq
      case ScaleFor(x, id, op, _) =>
        if x == a && acq.state.AcqPending? && id !in w.db.resources && op !in w.db.operations
        then acq.(state := AcqProvisioning, pendingResource := Some(id), updatedAt := w.clock) else acq
      case Return(x) =>
        if x == a && acq.state.AcqProvisioning? then acq.(state := AcqPending, pendingResource := None, updatedAt := w.clock) else acq
      case Close(x, from, to) =>
        if x == a && acq.state == from && (from.AcqPending? || from.AcqProvisioning?) && (to.AcqFailed? || to.AcqReleased? || to.AcqExpired?)
        then acq.(state := to, updatedAt := w.clock) else acq
      case EndOfLease(l, expired) =>
        if l < |w.db.leases| && w.db.leases[l].state.LeaseActive? && w.db.leases[l].acquisition == a
        then acq.(state := if expired then AcqExpired else AcqReleased, updatedAt := w.clock) else acq
      case Acquire(_, _, _, _, _, _) => acq
  }

  /** What one step makes of the lease table. */
  function LeasesAfter(w: World, s: Step): seq<Lease> {
    var leases := w.db.leases;
    if !s.Serve? then leases
    else match s.d
      case Bind(a, id) =>
        if Grants(w.db, a, id) then
          var acq := w.db.acquisitions[a];
          leases + [Lease(a, id, acq.want, acq.exclusive, LeaseActive, if acq.ttlMs == 0 then None else Some(w.clock + acq.ttlMs), w.clock, None)]
        else
          leases
      case EndOfLease(l, expired) =>
        if l < |leases| && leases[l].state.LeaseActive?
        then leases[l := leases[l].(state := if expired then LeaseExpired else LeaseReleased, endedAt := Some(w.clock))]
        else leases
      case _ => leases
  }

  lemma AnswerTouchesNoDemand(db: Fleet, e: EngineStep, now: int)
    requires Inv(db)
    ensures EngineNext(db, e, now).acquisitions == db.acquisitions && EngineNext(db, e, now).leases == db.leases
  {
    hide Inv, EngineNext, Outcome;
    if e.op in db.operations {
      EngineOutcome(db, e, now);
      OutcomeIsScoped(db, EngineNext(db, e, now), e, now);
    } else {
      NoOpNoChange(db, e, now);
    }
  }

  lemma CommandTouchesNoDemand(db: Fleet, m: FleetStep, now: int)
    ensures FleetNext(db, m, now).acquisitions == db.acquisitions && FleetNext(db, m, now).leases == db.leases
  {
    hide InPhase, Live, Moved, Tombstoned, CanDelete, CanStop, CanStart, CanJournalCreate, QueueBlocks;
  }

  lemma OnlyServingTouchesDemand(w: World, s: Step)
    requires Inv(w.db) && !s.Serve?
    ensures NextDb(w, s).acquisitions == w.db.acquisitions && NextDb(w, s).leases == w.db.leases
  {
    hide Inv, EngineNext, FleetNext;
    match s
    case Engine(e) => AnswerTouchesNoDemand(w.db, e, w.clock);
    case Manage(m) => CommandTouchesNoDemand(w.db, m, w.clock);
    case _ =>
  }

  ghost predicate ServedAs(w: World, d: DemandStep, db': Fleet) {
    && db'.leases == LeasesAfter(w, Serve(d))
    && forall a <- w.db.acquisitions.Keys :: a in db'.acquisitions && db'.acquisitions[a] == AcquisitionAfter(w, Serve(d), a)
  }

  lemma BindServes(w: World, a: AcquisitionId, id: ResourceId)
    ensures ServedAs(w, Bind(a, id), Reserve(w.db, a, id, w.clock))
  {
    GrantsIff(w.db, a, id, w.clock);
    hide Room, WithinTotal, NoExclusiveHolder, Unleased, LeasedOf;
  }

  lemma StartServes(w: World, a: AcquisitionId, id: ResourceId, op: OperationId)
    requires Inv(w.db)
    ensures ServedAs(w, StartFor(a, id, op), StartParked(w.db, a, id, op, w.clock))
  {
    if Live(w.db.resources, id) && w.db.resources[id].phase.Parked? { UnshieldedFree(w.db.resources, w.db.operations, id); }
    hide Inv, OpFree;
  }

  lemma EndServes(w: World, l: LeaseId, expired: bool)
    requires Inv(w.db)
    ensures ServedAs(w, EndOfLease(l, expired), EndLease(w.db, l, expired, w.clock))
  {
    if l < |w.db.leases| && w.db.leases[l].state.LeaseActive? {
      assert LeaseGuarded(w.db.resources, w.db.leases[l]) && BoundIs(w.db.acquisitions, w.db.leases[l].acquisition, l);
    }
    hide Inv, LastLease;
  }

  lemma ServingOutcome(w: World, d: DemandStep)
    requires Inv(w.db)
    ensures ServedAs(w, d, DemandNext(w.db, d, w.clock))
  {
    if d.ScaleFor? && d.id !in w.db.resources { FreshFree(w.db, d.id); }
    match d
    case Bind(a, id) => BindServes(w, a, id); hide *;
    case StartFor(a, id, op) => StartServes(w, a, id, op); hide *;
    case EndOfLease(l, expired) => EndServes(w, l, expired); hide *;
    case _ => hide Inv, OpFree;
  }

  /** Over every run: an acquisition and the lease table change exactly as the step on them says; in particular a waiting
      acquisition is bound exactly when it is granted, and one whose start failed waits again with nothing attached. */
  lemma DemandExactlyAsServed(clock: int, steps: seq<Step>, s: Step, a: AcquisitionId)
    ensures var w, db' := Run(Boot(clock), steps), Run(Boot(clock), steps + [s]).db;
            && db'.leases == LeasesAfter(w, s)
            && (a in w.db.acquisitions ==> a in db'.acquisitions && db'.acquisitions[a] == AcquisitionAfter(w, s, a))
            && (a !in w.db.acquisitions && a in db'.acquisitions ==>
                  && s.Serve? && s.d.Acquire? && s.d.a == a
                  && db'.acquisitions[a] == Acquisition(s.d.className, s.d.want, s.d.exclusive, s.d.ttlMs, s.d.maxWaitMs, AcqPending,
                                                        None, None, w.clock, w.clock))
  {
    var w := Run(Boot(clock), steps);
    Reached(clock, steps, s);
    if s.Serve? {
      ServingOutcome(w, s.d);
      if a !in w.db.acquisitions && a in NextDb(w, s).acquisitions { NewDemand(w, s.d, a); }
    } else {
      OnlyServingTouchesDemand(w, s);
    }
    hide NextDb, Run;
  }

  lemma NewDemand(w: World, d: DemandStep, a: AcquisitionId)
    requires a !in w.db.acquisitions && a in DemandNext(w.db, d, w.clock).acquisitions
    ensures d.Acquire? && d.a == a
    ensures DemandNext(w.db, d, w.clock).acquisitions[a]
            == Acquisition(d.className, d.want, d.exclusive, d.ttlMs, d.maxWaitMs, AcqPending, None, None, w.clock, w.clock)
  {
    hide Room, WithinTotal, NoExclusiveHolder, OpFree, LastLease;
  }

  // ---- What else a row carries ----

  /** The answer gives its row the machine of the create. */
  predicate Attaches(db: Fleet, e: EngineStep, id: ResourceId) {
    && e.op in db.operations && db.operations[e.op].resource == id && id in db.resources
    && var o := db.operations[e.op];
    && o.kind.OpKindCreate? && Accepts(o, e) && AcceptedRef(e).Some?
    && !(Live(db.resources, id) && OwnedElsewhere(db.resources, id, AcceptedRef(e).value))
  }

  /** Everything about a row but its phase, its capacity and its clocks. */
  function TraitsAfter(w: World, s: Step, id: ResourceId): Resource
    requires id in w.db.resources
  {
    var r := w.db.resources[id];
    match s
    case Engine(e) => if Attaches(w.db, e, id) then r.(externalId := AcceptedRef(e)) else r
    case Manage(m) => if m.SetProtected? && m.id == id && Live(w.db.resources, id) then r.(deleteProtected := m.protected) else r
    case _ => r
  }

  lemma AnswerTraits(w: World, e: EngineStep, id: ResourceId)
    requires Inv(w.db) && id in w.db.resources
    ensures var rows' := EngineNext(w.db, e, w.clock).resources;
            id in rows' && TraitsAgree(rows'[id], TraitsAfter(w, Engine(e), id))
  {
    hide Inv, EngineNext, Outcome, Attaches, TraitsAgree;
    if e.op !in w.db.operations {
      NoOpNoChange(w.db, e, w.clock);
      OutsiderTraits(w, e, id);
    } else {
      EngineOutcome(w.db, e, w.clock);
      if w.db.operations[e.op].resource == id {
        OutcomeTraits(w, EngineNext(w.db, e, w.clock), e, id);
      } else {
        OutcomeIsScoped(w.db, EngineNext(w.db, e, w.clock), e, w.clock);
        OutsiderTraits(w, e, id);
      }
    }
  }

  lemma OutsiderTraits(w: World, e: EngineStep, id: ResourceId)
    requires id in w.db.resources && (e.op !in w.db.operations || w.db.operations[e.op].resource != id)
    ensures TraitsAgree(w.db.resources[id], TraitsAfter(w, Engine(e), id))
  {
  }

  lemma OutcomeTraits(w: World, db': Fleet, e: EngineStep, id: ResourceId)
    requires e.op in w.db.operations && w.db.operations[e.op].resource == id && id in w.db.resources && Outcome(w.db, db', e, w.clock)
    ensures id in db'.resources && TraitsAgree(db'.resources[id], TraitsAfter(w, Engine(e), id))
  {
  }

  lemma DeleteTraits(db: Fleet, x: ResourceId, op: OperationId, now: int, id: ResourceId)
    requires id in db.resources
    ensures var rows' := Delete(db, x, op, now).resources; id in rows' && TraitsAgree(rows'[id], db.resources[id])
  {
    hide OpFree, Unleased;
  }

  lemma CommandTraits(w: World, m: FleetStep, id: ResourceId)
    requires id in w.db.resources
    ensures var rows' := FleetNext(w.db, m, w.clock).resources; id in rows' && TraitsAgree(rows'[id], TraitsAfter(w, Manage(m), id))
  {
    if m.ApiDelete? || m.PoolDelete? || m.Reclaim? {
      DeleteTraits(w.db, m.id, m.op, w.clock, id);
      GuardedDelete(w.db, m, w.clock);
      hide FleetNext, Delete, OpFree, Unleased, QueueBlocks;
    } else {
      hide OpFree, Unleased;
    }
  }

  lemma DemandTraits(w: World, d: DemandStep, id: ResourceId)
    requires id in w.db.resources
    ensures var rows' := DemandNext(w.db, d, w.clock).resources; id in rows' && TraitsAgree(rows'[id], w.db.resources[id])
  {
    hide CanReserve, OpFree, LastLease;
  }

  lemma SweepTraits(w: World, v: SweepStep, id: ResourceId)
    requires id in w.db.resources
    ensures var rows' := SweepDb(w.db, w.sweep, v).resources; id in rows' && TraitsAgree(rows'[id], w.db.resources[id])
  {
    hide ExternalFree, Unleased;
  }

  /** Over every run: a row's owner, class, pool and creation time never change, its protection changes at the operator's
      word, and its machine only when the provider names the machine of its create. */
  lemma TraitsExactlyAsAsked(clock: int, steps: seq<Step>, s: Step, id: ResourceId)
    requires id in Run(Boot(clock), steps).db.resources
    ensures var rows' := Run(Boot(clock), steps + [s]).db.resources;
            id in rows' && TraitsAgree(rows'[id], TraitsAfter(Run(Boot(clock), steps), s, id))
  {
    var w := Run(Boot(clock), steps);
    Reached(clock, steps, s);
    hide TraitsAgree, EngineNext, FleetNext, DemandNext, SweepDb, Run;
    match s
    case Engine(e) => AnswerTraits(w, e, id);
    case Manage(m) => CommandTraits(w, m, id);
    case Serve(d) => DemandTraits(w, d, id);
    case Discover(v) => SweepTraits(w, v, id);
    case _ => SameTraits(w.db.resources[id]);
  }

  lemma SameTraits(r: Resource)
    ensures TraitsAgree(r, r)
  {
  }
}
