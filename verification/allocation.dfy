/** No machine is over-allocated, as long as its reported capacity is not lowered under its leases. */
module Allocation {
  import opened Basics
  import opened Phases
  import opened Capacity
  import opened Storage
  import opened ProviderErrors
  import opened Transactions
  import opened Invariants
  import opened Runs

  ghost predicate RowWithin(rows: Rows, leases: seq<Lease>, id: ResourceId)
    requires id in rows
  {
    WithinTotal(leases, id, rows[id].capacity)
  }

  /** Every leased dimension is one the machine tracks. */
  ghost predicate LeaseTracked(rows: Rows, l: Lease) {
    l.state.LeaseActive? && l.resource in rows ==> forall dim :: dim in l.capacity ==> dim in rows[l.resource].capacity
  }

  ghost predicate ExclusiveAlone(leases: seq<Lease>) {
    forall i, j | 0 <= i < |leases| && 0 <= j < |leases| && i != j && leases[i].state.LeaseActive? && ActiveOn(leases[j], leases[i].resource) ::
      !leases[i].exclusive
  }

  ghost predicate WellAllocated(rows: Rows, leases: seq<Lease>) {
    && (forall id :: id in rows ==> RowWithin(rows, leases, id))
    && (forall i | 0 <= i < |leases| :: LeaseTracked(rows, leases[i]))
    && ExclusiveAlone(leases)
  }

  /** The step reports no smaller capacity for a leased row. */
  ghost predicate KeepsCapacity(rows: Rows, rows': Rows, leases: seq<Lease>) {
    forall id, dim :: id in rows && !Unleased(leases, id) && dim in rows[id].capacity ==>
      id in rows' && dim in rows'[id].capacity && rows[id].capacity[dim] <= rows'[id].capacity[dim]
  }

  ghost predicate NeverLowers(w: World, steps: seq<Step>) {
    forall k | 0 <= k < |steps| ::
      KeepsCapacity(Run(w, steps[..k]).db.resources, NextDb(Run(w, steps[..k]), steps[k]).resources, Run(w, steps[..k]).db.leases)
  }

  lemma {:induction false} LeasedOfNothing(leases: seq<Lease>, id: ResourceId, dim: string)
    requires Unleased(leases, id)
    ensures LeasedOf(leases, id, dim) == 0
  {
    if |leases| > 0 {
      assert !ActiveOn(leases[|leases| - 1], id);
      LeasedOfNothing(leases[..|leases| - 1], id, dim);
    }
  }

  /** Ending a lease returns exactly what it held. */
  lemma {:induction false} LeasedOfEnded(leases: seq<Lease>, l: LeaseId, ended: Lease, id: ResourceId, dim: string)
    requires l < |leases| && !ended.state.LeaseActive?
    ensures LeasedOf(leases[l := ended], id, dim) + (if ActiveOn(leases[l], id) then At(leases[l].capacity, dim) else 0)
            == LeasedOf(leases, id, dim)
  {
    var last := |leases| - 1;
    if l == last {
      assert leases[l := ended][..last] == leases[..last];
    } else {
      assert leases[l := ended][..last] == leases[..last][l := ended];
      LeasedOfEnded(leases[..last], l, ended, id, dim);
    }
  }

  lemma LeasedOfAdded(leases: seq<Lease>, l: Lease, id: ResourceId, dim: string)
    ensures LeasedOf(leases + [l], id, dim) == LeasedOf(leases, id, dim) + if ActiveOn(l, id) then At(l.capacity, dim) else 0
  {
    assert (leases + [l])[..|leases|] == leases;
  }

  /** The re-aggregation after a reservation fires exactly when a tracked dimension that was not requested is already
      over-allocated, so in an allocated fleet it is unreachable. */
  lemma ReaggregationFires(leases: seq<Lease>, l: Lease, id: ResourceId, total: Vector)
    requires l.state.LeaseActive? && l.resource == id
    requires forall dim <- l.capacity.Keys :: dim in total && LeasedOf(leases, id, dim) + l.capacity[dim] <= total[dim]
    ensures WithinTotal(leases + [l], id, total)
            <==> forall dim <- total.Keys :: dim !in l.capacity ==> LeasedOf(leases, id, dim) <= total[dim]
  {
    forall dim | dim in total.Keys {
      LeasedOfAdded(leases, l, id, dim);
    }
    if WithinTotal(leases + [l], id, total) {
      forall dim | dim in total.Keys && dim !in l.capacity
        ensures LeasedOf(leases, id, dim) <= total[dim]
      {
        assert LeasedOf(leases + [l], id, dim) <= total[dim];
      }
    }
  }

  lemma SameLeasesAllocated(db: Fleet, rows': Rows)
    requires Inv(db) && WellAllocated(db.resources, db.leases) && KeepsCapacity(db.resources, rows', db.leases)
    ensures WellAllocated(rows', db.leases)
  {
    forall id | id in rows'
      ensures RowWithin(rows', db.leases, id)
    {
      if Unleased(db.leases, id) {
        forall dim | dim in rows'[id].capacity.Keys { LeasedOfNothing(db.leases, id, dim); }
      } else {
        LeasedRowWithin(db, rows', id);
      }
    }
    forall i | 0 <= i < |db.leases|
      ensures LeaseTracked(rows', db.leases[i])
    {
      assert LeaseGuarded(db.resources, db.leases[i]) && LeaseTracked(db.resources, db.leases[i]);
      assert db.leases[i].state.LeaseActive? ==> ActiveOn(db.leases[i], db.leases[i].resource);
    }
  }

  lemma LeasedRowWithin(db: Fleet, rows': Rows, id: ResourceId)
    requires Inv(db) && WellAllocated(db.resources, db.leases) && KeepsCapacity(db.resources, rows', db.leases)
    requires id in rows' && !Unleased(db.leases, id)
    ensures RowWithin(rows', db.leases, id)
  {
    var i :| 0 <= i < |db.leases| && ActiveOn(db.leases[i], id);
    assert LeaseGuarded(db.resources, db.leases[i]);
    assert RowWithin(db.resources, db.leases, id);
    forall dim | dim in rows'[id].capacity.Keys
      ensures LeasedOf(db.leases, id, dim) <= rows'[id].capacity[dim]
    {
      if dim !in db.resources[id].capacity {
        UntrackedUnleased(db, db.leases, id, dim);
      }
    }
  }

  /** Nothing is leased of a dimension the machine does not track. */
  lemma {:induction false} UntrackedUnleased(db: Fleet, leases: seq<Lease>, id: ResourceId, dim: string)
    requires id in db.resources && dim !in db.resources[id].capacity
    requires forall i | 0 <= i < |leases| :: LeaseTracked(db.resources, leases[i])
    ensures LeasedOf(leases, id, dim) == 0
  {
    if |leases| > 0 {
      assert LeaseTracked(db.resources, leases[|leases| - 1]);
      UntrackedUnleased(db, leases[..|leases| - 1], id, dim);
    }
  }

  lemma ReserveAllocates(db: Fleet, a: AcquisitionId, id: ResourceId, now: int)
    requires Inv(db) && WellAllocated(db.resources, db.leases)
    ensures var db' := Reserve(db, a, id, now); WellAllocated(db'.resources, db'.leases)
  {
    if CanReserve(db, a, id, now) {
      var db' := Reserve(db, a, id, now);
      var l := NewLease(db.acquisitions[a], a, id, now);
      forall x | x in db'.resources
        ensures RowWithin(db'.resources, db'.leases, x)
      {
        assert RowWithin(db.resources, db.leases, x);
        forall dim | dim in db'.resources[x].capacity.Keys { LeasedOfAdded(db.leases, l, x, dim); }
      }
      forall i | 0 <= i < |db'.leases|
        ensures LeaseTracked(db'.resources, db'.leases[i])
      {
        if i < |db.leases| { assert LeaseTracked(db.resources, db.leases[i]); }
      }
    }
  }

  lemma EndLeaseAllocates(db: Fleet, l: LeaseId, expired: bool, now: int)
    requires Inv(db) && WellAllocated(db.resources, db.leases)
    ensures var db' := EndLease(db, l, expired, now); WellAllocated(db'.resources, db'.leases)
  {
    if CanEndLease(db, l) {
      var db' := EndLease(db, l, expired, now);
      forall x | x in db'.resources
        ensures RowWithin(db'.resources, db'.leases, x)
      {
        assert RowWithin(db.resources, db.leases, x);
        forall dim | dim in db'.resources[x].capacity.Keys { LeasedOfEnded(db.leases, l, db'.leases[l], x, dim); }
      }
      forall i | 0 <= i < |db'.leases|
        ensures LeaseTracked(db'.resources, db'.leases[i])
      {
        assert LeaseTracked(db.resources, db.leases[i]);
      }
    }
  }

  lemma EngineKeepsLeases(db: Fleet, e: EngineStep, now: int)
    ensures EngineNext(db, e, now).leases == db.leases
  {
    hide InPhase, Live, Moved, WithFacts, Tombstoned, Classify, Effect, CanFinish, CanAttach;
  }

  lemma FleetKeepsLeases(db: Fleet, m: FleetStep, now: int)
    ensures FleetNext(db, m, now).leases == db.leases
  {
    hide InPhase, Live, Moved, Tombstoned, CanDelete, CanStop, CanStart, CanJournalCreate, QueueBlocks;
  }

  lemma OthersKeepLeases(w: World, s: Step)
    requires !(s.Serve? && (s.d.Bind? || s.d.EndOfLease?))
    ensures NextDb(w, s).leases == w.db.leases
  {
    hide InPhase, Live, Moved, WithFacts, Tombstoned, EngineNext, FleetNext;
    match s
    case Engine(e) => EngineKeepsLeases(w.db, e, w.clock);
    case Manage(m) => FleetKeepsLeases(w.db, m, w.clock);
    case _ =>
  }

  lemma StepAllocates(w: World, s: Step)
    requires Inv(w.db) && WellAllocated(w.db.resources, w.db.leases)
    requires KeepsCapacity(w.db.resources, NextDb(w, s).resources, w.db.leases)
    ensures WellAllocated(NextDb(w, s).resources, NextDb(w, s).leases)
  {
    if s.Serve? && s.d.Bind? {
      ReserveAllocates(w.db, s.d.a, s.d.id, w.clock);
    } else if s.Serve? && s.d.EndOfLease? {
      EndLeaseAllocates(w.db, s.d.l, s.d.expired, w.clock);
    } else {
      OthersKeepLeases(w, s);
      SameLeasesAllocated(w.db, NextDb(w, s).resources);
    }
  }

  /** Invariant 1 over every run: active leases never exceed the machine, and an exclusive lease is alone on it. */
  lemma {:induction false} NeverOverAllocated(w: World, steps: seq<Step>)
    requires Sound(w) && WellAllocated(w.db.resources, w.db.leases) && NeverLowers(w, steps)
    ensures WellAllocated(Run(w, steps).db.resources, Run(w, steps).db.leases)
  {
    if |steps| > 0 {
      var prefix := steps[..|steps| - 1];
      forall k | 0 <= k < |prefix|
        ensures KeepsCapacity(Run(w, prefix[..k]).db.resources, NextDb(Run(w, prefix[..k]), prefix[k]).resources,
                              Run(w, prefix[..k]).db.leases)
      {
        assert prefix[..k] == steps[..k];
      }
      NeverOverAllocated(w, prefix);
      RunIsSound(w, prefix);
      StepAllocates(Run(w, prefix), steps[|steps| - 1]);
    }
  }

  // ---- Capacity reports ----

  datatype Report = Report(id: ResourceId, capacity: Vector)

  /** The new capacity covers what is leased on the row. */
  ghost predicate Covers(leases: seq<Lease>, id: ResourceId, cap: Vector) {
    && WithinTotal(leases, id, cap)
    && forall i | 0 <= i < |leases| && ActiveOn(leases[i], id) :: leases[i].capacity.Keys <= cap.Keys
  }

  /** A sighting is written unless its revival conflicts with where the row is now. */
  predicate SightingWrites(db: Fleet, snapshot: Resource, id: ResourceId, sighted: Sighting) {
    id in db.resources && (Revival(snapshot, sighted).Some? ==> InPhase(db.resources, id, Orphaned))
  }

  /** A confirmed create or start writes the facts it observed. */
  predicate ObservationWrites(db: Fleet, op: OperationId, seen: Observation, gate: Gate) {
    && CanFinish(db, op, OpExternalAccepted) && seen.ObserveSucceeded? && gate.GateReady?
    && (db.operations[op].kind.OpKindCreate? || db.operations[op].kind.OpKindStart?)
  }

  /** The capacity a step writes over an existing row, if any; decided by what can be read before the step. */
  function Reported(w: World, s: Step): Option<Report> {
    match s
    case Discover(v) =>
      if v.Sight? && w.sweep.Armed? && v.id in w.sweep.rows && SightingWrites(w.db, w.sweep.rows[v.id], v.id, v.sighted)
      then Some(Report(v.id, v.cap)) else None
    case Engine(e) =>
      if e.Observed? && ObservationWrites(w.db, e.op, e.seen, e.gate) && e.seen.facts.Some?
      then Some(Report(w.db.operations[e.op].resource, e.seen.facts.value)) else None
    case _ => None
  }

  ghost predicate SameCapacities(rows: Rows, rows': Rows) {
    forall x <- rows.Keys :: x in rows' && rows'[x].capacity == rows[x].capacity
  }

  lemma SameRows(rows: Rows)
    ensures SameCapacities(rows, rows)
  {
  }

  lemma FailPhasesKeepsCapacities(db: Fleet, op: OperationId, from: OpState, resFrom: Phase, resTo: Phase, now: int)
    ensures SameCapacities(db.resources, FailOpPhases(db, op, from, resFrom, resTo, now).resources)
  {
  }

  lemma FailKeepsCapacities(db: Fleet, op: OperationId, from: OpState, now: int)
    ensures SameCapacities(db.resources, FailOp(db, op, from, now).resources)
  {
    hide SameCapacities, FailOpPhases;
    SameRows(db.resources);
    if OpIn(db, op, from) {
      FailPhasesKeepsCapacities(db, op, from, ShieldOf(db.operations[op].kind), FailureOf(db.operations[op].kind), now);
    }
  }

  lemma SucceedDeleteKeepsCapacities(db: Fleet, op: OperationId, from: OpState, now: int)
    ensures SameCapacities(db.resources, SucceedDelete(db, op, from, now).resources)
  {
  }

  lemma MoveOpKeepsCapacities(db: Fleet, op: OperationId, from: OpState, to: OpState)
    ensures SameCapacities(db.resources, MoveOp(db, op, from, to).resources)
  {
  }

  lemma AttachKeepsCapacities(db: Fleet, op: OperationId, from: OpState, ref: Option<ExternalId>)
    ensures SameCapacities(db.resources, Attach(db, op, from, ref).resources)
  {
    hide ExternalFree;
  }

  lemma FinishKeepsCapacities(db: Fleet, op: OperationId, from: OpState, to: Phase, facts: Option<Vector>, now: int)
    requires CanFinish(db, op, from) ==> facts.None?
    ensures SameCapacities(db.resources, Finish(db, op, from, to, facts, now).resources)
  {
  }

  lemma ObservedKeepsCapacities(db: Fleet, op: OperationId, seen: Observation, gate: Gate, now: int)
    requires !(ObservationWrites(db, op, seen, gate) && seen.facts.Some?)
    ensures SameCapacities(db.resources, Polled(db, op, seen, gate, now).resources)
  {
    hide SameCapacities, SucceedDelete, FailOp, MoveOp, FailOpPhases, Finish, Classify;
    SameRows(db.resources);
    SucceedDeleteKeepsCapacities(db, op, OpExternalAccepted, now);
    FailKeepsCapacities(db, op, OpExternalAccepted, now);
    FailPhasesKeepsCapacities(db, op, OpExternalAccepted, Starting, Failed, now);
    MoveOpKeepsCapacities(db, op, OpExternalAccepted, OpVerifying);
    FinishKeepsCapacities(db, op, OpExternalAccepted, Parked, None, now);
    if OpIn(db, op, OpExternalAccepted) && seen.ObserveSucceeded? && gate.GateReady?
       && (db.operations[op].kind.OpKindCreate? || db.operations[op].kind.OpKindStart?) {
      FinishKeepsCapacities(db, op, OpExternalAccepted, Ready, seen.facts, now);
    }
  }

  lemma RefusedKeepsCapacities(db: Fleet, op: OperationId, f: Failure, now: int)
    ensures SameCapacities(db.resources, ApplyFailed(db, op, f, now).resources)
  {
    hide SameCapacities, SucceedDelete, FailOp, MoveOp, Classify, Effect;
    SameRows(db.resources);
    SucceedDeleteKeepsCapacities(db, op, OpInFlight, now);
    FailKeepsCapacities(db, op, OpInFlight, now);
    MoveOpKeepsCapacities(db, op, OpInFlight, OpJournaled);
    MoveOpKeepsCapacities(db, op, OpInFlight, OpVerifying);
  }

  lemma LookedUpKeepsCapacities(db: Fleet, op: OperationId, labels: bool, seen: Lookup, readAt: int, now: int)
    ensures SameCapacities(db.resources, Verified(db, op, labels, seen, readAt, now).resources)
  {
    hide SameCapacities, SucceedDelete, FailOp, MoveOp, Attach;
    SameRows(db.resources);
    SucceedDeleteKeepsCapacities(db, op, OpVerifying, now);
    FailKeepsCapacities(db, op, OpVerifying, now);
    MoveOpKeepsCapacities(db, op, OpVerifying, OpJournaled);
    MoveOpKeepsCapacities(db, op, OpVerifying, OpUncertain);
    if seen.LookupFound? { AttachKeepsCapacities(db, op, OpVerifying, Some(seen.ext)); }
  }

  lemma EngineKeepsCapacities(db: Fleet, e: EngineStep, now: int)
    requires !(e.Observed? && ObservationWrites(db, e.op, e.seen, e.gate) && e.seen.facts.Some?)
    ensures SameCapacities(db.resources, EngineNext(db, e, now).resources)
  {
    hide SameCapacities, FailOp, FailOpPhases, MoveOp, Attach, Polled, ApplyFailed, Verified;
    SameRows(db.resources);
    match e
    case Dispatched(op, window) =>
    case Accepted(op, ref) => AttachKeepsCapacities(db, op, OpInFlight, ref);
    case Refused(op, f) => RefusedKeepsCapacities(db, op, f, now);
    case Observed(op, seen, gate) => ObservedKeepsCapacities(db, op, seen, gate, now);
    case LookedUp(op, labels, found, readAt) => LookedUpKeepsCapacities(db, op, labels, found, readAt, now);
    case GaveUp(op) => FailKeepsCapacities(db, op, OpJournaled, now);
    case NoDriver(op) => if op in db.operations { FailKeepsCapacities(db, op, db.operations[op].state, now); }
    case Resumed(op) => MoveOpKeepsCapacities(db, op, OpInFlight, OpVerifying);
    case Thawed(op) =>
    case MarkedFailed(op) =>
      if op in db.operations {
        FailPhasesKeepsCapacities(db, op, OpUncertain, if db.operations[op].kind.OpKindDelete? then Deleting else Provisioning, Failed, now);
      }
  }

  lemma DeleteKeepsCapacities(db: Fleet, id: ResourceId, op: OperationId, now: int)
    ensures SameCapacities(db.resources, Delete(db, id, op, now).resources)
  {
    hide OpFree, Unleased;
  }

  lemma MovePhaseKeepsCapacities(db: Fleet, id: ResourceId, from: Phase, to: Phase, now: int)
    ensures SameCapacities(db.resources, MovePhase(db, id, from, to, now).resources)
  {
  }

  lemma PhaseOpKeepsCapacities(db: Fleet, id: ResourceId, op: OperationId, kind: OpKind, now: int)
    requires Live(db.resources, id)
    ensures SameCapacities(db.resources, JournalPhaseOp(db, id, op, kind, now).resources)
  {
  }

  lemma FleetKeepsCapacities(db: Fleet, m: FleetStep, now: int)
    ensures SameCapacities(db.resources, FleetNext(db, m, now).resources)
  {
    hide SameCapacities, JournalCreate, Delete, MovePhase, Protect, JournalPhaseOp, QueueBlocks, OpFree, Unleased;
    SameRows(db.resources);
    match m
    case Create(x, op, className, pool, parkable) => NewRowKeepsCapacities(db, x, op, NewRow(className, pool, parkable, now), now);
    case ApiDelete(x, op) => DeleteKeepsCapacities(db, x, op, now);
    case Drain(x, fromAllocated) => MovePhaseKeepsCapacities(db, x, if fromAllocated then Allocated else Ready, Draining, now);
    case Undrain(x) => MovePhaseKeepsCapacities(db, x, Draining, Ready, now);
    case SetProtected(x, protected) => ProtectKeepsCapacities(db, x, protected, now);
    case Stop(x, op, requireUnprotected) =>
      if CanStop(db, x, op, requireUnprotected) { PhaseOpKeepsCapacities(db, x, op, OpKindStop, now); }
    case Start(x, op) =>
      if CanStart(db, x, op) { PhaseOpKeepsCapacities(db, x, op, OpKindStart, now); }
    case PoolDelete(x, op) => DeleteKeepsCapacities(db, x, op, now);
    case Reclaim(x, op, parked) => DeleteKeepsCapacities(db, x, op, now);
  }

  lemma NewRowKeepsCapacities(db: Fleet, id: ResourceId, op: OperationId, row: Resource, now: int)
    ensures SameCapacities(db.resources, JournalCreate(db, id, op, row, now).resources)
  {
    hide OpFree;
  }

  lemma ProtectKeepsCapacities(db: Fleet, id: ResourceId, protected: bool, now: int)
    ensures SameCapacities(db.resources, Protect(db, id, protected, now).resources)
  {
  }

  lemma DemandKeepsCapacities(db: Fleet, d: DemandStep, now: int)
    ensures SameCapacities(db.resources, DemandNext(db, d, now).resources)
  {
    hide Unleased, OpFree, Room, WithinTotal, NoExclusiveHolder;
  }

  lemma OthersKeepCapacities(w: World, s: Step)
    requires Reported(w, s).None?
    ensures SameCapacities(w.db.resources, NextDb(w, s).resources)
  {
    hide SameCapacities, EngineNext, FleetNext, DemandNext;
    match s
    case Tick(_) => SameRows(w.db.resources);
    case Crash => SameRows(w.db.resources);
    case Engine(e) => EngineKeepsCapacities(w.db, e, w.clock);
    case Manage(m) => FleetKeepsCapacities(w.db, m, w.clock);
    case Serve(d) => DemandKeepsCapacities(w.db, d, w.clock);
    case Discover(v) => SweepKeepsCapacities(w, v);
  }

  lemma SweepKeepsCapacities(w: World, v: SweepStep)
    requires Reported(w, Discover(v)).None?
    ensures SameCapacities(w.db.resources, SweepDb(w.db, w.sweep, v).resources)
  {
  }

  lemma SameCapacitiesKeep(rows: Rows, rows': Rows, leases: seq<Lease>)
    requires SameCapacities(rows, rows')
    ensures KeepsCapacity(rows, rows', leases)
  {
  }

  /** What a reporting step does to the table. */
  lemma ReportRow(w: World, s: Step)
    requires Reported(w, s).Some?
    ensures var id, rows' := Reported(w, s).value.id, NextDb(w, s).resources;
            && id in w.db.resources && id in rows' && rows' == w.db.resources[id := rows'[id]]
            && rows'[id].capacity == Reported(w, s).value.capacity
            && NextDb(w, s).leases == w.db.leases
  {
    hide Classify, Effect, ExternalFree;
  }

  lemma CoveredRow(rows: Rows, rows': Rows, leases: seq<Lease>, id: ResourceId, cap: Vector)
    requires WellAllocated(rows, leases) && id in rows && id in rows' && rows' == rows[id := rows'[id]] && rows'[id].capacity == cap
    ensures WellAllocated(rows', leases) <==> Covers(leases, id, cap)
  {
    if WellAllocated(rows', leases) {
      assert RowWithin(rows', leases, id);
      forall i | 0 <= i < |leases| && ActiveOn(leases[i], id)
        ensures leases[i].capacity.Keys <= cap.Keys
      {
        assert LeaseTracked(rows', leases[i]);
      }
    }
    if Covers(leases, id, cap) {
      forall x | x in rows'
        ensures RowWithin(rows', leases, x)
      {
        if x != id { assert RowWithin(rows, leases, x); }
      }
      forall i | 0 <= i < |leases|
        ensures LeaseTracked(rows', leases[i])
      {
        assert LeaseTracked(rows, leases[i]);
        if ActiveOn(leases[i], id) { assert leases[i].capacity.Keys <= cap.Keys; }
      }
    }
  }

  /** The step's report, if it makes one, covers the leases of its row. */
  ghost predicate ReportCovers(w: World, s: Step) {
    Reported(w, s).Some? ==> Covers(w.db.leases, Reported(w, s).value.id, Reported(w, s).value.capacity)
  }

  /** Every step of every actor keeps the fleet well allocated exactly when the capacity it reports, if any, covers the
      leases of its row: no other step breaks the promise. */
  lemma StepAllocatesIff(w: World, s: Step)
    requires Inv(w.db) && WellAllocated(w.db.resources, w.db.leases)
    ensures WellAllocated(NextDb(w, s).resources, NextDb(w, s).leases) <==> ReportCovers(w, s)
  {
    hide WellAllocated, NextDb, Covers, SameCapacities, KeepsCapacity;
    if Reported(w, s).None? {
      OthersKeepCapacities(w, s);
      SameCapacitiesKeep(w.db.resources, NextDb(w, s).resources, w.db.leases);
      StepAllocates(w, s);
    } else {
      ReportRow(w, s);
      CoveredRow(w.db.resources, NextDb(w, s).resources, w.db.leases, Reported(w, s).value.id, Reported(w, s).value.capacity);
    }
  }

  /** Over every run: the fleet is well allocated at every moment exactly when every report covers the leases of its row. */
  lemma {:induction false} RunAllocatesIff(w: World, steps: seq<Step>)
    requires Sound(w) && WellAllocated(w.db.resources, w.db.leases)
    ensures (forall k | 0 <= k <= |steps| :: WellAllocatedAt(w, steps, k)) <==> (forall k | 0 <= k < |steps| :: CoversAt(w, steps, k))
  {
    hide WellAllocated, NextDb, Sound, Reported, Covers;
    assert Run(w, steps[..0]) == w;
    if |steps| > 0 {
      var n := |steps| - 1;
      var prefix := steps[..n];
      RunAllocatesIff(w, prefix);
      RunIsSound(w, prefix);
      SoundSays(Run(w, prefix));
      if WellAllocatedAt(w, steps, n) { StepAllocatesIff(Run(w, prefix), steps[n]); }
      assert steps[..n + 1] == steps && steps[..n + 1][..n] == prefix;
      assert Run(w, steps) == Next(Run(w, prefix), steps[n]);
      assert WellAllocatedAt(w, steps, n) && WellAllocatedAt(w, steps, n + 1) ==> CoversAt(w, steps, n);
      assert WellAllocatedAt(w, steps, n) && CoversAt(w, steps, n) ==> WellAllocatedAt(w, steps, n + 1);
      forall k | 0 <= k <= n
        ensures WellAllocatedAt(w, prefix, k) == WellAllocatedAt(w, steps, k) && (k < n ==> CoversAt(w, prefix, k) == CoversAt(w, steps, k))
      {
        assert prefix[..k] == steps[..k];
      }
    }
  }

  lemma SoundSays(w: World)
    requires Sound(w)
    ensures Inv(w.db)
  {
  }

  ghost predicate WellAllocatedAt(w: World, steps: seq<Step>, k: int)
    requires 0 <= k <= |steps|
  {
    var now := Run(w, steps[..k]);
    WellAllocated(now.db.resources, now.db.leases)
  }

  ghost predicate CoversAt(w: World, steps: seq<Step>, k: int)
    requires 0 <= k < |steps|
  {
    ReportCovers(Run(w, steps[..k]), steps[k])
  }

  // ---- The two ways it happens ----

  lemma RunOn(w: World, steps: seq<Step>, s: Step)
    ensures Run(w, steps + [s]) == Next(Run(w, steps), s)
  {
    assert (steps + [s])[..|steps|] == steps;
  }

  const FOUR: Vector := map["cpu" := 4]
  const TWO: Vector := map["cpu" := 2]

  /** A discovered machine with four cores, all of them leased. */
  function LeasedOut(clock: int): World {
    Next(Next(Found(clock), Serve(Acquire(0, "", FOUR, false, 0, 0))), Serve(Bind(0, 0)))
  }

  function LeaseSteps(): seq<Step> {
    [Discover(List), Discover(Arm), Discover(MintFound(0, 7, OwnershipManaged, "", false, true, FOUR)), Discover(Finished),
     Serve(Acquire(0, "", FOUR, false, 0, 0)), Serve(Bind(0, 0))]
  }

  function LeasedRow(clock: int): Resource {
    Moved(MintedRow(7, OwnershipManaged, "", false, true, FOUR, clock), Allocated, clock)
  }

  function Found(clock: int): World {
    var w1 := Next(Boot(clock), Discover(List));
    var w2 := Next(w1, Discover(Arm));
    var w3 := Next(w2, Discover(MintFound(0, 7, OwnershipManaged, "", false, true, FOUR)));
    Next(w3, Discover(Finished))
  }

  lemma FoundWorld(clock: int)
    ensures Found(clock) == World(Fleet(map[0 := MintedRow(7, OwnershipManaged, "", false, true, FOUR, clock)], map[], [], map[]),
                                  clock, NoSweep, map[])
  {
    var w2 := Next(Next(Boot(clock), Discover(List)), Discover(Arm));
    var w3 := Next(w2, Discover(MintFound(0, 7, OwnershipManaged, "", false, true, FOUR)));
    assert w3.db == Fleet(map[0 := MintedRow(7, OwnershipManaged, "", false, true, FOUR, clock)], map[], [], map[]);
  }

  lemma LeasedOutWorld(clock: int)
    ensures var acq := Acquisition("", FOUR, false, 0, 0, AcqPending, None, None, clock, clock);
            LeasedOut(clock) == World(Fleet(map[0 := LeasedRow(clock)], map[], [NewLease(acq, 0, 0, clock)],
                                            map[0 := acq.(state := AcqBound, lease := Some(0), updatedAt := clock)]),
                                      clock, NoSweep, map[])
  {
    FoundWorld(clock);
    var w := Found(clock);
    var acq := Acquisition("", FOUR, false, 0, 0, AcqPending, None, None, clock, clock);
    BindsFound(clock);
    var asked := Next(w, Serve(Acquire(0, "", FOUR, false, 0, 0)));
    assert asked.db == w.db.(acquisitions := map[0 := acq]);
    hide Found, Reserve, MintedRow, LeasedRow, NewLease;
    assert Next(asked, Serve(Bind(0, 0))) == asked.(db := Reserve(asked.db, 0, 0, clock));
  }

  lemma BindsFound(clock: int)
    ensures var row := MintedRow(7, OwnershipManaged, "", false, true, FOUR, clock);
            var acq := Acquisition("", FOUR, false, 0, 0, AcqPending, None, None, clock, clock);
            Reserve(Fleet(map[0 := row], map[], [], map[0 := acq]), 0, 0, clock)
            == Fleet(map[0 := LeasedRow(clock)], map[], [NewLease(acq, 0, 0, clock)],
                     map[0 := acq.(state := AcqBound, lease := Some(0), updatedAt := clock)])
  {
    var acq := Acquisition("", FOUR, false, 0, 0, AcqPending, None, None, clock, clock);
    assert CanReserve(Fleet(map[0 := MintedRow(7, OwnershipManaged, "", false, true, FOUR, clock)], map[], [], map[0 := acq]), 0, 0, clock);
  }

  /** A row of that machine: two cores are not enough for its lease. */
  lemma TwoAreNotEnough(rows: Rows, clock: int)
    requires 0 in rows && rows[0].capacity == TWO
    ensures !WellAllocated(rows, LeasedOut(clock).db.leases)
  {
    LeasedOutWorld(clock);
    var leases := LeasedOut(clock).db.leases;
    assert leases[..0] == [];
    assert LeasedOf(leases, 0, "cpu") == 4;
    assert "cpu" in rows[0].capacity.Keys && !(LeasedOf(leases, 0, "cpu") <= rows[0].capacity["cpu"]);
    assert !RowWithin(rows, leases, 0);
  }

  lemma LeaseRun(clock: int)
    ensures Run(Boot(clock), LeaseSteps()) == LeasedOut(clock)
  {
    var s := LeaseSteps();
    hide NextDb;
    assert s[..0] == [] && s[..1] == s[..0] + [s[0]] && s[..2] == s[..1] + [s[1]] && s[..3] == s[..2] + [s[2]];
    assert s[..4] == s[..3] + [s[3]] && s[..5] == s[..4] + [s[4]] && s == s[..5] + [s[5]];
    RunOn(Boot(clock), s[..0], s[0]);
    RunOn(Boot(clock), s[..1], s[1]);
    RunOn(Boot(clock), s[..2], s[2]);
    RunOn(Boot(clock), s[..3], s[3]);
    RunOn(Boot(clock), s[..4], s[4]);
    RunOn(Boot(clock), s[..5], s[5]);
  }

  /** The sweep sights the leased machine with half its cores. */
  lemma SightingCanOverallocate(clock: int)
    ensures var steps := LeaseSteps() + [Discover(List)] + [Discover(Arm)] + [Discover(Sight(0, SeenRunning, TWO))];
            var db := Run(Boot(clock), steps).db;
            !WellAllocated(db.resources, db.leases)
  {
    var s0 := LeaseSteps();
    var s1 := s0 + [Discover(List)];
    var s2 := s1 + [Discover(Arm)];
    var w := LeasedOut(clock);
    LeaseRun(clock);
    LeasedOutWorld(clock);
    RunOn(Boot(clock), s0, Discover(List));
    RunOn(Boot(clock), s1, Discover(Arm));
    RunOn(Boot(clock), s2, Discover(Sight(0, SeenRunning, TWO)));
    var w2 := Next(Next(w, Discover(List)), Discover(Arm));
    assert w2.db == w.db && w2.sweep.Armed? && w2.sweep.rows == w.db.resources;
    var db := Next(w2, Discover(Sight(0, SeenRunning, TWO))).db;
    assert db.resources[0].capacity == TWO && db.leases == w.db.leases;
    TwoAreNotEnough(db.resources, clock);
  }

  // ---- And through a start ----

  lemma RunPrefix(w: World, s: seq<Step>, k: nat)
    requires k < |s|
    ensures Run(w, s[..k + 1]) == Next(Run(w, s[..k]), s[k])
  {
    assert s[..k + 1] == s[..k] + [s[k]];
    RunOn(w, s[..k], s[k]);
  }

  lemma {:induction false} RunJoins(w: World, a: seq<Step>, b: seq<Step>)
    ensures Run(w, a + b) == Run(Run(w, a), b)
  {
    if |b| == 0 {
      assert a + b == a;
    } else {
      RunJoins(w, a, b[..|b| - 1]);
      assert (a + b)[..|a + b| - 1] == a + b[..|b| - 1];
    }
  }

  /** The leased machine disappears, is found stopped, is started, and comes back with half its cores. */
  const LOSE: seq<Step> := [Discover(List), Discover(Arm), Discover(GetMissed(0)), Discover(MarkOrphan(0)), Discover(Finished)]
  const FIND: seq<Step> := [Discover(List), Discover(Arm), Discover(Sight(0, SeenStopped, FOUR)), Discover(Finished)]
  const START: seq<Step> := [Manage(Start(0, 0)), Engine(Dispatched(0, 0)), Engine(Accepted(0, None))]
  const SHRUNK: Step := Engine(Observed(0, ObserveSucceeded(Some(TWO)), GateReady))

  function LostRow(clock: int): Resource {
    Moved(LeasedRow(clock), Orphaned, clock)
  }

  function FoundRow(clock: int): Resource {
    Moved(WithFacts(LostRow(clock), Some(FOUR), clock), Parked, clock)
  }

  lemma ListsAndArms(w: World, r: Resource)
    requires w.sweep.NoSweep? && w.db.operations == map[] && w.db.resources == map[0 := r] && r.deletedAt.None?
    ensures Next(Next(w, Discover(List)), Discover(Arm)) == w.(sweep := Armed(map[0 := r], {}, w.clock, {}, {}))
  {
    assert LiveRows(w.db.resources) == map[0 := r];
    assert HeldRows(w.db.operations) == {};
  }

  lemma MissesAndMarks(w: World, clock: int)
    requires w.sweep == Armed(map[0 := LeasedRow(clock)], {}, clock, {}, {}) && w.db.resources == map[0 := LeasedRow(clock)]
    ensures var w' := Next(Next(Next(w, Discover(GetMissed(0))), Discover(MarkOrphan(0))), Discover(Finished));
            w' == w.(sweep := NoSweep, db := w.db.(resources := map[0 := LostRow(clock)]))
  {
    var m := Next(w, Discover(GetMissed(0)));
    assert m.sweep.missing == {0};
    assert SweepDb(m.db, m.sweep, MarkOrphan(0)) == MovePhase(m.db, 0, Allocated, Orphaned, clock);
  }

  lemma Loses(w: World, clock: int)
    requires w == LeasedOut(clock)
    ensures Run(w, LOSE) == w.(db := w.db.(resources := map[0 := LostRow(clock)]))
  {
    LeasedOutWorld(clock);
    assert LOSE[..0] == [] && LOSE[..5] == LOSE;
    ListsAndArms(w, LeasedRow(clock));
    MissesAndMarks(w.(sweep := Armed(map[0 := LeasedRow(clock)], {}, clock, {}, {})), clock);
    hide Next, LeasedRow, LostRow, LeasedOut;
    RunPrefix(w, LOSE, 0);
    RunPrefix(w, LOSE, 1);
    RunPrefix(w, LOSE, 2);
    RunPrefix(w, LOSE, 3);
    RunPrefix(w, LOSE, 4);
  }

  lemma SightsStopped(w: World, clock: int)
    requires w.sweep == Armed(map[0 := LostRow(clock)], {}, clock, {}, {}) && w.db.resources == map[0 := LostRow(clock)]
    ensures var w' := Next(Next(w, Discover(Sight(0, SeenStopped, FOUR))), Discover(Finished));
            w'.db == w.db.(resources := map[0 := FoundRow(clock)]) && w'.clock == w.clock
  {
    assert SweepDb(w.db, w.sweep, Sight(0, SeenStopped, FOUR)) == Refresh(w.db, 0, LostRow(clock), SeenStopped, FOUR, clock);
  }

  lemma Finds(w: World, clock: int)
    requires w.db.resources == map[0 := LostRow(clock)] && w.db.operations == map[] && w.clock == clock && w.sweep.NoSweep?
    ensures var w' := Run(w, FIND); w'.db == w.db.(resources := map[0 := FoundRow(clock)]) && w'.clock == clock
  {
    assert FIND[..0] == [] && FIND[..4] == FIND;
    ListsAndArms(w, LostRow(clock));
    SightsStopped(w.(sweep := Armed(map[0 := LostRow(clock)], {}, clock, {}, {})), clock);
    hide Next, LostRow, FoundRow;
    RunPrefix(w, FIND, 0);
    RunPrefix(w, FIND, 1);
    RunPrefix(w, FIND, 2);
    RunPrefix(w, FIND, 3);
  }

  lemma StartsFound(db: Fleet, clock: int)
    requires db.resources == map[0 := FoundRow(clock)] && db.operations == map[]
    ensures var db' := FleetNext(db, Start(0, 0), clock);
            db' == db.(resources := map[0 := Moved(FoundRow(clock), Starting, clock)], operations := map[0 := NewOp(OpKindStart, 0, Some(7), clock)])
  {
    assert CanStart(db, 0, 0);
  }

  lemma DispatchesStart(db: Fleet, clock: int)
    requires db.operations == map[0 := NewOp(OpKindStart, 0, Some(7), clock)]
    ensures var db' := EngineNext(EngineNext(db, Dispatched(0, 0), clock), Accepted(0, None), clock);
            && db'.leases == db.leases && db'.resources == db.resources
            && OpIn(db', 0, OpExternalAccepted) && db'.operations[0].kind.OpKindStart? && db'.operations[0].resource == 0
  {
  }

  lemma Starts(w: World, clock: int)
    requires w.db.resources == map[0 := FoundRow(clock)] && w.db.operations == map[] && w.clock == clock
    ensures var db := Run(w, START).db;
            && db.leases == w.db.leases && db.resources == map[0 := Moved(FoundRow(clock), Starting, clock)]
            && OpIn(db, 0, OpExternalAccepted) && db.operations[0].kind.OpKindStart? && db.operations[0].resource == 0
  {
    assert START[..0] == [] && START[..3] == START;
    StartsFound(w.db, clock);
    DispatchesStart(FleetNext(w.db, Start(0, 0), clock), clock);
    hide FoundRow, FleetNext, EngineNext;
    RunPrefix(w, START, 0);
    RunPrefix(w, START, 1);
    RunPrefix(w, START, 2);
  }

  /** A machine parked with its lease is started, and its start reports half its cores. */
  lemma StartCanOverallocate(clock: int)
    ensures var db := Run(Boot(clock), LeaseSteps() + LOSE + FIND + START + [SHRUNK]).db;
            !WellAllocated(db.resources, db.leases)
  {
    var a := LeaseSteps();
    var w := LeasedOut(clock);
    LeaseRun(clock);
    LeasedOutWorld(clock);
    Loses(w, clock);
    RunJoins(Boot(clock), a, LOSE);
    var w1 := Run(w, LOSE);
    Finds(w1, clock);
    RunJoins(Boot(clock), a + LOSE, FIND);
    var w2 := Run(w1, FIND);
    Starts(w2, clock);
    RunJoins(Boot(clock), a + LOSE + FIND, START);
    var w3 := Run(w2, START);
    RunOn(Boot(clock), a + LOSE + FIND + START, SHRUNK);
    Shrinks(w3);
    TwoAreNotEnough(NextDb(w3, SHRUNK).resources, clock);
  }

  lemma Shrinks(w: World)
    requires OpIn(w.db, 0, OpExternalAccepted) && w.db.operations[0].kind.OpKindStart? && w.db.operations[0].resource == 0
    requires InPhase(w.db.resources, 0, Starting)
    ensures var db := NextDb(w, SHRUNK); db.leases == w.db.leases && 0 in db.resources && db.resources[0].capacity == TWO
  {
  }
}
