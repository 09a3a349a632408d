/** The persisted fleet: one value per table, and the store whose writes update the tables in place. */
module Storage {
  import opened Basics
  import opened Phases
  import opened Capacity

  type ResourceId = nat
  type OperationId = nat
  type AcquisitionId = nat
  type PoolId = nat
  /** A lease's identity is its position in the append-only lease table. */
  type LeaseId = nat
  /** A provider-side machine identity, unique across provider instances. */
  type ExternalId = nat

  datatype Ownership = OwnershipManaged | OwnershipAdopted | OwnershipObserved

  datatype Resource = Resource(
    phase: Phase,
    ownership: Ownership,
    externalId: Option<ExternalId>,
    deleteProtected: bool,
    pool: Option<PoolId>,
    className: string,
    capacity: Vector,
    parkable: bool,
    createdAt: int,
    updatedAt: int,
    readyAt: Option<int>,
    lastLeaseEndedAt: Option<int>,
    drainStartedAt: Option<int>,
    parkedAt: Option<int>,
    deletedAt: Option<int>
  )

  datatype OpKind = OpKindCreate | OpKindDelete | OpKindStop | OpKindStart

  datatype OpState =
    | OpJournaled
    | OpInFlight
    | OpExternalAccepted
    | OpVerifying
    | OpUncertain
    | OpSucceeded
    | OpFailed
    | OpAborted
  {
    predicate Terminal() {
      OpSucceeded? || OpFailed? || OpAborted?
    }
  }

  datatype Operation = Operation(
    kind: OpKind,
    resource: ResourceId,
    target: Option<ExternalId>,
    state: OpState,
    attempt: nat,
    ref: Option<ExternalId>,
    verifyDeadline: Option<int>,
    createdAt: int
  )

  datatype LeaseState = LeaseActive | LeaseReleased | LeaseExpired

  datatype Lease = Lease(
    acquisition: AcquisitionId,
    resource: ResourceId,
    capacity: Vector,
    exclusive: bool,
    state: LeaseState,
    expiresAt: Option<int>,
    createdAt: int,
    endedAt: Option<int>
  )

  datatype AcqState = AcqPending | AcqProvisioning | AcqBound | AcqFailed | AcqReleased | AcqExpired

  /** want and exclusive are what the stored request parses to; they never change after the insert. */
  datatype Acquisition = Acquisition(
    className: string,
    want: Vector,
    exclusive: bool,
    ttlMs: nat,
    maxWaitMs: int,
    state: AcqState,
    lease: Option<LeaseId>,
    pendingResource: Option<ResourceId>,
    createdAt: int,
    updatedAt: int
  )

  datatype Fleet = Fleet(
    resources: map<ResourceId, Resource>,
    operations: map<OperationId, Operation>,
    leases: seq<Lease>,
    acquisitions: map<AcquisitionId, Acquisition>
  )

  // ---- Reading a fleet ----

  predicate Live(rows: map<ResourceId, Resource>, id: ResourceId) {
    id in rows && rows[id].deletedAt.None?
  }

  predicate InPhase(rows: map<ResourceId, Resource>, id: ResourceId, p: Phase) {
    Live(rows, id) && rows[id].phase == p
  }

  predicate OpIn(db: Fleet, id: OperationId, s: OpState) {
    id in db.operations && db.operations[id].state == s
  }

  predicate ActiveOp(ops: map<OperationId, Operation>, id: OperationId) {
    id in ops && !ops[id].state.Terminal()
  }

  /** The partial unique index: no non-terminal operation holds the resource. */
  predicate OpFree(ops: map<OperationId, Operation>, id: ResourceId) {
    forall o <- ops.Keys :: ActiveOp(ops, o) ==> ops[o].resource != id
  }

  predicate ActiveOn(l: Lease, id: ResourceId) {
    l.state.LeaseActive? && l.resource == id
  }

  predicate Unleased(leases: seq<Lease>, id: ResourceId) {
    forall i | 0 <= i < |leases| :: !ActiveOn(leases[i], id)
  }

  /** The other partial unique index: a live row owns its machine alone. */
  predicate ExternalFree(rows: map<ResourceId, Resource>, id: ResourceId, ext: ExternalId) {
    forall r <- rows.Keys :: r != id && Live(rows, r) ==> rows[r].externalId != Some(ext)
  }

  /** Active leased capacity of one dimension: the only allocation truth. */
  function LeasedOf(leases: seq<Lease>, id: ResourceId, dim: string): nat {
    if |leases| == 0 then 0
    else
      var l := leases[|leases| - 1];
      LeasedOf(leases[..|leases| - 1], id, dim) + if ActiveOn(l, id) then At(l.capacity, dim) else 0
  }

  // ---- Row updates ----

  /** A phase move and the side columns that follow it. */
  function Moved(r: Resource, to: Phase, at: int): Resource {
    r.(phase := to,
       updatedAt := at,
       readyAt := if to.Ready? && !r.phase.Allocated? then Some(at) else r.readyAt,
       drainStartedAt := if to.Draining? then Some(at) else r.drainStartedAt,
       parkedAt := if to.Parked? then Some(at) else if to.Ready? then None else r.parkedAt)
  }

  function Tombstoned(r: Resource, at: int): Resource {
    r.(deletedAt := Some(at), updatedAt := at)
  }

  function WithFacts(r: Resource, facts: Option<Vector>, at: int): Resource {
    if facts.Some? then r.(capacity := facts.value, updatedAt := at) else r
  }

  // ---- The store ----

  class Store {
    var resources: map<ResourceId, Resource>
    var operations: map<OperationId, Operation>
    var leases: seq<Lease>
    var acquisitions: map<AcquisitionId, Acquisition>

    constructor ()
      ensures Db() == Fleet(map[], map[], [], map[])
    {
      resources, operations, leases, acquisitions := map[], map[], [], map[];
    }

    function Db(): Fleet
      reads this
    {
      Fleet(resources, operations, leases, acquisitions)
    }

    /** A transaction that returns an error leaves nothing behind. */
    method Rollback(to: Fleet)
      modifies this
      ensures Db() == to
    {
      resources, operations, leases, acquisitions := to.resources, to.operations, to.leases, to.acquisitions;
    }

    // Resources

    method CreateResource(id: ResourceId, r: Resource) returns (err: Error)
      modifies this`resources
      ensures err == if id in old(resources) || (r.externalId.Some? && !old(ExternalFree(resources, id, r.externalId.value)))
                     then ErrConflict else NoError
      ensures resources == if err.NoError? then old(resources)[id := r] else old(resources)
    {
      if id in resources || (r.externalId.Some? && !ExternalFree(resources, id, r.externalId.value)) {
        return ErrConflict;
      }
      resources := resources[id := r];
      err := NoError;
    }

    method CASPhase(id: ResourceId, from: Phase, to: Phase, at: int) returns (err: Error)
      modifies this`resources
      ensures err == if old(InPhase(resources, id, from)) then NoError else ErrConflict
      ensures resources == if err.NoError? then old(resources)[id := Moved(old(resources)[id], to, at)] else old(resources)
    {
      if !InPhase(resources, id, from) {
        return ErrConflict;
      }
      var r := resources[id].(phase := to, updatedAt := at);
      if to.Ready? && !from.Allocated? {
        r := r.(readyAt := Some(at));
      }
      if to.Draining? {
        r := r.(drainStartedAt := Some(at));
      }
      if to.Parked? {
        r := r.(parkedAt := Some(at));
      }
      if to.Ready? {
        r := r.(parkedAt := None);
      }
      resources := resources[id := r];
      err := NoError;
    }

    method SetExternalRef(id: ResourceId, ext: ExternalId) returns (err: Error)
      modifies this`resources
      ensures err == if id !in old(resources) then ErrNotFound
                     else if old(Live(resources, id)) && !old(ExternalFree(resources, id, ext)) then ErrConflict
                     else NoError
      ensures resources == if err.NoError? then old(resources)[id := old(resources)[id].(externalId := Some(ext))] else old(resources)
    {
      if id !in resources {
        return ErrNotFound;
      }
      if Live(resources, id) && !ExternalFree(resources, id, ext) {
        return ErrConflict;
      }
      resources := resources[id := resources[id].(externalId := Some(ext))];
      err := NoError;
    }

    /** An absent capacity keeps the stored one. The row may be tombstoned. */
    method SetProviderFacts(id: ResourceId, capacity: Vector, at: int) returns (err: Error)
      modifies this`resources
      ensures err == if id in old(resources) then NoError else ErrNotFound
      ensures resources == if err.NoError? then old(resources)[id := WithFacts(old(resources)[id], Some(capacity), at)] else old(resources)
    {
      if id !in resources {
        return ErrNotFound;
      }
      resources := resources[id := resources[id].(capacity := capacity, updatedAt := at)];
      err := NoError;
    }

    method SetLastLeaseEnded(id: ResourceId, at: int) returns (err: Error)
      modifies this`resources
      ensures err == if id in old(resources) then NoError else ErrNotFound
      ensures resources == if err.NoError?
                           then old(resources)[id := old(resources)[id].(lastLeaseEndedAt := Some(at), updatedAt := at)]
                           else old(resources)
    {
      if id !in resources {
        return ErrNotFound;
      }
      resources := resources[id := resources[id].(lastLeaseEndedAt := Some(at), updatedAt := at)];
      err := NoError;
    }

    method SetDeleteProtected(id: ResourceId, protected: bool, at: int) returns (err: Error)
      modifies this`resources
      ensures err == if old(Live(resources, id)) then NoError else ErrNotFound
      ensures resources == if err.NoError?
                           then old(resources)[id := old(resources)[id].(deleteProtected := protected, updatedAt := at)]
                           else old(resources)
    {
      if !Live(resources, id) {
        return ErrNotFound;
      }
      resources := resources[id := resources[id].(deleteProtected := protected, updatedAt := at)];
      err := NoError;
    }

    method MarkDeleted(id: ResourceId, at: int) returns (err: Error)
      modifies this`resources
      ensures err == if old(Live(resources, id)) then NoError else ErrNotFound
      ensures resources == if err.NoError? then old(resources)[id := Tombstoned(old(resources)[id], at)] else old(resources)
    {
      if !Live(resources, id) {
        return ErrNotFound;
      }
      resources := resources[id := resources[id].(deletedAt := Some(at), updatedAt := at)];
      err := NoError;
    }

    // Operations

    method AppendOp(id: OperationId, op: Operation) returns (err: Error)
      modifies this`operations
      ensures err == if op.state.OpJournaled? && op.resource in old(resources) && id !in old(operations) && old(OpFree(operations, op.resource))
                     then NoError else ErrConflict
      ensures operations == if err.NoError? then old(operations)[id := op] else old(operations)
    {
      if !op.state.OpJournaled? || op.resource !in resources || id in operations || !OpFree(operations, op.resource) {
        return ErrConflict;
      }
      operations := operations[id := op];
      err := NoError;
    }

    /** The journal compare-and-swap: next is the row the caller's edit produces from the stored one. */
    method TransitionOp(id: OperationId, from: OpState, next: Operation) returns (err: Error)
      modifies this`operations
      ensures err == if id !in old(operations) then ErrNotFound
                     else if old(operations)[id].state != from then ErrConflict
                     else NoError
      ensures operations == if err.NoError? then old(operations)[id := next] else old(operations)
    {
      if id !in operations {
        return ErrNotFound;
      }
      if operations[id].state != from {
        return ErrConflict;
      }
      operations := operations[id := next];
      err := NoError;
    }

    // Leases

    method InsertLease(l: Lease) returns (id: LeaseId, err: Error)
      modifies this`leases
      ensures err == if l.exclusive && (exists i | 0 <= i < |old(leases)| :: ActiveOn(old(leases)[i], l.resource) && old(leases)[i].exclusive)
                     then ErrConflict else NoError
      ensures id == |old(leases)|
      ensures leases == if err.NoError? then old(leases) + [l] else old(leases)
    {
      id := |leases|;
      if l.exclusive && exists i | 0 <= i < |leases| :: ActiveOn(leases[i], l.resource) && leases[i].exclusive {
        return id, ErrConflict;
      }
      leases := leases + [l];
      err := NoError;
    }

    method TransitionLease(id: LeaseId, from: LeaseState, to: LeaseState, at: int) returns (err: Error)
      requires !to.LeaseActive?
      modifies this`leases
      ensures err == if id < |old(leases)| && old(leases)[id].state == from then NoError else ErrConflict
      ensures leases == if err.NoError? then old(leases)[id := old(leases)[id].(state := to, endedAt := Some(at))] else old(leases)
    {
      if id >= |leases| || leases[id].state != from {
        return ErrConflict;
      }
      leases := leases[id := leases[id].(state := to, endedAt := Some(at))];
      err := NoError;
    }

    method CountActive(id: ResourceId) returns (n: nat)
      ensures n == 0 <==> Unleased(leases, id)
    {
      n := 0;
      for i := 0 to |leases|
        invariant n == 0 <==> forall j | 0 <= j < i :: !ActiveOn(leases[j], id)
      {
        if ActiveOn(leases[i], id) {
          n := n + 1;
        }
      }
    }

    /** The active leases of a resource summed per dimension, and whether any of them is exclusive. */
    method SumActive(id: ResourceId) returns (sum: Vector, exclusive: bool)
      ensures forall dim :: At(sum, dim) == LeasedOf(leases, id, dim)
      ensures exclusive <==> exists i | 0 <= i < |leases| :: ActiveOn(leases[i], id) && leases[i].exclusive
    {
      sum, exclusive := map[], false;
      for i := 0 to |leases|
        invariant forall dim :: At(sum, dim) == LeasedOf(leases[..i], id, dim)
        invariant exclusive <==> exists j | 0 <= j < i :: ActiveOn(leases[j], id) && leases[j].exclusive
      {
        assert leases[..i + 1][..i] == leases[..i];
        if ActiveOn(leases[i], id) {
          sum := Plus(sum, leases[i].capacity);
          exclusive := exclusive || leases[i].exclusive;
        }
      }
      assert leases[..|leases|] == leases;
    }

    // Acquisitions

    method InsertAcquisition(id: AcquisitionId, a: Acquisition) returns (err: Error)
      modifies this`acquisitions
      ensures err == if id in old(acquisitions) then ErrConflict else NoError
      ensures acquisitions == if err.NoError? then old(acquisitions)[id := a] else old(acquisitions)
    {
      if id in acquisitions {
        return ErrConflict;
      }
      acquisitions := acquisitions[id := a];
      err := NoError;
    }

    method TransitionAcquisition(id: AcquisitionId, from: AcqState, to: AcqState, at: int) returns (err: Error)
      modifies this`acquisitions
      ensures err == if id in old(acquisitions) && old(acquisitions)[id].state == from then NoError else ErrConflict
      ensures acquisitions == if err.NoError? then old(acquisitions)[id := old(acquisitions)[id].(state := to, updatedAt := at)]
                              else old(acquisitions)
    {
      if id !in acquisitions || acquisitions[id].state != from {
        return ErrConflict;
      }
      acquisitions := acquisitions[id := acquisitions[id].(state := to, updatedAt := at)];
      err := NoError;
    }

    method Bind(id: AcquisitionId, lease: LeaseId, at: int) returns (err: Error)
      modifies this`acquisitions
      ensures err == if id in old(acquisitions) && (old(acquisitions)[id].state.AcqPending? || old(acquisitions)[id].state.AcqProvisioning?)
                     then NoError else ErrConflict
      ensures acquisitions == if err.NoError?
                              then old(acquisitions)[id := old(acquisitions)[id].(state := AcqBound, lease := Some(lease),
                                                                                  pendingResource := None, updatedAt := at)]
                              else old(acquisitions)
    {
      if id !in acquisitions || !(acquisitions[id].state.AcqPending? || acquisitions[id].state.AcqProvisioning?) {
        return ErrConflict;
      }
      acquisitions := acquisitions[id := acquisitions[id].(state := AcqBound, lease := Some(lease),
                                                           pendingResource := None, updatedAt := at)];
      err := NoError;
    }

    /** Writes the pre-bind column: SetPendingResource and ClearPendingResource. */
    method SetPendingResource(id: AcquisitionId, r: Option<ResourceId>) returns (err: Error)
      modifies this`acquisitions
      ensures err == if id in old(acquisitions) then NoError else ErrNotFound
      ensures acquisitions == if err.NoError? then old(acquisitions)[id := old(acquisitions)[id].(pendingResource := r)]
                              else old(acquisitions)
    {
      if id !in acquisitions {
        return ErrNotFound;
      }
      acquisitions := acquisitions[id := acquisitions[id].(pendingResource := r)];
      err := NoError;
    }
  }
}
