/** Satisfying acquisitions: atomic reservation, then a parked machine, then a fresh one. */
module Scheduling {
  import opened Basics
  import opened Phases
  import opened Capacity
  import opened Storage
  import opened Transactions
  import opened Invariants
  import opened Grounds
  import Provision

  /** Where one pass over a pending acquisition left it. */
  datatype Outcome =
    | Unchanged
    | Bound(id: ResourceId)
    | Resuming(id: ResourceId)
    | Queued
    | Scaling(id: ResourceId)
    | NoCapacity

  /** Some tracked dimension is over-allocated. */
  method Exceeds(sum: Vector, total: Vector) returns (over: bool)
    ensures !over <==> forall dim <- total.Keys :: At(sum, dim) <= total[dim]
  {
    var dims := total.Keys;
    while dims != {}
      invariant dims <= total.Keys
      invariant forall dim <- total.Keys - dims :: At(sum, dim) <= total[dim]
      decreases dims
    {
      var dim :| dim in dims;
      if At(sum, dim) > total[dim] {
        return true;
      }
      dims := dims - {dim};
    }
    over := false;
  }

  class Scheduler {
    const st: Store

    constructor (st: Store)
      ensures this.st == st
    {
      this.st := st;
    }

    /** The reservation transaction: everything is read and checked inside it. */
    method Reserve(a: AcquisitionId, id: ResourceId, now: int) returns (err: Error)
      requires a in st.acquisitions
      modifies st
      ensures err.NoError? <==> CanReserve(old(st.Db()), a, id, now)
      ensures st.Db() == Transactions.Reserve(old(st.Db()), a, id, now)
      ensures err.NoError? <==> Grants(old(st.Db()), a, id)
    {
      GrantsIff(st.Db(), a, id, now);
      hide Grants, LeasedOf, Fits;
      var before := st.Db();
      var acq := st.acquisitions[a];
      if id !in st.resources {
        return ErrNotFound;
      }
      if !Eligible(before, id) {
        return ErrConflict;
      }
      var r := st.resources[id];
      var n := st.CountActive(id);
      if acq.exclusive && n > 0 {
        return ErrInsufficient;
      }
      var used, held := st.SumActive(id);
      if held || !Fits(r.capacity, used, acq.want) {
        return ErrInsufficient;
      }
      var lease;
      lease, err := st.InsertLease(NewLease(acq, a, id, now));
      var sum, _ := st.SumActive(id);
      var over := Exceeds(sum, r.capacity);
      if over {
        st.Rollback(before);
        return ErrConflict;
      }
      if r.phase.Ready? {
        err := st.CASPhase(id, Ready, Allocated, now);
      }
      err := st.Bind(a, lease, now);
      if !err.NoError? {
        st.Rollback(before);
      }
    }

    /** One transaction claims a parked machine and pre-binds it to the acquisition. */
    method StartParked(a: AcquisitionId, id: ResourceId, op: OperationId, now: int) returns (err: Error)
      modifies st
      ensures err.NoError? <==> AcqIn(old(st.Db()), a, AcqPending) && CanStart(old(st.Db()), id, op)
      ensures st.Db() == Transactions.StartParked(old(st.Db()), a, id, op, now)
    {
      var before := st.Db();
      err := st.TransitionAcquisition(a, AcqPending, AcqProvisioning, now);
      if !err.NoError? {
        return;
      }
      err := Provision.Start(st, id, op, now);
      if err.NoError? {
        err := st.SetPendingResource(a, Some(id));
      } else {
        st.Rollback(before);
      }
    }

    /** One transaction journals a fresh machine and pre-binds it to the acquisition. */
    method ScaleOnDemand(a: AcquisitionId, id: ResourceId, op: OperationId, row: Resource, now: int) returns (err: Error)
      requires row.phase.Provisioning? && row.externalId.None?
      modifies st
      ensures err.NoError? <==> AcqIn(old(st.Db()), a, AcqPending) && CanJournalCreate(old(st.Db()), id, op)
      ensures st.Db() == Transactions.ScaleOnDemand(old(st.Db()), a, id, op, row, now)
    {
      var before := st.Db();
      err := st.TransitionAcquisition(a, AcqPending, AcqProvisioning, now);
      if !err.NoError? {
        return;
      }
      err := Provision.Create(st, id, op, row, now);
      if err.NoError? {
        err := st.SetPendingResource(a, Some(id));
      } else {
        st.Rollback(before);
      }
    }

    method RePend(a: AcquisitionId, now: int)
      modifies st
      ensures st.Db() == Transactions.RePend(old(st.Db()), a, now)
    {
      var err := st.TransitionAcquisition(a, AcqProvisioning, AcqPending, now);
      if err.NoError? {
        err := st.SetPendingResource(a, None);
      }
    }

    /** The pre-bound operation ended: bind through a full reservation, return to the queue, or fail. */
    method ResolvePending(a: AcquisitionId, id: ResourceId, kind: OpKind, state: OpState, now: int)
      requires a in st.acquisitions
      modifies st
      ensures st.Db() ==
        if state.OpSucceeded? then Transactions.Reserve(old(st.Db()), a, id, now)
        else if !state.Terminal() then old(st.Db())
        else if kind.OpKindStart? then Transactions.RePend(old(st.Db()), a, now)
        else MoveAcq(old(st.Db()), a, AcqProvisioning, AcqFailed, now)
      ensures state in {OpFailed, OpAborted} && old(st.acquisitions[a].state.AcqProvisioning?) ==>
        var acq := old(st.acquisitions[a]);
        && st.resources == old(st.resources) && st.leases == old(st.leases)
        && st.acquisitions == old(st.acquisitions)[a := if kind.OpKindStart?
                                                        then acq.(state := AcqPending, pendingResource := None, updatedAt := now)
                                                        else acq.(state := AcqFailed, updatedAt := now)]
      ensures state.OpSucceeded? ==> if Grants(old(st.Db()), a, id) then BoundIs(st.acquisitions, a, |old(st.leases)|)
                                     else st.Db() == old(st.Db())
    {
      GrantsIff(st.Db(), a, id, now);
      hide Grants;
      match state {
        case OpSucceeded =>
          var err := Reserve(a, id, now);
        case OpFailed =>
          if kind.OpKindStart? { RePend(a, now); return; }
          var err := st.TransitionAcquisition(a, AcqProvisioning, AcqFailed, now);
        case OpAborted =>
          if kind.OpKindStart? { RePend(a, now); return; }
          var err := st.TransitionAcquisition(a, AcqProvisioning, AcqFailed, now);
        case _ =>
      }
    }

    /** One pass of the ladder. ranked and parked are the candidates of the read snapshot, best first; estimate is the
        predicted wait for existing capacity; id and op are fresh identities; scalable says whether the class resolves. */
    method Satisfy(a: AcquisitionId, ranked: seq<ResourceId>, parked: seq<ResourceId>, estimate: Option<nat>, scalable: bool,
                   id: ResourceId, op: OperationId, parkable: bool, now: int) returns (out: Outcome)
      requires a in st.acquisitions && Inv(st.Db())
      modifies st
      ensures Inv(st.Db())
      ensures match out
        case Unchanged => st.Db() == old(st.Db())
        case Bound(r) =>
          && r in ranked[..if |ranked| < 3 then |ranked| else 3] && CanReserve(old(st.Db()), a, r, now)
          && st.Db() == Transactions.Reserve(old(st.Db()), a, r, now)
        case Resuming(r) =>
          && r in parked[..if |parked| < 3 then |parked| else 3] && CanStart(old(st.Db()), r, op)
          && (forall x :: x in ranked[..if |ranked| < 3 then |ranked| else 3] ==> !CanReserve(old(st.Db()), a, x, now))
          && st.Db() == Transactions.StartParked(old(st.Db()), a, r, op, now)
        case Queued =>
          && st.Db() == old(st.Db()) && estimate.Some?
          && now + estimate.value <= st.acquisitions[a].createdAt + st.acquisitions[a].maxWaitMs
        case Scaling(r) =>
          && r == id && CanJournalCreate(old(st.Db()), id, op)
          && st.Db() == Transactions.ScaleOnDemand(old(st.Db()), a, id, op,
                                                   NewRow(old(st.acquisitions[a]).className, None, parkable, now), now)
        case NoCapacity => st.Db() == old(st.Db()) && st.acquisitions[a].className == ""
      ensures !out.Unchanged? ==> old(st.acquisitions[a].state.AcqPending?)
      ensures (out.Queued? || out.Scaling? || out.NoCapacity?) ==>
                && (forall r :: r in ranked[..if |ranked| < 3 then |ranked| else 3] ==> !CanReserve(old(st.Db()), a, r, now))
                && (forall r :: r in parked[..if |parked| < 3 then |parked| else 3] ==> !CanStart(old(st.Db()), r, op))
      ensures out.Scaling? ==>
                var acq := old(st.acquisitions[a]);
                !(acq.maxWaitMs > 0 && estimate.Some? && now + estimate.value <= acq.createdAt + acq.maxWaitMs && now < acq.createdAt + acq.maxWaitMs)
    {
      ghost var before := st.Db();
      var acq := st.acquisitions[a];
      if !acq.state.AcqPending? {
        return Unchanged;
      }
      for i := 0 to if |ranked| < 3 then |ranked| else 3
        invariant st.Db() == before
        invariant forall j | 0 <= j < i :: !CanReserve(before, a, ranked[j], now)
      {
        var err := Reserve(a, ranked[i], now);
        if err.NoError? {
          ReserveKeeps(before, a, ranked[i], now);
          return Bound(ranked[i]);
        }
        if !err.ErrConflict? && !err.ErrInsufficient? {
          return Unchanged;
        }
      }
      for i := 0 to if |parked| < 3 then |parked| else 3
        invariant st.Db() == before
        invariant forall j | 0 <= j < i :: !CanStart(before, parked[j], op)
      {
        var err := StartParked(a, parked[i], op, now);
        if err.NoError? {
          StartParkedKeeps(before, a, parked[i], op, now);
          return Resuming(parked[i]);
        }
        if !err.ErrConflict? {
          return Unchanged;
        }
      }
      if acq.maxWaitMs > 0 && now < acq.createdAt + acq.maxWaitMs && estimate.Some? && now + estimate.value <= acq.createdAt + acq.maxWaitMs {
        return Queued;
      }
      if acq.className == "" {
        return NoCapacity;
      }
      if !scalable {
        return Unchanged;
      }
      var row := NewRow(acq.className, None, parkable, now);
      var err := ScaleOnDemand(a, id, op, row, now);
      ScaleOnDemandKeeps(before, a, id, op, row, now);
      out := if err.NoError? then Scaling(id) else Unchanged;
    }
  }
}
