/** The journaling cores shared by every caller: each runs inside the caller's open transaction. */
module Provision {
  import opened Basics
  import opened Phases
  import opened Storage
  import opened Transactions

  /** A row and its create operation. On an error the caller rolls back. */
  method Create(st: Store, id: ResourceId, op: OperationId, row: Resource, now: int) returns (err: Error)
    requires row.externalId.None?
    modifies st`resources, st`operations
    ensures err.NoError? <==> CanJournalCreate(old(st.Db()), id, op)
    ensures err.NoError? ==> st.Db() == JournalCreate(old(st.Db()), id, op, row, now)
  {
    err := st.CreateResource(id, row);
    if err.NoError? {
      err := st.AppendOp(op, NewOp(OpKindCreate, id, None, now));
    }
  }

  /** The phase move and the operation that shields it. On an error the caller rolls back. */
  method PhaseOp(st: Store, id: ResourceId, op: OperationId, kind: OpKind, from: Phase, now: int) returns (err: Error)
    requires InPhase(st.resources, id, from)
    modifies st`resources, st`operations
    ensures err.NoError? <==> old(st.resources)[id].externalId.Some? && CanAppend(old(st.Db()), op, id)
    ensures err.NoError? ==> st.Db() == JournalPhaseOp(old(st.Db()), id, op, kind, now)
  {
    var cur := st.resources[id];
    if cur.externalId.None? {
      return ErrConflict;
    }
    err := st.CASPhase(id, from, ShieldOf(kind), now);
    if err.NoError? {
      err := st.AppendOp(op, NewOp(kind, id, cur.externalId, now));
    }
  }

  method Stop(st: Store, id: ResourceId, op: OperationId, requireUnprotected: bool, now: int) returns (err: Error)
    modifies st`resources, st`operations
    ensures err.NoError? <==> CanStop(old(st.Db()), id, op, requireUnprotected)
    ensures err.NoError? ==> st.Db() == JournalStop(old(st.Db()), id, op, requireUnprotected, now)
  {
    if id !in st.resources {
      return ErrNotFound;
    }
    var cur := st.resources[id];
    if cur.deletedAt.Some? || !cur.phase.Ready? || !cur.ownership.OwnershipManaged? || (requireUnprotected && cur.deleteProtected) {
      return ErrConflict;
    }
    if !cur.parkable {
      return ErrParkUnsupported;
    }
    var n := st.CountActive(id);
    if n > 0 {
      return ErrConflict;
    }
    err := PhaseOp(st, id, op, OpKindStop, Ready, now);
  }

  method Start(st: Store, id: ResourceId, op: OperationId, now: int) returns (err: Error)
    modifies st`resources, st`operations
    ensures err.NoError? <==> CanStart(old(st.Db()), id, op)
    ensures err.NoError? ==> st.Db() == JournalStart(old(st.Db()), id, op, now)
  {
    if id !in st.resources {
      return ErrNotFound;
    }
    var cur := st.resources[id];
    if cur.deletedAt.Some? || !cur.phase.Parked? || !cur.ownership.OwnershipManaged? {
      return ErrConflict;
    }
    if !cur.parkable {
      return ErrParkUnsupported;
    }
    err := PhaseOp(st, id, op, OpKindStart, Parked, now);
  }
}
