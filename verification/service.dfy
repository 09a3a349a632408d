/** The keyed commands of the API: create, delete and acquire happen at most once per idempotency key. */
module Service {
  import opened Basics
  import opened Phases
  import opened Storage
  import opened Transactions
  import opened Idempotency
  import Provision

  /** What a command does to the fleet, with its fresh identities; op is what the idempotency record refers to. */
  datatype Command =
    | CreateCommand(id: ResourceId, op: OperationId, row: Resource)
    | DeleteCommand(id: ResourceId, op: OperationId)
    | AcquireCommand(a: AcquisitionId, acq: Acquisition)

  function OpOf(c: Command): Option<OperationId> {
    if c.AcquireCommand? then None else Some(c.op)
  }

  /** Whether the command passes its gates in this fleet. */
  predicate Admitted(db: Fleet, c: Command) {
    match c
    case CreateCommand(id, op, _) => CanJournalCreate(db, id, op)
    case DeleteCommand(id, op) =>
      && CanDelete(db, id, op)
      && (db.resources[id].externalId.None? || CanTransition(db.resources[id].phase, Deleting))
    case AcquireCommand(a, _) => a !in db.acquisitions
  }

  function Performed(db: Fleet, c: Command, now: int): Fleet {
    match c
    case CreateCommand(id, op, row) => JournalCreate(db, id, op, row, now)
    case DeleteCommand(id, op) => Transactions.DeleteResource(db, id, op, now)
    case AcquireCommand(a, acq) => InsertAcquisition(db, a, acq)
  }

  datatype Reply = Done(r: Response) | Replayed(r: Response) | Mismatch | InFlight | Refused

  /** The whole keyed command as one step: the effect, the record and the reply commit together or not at all. */
  function Keyed(db: Fleet, records: Records, key: Option<IdemKey>, hash: string, c: Command, r: Response, now: int): (Fleet, Records, Reply) {
    if key.Some? && key.value in records then
      var rec := records[key.value];
      (db, records,
       if rec.requestHash != hash then Mismatch
       else if rec.state.IdemInProgress? then InFlight
       else Replayed(rec.response))
    else if !Admitted(db, c) then (db, records, Refused)
    else
      (Performed(db, c, now),
       if key.Some? then records[key.value := Completed(hash, OpOf(c), r, now + RETENTION_MS)] else records,
       Done(r))
  }

  class Service {
    const st: Store
    const idem: IdempotencyStore

    constructor (st: Store, idem: IdempotencyStore)
      ensures this.st == st && this.idem == idem
    {
      this.st := st;
      this.idem := idem;
    }

    /** The command transaction: claim the key, run the body, store the replayable bytes. r is the response rendered inside it. */
    method Execute(key: Option<IdemKey>, hash: string, c: Command, r: Response, now: int) returns (reply: Reply)
      requires c.CreateCommand? ==> c.row.externalId.None?
      modifies st, idem
      ensures (st.Db(), idem.records, reply) == Keyed(old(st.Db()), old(idem.records), key, hash, c, r, now)
    {
      var db, records := st.Db(), idem.records;
      if key.Some? {
        var out, rec := idem.Begin(key.value, hash, OpOf(c));
        match out {
          case BeginCompleted => return Replayed(rec.response);
          case BeginInProgress => return InFlight;
          case BeginMismatch => return Mismatch;
          case BeginNew =>
        }
      }
      var err;
      match c {
        case CreateCommand(id, op, row) => err := Provision.Create(st, id, op, row, now);
        case DeleteCommand(id, op) => err := DeleteBody(id, op, now);
        case AcquireCommand(a, acq) => err := st.InsertAcquisition(a, acq);
      }
      if !err.NoError? {
        st.Rollback(db);
        idem.records := records;
        return Refused;
      }
      if key.Some? {
        err := idem.Finish(key.value, IdemCompleted, r, now + RETENTION_MS);
        assert idem.records == records[key.value := Completed(hash, OpOf(c), r, now + RETENTION_MS)];
      }
      reply := Done(r);
    }

    /** The deletion gates and the journaled delete. On an error the caller rolls back. */
    method DeleteBody(id: ResourceId, op: OperationId, now: int) returns (err: Error)
      modifies st`resources, st`operations
      ensures err.NoError? <==> Admitted(old(st.Db()), DeleteCommand(id, op))
      ensures err.NoError? ==> st.Db() == Transactions.DeleteResource(old(st.Db()), id, op, now)
    {
      if id !in st.resources {
        return ErrNotFound;
      }
      var res := st.resources[id];
      if res.deletedAt.Some? {
        return ErrNotFound;
      }
      if !res.ownership.OwnershipManaged? {
        return ErrInvalid;
      }
      if res.deleteProtected {
        return ErrConflict;
      }
      var n := st.CountActive(id);
      if n > 0 {
        return ErrConflict;
      }
      if res.externalId.None? {
        // The tombstone does not look at the journal: an active create may still hold the row.
        err := st.MarkDeleted(id, now);
        return;
      }
      if !CanTransition(res.phase, Deleting) {
        return ErrConflict;
      }
      err := Provision.PhaseOp(st, id, op, OpKindDelete, res.phase, now);
    }

    // ---- Unkeyed verbs ----

    method DrainResource(id: ResourceId, now: int) returns (err: Error)
      modifies st
      ensures err.NoError? <==> InPhase(old(st.resources), id, Ready) || InPhase(old(st.resources), id, Allocated)
      ensures st.Db() == if err.NoError? then MovePhase(old(st.Db()), id, old(st.resources)[id].phase, Draining, now) else old(st.Db())
    {
      if !Live(st.resources, id) {
        return ErrNotFound;
      }
      if !CanTransition(st.resources[id].phase, Draining) {
        return ErrConflict;
      }
      err := st.CASPhase(id, st.resources[id].phase, Draining, now);
    }

    method UndrainResource(id: ResourceId, now: int) returns (err: Error)
      modifies st
      ensures err.NoError? <==> InPhase(old(st.resources), id, Draining)
      ensures st.Db() == MovePhase(old(st.Db()), id, Draining, Ready, now)
    {
      if !Live(st.resources, id) {
        return ErrNotFound;
      }
      if !st.resources[id].phase.Draining? {
        return ErrConflict;
      }
      err := st.CASPhase(id, Draining, Ready, now);
    }

    method SetResourceProtected(id: ResourceId, protected: bool, now: int) returns (err: Error)
      modifies st
      ensures err.NoError? <==> Live(old(st.resources), id) && old(st.resources)[id].deleteProtected != protected
      ensures st.Db() == if err.NoError? then Protect(old(st.Db()), id, protected, now) else old(st.Db())
    {
      if !Live(st.resources, id) {
        return ErrNotFound;
      }
      if st.resources[id].deleteProtected == protected {
        return ErrConflict;
      }
      err := st.SetDeleteProtected(id, protected, now);
    }

    /** The operator's own park bypasses the protection flag. */
    method ParkResource(id: ResourceId, op: OperationId, now: int) returns (err: Error)
      modifies st
      ensures err.NoError? <==> CanStop(old(st.Db()), id, op, false)
      ensures st.Db() == JournalStop(old(st.Db()), id, op, false, now)
    {
      var before := st.Db();
      err := Provision.Stop(st, id, op, false, now);
      if !err.NoError? {
        st.Rollback(before);
      }
    }

    method StartResource(id: ResourceId, op: OperationId, now: int) returns (err: Error)
      modifies st
      ensures err.NoError? <==> CanStart(old(st.Db()), id, op)
      ensures st.Db() == JournalStart(old(st.Db()), id, op, now)
    {
      var before := st.Db();
      err := Provision.Start(st, id, op, now);
      if !err.NoError? {
        st.Rollback(before);
      }
    }

    /** The operator thaws a frozen operation into verification, or attests that it failed. */
    method ResolveOperation(op: OperationId, retry: bool, now: int) returns (err: Error)
      modifies st
      ensures err.NoError? <==> OpIn(old(st.Db()), op, OpUncertain)
      ensures st.Db() == if retry then Thaw(old(st.Db()), op, now) else MarkFailed(old(st.Db()), op, now)
    {
      if op !in st.operations {
        return ErrNotFound;
      }
      var o := st.operations[op];
      if retry {
        err := st.TransitionOp(op, OpUncertain, o.(state := OpVerifying, verifyDeadline := Some(now + RESOLVE_WINDOW_MS)));
        return;
      }
      err := st.TransitionOp(op, OpUncertain, o.(state := OpFailed));
      if err.NoError? {
        var fromPhase := if o.kind.OpKindDelete? then Deleting else Provisioning;
        var _ := st.CASPhase(o.resource, fromPhase, Failed, now);
      }
    }
  }
}
