/** Idempotency records: one replayable outcome per scope and key. */
module Idempotency {
  import opened Basics
  import opened Storage

  const RETENTION_MS: int := 48 * 3600 * 1000

  datatype IdemKey = IdemKey(scope: string, key: string)
  datatype IdemState = IdemInProgress | IdemCompleted | IdemFailed
  datatype Response = Response(status: int, body: string)

  datatype IdemRecord = IdemRecord(
    requestHash: string,
    state: IdemState,
    operation: Option<OperationId>,
    response: Response,
    expiresAt: Option<int>
  )

  type Records = map<IdemKey, IdemRecord>

  datatype BeginOutcome = BeginNew | BeginInProgress | BeginCompleted | BeginMismatch

  const NO_RESPONSE := Response(0, "")

  function Claimed(hash: string, op: Option<OperationId>): IdemRecord {
    IdemRecord(hash, IdemInProgress, op, NO_RESPONSE, None)
  }

  function Completed(hash: string, op: Option<OperationId>, r: Response, expires: int): IdemRecord {
    IdemRecord(hash, IdemCompleted, op, r, Some(expires))
  }

  /** Expired, and its operation is gone from the journal's open set. */
  predicate Collectable(rec: IdemRecord, ops: map<OperationId, Operation>, now: int) {
    && rec.expiresAt.Some? && rec.expiresAt.value < now
    && (rec.operation.None? || (rec.operation.value in ops && ops[rec.operation.value].state.Terminal()))
  }

  class IdempotencyStore {
    var records: Records

    constructor ()
      ensures records == map[]
    {
      records := map[];
    }

    /** Claims the key unless it is taken; a taken key says how its record relates to this request. */
    method Begin(k: IdemKey, hash: string, op: Option<OperationId>) returns (out: BeginOutcome, rec: IdemRecord)
      modifies this
      ensures records == if k in old(records) then old(records) else old(records)[k := Claimed(hash, op)]
      ensures k in records && rec == records[k]
      ensures out == if k !in old(records) then BeginNew
                     else if rec.requestHash != hash then BeginMismatch
                     else if rec.state.IdemInProgress? then BeginInProgress
                     else BeginCompleted
    {
      var inserted := k !in records;
      if inserted {
        records := records[k := Claimed(hash, op)];
      }
      rec := records[k];
      if inserted {
        return BeginNew, rec;
      }
      if rec.requestHash != hash {
        return BeginMismatch, rec;
      }
      if rec.state.IdemInProgress? {
        return BeginInProgress, rec;
      }
      out := BeginCompleted;
    }

    method Finish(k: IdemKey, state: IdemState, r: Response, expires: int) returns (err: Error)
      modifies this
      ensures err == if k in old(records) && old(records)[k].state.IdemInProgress? then NoError else ErrConflict
      ensures records == if err.NoError? then old(records)[k := old(records)[k].(state := state, response := r, expiresAt := Some(expires))]
                         else old(records)
    {
      if k !in records || !records[k].state.IdemInProgress? {
        return ErrConflict;
      }
      records := records[k := records[k].(state := state, response := r, expiresAt := Some(expires))];
      err := NoError;
    }

    /** Removes some of the collectable records, at most limit of them. */
    method GC(ops: map<OperationId, Operation>, now: int, limit: nat) returns (n: nat)
      modifies this
      ensures records.Keys <= old(records).Keys && n == |old(records)| - |records| && n <= limit
      ensures forall k :: k in records ==> records[k] == old(records)[k]
      ensures forall k :: k in old(records) && k !in records ==> Collectable(old(records)[k], ops, now)
      ensures n < limit ==> forall k :: k in records ==> !Collectable(records[k], ops, now)
    {
      n := 0;
      var todo := records.Keys;
      while todo != {} && n < limit
        invariant todo <= records.Keys <= old(records).Keys && n == |old(records)| - |records| && n <= limit
        invariant forall k :: k in records ==> records[k] == old(records)[k]
        invariant forall k :: k in old(records) && k !in records ==> Collectable(old(records)[k], ops, now)
        invariant forall k :: k in records && k !in todo ==> !Collectable(records[k], ops, now)
        decreases todo
      {
        var k :| k in todo;
        todo := todo - {k};
        if Collectable(records[k], ops, now) {
          var rest := records - {k};
          assert records == rest[k := records[k]];
          records := rest;
          n := n + 1;
        }
      }
    }
  }
}
