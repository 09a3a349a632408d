/** The reconciler's own transactions: every gate is re-checked inside them. */
module Reconcile {
  import opened Basics
  import opened Phases
  import opened Storage
  import opened Transactions
  import Provision

  class Reconciler {
    const st: Store

    constructor (st: Store)
      ensures this.st == st
    {
      this.st := st;
    }

    /** Ownership, protection and lease gates, then the tombstone or the journaled delete. On an error the caller rolls back. */
    method DeleteInTx(id: ResourceId, op: OperationId, now: int) returns (err: Error)
      requires Live(st.resources, id)
      modifies st`resources, st`operations
      ensures err.NoError? <==> CanDelete(old(st.Db()), id, op)
      ensures err.NoError? ==> st.Db() == Delete(old(st.Db()), id, op, now)
    {
      var cur := st.resources[id];
      if !cur.ownership.OwnershipManaged? || cur.deleteProtected {
        return ErrConflict;
      }
      var n := st.CountActive(id);
      if n > 0 {
        return ErrConflict;
      }
      if cur.externalId.None? {
        err := st.MarkDeleted(id, now);
        return;
      }
      err := Provision.PhaseOp(st, id, op, OpKindDelete, cur.phase, now);
    }

    method JournalDelete(id: ResourceId, op: OperationId, now: int) returns (err: Error)
      modifies st
      ensures err.NoError? <==>
        CanDelete(old(st.Db()), id, op) && (InPhase(old(st.resources), id, Draining) || InPhase(old(st.resources), id, Failed))
      ensures st.Db() == Transactions.JournalDelete(old(st.Db()), id, op, now)
    {
      var before := st.Db();
      if id !in st.resources {
        return ErrNotFound;
      }
      var cur := st.resources[id];
      if cur.deletedAt.Some? || (!cur.phase.Draining? && !cur.phase.Failed?) {
        return ErrConflict;
      }
      err := DeleteInTx(id, op, now);
      if !err.NoError? {
        st.Rollback(before);
      }
    }

    /** Counts the queued acquisitions the machine could host. */
    method CountQueued(id: ResourceId, now: int) returns (n: nat)
      ensures n == |Queue(st.Db(), id, now)|
    {
      n := 0;
      var todo := st.acquisitions.Keys;
      ghost var hits: set<AcquisitionId> := {};
      while todo != {}
        invariant todo <= st.acquisitions.Keys
        invariant n == |hits| && hits == set a | a in st.acquisitions && a !in todo && QueuedFor(st.Db(), a, id, now)
        decreases todo
      {
        var a :| a in todo;
        todo := todo - {a};
        if QueuedFor(st.Db(), a, id, now) {
          n := n + 1;
          hits := hits + {a};
        }
      }
      assert hits == Queue(st.Db(), id, now);
    }

    /** Counts the other ready machines that could take the queued work. */
    method CountSpares(id: ResourceId) returns (n: nat)
      ensures n == |Spares(st.Db(), id)|
    {
      n := 0;
      var todo := st.resources.Keys;
      ghost var hits: set<ResourceId> := {};
      while todo != {}
        invariant todo <= st.resources.Keys
        invariant n == |hits| && hits == set o | o in st.resources && o !in todo && Spare(st.Db(), o, id)
        decreases todo
      {
        var o :| o in todo;
        todo := todo - {o};
        if Spare(st.Db(), o, id) {
          n := n + 1;
          hits := hits + {o};
        }
      }
      assert hits == Spares(st.Db(), id);
    }

    /** The cost delete: on any gate failure the machine keeps its phase and stays schedulable. */
    method CostReclaim(id: ResourceId, op: OperationId, from: Phase, now: int) returns (err: Error)
      modifies st
      ensures err.NoError? <==>
        CanDelete(old(st.Db()), id, op) && InPhase(old(st.resources), id, from) && !QueueBlocks(old(st.Db()), id, now)
      ensures st.Db() == Transactions.CostReclaim(old(st.Db()), id, op, from, now)
    {
      var before := st.Db();
      if id !in st.resources {
        return ErrNotFound;
      }
      if st.resources[id].deletedAt.Some? || st.resources[id].phase != from {
        return ErrConflict;
      }
      var satisfiable := CountQueued(id, now);
      if satisfiable > 0 {
        var remaining := CountSpares(id);
        if satisfiable > remaining {
          return ErrConflict;
        }
      }
      err := DeleteInTx(id, op, now);
      if !err.NoError? {
        st.Rollback(before);
      }
    }
  }
}
