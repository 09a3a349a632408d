/** One reconcile cycle of a pool: six ordered loops over a listing taken at the start, each write re-checked in its own
    transaction. */
module PoolCycle {
  import opened Basics
  import opened Phases
  import opened Storage
  import opened Transactions
  import opened Invariants
  import opened PoolPlan
  import opened PoolBoard
  import opened Reconcile
  import Ids
  import Provision

  // ---- One loop over a snapshot list ----

  /** Every listed row is a row of the pool. */
  predicate OfPool(rows: Rows, pool: PoolId, list: seq<ResourceId>) {
    forall i | 0 <= i < |list| :: Member(rows, pool, list[i])
  }

  /** A pass at position i of its list: it moved some of the eligible rows it visited, all of them when none was
      blocked, and never more than its limit. */
  predicate Sweeping(eligible: set<ResourceId>, list: seq<ResourceId>, i: nat, moved: set<ResourceId>, limit: int, free: bool) {
    && i <= |list|
    && moved <= IdSet(list[..i]) * eligible
    && (|moved| > 0 ==> |moved| <= limit)
    && (free ==> moved == IdSet(list[..i]) * eligible)
  }

  /** A pass at its end: as many as its limit and its list allow when none was blocked, and then in list order. */
  predicate Swept(eligible: set<ResourceId>, list: seq<ResourceId>, moved: set<ResourceId>, limit: int, free: bool) {
    && moved <= IdSet(list) * eligible
    && |moved| <= Upto(limit, |IdSet(list) * eligible|)
    && (free ==> |moved| == Upto(limit, |IdSet(list) * eligible|))
    && (free ==> exists i: nat :: i <= |list| && moved == IdSet(list[..i]) * eligible)
  }

  lemma SweepNext(eligible: set<ResourceId>, list: seq<ResourceId>, i: nat, moved: set<ResourceId>, limit: int, free: bool, ok: bool)
    requires Distinct(list) && Sweeping(eligible, list, i, moved, limit, free) && i < |list| && |moved| < limit
    requires ok ==> list[i] in eligible
    requires free && list[i] in eligible ==> ok
    ensures list[i] !in moved
    ensures Sweeping(eligible, list, i + 1, if ok then moved + {list[i]} else moved, limit, free)
  {
    IdSetNext(list, i);
  }

  lemma Listed(list: seq<ResourceId>, i: nat)
    requires i < |list|
    ensures list[i] in IdSet(list)
  {
  }

  lemma SweepLook(eligible: set<ResourceId>, list: seq<ResourceId>, i: nat, moved: set<ResourceId>, limit: int, free: bool)
    requires Distinct(list) && Sweeping(eligible, list, i, moved, limit, free) && i < |list|
    ensures list[i] !in moved
  {
    IdSetNext(list, i);
  }

  lemma SweepEnd(eligible: set<ResourceId>, list: seq<ResourceId>, i: nat, moved: set<ResourceId>, limit: int, free: bool)
    requires Distinct(list) && Sweeping(eligible, list, i, moved, limit, free)
    requires free ==> i == |list| || |moved| >= limit
    ensures Swept(eligible, list, moved, limit, free)
  {
    assert list[..|list|] == list;
    forall x | x in IdSet(list[..i])
      ensures x in IdSet(list)
    {
      var k :| 0 <= k < i && list[..i][k] == x;
      assert list[k] == x;
    }
    SmallerSet(moved, IdSet(list) * eligible);
  }

  lemma SweepStart(eligible: set<ResourceId>, list: seq<ResourceId>, limit: int, free: bool)
    ensures Sweeping(eligible, list, 0, {}, limit, free)
  {
    assert list[..0] == [];
    assert IdSet([]) == {};
  }

  lemma TierOfPool(rows: Rows, pool: PoolId, p: Phase, list: seq<ResourceId>)
    requires IdSet(list) <= Tier(rows, pool, p)
    ensures OfPool(rows, pool, list) && IdSet(list) * Tier(rows, pool, p) == IdSet(list)
  {
    forall i | 0 <= i < |list|
      ensures Member(rows, pool, list[i])
    {
      assert list[i] in IdSet(list);
    }
  }

  // ---- The state in the middle of a pass ----

  /** What has happened since a pass began: the moved rows changed phase and nothing else did. */
  predicate Shifted(start: Fleet, db: Fleet, moved: set<ResourceId>, q: Phase, now: int) {
    db.leases == start.leases && db.acquisitions == start.acquisitions && db.resources == ShiftRows(start.resources, moved, q, now)
  }

  predicate LeftPool(start: Fleet, db: Fleet, moved: set<ResourceId>, now: int) {
    db.leases == start.leases && db.acquisitions == start.acquisitions && db.resources == LeaveRows(start.resources, moved, now)
  }

  lemma NothingYet(start: Fleet, q: Phase, now: int)
    ensures Shifted(start, start, {}, q, now) && LeftPool(start, start, {}, now)
  {
  }

  lemma ShiftedLook(start: Fleet, db: Fleet, pool: PoolId, p: Phase, list: seq<ResourceId>, i: nat, moved: set<ResourceId>, q: Phase, now: int)
    requires Shifted(start, db, moved, q, now) && i < |list| && list[i] !in moved && OfPool(start.resources, pool, list)
    ensures var id := list[i];
            && Live(db.resources, id)
            && (InPhase(db.resources, id, p) <==> id in Tier(start.resources, pool, p))
            && (Clear(start, id) ==> Clear(db, id)) && (Switchable(start, id) ==> Switchable(db, id))
            && (NothingQueued(start) ==> NothingQueued(db))
            && (Unleased(db.leases, id) <==> Unleased(start.leases, id))
            && forall db': Fleet | db'.leases == db.leases && db'.acquisitions == db.acquisitions
                                   && db'.resources == db.resources[id := Moved(db.resources[id], q, now)] ::
                 Shifted(start, db', moved + {id}, q, now)
    ensures forall db': Fleet | db'.leases == db.leases && db'.acquisitions == db.acquisitions && db'.resources == db.resources ::
              Shifted(start, db', moved, q, now)
  {
    ShiftRowsMore(start.resources, moved, list[i], q, now);
    InTier(start.resources, pool, p, list[i]);
  }

  lemma LeftLook(start: Fleet, db: Fleet, pool: PoolId, p: Phase, list: seq<ResourceId>, i: nat, moved: set<ResourceId>, now: int)
    requires LeftPool(start, db, moved, now) && i < |list| && list[i] !in moved && OfPool(start.resources, pool, list)
    ensures var id := list[i];
            && Live(db.resources, id)
            && (InPhase(db.resources, id, p) <==> id in Tier(start.resources, pool, p))
            && (Clear(start, id) ==> Clear(db, id)) && (Switchable(start, id) ==> Switchable(db, id))
            && (NothingQueued(start) ==> NothingQueued(db))
            && forall db': Fleet | db'.leases == db.leases && db'.acquisitions == db.acquisitions
                                   && db'.resources == db.resources[id := DeletedRow(db.resources[id], now)] ::
                 LeftPool(start, db', moved + {id}, now)
    ensures list[i] in start.resources && list[i] in db.resources && db.resources[list[i]] == start.resources[list[i]]
    ensures forall db': Fleet | db'.leases == db.leases && db'.acquisitions == db.acquisitions && db'.resources == db.resources ::
              LeftPool(start, db', moved, now)
  {
    LeaveRowsMore(start.resources, moved, list[i], now);
    InTier(start.resources, pool, p, list[i]);
  }

  /** The board and the head count after rows went from one phase to another. */
  predicate Rolled(rows: Rows, rows': Rows, pool: PoolId, moved: set<ResourceId>, p: Phase, q: Phase) {
    && (forall x: Phase :: Tier(rows', pool, x) ==
          if x == p then Tier(rows, pool, x) - moved else if x == q then Tier(rows, pool, x) + moved else Tier(rows, pool, x))
    && Members(rows', pool) == Members(rows, pool)
  }

  /** The board and the head count after rows were deleted. */
  predicate Shed(rows: Rows, rows': Rows, pool: PoolId, moved: set<ResourceId>, p: Phase) {
    && (forall x: Phase :: !x.Deleting? ==> Tier(rows', pool, x) == if x == p then Tier(rows, pool, x) - moved else Tier(rows, pool, x))
    && Members(rows, pool) - moved <= Members(rows', pool) <= Members(rows, pool)
  }

  lemma ClearAt(start: Fleet, list: seq<ResourceId>, i: nat)
    requires AllClear(start, list) && i < |list|
    ensures Clear(start, list[i])
  {
  }

  lemma SwitchableAt(start: Fleet, list: seq<ResourceId>, i: nat)
    requires AllSwitchable(start, list) && i < |list|
    ensures Switchable(start, list[i])
  {
  }

  lemma SweptTier(eligible: set<ResourceId>, list: seq<ResourceId>, moved: set<ResourceId>, limit: int, free: bool)
    requires Swept(eligible, list, moved, limit, free)
    ensures moved <= eligible
  {
  }

  lemma StillParkable(start: Fleet, db: Fleet, list: seq<ResourceId>, i: nat, moved: set<ResourceId>, q: Phase, now: int)
    requires AllSwitchable(start, list) && i < |list| && Shifted(start, db, moved, q, now)
    ensures list[i] in db.resources && db.resources[list[i]].parkable
  {
    assert Switchable(start, list[i]);
  }

  lemma ShiftedPassed(start: Fleet, db: Fleet, moved: set<ResourceId>, q: Phase, now: int)
    requires Shifted(start, db, moved, q, now)
    ensures Passed(start, db)
  {
  }

  lemma ShiftFramed(rows: Rows, pool: PoolId, moved: set<ResourceId>, p: Phase, q: Phase, now: int)
    requires moved <= Tier(rows, pool, p) && p in {Ready, Draining, Parked, Failed}
    ensures Framed(rows, ShiftRows(rows, moved, q, now), pool)
  {
    hide Moved;
  }

  lemma LeaveFramed(rows: Rows, pool: PoolId, moved: set<ResourceId>, p: Phase, now: int)
    requires moved <= Tier(rows, pool, p) && p in {Ready, Draining, Parked, Failed}
    ensures Framed(rows, LeaveRows(rows, moved, now), pool)
  {
    hide DeletedRow;
  }

  lemma ShiftedEnds(start: Fleet, db: Fleet, pool: PoolId, moved: set<ResourceId>, p: Phase, q: Phase, now: int)
    requires Shifted(start, db, moved, q, now) && moved <= Tier(start.resources, pool, p) && p != q
    ensures Passed(start, db) && Rolled(start.resources, db.resources, pool, moved, p, q)
    ensures p in {Ready, Draining, Parked, Failed} ==> Framed(start.resources, db.resources, pool)
  {
    if p in {Ready, Draining, Parked, Failed} { ShiftFramed(start.resources, pool, moved, p, q, now); }
    ShiftedPassed(start, db, moved, q, now);
    hide Framed, Passed, Tier, Members, ShiftRows;
    ShiftMembers(start.resources, pool, moved, q, now);
    forall x: Phase
      ensures Tier(db.resources, pool, x) ==
              if x == p then Tier(start.resources, pool, x) - moved else if x == q then Tier(start.resources, pool, x) + moved
              else Tier(start.resources, pool, x)
    {
      ShiftTier(start.resources, pool, moved, p, q, now, x);
    }
  }

  lemma LeftEnds(start: Fleet, db: Fleet, pool: PoolId, moved: set<ResourceId>, p: Phase, now: int)
    requires LeftPool(start, db, moved, now) && moved <= Tier(start.resources, pool, p)
    ensures Passed(start, db) && Shed(start.resources, db.resources, pool, moved, p)
    ensures p in {Ready, Draining, Parked, Failed} ==> Framed(start.resources, db.resources, pool)
  {
    if p in {Ready, Draining, Parked, Failed} { LeaveFramed(start.resources, pool, moved, p, now); }
    hide Framed;
    LeaveMembers(start.resources, pool, moved, now);
    forall x: Phase | !x.Deleting?
      ensures Tier(db.resources, pool, x) == if x == p then Tier(start.resources, pool, x) - moved else Tier(start.resources, pool, x)
    {
      LeaveTier(start.resources, pool, moved, p, now, x);
    }
  }

  /** The board and the head count after rows were created. */
  predicate Born(rows: Rows, rows': Rows, pool: PoolId, born: set<ResourceId>) {
    && (forall x: Phase :: Tier(rows', pool, x) == if x.Provisioning? then Tier(rows, pool, x) + born else Tier(rows, pool, x))
    && Members(rows', pool) == Members(rows, pool) + born
    && born !! rows.Keys && rows'.Keys == rows.Keys + born
  }

  lemma NoneBorn(start: Fleet, pool: PoolId)
    ensures Passed(start, start) && Born(start.resources, start.resources, pool, {}) && Framed(start.resources, start.resources, pool)
  {
  }

  lemma OneMoreBorn(start: Fleet, mid: Fleet, db: Fleet, pool: PoolId, born: set<ResourceId>, id: ResourceId, row: Resource)
    requires Passed(start, mid) && Born(start.resources, mid.resources, pool, born) && id !in mid.resources
    requires db.leases == mid.leases && db.acquisitions == mid.acquisitions && db.resources == mid.resources[id := row]
    requires row.pool == Some(pool) && row.phase.Provisioning? && row.deletedAt.None?
    ensures Passed(start, db) && Born(start.resources, db.resources, pool, born + {id}) && id !in born
  {
    forall x: Phase
      ensures Tier(db.resources, pool, x) == if x.Provisioning? then Tier(mid.resources, pool, x) + {id} else Tier(mid.resources, pool, x)
    {
    }
    assert Members(db.resources, pool) == Members(mid.resources, pool) + {id};
  }

  lemma NoneBlank(rows: Rows, className: string, pool: PoolId, parkable: bool, now: int)
    ensures Blank(rows, {}, className, pool, parkable, now)
  {
  }

  lemma BlankMore(rows: Rows, born: set<ResourceId>, className: string, pool: PoolId, parkable: bool, now: int, id: ResourceId)
    requires Blank(rows, born, className, pool, parkable, now) && id !in rows
    ensures Blank(rows[id := NewRow(className, Some(pool), parkable, now)], born + {id}, className, pool, parkable, now)
  {
  }

  lemma AddedFramed(start: Rows, rows: Rows, pool: PoolId, id: ResourceId, row: Resource)
    requires Framed(start, rows, pool) && id !in rows
    ensures Framed(start, rows[id := row], pool)
  {
    assert forall x <- start.Keys :: x in rows;
  }

  /** An operation always has a row, so an unknown row has no operation. */
  lemma FreshRowFree(db: Fleet, id: ResourceId)
    requires Inv(db) && id !in db.resources
    ensures OpFree(db.operations, id)
  {
    forall o | o in db.operations.Keys && ActiveOp(db.operations, o)
      ensures db.operations[o].resource != id
    {
      assert OpHolds(db.resources, db.operations[o]);
    }
  }

  /** A clear row in an unshielded phase passes every gate of a delete, and of a stop when it can be switched. */
  lemma ClearPasses(db: Fleet, id: ResourceId, op: OperationId, p: Phase)
    requires Inv(db) && Clear(db, id) && InPhase(db.resources, id, p) && !Shielded(p) && op !in db.operations
    ensures CanDelete(db, id, op)
    ensures p.Ready? && Switchable(db, id) ==> CanStop(db, id, op, true)
  {
    UnshieldedFree(db.resources, db.operations, id);
  }

  lemma SwitchablePasses(db: Fleet, id: ResourceId, op: OperationId)
    requires Inv(db) && Switchable(db, id) && InPhase(db.resources, id, Parked) && op !in db.operations
    ensures CanStart(db, id, op)
  {
    UnshieldedFree(db.resources, db.operations, id);
  }

  class Cycle {
    const rec: Reconciler
    const st: Store := rec.st

    constructor (rec: Reconciler)
      ensures this.rec == rec
    {
      this.rec := rec;
    }

    // One write, in its own transaction; the error is only counted.

    method MoveOne(id: ResourceId, from: Phase, to: Phase, now: int)
      requires Inv(st.Db()) && InPhase(st.resources, id, from) && !Shielded(from) && !Shielded(to) && !to.Allocated?
      modifies st`resources
      ensures Inv(st.Db()) && st.resources == old(st.resources)[id := Moved(old(st.resources)[id], to, now)]
    {
      MovePhaseKeeps(st.Db(), id, from, to, now);
      var err := st.CASPhase(id, from, to, now);
    }

    method DrainOne(id: ResourceId, now: int) returns (ok: bool)
      requires Inv(st.Db())
      modifies st`resources
      ensures Inv(st.Db())
      ensures ok <==> InPhase(old(st.resources), id, Ready) && Unleased(st.leases, id)
      ensures st.resources == if ok then old(st.resources)[id := Moved(old(st.resources)[id], Draining, now)] else old(st.resources)
    {
      ok := false;
      var leased := st.CountActive(id);
      if leased == 0 {
        MovePhaseKeeps(st.Db(), id, Ready, Draining, now);
        var err := st.CASPhase(id, Ready, Draining, now);
        ok := err.NoError?;
      }
    }

    method CreateOne(pool: PoolId, className: string, parkable: bool, now: int) returns (id: ResourceId)
      requires Inv(st.Db())
      modifies st`resources, st`operations
      ensures Inv(st.Db()) && id !in old(st.resources)
      ensures st.resources == old(st.resources)[id := NewRow(className, Some(pool), parkable, now)]
    {
      var before := st.Db();
      id := Ids.Fresh(st.resources.Keys);
      var op := Ids.Fresh(st.operations.Keys);
      var row := NewRow(className, Some(pool), parkable, now);
      FreshRowFree(before, id);
      JournalCreateKeeps(before, id, op, row, now);
      var err := Provision.Create(st, id, op, row, now);
    }

    method StartOne(id: ResourceId, now: int) returns (ok: bool)
      requires Inv(st.Db())
      modifies st`resources, st`operations
      ensures Inv(st.Db())
      ensures ok <==> Switchable(old(st.Db()), id) && InPhase(old(st.resources), id, Parked)
      ensures st.resources == if ok then old(st.resources)[id := Moved(old(st.resources)[id], Starting, now)] else old(st.resources)
    {
      var before := st.Db();
      var op := Ids.Fresh(st.operations.Keys);
      if Switchable(before, id) && InPhase(st.resources, id, Parked) { SwitchablePasses(before, id, op); }
      var err := Provision.Start(st, id, op, now);
      ok := err.NoError?;
      if ok {
        JournalPhaseOpKeeps(before, id, op, OpKindStart, now);
      } else {
        st.resources, st.operations := before.resources, before.operations;
      }
    }

    method StopOne(id: ResourceId, now: int) returns (ok: bool)
      requires Inv(st.Db())
      modifies st`resources, st`operations
      ensures Inv(st.Db())
      ensures ok <==> Clear(old(st.Db()), id) && Switchable(old(st.Db()), id) && InPhase(old(st.resources), id, Ready)
      ensures st.resources == if ok then old(st.resources)[id := Moved(old(st.resources)[id], Parking, now)] else old(st.resources)
    {
      var before := st.Db();
      var op := Ids.Fresh(st.operations.Keys);
      if Clear(before, id) && InPhase(st.resources, id, Ready) { ClearPasses(before, id, op, Ready); }
      var err := Provision.Stop(st, id, op, true, now);
      ok := err.NoError?;
      if ok {
        JournalPhaseOpKeeps(before, id, op, OpKindStop, now);
      } else {
        st.resources, st.operations := before.resources, before.operations;
      }
    }

    method DeleteOne(id: ResourceId, now: int) returns (ok: bool)
      requires Inv(st.Db())
      modifies st
      ensures Inv(st.Db()) && st.leases == old(st.leases) && st.acquisitions == old(st.acquisitions)
      ensures ok <==> Clear(old(st.Db()), id) && (InPhase(old(st.resources), id, Draining) || InPhase(old(st.resources), id, Failed))
      ensures st.resources == if ok then old(st.resources)[id := DeletedRow(old(st.resources)[id], now)] else old(st.resources)
    {
      var before := st.Db();
      var op := Ids.Fresh(st.operations.Keys);
      if Clear(before, id) && InPhase(st.resources, id, Draining) { ClearPasses(before, id, op, Draining); }
      if Clear(before, id) && InPhase(st.resources, id, Failed) { ClearPasses(before, id, op, Failed); }
      DeleteKeeps(before, id, op, now);
      var err := rec.JournalDelete(id, op, now);
      ok := err.NoError?;
    }

    method ReclaimOne(id: ResourceId, from: Phase, now: int) returns (ok: bool)
      requires Inv(st.Db()) && (from.Ready? || from.Parked?)
      modifies st
      ensures Inv(st.Db()) && st.leases == old(st.leases) && st.acquisitions == old(st.acquisitions)
      ensures ok <==> Clear(old(st.Db()), id) && !QueueBlocks(old(st.Db()), id, now) && InPhase(old(st.resources), id, from)
      ensures st.resources == if ok then old(st.resources)[id := DeletedRow(old(st.resources)[id], now)] else old(st.resources)
    {
      var before := st.Db();
      var op := Ids.Fresh(st.operations.Keys);
      if Clear(before, id) && InPhase(st.resources, id, from) { ClearPasses(before, id, op, from); }
      DeleteKeeps(before, id, op, now);
      var err := rec.CostReclaim(id, op, from, now);
      ok := err.NoError?;
    }

    // The six loops. A limit is what the budget and the floors of the loop leave; free says that nothing blocks its rows.

    /** Undrain while there is a deficit. */
    method UndrainPass(pool: PoolId, list: seq<ResourceId>, deficit: int, budget: int, now: int)
      returns (n: nat, ghost moved: set<ResourceId>)
      requires Inv(st.Db()) && Distinct(list) && IdSet(list) == Tier(st.resources, pool, Draining)
      modifies st`resources
      ensures Inv(st.Db()) && Passed(old(st.Db()), st.Db()) && Framed(old(st.resources), st.resources, pool)
      ensures Rolled(old(st.resources), st.resources, pool, moved, Draining, Ready)
      ensures n == |moved| && Swept(old(Tier(st.resources, pool, Draining)), list, moved, Least(deficit, budget), true)
    {
      hide Inv, Tier, Members, ShiftRows, Shifted, Passed, Rolled, Clear, Switchable, NothingQueued, Sweeping, Swept, IdSet,
           Distinct, OfPool, Framed;
      ghost var start, drained, limit := st.Db(), Tier(st.resources, pool, Draining), Least(deficit, budget);
      n, moved := 0, {};
      var i := 0;
      TierOfPool(st.resources, pool, Draining, list);
      SweepStart(drained, list, limit, true);
      NothingYet(start, Ready, now);
      while i < |list| && n < deficit && n < budget
        invariant i <= |list| && n == |moved| && Sweeping(drained, list, i, moved, limit, true)
        invariant Inv(st.Db()) && Shifted(start, st.Db(), moved, Ready, now)
      {
        var id := list[i];
        Listed(list, i);
        SweepLook(drained, list, i, moved, limit, true);
        ShiftedLook(start, st.Db(), pool, Draining, list, i, moved, Ready, now);
        MoveOne(id, Draining, Ready, now);
        SweepNext(drained, list, i, moved, limit, true, true);
        moved := moved + {id};
        n := n + 1;
        i := i + 1;
      }
      SweepEnd(drained, list, i, moved, limit, true);
      ShiftedEnds(start, st.Db(), pool, moved, Draining, Ready, now);
    }

    /** Start parked machines below the powered floor. */
    method WarmUpPass(pool: PoolId, list: seq<ResourceId>, lack: int, budget: int, ghost free: bool, now: int)
      returns (n: nat, ghost moved: set<ResourceId>)
      requires Inv(st.Db()) && Distinct(list) && OfPool(st.resources, pool, list)
      requires free && lack > 0 ==> AllSwitchable(st.Db(), list)
      modifies st`resources, st`operations
      ensures Inv(st.Db()) && Passed(old(st.Db()), st.Db()) && Framed(old(st.resources), st.resources, pool)
      ensures Rolled(old(st.resources), st.resources, pool, moved, Parked, Starting)
      ensures n == |moved| && Swept(old(Tier(st.resources, pool, Parked)), list, moved, Least(lack, budget), free)
    {
      hide Inv, Tier, Members, ShiftRows, LeaveRows, Shifted, LeftPool, Passed, Rolled, Shed, Clear,
           Switchable, AllClear, AllSwitchable, NothingQueued, QueueBlocks, Sweeping, Swept, IdSet, Distinct, OfPool, Framed;
      ghost var start, eligible, limit := st.Db(), Tier(st.resources, pool, Parked), Least(lack, budget);
      n, moved := 0, {};
      var i := 0;
      SweepStart(eligible, list, limit, free);
      NothingYet(start, Starting, now);
      while i < |list| && n < lack && n < budget
        invariant i <= |list| && n == |moved| && Sweeping(eligible, list, i, moved, limit, free)
        invariant Inv(st.Db()) && Shifted(start, st.Db(), moved, Starting, now)
      {
        var id := list[i];
        SweepLook(eligible, list, i, moved, limit, free);
        if free { SwitchableAt(start, list, i); }
        ShiftedLook(start, st.Db(), pool, Parked, list, i, moved, Starting, now);
        var ok := StartOne(id, now);
        SweepNext(eligible, list, i, moved, limit, free, ok);
        if ok {
          moved := moved + {id};
          n := n + 1;
        }
        i := i + 1;
      }
      SweepEnd(eligible, list, i, moved, limit, free);
      SweptTier(eligible, list, moved, limit, free);
      ShiftedEnds(start, st.Db(), pool, moved, Parked, Starting, now);
    }

    /** Surplus consumes the parked tier first, oldest first. */
    method ShedParkedPass(pool: PoolId, list: seq<ResourceId>, surplus: int, budget: int, ghost free: bool, now: int)
      returns (n: nat, ghost moved: set<ResourceId>)
      requires Inv(st.Db()) && Distinct(list) && OfPool(st.resources, pool, list)
      requires free && surplus > 0 ==> AllClear(st.Db(), list) && (|list| > 0 ==> NothingQueued(st.Db()))
      modifies st
      ensures Inv(st.Db()) && Passed(old(st.Db()), st.Db()) && Shed(old(st.resources), st.resources, pool, moved, Parked)
      ensures Framed(old(st.resources), st.resources, pool)
      ensures n == |moved| && Swept(old(Tier(st.resources, pool, Parked)), list, moved, Least(surplus, budget), free)
    {
      hide Inv, Tier, Members, ShiftRows, LeaveRows, Shifted, LeftPool, Passed, Rolled, Shed, Clear,
           Switchable, AllClear, AllSwitchable, NothingQueued, QueueBlocks, Sweeping, Swept, IdSet, Distinct, OfPool, Framed;
      ghost var start, eligible, limit := st.Db(), Tier(st.resources, pool, Parked), Least(surplus, budget);
      n, moved := 0, {};
      var i := 0;
      SweepStart(eligible, list, limit, free);
      NothingYet(start, Parked, now);
      while i < |list| && n < surplus && n < budget
        invariant i <= |list| && n == |moved| && Sweeping(eligible, list, i, moved, limit, free)
        invariant Inv(st.Db()) && LeftPool(start, st.Db(), moved, now)
      {
        var id := list[i];
        SweepLook(eligible, list, i, moved, limit, free);
        if free { ClearAt(start, list, i); }
        LeftLook(start, st.Db(), pool, Parked, list, i, moved, now);
        if free { NoQueueNoBlock(st.Db(), id, now); }
        var ok := ReclaimOne(id, Parked, now);
        SweepNext(eligible, list, i, moved, limit, free, ok);
        if ok {
          moved := moved + {id};
          n := n + 1;
        }
        i := i + 1;
      }
      SweepEnd(eligible, list, i, moved, limit, free);
      SweptTier(eligible, list, moved, limit, free);
      LeftEnds(start, st.Db(), pool, moved, Parked, now);
    }

    /** Then idle ready machines drain, longest idle first, above the ready floor; leased ones are skipped. */
    method DrainPass(pool: PoolId, list: seq<ResourceId>, surplus: int, budget: int, slack: int, ghost free: bool, now: int)
      returns (n: nat, ghost moved: set<ResourceId>)
      requires Inv(st.Db()) && Distinct(list) && OfPool(st.resources, pool, list)
      requires free && surplus > 0 ==> AllClear(st.Db(), list)
      modifies st`resources
      ensures Inv(st.Db()) && Passed(old(st.Db()), st.Db()) && Framed(old(st.resources), st.resources, pool)
      ensures Rolled(old(st.resources), st.resources, pool, moved, Ready, Draining)
      ensures n == |moved| && Swept(old(Tier(st.resources, pool, Ready)), list, moved, Least(Least(surplus, budget), slack), free)
    {
      hide Inv, Tier, Members, ShiftRows, LeaveRows, Shifted, LeftPool, Passed, Rolled, Shed, Clear,
           Switchable, AllClear, AllSwitchable, NothingQueued, QueueBlocks, Sweeping, Swept, IdSet, Distinct, OfPool, Framed;
      ghost var start, eligible, limit := st.Db(), Tier(st.resources, pool, Ready), Least(Least(surplus, budget), slack);
      n, moved := 0, {};
      var i := 0;
      SweepStart(eligible, list, limit, free);
      NothingYet(start, Draining, now);
      while i < |list| && n < surplus && n < budget && n < slack
        invariant i <= |list| && n == |moved| && Sweeping(eligible, list, i, moved, limit, free)
        invariant Inv(st.Db()) && Shifted(start, st.Db(), moved, Draining, now)
      {
        var id := list[i];
        SweepLook(eligible, list, i, moved, limit, free);
        if free { ClearAt(start, list, i); }
        ShiftedLook(start, st.Db(), pool, Ready, list, i, moved, Draining, now);
        var ok := DrainOne(id, now);
        SweepNext(eligible, list, i, moved, limit, free, ok);
        if ok {
          moved := moved + {id};
          n := n + 1;
        }
        i := i + 1;
      }
      SweepEnd(eligible, list, i, moved, limit, free);
      SweptTier(eligible, list, moved, limit, free);
      ShiftedEnds(start, st.Db(), pool, moved, Ready, Draining, now);
    }

    /** The drain pipeline and the failed cleanup. */
    method CleanUpPass(pool: PoolId, list: seq<ResourceId>, p: Phase, budget: int, ghost free: bool, now: int)
      returns (n: nat, ghost moved: set<ResourceId>)
      requires Inv(st.Db()) && Distinct(list) && OfPool(st.resources, pool, list) && (p.Draining? || p.Failed?)
      requires forall i | 0 <= i < |list| :: p.Draining? != InPhase(st.resources, list[i], Failed)
      requires free ==> AllClear(st.Db(), list)
      modifies st
      ensures Inv(st.Db()) && Passed(old(st.Db()), st.Db()) && Shed(old(st.resources), st.resources, pool, moved, p)
      ensures Framed(old(st.resources), st.resources, pool)
      ensures n == |moved| && Swept(old(Tier(st.resources, pool, p)), list, moved, budget, free)
    {
      hide Inv, Tier, Members, ShiftRows, LeaveRows, Shifted, LeftPool, Passed, Rolled, Shed, Clear,
           Switchable, AllClear, AllSwitchable, NothingQueued, QueueBlocks, Sweeping, Swept, IdSet, Distinct, OfPool, Framed;
      ghost var start, eligible := st.Db(), Tier(st.resources, pool, p);
      n, moved := 0, {};
      var i := 0;
      SweepStart(eligible, list, budget, free);
      NothingYet(start, p, now);
      while i < |list| && n < budget
        invariant i <= |list| && n == |moved| && Sweeping(eligible, list, i, moved, budget, free)
        invariant Inv(st.Db()) && LeftPool(start, st.Db(), moved, now)
      {
        var id := list[i];
        SweepLook(eligible, list, i, moved, budget, free);
        if free { ClearAt(start, list, i); }
        LeftLook(start, st.Db(), pool, p, list, i, moved, now);
        var ok := DeleteOne(id, now);
        SweepNext(eligible, list, i, moved, budget, free, ok);
        if ok {
          moved := moved + {id};
          n := n + 1;
        }
        i := i + 1;
      }
      SweepEnd(eligible, list, i, moved, budget, free);
      SweptTier(eligible, list, moved, budget, free);
      LeftEnds(start, st.Db(), pool, moved, p, now);
    }

    /** Park idle ready machines above both floors, until one cannot be parked at all. */
    method ParkPass(pool: PoolId, list: seq<ResourceId>, budget: int, slack: int, warmth: int, ghost free: bool, now: int)
      returns (n: nat, ghost moved: set<ResourceId>)
      requires Inv(st.Db()) && Distinct(list) && OfPool(st.resources, pool, list)
      requires free ==> AllClear(st.Db(), list) && AllSwitchable(st.Db(), list)
      modifies st`resources, st`operations
      ensures Inv(st.Db()) && Passed(old(st.Db()), st.Db()) && Framed(old(st.resources), st.resources, pool)
      ensures Rolled(old(st.resources), st.resources, pool, moved, Ready, Parking)
      ensures n == |moved| && Swept(old(Tier(st.resources, pool, Ready)), list, moved, Least(Least(budget, slack), warmth), free)
    {
      hide Inv, Tier, Members, ShiftRows, LeaveRows, Shifted, LeftPool, Passed, Rolled, Shed, Clear,
           Switchable, AllClear, AllSwitchable, NothingQueued, QueueBlocks, Sweeping, Swept, IdSet, Distinct, OfPool, Framed;
      ghost var start, eligible, limit := st.Db(), Tier(st.resources, pool, Ready), Least(Least(budget, slack), warmth);
      n, moved := 0, {};
      var i := 0;
      SweepStart(eligible, list, limit, free);
      NothingYet(start, Parking, now);
      while i < |list| && n < budget && n < slack && n < warmth && (list[i] in st.resources ==> st.resources[list[i]].parkable)
        invariant i <= |list| && n == |moved| && Sweeping(eligible, list, i, moved, limit, free)
        invariant Inv(st.Db()) && Shifted(start, st.Db(), moved, Parking, now)
      {
        var id := list[i];
        SweepLook(eligible, list, i, moved, limit, free);
        if free {
          ClearAt(start, list, i);
          SwitchableAt(start, list, i);
        }
        ShiftedLook(start, st.Db(), pool, Ready, list, i, moved, Parking, now);
        var ok := StopOne(id, now);
        SweepNext(eligible, list, i, moved, limit, free, ok);
        if ok {
          moved := moved + {id};
          n := n + 1;
        }
        i := i + 1;
      }
      if free && i < |list| { StillParkable(start, st.Db(), list, i, moved, Parking, now); }
      SweepEnd(eligible, list, i, moved, limit, free);
      SweptTier(eligible, list, moved, limit, free);
      ShiftedEnds(start, st.Db(), pool, moved, Ready, Parking, now);
    }

    /** A row and its create operation, as long as machines can be prepared. */
    method CreatePass(pool: PoolId, className: string, parkable: bool, limit: int, prepared: nat, now: int)
      returns (n: nat, ghost born: set<ResourceId>)
      requires Inv(st.Db())
      modifies st`resources, st`operations
      ensures Inv(st.Db()) && Passed(old(st.Db()), st.Db()) && Born(old(st.resources), st.resources, pool, born)
      ensures n == |born| == Upto(limit, prepared)
      ensures Framed(old(st.resources), st.resources, pool) && Blank(st.resources, born, className, pool, parkable, now)
    {
      hide Inv, Tier, Members, Passed, Born, Framed, Blank;
      ghost var start := st.Db();
      n, born := 0, {};
      NoneBorn(start, pool);
      NoneBlank(start.resources, className, pool, parkable, now);
      while n < limit && n < prepared
        invariant n == |born| && (n > 0 ==> n <= limit && n <= prepared)
        invariant Inv(st.Db()) && Passed(start, st.Db()) && Born(start.resources, st.resources, pool, born)
        invariant Framed(start.resources, st.resources, pool) && Blank(st.resources, born, className, pool, parkable, now)
        decreases prepared - n
      {
        ghost var mid := st.Db();
        var id := CreateOne(pool, className, parkable, now);
        OneMoreBorn(start, mid, st.Db(), pool, born, id, NewRow(className, Some(pool), parkable, now));
        AddedFramed(start.resources, mid.resources, pool, id, NewRow(className, Some(pool), parkable, now));
        BlankMore(mid.resources, born, className, pool, parkable, now, id);
        born := born + {id};
        n := n + 1;
      }
    }
  }
}
