/** The rows of a pool counted by phase, and how a pass of the cycle changes the count. */
module PoolBoard {
  import opened Basics
  import opened Phases
  import opened Storage
  import opened Transactions
  import opened Invariants
  import opened PoolPlan

  // ---- Counting the rows of a pool ----

  predicate Member(rows: Rows, pool: PoolId, id: ResourceId) {
    Live(rows, id) && rows[id].pool == Some(pool)
  }

  function Members(rows: Rows, pool: PoolId): set<ResourceId> {
    set id | id in rows && Member(rows, pool, id)
  }

  function Tier(rows: Rows, pool: PoolId, p: Phase): set<ResourceId> {
    set id | id in rows && Member(rows, pool, id) && rows[id].phase == p
  }

  function CensusOf(rows: Rows, pool: PoolId): Census {
    Census(|Tier(rows, pool, Ready)|, |Tier(rows, pool, Provisioning)|, |Tier(rows, pool, Allocated)|, |Tier(rows, pool, Draining)|,
           |Tier(rows, pool, Failed)|, |Tier(rows, pool, Parking)|, |Tier(rows, pool, Parked)|, |Tier(rows, pool, Starting)|,
           |Members(rows, pool)|)
  }

  /** The rows after a pass moved some of them. */
  function ShiftRows(rows: Rows, moved: set<ResourceId>, to: Phase, now: int): Rows {
    map id | id in rows :: if id in moved then Moved(rows[id], to, now) else rows[id]
  }

  /** A deleted row: tombstoned at once when it never had a machine, journaled for deletion otherwise. */
  function DeletedRow(r: Resource, now: int): Resource {
    if r.externalId.None? then Tombstoned(r, now) else Moved(r, Deleting, now)
  }

  function LeaveRows(rows: Rows, moved: set<ResourceId>, now: int): Rows {
    map id | id in rows :: if id in moved then DeletedRow(rows[id], now) else rows[id]
  }

  lemma ShiftRowsMore(rows: Rows, moved: set<ResourceId>, id: ResourceId, to: Phase, now: int)
    requires id in rows && id !in moved
    ensures ShiftRows(rows, moved, to, now)[id] == rows[id]
    ensures ShiftRows(rows, moved + {id}, to, now) == ShiftRows(rows, moved, to, now)[id := Moved(rows[id], to, now)]
  {
  }

  lemma LeaveRowsMore(rows: Rows, moved: set<ResourceId>, id: ResourceId, now: int)
    requires id in rows && id !in moved
    ensures LeaveRows(rows, moved, now)[id] == rows[id]
    ensures LeaveRows(rows, moved + {id}, now) == LeaveRows(rows, moved, now)[id := DeletedRow(rows[id], now)]
  {
  }

  lemma InTier(rows: Rows, pool: PoolId, p: Phase, id: ResourceId)
    ensures id in Tier(rows, pool, p) <==> InPhase(rows, id, p) && rows[id].pool == Some(pool)
  {
  }

  lemma ShiftedRow(rows: Rows, pool: PoolId, moved: set<ResourceId>, p: Phase, q: Phase, now: int, x: Phase, id: ResourceId)
    requires moved <= Tier(rows, pool, p)
    ensures id in Tier(ShiftRows(rows, moved, q, now), pool, x) <==> if id in moved then x == q else id in Tier(rows, pool, x)
    ensures id in moved ==> (id in Tier(rows, pool, x) <==> x == p)
  {
    InTier(rows, pool, p, id);
    InTier(rows, pool, x, id);
    InTier(ShiftRows(rows, moved, q, now), pool, x, id);
  }

  lemma ShiftTier(rows: Rows, pool: PoolId, moved: set<ResourceId>, p: Phase, q: Phase, now: int, x: Phase)
    requires moved <= Tier(rows, pool, p) && p != q
    ensures Tier(ShiftRows(rows, moved, q, now), pool, x) ==
            if x == p then Tier(rows, pool, x) - moved else if x == q then Tier(rows, pool, x) + moved else Tier(rows, pool, x)
  {
    hide Tier, ShiftRows;
    var after := Tier(ShiftRows(rows, moved, q, now), pool, x);
    forall id: ResourceId
      ensures id in after <==> if id in moved then x == q else id in Tier(rows, pool, x)
      ensures id in moved ==> (id in Tier(rows, pool, x) <==> x == p)
    {
      ShiftedRow(rows, pool, moved, p, q, now, x, id);
    }
  }

  lemma LeftRow(rows: Rows, pool: PoolId, moved: set<ResourceId>, p: Phase, now: int, x: Phase, id: ResourceId)
    requires moved <= Tier(rows, pool, p) && !x.Deleting?
    ensures id in Tier(LeaveRows(rows, moved, now), pool, x) <==> id !in moved && id in Tier(rows, pool, x)
    ensures id in moved ==> (id in Tier(rows, pool, x) <==> x == p)
  {
    InTier(rows, pool, p, id);
    InTier(rows, pool, x, id);
    InTier(LeaveRows(rows, moved, now), pool, x, id);
  }

  lemma LeaveTier(rows: Rows, pool: PoolId, moved: set<ResourceId>, p: Phase, now: int, x: Phase)
    requires moved <= Tier(rows, pool, p) && !x.Deleting?
    ensures Tier(LeaveRows(rows, moved, now), pool, x) == if x == p then Tier(rows, pool, x) - moved else Tier(rows, pool, x)
  {
    hide Tier, LeaveRows;
    forall id: ResourceId
      ensures id in Tier(LeaveRows(rows, moved, now), pool, x) <==> id !in moved && id in Tier(rows, pool, x)
      ensures id in moved ==> (id in Tier(rows, pool, x) <==> x == p)
    {
      LeftRow(rows, pool, moved, p, now, x, id);
    }
  }

  lemma ShiftMembers(rows: Rows, pool: PoolId, moved: set<ResourceId>, q: Phase, now: int)
    ensures Members(ShiftRows(rows, moved, q, now), pool) == Members(rows, pool)
  {
  }

  lemma LeaveMembers(rows: Rows, pool: PoolId, moved: set<ResourceId>, now: int)
    ensures Members(rows, pool) - moved <= Members(LeaveRows(rows, moved, now), pool) <= Members(rows, pool)
  {
  }

  // ---- When nothing blocks a row ----

  /** A row the delete gates let through. */
  predicate Clear(db: Fleet, id: ResourceId) {
    && id in db.resources
    && db.resources[id].ownership.OwnershipManaged? && !db.resources[id].deleteProtected && Unleased(db.leases, id)
  }

  /** A row whose machine can be stopped and started. */
  predicate Switchable(db: Fleet, id: ResourceId) {
    && id in db.resources
    && db.resources[id].ownership.OwnershipManaged? && db.resources[id].parkable && db.resources[id].externalId.Some?
  }

  predicate NothingQueued(db: Fleet) {
    forall a <- db.acquisitions.Keys :: !db.acquisitions[a].state.AcqPending?
  }

  /** What a pass never changes about a row. */
  predicate SameTraits(r: Resource, r': Resource) {
    && r'.ownership == r.ownership && r'.deleteProtected == r.deleteProtected && r'.parkable == r.parkable
    && r'.externalId == r.externalId && r'.pool == r.pool
  }

  /** What a pass leaves alone: leases, acquisitions, and the traits of every row. */
  predicate Passed(db: Fleet, db': Fleet) {
    && db'.leases == db.leases && db'.acquisitions == db.acquisitions
    && forall id <- db.resources.Keys :: id in db'.resources && SameTraits(db.resources[id], db'.resources[id])
  }

  /** Only rows of this pool that are ready, draining, parked or failed change. */
  predicate Framed(rows: Rows, rows': Rows, pool: PoolId) {
    forall id <- rows.Keys ::
      && id in rows'
      && (rows'[id] != rows[id] ==> rows[id].deletedAt.None? && rows[id].pool == Some(pool) && rows[id].phase in {Ready, Draining, Parked, Failed})
  }

  lemma FramedOn(a: Rows, b: Rows, c: Rows, pool: PoolId)
    requires Framed(a, b, pool) && Framed(b, c, pool)
    ensures Framed(a, c, pool)
  {
    assert forall id <- a.Keys :: id in b.Keys;
  }

  lemma FramedSelf(rows: Rows, pool: PoolId)
    ensures Framed(rows, rows, pool)
  {
  }

  /** New rows are managed, in creation, of this class and pool, and have neither a machine nor a past. */
  predicate Blank(rows: Rows, born: set<ResourceId>, className: string, pool: PoolId, parkable: bool, now: int) {
    forall id <- born ::
      && id in rows
      && rows[id] == Resource(Provisioning, OwnershipManaged, None, false, Some(pool), className, map[], parkable, now, now,
                              None, None, None, None, None)
  }

  lemma StaysBlank(rows: Rows, rows': Rows, born: set<ResourceId>, className: string, pool: PoolId, parkable: bool, now: int)
    requires Blank(rows, born, className, pool, parkable, now) && Framed(rows, rows', pool)
    ensures Blank(rows', born, className, pool, parkable, now)
  {
    assert forall id <- born :: id in rows.Keys;
  }

  predicate AllClear(db: Fleet, list: seq<ResourceId>) {
    forall i | 0 <= i < |list| :: Clear(db, list[i])
  }

  predicate AllSwitchable(db: Fleet, list: seq<ResourceId>) {
    forall i | 0 <= i < |list| :: Switchable(db, list[i])
  }

  /** A pass blocks nothing for the passes after it. */
  lemma StaysClear(db: Fleet, db': Fleet, list: seq<ResourceId>)
    requires Passed(db, db')
    ensures AllClear(db, list) ==> AllClear(db', list)
    ensures AllSwitchable(db, list) ==> AllSwitchable(db', list)
    ensures NothingQueued(db) ==> NothingQueued(db')
  {
  }

  lemma NoQueueNoBlock(db: Fleet, id: ResourceId, now: int)
    requires NothingQueued(db)
    ensures !QueueBlocks(db, id, now)
  {
    assert Queue(db, id, now) == {};
  }

  function IdSet(list: seq<ResourceId>): set<ResourceId> {
    set i | 0 <= i < |list| :: list[i]
  }

  ghost predicate Distinct(list: seq<ResourceId>) {
    forall i, j | 0 <= i < j < |list| :: list[i] != list[j]
  }

  lemma IdSetNext(list: seq<ResourceId>, i: nat)
    requires i < |list| && Distinct(list)
    ensures IdSet(list[..i + 1]) == IdSet(list[..i]) + {list[i]}
    ensures list[i] !in IdSet(list[..i])
  {
    assert list[..i + 1] == list[..i] + [list[i]];
    forall x | x in IdSet(list[..i]) + {list[i]}
      ensures x in IdSet(list[..i + 1])
    {
      if x == list[i] {
        assert list[..i + 1][i] == x;
      } else {
        var j :| 0 <= j < |list[..i]| && list[..i][j] == x;
        assert list[..i + 1][j] == x;
      }
    }
  }

  lemma IdSetSize(list: seq<ResourceId>)
    requires Distinct(list)
    ensures |IdSet(list)| == |list|
  {
    if |list| > 0 {
      var n := |list| - 1;
      IdSetSize(list[..n]);
      IdSetNext(list, n);
      assert list[..n + 1] == list;
    }
  }

  // ---- Ordering ----

  /** When the machine last had something to do. */
  function IdleSince(r: Resource): int {
    var s := if r.readyAt.Some? then r.readyAt.value else r.createdAt;
    if r.lastLeaseEndedAt.Some? && r.lastLeaseEndedAt.value > s then r.lastLeaseEndedAt.value else s
  }

  predicate IdleLongEnough(r: Resource, reclaim: Option<ReclaimPolicy>, now: int) {
    now - IdleSince(r) >= if reclaim.Some? then reclaim.value.idleAfterMs else 0
  }

  predicate EndedOn(l: Lease, id: ResourceId) {
    !l.state.LeaseActive? && l.resource == id
  }

  /** The idle clock of a row is the end of the last lease that ended on it. */
  ghost predicate EndStamped(r: Resource, id: ResourceId, leases: seq<Lease>) {
    && (forall i | 0 <= i < |leases| && EndedOn(leases[i], id) ::
          leases[i].endedAt.Some? && r.lastLeaseEndedAt.Some? && leases[i].endedAt.value <= r.lastLeaseEndedAt.value)
    && (r.lastLeaseEndedAt.Some? ==> exists i | 0 <= i < |leases| :: EndedOn(leases[i], id) && leases[i].endedAt == r.lastLeaseEndedAt)
  }

  ghost predicate EndsStamped(rows: Rows, leases: seq<Lease>) {
    forall id <- rows.Keys :: EndStamped(rows[id], id, leases)
  }

  /** The machine has had nothing to do for that long: it became ready, or else was recorded, so long ago, and so long ago
      ended every lease it ever had. */
  predicate Rested(r: Resource, id: ResourceId, leases: seq<Lease>, ms: int, now: int) {
    && now - (if r.readyAt.Some? then r.readyAt.value else r.createdAt) >= ms
    && forall i | 0 <= i < |leases| && EndedOn(leases[i], id) && leases[i].endedAt.Some? :: now - leases[i].endedAt.value >= ms
  }

  lemma IdleIffRested(r: Resource, id: ResourceId, leases: seq<Lease>, ms: int, now: int)
    requires EndStamped(r, id, leases)
    ensures now - IdleSince(r) >= ms <==> Rested(r, id, leases, ms, now)
  {
    if r.lastLeaseEndedAt.Some? {
      var i :| 0 <= i < |leases| && EndedOn(leases[i], id) && leases[i].endedAt == r.lastLeaseEndedAt;
      assert leases[i].endedAt.Some?;
    }
  }

  lemma SwapKeepsIds(list: seq<ResourceId>, j: nat)
    requires 0 < j < |list| && Distinct(list)
    ensures var swapped := list[j := list[j - 1]][j - 1 := list[j]]; Distinct(swapped) && IdSet(swapped) == IdSet(list)
  {
    var swapped := list[j := list[j - 1]][j - 1 := list[j]];
    forall x | x in IdSet(list)
      ensures x in IdSet(swapped)
    {
      var i :| 0 <= i < |list| && list[i] == x;
      assert swapped[if i == j then j - 1 else if i == j - 1 then j else i] == x;
    }
  }

  /** Insertion sort, smallest key first; equal keys keep their order. */
  method SortByKey(list: seq<ResourceId>, key: map<ResourceId, int>) returns (out: seq<ResourceId>)
    requires Distinct(list) && forall id <- list :: id in key
    ensures Distinct(out) && IdSet(out) == IdSet(list) && |out| == |list|
    ensures forall id <- out :: id in key
    ensures forall i, j | 0 <= i < j < |out| :: key[out[i]] <= key[out[j]]
  {
    out := list;
    var i := 1;
    while i < |out|
      invariant |out| == |list| && Distinct(out) && IdSet(out) == IdSet(list)
      invariant forall a | 0 <= a < |out| :: out[a] in key
      invariant forall a, b | 0 <= a < b < i && b < |out| :: key[out[a]] <= key[out[b]]
    {
      var j := i;
      while j > 0 && key[out[j]] < key[out[j - 1]]
        invariant 0 <= j <= i < |out| == |list| && Distinct(out) && IdSet(out) == IdSet(list)
        invariant forall a | 0 <= a < |out| :: out[a] in key
        invariant forall a, b | 0 <= a < b <= i && a != j && b != j :: key[out[a]] <= key[out[b]]
        invariant forall b | j < b <= i :: key[out[j]] <= key[out[b]]
        decreases j
      {
        SwapKeepsIds(out, j);
        out := out[j := out[j - 1]][j - 1 := out[j]];
        j := j - 1;
      }
      i := i + 1;
    }
  }

  ghost predicate LongestFirst(rows: Rows, list: seq<ResourceId>) {
    forall i, j | 0 <= i < j < |list| :: list[i] in rows && list[j] in rows && IdleSince(rows[list[i]]) <= IdleSince(rows[list[j]])
  }

  /** The ready machines idle beyond the policy, longest idle first. */
  method Reclaimable(ready: seq<ResourceId>, rows: Rows, reclaim: Option<ReclaimPolicy>, now: int) returns (out: seq<ResourceId>)
    requires Distinct(ready) && forall id <- ready :: id in rows
    ensures Distinct(out)
    ensures IdSet(out) == set id | id in IdSet(ready) && !rows[id].deleteProtected && IdleLongEnough(rows[id], reclaim, now)
    ensures LongestFirst(rows, out)
  {
    var picked: seq<ResourceId> := [];
    for i := 0 to |ready|
      invariant Distinct(picked) && IdSet(picked) <= IdSet(ready[..i])
      invariant IdSet(picked) == set id | id in IdSet(ready[..i])
                                          && !rows[id].deleteProtected && IdleLongEnough(rows[id], reclaim, now)
    {
      IdSetNext(ready, i);
      if !rows[ready[i]].deleteProtected && IdleLongEnough(rows[ready[i]], reclaim, now) {
        assert forall k | 0 <= k < |picked| :: picked[k] in IdSet(picked);
        var more := picked + [ready[i]];
        assert more[..|picked|] == picked && more[..|picked| + 1] == more;
        IdSetNext(more, |picked|);
        picked := more;
      }
    }
    assert ready[..|ready|] == ready;
    forall id | id in picked
      ensures id in rows
    {
      assert id in IdSet(picked);
    }
    out := SortByKey(picked, map id | id in picked :: IdleSince(rows[id]));
    assert forall i | 0 <= i < |out| :: out[i] in IdSet(out);
  }
}
