/** A whole reconcile cycle, against the closed form of what it may decide. */
module PoolRun {
  import opened Basics
  import opened Phases
  import opened Storage
  import opened Invariants
  import opened PoolPlan
  import opened PoolBoard
  import opened PoolCycle

  // ---- The listing a cycle works on ----

  /** The listing in id order. */
  method InOrder(ids: set<ResourceId>) returns (list: seq<ResourceId>)
    ensures Distinct(list) && IdSet(list) == ids && |list| == |ids|
    ensures forall i, j | 0 <= i < j < |list| :: list[i] <= list[j]
  {
    var todo, picked: seq<ResourceId> := ids, [];
    while todo != {}
      invariant todo <= ids && Distinct(picked) && IdSet(picked) == ids - todo
      decreases todo
    {
      var id :| id in todo;
      assert forall k | 0 <= k < |picked| :: picked[k] in IdSet(picked);
      var more := picked + [id];
      assert more[..|picked|] == picked && more[..|picked| + 1] == more;
      IdSetNext(more, |picked|);
      picked, todo := more, todo - {id};
    }
    list := SortByKey(picked, map id | id in picked :: id);
    IdSetSize(list);
    assert forall i | 0 <= i < |list| :: list[i] in IdSet(list);
  }

  /** The ready machines that draining and parking choose from. */
  function Candidates(rows: Rows, pool: PoolId, reclaim: Option<ReclaimPolicy>, now: int): set<ResourceId> {
    set id | id in Tier(rows, pool, Ready) && !rows[id].deleteProtected && IdleLongEnough(rows[id], reclaim, now)
  }

  function IdleMs(reclaim: Option<ReclaimPolicy>): int {
    if reclaim.Some? then reclaim.value.idleAfterMs else 0
  }

  /** The ready, unprotected machines of the pool that have had nothing to do for as long as the policy asks, judged by the
      leases themselves. */
  function RestedOnes(db: Fleet, pool: PoolId, ms: int, now: int): set<ResourceId> {
    set id | id in db.resources && InPhase(db.resources, id, Ready) && db.resources[id].pool == Some(pool)
             && !db.resources[id].deleteProtected && Rested(db.resources[id], id, db.leases, ms, now)
  }

  lemma CandidatesAreRested(db: Fleet, pool: PoolId, reclaim: Option<ReclaimPolicy>, now: int)
    requires EndsStamped(db.resources, db.leases)
    ensures Candidates(db.resources, pool, reclaim, now) == RestedOnes(db, pool, IdleMs(reclaim), now)
  {
    forall id | InPhase(db.resources, id, Ready)
      ensures IdleLongEnough(db.resources[id], reclaim, now) <==> Rested(db.resources[id], id, db.leases, IdleMs(reclaim), now)
    {
      assert id in db.resources.Keys;
      IdleIffRested(db.resources[id], id, db.leases, IdleMs(reclaim), now);
    }
    hide EndsStamped, IdleLongEnough, Rested;
  }

  /** Whoever has rested for so long, the first machine has too. */
  ghost predicate RestedLonger(db: Fleet, x: ResourceId, y: ResourceId, now: int)
    requires x in db.resources && y in db.resources
  {
    forall ms :: Rested(db.resources[y], y, db.leases, ms, now) ==> Rested(db.resources[x], x, db.leases, ms, now)
  }

  lemma LongestIdleIsLongestRested(db: Fleet, idle: set<ResourceId>, dr: set<ResourceId>, now: int)
    requires EndsStamped(db.resources, db.leases) && LongestIdleFirst(db.resources, idle, dr)
    ensures forall x <- dr, y <- idle - dr :: x in db.resources && y in db.resources ==> RestedLonger(db, x, y, now)
  {
    forall x, y, ms | x in dr && y in idle - dr && x in db.resources && y in db.resources && Rested(db.resources[y], y, db.leases, ms, now)
      ensures Rested(db.resources[x], x, db.leases, ms, now)
    {
      assert x in db.resources.Keys && y in db.resources.Keys;
      IdleIffRested(db.resources[x], x, db.leases, ms, now);
      IdleIffRested(db.resources[y], y, db.leases, ms, now);
    }
  }

  // ---- The two halves of a cycle, in sets ----

  /** Undrains, starts and creates. */
  predicate Grown(rows: Rows, rows': Rows, pool: PoolId, u: set<ResourceId>, s: set<ResourceId>, b: set<ResourceId>) {
    && u <= Tier(rows, pool, Draining) && s <= Tier(rows, pool, Parked)
    && Tier(rows', pool, Ready) == Tier(rows, pool, Ready) + u
    && Tier(rows', pool, Draining) == Tier(rows, pool, Draining) - u
    && Tier(rows', pool, Parked) == Tier(rows, pool, Parked) - s
    && Tier(rows', pool, Starting) == Tier(rows, pool, Starting) + s
    && Tier(rows', pool, Provisioning) == Tier(rows, pool, Provisioning) + b
    && Tier(rows', pool, Allocated) == Tier(rows, pool, Allocated)
    && Tier(rows', pool, Failed) == Tier(rows, pool, Failed)
    && Tier(rows', pool, Parking) == Tier(rows, pool, Parking)
    && Members(rows', pool) == Members(rows, pool) + b
    && b !! rows.Keys
  }

  /** Parked deletes, drains, drained deletes, failed deletes and parks. */
  predicate Shrunk(rows: Rows, rows': Rows, pool: PoolId, gone: set<ResourceId>, dr: set<ResourceId>, dd: set<ResourceId>,
                   df: set<ResourceId>, pk: set<ResourceId>) {
    && gone <= Tier(rows, pool, Parked) && dr <= Tier(rows, pool, Ready) && dd <= Tier(rows, pool, Draining)
    && df <= Tier(rows, pool, Failed) && pk <= Tier(rows, pool, Ready) - dr
    && Tier(rows', pool, Ready) == Tier(rows, pool, Ready) - dr - pk
    && Tier(rows', pool, Draining) == Tier(rows, pool, Draining) + dr - dd
    && Tier(rows', pool, Parked) == Tier(rows, pool, Parked) - gone
    && Tier(rows', pool, Failed) == Tier(rows, pool, Failed) - df
    && Tier(rows', pool, Parking) == Tier(rows, pool, Parking) + pk
    && Tier(rows', pool, Provisioning) == Tier(rows, pool, Provisioning)
    && Tier(rows', pool, Starting) == Tier(rows, pool, Starting)
    && Tier(rows', pool, Allocated) == Tier(rows, pool, Allocated)
    && Members(rows', pool) <= Members(rows, pool)
  }

  lemma TwoTiers(rows: Rows, pool: PoolId, x: Phase, y: Phase)
    requires x != y
    ensures Tier(rows, pool, x) !! Tier(rows, pool, y)
  {
  }

  lemma Removed<T>(a: set<T>, b: set<T>, c: set<T>)
    requires b <= a && c == a - b
    ensures |c| == |a| - |b| && |b| <= |a|
  {
    assert a == c + b;
  }

  lemma Joined<T>(a: set<T>, b: set<T>, c: set<T>)
    requires a !! b && c == a + b
    ensures |c| == |a| + |b|
  {
  }

  lemma Exchanged<T>(a: set<T>, b: set<T>, c: set<T>, d: set<T>)
    requires b <= a && a !! c && d == a + c - b
    ensures |d| == |a| + |c| - |b| && |b| <= |a|
  {
    Removed(a, b, a - b);
    assert d == a - b + c;
  }

  lemma TierKnown(rows: Rows, pool: PoolId, x: Phase)
    ensures Tier(rows, pool, x) <= Members(rows, pool) <= rows.Keys
  {
  }

  /** The first half in numbers. */
  lemma GrownCounts(rows: Rows, rows': Rows, pool: PoolId, u: set<ResourceId>, s: set<ResourceId>, b: set<ResourceId>)
    requires Grown(rows, rows', pool, u, s, b)
    ensures var c, c' := CensusOf(rows, pool), CensusOf(rows', pool);
            && |u| <= c.draining && |s| <= c.parked
            && c' == c.(ready := c.ready + |u|, draining := c.draining - |u|, parked := c.parked - |s|,
                        starting := c.starting + |s|, provisioning := c.provisioning + |b|, total := c.total + |b|)
  {
    hide Tier, Members;
    assert |Tier(rows', pool, Draining)| == |Tier(rows, pool, Draining)| - |u| && |u| <= |Tier(rows, pool, Draining)| by {
      Removed(Tier(rows, pool, Draining), u, Tier(rows', pool, Draining));
    }
    assert |Tier(rows', pool, Parked)| == |Tier(rows, pool, Parked)| - |s| && |s| <= |Tier(rows, pool, Parked)| by {
      Removed(Tier(rows, pool, Parked), s, Tier(rows', pool, Parked));
    }
    assert |Tier(rows', pool, Ready)| == |Tier(rows, pool, Ready)| + |u| by {
      TwoTiers(rows, pool, Ready, Draining);
      Joined(Tier(rows, pool, Ready), u, Tier(rows', pool, Ready));
    }
    assert |Tier(rows', pool, Starting)| == |Tier(rows, pool, Starting)| + |s| by {
      TwoTiers(rows, pool, Starting, Parked);
      Joined(Tier(rows, pool, Starting), s, Tier(rows', pool, Starting));
    }
    assert |Tier(rows', pool, Provisioning)| == |Tier(rows, pool, Provisioning)| + |b| && |Members(rows', pool)| == |Members(rows, pool)| + |b| by {
      TierKnown(rows, pool, Provisioning);
      Joined(Tier(rows, pool, Provisioning), b, Tier(rows', pool, Provisioning));
      Joined(Members(rows, pool), b, Members(rows', pool));
    }
  }

  /** The second half in numbers. */
  lemma ShrunkCounts(rows: Rows, rows': Rows, pool: PoolId, gone: set<ResourceId>, dr: set<ResourceId>, dd: set<ResourceId>,
                     df: set<ResourceId>, pk: set<ResourceId>)
    requires Shrunk(rows, rows', pool, gone, dr, dd, df, pk)
    ensures var c, c' := CensusOf(rows, pool), CensusOf(rows', pool);
            && |gone| <= c.parked && |dr| + |pk| <= c.ready && |dd| <= c.draining && |df| <= c.failed
            && c'.total <= c.total
            && c' == c.(ready := c.ready - |dr| - |pk|, draining := c.draining + |dr| - |dd|, parked := c.parked - |gone|,
                        failed := c.failed - |df|, parking := c.parking + |pk|, total := c'.total)
  {
    hide Tier, Members;
    var ready, draining := Tier(rows, pool, Ready), Tier(rows, pool, Draining);
    assert |Members(rows', pool)| <= |Members(rows, pool)| by { SmallerSet(Members(rows', pool), Members(rows, pool)); }
    assert |Tier(rows', pool, Parked)| == |Tier(rows, pool, Parked)| - |gone| && |gone| <= |Tier(rows, pool, Parked)| by {
      Removed(Tier(rows, pool, Parked), gone, Tier(rows', pool, Parked));
    }
    assert |Tier(rows', pool, Failed)| == |Tier(rows, pool, Failed)| - |df| && |df| <= |Tier(rows, pool, Failed)| by {
      Removed(Tier(rows, pool, Failed), df, Tier(rows', pool, Failed));
    }
    assert |Tier(rows', pool, Ready)| == |ready| - |dr| - |pk| && |dr| + |pk| <= |ready| by {
      Removed(ready, dr, ready - dr);
      Removed(ready - dr, pk, Tier(rows', pool, Ready));
    }
    assert |Tier(rows', pool, Draining)| == |draining| + |dr| - |dd| && |dd| <= |draining| by {
      TwoTiers(rows, pool, Ready, Draining);
      Exchanged(draining, dd, dr, Tier(rows', pool, Draining));
    }
    assert |Tier(rows', pool, Parking)| == |Tier(rows, pool, Parking)| + |pk| by {
      TwoTiers(rows, pool, Ready, Parking);
      Joined(Tier(rows, pool, Parking), pk, Tier(rows', pool, Parking));
    }
  }

  // ---- One pass after another ----

  lemma PassedOn(a: Fleet, b: Fleet, c: Fleet)
    requires Passed(a, b) && Passed(b, c)
    ensures Passed(a, c)
  {
    forall id <- a.resources.Keys
      ensures id in c.resources && SameTraits(a.resources[id], c.resources[id])
    {
      assert id in b.resources.Keys;
    }
  }

  lemma NothingPassed(db: Fleet, pool: PoolId, p: Phase, q: Phase)
    ensures Passed(db, db) && Rolled(db.resources, db.resources, pool, {}, p, q)
  {
  }

  lemma KeysKept(db: Fleet, db': Fleet)
    requires Passed(db, db')
    ensures db.resources.Keys <= db'.resources.Keys
  {
  }

  lemma MembersOfPool(rows: Rows, pool: PoolId, list: seq<ResourceId>)
    requires IdSet(list) <= Members(rows, pool)
    ensures OfPool(rows, pool, list)
  {
    forall i | 0 <= i < |list|
      ensures Member(rows, pool, list[i])
    {
      Listed(list, i);
    }
  }

  /** What a finished pass moved, counted. */
  lemma SweptCount(eligible: set<ResourceId>, list: seq<ResourceId>, moved: set<ResourceId>, limit: int, free: bool, hits: set<ResourceId>)
    requires Swept(eligible, list, moved, limit, free) && IdSet(list) * eligible == hits
    ensures moved <= hits && |moved| <= Upto(limit, |hits|) && (free ==> |moved| == Upto(limit, |hits|))
  {
  }

  lemma GrownBy(rows0: Rows, rows1: Rows, rows2: Rows, rows3: Rows, pool: PoolId, u: set<ResourceId>, s: set<ResourceId>, b: set<ResourceId>)
    requires Rolled(rows0, rows1, pool, u, Draining, Ready) && u <= Tier(rows0, pool, Draining)
    requires Rolled(rows1, rows2, pool, s, Parked, Starting) && s <= Tier(rows0, pool, Parked)
    requires Born(rows2, rows3, pool, b) && rows0.Keys <= rows2.Keys
    ensures Grown(rows0, rows3, pool, u, s, b)
  {
    hide Tier, Members;
  }

  /** Undrain, warm up, scale up. */
  method Grow(cy: Cycle, pool: PoolId, spec: PoolSpec, parkable: bool, c: Census, draining: seq<ResourceId>, parked: seq<ResourceId>,
              budget: nat, prepared: nat, creating: bool, ghost free: bool, now: int)
    returns (undrained: nat, started: nat, created: nat, ghost u: set<ResourceId>, ghost s: set<ResourceId>, ghost b: set<ResourceId>)
    requires Inv(cy.st.Db()) && c == CensusOf(cy.st.resources, pool)
    requires Distinct(draining) && IdSet(draining) == Tier(cy.st.resources, pool, Draining)
    requires Distinct(parked) && IdSet(parked) == Tier(cy.st.resources, pool, Parked)
    requires free && spec.minRunning > c.Hot() ==> AllSwitchable(cy.st.Db(), parked)
    modifies cy.st
    ensures Inv(cy.st.Db()) && Passed(old(cy.st.Db()), cy.st.Db()) && Grown(old(cy.st.resources), cy.st.resources, pool, u, s, b)
    ensures Framed(old(cy.st.resources), cy.st.resources, pool) && Blank(cy.st.resources, b, spec.className, pool, parkable, now)
    ensures undrained == |u| == Upto(Least(spec.replicas - c.Counted(), budget), c.draining)
    ensures undrained > 0 ==> c.Counted() + undrained <= spec.replicas
    ensures started == |s| <= Upto(Least(spec.minRunning - c.Hot(), budget - undrained), c.parked)
    ensures free ==> started == Upto(Least(spec.minRunning - c.Hot(), budget - undrained), c.parked)
    ensures var deficit := spec.replicas - c.Counted() - undrained;
            var limit := if creating && deficit > 0 then Upto(Headroom(spec, c.total, deficit), budget - undrained - started) else 0;
            created == |b| <= limit && (prepared >= budget ==> created == limit)
  {
    hide Inv, Tier, Members, Passed, Rolled, Born, Grown, AllClear, AllSwitchable, IdSet, Distinct, OfPool, Swept, CensusOf, Framed, Blank;
    ghost var db0 := cy.st.Db();
    CensusIs(db0.resources, pool);
    undrained, u := cy.UndrainPass(pool, draining, spec.replicas - c.Counted(), budget, now);
    SweptWhole(db0.resources, pool, Draining, draining, u, Least(spec.replicas - c.Counted(), budget), true);

    ghost var db1 := cy.st.Db();
    RolledElsewhere(db0.resources, db1.resources, pool, u, Draining, Ready, Parked);
    TierOfPool(db1.resources, pool, Parked, parked);
    StaysClear(db0, db1, parked);
    started, s := cy.WarmUpPass(pool, parked, spec.minRunning - c.Hot(), budget - undrained, free, now);
    SweptWhole(db1.resources, pool, Parked, parked, s, Least(spec.minRunning - c.Hot(), budget - undrained), free);

    ghost var db2 := cy.st.Db();
    var deficit := spec.replicas - c.Counted() - undrained;
    var limit := if creating && deficit > 0 then Upto(Headroom(spec, c.total, deficit), budget - undrained - started) else 0;
    created, b := cy.CreatePass(pool, spec.className, parkable, limit, prepared, now);

    ghost var db3 := cy.st.Db();
    PassedOn(db0, db1, db2);
    PassedOn(db0, db2, db3);
    FramedOn(db0.resources, db1.resources, db2.resources, pool);
    FramedOn(db0.resources, db2.resources, db3.resources, pool);
    KeysKept(db0, db2);
    GrownBy(db0.resources, db1.resources, db2.resources, db3.resources, pool, u, s, b);
  }

  lemma CensusIs(rows: Rows, pool: PoolId)
    ensures var c := CensusOf(rows, pool);
            && c.ready == |Tier(rows, pool, Ready)| && c.draining == |Tier(rows, pool, Draining)| && c.parked == |Tier(rows, pool, Parked)|
            && c.failed == |Tier(rows, pool, Failed)|
  {
    hide Tier, Members;
  }

  lemma RolledElsewhere(rows: Rows, rows': Rows, pool: PoolId, moved: set<ResourceId>, p: Phase, q: Phase, x: Phase)
    requires Rolled(rows, rows', pool, moved, p, q) && x != p && x != q
    ensures Tier(rows', pool, x) == Tier(rows, pool, x)
  {
    hide Tier, Members;
  }

  /** A pass whose list is its whole tier. */
  lemma SweptWhole(rows: Rows, pool: PoolId, p: Phase, list: seq<ResourceId>, moved: set<ResourceId>, limit: int, free: bool)
    requires Swept(Tier(rows, pool, p), list, moved, limit, free) && IdSet(list) == Tier(rows, pool, p)
    ensures moved <= Tier(rows, pool, p)
    ensures |moved| <= Upto(limit, |Tier(rows, pool, p)|) && (free ==> |moved| == Upto(limit, |Tier(rows, pool, p)|))
  {
    hide Tier, IdSet;
    assert IdSet(list) * Tier(rows, pool, p) == Tier(rows, pool, p);
  }

  // ---- The second half ----

  /** What the second half knows of the snapshot lists: everything listed is still in the pool, and where. */
  ghost predicate Lists(rows0: Rows, rows: Rows, pool: PoolId, idle: seq<ResourceId>, draining: seq<ResourceId>, failed: seq<ResourceId>,
                  parked: seq<ResourceId>, u: set<ResourceId>, s: set<ResourceId>, b: set<ResourceId>) {
    && Distinct(idle) && Distinct(draining) && Distinct(failed) && Distinct(parked)
    && IdSet(idle) <= Tier(rows0, pool, Ready) && IdSet(draining) == Tier(rows0, pool, Draining)
    && IdSet(failed) == Tier(rows0, pool, Failed) && IdSet(parked) == Tier(rows0, pool, Parked)
    && Grown(rows0, rows, pool, u, s, b)
  }

  lemma FourTiers(rows: Rows, pool: PoolId)
    ensures var r, d, f, p := Tier(rows, pool, Ready), Tier(rows, pool, Draining), Tier(rows, pool, Failed), Tier(rows, pool, Parked);
            && r !! d && r !! f && r !! p && d !! f && d !! p && f !! p
            && r <= Members(rows, pool) && d <= Members(rows, pool) && f <= Members(rows, pool) && p <= Members(rows, pool)
  {
  }

  lemma AtShedParked(rows0: Rows, m: Rows, pool: PoolId, idle: seq<ResourceId>, draining: seq<ResourceId>, failed: seq<ResourceId>,
                     parked: seq<ResourceId>, u: set<ResourceId>, s: set<ResourceId>, b: set<ResourceId>)
    requires Lists(rows0, m, pool, idle, draining, failed, parked, u, s, b)
    ensures OfPool(m, pool, parked) && IdSet(parked) * Tier(m, pool, Parked) == Tier(m, pool, Parked)
    ensures |Tier(m, pool, Parked)| == |Tier(rows0, pool, Parked)| - |s|
  {
    hide Tier, Members, IdSet, OfPool, Distinct;
    FourTiers(rows0, pool);
    MembersOfPool(m, pool, parked);
    Removed(Tier(rows0, pool, Parked), s, Tier(m, pool, Parked));
  }

  lemma AtDrain(rows0: Rows, m: Rows, r1: Rows, pool: PoolId, idle: seq<ResourceId>, draining: seq<ResourceId>, failed: seq<ResourceId>,
                parked: seq<ResourceId>, u: set<ResourceId>, s: set<ResourceId>, b: set<ResourceId>, gone: set<ResourceId>)
    requires Lists(rows0, m, pool, idle, draining, failed, parked, u, s, b)
    requires Shed(m, r1, pool, gone, Parked) && gone <= Tier(m, pool, Parked)
    ensures OfPool(r1, pool, idle) && IdSet(idle) * Tier(r1, pool, Ready) == IdSet(idle)
  {
    hide Tier, Members, IdSet, OfPool, Distinct;
    FourTiers(rows0, pool);
    MembersOfPool(r1, pool, idle);
    assert Tier(r1, pool, Ready) == Tier(m, pool, Ready);
  }

  lemma ShedStep(rows: Rows, rows': Rows, pool: PoolId, moved: set<ResourceId>, p: Phase, x: Phase, listed: set<ResourceId>)
    requires Shed(rows, rows', pool, moved, p) && !x.Deleting?
    ensures Tier(rows', pool, x) == if x == p then Tier(rows, pool, x) - moved else Tier(rows, pool, x)
    ensures listed <= Members(rows, pool) && listed !! moved ==> listed <= Members(rows', pool)
  {
    hide Tier, Members;
  }

  lemma RolledStep(rows: Rows, rows': Rows, pool: PoolId, moved: set<ResourceId>, p: Phase, q: Phase, x: Phase)
    requires Rolled(rows, rows', pool, moved, p, q)
    ensures Tier(rows', pool, x) == if x == p then Tier(rows, pool, x) - moved else if x == q then Tier(rows, pool, x) + moved else Tier(rows, pool, x)
    ensures Members(rows', pool) == Members(rows, pool)
  {
    hide Tier, Members;
  }

  lemma PipelineSets<T>(ready: set<T>, draining: set<T>, idle: set<T>, u: set<T>, dr: set<T>)
    requires ready !! draining && dr <= idle <= ready
    ensures draining * (draining - u + dr) == draining - u
  {
  }

  lemma ParkSets<T>(ready: set<T>, idle: set<T>, u: set<T>, dr: set<T>)
    requires idle <= ready
    ensures idle * (ready + u - dr) == idle - dr
  {
  }

  lemma AtPipeline(rows0: Rows, m: Rows, r1: Rows, r2: Rows, pool: PoolId, idle: seq<ResourceId>, draining: seq<ResourceId>,
                   failed: seq<ResourceId>, parked: seq<ResourceId>, u: set<ResourceId>, s: set<ResourceId>, b: set<ResourceId>,
                   gone: set<ResourceId>, dr: set<ResourceId>)
    requires Lists(rows0, m, pool, idle, draining, failed, parked, u, s, b)
    requires Shed(m, r1, pool, gone, Parked) && gone <= Tier(m, pool, Parked)
    requires Rolled(r1, r2, pool, dr, Ready, Draining) && dr <= IdSet(idle)
    ensures OfPool(r2, pool, draining) && IdSet(draining) * Tier(r2, pool, Draining) == Tier(m, pool, Draining)
    ensures |Tier(m, pool, Draining)| == |Tier(rows0, pool, Draining)| - |u|
    ensures IdSet(draining) !! Tier(r2, pool, Failed)
  {
    hide Tier, Members, IdSet, OfPool, Distinct, Shed, Rolled;
    assert Tier(r2, pool, Draining) == Tier(rows0, pool, Draining) - u + dr by {
      ShedStep(m, r1, pool, gone, Parked, Draining, {});
      RolledStep(r1, r2, pool, dr, Ready, Draining, Draining);
    }
    assert Tier(r2, pool, Failed) == Tier(rows0, pool, Failed) by {
      ShedStep(m, r1, pool, gone, Parked, Failed, {});
      RolledStep(r1, r2, pool, dr, Ready, Draining, Failed);
    }
    assert IdSet(draining) * Tier(r2, pool, Draining) == Tier(m, pool, Draining) by {
      TwoTiers(rows0, pool, Ready, Draining);
      PipelineSets(Tier(rows0, pool, Ready), IdSet(draining), IdSet(idle), u, dr);
    }
    assert IdSet(draining) !! Tier(r2, pool, Failed) by { TwoTiers(rows0, pool, Draining, Failed); }
    assert |Tier(m, pool, Draining)| == |Tier(rows0, pool, Draining)| - |u| by {
      Removed(Tier(rows0, pool, Draining), u, Tier(m, pool, Draining));
    }
    assert IdSet(draining) <= Members(r2, pool) by {
      TierKnown(rows0, pool, Draining);
      TwoTiers(rows0, pool, Draining, Parked);
      ShedStep(m, r1, pool, gone, Parked, Draining, IdSet(draining));
      RolledStep(r1, r2, pool, dr, Ready, Draining, Draining);
    }
    MembersOfPool(r2, pool, draining);
  }

  lemma AtCleanup(rows0: Rows, m: Rows, r1: Rows, r2: Rows, r3: Rows, pool: PoolId, idle: seq<ResourceId>, draining: seq<ResourceId>,
                  failed: seq<ResourceId>, parked: seq<ResourceId>, u: set<ResourceId>, s: set<ResourceId>, b: set<ResourceId>,
                  gone: set<ResourceId>, dr: set<ResourceId>, dd: set<ResourceId>)
    requires Lists(rows0, m, pool, idle, draining, failed, parked, u, s, b)
    requires Shed(m, r1, pool, gone, Parked) && gone <= Tier(m, pool, Parked)
    requires Rolled(r1, r2, pool, dr, Ready, Draining) && dr <= IdSet(idle)
    requires Shed(r2, r3, pool, dd, Draining) && dd <= Tier(m, pool, Draining)
    ensures OfPool(r3, pool, failed) && IdSet(failed) == Tier(r3, pool, Failed) == Tier(m, pool, Failed)
  {
    hide Tier, Members, IdSet, OfPool, Distinct;
    FourTiers(rows0, pool);
    MembersOfPool(r3, pool, failed);
    assert Tier(r3, pool, Failed) == Tier(r2, pool, Failed) == Tier(r1, pool, Failed) == Tier(m, pool, Failed);
  }

  lemma AtPark(rows0: Rows, m: Rows, r1: Rows, r2: Rows, r3: Rows, r4: Rows, pool: PoolId, idle: seq<ResourceId>,
               draining: seq<ResourceId>, failed: seq<ResourceId>, parked: seq<ResourceId>, u: set<ResourceId>, s: set<ResourceId>,
               b: set<ResourceId>, gone: set<ResourceId>, dr: set<ResourceId>, dd: set<ResourceId>, df: set<ResourceId>)
    requires Lists(rows0, m, pool, idle, draining, failed, parked, u, s, b)
    requires Shed(m, r1, pool, gone, Parked) && gone <= Tier(m, pool, Parked)
    requires Rolled(r1, r2, pool, dr, Ready, Draining) && dr <= IdSet(idle)
    requires Shed(r2, r3, pool, dd, Draining) && dd <= Tier(m, pool, Draining)
    requires Shed(r3, r4, pool, df, Failed) && df <= Tier(m, pool, Failed)
    ensures OfPool(r4, pool, idle) && IdSet(idle) * Tier(r4, pool, Ready) == IdSet(idle) - dr
    ensures |IdSet(idle) - dr| == |IdSet(idle)| - |dr|
  {
    hide Tier, Members, IdSet, OfPool, Distinct, Shed, Rolled;
    assert Tier(r4, pool, Ready) == Tier(rows0, pool, Ready) + u - dr by {
      ShedStep(m, r1, pool, gone, Parked, Ready, {});
      RolledStep(r1, r2, pool, dr, Ready, Draining, Ready);
      ShedStep(r2, r3, pool, dd, Draining, Ready, {});
      ShedStep(r3, r4, pool, df, Failed, Ready, {});
    }
    assert IdSet(idle) * Tier(r4, pool, Ready) == IdSet(idle) - dr by {
      ParkSets(Tier(rows0, pool, Ready), IdSet(idle), u, dr);
    }
    assert IdSet(idle) <= Members(r1, pool) by {
      TierKnown(rows0, pool, Ready);
      TwoTiers(rows0, pool, Ready, Parked);
      ShedStep(m, r1, pool, gone, Parked, Ready, IdSet(idle));
    }
    assert IdSet(idle) <= Members(r4, pool) by {
      RolledStep(r1, r2, pool, dr, Ready, Draining, Ready);
      TwoTiers(rows0, pool, Ready, Draining);
      ShedStep(r2, r3, pool, dd, Draining, Ready, IdSet(idle));
      TwoTiers(rows0, pool, Ready, Failed);
      ShedStep(r3, r4, pool, df, Failed, Ready, IdSet(idle));
    }
    MembersOfPool(r4, pool, idle);
    Removed(IdSet(idle), dr, IdSet(idle) - dr);
  }

  lemma ShrunkBy(rows0: Rows, m: Rows, r1: Rows, r2: Rows, r3: Rows, r4: Rows, r5: Rows, pool: PoolId, idle: seq<ResourceId>,
                 draining: seq<ResourceId>, failed: seq<ResourceId>, parked: seq<ResourceId>, u: set<ResourceId>, s: set<ResourceId>,
                 b: set<ResourceId>, gone: set<ResourceId>, dr: set<ResourceId>, dd: set<ResourceId>, df: set<ResourceId>, pk: set<ResourceId>)
    requires Lists(rows0, m, pool, idle, draining, failed, parked, u, s, b)
    requires Shed(m, r1, pool, gone, Parked) && gone <= Tier(m, pool, Parked)
    requires Rolled(r1, r2, pool, dr, Ready, Draining) && dr <= IdSet(idle)
    requires Shed(r2, r3, pool, dd, Draining) && dd <= Tier(m, pool, Draining)
    requires Shed(r3, r4, pool, df, Failed) && df <= Tier(m, pool, Failed)
    requires Rolled(r4, r5, pool, pk, Ready, Parking) && pk <= IdSet(idle) - dr
    ensures Shrunk(m, r5, pool, gone, dr, dd, df, pk)
  {
    hide Tier, Members, IdSet, OfPool, Distinct;
    FourTiers(rows0, pool);
    assert Members(r5, pool) == Members(r4, pool) <= Members(r3, pool) <= Members(r2, pool) == Members(r1, pool) <= Members(m, pool);
    ChainTier(m, r1, r2, r3, r4, r5, pool, gone, dr, dd, df, pk, Ready);
    ChainTier(m, r1, r2, r3, r4, r5, pool, gone, dr, dd, df, pk, Draining);
    ChainTier(m, r1, r2, r3, r4, r5, pool, gone, dr, dd, df, pk, Parked);
    ChainTier(m, r1, r2, r3, r4, r5, pool, gone, dr, dd, df, pk, Failed);
    ChainTier(m, r1, r2, r3, r4, r5, pool, gone, dr, dd, df, pk, Parking);
    ChainTier(m, r1, r2, r3, r4, r5, pool, gone, dr, dd, df, pk, Provisioning);
    ChainTier(m, r1, r2, r3, r4, r5, pool, gone, dr, dd, df, pk, Starting);
    ChainTier(m, r1, r2, r3, r4, r5, pool, gone, dr, dd, df, pk, Allocated);
    assert dr !! dd;
  }

  lemma ChainTier(m: Rows, r1: Rows, r2: Rows, r3: Rows, r4: Rows, r5: Rows, pool: PoolId,
                  gone: set<ResourceId>, dr: set<ResourceId>, dd: set<ResourceId>, df: set<ResourceId>, pk: set<ResourceId>, x: Phase)
    requires Shed(m, r1, pool, gone, Parked) && Rolled(r1, r2, pool, dr, Ready, Draining) && Shed(r2, r3, pool, dd, Draining)
    requires Shed(r3, r4, pool, df, Failed) && Rolled(r4, r5, pool, pk, Ready, Parking) && !x.Deleting?
    ensures Tier(r5, pool, x) == match x
                                 case Ready => Tier(m, pool, x) - dr - pk
                                 case Draining => Tier(m, pool, x) + dr - dd
                                 case Parked => Tier(m, pool, x) - gone
                                 case Failed => Tier(m, pool, x) - df
                                 case Parking => Tier(m, pool, x) + pk
                                 case _ => Tier(m, pool, x)
  {
    hide Tier, Members;
    assert Tier(r5, pool, x) == if x.Ready? then Tier(r4, pool, x) - pk else if x.Parking? then Tier(r4, pool, x) + pk else Tier(r4, pool, x);
    assert Tier(r4, pool, x) == if x.Failed? then Tier(r3, pool, x) - df else Tier(r3, pool, x);
    assert Tier(r3, pool, x) == if x.Draining? then Tier(r2, pool, x) - dd else Tier(r2, pool, x);
    assert Tier(r2, pool, x) == if x.Ready? then Tier(r1, pool, x) - dr else if x.Draining? then Tier(r1, pool, x) + dr else Tier(r1, pool, x);
    assert Tier(r1, pool, x) == if x.Parked? then Tier(m, pool, x) - gone else Tier(m, pool, x);
  }

  lemma NotFailedYet(rows: Rows, pool: PoolId, list: seq<ResourceId>, p: Phase)
    requires OfPool(rows, pool, list) && (p.Draining? || p.Failed?)
    requires if p.Draining? then IdSet(list) !! Tier(rows, pool, Failed) else IdSet(list) == Tier(rows, pool, Failed)
    ensures forall i | 0 <= i < |list| :: p.Draining? != InPhase(rows, list[i], Failed)
  {
    forall i | 0 <= i < |list|
      ensures p.Draining? != InPhase(rows, list[i], Failed)
    {
      Listed(list, i);
      assert Member(rows, pool, list[i]);
      InTier(rows, pool, Failed, list[i]);
    }
  }

  /** The loops that look at ready machines run. */
  predicate WantsReady(spec: PoolSpec, c: Census) {
    c.Counted() > spec.replicas || ParksIdle(spec)
  }

  /** Nothing blocks the loops that will run: each asks only for what its own writes need. */
  predicate AllFree(db: Fleet, spec: PoolSpec, c: Census, idle: seq<ResourceId>, draining: seq<ResourceId>, failed: seq<ResourceId>,
                    parked: seq<ResourceId>) {
    && AllClear(db, draining) && AllClear(db, failed)
    && (spec.minRunning > c.Hot() ==> AllSwitchable(db, parked))
    && (c.Counted() > spec.replicas ==> AllClear(db, parked) && (|parked| > 0 ==> NothingQueued(db)))
    && (WantsReady(spec, c) ==> AllClear(db, idle))
    && (ParksIdle(spec) ==> AllSwitchable(db, idle))
  }

  lemma StaysFree(db: Fleet, db': Fleet, spec: PoolSpec, c: Census, idle: seq<ResourceId>, draining: seq<ResourceId>,
                  failed: seq<ResourceId>, parked: seq<ResourceId>)
    requires AllFree(db, spec, c, idle, draining, failed, parked) && Passed(db, db')
    ensures AllFree(db', spec, c, idle, draining, failed, parked)
  {
    hide AllClear, AllSwitchable, NothingQueued, Passed, ParksIdle;
    StaysClear(db, db', idle);
    StaysClear(db, db', draining);
    StaysClear(db, db', failed);
    StaysClear(db, db', parked);
  }

  lemma FreeSays(db: Fleet, spec: PoolSpec, c: Census, idle: seq<ResourceId>, draining: seq<ResourceId>, failed: seq<ResourceId>,
                 parked: seq<ResourceId>)
    requires AllFree(db, spec, c, idle, draining, failed, parked)
    ensures AllClear(db, draining) && AllClear(db, failed)
    ensures spec.minRunning > c.Hot() ==> AllSwitchable(db, parked)
    ensures c.Counted() > spec.replicas ==> AllClear(db, parked) && AllClear(db, idle) && (|parked| > 0 ==> NothingQueued(db))
    ensures ParksIdle(spec) ==> AllClear(db, idle) && AllSwitchable(db, idle)
  {
    hide AllClear, AllSwitchable, NothingQueued, ParksIdle;
  }

  /** What the second half may do: never more than d says here, and exactly that when nothing blocks it. */
  predicate ShrinkCounts(spec: PoolSpec, c: Census, budget: nat, undrained: nat, started: nat, idle: nat, free: bool, d: Delta) {
    var surplus := c.Counted() + undrained - spec.replicas;
    var parkedLeft, drainingLeft := c.parked - started, c.draining - undrained;
    var b4 := budget - d.deletedParked;
    var b5 := b4 - d.drained;
    var b6 := b5 - d.deletedDraining;
    var b7 := b6 - d.deletedFailed;
    && AsMany(d.deletedParked, Upto(Least(surplus, budget), parkedLeft), free)
    && AsMany(d.drained, Upto(Least(Least(surplus - d.deletedParked, b4), c.ready - spec.minReady), idle), free)
    && AsMany(d.deletedDraining, Upto(b5, drainingLeft), free)
    && AsMany(d.deletedFailed, Upto(b6, c.failed), free)
    && AsMany(d.parkedNow, if ParksIdle(spec)
                           then Upto(Least(Least(b7, c.ready - d.drained - spec.minReady), c.Hot() + started - spec.minRunning), idle - d.drained)
                           else 0, free)
  }

  /** The moved rows come first in the list. */
  ghost predicate Prefix(list: seq<ResourceId>, moved: set<ResourceId>) {
    exists i: nat :: i <= |list| && moved == IdSet(list[..i])
  }

  /** The eligible rows of the front of the list moved. */
  ghost predicate FirstOf(list: seq<ResourceId>, eligible: set<ResourceId>, moved: set<ResourceId>) {
    exists i: nat :: i <= |list| && moved == IdSet(list[..i]) * eligible
  }

  lemma SweptFirst(eligible: set<ResourceId>, list: seq<ResourceId>, moved: set<ResourceId>, limit: int)
    requires Swept(eligible, list, moved, limit, true)
    ensures FirstOf(list, eligible, moved)
  {
  }

  lemma SweptPrefix(eligible: set<ResourceId>, list: seq<ResourceId>, moved: set<ResourceId>, limit: int)
    requires Swept(eligible, list, moved, limit, true) && IdSet(list) * eligible == IdSet(list)
    ensures Prefix(list, moved)
  {
    var i: nat :| i <= |list| && moved == IdSet(list[..i]) * eligible;
    forall x | x in IdSet(list[..i])
      ensures x in eligible
    {
      var k :| 0 <= k < i && list[..i][k] == x;
      Listed(list, k);
    }
    assert moved == IdSet(list[..i]);
  }

  predicate AsMany(n: nat, most: nat, exactly: bool) {
    n <= most && (exactly ==> n == most)
  }

  /** Scale down: the parked tier first, then idle ready machines. */
  method ScaleDown(cy: Cycle, pool: PoolId, spec: PoolSpec, c: Census, idle: seq<ResourceId>, draining: seq<ResourceId>,
                   failed: seq<ResourceId>, parked: seq<ResourceId>, budget: nat, surplus: int,
                   ghost rows0: Rows, ghost u: set<ResourceId>, ghost s: set<ResourceId>, ghost b: set<ResourceId>, ghost free: bool, now: int)
    returns (deletedParked: nat, drained: nat, ghost r1: Rows, ghost gone: set<ResourceId>, ghost dr: set<ResourceId>)
    requires Inv(cy.st.Db()) && c == CensusOf(rows0, pool)
    requires Lists(rows0, cy.st.resources, pool, idle, draining, failed, parked, u, s, b)
    requires free ==> AllFree(cy.st.Db(), spec, c, idle, draining, failed, parked)
    requires surplus > 0 ==> c.Counted() > spec.replicas
    modifies cy.st
    ensures Inv(cy.st.Db()) && Passed(old(cy.st.Db()), cy.st.Db()) && Framed(old(cy.st.resources), cy.st.resources, pool)
    ensures Shed(old(cy.st.resources), r1, pool, gone, Parked) && gone <= old(Tier(cy.st.resources, pool, Parked))
    ensures free ==> FirstOf(parked, old(Tier(cy.st.resources, pool, Parked)), gone)
    ensures Rolled(r1, cy.st.resources, pool, dr, Ready, Draining) && dr <= IdSet(idle) && (free ==> Prefix(idle, dr))
    ensures deletedParked == |gone| && AsMany(deletedParked, Upto(Least(surplus, budget), c.parked - |s|), free)
    ensures drained == |dr|
    ensures AsMany(drained, Upto(Least(Least(surplus - deletedParked, budget - deletedParked), c.ready - spec.minReady), |IdSet(idle)|), free)
  {
    hide Inv, Tier, Members, Passed, Rolled, Shed, Lists, Grown, AllClear, AllSwitchable, NothingQueued, AllFree, IdSet, Distinct, OfPool, Swept,
         CensusOf, Upto, Least, InPhase, Prefix, FirstOf, Framed;
    ghost var m := cy.st.Db();
    CensusIs(rows0, pool);
    ListsSay(rows0, m.resources, pool, idle, draining, failed, parked, u, s, b);
    if free { FreeSays(m, spec, c, idle, draining, failed, parked); }

    AtShedParked(rows0, m.resources, pool, idle, draining, failed, parked, u, s, b);
    deletedParked, gone := cy.ShedParkedPass(pool, parked, surplus, budget, free, now);
    SweptCount(Tier(m.resources, pool, Parked), parked, gone, Least(surplus, budget), free, Tier(m.resources, pool, Parked));
    if free { SweptFirst(Tier(m.resources, pool, Parked), parked, gone, Least(surplus, budget)); }

    ghost var db1 := cy.st.Db();
    r1 := db1.resources;
    ghost var limit := Least(Least(surplus - deletedParked, budget - deletedParked), c.ready - spec.minReady);
    if free {
      StaysFree(m, db1, spec, c, idle, draining, failed, parked);
      FreeSays(db1, spec, c, idle, draining, failed, parked);
    }
    AtDrain(rows0, m.resources, r1, pool, idle, draining, failed, parked, u, s, b, gone);
    drained, dr := cy.DrainPass(pool, idle, surplus - deletedParked, budget - deletedParked, c.ready - spec.minReady, free, now);
    SweptCount(Tier(r1, pool, Ready), idle, dr, limit, free, IdSet(idle));
    if free { SweptPrefix(Tier(r1, pool, Ready), idle, dr, limit); }
    PassedOn(m, db1, cy.st.Db());
    FramedOn(m.resources, r1, cy.st.resources, pool);
  }

  /** Clean up what drains and what failed, then park. */
  method CleanUp(cy: Cycle, pool: PoolId, spec: PoolSpec, c: Census, idle: seq<ResourceId>, draining: seq<ResourceId>,
                 failed: seq<ResourceId>, parked: seq<ResourceId>, budget: int, slack: int, warmth: int,
                 ghost rows0: Rows, ghost m: Rows, ghost r1: Rows, ghost u: set<ResourceId>, ghost s: set<ResourceId>,
                 ghost b: set<ResourceId>, ghost gone: set<ResourceId>, ghost dr: set<ResourceId>, ghost free: bool, now: int)
    returns (deletedDraining: nat, deletedFailed: nat, parkedNow: nat, ghost dd: set<ResourceId>, ghost df: set<ResourceId>, ghost pk: set<ResourceId>)
    requires Inv(cy.st.Db()) && c == CensusOf(rows0, pool) && Lists(rows0, m, pool, idle, draining, failed, parked, u, s, b)
    requires Shed(m, r1, pool, gone, Parked) && gone <= Tier(m, pool, Parked)
    requires Rolled(r1, cy.st.resources, pool, dr, Ready, Draining) && dr <= IdSet(idle)
    requires free ==> AllFree(cy.st.Db(), spec, c, idle, draining, failed, parked)
    modifies cy.st
    ensures Inv(cy.st.Db()) && Passed(old(cy.st.Db()), cy.st.Db()) && Framed(old(cy.st.resources), cy.st.resources, pool)
    ensures Shrunk(m, cy.st.resources, pool, gone, dr, dd, df, pk) && pk <= IdSet(idle)
    ensures deletedDraining == |dd| && AsMany(deletedDraining, Upto(budget, c.draining - |u|), free)
    ensures deletedFailed == |df| && AsMany(deletedFailed, Upto(budget - deletedDraining, c.failed), free)
    ensures parkedNow == |pk|
            && AsMany(parkedNow, if ParksIdle(spec)
                                 then Upto(Least(Least(budget - deletedDraining - deletedFailed, slack), warmth), |IdSet(idle)| - |dr|)
                                 else 0, free)
  {
    hide Inv, Tier, Members, Passed, Rolled, Shed, Lists, Grown, Shrunk, AllClear, AllSwitchable, NothingQueued, AllFree, IdSet, Distinct, OfPool, Swept,
         CensusOf, Upto, Least, ParksIdle, InPhase, Framed;
    ghost var db2 := cy.st.Db();
    ghost var r2 := db2.resources;
    CensusIs(rows0, pool);
    ListsSay(rows0, m, pool, idle, draining, failed, parked, u, s, b);
    if free { FreeSays(db2, spec, c, idle, draining, failed, parked); }
    AtPipeline(rows0, m, r1, r2, pool, idle, draining, failed, parked, u, s, b, gone, dr);
    NotFailedYet(r2, pool, draining, Draining);
    deletedDraining, dd := cy.CleanUpPass(pool, draining, Draining, budget, free, now);
    SweptCount(Tier(r2, pool, Draining), draining, dd, budget, free, Tier(m, pool, Draining));

    ghost var db3 := cy.st.Db();
    ghost var r3 := db3.resources;
    if free {
      StaysFree(db2, db3, spec, c, idle, draining, failed, parked);
      FreeSays(db3, spec, c, idle, draining, failed, parked);
    }
    AtCleanup(rows0, m, r1, r2, r3, pool, idle, draining, failed, parked, u, s, b, gone, dr, dd);
    NotFailedYet(r3, pool, failed, Failed);
    deletedFailed, df := cy.CleanUpPass(pool, failed, Failed, budget - deletedDraining, free, now);
    SweptWhole(r3, pool, Failed, failed, df, budget - deletedDraining, free);

    ghost var db4 := cy.st.Db();
    ghost var r4 := db4.resources;
    if free {
      StaysFree(db3, db4, spec, c, idle, draining, failed, parked);
      FreeSays(db4, spec, c, idle, draining, failed, parked);
    }
    AtPark(rows0, m, r1, r2, r3, r4, pool, idle, draining, failed, parked, u, s, b, gone, dr, dd, df);
    parkedNow, pk := 0, {};
    NothingPassed(db4, pool, Ready, Parking);
    FramedSelf(r4, pool);
    if ParksIdle(spec) {
      var left := budget - deletedDraining - deletedFailed;
      parkedNow, pk := cy.ParkPass(pool, idle, left, slack, warmth, free, now);
      SweptCount(Tier(r4, pool, Ready), idle, pk, Least(Least(left, slack), warmth), free, IdSet(idle) - dr);
    }
    PassedOn(db2, db3, db4);
    PassedOn(db2, db4, cy.st.Db());
    FramedOn(r2, r3, r4, pool);
    FramedOn(r2, r4, cy.st.resources, pool);
    ShrunkBy(rows0, m, r1, r2, r3, r4, cy.st.resources, pool, idle, draining, failed, parked, u, s, b, gone, dr, dd, df, pk);
  }

  /** Scale down, clean up, park. */
  method Shrink(cy: Cycle, pool: PoolId, spec: PoolSpec, c: Census, idle: seq<ResourceId>, draining: seq<ResourceId>,
                failed: seq<ResourceId>, parked: seq<ResourceId>, budget: nat, undrained: nat, started: nat,
                ghost rows0: Rows, ghost u: set<ResourceId>, ghost s: set<ResourceId>, ghost b: set<ResourceId>, ghost free: bool, now: int)
    returns (d: Delta, ghost gone: set<ResourceId>, ghost dr: set<ResourceId>, ghost dd: set<ResourceId>, ghost df: set<ResourceId>,
             ghost pk: set<ResourceId>)
    requires Inv(cy.st.Db()) && c == CensusOf(rows0, pool)
    requires Lists(rows0, cy.st.resources, pool, idle, draining, failed, parked, u, s, b)
    requires undrained == |u| && started == |s| && (undrained > 0 ==> c.Counted() + undrained <= spec.replicas)
    requires free ==> AllFree(cy.st.Db(), spec, c, idle, draining, failed, parked)
    modifies cy.st
    ensures Inv(cy.st.Db()) && Passed(old(cy.st.Db()), cy.st.Db()) && Framed(old(cy.st.resources), cy.st.resources, pool)
    ensures Shrunk(old(cy.st.resources), cy.st.resources, pool, gone, dr, dd, df, pk)
    ensures dr <= IdSet(idle) && pk <= IdSet(idle) && (free ==> Prefix(idle, dr))
    ensures free ==> FirstOf(parked, old(Tier(cy.st.resources, pool, Parked)), gone)
    ensures d == Delta(0, 0, 0, |gone|, |dr|, |dd|, |df|, |pk|)
    ensures ShrinkCounts(spec, c, budget, undrained, started, |IdSet(idle)|, free, d)
  {
    hide Inv, Tier, Members, Passed, Rolled, Shed, Lists, Shrunk, AllFree, IdSet, CensusOf, Upto, Least, ParksIdle, Prefix, FirstOf, Framed;
    ghost var m := cy.st.Db();
    var surplus := c.Counted() + undrained - spec.replicas;
    var deletedParked, drained, deletedDraining, deletedFailed, parkedNow;
    ghost var r1;
    deletedParked, drained, r1, gone, dr :=
      ScaleDown(cy, pool, spec, c, idle, draining, failed, parked, budget, surplus, rows0, u, s, b, free, now);
    ghost var db2 := cy.st.Db();
    if free { StaysFree(m, db2, spec, c, idle, draining, failed, parked); }
    deletedDraining, deletedFailed, parkedNow, dd, df, pk :=
      CleanUp(cy, pool, spec, c, idle, draining, failed, parked, budget - deletedParked - drained, c.ready - drained - spec.minReady,
              c.Hot() + started - spec.minRunning, rows0, m.resources, r1, u, s, b, gone, dr, free, now);
    PassedOn(m, db2, cy.st.Db());
    FramedOn(m.resources, db2.resources, cy.st.resources, pool);
    d := Delta(0, 0, 0, deletedParked, drained, deletedDraining, deletedFailed, parkedNow);
  }

  lemma ListsSay(rows0: Rows, rows: Rows, pool: PoolId, idle: seq<ResourceId>, draining: seq<ResourceId>, failed: seq<ResourceId>,
                 parked: seq<ResourceId>, u: set<ResourceId>, s: set<ResourceId>, b: set<ResourceId>)
    requires Lists(rows0, rows, pool, idle, draining, failed, parked, u, s, b)
    ensures Distinct(idle) && Distinct(draining) && Distinct(failed) && Distinct(parked)
    ensures Tier(rows, pool, Failed) == Tier(rows0, pool, Failed)
    ensures |u| <= |Tier(rows0, pool, Draining)| && |s| <= |Tier(rows0, pool, Parked)|
  {
    hide Tier, Members, IdSet, Distinct;
    SmallerSet(u, Tier(rows0, pool, Draining));
    SmallerSet(s, Tier(rows0, pool, Parked));
  }

  // ---- The cycle ----

  predicate GrowCounts(spec: PoolSpec, c: Census, budget: nat, creating: bool, ample: bool, free: bool, d: Delta) {
    var deficit := spec.replicas - c.Counted() - d.undrained;
    && d.undrained == Upto(Least(spec.replicas - c.Counted(), budget), c.draining)
    && AsMany(d.started, Upto(Least(spec.minRunning - c.Hot(), budget - d.undrained), c.parked), free)
    && AsMany(d.created, if creating && deficit > 0 then Upto(Headroom(spec, c.total, deficit), budget - d.undrained - d.started) else 0, ample)
  }

  /** The two halves in numbers are always bounded. */
  lemma HalvesBounded(spec: PoolSpec, c: Census, budget: nat, creating: bool, ample: bool, free: bool, idle: nat, d: Delta)
    requires GrowCounts(spec, c, budget, creating, ample, free, d) && d.undrained + d.started + d.created <= budget
    requires idle <= c.ready
    requires ShrinkCounts(spec, c, budget - d.undrained - d.started - d.created, d.undrained, d.started, idle, free,
                          d.(undrained := 0, started := 0, created := 0))
    ensures Bounded(spec, c, budget, d)
  {
    hide GrowCounts, ShrinkCounts, ParksIdle, Upto, Least;
    GrowBounded(spec, c, budget, creating, ample, free, d);
    ShrinkBounded(spec, c, budget - d.undrained - d.started - d.created, d.undrained, d.started, idle, free,
                  d.(undrained := 0, started := 0, created := 0));
  }

  lemma GrowBounded(spec: PoolSpec, c: Census, budget: nat, creating: bool, ample: bool, free: bool, d: Delta)
    requires GrowCounts(spec, c, budget, creating, ample, free, d)
    ensures d.undrained + d.started + d.created <= budget
    ensures d.undrained <= Upto(spec.replicas - c.Counted(), c.draining) && d.started <= c.parked && d.undrained <= c.draining
    ensures d.undrained > 0 ==> c.Counted() + d.undrained <= spec.replicas
    ensures d.created > 0 ==> d.created <= spec.replicas - c.Counted() - d.undrained && (spec.maxResources > 0 ==> c.total + d.created <= spec.maxResources)
    ensures d.started > 0 ==> c.Hot() + d.started <= spec.minRunning
  {
  }

  lemma ShrinkBounded(spec: PoolSpec, c: Census, budget: nat, undrained: nat, started: nat, idle: nat, free: bool, d: Delta)
    requires ShrinkCounts(spec, c, budget, undrained, started, idle, free, d) && idle <= c.ready
    requires undrained <= Upto(spec.replicas - c.Counted(), c.draining)
    ensures d.Deleted() + d.drained + d.parkedNow <= budget
    ensures d.deletedParked + d.drained <= Upto(c.Counted() - spec.replicas, c.ready + c.parked)
    ensures d.drained > 0 ==> c.ready - d.drained >= spec.minReady
    ensures d.parkedNow > 0 ==> ParksIdle(spec) && c.ready - d.drained - d.parkedNow >= spec.minReady
                                && c.Hot() + started - d.parkedNow >= spec.minRunning
  {
    hide ParksIdle;
  }

  /** And they are the plan itself when nothing blocked a loop: every ready machine is a candidate where candidates count. */
  lemma HalvesPlan(spec: PoolSpec, c: Census, budget: nat, creating: bool, idle: nat, d: Delta)
    requires GrowCounts(spec, c, budget, creating, true, true, d) && d.undrained + d.started + d.created <= budget
    requires ShrinkCounts(spec, c, budget - d.undrained - d.started - d.created, d.undrained, d.started, idle, true,
                          d.(undrained := 0, started := 0, created := 0))
    requires WantsReady(spec, c) ==> idle == c.ready
    ensures d == Plan(spec, c, budget, creating)
  {
    hide Plan, ShrinkCounts, WantsReady;
    if !WantsReady(spec, c) {
      GrowBounded(spec, c, budget, creating, true, true, d);
      hide GrowCounts;
      IdleIsIrrelevant(spec, c, budget - d.undrained - d.started - d.created, d.undrained, d.started, idle,
                       d.(undrained := 0, started := 0, created := 0));
    }
    hide GrowCounts;
    ReadyPlan(spec, c, budget, creating, d);
  }

  lemma ReadyPlan(spec: PoolSpec, c: Census, budget: nat, creating: bool, d: Delta)
    requires GrowCounts(spec, c, budget, creating, true, true, d) && d.undrained + d.started + d.created <= budget
    requires ShrinkCounts(spec, c, budget - d.undrained - d.started - d.created, d.undrained, d.started, c.ready, true,
                          d.(undrained := 0, started := 0, created := 0))
    ensures d == Plan(spec, c, budget, creating)
  {
    NothingWarm(spec, c, budget - d.undrained);
    hide Upto, Least, ParksIdle, Headroom;
  }

  lemma IdleIsIrrelevant(spec: PoolSpec, c: Census, budget: nat, undrained: nat, started: nat, idle: nat, d: Delta)
    requires !WantsReady(spec, c) && (undrained > 0 ==> c.Counted() + undrained <= spec.replicas)
    requires ShrinkCounts(spec, c, budget, undrained, started, idle, true, d)
    ensures ShrinkCounts(spec, c, budget, undrained, started, c.ready, true, d)
  {
    var surplus, left := c.Counted() + undrained - spec.replicas - d.deletedParked, budget - d.deletedParked;
    NothingDrained(surplus, left, c.ready - spec.minReady, idle);
    NothingDrained(surplus, left, c.ready - spec.minReady, c.ready);
    hide Upto, Least, ParksIdle;
  }

  lemma NothingDrained(surplus: int, left: int, slack: int, idle: nat)
    ensures surplus <= 0 ==> Upto(Least(Least(surplus, left), slack), idle) == 0
  {
  }

  lemma NothingWarm(spec: PoolSpec, c: Census, budget: int)
    ensures spec.minRunning <= 0 ==> Upto(Least(spec.minRunning - c.Hot(), budget), c.parked) == 0
  {
  }

  /** Nothing stands in the way of a cycle. Rows to be cleaned up pass the delete gates; parked rows can be started when
      the pool is too cold; and when the pool is too large, or parks, its spare rows pass the gates of being deleted,
      drained or stopped, its ready ones are idle, and no queued work claims the parked ones. */
  predicate Undisturbed(db: Fleet, pool: PoolId, spec: PoolSpec, now: int) {
    var c, rows := CensusOf(db.resources, pool), db.resources;
    && (forall id <- Tier(rows, pool, Draining) :: Clear(db, id))
    && (forall id <- Tier(rows, pool, Failed) :: Clear(db, id))
    && (spec.minRunning > c.Hot() ==> forall id <- Tier(rows, pool, Parked) :: Switchable(db, id))
    && (c.Counted() > spec.replicas ==> (forall id <- Tier(rows, pool, Parked) :: Clear(db, id) && NothingQueued(db)))
    && (WantsReady(spec, c) ==> forall id <- Tier(rows, pool, Ready) :: Clear(db, id) && IdleLongEnough(rows[id], spec.reclaim, now))
    && (ParksIdle(spec) ==> forall id <- Tier(rows, pool, Ready) :: Switchable(db, id))
  }

  lemma ListedIn(list: seq<ResourceId>, ids: set<ResourceId>)
    requires IdSet(list) <= ids
    ensures forall i | 0 <= i < |list| :: list[i] in ids
  {
    forall i | 0 <= i < |list|
      ensures list[i] in ids
    {
      Listed(list, i);
    }
  }

  lemma UndisturbedSays(db: Fleet, pool: PoolId, spec: PoolSpec, now: int, c: Census, idle: seq<ResourceId>, draining: seq<ResourceId>,
                        failed: seq<ResourceId>, parked: seq<ResourceId>)
    requires Undisturbed(db, pool, spec, now) && c == CensusOf(db.resources, pool)
    requires IdSet(idle) <= Tier(db.resources, pool, Ready) && IdSet(draining) == Tier(db.resources, pool, Draining)
    requires IdSet(failed) == Tier(db.resources, pool, Failed) && IdSet(parked) == Tier(db.resources, pool, Parked)
    ensures AllFree(db, spec, c, idle, draining, failed, parked)
  {
    hide Tier, IdSet, Clear, Switchable, NothingQueued, CensusOf, ParksIdle, IdleLongEnough;
    ListedIn(idle, Tier(db.resources, pool, Ready));
    ListedIn(draining, Tier(db.resources, pool, Draining));
    ListedIn(failed, Tier(db.resources, pool, Failed));
    ListedIn(parked, Tier(db.resources, pool, Parked));
    assert |parked| > 0 ==> parked[0] in Tier(db.resources, pool, Parked);
  }

  /** Then every ready machine is a candidate, where candidates count. */
  lemma AllCandidates(db: Fleet, pool: PoolId, spec: PoolSpec, now: int)
    requires Undisturbed(db, pool, spec, now) && WantsReady(spec, CensusOf(db.resources, pool))
    ensures Candidates(db.resources, pool, spec.reclaim, now) == Tier(db.resources, pool, Ready)
  {
    hide CensusOf, IdleLongEnough, ParksIdle, Unleased;
  }

  /** The rows each loop of a cycle moved. */
  datatype Moves = Moves(
    undrained: set<ResourceId>, started: set<ResourceId>, created: set<ResourceId>, deletedParked: set<ResourceId>,
    drained: set<ResourceId>, deletedDraining: set<ResourceId>, deletedFailed: set<ResourceId>, parkedNow: set<ResourceId>
  ) {
    function Counters(): Delta {
      Delta(|undrained|, |started|, |created|, |deletedParked|, |drained|, |deletedDraining|, |deletedFailed|, |parkedNow|)
    }
  }

  /** Every moved row was where its loop looks when the cycle began and is where that loop put it when the cycle ends: no
      row moves twice, so nothing undrained or started is deleted and nothing drained is parked, despite the stale listing. */
  predicate Landed(rows0: Rows, rows: Rows, pool: PoolId, m: Moves) {
    && m.undrained <= Tier(rows0, pool, Draining) && m.undrained <= Tier(rows, pool, Ready)
    && m.started <= Tier(rows0, pool, Parked) && m.started <= Tier(rows, pool, Starting)
    && m.created !! rows0.Keys && m.created <= Tier(rows, pool, Provisioning)
    && m.drained <= Tier(rows0, pool, Ready) && m.drained <= Tier(rows, pool, Draining)
    && m.parkedNow <= Tier(rows0, pool, Ready) && m.parkedNow <= Tier(rows, pool, Parking)
    && m.deletedParked <= Tier(rows0, pool, Parked) - m.started && m.deletedParked !! Tier(rows, pool, Parked)
    && m.deletedDraining <= Tier(rows0, pool, Draining) - m.undrained && m.deletedDraining !! Tier(rows, pool, Draining)
    && m.deletedFailed <= Tier(rows0, pool, Failed) && m.deletedFailed !! Tier(rows, pool, Failed)
  }

  lemma NoRowMovesTwice(rows0: Rows, mid: Rows, rows: Rows, pool: PoolId, m: Moves)
    requires Grown(rows0, mid, pool, m.undrained, m.started, m.created)
    requires Shrunk(mid, rows, pool, m.deletedParked, m.drained, m.deletedDraining, m.deletedFailed, m.parkedNow)
    requires m.drained <= Tier(rows0, pool, Ready) && m.parkedNow <= Tier(rows0, pool, Ready)
    ensures Landed(rows0, rows, pool, m)
  {
    hide Tier, Members;
    TwoTiers(rows0, pool, Ready, Draining);
    TierKnown(rows0, pool, Ready);
  }

  /** Drained machines have been idle at least as long as the candidates that stay. */
  predicate LongestIdleFirst(rows: Rows, idle: set<ResourceId>, dr: set<ResourceId>) {
    forall x <- dr, y <- idle - dr :: x in rows && y in rows ==> IdleSince(rows[x]) <= IdleSince(rows[y])
  }

  function ParkedSince(r: Resource): int {
    if r.parkedAt.Some? then r.parkedAt.value else 0
  }

  ghost predicate OldestFirst(rows: Rows, list: seq<ResourceId>) {
    forall i, j | 0 <= i < j < |list| :: list[i] in rows && list[j] in rows && ParkedSince(rows[list[i]]) <= ParkedSince(rows[list[j]])
  }

  /** Deleted parked machines have been parked at least as long as those that stay parked. */
  predicate LongestParkedFirst(rows: Rows, gone: set<ResourceId>, left: set<ResourceId>) {
    forall x <- gone, y <- left :: x in rows && y in rows ==> ParkedSince(rows[x]) <= ParkedSince(rows[y])
  }

  lemma FirstIsOldest(rows: Rows, list: seq<ResourceId>, eligible: set<ResourceId>, gone: set<ResourceId>, left: set<ResourceId>)
    requires OldestFirst(rows, list) && FirstOf(list, eligible, gone) && left <= eligible - gone && eligible <= IdSet(list)
    ensures LongestParkedFirst(rows, gone, left)
  {
    hide ParkedSince;
    var n: nat :| n <= |list| && gone == IdSet(list[..n]) * eligible;
    forall x, y | x in gone && y in left
      ensures x in rows && y in rows ==> ParkedSince(rows[x]) <= ParkedSince(rows[y])
    {
      var i :| 0 <= i < n && list[..n][i] == x;
      var j :| 0 <= j < |list| && list[j] == y;
      if j < n { Listed(list[..n], j); }
    }
  }

  lemma PrefixIsLongest(rows: Rows, idle: seq<ResourceId>, dr: set<ResourceId>)
    requires Distinct(idle) && Prefix(idle, dr)
    requires LongestFirst(rows, idle)
    ensures LongestIdleFirst(rows, IdSet(idle), dr)
  {
    hide IdleSince;
    var n: nat :| n <= |idle| && dr == IdSet(idle[..n]);
    forall x, y | x in dr && y in IdSet(idle) - dr
      ensures x in rows && y in rows ==> IdleSince(rows[x]) <= IdleSince(rows[y])
    {
      var i :| 0 <= i < n && idle[..n][i] == x;
      var j :| 0 <= j < |idle| && idle[j] == y;
    }
  }

  lemma SortedByAge(rows: Rows, list: seq<ResourceId>, since: map<ResourceId, int>)
    requires forall id <- since.Keys :: id in rows && since[id] == ParkedSince(rows[id])
    requires forall id <- list :: id in since
    requires forall i, j | 0 <= i < j < |list| :: since[list[i]] <= since[list[j]]
    ensures OldestFirst(rows, list)
  {
    hide ParkedSince;
    assert forall i | 0 <= i < |list| :: list[i] in list && list[i] in since.Keys;
  }

  /** The listing, by phase: the idle ready machines longest idle first, the parked ones longest parked first. */
  method TakeRoll(rows: Rows, pool: PoolId, reclaim: Option<ReclaimPolicy>, now: int)
    returns (idle: seq<ResourceId>, draining: seq<ResourceId>, failed: seq<ResourceId>, parked: seq<ResourceId>)
    ensures Distinct(idle) && IdSet(idle) == Candidates(rows, pool, reclaim, now) && LongestFirst(rows, idle)
    ensures Distinct(draining) && IdSet(draining) == Tier(rows, pool, Draining)
    ensures Distinct(failed) && IdSet(failed) == Tier(rows, pool, Failed)
    ensures Distinct(parked) && IdSet(parked) == Tier(rows, pool, Parked) && OldestFirst(rows, parked)
  {
    hide Tier, Members, IdSet, Distinct, IdleSince, IdleLongEnough;
    var ready := InOrder(Tier(rows, pool, Ready));
    draining := InOrder(Tier(rows, pool, Draining));
    failed := InOrder(Tier(rows, pool, Failed));
    TierKnown(rows, pool, Ready);
    ListedRows(rows, ready);
    idle := Reclaimable(ready, rows, reclaim, now);
    parked := InOrder(Tier(rows, pool, Parked));
    TierKnown(rows, pool, Parked);
    ListedRows(rows, parked);
    var since := map id | id in parked :: ParkedSince(rows[id]);
    parked := SortByKey(parked, since);
    SortedByAge(rows, parked, since);
  }

  lemma ListedRows(rows: Rows, list: seq<ResourceId>)
    requires IdSet(list) <= rows.Keys
    ensures forall id <- list :: id in rows
  {
    forall id | id in list
      ensures id in rows
    {
      var i :| 0 <= i < |list| && list[i] == id;
      Listed(list, i);
    }
  }

  lemma ListsHold(rows0: Rows, rows: Rows, pool: PoolId, idle: seq<ResourceId>, draining: seq<ResourceId>, failed: seq<ResourceId>,
                  parked: seq<ResourceId>, u: set<ResourceId>, s: set<ResourceId>, b: set<ResourceId>)
    requires Distinct(idle) && Distinct(draining) && Distinct(failed) && Distinct(parked)
    requires IdSet(idle) <= Tier(rows0, pool, Ready) && IdSet(draining) == Tier(rows0, pool, Draining)
    requires IdSet(failed) == Tier(rows0, pool, Failed) && IdSet(parked) == Tier(rows0, pool, Parked)
    requires Grown(rows0, rows, pool, u, s, b)
    ensures Lists(rows0, rows, pool, idle, draining, failed, parked, u, s, b)
    ensures |IdSet(idle)| <= |Tier(rows0, pool, Ready)|
  {
    hide Tier, IdSet, Distinct, Grown;
    SmallerSet(IdSet(idle), Tier(rows0, pool, Ready));
  }

  /** The whole cycle in numbers. */
  lemma CycleCounts(rows0: Rows, m: Rows, rows: Rows, pool: PoolId, u: set<ResourceId>, s: set<ResourceId>, b: set<ResourceId>,
                    gone: set<ResourceId>, dr: set<ResourceId>, dd: set<ResourceId>, df: set<ResourceId>, pk: set<ResourceId>)
    requires Grown(rows0, m, pool, u, s, b) && Shrunk(m, rows, pool, gone, dr, dd, df, pk)
    ensures Accounts(CensusOf(rows0, pool), Delta(|u|, |s|, |b|, |gone|, |dr|, |dd|, |df|, |pk|), CensusOf(rows, pool))
  {
    hide Grown, Shrunk, CensusOf;
    GrownCounts(rows0, m, pool, u, s, b);
    ShrunkCounts(m, rows, pool, gone, dr, dd, df, pk);
  }

  /** What one cycle does to the fleet: never past the budget, the caps and the floors; every row accounted for and moved at
      most once; the powered floor kept in a pool at or under its size. When nothing stood in its way, moreover, it is
      exactly the plan, deletes the longest parked, drains the longest idle, and parks below the powered floor exactly in
      the pools that say so beforehand. */
  ghost predicate Cycled(db0: Fleet, db: Fleet, pool: PoolId, spec: PoolSpec, budget: nat, creating: bool, ample: bool, now: int,
                         d: Delta, m: Moves) {
    var c, c' := CensusOf(db0.resources, pool), CensusOf(db.resources, pool);
    && Passed(db0, db)
    && d == m.Counters() && Landed(db0.resources, db.resources, pool, m)
    && Bounded(spec, c, budget, d) && Accounts(c, d, c')
    && m.drained + m.parkedNow <= Candidates(db0.resources, pool, spec.reclaim, now)
    && (c.Counted() <= spec.replicas && d.parkedNow > 0 ==> c'.Hot() >= spec.minRunning)
    && (Undisturbed(db0, pool, spec, now) ==>
          && LongestParkedFirst(db0.resources, m.deletedParked, Tier(db.resources, pool, Parked))
          && LongestIdleFirst(db0.resources, Candidates(db0.resources, pool, spec.reclaim, now), m.drained))
    && (Undisturbed(db0, pool, spec, now) && ample ==>
          && d == Plan(spec, c, budget, creating) && Greedy(spec, c, budget, creating, d)
          && (d.parkedNow > 0 && c'.Hot() < spec.minRunning <==> FloorLost(spec, c, budget)))
  }

  /** A cycle drains and parks only machines all of whose leases ended, and which became ready, as long ago as the policy asks;
      undisturbed, it drains those that rested longest. */
  ghost predicate DrainsTheRested(db0: Fleet, pool: PoolId, spec: PoolSpec, now: int, m: Moves) {
    var rested := RestedOnes(db0, pool, IdleMs(spec.reclaim), now);
    && m.drained + m.parkedNow <= rested
    && (Undisturbed(db0, pool, spec, now) ==> forall x <- m.drained, y <- rested - m.drained :: RestedLonger(db0, x, y, now))
  }

  lemma CycleDrainsTheRested(db0: Fleet, db: Fleet, pool: PoolId, spec: PoolSpec, budget: nat, creating: bool, ample: bool, now: int,
                             d: Delta, m: Moves)
    requires Cycled(db0, db, pool, spec, budget, creating, ample, now, d, m) && EndsStamped(db0.resources, db0.leases)
    ensures DrainsTheRested(db0, pool, spec, now, m)
  {
    hide EndsStamped, Undisturbed, RestedLonger, Landed, Bounded, Accounts, CensusOf, Passed, Plan, Greedy, FloorLost;
    CandidatesAreRested(db0, pool, spec.reclaim, now);
    var idle := Candidates(db0.resources, pool, spec.reclaim, now);
    if Undisturbed(db0, pool, spec, now) { LongestIdleIsLongestRested(db0, idle, m.drained, now); }
  }

  lemma ParkedSets(rows0: Rows, mid: Rows, rows: Rows, pool: PoolId, m: Moves)
    requires Grown(rows0, mid, pool, m.undrained, m.started, m.created)
    requires Shrunk(mid, rows, pool, m.deletedParked, m.drained, m.deletedDraining, m.deletedFailed, m.parkedNow)
    ensures m.deletedParked <= Tier(mid, pool, Parked) <= Tier(rows0, pool, Parked)
    ensures Tier(rows, pool, Parked) == Tier(mid, pool, Parked) - m.deletedParked
  {
    hide Tier, Members;
  }

  lemma CandidatesReady(rows: Rows, pool: PoolId, reclaim: Option<ReclaimPolicy>, now: int)
    ensures Candidates(rows, pool, reclaim, now) <= Tier(rows, pool, Ready)
  {
  }

  /** What both halves know at the end of a cycle. */
  ghost predicate Halves(db0: Fleet, mid: Fleet, db: Fleet, pool: PoolId, spec: PoolSpec, budget: nat, creating: bool, ample: bool,
                         now: int, idle: seq<ResourceId>, parked: seq<ResourceId>, m: Moves) {
    var c, free, d := CensusOf(db0.resources, pool), Undisturbed(db0, pool, spec, now), m.Counters();
    && Passed(db0, mid) && Passed(mid, db)
    && Grown(db0.resources, mid.resources, pool, m.undrained, m.started, m.created)
    && Shrunk(mid.resources, db.resources, pool, m.deletedParked, m.drained, m.deletedDraining, m.deletedFailed, m.parkedNow)
    && Distinct(idle) && LongestFirst(db0.resources, idle) && IdSet(idle) == Candidates(db0.resources, pool, spec.reclaim, now)
    && m.drained <= IdSet(idle) && m.parkedNow <= IdSet(idle)
    && IdSet(parked) == Tier(db0.resources, pool, Parked) && OldestFirst(db0.resources, parked)
    && (free ==> FirstOf(parked, Tier(mid.resources, pool, Parked), m.deletedParked) && Prefix(idle, m.drained))
    && GrowCounts(spec, c, budget, creating, ample, free, d) && d.undrained + d.started + d.created <= budget
    && ShrinkCounts(spec, c, budget - d.undrained - d.started - d.created, d.undrained, d.started, |IdSet(idle)|, free,
                    d.(undrained := 0, started := 0, created := 0))
  }

  lemma CycleEnds(db0: Fleet, mid: Fleet, db: Fleet, pool: PoolId, spec: PoolSpec, budget: nat, creating: bool, ample: bool,
                  now: int, idle: seq<ResourceId>, parked: seq<ResourceId>, m: Moves)
    requires Halves(db0, mid, db, pool, spec, budget, creating, ample, now, idle, parked, m)
    ensures Cycled(db0, db, pool, spec, budget, creating, ample, now, m.Counters(), m)
  {
    hide Tier, Members, Passed, Grown, Shrunk, Undisturbed, IdSet, Distinct, LongestFirst, LongestIdleFirst, Prefix, Candidates,
         Bounded, Accounts, Plan, Greedy, FirstOf, OldestFirst, LongestParkedFirst, CensusOf, GrowCounts, ShrinkCounts, Landed, FloorLost,
         WantsReady;
    var c, c', free, d := CensusOf(db0.resources, pool), CensusOf(db.resources, pool), Undisturbed(db0, pool, spec, now), m.Counters();
    PassedOn(db0, mid, db);
    CensusIs(db0.resources, pool);
    CandidatesReady(db0.resources, pool, spec.reclaim, now);
    SmallerSet(IdSet(idle), Tier(db0.resources, pool, Ready));
    ParkedSets(db0.resources, mid.resources, db.resources, pool, m);
    CycleCounts(db0.resources, mid.resources, db.resources, pool, m.undrained, m.started, m.created, m.deletedParked, m.drained,
                m.deletedDraining, m.deletedFailed, m.parkedNow);
    NoRowMovesTwice(db0.resources, mid.resources, db.resources, pool, m);
    HalvesBounded(spec, c, budget, creating, ample, free, |IdSet(idle)|, d);
    if c.Counted() <= spec.replicas { NoSurplusKeepsTheFloor(spec, c, budget, d, c'); }
    if free {
      PrefixIsLongest(db0.resources, idle, m.drained);
      FirstIsOldest(db0.resources, parked, Tier(mid.resources, pool, Parked), m.deletedParked, Tier(db.resources, pool, Parked));
      if ample {
        if WantsReady(spec, c) { AllCandidates(db0, pool, spec, now); }
        HalvesPlan(spec, c, budget, creating, |IdSet(idle)|, d);
        PlanIsGreedy(spec, c, budget, creating);
        ParkingFloorIff(spec, c, budget, creating, c');
      }
    }
  }

  /** One cycle of a pool. prepared is how many machines the providers would prepare; the listing is taken once and
      every write re-checks its row. */
  method RunOnce(cy: Cycle, pool: PoolId, paused: bool, spec: PoolSpec, parkable: bool, budget: nat, backoffUntil: int,
                 prepared: nat, now: int)
    returns (d: Delta, ghost m: Moves)
    requires Inv(cy.st.Db())
    modifies cy.st
    ensures Inv(cy.st.Db())
    ensures paused ==> d == NOTHING && cy.st.Db() == old(cy.st.Db())
    ensures !paused ==> Cycled(old(cy.st.Db()), cy.st.Db(), pool, spec, budget, now >= backoffUntil, prepared >= budget, now, d, m)
    ensures Framed(old(cy.st.resources), cy.st.resources, pool) && Blank(cy.st.resources, m.created, spec.className, pool, parkable, now)
    ensures EndsStamped(old(cy.st.resources), old(cy.st.leases)) ==> DrainsTheRested(old(cy.st.Db()), pool, spec, now, m)
  {
    hide Inv, Tier, Members, Passed, Grown, Shrunk, AllFree, Candidates, IdSet, Distinct, LongestFirst, CensusOf, Lists,
         Prefix, FirstOf, OldestFirst, Cycled, ShrinkCounts, Undisturbed, Upto, Least, Headroom;
    m := Moves({}, {}, {}, {}, {}, {}, {}, {});
    if paused {
      return NOTHING, m;
    }
    ghost var db0 := cy.st.Db();
    hide EndsStamped, DrainsTheRested, Framed, Blank;
    ghost var free := Undisturbed(db0, pool, spec, now);
    var creating := now >= backoffUntil;
    var rows := cy.st.resources;
    var c := CensusOf(rows, pool);
    var idle, draining, failed, parked := TakeRoll(rows, pool, spec.reclaim, now);
    CandidatesReady(rows, pool, spec.reclaim, now);
    if free {
      UndisturbedSays(db0, pool, spec, now, c, idle, draining, failed, parked);
      FreeSays(db0, spec, c, idle, draining, failed, parked);
    }

    ghost var u, s, b;
    var undrained, started, created;
    undrained, started, created, u, s, b := Grow(cy, pool, spec, parkable, c, draining, parked, budget, prepared, creating, free, now);

    ghost var db1 := cy.st.Db();
    ghost var grown := NOTHING.(undrained := undrained, started := started, created := created);
    assert GrowCounts(spec, c, budget, creating, prepared >= budget, free, grown);
    GrowBounded(spec, c, budget, creating, prepared >= budget, free, grown);
    if free { StaysFree(db0, db1, spec, c, idle, draining, failed, parked); }
    ListsHold(rows, db1.resources, pool, idle, draining, failed, parked, u, s, b);
    ghost var gone, dr, dd, df, pk;
    d, gone, dr, dd, df, pk := Shrink(cy, pool, spec, c, idle, draining, failed, parked, budget - undrained - started - created,
                                      undrained, started, rows, u, s, b, free, now);
    ghost var shrunk := d;
    d := d.(undrained := undrained, started := started, created := created);
    m := Moves(u, s, b, gone, dr, dd, df, pk);
    assert d == m.Counters() && shrunk == d.(undrained := 0, started := 0, created := 0);
    GrowCountsOf(spec, c, budget, creating, prepared >= budget, free, grown, d);
    FramedOn(db0.resources, db1.resources, cy.st.resources, pool);
    StaysBlank(db1.resources, cy.st.resources, b, spec.className, pool, parkable, now);
    CycleEnds(db0, db1, cy.st.Db(), pool, spec, budget, creating, prepared >= budget, now, idle, parked, m);
    if EndsStamped(db0.resources, db0.leases) { CycleDrainsTheRested(db0, cy.st.Db(), pool, spec, budget, creating, prepared >= budget, now, d, m); }
  }

  lemma GrowCountsOf(spec: PoolSpec, c: Census, budget: nat, creating: bool, ample: bool, free: bool, d: Delta, d': Delta)
    requires GrowCounts(spec, c, budget, creating, ample, free, d)
    requires d'.undrained == d.undrained && d'.started == d.started && d'.created == d.created
    ensures GrowCounts(spec, c, budget, creating, ample, free, d')
  {
    hide Upto, Least, Headroom;
  }

  // ---- Convergence of the fleet ----

  /** One undisturbed cycle of a quiet pool, joined to the convergence of the closed form: once its operations have
      completed the pool is closer to its target by at least the mutations made, and the cycle decides nothing exactly at
      the target. */
  lemma CycleApproachesTarget(db0: Fleet, db: Fleet, pool: PoolId, spec: PoolSpec, budget: nat, now: int, d: Delta, m: Moves)
    requires Cycled(db0, db, pool, spec, budget, true, true, now, d, m) && Undisturbed(db0, pool, spec, now)
    requires Converging(spec) && Quiet(CensusOf(db0.resources, pool)) && budget > 0
    ensures var c, e := CensusOf(db0.resources, pool), Settled(CensusOf(db.resources, pool));
            && Quiet(e) && Distance(spec, e) + d.Mutations() <= Distance(spec, c)
            && (d == NOTHING <==> Distance(spec, c) == 0)
  {
    hide Undisturbed, CensusOf, Landed, Bounded, Distance, Quiet, Settled, Plan, Greedy, Accounts, LongestIdleFirst, LongestParkedFirst, Passed;
    CycleConverges(spec, CensusOf(db0.resources, pool), budget, CensusOf(db.resources, pool));
  }

  /** What one round of a pool is: an undisturbed cycle with nothing holding back its creates, after which its operations
      complete and the next round begins. */
  ghost predicate Round(before: Fleet, next: Fleet, pool: PoolId, spec: PoolSpec, budget: nat) {
    exists after: Fleet, now: int, d: Delta, m: Moves ::
      && Cycled(before, after, pool, spec, budget, true, true, now, d, m) && Undisturbed(before, pool, spec, now)
      && CensusOf(next.resources, pool) == Settled(CensusOf(after.resources, pool))
  }

  lemma RoundApproaches(before: Fleet, next: Fleet, pool: PoolId, spec: PoolSpec, budget: nat)
    requires Round(before, next, pool, spec, budget)
    requires Converging(spec) && Quiet(CensusOf(before.resources, pool)) && budget > 0
    ensures Quiet(CensusOf(next.resources, pool))
    ensures Distance(spec, CensusOf(next.resources, pool))
            <= if Distance(spec, CensusOf(before.resources, pool)) > 0 then Distance(spec, CensusOf(before.resources, pool)) - 1 else 0
  {
    hide Cycled, Undisturbed, CensusOf, Distance, Quiet, Settled;
    var after: Fleet, now: int, d: Delta, m: Moves :|
      && Cycled(before, after, pool, spec, budget, true, true, now, d, m) && Undisturbed(before, pool, spec, now)
      && CensusOf(next.resources, pool) == Settled(CensusOf(after.resources, pool));
    RoundBy(before, after, next, pool, spec, budget, now, d, m);
  }

  lemma RoundBy(before: Fleet, after: Fleet, next: Fleet, pool: PoolId, spec: PoolSpec, budget: nat, now: int, d: Delta, m: Moves)
    requires Cycled(before, after, pool, spec, budget, true, true, now, d, m) && Undisturbed(before, pool, spec, now)
    requires CensusOf(next.resources, pool) == Settled(CensusOf(after.resources, pool))
    requires Converging(spec) && Quiet(CensusOf(before.resources, pool)) && budget > 0
    ensures Quiet(CensusOf(next.resources, pool))
    ensures Distance(spec, CensusOf(next.resources, pool))
            <= if Distance(spec, CensusOf(before.resources, pool)) > 0 then Distance(spec, CensusOf(before.resources, pool)) - 1 else 0
  {
    hide *;
    CycleApproachesTarget(before, after, pool, spec, budget, now, d, m);
    NothingIsNoMutation(d);
  }

  lemma NothingIsNoMutation(d: Delta)
    ensures d.Mutations() == 0 <==> d == NOTHING
  {
  }

  lemma {:induction false} RoundsApproach(fleets: seq<Fleet>, pool: PoolId, spec: PoolSpec, budget: nat, n: nat)
    requires n < |fleets| && forall k | 0 <= k < |fleets| - 1 :: Round(fleets[k], fleets[k + 1], pool, spec, budget)
    requires Converging(spec) && Quiet(CensusOf(fleets[0].resources, pool)) && budget > 0
    ensures Quiet(CensusOf(fleets[n].resources, pool))
    ensures var start := Distance(spec, CensusOf(fleets[0].resources, pool));
            Distance(spec, CensusOf(fleets[n].resources, pool)) <= if n <= start then start - n else 0
  {
    hide Round, CensusOf, Distance, Quiet;
    if n > 0 {
      RoundsApproach(fleets, pool, spec, budget, n - 1);
      RoundApproaches(fleets[n - 1], fleets[n], pool, spec, budget);
    }
  }

  /** A real pool converges: after as many undisturbed rounds as its distance it has exactly its replicas ready, and nothing
      draining or failed. */
  lemma FleetConverges(fleets: seq<Fleet>, pool: PoolId, spec: PoolSpec, budget: nat, n: nat)
    requires n < |fleets| && forall k | 0 <= k < |fleets| - 1 :: Round(fleets[k], fleets[k + 1], pool, spec, budget)
    requires Converging(spec) && Quiet(CensusOf(fleets[0].resources, pool)) && budget > 0
    requires n >= Distance(spec, CensusOf(fleets[0].resources, pool))
    ensures var rows := fleets[n].resources;
            |Tier(rows, pool, Ready)| == spec.replicas && Tier(rows, pool, Draining) == {} && Tier(rows, pool, Failed) == {}
  {
    hide Round, Distance, Quiet, CensusOf, Tier, Members;
    RoundsApproach(fleets, pool, spec, budget, n);
    AtTarget(fleets[n].resources, pool, spec);
  }

  lemma AtTarget(rows: Rows, pool: PoolId, spec: PoolSpec)
    requires Quiet(CensusOf(rows, pool)) && Distance(spec, CensusOf(rows, pool)) == 0
    ensures |Tier(rows, pool, Ready)| == spec.replicas && Tier(rows, pool, Draining) == {} && Tier(rows, pool, Failed) == {}
  {
    hide Tier, Members;
    NoDistanceLeft(spec, CensusOf(rows, pool));
  }
}
