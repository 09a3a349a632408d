/** The cost sweep over machines outside any pool: idle ones are parked or deleted inside their billing window, and queued
    work keeps the machines it could use. */
module Reclaim {
  import opened Basics
  import opened Phases
  import opened Capacity
  import opened Storage
  import opened Transactions
  import opened Invariants
  import opened PoolBoard
  import opened PoolCycle
  import PoolRun
  import Billing

  const COST_BUDGET: nat := 50

  /** What a class says about its idle machines. */
  datatype Rule = Rule(idleAfterMs: int, deleteAfterMs: int, park: bool)

  /** The classes with a reclaim rule, what the provider bills, and the effective termination buffer. */
  datatype Terms = Terms(rules: map<string, Rule>, billing: Billing.Policy, buffer: nat)

  // ---- Queued work ----

  /** The machine could host the acquisition once idle. */
  predicate Satisfies(db: Fleet, a: AcquisitionId, id: ResourceId) {
    && a in db.acquisitions && id in db.resources
    && var acq, r := db.acquisitions[a], db.resources[id];
    (acq.className == "" || acq.className == r.className) && Fits(r.capacity, map[], acq.want)
  }

  predicate InQueue(db: Fleet, a: AcquisitionId, now: int) {
    && a in db.acquisitions && db.acquisitions[a].state.AcqPending?
    && !(db.acquisitions[a].maxWaitMs > 0 && now > db.acquisitions[a].createdAt + db.acquisitions[a].maxWaitMs)
  }

  /** The pending acquisitions inside their deadline. */
  method Queued(db: Fleet, now: int) returns (queue: seq<AcquisitionId>)
    ensures forall a :: a in queue <==> InQueue(db, a, now)
  {
    queue := [];
    var todo := db.acquisitions.Keys;
    while todo != {}
      invariant todo <= db.acquisitions.Keys
      invariant forall a :: a in queue <==> a !in todo && InQueue(db, a, now)
      decreases todo
    {
      var a :| a in todo;
      todo := todo - {a};
      if InQueue(db, a, now) {
        queue := queue + [a];
      }
    }
  }

  /** The first unmatched queued acquisition that could use the machine keeps it. */
  method ClaimQueued(db: Fleet, queue: seq<AcquisitionId>, matched: set<AcquisitionId>, id: ResourceId)
    returns (claim: Option<AcquisitionId>)
    ensures claim.Some? ==> claim.value in queue && claim.value !in matched && Satisfies(db, claim.value, id)
    ensures claim.None? ==> forall a <- queue :: Satisfies(db, a, id) ==> a in matched
  {
    for i := 0 to |queue|
      invariant forall j | 0 <= j < i :: Satisfies(db, queue[j], id) ==> queue[j] in matched
    {
      if queue[i] !in matched && Satisfies(db, queue[i], id) {
        return Some(queue[i]);
      }
    }
    return None;
  }

  /** Another machine of the same class that serves and is free. */
  predicate CouldAbsorb(db: Fleet, o: ResourceId, id: ResourceId) {
    && o != id && id in db.resources && Live(db.resources, o)
    && db.resources[o].phase.Ready? && db.resources[o].ownership.OwnershipManaged?
    && db.resources[id].className in {"", db.resources[o].className}
  }

  /** A cost delete is blocked exactly when the queued acquisitions the machine could serve outnumber the other ready machines
      of its class; the queue it counts is the queue the sweep serves. */
  lemma BlockedIffOutnumbered(db: Fleet, id: ResourceId, now: int)
    ensures QueueBlocks(db, id, now)
            <==> |set a | a in db.acquisitions && InQueue(db, a, now) && Satisfies(db, a, id)|
                 > |set o | o in db.resources && CouldAbsorb(db, o, id)|
    ensures forall a :: a in db.acquisitions && id in db.resources ==>
              (Satisfies(db, a, id) <==>
                 && db.acquisitions[a].className in {"", db.resources[id].className}
                 && forall dim <- db.acquisitions[a].want.Keys ::
                      dim in db.resources[id].capacity && db.acquisitions[a].want[dim] <= db.resources[id].capacity[dim])
  {
    assert (set a | a in db.acquisitions && InQueue(db, a, now) && Satisfies(db, a, id)) == Queue(db, id, now);
    assert (set o | o in db.resources && CouldAbsorb(db, o, id)) == Spares(db, id);
  }

  // ---- Why a machine may go ----

  predicate Idle(r: Resource, rule: Rule, now: int) {
    rule.idleAfterMs > 0 && now - IdleSince(r) >= rule.idleAfterMs
  }

  predicate ParkedLongEnough(r: Resource, rule: Rule, now: int) {
    rule.deleteAfterMs > 0 && r.parkedAt.Some? && now - r.parkedAt.value >= rule.deleteAfterMs
  }

  predicate HasBoundary(p: Billing.Policy, created: int, now: int) {
    p.increment > 0 || Billing.Elapsed(created, now) < p.minimum
  }

  ghost predicate IsBoundary(r: Resource, terms: Terms, now: int, boundary: int) {
    boundary > r.createdAt && Billing.NextRise(Billing.Elapsed(r.createdAt, now), boundary - r.createdAt, terms.billing)
  }

  /** Now lies in the termination window before the next boundary, or there is no boundary. */
  ghost predicate InWindow(r: Resource, terms: Terms, now: int) {
    HasBoundary(terms.billing, r.createdAt, now) ==>
      exists boundary :: IsBoundary(r, terms, now, boundary) && Billing.WindowAt(boundary, terms.buffer, 0).Decide(now).Terminate?
  }

  /** Managed, unprotected and in no pool; a drained machine goes at once, a parked one when it was parked for long, an
      idle one inside its window. */
  ghost predicate Justified(r: Resource, terms: Terms, now: int) {
    && r.ownership.OwnershipManaged? && !r.deleteProtected && r.pool.None?
    && (r.phase.Draining?
        || (r.className in terms.rules && r.phase.Parked? && ParkedLongEnough(r, terms.rules[r.className], now))
        || (r.className in terms.rules && r.phase.Ready? && Idle(r, terms.rules[r.className], now) && InWindow(r, terms, now)))
  }

  /** Now lies in the first half of the buffer before the next instant at which the amount paid rises, if there is one. */
  ghost predicate LastStretch(r: Resource, terms: Terms, now: int) {
    HasBoundary(terms.billing, r.createdAt, now) ==>
      exists boundary :: IsBoundary(r, terms, now, boundary) && boundary - terms.buffer <= now <= boundary - terms.buffer / 2
  }

  lemma WindowIsLastStretch(r: Resource, terms: Terms, now: int)
    ensures InWindow(r, terms, now) <==> LastStretch(r, terms, now)
  {
    hide IsBoundary, HasBoundary;
    if HasBoundary(terms.billing, r.createdAt, now) {
      if InWindow(r, terms, now) {
        var b :| IsBoundary(r, terms, now, b) && Billing.WindowAt(b, terms.buffer, 0).Decide(now).Terminate?;
        assert b - terms.buffer <= now <= b - terms.buffer / 2;
      }
      if LastStretch(r, terms, now) {
        var b :| IsBoundary(r, terms, now, b) && b - terms.buffer <= now <= b - terms.buffer / 2;
        assert Billing.WindowAt(b, terms.buffer, 0).Decide(now).Terminate?;
      }
    }
  }

  /** The same on the leases themselves: a ready machine goes when it became ready, and ended every lease it ever had, as long
      ago as its class asks. */
  ghost predicate MayGo(db: Fleet, x: ResourceId, terms: Terms, now: int) {
    && Live(db.resources, x)
    && var r := db.resources[x];
    && r.ownership.OwnershipManaged? && !r.deleteProtected && r.pool.None?
    && (r.phase.Draining? ||
        (r.className in terms.rules
         && var rule := terms.rules[r.className];
         || (r.phase.Parked? && r.parkedAt.Some? && rule.deleteAfterMs > 0 && now - r.parkedAt.value >= rule.deleteAfterMs)
         || (r.phase.Ready? && rule.idleAfterMs > 0 && Rested(r, x, db.leases, rule.idleAfterMs, now) && LastStretch(r, terms, now))))
  }

  lemma JustifiedIffMayGo(db: Fleet, x: ResourceId, terms: Terms, now: int)
    requires EndsStamped(db.resources, db.leases) && Live(db.resources, x)
    ensures Justified(db.resources[x], terms, now) <==> MayGo(db, x, terms, now)
  {
    var r := db.resources[x];
    assert x in db.resources.Keys;
    if r.className in terms.rules { IdleIffRested(r, x, db.leases, terms.rules[r.className].idleAfterMs, now); }
    WindowIsLastStretch(r, terms, now);
    hide EndsStamped, InWindow, LastStretch, Rested;
  }

  /** Where a machine goes: stopped when its class parks idle machines and it can be parked, deleted otherwise. */
  function LeftRow(r: Resource, terms: Terms, now: int): Resource {
    if r.phase.Ready? && r.className in terms.rules && terms.rules[r.className].park && r.parkable then r.(phase := Parking, updatedAt := now)
    else if r.externalId.Some? then r.(phase := Deleting, updatedAt := now)
    else r.(deletedAt := Some(now), updatedAt := now)
  }

  ghost predicate Left(db0: Fleet, db: Fleet, terms: Terms, moved: set<ResourceId>, now: int) {
    forall x <- moved :: x in db0.resources && x in db.resources && db.resources[x] == LeftRow(db0.resources[x], terms, now)
  }

  /** When every idle clock is true, the machines that went are ones that may go, and one that may go and stayed has an excuse. */
  ghost predicate RightOnesWent(db0: Fleet, db: Fleet, terms: Terms, claims: map<AcquisitionId, ResourceId>, moved: set<ResourceId>,
                                drains: int, costs: int, now: int) {
    && (forall x <- moved :: MayGo(db0, x, terms, now))
    && forall x <- db0.resources.Keys - moved ::
         MayGo(db0, x, terms, now) && Clear(db0, x) && (ParksIt(db0.resources[x], terms) ==> Switchable(db0, x)) ==>
           Excused(db, x, db0.resources[x], terms, claims, drains, costs, now)
  }

  lemma WentRight(db0: Fleet, db: Fleet, terms: Terms, queue: seq<AcquisitionId>, claims: map<AcquisitionId, ResourceId>,
                  moved: set<ResourceId>, drains: int, costs: int, now: int)
    requires EndsStamped(db0.resources, db0.leases) && Gone(db0, terms, queue, claims, moved, now)
    requires AllExcused(db0, db, terms, claims, db0.resources.Keys, moved, drains, costs, now)
    ensures RightOnesWent(db0, db, terms, claims, moved, drains, costs, now)
  {
    hide EndsStamped, Excused, InWindow, LastStretch, Satisfies;
    forall x <- db0.resources.Keys | Live(db0.resources, x)
      ensures Justified(db0.resources[x], terms, now) <==> MayGo(db0, x, terms, now)
    {
      JustifiedIffMayGo(db0, x, terms, now);
    }
    forall x <- db0.resources.Keys - moved | MayGo(db0, x, terms, now) && Clear(db0, x) && (ParksIt(db0.resources[x], terms) ==> Switchable(db0, x))
      ensures Excused(db, x, db0.resources[x], terms, claims, drains, costs, now)
    {
      assert Due(db0, x, terms, now);
    }
  }

  predicate Listed(r: Resource) {
    && r.deletedAt.None? && r.pool.None? && r.ownership.OwnershipManaged?
    && (r.phase.Ready? || r.phase.Draining? || r.phase.Parked?)
  }

  method WindowOpen(r: Resource, terms: Terms, now: int) returns (open: bool)
    ensures open <==> InWindow(r, terms, now)
  {
    var w, ok := Billing.TerminationWindow(r.createdAt, terms.billing, now, terms.buffer, 0);
    if !ok {
      return true;
    }
    open := w.Decide(now).Terminate?;
    assert IsBoundary(r, terms, now, w.boundary);
    forall boundary | IsBoundary(r, terms, now, boundary)
      ensures boundary == w.boundary
    {
      Billing.NextRiseUnique(Billing.Elapsed(r.createdAt, now), boundary - r.createdAt, w.boundary - r.createdAt, terms.billing);
    }
  }

  // ---- The sweep ----

  /** The class parks its idle machines and this one can be parked. */
  predicate ParksIt(r: Resource, terms: Terms) {
    r.phase.Ready? && r.className in terms.rules && terms.rules[r.className].park && r.parkable
  }

  /** The gates the transaction re-checks: of a delete, of a stop, and the queued work a cost delete must leave room for. */
  predicate GatesPass(db: Fleet, id: ResourceId, r: Resource, terms: Terms, now: int) {
    Clear(db, id) && (r.phase.Draining? || if ParksIt(r, terms) then Switchable(db, id) else !QueueBlocks(db, id, now))
  }

  /** Every queued acquisition the machine could serve keeps another one. */
  predicate Unclaimed(db: Fleet, id: ResourceId, queue: seq<AcquisitionId>, matched: set<AcquisitionId>) {
    forall a <- queue :: Satisfies(db, a, id) ==> a in matched
  }

  /** One listed machine; the caller counts what it did against the budget it came from. */
  method Consider(cy: Cycle, id: ResourceId, r: Resource, terms: Terms, queue: seq<AcquisitionId>, matched: set<AcquisitionId>,
                  drains: int, costs: int, now: int)
    returns (acted: bool, claim: Option<AcquisitionId>)
    requires Inv(cy.st.Db()) && id in cy.st.resources && cy.st.resources[id] == r && Listed(r)
    modifies cy.st
    ensures Inv(cy.st.Db()) && cy.st.leases == old(cy.st.leases) && cy.st.acquisitions == old(cy.st.acquisitions)
    ensures if acted then id in cy.st.resources && cy.st.resources == old(cy.st.resources)[id := cy.st.resources[id]] && SameTraits(r, cy.st.resources[id])
            else cy.st.resources == old(cy.st.resources)
    ensures acted <==>
      && Justified(r, terms, now) && (if r.phase.Draining? then drains > 0 else costs > 0)
      && GatesPass(old(cy.st.Db()), id, r, terms, now) && (r.phase.Draining? || Unclaimed(old(cy.st.Db()), id, queue, matched))
    ensures acted ==> claim.None? && !InPhase(cy.st.resources, id, Ready) && cy.st.resources[id] == LeftRow(r, terms, now)
    ensures claim.Some? ==> claim.value in queue && claim.value !in matched && Satisfies(old(cy.st.Db()), claim.value, id)
    ensures !acted && !r.phase.Draining? && costs > 0 && Justified(r, terms, now) && GatesPass(old(cy.st.Db()), id, r, terms, now) ==> claim.Some?
  {
    hide Inv, Idle, ParkedLongEnough, InWindow, Satisfies, Switchable, QueueBlocks, NothingQueued;
    acted, claim := false, None;
    if r.phase.Draining? {
      if drains > 0 {
        acted := cy.DeleteOne(id, now);
      }
      return;
    }
    if r.className !in terms.rules || r.deleteProtected || costs <= 0 {
      return;
    }
    var rule := terms.rules[r.className];
    if r.phase.Parked? {
      if !ParkedLongEnough(r, rule, now) {
        return;
      }
      claim := ClaimQueued(cy.st.Db(), queue, matched, id);
      if claim.None? {
        acted := cy.ReclaimOne(id, Parked, now);
      }
      return;
    }
    if !Idle(r, rule, now) {
      return;
    }
    claim := ClaimQueued(cy.st.Db(), queue, matched, id);
    if claim.Some? {
      return;
    }
    var open := WindowOpen(r, terms, now);
    if !open {
      return;
    }
    if rule.park && r.parkable {
      acted := cy.StopOne(id, now);
    } else {
      acted := cy.ReclaimOne(id, Ready, now);
    }
  }

  /** Who keeps which machine: every claim is a queued acquisition the machine could serve, and no machine serves two. */
  ghost predicate Claims(db: Fleet, queue: seq<AcquisitionId>, claims: map<AcquisitionId, ResourceId>, seen: set<ResourceId>, moved: set<ResourceId>) {
    && (forall a <- claims.Keys :: a in queue && claims[a] in seen && claims[a] !in moved && Satisfies(db, a, claims[a]))
    && forall a <- claims.Keys, b <- claims.Keys :: claims[a] == claims[b] ==> a == b
  }

  /** The machines that went, and why each could. */
  ghost predicate Gone(db: Fleet, terms: Terms, queue: seq<AcquisitionId>, claims: map<AcquisitionId, ResourceId>, moved: set<ResourceId>, now: int) {
    forall x <- moved ::
      && Live(db.resources, x) && Justified(db.resources[x], terms, now)
      && (!db.resources[x].phase.Draining? ==> forall a <- queue :: Satisfies(db, a, x) ==> a in claims)
  }

  /** Every other row is what it was. */
  predicate Untouched(db0: Fleet, db: Fleet, moved: set<ResourceId>) {
    && db.leases == db0.leases && db.acquisitions == db0.acquisitions
    && forall x <- db0.resources.Keys ::
         x in db.resources && SameTraits(db0.resources[x], db.resources[x]) && (x !in moved ==> db.resources[x] == db0.resources[x])
  }

  lemma ClaimMore(db: Fleet, queue: seq<AcquisitionId>, claims: map<AcquisitionId, ResourceId>, seen: set<ResourceId>, moved: set<ResourceId>,
                  a: AcquisitionId, id: ResourceId)
    requires Claims(db, queue, claims, seen, moved) && id !in seen && id !in moved && a in queue && a !in claims
    requires Satisfies(db, a, id)
    ensures Claims(db, queue, claims[a := id], seen + {id}, moved)
  {
    hide Satisfies;
  }

  lemma ClaimsStay(db: Fleet, queue: seq<AcquisitionId>, claims: map<AcquisitionId, ResourceId>, seen: set<ResourceId>, moved: set<ResourceId>,
                   id: ResourceId)
    requires Claims(db, queue, claims, seen, moved) && id !in seen
    ensures Claims(db, queue, claims, seen + {id}, moved) && Claims(db, queue, claims, seen + {id}, moved + {id})
  {
    hide Satisfies;
  }

  lemma GoneMore(db: Fleet, terms: Terms, queue: seq<AcquisitionId>, claims: map<AcquisitionId, ResourceId>, moved: set<ResourceId>, now: int,
                 id: ResourceId)
    requires Gone(db, terms, queue, claims, moved, now) && Live(db.resources, id) && Justified(db.resources[id], terms, now)
    requires !db.resources[id].phase.Draining? ==> forall a <- queue :: Satisfies(db, a, id) ==> a in claims
    ensures Gone(db, terms, queue, claims, moved + {id}, now)
  {
    hide Satisfies, Justified;
  }

  lemma GoneStays(db: Fleet, terms: Terms, queue: seq<AcquisitionId>, claims: map<AcquisitionId, ResourceId>, moved: set<ResourceId>, now: int,
                  a: AcquisitionId, id: ResourceId)
    requires Gone(db, terms, queue, claims, moved, now)
    ensures Gone(db, terms, queue, claims[a := id], moved, now)
  {
    hide Satisfies, Justified;
  }

  lemma TouchOne(db0: Fleet, mid: Fleet, db: Fleet, moved: set<ResourceId>, id: ResourceId)
    requires Untouched(db0, mid, moved) && id in db0.resources && id !in moved
    requires db.leases == mid.leases && db.acquisitions == mid.acquisitions
    requires id in db.resources && db.resources == mid.resources[id := db.resources[id]] && SameTraits(mid.resources[id], db.resources[id])
    ensures Untouched(db0, db, moved + {id})
  {
  }

  lemma LeftMore(db0: Fleet, mid: Fleet, db: Fleet, terms: Terms, moved: set<ResourceId>, now: int, id: ResourceId)
    requires Left(db0, mid, terms, moved, now) && id in db0.resources && id !in moved && id in db.resources
    requires db.resources == mid.resources[id := db.resources[id]] && db.resources[id] == LeftRow(db0.resources[id], terms, now)
    ensures Left(db0, db, terms, moved + {id}, now)
  {
    hide LeftRow;
  }

  lemma LeftStays(db0: Fleet, mid: Fleet, db: Fleet, terms: Terms, moved: set<ResourceId>, now: int)
    requires Left(db0, mid, terms, moved, now) && db.resources == mid.resources
    ensures Left(db0, db, terms, moved, now)
  {
    hide LeftRow;
  }

  lemma SameTable(db0: Fleet, mid: Fleet, db: Fleet, moved: set<ResourceId>)
    requires Untouched(db0, mid, moved) && db.leases == mid.leases && db.acquisitions == mid.acquisitions
    requires db.resources == mid.resources
    ensures Untouched(db0, db, moved)
  {
  }

  /** Satisfies looks at the row and the acquisition only. */
  lemma SatisfiesStays(db0: Fleet, db: Fleet, moved: set<ResourceId>, id: ResourceId)
    requires Untouched(db0, db, moved) && id in db0.resources && id !in moved
    ensures forall a :: Satisfies(db, a, id) <==> Satisfies(db0, a, id)
  {
  }

  // ---- A due machine does go ----

  /** Due, and past every gate that does not depend on the queue. */
  ghost predicate Due(db: Fleet, x: ResourceId, terms: Terms, now: int) {
    && x in db.resources && Listed(db.resources[x]) && Justified(db.resources[x], terms, now)
    && Clear(db, x) && (ParksIt(db.resources[x], terms) ==> Switchable(db, x))
  }

  /** Why a due machine stays: its budget is used up, an acquisition keeps it, or queued work outnumbers the other machines. */
  ghost predicate Excused(db: Fleet, x: ResourceId, r: Resource, terms: Terms, claims: map<AcquisitionId, ResourceId>, drains: int,
                          costs: int, now: int) {
    if r.phase.Draining? then drains <= 0
    else costs <= 0 || Kept(claims, x) || (!ParksIt(r, terms) && QueueBlocks(db, x, now))
  }

  ghost predicate Kept(claims: map<AcquisitionId, ResourceId>, x: ResourceId) {
    exists a :: a in claims && claims[a] == x
  }

  ghost predicate AllExcused(db0: Fleet, db: Fleet, terms: Terms, claims: map<AcquisitionId, ResourceId>, seen: set<ResourceId>,
                             moved: set<ResourceId>, drains: int, costs: int, now: int) {
    forall x <- seen - moved :: Due(db0, x, terms, now) ==> Excused(db, x, db0.resources[x], terms, claims, drains, costs, now)
  }

  /** The drained machines among those that went. */
  function DrainedOf(db: Fleet, moved: set<ResourceId>): set<ResourceId> {
    set x | x in moved && x in db.resources && db.resources[x].phase.Draining?
  }

  lemma DrainedMore(db: Fleet, moved: set<ResourceId>, id: ResourceId)
    requires id in db.resources && id !in moved
    ensures |DrainedOf(db, moved + {id})| == |DrainedOf(db, moved)| + if db.resources[id].phase.Draining? then 1 else 0
  {
    assert DrainedOf(db, moved + {id}) == if db.resources[id].phase.Draining? then DrainedOf(db, moved) + {id} else DrainedOf(db, moved);
  }

  /** A sweep step makes no machine ready, so it only takes spares away. */
  lemma QueueBlocksOn(mid: Fleet, db: Fleet, id: ResourceId, x: ResourceId, now: int)
    requires db.acquisitions == mid.acquisitions && x in mid.resources && x in db.resources && db.resources[x] == mid.resources[x]
    requires db.resources == mid.resources || (id in db.resources && db.resources == mid.resources[id := db.resources[id]] && !InPhase(db.resources, id, Ready))
    ensures QueueBlocks(mid, x, now) ==> QueueBlocks(db, x, now)
  {
    assert Queue(db, x, now) == Queue(mid, x, now);
    SmallerSet(Spares(db, x), Spares(mid, x));
  }

  lemma ExcusesStay(db0: Fleet, mid: Fleet, db: Fleet, terms: Terms, claims: map<AcquisitionId, ResourceId>,
                    claims': map<AcquisitionId, ResourceId>, seen: set<ResourceId>, moved: set<ResourceId>, moved': set<ResourceId>,
                    id: ResourceId, drains: int, drains': int, costs: int, costs': int, now: int)
    requires AllExcused(db0, mid, terms, claims, seen, moved, drains, costs, now)
    requires Untouched(db0, mid, moved) && Untouched(db0, db, moved') && moved <= moved' && drains' <= drains && costs' <= costs
    requires forall a <- claims.Keys :: a in claims' && claims'[a] == claims[a]
    requires db.resources == mid.resources || (id in db.resources && db.resources == mid.resources[id := db.resources[id]] && !InPhase(db.resources, id, Ready))
    ensures AllExcused(db0, db, terms, claims', seen, moved', drains', costs', now)
  {
    forall x | x in seen - moved' && Due(db0, x, terms, now)
      ensures Excused(db, x, db0.resources[x], terms, claims', drains', costs', now)
    {
      RowNow(db0, mid, moved, x);
      RowNow(db0, db, moved', x);
      SameQueue(db0, mid, db, moved, moved');
      QueueBlocksOn(mid, db, id, x, now);
      ExcuseStays(mid, db, x, db0.resources[x], terms, claims, claims', drains, drains', costs, costs', now);
    }
  }

  lemma SameQueue(db0: Fleet, mid: Fleet, db: Fleet, moved: set<ResourceId>, moved': set<ResourceId>)
    requires Untouched(db0, mid, moved) && Untouched(db0, db, moved')
    ensures db.acquisitions == mid.acquisitions && db.leases == mid.leases
  {
  }

  lemma ExcuseStays(mid: Fleet, db: Fleet, x: ResourceId, r: Resource, terms: Terms, claims: map<AcquisitionId, ResourceId>,
                    claims': map<AcquisitionId, ResourceId>, drains: int, drains': int, costs: int, costs': int, now: int)
    requires Excused(mid, x, r, terms, claims, drains, costs, now) && drains' <= drains && costs' <= costs
    requires forall a <- claims.Keys :: a in claims' && claims'[a] == claims[a]
    requires QueueBlocks(mid, x, now) ==> QueueBlocks(db, x, now)
    ensures Excused(db, x, r, terms, claims', drains', costs', now)
  {
    hide QueueBlocks, ParksIt;
    if Kept(claims, x) {
      var a :| a in claims && claims[a] == x;
      assert a in claims.Keys && a in claims' && claims'[a] == x;
    }
  }

  /** The row just considered joins the excused when it stayed. */
  lemma ExcuseMore(db0: Fleet, db: Fleet, terms: Terms, claims: map<AcquisitionId, ResourceId>, seen: set<ResourceId>,
                   moved: set<ResourceId>, drains: int, costs: int, now: int, id: ResourceId)
    requires AllExcused(db0, db, terms, claims, seen, moved, drains, costs, now)
    requires id in moved || (Due(db0, id, terms, now) ==> Excused(db, id, db0.resources[id], terms, claims, drains, costs, now))
    ensures AllExcused(db0, db, terms, claims, seen + {id}, moved, drains, costs, now)
  {
    hide Due, Excused;
  }

  /** A due row still passes the same gates when its turn comes. */
  lemma DueNow(db0: Fleet, mid: Fleet, moved: set<ResourceId>, id: ResourceId, terms: Terms, now: int)
    requires Untouched(db0, mid, moved) && id !in moved && Due(db0, id, terms, now)
    ensures id in mid.resources && Justified(db0.resources[id], terms, now)
    ensures GatesPass(mid, id, db0.resources[id], terms, now) || (!ParksIt(db0.resources[id], terms) && QueueBlocks(mid, id, now))
    ensures db0.resources[id].phase.Draining? ==> GatesPass(mid, id, db0.resources[id], terms, now)
  {
    hide Justified, QueueBlocks;
  }

  lemma WhyItStayed(mid: Fleet, db: Fleet, id: ResourceId, r: Resource, terms: Terms, claims: map<AcquisitionId, ResourceId>,
                    drains: int, costs: int, now: int)
    requires db.resources == mid.resources && db.acquisitions == mid.acquisitions
    requires if r.phase.Draining? then drains <= 0 else costs <= 0 || Kept(claims, id) || (!ParksIt(r, terms) && QueueBlocks(mid, id, now))
    ensures Excused(db, id, r, terms, claims, drains, costs, now)
  {
    if id in mid.resources { QueueBlocksOn(mid, db, id, id, now); }
  }

  lemma OnlyListedAreDue(db0: Fleet, db: Fleet, terms: Terms, claims: map<AcquisitionId, ResourceId>, listed: set<ResourceId>,
                         moved: set<ResourceId>, drains: int, costs: int, now: int)
    requires AllExcused(db0, db, terms, claims, listed, moved, drains, costs, now)
    requires listed == set id | id in db0.resources && Listed(db0.resources[id])
    ensures AllExcused(db0, db, terms, claims, db0.resources.Keys, moved, drains, costs, now)
  {
    hide Excused, Justified, Clear, Switchable;
  }

  /** The sweep in its middle: what it has seen, moved and promised so far. */
  ghost predicate Midway(db0: Fleet, db: Fleet, terms: Terms, queue: seq<AcquisitionId>, claims: map<AcquisitionId, ResourceId>,
                         seen: set<ResourceId>, moved: set<ResourceId>, budget: int, costs: int, maxMutations: nat, now: int) {
    && Untouched(db0, db, moved) && Left(db0, db, terms, moved, now) && moved <= seen <= db0.resources.Keys
    && Claims(db0, queue, claims, seen, moved) && Gone(db0, terms, queue, claims, moved, now)
    && AllExcused(db0, db, terms, claims, seen, moved, budget, costs, now)
    && 0 <= budget == maxMutations - |DrainedOf(db0, moved)| && 0 <= costs == COST_BUDGET - (|moved| - |DrainedOf(db0, moved)|)
  }

  /** A machine goes. */
  lemma GoesOn(db0: Fleet, mid: Fleet, db: Fleet, terms: Terms, queue: seq<AcquisitionId>, claims: map<AcquisitionId, ResourceId>,
               seen: set<ResourceId>, moved: set<ResourceId>, budget: int, costs: int, maxMutations: nat, now: int, id: ResourceId)
    requires Midway(db0, mid, terms, queue, claims, seen, moved, budget, costs, maxMutations, now)
    requires id in db0.resources && id !in seen && Listed(db0.resources[id]) && Justified(db0.resources[id], terms, now)
    requires if db0.resources[id].phase.Draining? then budget > 0 else costs > 0 && Unclaimed(db0, id, queue, claims.Keys)
    requires db.leases == mid.leases && db.acquisitions == mid.acquisitions && id in mid.resources && id in db.resources
    requires db.resources == mid.resources[id := db.resources[id]] && SameTraits(mid.resources[id], db.resources[id])
    requires !InPhase(db.resources, id, Ready) && db.resources[id] == LeftRow(db0.resources[id], terms, now)
    ensures var drain := db0.resources[id].phase.Draining?;
            Midway(db0, db, terms, queue, claims, seen + {id}, moved + {id}, if drain then budget - 1 else budget,
                   if drain then costs else costs - 1, maxMutations, now)
  {
    hide Untouched, Left, LeftRow, Gone, Claims, Justified, Satisfies, AllExcused, DrainedOf, Due, Excused;
    var drain := db0.resources[id].phase.Draining?;
    var budget', costs' := if drain then budget - 1 else budget, if drain then costs else costs - 1;
    TouchOne(db0, mid, db, moved, id);
    LeftMore(db0, mid, db, terms, moved, now, id);
    ClaimsStay(db0, queue, claims, seen, moved, id);
    GoneMore(db0, terms, queue, claims, moved, now, id);
    DrainedMore(db0, moved, id);
    ExcusesStay(db0, mid, db, terms, claims, claims, seen, moved, moved + {id}, id, budget, budget', costs, costs', now);
    ExcuseMore(db0, db, terms, claims, seen, moved + {id}, budget', costs', now, id);
  }

  /** A machine stays, kept by an acquisition or not. */
  lemma StaysOn(db0: Fleet, mid: Fleet, db: Fleet, terms: Terms, queue: seq<AcquisitionId>, claims: map<AcquisitionId, ResourceId>,
                claim: Option<AcquisitionId>, seen: set<ResourceId>, moved: set<ResourceId>, budget: int, costs: int,
                maxMutations: nat, now: int, id: ResourceId)
    requires Midway(db0, mid, terms, queue, claims, seen, moved, budget, costs, maxMutations, now)
    requires id in db0.resources && id !in seen
    requires db.leases == mid.leases && db.acquisitions == mid.acquisitions && db.resources == mid.resources
    requires claim.Some? ==> claim.value in queue && claim.value !in claims && Satisfies(db0, claim.value, id)
    requires var r := db0.resources[id];
             Due(db0, id, terms, now) ==>
               if r.phase.Draining? then budget <= 0 else costs <= 0 || claim.Some? || (!ParksIt(r, terms) && QueueBlocks(mid, id, now))
    ensures Midway(db0, db, terms, queue, if claim.Some? then claims[claim.value := id] else claims, seen + {id}, moved, budget, costs,
                   maxMutations, now)
  {
    hide Untouched, Left, LeftRow, Gone, Claims, Justified, Satisfies, AllExcused, DrainedOf, Due, Excused, QueueBlocks, ParksIt;
    var claims' := if claim.Some? then claims[claim.value := id] else claims;
    SameTable(db0, mid, db, moved);
    LeftStays(db0, mid, db, terms, moved, now);
    ClaimsStay(db0, queue, claims, seen, moved, id);
    if claim.Some? {
      ClaimMore(db0, queue, claims, seen, moved, claim.value, id);
      GoneStays(db0, terms, queue, claims, moved, now, claim.value, id);
      assert claims'[claim.value] == id && Kept(claims', id);
    }
    ExcusesStay(db0, mid, db, terms, claims, claims', seen, moved, moved, id, budget, budget, costs, costs, now);
    if Due(db0, id, terms, now) { WhyItStayed(mid, db, id, db0.resources[id], terms, claims', budget, costs, now); }
    ExcuseMore(db0, db, terms, claims', seen, moved, budget, costs, now, id);
  }

  /** One row's turn, counted against its budget. */
  method TakeTurn(cy: Cycle, id: ResourceId, r: Resource, terms: Terms, queue: seq<AcquisitionId>, matched: set<AcquisitionId>,
                  drains: nat, costs: nat, now: int, ghost db0: Fleet, ghost claims: map<AcquisitionId, ResourceId>,
                  ghost seen: set<ResourceId>, ghost moved: set<ResourceId>, ghost maxMutations: nat)
    returns (acted: bool, matched': set<AcquisitionId>, drains': nat, costs': nat, ghost claims': map<AcquisitionId, ResourceId>,
             ghost moved': set<ResourceId>)
    requires Inv(cy.st.Db()) && matched == claims.Keys && id in db0.resources && id !in seen && db0.resources[id] == r && Listed(r)
    requires Midway(db0, cy.st.Db(), terms, queue, claims, seen, moved, drains, costs, maxMutations, now)
    modifies cy.st
    ensures Inv(cy.st.Db()) && matched' == claims'.Keys && |moved'| == |moved| + if acted then 1 else 0
    ensures Midway(db0, cy.st.Db(), terms, queue, claims', seen + {id}, moved', drains', costs', maxMutations, now)
  {
    hide Inv, Midway, LeftRow, Justified, Satisfies, SameTraits, Due, GatesPass, ParksIt, QueueBlocks, Unclaimed;
    matched', drains', costs', claims', moved' := matched, drains, costs, claims, moved;
    ghost var mid := cy.st.Db();
    Turn(db0, mid, terms, queue, claims, seen, moved, drains, costs, maxMutations, now, id);
    var claim;
    acted, claim := Consider(cy, id, r, terms, queue, matched, drains, costs, now);
    if acted {
      GoesOn(db0, mid, cy.st.Db(), terms, queue, claims, seen, moved, drains, costs, maxMutations, now, id);
      moved' := moved + {id};
      if r.phase.Draining? {
        drains' := drains - 1;
      } else {
        costs' := costs - 1;
      }
    } else {
      StaysOn(db0, mid, cy.st.Db(), terms, queue, claims, claim, seen, moved, drains, costs, maxMutations, now, id);
      if claim.Some? {
        claims' := claims[claim.value := id];
        matched' := matched + {claim.value};
      }
    }
  }

  /** The sweep: a machine goes only when it is due inside its billing window, and only when every queued acquisition it
      could have served keeps another machine, which stays as it was. And a due machine does go, unless its budget is used
      up, an acquisition keeps it, or queued work outnumbers the other ready machines. */
  method ReclaimPoolless(cy: Cycle, terms: Terms, maxMutations: nat, now: int)
    returns (n: nat, ghost moved: set<ResourceId>, ghost queue: seq<AcquisitionId>, ghost claims: map<AcquisitionId, ResourceId>)
    requires Inv(cy.st.Db())
    modifies cy.st
    ensures Inv(cy.st.Db()) && Untouched(old(cy.st.Db()), cy.st.Db(), moved)
    ensures forall a :: a in queue <==> InQueue(old(cy.st.Db()), a, now)
    ensures Gone(old(cy.st.Db()), terms, queue, claims, moved, now)
    ensures Claims(old(cy.st.Db()), queue, claims, old(cy.st.resources).Keys, moved)
    ensures Left(old(cy.st.Db()), cy.st.Db(), terms, moved, now)
    ensures EndsStamped(old(cy.st.resources), old(cy.st.leases)) ==>
              var drained := |DrainedOf(old(cy.st.Db()), moved)|;
              RightOnesWent(old(cy.st.Db()), cy.st.Db(), terms, claims, moved, maxMutations - drained, COST_BUDGET - (n - drained), now)
    ensures var drained := |DrainedOf(old(cy.st.Db()), moved)|;
            && n == |moved| && drained <= maxMutations && n - drained <= COST_BUDGET
            && AllExcused(old(cy.st.Db()), cy.st.Db(), terms, claims, old(cy.st.resources).Keys, moved, maxMutations - drained,
                          COST_BUDGET - (n - drained), now)
  {
    hide Inv, Midway, Untouched, Left, RightOnesWent, EndsStamped, Gone, Claims, Justified, Satisfies, InQueue, IdSet, Distinct, SameTraits, AllExcused, DrainedOf, Due,
         Excused, GatesPass, ParksIt, QueueBlocks, Unclaimed;
    ghost var db0 := cy.st.Db();
    var rows := cy.st.resources;
    var due := set id | id in rows && Listed(rows[id]);
    var list := PoolRun.InOrder(due);
    var budget: nat, costBudget: nat := maxMutations, COST_BUDGET;
    var waiting := Queued(cy.st.Db(), now);
    var matched: set<AcquisitionId> := {};
    queue, claims, moved := waiting, map[], {};
    n := 0;
    Begins(db0, terms, queue, maxMutations, now);
    NothingListed(list);
    ghost var seen: set<ResourceId> := {};
    for i := 0 to |list|
      invariant Inv(cy.st.Db()) && matched == claims.Keys && n == |moved|
      invariant seen == IdSet(list[..i]) && queue == waiting
      invariant Midway(db0, cy.st.Db(), terms, queue, claims, seen, moved, budget, costBudget, maxMutations, now)
    {
      var id := list[i];
      IdSetNext(list, i);
      DueRow(list, i, due);
      var acted;
      acted, matched, budget, costBudget, claims, moved := TakeTurn(cy, id, rows[id], terms, waiting, matched, budget, costBudget, now,
                                                                    db0, claims, seen, moved, maxMutations);
      seen := seen + {id};
      if acted {
        n := n + 1;
      }
    }
    WholeList(list);
    Finishes(db0, cy.st.Db(), terms, queue, claims, due, moved, budget, costBudget, maxMutations, now);
    if EndsStamped(db0.resources, db0.leases) { WentRight(db0, cy.st.Db(), terms, queue, claims, moved, budget, costBudget, now); }
  }

  lemma Begins(db: Fleet, terms: Terms, queue: seq<AcquisitionId>, maxMutations: nat, now: int)
    ensures Midway(db, db, terms, queue, map[], {}, {}, maxMutations, COST_BUDGET, maxMutations, now)
  {
    NothingGone(db, terms, queue, now);
  }

  /** The row whose turn it is, as it is now. */
  lemma Turn(db0: Fleet, mid: Fleet, terms: Terms, queue: seq<AcquisitionId>, claims: map<AcquisitionId, ResourceId>,
             seen: set<ResourceId>, moved: set<ResourceId>, budget: int, costs: int, maxMutations: nat, now: int, id: ResourceId)
    requires Midway(db0, mid, terms, queue, claims, seen, moved, budget, costs, maxMutations, now) && id in db0.resources && id !in seen
    ensures id !in moved && id in mid.resources && mid.resources[id] == db0.resources[id]
    ensures forall a :: Satisfies(mid, a, id) <==> Satisfies(db0, a, id)
    ensures Unclaimed(mid, id, queue, claims.Keys) <==> Unclaimed(db0, id, queue, claims.Keys)
    ensures Due(db0, id, terms, now) ==>
              && Justified(db0.resources[id], terms, now)
              && (GatesPass(mid, id, db0.resources[id], terms, now) || (!ParksIt(db0.resources[id], terms) && QueueBlocks(mid, id, now)))
              && (db0.resources[id].phase.Draining? ==> GatesPass(mid, id, db0.resources[id], terms, now))
  {
    RowNow(db0, mid, moved, id);
    SatisfiesStays(db0, mid, moved, id);
    if Due(db0, id, terms, now) { DueNow(db0, mid, moved, id, terms, now); }
  }

  lemma Finishes(db0: Fleet, db: Fleet, terms: Terms, queue: seq<AcquisitionId>, claims: map<AcquisitionId, ResourceId>,
                 due: set<ResourceId>, moved: set<ResourceId>, budget: int, costs: int, maxMutations: nat, now: int)
    requires Midway(db0, db, terms, queue, claims, due, moved, budget, costs, maxMutations, now)
    requires due == set id | id in db0.resources && Listed(db0.resources[id])
    ensures Midway(db0, db, terms, queue, claims, db0.resources.Keys, moved, budget, costs, maxMutations, now)
    ensures Untouched(db0, db, moved) && Left(db0, db, terms, moved, now) && Claims(db0, queue, claims, db0.resources.Keys, moved)
    ensures Gone(db0, terms, queue, claims, moved, now)
    ensures budget == maxMutations - |DrainedOf(db0, moved)| >= 0 && costs == COST_BUDGET - (|moved| - |DrainedOf(db0, moved)|) >= 0
    ensures AllExcused(db0, db, terms, claims, db0.resources.Keys, moved, budget, costs, now)
  {
    hide Untouched, Left, Gone, Claims, AllExcused, DrainedOf;
    ClaimsWithin(db0, queue, claims, due, moved);
    OnlyListedAreDue(db0, db, terms, claims, due, moved, budget, costs, now);
  }

  lemma NothingGone(db: Fleet, terms: Terms, queue: seq<AcquisitionId>, now: int)
    ensures Untouched(db, db, {}) && Gone(db, terms, queue, map[], {}, now) && DrainedOf(db, {}) == {}
    ensures forall d: int, c: int :: AllExcused(db, db, terms, map[], {}, {}, d, c, now)
    ensures forall seen :: Claims(db, queue, map[], seen, {})
  {
  }

  lemma NothingListed(list: seq<ResourceId>)
    ensures IdSet(list[..0]) == {}
  {
  }

  lemma DueRow(list: seq<ResourceId>, i: nat, due: set<ResourceId>)
    requires i < |list| && IdSet(list) == due
    ensures list[i] in due
  {
    PoolCycle.Listed(list, i);
  }

  lemma RowNow(db0: Fleet, db: Fleet, moved: set<ResourceId>, id: ResourceId)
    requires Untouched(db0, db, moved) && id in db0.resources && id !in moved
    ensures id in db.resources && db.resources[id] == db0.resources[id]
  {
  }

  lemma WholeList(list: seq<ResourceId>)
    ensures list[..|list|] == list
  {
  }

  lemma ClaimsWithin(db: Fleet, queue: seq<AcquisitionId>, claims: map<AcquisitionId, ResourceId>, seen: set<ResourceId>, moved: set<ResourceId>)
    requires Claims(db, queue, claims, seen, moved)
    ensures Claims(db, queue, claims, db.resources.Keys, moved)
  {
  }
}
