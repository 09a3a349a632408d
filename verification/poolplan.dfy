/** The pool cycle in closed form: what one cycle decides from the census of the pool alone, when nothing blocks it. */
module PoolPlan {
  import opened Basics

  /** A nil reclaim policy is None. */
  datatype ReclaimPolicy = ReclaimPolicy(idleAfterMs: int, park: bool)

  datatype PoolSpec = PoolSpec(
    className: string,
    replicas: int,
    minReady: int,
    minRunning: int,
    maxResources: int,
    reclaim: Option<ReclaimPolicy>
  )

  /** The live rows of a pool per phase; total also counts the phases the cycle never looks at. */
  datatype Census = Census(
    ready: nat, provisioning: nat, allocated_: nat, draining: nat, failed: nat,
    parking: nat, parked: nat, starting: nat, total: nat
  ) {
    /** Parked machines are still fleet. */
    function Counted(): nat {
      provisioning + ready + allocated_ + parking + parked + starting
    }

    function Hot(): nat {
      provisioning + starting + ready + allocated_
    }
  }

  /** What one cycle did, one counter per loop; deleted is split by the loop that deleted. */
  datatype Delta = Delta(
    undrained: nat, started: nat, created: nat, deletedParked: nat, drained: nat,
    deletedDraining: nat, deletedFailed: nat, parkedNow: nat
  ) {
    function Deleted(): nat {
      deletedParked + deletedDraining + deletedFailed
    }

    function Mutations(): nat {
      created + drained + undrained + Deleted() + parkedNow + started
    }
  }

  const NOTHING := Delta(0, 0, 0, 0, 0, 0, 0, 0)

  function Least(a: int, b: int): int {
    if a < b then a else b
  }

  /** The least of two quantities, and zero when one of them is negative. */
  function Upto(a: int, b: int): nat {
    if a <= 0 || b <= 0 then 0 else Least(a, b)
  }

  function Headroom(spec: PoolSpec, total: nat, deficit: int): int {
    if spec.maxResources > 0 && total + deficit > spec.maxResources then spec.maxResources - total else deficit
  }

  predicate ParksIdle(spec: PoolSpec) {
    spec.minRunning > 0 && spec.reclaim.Some? && spec.reclaim.value.idleAfterMs > 0 && spec.reclaim.value.park
  }

  /** The six loops in order, each on what the earlier ones left of the budget; creating says whether creates are
      possible now. */
  function Plan(spec: PoolSpec, c: Census, budget: nat, creating: bool): Delta {
    var undrained := Upto(Least(spec.replicas - c.Counted(), budget), c.draining);
    var b1 := budget - undrained;
    var started := if spec.minRunning > 0 then Upto(Least(spec.minRunning - c.Hot(), b1), c.parked) else 0;
    var b2 := b1 - started;
    var deficit := spec.replicas - c.Counted() - undrained;
    var created := if creating && deficit > 0 then Upto(Headroom(spec, c.total, deficit), b2) else 0;
    var b3 := b2 - created;
    var surplus := c.Counted() + undrained - spec.replicas;
    var deletedParked := Upto(Least(surplus, b3), c.parked - started);
    var b4 := b3 - deletedParked;
    var drained := Upto(Least(Least(surplus - deletedParked, b4), c.ready - spec.minReady), c.ready);
    var b5 := b4 - drained;
    var deletedDraining := Upto(b5, c.draining - undrained);
    var b6 := b5 - deletedDraining;
    var deletedFailed := Upto(b6, c.failed);
    var b7 := b6 - deletedFailed;
    var parkedNow :=
      if ParksIdle(spec)
      then Upto(Least(Least(b7, c.ready - drained - spec.minReady), c.Hot() + started - spec.minRunning), c.ready - drained)
      else 0;
    Delta(undrained, started, created, deletedParked, drained, deletedDraining, deletedFailed, parkedNow)
  }

  /** The census a cycle leaves: every counter moves its rows from one phase to the next. */
  predicate Accounts(c: Census, d: Delta, c': Census) {
    && c'.ready == c.ready + d.undrained - d.drained - d.parkedNow
    && c'.provisioning == c.provisioning + d.created
    && c'.allocated_ == c.allocated_
    && c'.draining == c.draining - d.undrained + d.drained - d.deletedDraining
    && c'.failed == c.failed - d.deletedFailed
    && c'.parking == c.parking + d.parkedNow
    && c'.parked == c.parked - d.started - d.deletedParked
    && c'.starting == c.starting + d.started
    && c'.total <= c.total + d.created
  }

  /** What holds of every cycle, whatever leases, protection, other owners or queued work stood in its way. */
  predicate Bounded(spec: PoolSpec, c: Census, budget: nat, d: Delta) {
    && d.Mutations() <= budget
    && d.undrained <= Upto(spec.replicas - c.Counted(), c.draining)
    && (d.created > 0 ==>
          && d.created <= spec.replicas - c.Counted() - d.undrained
          && (spec.maxResources > 0 ==> c.total + d.created <= spec.maxResources))
    && d.deletedParked + d.drained <= Upto(c.Counted() - spec.replicas, c.ready + c.parked)
    && (d.drained > 0 ==> c.ready - d.drained >= spec.minReady)
    && (d.started > 0 ==> c.Hot() + d.started <= spec.minRunning)
    && (d.parkedNow > 0 ==>
          && ParksIdle(spec)
          && c.ready - d.drained - d.parkedNow >= spec.minReady
          && c.Hot() + d.started - d.parkedNow >= spec.minRunning)
  }

  // ---- What the plan is for ----

  /** No loop moves rows that are not there, and none creates while creates are held back. */
  predicate FromWhatIsThere(c: Census, creating: bool, d: Delta) {
    && (creating || d.created == 0)
    && d.started + d.deletedParked <= c.parked && d.drained + d.parkedNow <= c.ready
    && d.undrained + d.deletedDraining <= c.draining && d.deletedFailed <= c.failed
  }

  /** Every loop goes on until it has reached its purpose, has no row left, is stopped by a cap or a floor, or the budget is
      used up by it and the loops before it: growth first, then the powered floor, then shrinking and cleaning up. */
  predicate Greedy(spec: PoolSpec, c: Census, budget: nat, creating: bool, d: Delta) {
    var size := c.Counted() + d.undrained;
    var spent1 := d.undrained;
    var spent2 := spent1 + d.started;
    var spent3 := spent2 + d.created;
    var spent4 := spent3 + d.deletedParked;
    var spent5 := spent4 + d.drained;
    var spent6 := spent5 + d.deletedDraining;
    var spent7 := spent6 + d.deletedFailed;
    var spent8 := spent7 + d.parkedNow;
    && (size >= spec.replicas || d.undrained == c.draining || spent1 == budget)
    && (spec.minRunning <= 0 || c.Hot() + d.started >= spec.minRunning || d.started == c.parked || spent2 == budget)
    && (!creating || size + d.created >= spec.replicas || (spec.maxResources > 0 && c.total + d.created >= spec.maxResources)
        || spent3 == budget)
    && (size - d.deletedParked <= spec.replicas || d.started + d.deletedParked == c.parked || spent4 == budget)
    && (size - d.deletedParked - d.drained <= spec.replicas || c.ready - d.drained <= spec.minReady || d.drained == c.ready
        || spent5 == budget)
    && (d.undrained + d.deletedDraining == c.draining || spent6 == budget)
    && (d.deletedFailed == c.failed || spent7 == budget)
    && (!ParksIdle(spec) || c.ready - d.drained - d.parkedNow <= spec.minReady || c.Hot() + d.started - d.parkedNow <= spec.minRunning
        || d.drained + d.parkedNow == c.ready || spent8 == budget)
  }

  lemma PlanIsGreedy(spec: PoolSpec, c: Census, budget: nat, creating: bool)
    ensures var d := Plan(spec, c, budget, creating); FromWhatIsThere(c, creating, d) && Greedy(spec, c, budget, creating, d)
  {
  }

  /** A loop that goes on until its purpose is reached, its rows or the budget run out, reaches the least of the three. */
  lemma GoesOnTo(n: nat, purpose: int, rows: int, left: int)
    requires 0 <= rows && 0 <= left && n <= rows && n <= left && (n > 0 ==> n <= purpose)
    requires n >= purpose || n == rows || n == left
    ensures n == Upto(Least(purpose, left), rows)
  {
  }

  lemma GreedyGrows(spec: PoolSpec, c: Census, budget: nat, creating: bool, d: Delta)
    requires Bounded(spec, c, budget, d) && FromWhatIsThere(c, creating, d) && Greedy(spec, c, budget, creating, d)
    ensures var p := Plan(spec, c, budget, creating); d.undrained == p.undrained && d.started == p.started && d.created == p.created
  {
    GoesOnTo(d.undrained, spec.replicas - c.Counted(), c.draining, budget);
    if spec.minRunning > 0 { GoesOnTo(d.started, spec.minRunning - c.Hot(), c.parked, budget - d.undrained); }
  }

  lemma GreedyShrinks(spec: PoolSpec, c: Census, budget: nat, creating: bool, d: Delta)
    requires Bounded(spec, c, budget, d) && FromWhatIsThere(c, creating, d) && Greedy(spec, c, budget, creating, d)
    ensures var b3, surplus := budget - d.undrained - d.started - d.created, c.Counted() + d.undrained - spec.replicas;
            && d.deletedParked == Upto(Least(surplus, b3), c.parked - d.started)
            && d.drained == Upto(Least(Least(surplus - d.deletedParked, b3 - d.deletedParked), c.ready - spec.minReady), c.ready)
  {
    var b3, surplus := budget - d.undrained - d.started - d.created, c.Counted() + d.undrained - spec.replicas;
    GoesOnTo(d.deletedParked, surplus, c.parked - d.started, b3);
    GoesOnTo(d.drained, Least(surplus - d.deletedParked, c.ready - spec.minReady), c.ready, b3 - d.deletedParked);
  }

  lemma GreedyCleansUp(spec: PoolSpec, c: Census, budget: nat, creating: bool, d: Delta)
    requires Bounded(spec, c, budget, d) && FromWhatIsThere(c, creating, d) && Greedy(spec, c, budget, creating, d)
    ensures var b5 := budget - d.undrained - d.started - d.created - d.deletedParked - d.drained;
            var b7 := b5 - d.deletedDraining - d.deletedFailed;
            && d.deletedDraining == Upto(b5, c.draining - d.undrained)
            && d.deletedFailed == Upto(b5 - d.deletedDraining, c.failed)
            && d.parkedNow == if ParksIdle(spec)
                              then Upto(Least(Least(b7, c.ready - d.drained - spec.minReady), c.Hot() + d.started - spec.minRunning), c.ready - d.drained)
                              else 0
  {
    var b7 := budget - d.undrained - d.started - d.created - d.deletedParked - d.drained - d.deletedDraining - d.deletedFailed;
    if ParksIdle(spec) {
      GoesOnTo(d.parkedNow, Least(c.ready - d.drained - spec.minReady, c.Hot() + d.started - spec.minRunning), c.ready - d.drained, b7);
    }
  }

  /** The closed form is the one outcome that keeps the bounds, the caps and the floors and stops no loop short of its purpose. */
  lemma PlanIsTheGreedyOne(spec: PoolSpec, c: Census, budget: nat, creating: bool, d: Delta)
    ensures d == Plan(spec, c, budget, creating)
            <==> Bounded(spec, c, budget, d) && FromWhatIsThere(c, creating, d) && Greedy(spec, c, budget, creating, d)
  {
    PlanIsBounded(spec, c, budget, creating);
    PlanIsGreedy(spec, c, budget, creating);
    hide Greedy, FromWhatIsThere, Bounded, Upto, Least, Headroom;
    if Bounded(spec, c, budget, d) && FromWhatIsThere(c, creating, d) && Greedy(spec, c, budget, creating, d) {
      GreedyGrows(spec, c, budget, creating, d);
      GreedyShrinks(spec, c, budget, creating, d);
      GreedyCleansUp(spec, c, budget, creating, d);
    }
  }

  // ---- Bounds ----

  /** The plan is one of the bounded outcomes. */
  lemma PlanIsBounded(spec: PoolSpec, c: Census, budget: nat, creating: bool)
    ensures Bounded(spec, c, budget, Plan(spec, c, budget, creating))
  {
  }

  /** A cycle never grows the pool past its cap, nor drops the ready tier below its floor by draining or parking. */
  lemma CycleKeepsTheCaps(spec: PoolSpec, c: Census, budget: nat, d: Delta, c': Census)
    requires Bounded(spec, c, budget, d) && Accounts(c, d, c')
    ensures spec.maxResources > 0 ==> c'.total <= c.total || c'.total <= spec.maxResources
    ensures d.drained > 0 || d.parkedNow > 0 ==> c'.ready >= spec.minReady
    ensures c.Counted() <= spec.replicas ==> d.drained == 0 && d.deletedParked == 0 && c'.Counted() <= spec.replicas
    ensures c.Counted() >= spec.replicas ==> d.undrained == 0 && d.created == 0 && c'.Counted() >= spec.replicas
  {
  }

  /** A pool at or under its size drains nothing, and then parking keeps the powered floor, whatever stands in the way of
      the other loops. */
  lemma NoSurplusKeepsTheFloor(spec: PoolSpec, c: Census, budget: nat, d: Delta, c': Census)
    requires Bounded(spec, c, budget, d) && Accounts(c, d, c') && c.Counted() <= spec.replicas
    ensures d.drained == 0 && (d.parkedNow > 0 ==> c'.Hot() >= spec.minRunning)
  {
  }

  /** The park loop does not see the drains of its own cycle. Both loops run, and between them they take more powered
      machines than the pool has above its floor, in terms of the spec, the census and the budget before the cycle. */
  predicate FloorLost(spec: PoolSpec, c: Census, budget: nat) {
    var surplus := c.Counted() - spec.replicas;
    var deleted := Upto(Least(surplus, budget), c.parked);
    var room := Least(c.ready - spec.minReady, c.ready);
    var drained := Upto(Least(surplus - deleted, budget - deleted), room);
    var left := budget - deleted - drained - c.draining - c.failed;
    var warmth := c.Hot() - spec.minRunning;
    && ParksIdle(spec)
    && drained > 0 && left > 0 && warmth > 0 && room > drained
    && warmth < room && warmth < drained + left
  }

  /** The loops of a pool above its size that is warm enough to park: nothing is undrained, started or created. */
  lemma WarmSurplusPlan(spec: PoolSpec, c: Census, budget: nat, creating: bool)
    requires c.Counted() > spec.replicas && c.Hot() >= spec.minRunning
    ensures var d := Plan(spec, c, budget, creating);
            var surplus, room := c.Counted() - spec.replicas, Least(c.ready - spec.minReady, c.ready);
            && d.undrained == d.started == d.created == 0
            && d.deletedParked == Upto(Least(surplus, budget), c.parked)
            && d.drained == Upto(Least(surplus - d.deletedParked, budget - d.deletedParked), room)
            && (var left := budget - d.deletedParked - d.drained - c.draining - c.failed;
                d.parkedNow == if ParksIdle(spec) then Upto(Least(left, c.Hot() - spec.minRunning), room - d.drained) else 0)
  {
  }

  lemma ParkArithmetic(drained: nat, room: int, left: int, warmth: int, parked: nat)
    requires parked == Upto(Least(left, warmth), room - drained)
    ensures parked > 0 && drained + parked > warmth
            <==> drained > 0 && left > 0 && warmth > 0 && room > drained && warmth < room && warmth < drained + left
  {
  }

  lemma HotAfterShrinking(c: Census, d: Delta, c': Census)
    requires Accounts(c, d, c') && d.undrained == d.started == d.created == 0
    ensures c'.Hot() == c.Hot() - d.drained - d.parkedNow
  {
  }

  /** A cycle that parks ends below the powered floor exactly in those pools. */
  lemma ParkingFloorIff(spec: PoolSpec, c: Census, budget: nat, creating: bool, c': Census)
    requires Accounts(c, Plan(spec, c, budget, creating), c')
    ensures Plan(spec, c, budget, creating).parkedNow > 0 && c'.Hot() < spec.minRunning <==> FloorLost(spec, c, budget)
  {
    if c.Counted() > spec.replicas && c.Hot() >= spec.minRunning {
      hide Plan, Accounts, ParksIdle, Upto, Least;
      var d, room := Plan(spec, c, budget, creating), Least(c.ready - spec.minReady, c.ready);
      WarmSurplusPlan(spec, c, budget, creating);
      HotAfterShrinking(c, d, c');
      if ParksIdle(spec) {
        ParkArithmetic(d.drained, room, budget - d.deletedParked - d.drained - c.draining - c.failed, c.Hot() - spec.minRunning, d.parkedNow);
      }
    } else {
      hide Plan;
      PlanIsBounded(spec, c, budget, creating);
      if c.Counted() <= spec.replicas { NoSurplusKeepsTheFloor(spec, c, budget, Plan(spec, c, budget, creating), c'); }
    }
  }

  /** A pool where it fails: five idle machines, four wanted and four to be kept running end with three running. */
  lemma ParkingFloorCanBreak()
    ensures var spec := PoolSpec("", 4, 0, 4, 0, Some(ReclaimPolicy(1, true)));
            var c := Census(5, 0, 0, 0, 0, 0, 0, 0, 5);
            var d := Plan(spec, c, 5, true);
            && d == NOTHING.(drained := 1, parkedNow := 1)
            && forall c' | Accounts(c, d, c') :: c'.Hot() == 3 < spec.minRunning
  {
  }

  // ---- Convergence ----

  /** Between cycles the journaled operations complete: creates become ready, deletes are tombstoned. */
  function Settled(c: Census): Census {
    c.(ready := c.ready + c.provisioning, provisioning := 0, total := c.ready + c.provisioning + c.draining + c.failed)
  }

  /** The census of a pool between cycles, as far as this convergence looks: nothing leased, parked or in flight. */
  predicate Quiet(c: Census) {
    c.provisioning == c.allocated_ == c.parking == c.parked == c.starting == 0 && c.total == c.ready + c.draining + c.failed
  }

  function Distance(spec: PoolSpec, c: Census): nat {
    2 * (if c.Counted() >= spec.replicas then c.Counted() - spec.replicas else spec.replicas - c.Counted()) + c.draining + c.failed
  }

  predicate Converging(spec: PoolSpec) {
    spec.replicas >= 0 && spec.minRunning == 0 && spec.minReady <= spec.replicas && (spec.maxResources <= 0 || spec.maxResources >= spec.replicas)
  }

  /** Below its size a quiet pool undrains, then creates, then cleans up. */
  lemma GrowingCycle(spec: PoolSpec, c: Census, budget: nat)
    requires Converging(spec) && Quiet(c) && budget > 0 && c.ready < spec.replicas
    ensures var d := Plan(spec, c, budget, true);
            && d.started == d.deletedParked == d.parkedNow == d.drained == 0
            && d.undrained + d.created <= spec.replicas - c.ready
            && d.undrained <= c.draining && d.deletedDraining <= c.draining - d.undrained && d.deletedFailed <= c.failed
            && d.Mutations() > 0
  {
    GrowingMoves(spec, c, budget);
  }

  lemma GrowingMoves(spec: PoolSpec, c: Census, budget: nat)
    requires Converging(spec) && Quiet(c) && budget > 0 && c.ready < spec.replicas
    ensures Plan(spec, c, budget, true).Mutations() > 0
  {
    var d := Plan(spec, c, budget, true);
    if c.draining > 0 {
      assert d.undrained > 0;
    } else if c.failed > 0 {
      assert d.created > 0 || d.deletedFailed > 0;
    } else {
      assert Headroom(spec, c.total, spec.replicas - c.ready) > 0;
      assert d.created > 0;
    }
  }

  /** At or above its size a quiet pool drains, then cleans up. */
  lemma ShrinkingCycle(spec: PoolSpec, c: Census, budget: nat)
    requires Converging(spec) && Quiet(c) && budget > 0 && c.ready >= spec.replicas
    ensures var d := Plan(spec, c, budget, true);
            && d.started == d.deletedParked == d.parkedNow == d.undrained == d.created == 0
            && d.drained == Upto(c.ready - spec.replicas, budget)
            && d.deletedDraining == Upto(budget - d.drained, c.draining)
            && d.deletedFailed == Upto(budget - d.drained - d.deletedDraining, c.failed)
  {
  }

  /** Every cycle shortens the distance by at least the mutations it makes, makes at least one while there is distance
      left, and decides nothing once there is none. */
  lemma CycleConverges(spec: PoolSpec, c: Census, budget: nat, c': Census)
    requires Converging(spec) && Quiet(c) && budget > 0
    requires Accounts(c, Plan(spec, c, budget, true), c')
    ensures var d := Plan(spec, c, budget, true);
            && Quiet(Settled(c'))
            && Distance(spec, Settled(c')) + d.Mutations() <= Distance(spec, c)
            && (d.Mutations() == 0 <==> Distance(spec, c) == 0)
  {
    hide Plan, Accounts, Settled, Distance, Quiet;
    if c.ready < spec.replicas {
      GrowingCycle(spec, c, budget);
      GrowingCloses(spec, c, budget, Plan(spec, c, budget, true), c');
    } else {
      ShrinkingCycle(spec, c, budget);
      ShrinkingCloses(spec, c, budget, Plan(spec, c, budget, true), c');
    }
  }

  lemma GrowingCloses(spec: PoolSpec, c: Census, budget: nat, d: Delta, c': Census)
    requires Quiet(c) && c.ready < spec.replicas && Accounts(c, d, c')
    requires d.started == d.deletedParked == d.parkedNow == d.drained == 0 && d.undrained + d.created <= spec.replicas - c.ready
    requires d.undrained <= c.draining && d.deletedDraining <= c.draining - d.undrained && d.deletedFailed <= c.failed
    requires d.Mutations() > 0
    ensures Quiet(Settled(c')) && Distance(spec, Settled(c')) + d.Mutations() <= Distance(spec, c) && Distance(spec, c) > 0
  {
  }

  lemma ShrinkingCloses(spec: PoolSpec, c: Census, budget: nat, d: Delta, c': Census)
    requires spec.replicas >= 0 && Quiet(c) && budget > 0 && c.ready >= spec.replicas && Accounts(c, d, c')
    requires d.started == d.deletedParked == d.parkedNow == d.undrained == d.created == 0
    requires d.drained == Upto(c.ready - spec.replicas, budget) && d.deletedDraining == Upto(budget - d.drained, c.draining)
    requires d.deletedFailed == Upto(budget - d.drained - d.deletedDraining, c.failed)
    ensures Quiet(Settled(c')) && Distance(spec, Settled(c')) + d.Mutations() <= Distance(spec, c)
    ensures d.Mutations() == 0 <==> Distance(spec, c) == 0
  {
    hide Upto, Accounts, Distance, Settled;
    SharesOut(budget, c.ready - spec.replicas, c.draining, c.failed, d.drained, d.deletedDraining, d.deletedFailed);
    SettledAfterShrinking(c, d, c');
    DistanceAbove(spec, c);
    DistanceAbove(spec, Settled(c'));
  }

  lemma SettledAfterShrinking(c: Census, d: Delta, c': Census)
    requires Quiet(c) && Accounts(c, d, c') && d.started == d.deletedParked == d.parkedNow == d.undrained == d.created == 0
    ensures var e := Settled(c');
            Quiet(e) && e.ready == c.ready - d.drained && e.draining == c.draining + d.drained - d.deletedDraining && e.failed == c.failed - d.deletedFailed
  {
  }

  lemma DistanceAbove(spec: PoolSpec, c: Census)
    requires Quiet(c) && c.ready >= spec.replicas
    ensures Distance(spec, c) == 2 * (c.ready - spec.replicas) + c.draining + c.failed
  {
  }

  /** A budget spent on three piles in turn. */
  lemma SharesOut(budget: nat, a: nat, b: nat, c: nat, x: nat, y: nat, z: nat)
    requires budget > 0 && x == Upto(a, budget) && y == Upto(budget - x, b) && z == Upto(budget - x - y, c)
    ensures x <= a && y <= b && z <= c && (x + y + z == 0 <==> a == b == c == 0)
  {
  }

  /** The quiet census after one undisturbed cycle. */
  function After(c: Census, d: Delta): Census
    requires d.undrained + d.deletedDraining <= c.draining + d.drained && d.drained <= c.ready && d.deletedFailed <= c.failed
  {
    c.(ready := c.ready + d.undrained - d.drained, provisioning := d.created,
       draining := c.draining - d.undrained + d.drained - d.deletedDraining, failed := c.failed - d.deletedFailed)
  }

  lemma AfterAccounts(spec: PoolSpec, c: Census, budget: nat)
    requires Converging(spec) && Quiet(c) && budget > 0
    ensures var d := Plan(spec, c, budget, true);
            && d.undrained + d.deletedDraining <= c.draining + d.drained && d.drained <= c.ready && d.deletedFailed <= c.failed
            && Accounts(c, d, After(c, d)) && Quiet(Settled(After(c, d)))
  {
    if c.ready < spec.replicas { GrowingCycle(spec, c, budget); } else { ShrinkingCycle(spec, c, budget); }
  }

  /** One undisturbed cycle and the completion of what it journaled. */
  function CycleOf(spec: PoolSpec, c: Census, budget: nat): (end: Census)
    requires Converging(spec) && Quiet(c) && budget > 0
    ensures Quiet(end)
  {
    AfterAccounts(spec, c, budget);
    Settled(After(c, Plan(spec, c, budget, true)))
  }

  lemma CycleApproaches(spec: PoolSpec, c: Census, budget: nat)
    requires Converging(spec) && Quiet(c) && budget > 0
    ensures Distance(spec, CycleOf(spec, c, budget)) <= if Distance(spec, c) > 0 then Distance(spec, c) - 1 else 0
  {
    AfterAccounts(spec, c, budget);
    CycleConverges(spec, c, budget, After(c, Plan(spec, c, budget, true)));
  }

  /** The pool after n undisturbed cycles. */
  function Cycles(spec: PoolSpec, c: Census, budget: nat, n: nat): (end: Census)
    requires Converging(spec) && Quiet(c) && budget > 0
    ensures Quiet(end)
  {
    if n == 0 then c else CycleOf(spec, Cycles(spec, c, budget, n - 1), budget)
  }

  lemma CycleIsOneStep(spec: PoolSpec, c: Census, budget: nat, n: nat)
    requires Converging(spec) && Quiet(c) && budget > 0 && n > 0
    ensures var before, after := Distance(spec, Cycles(spec, c, budget, n - 1)), Distance(spec, Cycles(spec, c, budget, n));
            after <= if before > 0 then before - 1 else 0
  {
    CycleApproaches(spec, Cycles(spec, c, budget, n - 1), budget);
  }

  /** The distance left after n cycles. */
  function Left(spec: PoolSpec, c: Census, budget: nat, n: nat): nat
    requires Converging(spec) && Quiet(c) && budget > 0
  {
    Distance(spec, Cycles(spec, c, budget, n))
  }

  lemma {:induction false} Descends(left: nat -> nat, n: nat)
    requires forall k: nat :: left(k + 1) <= if left(k) > 0 then left(k) - 1 else 0
    ensures left(n) <= if n <= left(0) then left(0) - n else 0
  {
    if n > 0 { Descends(left, n - 1); }
  }

  lemma NoDistanceLeft(spec: PoolSpec, c: Census)
    requires Quiet(c)
    ensures Distance(spec, c) == 0 <==> c.ready == spec.replicas && c.draining == 0 && c.failed == 0
  {
  }

  /** Any pool reaches exactly its replicas, with nothing draining or failed, within as many cycles as its distance. */
  lemma PoolConverges(spec: PoolSpec, c: Census, budget: nat, n: nat)
    requires Converging(spec) && Quiet(c) && budget > 0 && n >= Distance(spec, c)
    ensures var end := Cycles(spec, c, budget, n);
            end.ready == spec.replicas && end.draining == 0 && end.failed == 0
  {
    assert Left(spec, c, budget, 0) == Distance(spec, c);
    NoDistanceLeft(spec, Cycles(spec, c, budget, n));
    LeftIsDistance(spec, c, budget, n);
    hide *;
    var left := (k: nat) => Left(spec, c, budget, k);
    forall k: nat
      ensures left(k + 1) <= if left(k) > 0 then left(k) - 1 else 0
    {
      LeftFalls(spec, c, budget, k);
    }
    Descends(left, n);
  }

  lemma LeftIsDistance(spec: PoolSpec, c: Census, budget: nat, n: nat)
    requires Converging(spec) && Quiet(c) && budget > 0
    ensures Left(spec, c, budget, n) == Distance(spec, Cycles(spec, c, budget, n))
  {
  }

  lemma LeftFalls(spec: PoolSpec, c: Census, budget: nat, k: nat)
    requires Converging(spec) && Quiet(c) && budget > 0
    ensures Left(spec, c, budget, k + 1) <= if Left(spec, c, budget, k) > 0 then Left(spec, c, budget, k) - 1 else 0
  {
    CycleIsOneStep(spec, c, budget, k + 1);
  }
}
