/** How leases end: release, withdrawal and the expiry sweep. */
module Leasing {
  import opened Basics
  import opened Phases
  import opened Storage
  import opened Transactions
  import opened Invariants

  predicate Overdue(l: Lease, now: int) {
    l.state.LeaseActive? && l.expiresAt.Some? && l.expiresAt.value <= now
  }

  class Manager {
    const st: Store

    constructor (st: Store)
      ensures this.st == st
    {
      this.st := st;
    }

    /** Ends a lease inside one transaction: the lease, its bound acquisition, and the machine it was last on. */
    method End(l: LeaseId, expired: bool, now: int) returns (err: Error)
      modifies st
      ensures err.NoError? <==> CanEndLease(old(st.Db()), l)
      ensures st.Db() == EndLease(old(st.Db()), l, expired, now)
    {
      var before := st.Db();
      err := st.TransitionLease(l, LeaseActive, if expired then LeaseExpired else LeaseReleased, now);
      if !err.NoError? {
        return;
      }
      var lease := st.leases[l];
      LastMeansUnleased(before, l, lease);
      if AcqIn(st.Db(), lease.acquisition, AcqBound) {
        err := st.TransitionAcquisition(lease.acquisition, AcqBound, if expired then AcqExpired else AcqReleased, now);
      }
      err := EndLeaseLocked(lease.resource, now);
      if !err.NoError? {
        st.Rollback(before);
      }
    }

    /** Stamps the idle clock; when the last active lease ended, an allocated machine is ready again. */
    method EndLeaseLocked(id: ResourceId, now: int) returns (err: Error)
      modifies st`resources
      ensures err.NoError? <==>
        id in old(st.resources) && (Unleased(st.leases, id) && old(st.resources)[id].phase.Allocated? ==> Live(old(st.resources), id))
      ensures err.NoError? ==>
        var stamped := old(st.resources)[id].(lastLeaseEndedAt := Some(now), updatedAt := now);
        st.resources == old(st.resources)[id := if Unleased(st.leases, id) && stamped.phase.Allocated? then Moved(stamped, Ready, now) else stamped]
    {
      err := st.SetLastLeaseEnded(id, now);
      if !err.NoError? {
        return;
      }
      var active := st.CountActive(id);
      if active == 0 && st.resources[id].phase.Allocated? {
        err := st.CASPhase(id, Allocated, Ready, now);
      }
    }

    method Release(l: LeaseId, now: int) returns (err: Error)
      modifies st
      ensures err.NoError? <==> CanEndLease(old(st.Db()), l)
      ensures st.Db() == EndLease(old(st.Db()), l, false, now)
    {
      if l >= |st.leases| {
        return ErrNotFound;
      }
      if !st.leases[l].state.LeaseActive? {
        return ErrConflict;
      }
      err := End(l, false, now);
    }

    /** A bound acquisition releases its lease; a waiting one withdraws and its pre-bound machine stays as capacity. */
    method ReleaseAcquisition(a: AcquisitionId, now: int) returns (err: Error)
      modifies st
      ensures st.Db() ==
        if AcqIn(old(st.Db()), a, AcqBound) && old(st.acquisitions[a].lease.Some?) then
          EndLease(old(st.Db()), old(st.acquisitions[a].lease.value), false, now)
        else if Bindable(old(st.Db()), a) then
          MoveAcq(old(st.Db()), a, old(st.acquisitions[a].state), AcqReleased, now)
        else
          old(st.Db())
    {
      if a !in st.acquisitions {
        return ErrNotFound;
      }
      var acq := st.acquisitions[a];
      match acq.state {
        case AcqBound =>
          if acq.lease.None? { return ErrConflict; }
          err := Release(acq.lease.value, now);
        case AcqPending => err := st.TransitionAcquisition(a, AcqPending, AcqReleased, now);
        case AcqProvisioning => err := st.TransitionAcquisition(a, AcqProvisioning, AcqReleased, now);
        case _ => err := ErrConflict;
      }
    }

    /** The overdue leases, at most limit of them. */
    method Expiring(now: int, limit: nat) returns (due: seq<LeaseId>)
      ensures |due| <= limit
      ensures forall i | 0 <= i < |due| :: due[i] < |st.leases| && Overdue(st.leases[due[i]], now)
      ensures forall i, j | 0 <= i < j < |due| :: due[i] != due[j]
      ensures |due| < limit ==> forall l | 0 <= l < |st.leases| && Overdue(st.leases[l], now) :: l in due
    {
      due := [];
      for l := 0 to |st.leases|
        invariant |due| <= limit
        invariant forall i | 0 <= i < |due| :: due[i] < l && Overdue(st.leases[due[i]], now)
        invariant forall i, j | 0 <= i < j < |due| :: due[i] != due[j]
        invariant |due| < limit ==> forall k | 0 <= k < l && Overdue(st.leases[k], now) :: k in due
      {
        if Overdue(st.leases[l], now) && |due| < limit {
          due := due + [l];
        }
      }
    }

    /** The expiry sweep ends every lease it picked, and nothing else; below its batch limit none is left overdue. */
    method SweepExpired(now: int, limit: nat) returns (n: nat)
      requires Inv(st.Db())
      modifies st
      ensures Inv(st.Db())
      ensures |st.leases| == |old(st.leases)|
      ensures forall l | 0 <= l < |st.leases| ::
        st.leases[l] == old(st.leases)[l]
        || (Overdue(old(st.leases)[l], now) && st.leases[l] == old(st.leases)[l].(state := LeaseExpired, endedAt := Some(now)))
      ensures n < limit ==> forall l | 0 <= l < |st.leases| :: !Overdue(st.leases[l], now)
      ensures n == |set l | 0 <= l < |st.leases| && st.leases[l] != old(st.leases)[l]| <= limit
    {
      var due := Expiring(now, limit);
      ghost var before := st.leases;
      n := 0;
      for i := 0 to |due|
        invariant n == i
        invariant Inv(st.Db())
        invariant |st.leases| == |before|
        invariant forall l | 0 <= l < |before| ::
          st.leases[l] == if l in due[..i] then before[l].(state := LeaseExpired, endedAt := Some(now)) else before[l]
      {
        var l := due[i];
        assert l !in due[..i];
        EndLeaseKeeps(st.Db(), l, true, now);
        ActiveLeaseCanEnd(st.Db(), l);
        var err := End(l, true, now);
        n := n + 1;
        assert due[..i + 1] == due[..i] + [l];
      }
      assert due[..|due|] == due;
      DistinctSize(due);
      assert (set l | 0 <= l < |st.leases| && st.leases[l] != before[l]) == Elements(due);
    }
  }

  function Elements(s: seq<LeaseId>): set<LeaseId> {
    set l | l in s
  }

  lemma {:induction false} DistinctSize(s: seq<LeaseId>)
    requires forall i, j | 0 <= i < j < |s| :: s[i] != s[j]
    ensures |Elements(s)| == |s|
  {
    if |s| > 0 {
      var rest, last := s[..|s| - 1], s[|s| - 1];
      DistinctSize(rest);
      assert s == rest + [last];
      assert Elements(s) == Elements(rest) + {last};
    }
  }

  lemma LastMeansUnleased(db: Fleet, l: LeaseId, ended: Lease)
    requires l < |db.leases| && ended.resource == db.leases[l].resource && !ended.state.LeaseActive?
    ensures LastLease(db, l) <==> Unleased(db.leases[l := ended], ended.resource)
  {
    var leases' := db.leases[l := ended];
    assert leases'[l] == ended;
    if Unleased(leases', ended.resource) {
      forall i | 0 <= i < |db.leases| && i != l
        ensures !ActiveOn(db.leases[i], ended.resource)
      {
        assert leases'[i] == db.leases[i];
      }
    }
  }

  /** In a sound fleet ending an active lease never fails. */
  lemma ActiveLeaseCanEnd(db: Fleet, l: LeaseId)
    requires Inv(db) && l < |db.leases| && db.leases[l].state.LeaseActive?
    ensures CanEndLease(db, l)
  {
    assert LeaseGuarded(db.resources, db.leases[l]);
  }
}
