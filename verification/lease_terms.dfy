/** What a lease owes its acquisition: over every run it carries exactly the terms that were asked for. */
module LeaseTerms {
  import opened Basics
  import opened Phases
  import opened Capacity
  import opened Storage
  import opened Transactions
  import opened Invariants
  import opened Runs
  import opened Grounds
  import opened Allocation

  /** The lease's terms are the acquisition's own. */
  predicate Honors(l: Lease, acqs: Acqs) {
    && l.acquisition in acqs
    && var acq := acqs[l.acquisition];
    && l.capacity == acq.want && l.exclusive == acq.exclusive
    && l.expiresAt == if acq.ttlMs > 0 then Some(l.createdAt + acq.ttlMs) else None
  }

  ghost predicate AllHonored(db: Fleet) {
    forall i | 0 <= i < |db.leases| :: Honors(db.leases[i], db.acquisitions)
  }

  ghost predicate TermsKept(db: Fleet) {
    AllHonored(db) && ExclusiveAlone(db.leases)
  }

  lemma ServingKeepsTerms(w: World, d: DemandStep)
    requires Inv(w.db) && TermsKept(w.db)
    ensures TermsKept(DemandNext(w.db, d, w.clock))
  {
    var db' := DemandNext(w.db, d, w.clock);
    ServingOutcome(w, d);
    hide DemandNext, Inv;
    forall i | 0 <= i < |db'.leases|
      ensures Honors(db'.leases[i], db'.acquisitions)
    {
      if i < |w.db.leases| {
        assert Honors(w.db.leases[i], w.db.acquisitions);
        assert w.db.leases[i].acquisition in w.db.acquisitions.Keys;
      } else {
        assert d.a in w.db.acquisitions.Keys;
      }
    }
    StillAlone(w, d);
  }

  lemma StillAlone(w: World, d: DemandStep)
    requires ExclusiveAlone(w.db.leases)
    ensures ExclusiveAlone(LeasesAfter(w, Serve(d)))
  {
    var leases, leases' := w.db.leases, LeasesAfter(w, Serve(d));
    forall i, j | 0 <= i < |leases'| && 0 <= j < |leases'| && i != j && leases'[i].state.LeaseActive? && ActiveOn(leases'[j], leases'[i].resource)
      ensures !leases'[i].exclusive
    {
      if i < |leases| && j < |leases| {
        assert leases[i].state.LeaseActive? && ActiveOn(leases[j], leases[i].resource);
      } else {
        assert ActiveOn(leases'[i], leases'[i].resource);
        assert if i < |leases| then ActiveOn(leases[i], d.id) else ActiveOn(leases[j], d.id);
      }
    }
  }

  lemma {:induction false} RunKeepsTerms(clock: int, steps: seq<Step>)
    ensures TermsKept(Run(Boot(clock), steps).db)
  {
    if |steps| > 0 {
      var prefix, s := steps[..|steps| - 1], steps[|steps| - 1];
      RunKeepsTerms(clock, prefix);
      assert prefix + [s] == steps;
      Reached(clock, prefix, s);
      var w := Run(Boot(clock), prefix);
      hide Run, TermsKept;
      if s.Serve? {
        ServingKeepsTerms(w, s.d);
      } else {
        OnlyServingTouchesDemand(w, s);
        SameTerms(w.db, NextDb(w, s));
      }
    }
  }

  lemma SameTerms(db: Fleet, db': Fleet)
    requires TermsKept(db) && db'.leases == db.leases && db'.acquisitions == db.acquisitions
    ensures TermsKept(db')
  {
  }

  lemma BoundIsHonored(db: Fleet, a: AcquisitionId)
    requires Inv(db) && AllHonored(db) && a in db.acquisitions && db.acquisitions[a].state.AcqBound?
    ensures var acq := db.acquisitions[a];
            && acq.lease.Some? && acq.lease.value < |db.leases|
            && db.leases[acq.lease.value].state.LeaseActive? && db.leases[acq.lease.value].acquisition == a
            && Honors(db.leases[acq.lease.value], db.acquisitions)
  {
    assert AcqShape(db.leases, a, db.acquisitions[a]);
  }

  /** Over every run, the lease of a bound acquisition holds exactly the capacity it wanted, alone if it asked to be alone, and
      expires exactly its time to live after it was granted. */
  lemma BoundLeaseHonorsTerms(clock: int, steps: seq<Step>, a: AcquisitionId)
    requires var db := Run(Boot(clock), steps).db; a in db.acquisitions && db.acquisitions[a].state.AcqBound?
    ensures var db := Run(Boot(clock), steps).db;
            var acq := db.acquisitions[a];
            && acq.lease.Some? && acq.lease.value < |db.leases|
            && var l := db.leases[acq.lease.value];
            && l.state.LeaseActive? && l.acquisition == a
            && l.capacity == acq.want && l.exclusive == acq.exclusive
            && l.expiresAt == if acq.ttlMs > 0 then Some(l.createdAt + acq.ttlMs) else None
  {
    hide Run, Inv, ExclusiveAlone;
    RunKeepsTerms(clock, steps);
    ReachedInv(clock, steps);
    BoundIsHonored(Run(Boot(clock), steps).db, a);
  }

  /** The machine a bound acquisition is on. */
  function MachineOf(db: Fleet, a: AcquisitionId): Option<ResourceId> {
    if a in db.acquisitions && db.acquisitions[a].state.AcqBound? && db.acquisitions[a].lease.Some? && db.acquisitions[a].lease.value < |db.leases|
    then Some(db.leases[db.acquisitions[a].lease.value].resource) else None
  }

  /** Over every run, a bound acquisition that asked to be alone is the only bound one on its machine. */
  lemma ExclusiveMeansAlone(clock: int, steps: seq<Step>, a: AcquisitionId, b: AcquisitionId)
    requires var db := Run(Boot(clock), steps).db;
             && MachineOf(db, a).Some? && MachineOf(db, a) == MachineOf(db, b)
             && db.acquisitions[a].exclusive
    ensures a == b
  {
    var db := Run(Boot(clock), steps).db;
    BoundLeaseHonorsTerms(clock, steps, a);
    BoundLeaseHonorsTerms(clock, steps, b);
    RunKeepsTerms(clock, steps);
    var i, j := db.acquisitions[a].lease.value, db.acquisitions[b].lease.value;
    if a != b {
      assert i != j && ActiveOn(db.leases[j], db.leases[i].resource);
    }
  }
}
