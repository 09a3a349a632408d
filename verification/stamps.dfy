/**
 * What the clocks of a row mean: over every run each one is the moment of the last move it names, and the idle clock is
 * the end of the last lease that ended on the machine.
 */
module Stamps {
  import opened Basics
  import opened Phases
  import opened Capacity
  import opened Storage
  import opened ProviderErrors
  import opened Transactions
  import opened Invariants
  import opened Runs
  import opened Evidence
  import opened Grounds
  import opened PoolBoard
  import Allocation

  /** The time a step writes: the sweep keeps the time at which it started. */
  function StampOf(w: World, s: Step): int {
    if s.Discover? && w.sweep.Armed? then w.sweep.at else w.clock
  }

  /** The step is the end of an active lease on the machine. */
  predicate EndsLeaseOn(w: World, s: Step, id: ResourceId) {
    && s.Serve? && s.d.EndOfLease? && s.d.l < |w.db.leases|
    && ActiveOn(w.db.leases[s.d.l], id)
  }

  // ---- One step ----

  predicate Follows(rows: Rows, rows': Rows, id: ResourceId, at: int)
    requires id in rows
  {
    id in rows' && ClocksFollow(rows[id], rows'[id], at)
  }

  lemma AnswerClocks(w: World, e: EngineStep, id: ResourceId)
    requires Inv(w.db) && id in w.db.resources
    ensures Follows(w.db.resources, EngineNext(w.db, e, w.clock).resources, id, w.clock)
  {
    hide Inv, EngineNext, Outcome;
    if e.op in w.db.operations {
      EngineOutcome(w.db, e, w.clock);
      OutcomeClocks(w.db, EngineNext(w.db, e, w.clock), e, w.clock, id);
    } else {
      NoOpNoChange(w.db, e, w.clock);
    }
  }

  lemma OutcomeClocks(db: Fleet, db': Fleet, e: EngineStep, now: int, id: ResourceId)
    requires e.op in db.operations && id in db.resources && Outcome(db, db', e, now)
    ensures Follows(db.resources, db'.resources, id, now)
  {
  }

  lemma DeleteClocks(db: Fleet, x: ResourceId, op: OperationId, now: int, id: ResourceId)
    requires id in db.resources
    ensures Follows(db.resources, Delete(db, x, op, now).resources, id, now)
  {
    hide OpFree, Unleased;
  }

  lemma CommandClocks(db: Fleet, m: FleetStep, now: int, id: ResourceId)
    requires id in db.resources
    ensures Follows(db.resources, FleetNext(db, m, now).resources, id, now)
  {
    if m.ApiDelete? || m.PoolDelete? || m.Reclaim? {
      DeleteClocks(db, m.id, m.op, now, id);
      GuardedDelete(db, m, now);
      hide FleetNext, Delete;
    } else {
      hide OpFree, Unleased;
    }
  }

  lemma LeaseEndClocks(w: World, d: DemandStep, id: ResourceId)
    requires Inv(w.db) && id in w.db.resources && d.EndOfLease?
    ensures var rows, rows' := w.db.resources, DemandNext(w.db, d, w.clock).resources;
            && id in rows'
            && (if EndsLeaseOn(w, Serve(d), id)
                then ClocksFollow(rows[id].(lastLeaseEndedAt := Some(w.clock)), rows'[id], w.clock)
                else Follows(rows, rows', id, w.clock))
  {
    if d.l < |w.db.leases| { assert LeaseGuarded(w.db.resources, w.db.leases[d.l]); }
    hide Inv, LastLease;
  }

  /** A lease end stamps the idle clock, and only then may the row have been allocated: its ready clock stays. */
  lemma DemandClocks(w: World, d: DemandStep, id: ResourceId)
    requires Inv(w.db) && id in w.db.resources
    ensures var rows, rows' := w.db.resources, DemandNext(w.db, d, w.clock).resources;
            && id in rows'
            && (if EndsLeaseOn(w, Serve(d), id)
                then ClocksFollow(rows[id].(lastLeaseEndedAt := Some(w.clock)), rows'[id], w.clock)
                else Follows(rows, rows', id, w.clock))
  {
    if d.EndOfLease? {
      LeaseEndClocks(w, d, id);
    } else {
      hide Inv, CanReserve, OpFree;
    }
  }

  lemma SweepClocks(db: Fleet, sweep: Sweep, v: SweepStep, id: ResourceId)
    requires id in db.resources && sweep.Armed?
    ensures Follows(db.resources, SweepDb(db, sweep, v).resources, id, sweep.at)
  {
    hide ExternalFree, Unleased;
  }

  /** What a step does to the clocks of an existing row. */
  lemma StepClocks(w: World, s: Step, id: ResourceId)
    requires Inv(w.db) && id in w.db.resources
    ensures var rows' := NextDb(w, s).resources;
            && id in rows'
            && (if EndsLeaseOn(w, s, id)
                then ClocksFollow(w.db.resources[id].(lastLeaseEndedAt := Some(w.clock)), rows'[id], w.clock)
                else ClocksFollow(w.db.resources[id], rows'[id], StampOf(w, s)))
  {
    hide Inv, EngineNext, FleetNext, DemandNext;
    match s
    case Engine(e) => AnswerClocks(w, e, id);
    case Manage(m) => CommandClocks(w.db, m, w.clock, id);
    case Serve(d) => DemandClocks(w, d, id);
    case Discover(v) => if w.sweep.Armed? { SweepClocks(w.db, w.sweep, v, id); }
    case _ =>
  }

  // ---- Every run ----

  /** The step moves the row into the phase, or records it there. */
  predicate Enters(w: World, s: Step, id: ResourceId, p: Phase) {
    && id in NextDb(w, s).resources && NextDb(w, s).resources[id].phase == p
    && (id in w.db.resources ==> w.db.resources[id].phase != p)
  }

  /** When the row last entered the phase. */
  function LastEntered(clock: int, steps: seq<Step>, id: ResourceId, p: Phase): Option<int> {
    if |steps| == 0 then None
    else
      var prefix, s := steps[..|steps| - 1], steps[|steps| - 1];
      var w := Run(Boot(clock), prefix);
      if Enters(w, s, id, p) then Some(StampOf(w, s)) else LastEntered(clock, prefix, id, p)
  }

  /** When the row last became ready otherwise than by being recorded so, or by a return from allocated. */
  function LastReadied(clock: int, steps: seq<Step>, id: ResourceId): Option<int> {
    if |steps| == 0 then None
    else
      var prefix, s := steps[..|steps| - 1], steps[|steps| - 1];
      var w := Run(Boot(clock), prefix);
      if Enters(w, s, id, Ready) && id in w.db.resources && !w.db.resources[id].phase.Allocated? then Some(StampOf(w, s))
      else LastReadied(clock, prefix, id)
  }

  predicate ClocksTrue(r: Resource, readied: Option<int>, drained: Option<int>, parked: Option<int>) {
    && r.readyAt == readied && r.drainStartedAt == drained
    && (r.phase.Parked? ==> r.parkedAt == parked)
    && (r.phase.Ready? ==> r.parkedAt.None?)
  }

  lemma NewRowClocks(w: World, s: Step, id: ResourceId)
    requires Inv(w.db) && id !in w.db.resources && id in NextDb(w, s).resources
    ensures var r := NextDb(w, s).resources[id];
            && r.readyAt.None? && r.drainStartedAt.None? && r.lastLeaseEndedAt.None?
            && (r.phase.Parked? ==> r.parkedAt == Some(StampOf(w, s))) && (r.phase.Ready? ==> r.parkedAt.None?)
            && !r.phase.Draining?
  {
    hide Inv, NextDb;
    StepAppears(w, s, id, NextDb(w, s).resources[id]);
  }

  lemma {:induction false} NothingEnteredYet(clock: int, steps: seq<Step>, id: ResourceId, p: Phase)
    requires id !in Run(Boot(clock), steps).db.resources
    ensures LastEntered(clock, steps, id, p).None? && LastReadied(clock, steps, id).None?
  {
    if |steps| > 0 {
      var prefix, s := steps[..|steps| - 1], steps[|steps| - 1];
      StepMovesLegally(Run(Boot(clock), prefix), s, id);
      NothingEnteredYet(clock, prefix, id, p);
    }
  }

  /** Over every run: a row's ready clock is the moment it last became ready other than from allocated, its drain clock the
      moment it was last drained, and its park clock, while it is parked, the moment it was parked. */
  lemma {:induction false} ClocksSayWhen(clock: int, steps: seq<Step>, id: ResourceId)
    requires id in Run(Boot(clock), steps).db.resources
    ensures ClocksTrue(Run(Boot(clock), steps).db.resources[id], LastReadied(clock, steps, id),
                       LastEntered(clock, steps, id, Draining), LastEntered(clock, steps, id, Parked))
  {
    hide NextDb;
    assert |steps| > 0;
    var prefix, s := steps[..|steps| - 1], steps[|steps| - 1];
    var w := Run(Boot(clock), prefix);
    assert Run(Boot(clock), steps).db == NextDb(w, s);
    ReachedInv(clock, prefix);
    if id in w.db.resources {
      ClocksSayWhen(clock, prefix, id);
      StepClocks(w, s, id);
    } else {
      NothingEnteredYet(clock, prefix, id, Draining);
      NothingEnteredYet(clock, prefix, id, Parked);
      NewRowClocks(w, s, id);
    }
  }

  // ---- The idle clock ----

  /** An ended lease says when it ended, which is past, on a known row; an active one says nothing. */
  ghost predicate EndsDated(w: World) {
    forall i | 0 <= i < |w.db.leases| ::
      && (w.db.leases[i].state.LeaseActive? ==> w.db.leases[i].endedAt.None?)
      && (!w.db.leases[i].state.LeaseActive? ==> w.db.leases[i].endedAt.Some? && w.db.leases[i].endedAt.value <= w.clock)
      && w.db.leases[i].resource in w.db.resources
  }

  ghost predicate EndsTrue(w: World) {
    EndsDated(w) && EndsStamped(w.db.resources, w.db.leases)
  }

  lemma StepKeepsDates(w: World, s: Step)
    requires Inv(w.db) && EndsDated(w)
    ensures EndsDated(Next(w, s))
  {
    var db' := NextDb(w, s);
    assert forall id <- w.db.resources.Keys :: id in db'.resources by {
      forall id <- w.db.resources.Keys
        ensures id in db'.resources
      {
        StepMovesLegally(w, s, id);
      }
    }
    if s.Serve? { ServingOutcome(w, s.d); } else { OnlyServingTouchesDemand(w, s); }
    hide Inv, NextDb;
    assert db'.leases == LeasesAfter(w, s);
    forall i | 0 <= i < |db'.leases|
      ensures db'.leases[i].state.LeaseActive? ==> db'.leases[i].endedAt.None?
      ensures !db'.leases[i].state.LeaseActive? ==> db'.leases[i].endedAt.Some? && db'.leases[i].endedAt.value <= Next(w, s).clock
      ensures db'.leases[i].resource in db'.resources
    {
      if i < |w.db.leases| { assert w.db.leases[i].resource in w.db.resources.Keys; }
    }
  }

  lemma StepKeepsEnd(w: World, s: Step, id: ResourceId)
    requires Inv(w.db) && EndsTrue(w) && id in NextDb(w, s).resources
    ensures EndStamped(NextDb(w, s).resources[id], id, NextDb(w, s).leases)
  {
    var db' := NextDb(w, s);
    if s.Serve? { ServingOutcome(w, s.d); } else { OnlyServingTouchesDemand(w, s); }
    assert db'.leases == LeasesAfter(w, s) by { hide NextDb, Inv; }
    if id in w.db.resources {
      StepClocks(w, s, id);
      hide NextDb, Inv;
      assert EndStamped(w.db.resources[id], id, w.db.leases);
      EndCarries(w, s, id, w.db.resources[id], db'.resources[id]);
    } else {
      NewRowClocks(w, s, id);
      hide NextDb, Inv;
      NeverLeased(w, s, id);
    }
  }

  lemma NeverLeased(w: World, s: Step, id: ResourceId)
    requires EndsDated(w) && id !in w.db.resources
    ensures forall i | 0 <= i < |LeasesAfter(w, s)| :: !EndedOn(LeasesAfter(w, s)[i], id)
  {
    assert forall i | 0 <= i < |w.db.leases| :: w.db.leases[i].resource != id;
  }

  lemma EndCarries(w: World, s: Step, id: ResourceId, r: Resource, r': Resource)
    requires EndsDated(w) && EndStamped(r, id, w.db.leases)
    requires r'.lastLeaseEndedAt == if EndsLeaseOn(w, s, id) then Some(w.clock) else r.lastLeaseEndedAt
    ensures EndStamped(r', id, LeasesAfter(w, s))
  {
    var leases, leases' := w.db.leases, LeasesAfter(w, s);
    forall i | 0 <= i < |leases'| && EndedOn(leases'[i], id)
      ensures leases'[i].endedAt.Some? && r'.lastLeaseEndedAt.Some? && leases'[i].endedAt.value <= r'.lastLeaseEndedAt.value
    {
      if i < |leases| && leases'[i] == leases[i] { assert EndedOn(leases[i], id); }
    }
    if r'.lastLeaseEndedAt.Some? {
      if EndsLeaseOn(w, s, id) {
        assert EndedOn(leases'[s.d.l], id);
      } else {
        var i :| 0 <= i < |leases| && EndedOn(leases[i], id) && leases[i].endedAt == r.lastLeaseEndedAt;
        assert leases'[i] == leases[i];
      }
    }
  }

  lemma {:induction false} RunKeepsEnds(clock: int, steps: seq<Step>)
    ensures EndsTrue(Run(Boot(clock), steps))
  {
    if |steps| > 0 {
      var prefix, s := steps[..|steps| - 1], steps[|steps| - 1];
      var w := Run(Boot(clock), prefix);
      RunKeepsEnds(clock, prefix);
      ReachedInv(clock, prefix);
      assert Run(Boot(clock), steps) == Next(w, s);
      hide Run, NextDb, Inv;
      StepKeepsDates(w, s);
      var db' := NextDb(w, s);
      forall id <- db'.resources.Keys
        ensures EndStamped(db'.resources[id], id, db'.leases)
      {
        StepKeepsEnd(w, s, id);
      }
    }
  }

  /** Over every run: a machine passes the idle test exactly when it became ready, and ended every lease it ever had, that
      long ago. */
  lemma IdleMeansRested(clock: int, steps: seq<Step>, id: ResourceId, ms: int, now: int)
    requires id in Run(Boot(clock), steps).db.resources
    ensures var db := Run(Boot(clock), steps).db;
            now - IdleSince(db.resources[id]) >= ms <==> Rested(db.resources[id], id, db.leases, ms, now)
  {
    RunKeepsEnds(clock, steps);
    var db := Run(Boot(clock), steps).db;
    IdleIffRested(db.resources[id], id, db.leases, ms, now);
  }
}
