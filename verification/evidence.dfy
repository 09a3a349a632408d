/**
 * What the answers mean: every engine step is settled by what the provider or the operator said, and nothing fails,
 * succeeds, is retried or is tombstoned on any other grounds. Stated on the operation, its row and the answer alone.
 */
module Evidence {
  import opened Basics
  import opened Phases
  import opened Capacity
  import opened Storage
  import opened ProviderErrors
  import opened Transactions
  import opened Invariants
  import opened Runs
  import opened Guarantees

  const TWO_DAYS_MS: int := 172800000

  // ---- Answers about one operation ----

  predicate SaysNotFound(f: Failure) {
    f.Typed? && f.errorClass.NotFound?
  }

  /** The request itself is wrong: trying it again cannot help. */
  predicate Rejects(f: Failure) {
    f.Typed? && (f.errorClass.Invalid? || f.errorClass.FatalError?)
  }

  predicate NoEffect(f: Failure) {
    f.Typed? && f.sideEffect.EffectNone?
  }

  predicate Parks(o: Operation) {
    o.kind.OpKindStop? || o.kind.OpKindStart?
  }

  predicate SucceededAnswer(o: Operation, e: EngineStep) {
    e.Observed? && o.state.OpExternalAccepted? && e.seen.ObserveSucceeded?
  }

  predicate LostAnswer(o: Operation, e: EngineStep) {
    e.Observed? && o.state.OpExternalAccepted? && e.seen.ObserveError? && SaysNotFound(e.seen.failure)
  }

  /** The operation is handed over; a stop or start at most eight times. */
  predicate Sends(o: Operation, e: EngineStep) {
    e.Dispatched? && o.state.OpJournaled? && (Parks(o) ==> o.attempt < 8)
  }

  /** The provider took the request, or a listing by label names its machine. */
  predicate Accepts(o: Operation, e: EngineStep) {
    || (e.Accepted? && o.state.OpInFlight?)
    || (e.LookedUp? && o.state.OpVerifying? && o.kind.OpKindCreate? && e.labels && e.found.LookupFound?)
  }

  function AcceptedRef(e: EngineStep): Option<ExternalId>
    requires e.Accepted? || (e.LookedUp? && e.found.LookupFound?)
  {
    if e.Accepted? then e.ref else Some(e.found.ext)
  }

  /** The provider said that the machine of a delete is gone. */
  predicate SaysGone(o: Operation, e: EngineStep) {
    && o.kind.OpKindDelete?
    && (|| (e.Refused? && o.state.OpInFlight? && SaysNotFound(e.failure))
        || SucceededAnswer(o, e)
        || LostAnswer(o, e)
        || (e.LookedUp? && o.state.OpVerifying? && o.target.Some? && e.found.LookupAbsent?))
  }

  /** A stop succeeded, or a create or start did and its machine is ready. */
  predicate Confirms(o: Operation, e: EngineStep) {
    !o.kind.OpKindDelete? && SucceededAnswer(o, e) && (o.kind.OpKindStop? || e.gate.GateReady?)
  }

  /** The named grounds on which an operation fails. */
  predicate Fails(o: Operation, e: EngineStep) {
    || (e.Refused? && o.state.OpInFlight? && (Rejects(e.failure) || (Parks(o) && SaysNotFound(e.failure))))
    || (e.Observed? && o.state.OpExternalAccepted? && e.seen.ObserveFailed?)
    || (LostAnswer(o, e) && Parks(o))
    || (SucceededAnswer(o, e) && (o.kind.OpKindCreate? || o.kind.OpKindStart?) && e.gate.GateExhausted?)
    || (e.LookedUp? && o.state.OpVerifying? && o.kind.OpKindDelete? && o.target.None?)
    || (e.GaveUp? && o.state.OpJournaled? && Parks(o) && o.attempt >= 8)
    || (e.NoDriver? && (o.state.OpJournaled? || o.state.OpExternalAccepted? || o.state.OpVerifying?))
    || (e.MarkedFailed? && o.state.OpUncertain?)
  }

  /** Where the failure leaves a live row. */
  function FailedPhase(o: Operation, e: EngineStep): Phase {
    if o.kind.OpKindStop? then Ready
    else if o.kind.OpKindStart? && !SucceededAnswer(o, e) then Parked
    else Failed
  }

  /** The operation is journaled again: it had no effect, or repeating it is harmless, or its machine is still there, or
      the deadline passed with nothing listed. */
  predicate Retries(o: Operation, e: EngineStep) {
    || (e.Refused? && o.state.OpInFlight? && !Rejects(e.failure)
        && if SaysNotFound(e.failure) then o.kind.OpKindCreate? && NoEffect(e.failure) else Parks(o) || NoEffect(e.failure))
    || (e.LookedUp? && o.state.OpVerifying?
        && (|| Parks(o)
            || (o.kind.OpKindDelete? && o.target.Some? && e.found.LookupFound?)
            || (o.kind.OpKindCreate? && e.labels && e.found.LookupAbsent?
                && (o.verifyDeadline.Some? ==> e.readAt >= o.verifyDeadline.value))))
  }

  /** The outcome is unknown and must be verified. */
  predicate Doubts(o: Operation, e: EngineStep) {
    || (e.Refused? && o.state.OpInFlight? && !Rejects(e.failure) && !Parks(o) && !NoEffect(e.failure)
        && !(o.kind.OpKindDelete? && SaysNotFound(e.failure)))
    || (LostAnswer(o, e) && o.kind.OpKindCreate?)
    || (e.Resumed? && o.state.OpInFlight?)
    || (e.Thawed? && o.state.OpUncertain?)
  }

  /** The provider cannot say what became of a create. */
  predicate Freezes(o: Operation, e: EngineStep) {
    e.LookedUp? && o.state.OpVerifying? && o.kind.OpKindCreate? && !e.labels
  }

  // ---- What follows ----

  /** The step reaches no other operation, row, lease or acquisition. */
  ghost predicate Scoped(db: Fleet, db': Fleet, op: OperationId)
    requires op in db.operations
  {
    && db'.leases == db.leases && db'.acquisitions == db.acquisitions
    && db'.operations.Keys == db.operations.Keys && db'.resources.Keys == db.resources.Keys
    && (forall x <- db.operations.Keys :: x != op ==> db'.operations[x] == db.operations[x])
    && (forall x <- db.resources.Keys :: x != db.operations[op].resource ==> db'.resources[x] == db.resources[x])
  }

  /** Another live row already records the machine. */
  predicate OwnedElsewhere(rows: Rows, id: ResourceId, ext: ExternalId) {
    exists x <- rows.Keys :: x != id && Live(rows, x) && rows[x].externalId == Some(ext)
  }

  /** Everything but the phase, the capacity and the clocks. */
  predicate TraitsAgree(r: Resource, r': Resource) {
    && r.ownership == r'.ownership && r.externalId == r'.externalId && r.deleteProtected == r'.deleteProtected && r.pool == r'.pool
    && r.className == r'.className && r.parkable == r'.parkable && r.createdAt == r'.createdAt
  }

  /** The side clocks follow the phase: when the row became ready other than from allocated, when it was drained, when it was
      parked. */
  predicate ClocksFollow(r: Resource, r': Resource, at: int) {
    && r'.lastLeaseEndedAt == r.lastLeaseEndedAt
    && if r'.phase == r.phase then r'.readyAt == r.readyAt && r'.drainStartedAt == r.drainStartedAt && r'.parkedAt == r.parkedAt
       else
         && r'.readyAt == (if r'.phase.Ready? && !r.phase.Allocated? then Some(at) else r.readyAt)
         && r'.drainStartedAt == (if r'.phase.Draining? then Some(at) else r.drainStartedAt)
         && r'.parkedAt == match r'.phase case Parked => Some(at) case Ready => None case _ => r.parkedAt
  }

  /** The operation becomes o' and no row changes. */
  ghost predicate OpBecomes(db: Fleet, db': Fleet, op: OperationId, o': Operation)
    requires op in db.operations
  {
    Scoped(db, db', op) && db'.resources == db.resources && db'.operations[op] == o'
  }

  /** The operation fails; a live row ends in the given phase and a dead one keeps everything. */
  ghost predicate BecomesFailed(db: Fleet, db': Fleet, op: OperationId, to: Phase, now: int)
    requires op in db.operations
  {
    var o := db.operations[op];
    && Scoped(db, db', op)
    && db'.operations[op] == o.(state := OpFailed)
    && o.resource in db.resources
    && if Live(db.resources, o.resource)
       then InPhase(db'.resources, o.resource, to) && TraitsAgree(db'.resources[o.resource], db.resources[o.resource])
            && db'.resources[o.resource].capacity == db.resources[o.resource].capacity
            && ClocksFollow(db.resources[o.resource], db'.resources[o.resource], now)
       else db'.resources[o.resource] == db.resources[o.resource]
  }

  /** The operation succeeds and its live row becomes a tombstone. */
  ghost predicate BecomesGone(db: Fleet, db': Fleet, op: OperationId, now: int)
    requires op in db.operations
  {
    var o := db.operations[op];
    && Scoped(db, db', op)
    && db'.operations[op] == o.(state := OpSucceeded)
    && Live(db.resources, o.resource)
    && db'.resources[o.resource] == db.resources[o.resource].(deletedAt := Some(now), updatedAt := now)
  }

  /** The operation succeeds and its live row serves in the given phase, with the capacity the provider reported. */
  ghost predicate BecomesServing(db: Fleet, db': Fleet, op: OperationId, to: Phase, facts: Option<Vector>, now: int)
    requires op in db.operations
  {
    var o := db.operations[op];
    && Scoped(db, db', op)
    && db'.operations[op] == o.(state := OpSucceeded)
    && Live(db.resources, o.resource) && InPhase(db'.resources, o.resource, to)
    && TraitsAgree(db'.resources[o.resource], db.resources[o.resource])
    && ClocksFollow(db.resources[o.resource], db'.resources[o.resource], now)
    && db'.resources[o.resource].capacity == if facts.Some? then facts.value else db.resources[o.resource].capacity
  }

  /** The reference is kept on the operation and, for a create, on its row. */
  ghost predicate BecomesAttached(db: Fleet, db': Fleet, op: OperationId, ref: Option<ExternalId>)
    requires op in db.operations
  {
    var o := db.operations[op];
    && Scoped(db, db', op)
    && db'.operations[op] == o.(state := OpExternalAccepted, ref := ref)
    && o.resource in db.resources
    && db'.resources[o.resource] ==
       if o.kind.OpKindCreate? && ref.Some? then db.resources[o.resource].(externalId := ref) else db.resources[o.resource]
  }

  ghost predicate Outcome(db: Fleet, db': Fleet, e: EngineStep, now: int)
    requires e.op in db.operations
  {
    var o := db.operations[e.op];
    if Sends(o, e) then
      OpBecomes(db, db', e.op, o.(state := OpInFlight, attempt := o.attempt + 1, verifyDeadline := Some(now + e.window)))
    else if Accepts(o, e) then
      var ref := AcceptedRef(e);
      if o.kind.OpKindCreate? && ref.Some? && Live(db.resources, o.resource) && OwnedElsewhere(db.resources, o.resource, ref.value)
      then db' == db
      else BecomesAttached(db, db', e.op, ref)
    else if SaysGone(o, e) then
      BecomesGone(db, db', e.op, now)
    else if Confirms(o, e) then
      if Live(db.resources, o.resource)
      then BecomesServing(db, db', e.op, if o.kind.OpKindStop? then Parked else Ready, if o.kind.OpKindStop? then None else e.seen.facts, now)
      else db' == db
    else if Fails(o, e) then
      BecomesFailed(db, db', e.op, FailedPhase(o, e), now)
    else if Retries(o, e) then
      OpBecomes(db, db', e.op, o.(state := OpJournaled))
    else if Doubts(o, e) then
      OpBecomes(db, db', e.op, o.(state := OpVerifying, verifyDeadline := if e.Thawed? then Some(now + TWO_DAYS_MS) else o.verifyDeadline))
    else if Freezes(o, e) then
      OpBecomes(db, db', e.op, o.(state := OpUncertain))
    else
      db' == db
  }

  // ---- Why it follows ----

  ghost predicate Holds(db: Fleet, op: OperationId) {
    ActiveOp(db.operations, op) ==> OpHolds(db.resources, db.operations[op]) && OpBounded(db.operations[op])
  }

  lemma MoveEffect(db: Fleet, op: OperationId, from: OpState, to: OpState)
    requires OpIn(db, op, from)
    ensures OpBecomes(db, MoveOp(db, op, from, to), op, db.operations[op].(state := to))
  {
  }

  lemma FailPhasesEffect(db: Fleet, op: OperationId, from: OpState, to: Phase, now: int)
    requires OpIn(db, op, from) && !from.Terminal() && Holds(db, op)
    ensures BecomesFailed(db, FailOpPhases(db, op, from, ShieldOf(db.operations[op].kind), to, now), op, to, now)
  {
  }

  lemma FailEffect(db: Fleet, op: OperationId, from: OpState, now: int)
    requires OpIn(db, op, from) && !from.Terminal() && Holds(db, op)
    ensures var kind := db.operations[op].kind;
            BecomesFailed(db, FailOp(db, op, from, now), op,
                          if kind.OpKindStop? then Ready else if kind.OpKindStart? then Parked else Failed, now)
  {
    FailPhasesEffect(db, op, from, FailureOf(db.operations[op].kind), now);
  }

  lemma GoneEffect(db: Fleet, op: OperationId, from: OpState, now: int)
    requires OpIn(db, op, from) && !from.Terminal() && Holds(db, op) && db.operations[op].kind.OpKindDelete?
    ensures BecomesGone(db, SucceedDelete(db, op, from, now), op, now)
  {
  }

  lemma FinishEffect(db: Fleet, op: OperationId, from: OpState, to: Phase, facts: Option<Vector>, now: int)
    requires OpIn(db, op, from) && !from.Terminal() && Holds(db, op)
    ensures var db' := Finish(db, op, from, to, facts, now);
            if Live(db.resources, db.operations[op].resource) then BecomesServing(db, db', op, to, facts, now) else db' == db
  {
    var o := db.operations[op];
    assert OpHolds(db.resources, o);
    hide Holds, OpHolds;
    if Live(db.resources, o.resource) {
      var r := db.resources[o.resource];
      ServingRow(r, to, facts, now);
      hide Moved, WithFacts, ClocksFollow, TraitsAgree;
      assert Finish(db, op, from, to, facts, now) == SetOp(SetRow(db, o.resource, Moved(WithFacts(r, facts, now), to, now)), op, o.(state := OpSucceeded));
    }
  }

  lemma ServingRow(r: Resource, to: Phase, facts: Option<Vector>, now: int)
    requires Shielded(r.phase)
    ensures var r' := Moved(WithFacts(r, facts, now), to, now);
            && ClocksFollow(r, r', now) && TraitsAgree(r', r) && r'.phase == to && r'.deletedAt == r.deletedAt
            && r'.capacity == if facts.Some? then facts.value else r.capacity
  {
  }

  lemma AttachEffect(db: Fleet, op: OperationId, from: OpState, ref: Option<ExternalId>)
    requires OpIn(db, op, from) && !from.Terminal() && Holds(db, op)
    ensures var o, db' := db.operations[op], Attach(db, op, from, ref);
            if o.kind.OpKindCreate? && ref.Some? && Live(db.resources, o.resource) && OwnedElsewhere(db.resources, o.resource, ref.value)
            then db' == db
            else BecomesAttached(db, db', op, ref)
  {
  }

  lemma RefusedOutcome(db: Fleet, op: OperationId, f: Failure, now: int)
    requires Holds(db, op) && op in db.operations
    ensures Outcome(db, EngineNext(db, Refused(op, f), now), Refused(op, f), now)
  {
    hide Holds, MoveOp, FailOp, SucceedDelete, OpBecomes, BecomesFailed, BecomesGone;
    if OpIn(db, op, OpInFlight) {
      if db.operations[op].kind.OpKindDelete? { GoneEffect(db, op, OpInFlight, now); }
      FailEffect(db, op, OpInFlight, now);
      MoveEffect(db, op, OpInFlight, OpJournaled);
      MoveEffect(db, op, OpInFlight, OpVerifying);
    }
  }

  lemma ObservedOutcome(db: Fleet, op: OperationId, seen: Observation, gate: Gate, now: int)
    requires Holds(db, op) && op in db.operations
    ensures Outcome(db, EngineNext(db, Observed(op, seen, gate), now), Observed(op, seen, gate), now)
  {
    hide Holds, MoveOp, FailOp, FailOpPhases, Finish, SucceedDelete, OpBecomes, BecomesFailed, BecomesGone, BecomesServing;
    if OpIn(db, op, OpExternalAccepted) {
      if db.operations[op].kind.OpKindDelete? { GoneEffect(db, op, OpExternalAccepted, now); }
      FailEffect(db, op, OpExternalAccepted, now);
      FailPhasesEffect(db, op, OpExternalAccepted, Failed, now);
      MoveEffect(db, op, OpExternalAccepted, OpVerifying);
      FinishEffect(db, op, OpExternalAccepted, Parked, None, now);
      if seen.ObserveSucceeded? { FinishEffect(db, op, OpExternalAccepted, Ready, seen.facts, now); }
    }
  }

  lemma LookedUpOutcome(db: Fleet, op: OperationId, labels: bool, found: Lookup, readAt: int, now: int)
    requires Holds(db, op) && op in db.operations
    ensures Outcome(db, EngineNext(db, LookedUp(op, labels, found, readAt), now), LookedUp(op, labels, found, readAt), now)
  {
    hide Holds, MoveOp, FailOp, SucceedDelete, Attach, OwnedElsewhere, OpBecomes, BecomesFailed, BecomesGone, BecomesAttached;
    if OpIn(db, op, OpVerifying) {
      if db.operations[op].kind.OpKindDelete? { GoneEffect(db, op, OpVerifying, now); }
      FailEffect(db, op, OpVerifying, now);
      MoveEffect(db, op, OpVerifying, OpJournaled);
      MoveEffect(db, op, OpVerifying, OpUncertain);
      if found.LookupFound? { AttachEffect(db, op, OpVerifying, Some(found.ext)); }
    }
  }

  /** Steps without an answer from the provider. */
  lemma DecidedOutcome(db: Fleet, e: EngineStep, now: int)
    requires Holds(db, e.op) && e.op in db.operations
    requires e.Dispatched? || e.Resumed? || e.Thawed?
    ensures Outcome(db, EngineNext(db, e, now), e, now)
  {
    hide Holds, BecomesFailed, BecomesGone, BecomesServing, BecomesAttached;
  }

  lemma AbandonedOutcome(db: Fleet, e: EngineStep, now: int)
    requires Holds(db, e.op) && e.op in db.operations
    requires e.GaveUp? || e.NoDriver?
    ensures Outcome(db, EngineNext(db, e, now), e, now)
  {
    var s := db.operations[e.op].state;
    if s in {OpJournaled, OpExternalAccepted, OpVerifying} {
      FailEffect(db, e.op, s, now);
      hide Holds, FailOp, BecomesFailed;
      assert s != OpJournaled && e.GaveUp? ==> EngineNext(db, e, now) == db by { UntouchedEffect(db, e.op, OpJournaled, now); }
    }
  }

  lemma UntouchedEffect(db: Fleet, op: OperationId, from: OpState, now: int)
    ensures !OpIn(db, op, from) ==> FailOp(db, op, from, now) == db
  {
  }

  lemma AttestedOutcome(db: Fleet, op: OperationId, now: int)
    requires Holds(db, op) && op in db.operations
    ensures Outcome(db, EngineNext(db, MarkedFailed(op), now), MarkedFailed(op), now)
  {
    if OpIn(db, op, OpUncertain) {
      FailPhasesEffect(db, op, OpUncertain, Failed, now);
    }
    hide FailOpPhases, BecomesFailed;
  }

  lemma AcceptedOutcome(db: Fleet, op: OperationId, ref: Option<ExternalId>, now: int)
    requires Holds(db, op) && op in db.operations
    ensures Outcome(db, EngineNext(db, Accepted(op, ref), now), Accepted(op, ref), now)
  {
    if OpIn(db, op, OpInFlight) {
      AttachEffect(db, op, OpInFlight, ref);
      hide Holds, Attach, OwnedElsewhere, BecomesAttached;
    }
  }

  /** Every engine step is settled by its answer. */
  lemma EngineOutcome(db: Fleet, e: EngineStep, now: int)
    requires Inv(db) && e.op in db.operations
    ensures Outcome(db, EngineNext(db, e, now), e, now)
  {
    assert Holds(db, e.op);
    hide Inv, Holds, Outcome, EngineNext;
    match e
    case Refused(op, f) => RefusedOutcome(db, op, f, now);
    case Observed(op, seen, gate) => ObservedOutcome(db, op, seen, gate, now);
    case LookedUp(op, labels, found, readAt) => LookedUpOutcome(db, op, labels, found, readAt, now);
    case Accepted(op, ref) => AcceptedOutcome(db, op, ref, now);
    case MarkedFailed(op) => AttestedOutcome(db, op, now);
    case GaveUp(_) => AbandonedOutcome(db, e, now);
    case NoDriver(_) => AbandonedOutcome(db, e, now);
    case _ => DecidedOutcome(db, e, now);
  }

  // ---- Operations over every run ----

  /** The answer of this step settles the operation well. */
  predicate Succeeds(rows: Rows, o: Operation, e: EngineStep) {
    SaysGone(o, e) || (Confirms(o, e) && Live(rows, o.resource))
  }

  lemma OutcomeSettles(db: Fleet, db': Fleet, e: EngineStep, now: int)
    requires e.op in db.operations && !db.operations[e.op].state.Terminal() && Outcome(db, db', e, now)
    ensures var o := db.operations[e.op];
            && e.op in db'.operations
            && (db'.operations[e.op].state.OpFailed? <==> Fails(o, e))
            && (db'.operations[e.op].state.OpSucceeded? <==> Succeeds(db.resources, o, e))
  {
  }

  lemma OutcomeSpares(db: Fleet, db': Fleet, e: EngineStep, now: int, id: ResourceId)
    requires e.op in db.operations && Outcome(db, db', e, now) && Live(db.resources, id)
    ensures !Live(db'.resources, id) <==> db.operations[e.op].resource == id && SaysGone(db.operations[e.op], e)
  {
  }

  lemma NoOpNoChange(db: Fleet, e: EngineStep, now: int)
    requires e.op !in db.operations
    ensures EngineNext(db, e, now) == db
  {
  }

  /** Over every run: an operation fails exactly on its named grounds, and succeeds exactly on its confirming answer. */
  lemma SettledExactlyOnEvidence(clock: int, steps: seq<Step>, s: Step, op: OperationId)
    requires ActiveOp(Run(Boot(clock), steps).db.operations, op)
    ensures var w, ops' := Run(Boot(clock), steps), Run(Boot(clock), steps + [s]).db.operations;
            var o := w.db.operations[op];
            && op in ops'
            && (ops'[op].state.OpFailed? <==> s.Engine? && s.e.op == op && Fails(o, s.e))
            && (ops'[op].state.OpSucceeded? <==> s.Engine? && s.e.op == op && Succeeds(w.db.resources, o, s.e))
            && !ops'[op].state.OpAborted?
  {
    var w := Run(Boot(clock), steps);
    assert (steps + [s])[..|steps|] == steps;
    BootIsSound(clock);
    RunIsSound(Boot(clock), steps);
    SettledByStep(w, s, op);
  }

  lemma SettledByStep(w: World, s: Step, op: OperationId)
    requires Inv(w.db) && ActiveOp(w.db.operations, op)
    ensures var o, ops' := w.db.operations[op], NextDb(w, s).operations;
            && op in ops'
            && (ops'[op].state.OpFailed? <==> s.Engine? && s.e.op == op && Fails(o, s.e))
            && (ops'[op].state.OpSucceeded? <==> s.Engine? && s.e.op == op && Succeeds(w.db.resources, o, s.e))
            && !ops'[op].state.OpAborted?
  {
    hide Inv, EngineNext, Outcome, Fails, Succeeds;
    if !s.Engine? {
      OthersKeepOps(w, s, op);
    } else if s.e.op !in w.db.operations {
      NoOpNoChange(w.db, s.e, w.clock);
    } else {
      EngineOutcome(w.db, s.e, w.clock);
      if s.e.op == op {
        OutcomeSettles(w.db, NextDb(w, s), s.e, w.clock);
        OutcomeNeverAborts(w.db, NextDb(w, s), s.e, w.clock);
      } else {
        OutcomeIsScoped(w.db, NextDb(w, s), s.e, w.clock);
      }
    }
  }

  lemma OutcomeNeverAborts(db: Fleet, db': Fleet, e: EngineStep, now: int)
    requires e.op in db.operations && !db.operations[e.op].state.Terminal() && Outcome(db, db', e, now)
    ensures e.op in db'.operations && !db'.operations[e.op].state.OpAborted?
  {
  }

  lemma OutcomeIsScoped(db: Fleet, db': Fleet, e: EngineStep, now: int)
    requires e.op in db.operations && Outcome(db, db', e, now)
    ensures Scoped(db, db', e.op)
  {
  }

  /** The step at moment k of a run is the engine's, on this operation. */
  predicate AnsweredAt(clock: int, steps: seq<Step>, k: nat, op: OperationId)
    requires k < |steps|
  {
    && steps[k].Engine? && steps[k].e.op == op
    && op in Run(Boot(clock), steps[..k]).db.operations
  }

  /** The history of a finished operation holds the answer that finished it, and nothing else finishes one. */
  lemma {:induction false} FinishedHasItsAnswer(clock: int, steps: seq<Step>, op: OperationId) returns (k: nat)
    requires op in Run(Boot(clock), steps).db.operations && Run(Boot(clock), steps).db.operations[op].state.Terminal()
    ensures k < |steps| && AnsweredAt(clock, steps, k, op)
    ensures var earlier, state := Run(Boot(clock), steps[..k]).db, Run(Boot(clock), steps).db.operations[op].state;
            var o := earlier.operations[op];
            && !o.state.Terminal()
            && (if state.OpFailed? then Fails(o, steps[k].e) else state.OpSucceeded? && Succeeds(earlier.resources, o, steps[k].e))
  {
    hide Fails, Succeeds, NextDb, Sound;
    assert |steps| > 0;
    var n := |steps| - 1;
    var prefix, s := steps[..n], steps[n];
    var w := Run(Boot(clock), prefix);
    assert prefix + [s] == steps;
    assert Run(Boot(clock), steps) == Next(w, s);
    BootIsSound(clock);
    RunIsSound(Boot(clock), prefix);
    InvOf(w);
    if op !in w.db.operations {
      NewOpIsJournaled(w, s, op);
      assert false;
    } else if w.db.operations[op].state.Terminal() {
      StepOpEdge(w, s, op);
      k := FinishedHasItsAnswer(clock, prefix, op);
      assert prefix[..k] == steps[..k];
    } else {
      SettledExactlyOnEvidence(clock, prefix, s, op);
      k := n;
    }
  }

  lemma InvOf(w: World)
    requires Sound(w)
    ensures Inv(w.db)
  {
  }

  // ---- Patience ----

  /** Answers that settle nothing: still at work, a transient error, a machine not yet ready, a lookup that failed, and an
      empty listing before the deadline. */
  predicate Inconclusive(o: Operation, e: EngineStep) {
    || (e.Observed? && o.state.OpExternalAccepted?
        && match e.seen
           case ObservePending => true
           case ObserveError(f) => !SaysNotFound(f)
           case ObserveSucceeded(_) => (o.kind.OpKindCreate? || o.kind.OpKindStart?) && e.gate.GateNotYet?
           case ObserveFailed => false)
    || (e.LookedUp? && o.state.OpVerifying? && !Parks(o)
        && match e.found
           case LookupError => if o.kind.OpKindCreate? then e.labels else o.target.Some?
           case LookupAbsent => o.kind.OpKindCreate? && e.labels && o.verifyDeadline.Some? && e.readAt < o.verifyDeadline.value
           case LookupFound(_) => false)
  }

  /** An inconclusive answer changes nothing at all. */
  lemma InconclusiveChangesNothing(db: Fleet, e: EngineStep, now: int)
    requires Inv(db) && e.op in db.operations && Inconclusive(db.operations[e.op], e)
    ensures EngineNext(db, e, now) == db
  {
    hide Inv, EngineNext;
    EngineOutcome(db, e, now);
  }

  /** A delete whose machine is still there goes back to the journal, and its row stays as it was. */
  lemma StillThereIsRetried(db: Fleet, op: OperationId, labels: bool, ext: ExternalId, readAt: int, now: int)
    requires Inv(db) && OpIn(db, op, OpVerifying) && db.operations[op].kind.OpKindDelete?
    ensures var db' := EngineNext(db, LookedUp(op, labels, LookupFound(ext), readAt), now);
            && db'.resources == db.resources && Live(db.resources, db.operations[op].resource)
            && op in db'.operations && db'.operations[op] == db.operations[op].(state := OpJournaled)
  {
    assert OpHolds(db.resources, db.operations[op]);
    hide Inv, EngineNext;
    EngineOutcome(db, LookedUp(op, labels, LookupFound(ext), readAt), now);
  }

  // ---- Tombstones over every run ----

  /** The grounds on which a live row becomes a tombstone: the provider said that the machine of its delete is gone; it never
      had a machine and a delete passed its gates; or it is an orphan that a sweep did not see and a direct get did not find. */
  predicate LetsGo(w: World, s: Step, id: ResourceId)
    requires Live(w.db.resources, id)
  {
    var r := w.db.resources[id];
    match s
    case Engine(e) => e.op in w.db.operations && w.db.operations[e.op].resource == id && SaysGone(w.db.operations[e.op], e)
    case Manage(m) =>
      && (m.ApiDelete? || m.PoolDelete? || m.Reclaim?) && m.id == id && r.externalId.None?
      && r.ownership.OwnershipManaged? && !r.deleteProtected && Unleased(w.db.leases, id)
      && (m.PoolDelete? ==> r.phase.Draining? || r.phase.Failed?)
      && (m.Reclaim? ==> (if m.parked then r.phase.Parked? else r.phase.Ready?) && !QueueBlocks(w.db, id, w.clock))
    case Discover(v) =>
      && v.Bury? && v.id == id && w.sweep.Armed? && id in w.sweep.rows
      && w.sweep.rows[id].phase.Orphaned? && w.sweep.rows[id].externalId.Some?
      && id !in w.sweep.seen && id !in w.sweep.open && id in w.sweep.missing
      && w.sweep.at - w.sweep.rows[id].updatedAt >= v.graceMs
      && Unleased(w.db.leases, id)
    case _ => false
  }

  lemma EngineLetsGo(w: World, e: EngineStep, id: ResourceId)
    requires Inv(w.db) && Live(w.db.resources, id)
    ensures !Live(NextDb(w, Engine(e)).resources, id) <==> LetsGo(w, Engine(e), id)
  {
    hide Inv, EngineNext, Outcome, SaysGone;
    if e.op in w.db.operations {
      EngineOutcome(w.db, e, w.clock);
      OutcomeSpares(w.db, NextDb(w, Engine(e)), e, w.clock, id);
    } else {
      NoOpNoChange(w.db, e, w.clock);
    }
  }

  lemma FleetLetsGo(w: World, m: FleetStep, id: ResourceId)
    requires Live(w.db.resources, id)
    ensures !Live(NextDb(w, Manage(m)).resources, id) <==> LetsGo(w, Manage(m), id)
  {
    hide QueueBlocks, OpFree, Unleased;
  }

  lemma ServingLetsNoneGo(db: Fleet, d: DemandStep, now: int, id: ResourceId)
    requires Live(db.resources, id)
    ensures Live(DemandNext(db, d, now).resources, id)
  {
    hide CanReserve, OpFree, LastLease;
  }

  lemma SweepLetsGo(w: World, v: SweepStep, id: ResourceId)
    requires Live(w.db.resources, id)
    ensures !Live(SweepDb(w.db, w.sweep, v).resources, id) <==> LetsGo(w, Discover(v), id)
  {
    hide Unleased, ExternalFree;
  }

  lemma OthersLetGo(w: World, s: Step, id: ResourceId)
    requires Live(w.db.resources, id) && !s.Engine? && !s.Manage?
    ensures !Live(NextDb(w, s).resources, id) <==> LetsGo(w, s, id)
  {
    hide DemandNext, SweepDb;
    match s
    case Serve(d) => ServingLetsNoneGo(w.db, d, w.clock, id);
    case Discover(v) => SweepLetsGo(w, v, id);
    case _ =>
  }

  /** Over every run: a live row becomes a tombstone exactly on these grounds. */
  lemma TombstonedExactlyOnGrounds(clock: int, steps: seq<Step>, s: Step, id: ResourceId)
    requires Live(Run(Boot(clock), steps).db.resources, id)
    ensures !Live(Run(Boot(clock), steps + [s]).db.resources, id) <==> LetsGo(Run(Boot(clock), steps), s, id)
  {
    var w := Run(Boot(clock), steps);
    assert (steps + [s])[..|steps|] == steps;
    BootIsSound(clock);
    RunIsSound(Boot(clock), steps);
    InvOf(w);
    hide LetsGo, NextDb, Sound;
    match s
    case Engine(e) => EngineLetsGo(w, e, id);
    case Manage(m) => FleetLetsGo(w, m, id);
    case _ => OthersLetGo(w, s, id);
  }
}
