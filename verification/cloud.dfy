/**
 * Creates against an eventually consistent cloud. A dispatched create is an order that may land at any moment before
 * the deadline its dispatch persisted, or never; a landed machine may stay out of listings until that deadline; replies
 * may be lost; the process may crash between any two transactions. The provider need not deduplicate.
 */
module Cloud {
  import opened Basics
  import opened Storage
  import opened ProviderErrors
  import opened Transactions
  import opened Invariants
  import opened Runs
  import opened Guarantees
  import Evidence

  /** What became of one dispatched create at the provider. */
  datatype Stage = InTransit | Running(ext: ExternalId) | Gone

  /** The n-th create request the engine let out: the machine it makes carries the label of its operation, lands before
      the deadline if at all, and is listed from the deadline on. */
  datatype Order = Order(op: OperationId, due: int, stage: Stage)

  /** What the single engine thread holds in memory between two transactions. */
  datatype Call =
    | NoCall
    | Applying(op: OperationId, serial: nat)
    | Looked(op: OperationId, readAt: int, found: set<ExternalId>)

  /** labels says whether the provider can list by label; a driver either can or cannot. retired are the machines whose rows
      the engine turned into tombstones. */
  datatype System = System(w: World, orders: seq<Order>, call: Call, labels: bool, retired: set<ExternalId>)

  datatype Move =
    | Actor(s: Step)
    | SendCreate(op: OperationId, window: nat)
    | Land(serial: nat, ext: ExternalId)
    | ReplyAccepted(ref: Option<ExternalId>)
    | ReplyFailed(failure: Failure)
    | LookUp(op: OperationId, readAt: int, listed: set<ExternalId>)
    | Decide(pick: ExternalId)
    | Vanish(serial: nat)

  predicate IsCreate(w: World, op: OperationId) {
    op in w.db.operations && w.db.operations[op].kind.OpKindCreate?
  }

  /** The engine transactions on a create that rest on what the cloud answered; they only happen through the moves below. */
  predicate Drives(w: World, s: Step) {
    s.Engine? && match s.e
                 case Dispatched(op, _) => IsCreate(w, op)
                 case Accepted(op, _) => IsCreate(w, op)
                 case Refused(op, _) => IsCreate(w, op)
                 case LookedUp(op, labels, _, _) => labels && IsCreate(w, op)
                 case _ => false
  }

  /** The engine freezes a create whose provider cannot list by label. */
  predicate Freezes(w: World, s: Step) {
    s.Engine? && s.e.LookedUp? && !s.e.labels && IsCreate(w, s.e.op)
  }

  /** A listing may miss any machine until its deadline, and none of the live ones after it. */
  predicate FaithfulListing(sys: System, op: OperationId, listed: set<ExternalId>) {
    forall n | 0 <= n < |sys.orders| ::
      sys.orders[n].op == op && sys.orders[n].stage.Running? && sys.orders[n].due <= sys.w.clock ==> sys.orders[n].stage.ext in listed
  }

  predicate IsUp(orders: seq<Order>, ext: ExternalId) {
    exists n | 0 <= n < |orders| :: orders[n].stage == Running(ext)
  }

  /** The provider says that the machine of a delete is gone only when it is. */
  predicate HonestAboutDeletes(sys: System, s: Step) {
    s.Engine? && s.e.op in sys.w.db.operations ==>
      var o := sys.w.db.operations[s.e.op];
      Evidence.SaysGone(o, s.e) && o.target.Some? ==> !IsUp(sys.orders, o.target.value)
  }

  /** The machines whose live rows an engine step turns into tombstones. */
  function Retires(w: World, s: Step): set<ExternalId> {
    if !s.Engine? then {}
    else
      set id | id in w.db.resources && Live(w.db.resources, id) && !Live(NextDb(w, s).resources, id)
               && w.db.resources[id].externalId.Some? :: w.db.resources[id].externalId.value
  }

  /** Whether a move can happen now. A reply that claims no effect is honest: its request has not landed. A machine lands under
      an identity that no retired machine had. */
  predicate Enabled(sys: System, m: Move) {
    match m
    case Actor(s) => !Drives(sys.w, s) && (Freezes(sys.w, s) ==> !sys.labels) && HonestAboutDeletes(sys, s)
    case SendCreate(op, window) => sys.call.NoCall? && IsCreate(sys.w, op) && OpIn(sys.w.db, op, OpJournaled)
    case Land(serial, ext) =>
      serial < |sys.orders| && sys.orders[serial].stage.InTransit? && sys.w.clock < sys.orders[serial].due && ext !in sys.retired
    case ReplyAccepted(_) => sys.call.Applying?
    case ReplyFailed(f) =>
      && sys.call.Applying?
      && (Effect(f).EffectNone? ==> sys.call.serial < |sys.orders| && sys.orders[sys.call.serial].stage.InTransit?)
    case LookUp(op, readAt, listed) =>
      && sys.labels && sys.call.NoCall? && IsCreate(sys.w, op) && OpIn(sys.w.db, op, OpVerifying)
      && readAt <= sys.w.clock && FaithfulListing(sys, op, listed)
    case Decide(pick) => sys.call.Looked? && (sys.call.found != {} ==> pick in sys.call.found)
    case Vanish(serial) => serial < |sys.orders| && sys.orders[serial].stage.Running?
  }

  function Staged(orders: seq<Order>, n: nat, stage: Stage): seq<Order>
    requires n < |orders|
  {
    orders[n := orders[n].(stage := stage)]
  }

  function SysNext(sys: System, m: Move): System
    requires Enabled(sys, m)
  {
    match m
    case Actor(s) =>
      sys.(w := Next(sys.w, s), call := if s.Crash? then NoCall else sys.call, retired := sys.retired + Retires(sys.w, s))
    case SendCreate(op, window) =>
      System(Next(sys.w, Engine(Dispatched(op, window))),
             sys.orders + [Order(op, sys.w.clock + window, InTransit)],
             Applying(op, |sys.orders|), sys.labels, sys.retired)
    case Land(serial, ext) => sys.(orders := Staged(sys.orders, serial, Running(ext)))
    case ReplyAccepted(ref) => sys.(w := Next(sys.w, Engine(Accepted(sys.call.op, ref))), call := NoCall)
    case ReplyFailed(f) =>
      System(Next(sys.w, Engine(Refused(sys.call.op, f))),
             if Effect(f).EffectNone? then Staged(sys.orders, sys.call.serial, Gone) else sys.orders,
             NoCall, sys.labels, sys.retired)
    case LookUp(op, readAt, listed) => sys.(call := Looked(op, readAt, listed))
    case Decide(pick) =>
      var found := if sys.call.found == {} then LookupAbsent else LookupFound(pick);
      sys.(w := Next(sys.w, Engine(LookedUp(sys.call.op, true, found, sys.call.readAt))), call := NoCall)
    case Vanish(serial) => sys.(orders := Staged(sys.orders, serial, Gone))
  }

  /** A move that is not enabled does not happen. */
  function SysRun(sys: System, moves: seq<Move>): System {
    if |moves| == 0 then sys
    else
      var before := SysRun(sys, moves[..|moves| - 1]);
      if Enabled(before, moves[|moves| - 1]) then SysNext(before, moves[|moves| - 1]) else before
  }

  function PowerOn(clock: int, labels: bool): System {
    System(Boot(clock), [], NoCall, labels, {})
  }

  // ---- What the protocol keeps ----

  /** The order has a live machine, or may still get one. */
  predicate Open(orders: seq<Order>, clock: int, op: OperationId, n: nat) {
    && n < |orders| && orders[n].op == op
    && (orders[n].stage.Running? || (orders[n].stage.InTransit? && clock < orders[n].due))
  }

  /** At most one order is open and none while the operation is merely journaled; where listings can settle what became of
      it, the persisted deadline bounds it. */
  ghost predicate OpSafe(orders: seq<Order>, clock: int, op: OperationId, o: Operation, labels: bool) {
    && (forall n: nat, k: nat :: Open(orders, clock, op, n) && Open(orders, clock, op, k) ==> n == k)
    && (forall n: nat :: Open(orders, clock, op, n) ==>
          && !o.state.OpJournaled?
          && (labels ==> o.verifyDeadline.Some? && orders[n].due <= o.verifyDeadline.value))
  }

  ghost predicate OpsSafe(sys: System) {
    forall op :: IsCreate(sys.w, op) ==> OpSafe(sys.orders, sys.w.clock, op, sys.w.db.operations[op], sys.labels)
  }

  ghost predicate OrdersSafe(sys: System) {
    forall n | 0 <= n < |sys.orders| :: IsCreate(sys.w, sys.orders[n].op)
  }

  /** Where the provider lists by label no create ever freezes, so no operator resets its deadline. */
  ghost predicate NoneFrozen(sys: System) {
    sys.labels ==> forall op :: IsCreate(sys.w, op) ==> !OpIn(sys.w.db, op, OpUncertain)
  }

  /** A call in progress is the only one that can still have an effect; an empty listing rules out every order whose
      deadline had passed when the clock was read. */
  ghost predicate CallSafe(sys: System) {
    match sys.call
    case NoCall => true
    case Applying(op, serial) => IsCreate(sys.w, op) && forall n: nat :: Open(sys.orders, sys.w.clock, op, n) ==> n == serial
    case Looked(op, readAt, found) =>
      sys.labels && IsCreate(sys.w, op) && (found == {} ==> forall n: nat :: Open(sys.orders, sys.w.clock, op, n) ==> readAt < sys.orders[n].due)
  }

  ghost predicate CloudSafe(sys: System) {
    Inv(sys.w.db) && OrdersSafe(sys) && OpsSafe(sys) && NoneFrozen(sys) && CallSafe(sys)
  }

  lemma ObservedOnOp(db: Fleet, o: OperationId, seen: Observation, gate: Gate, now: int, op: OperationId)
    requires op in db.operations
    ensures var db' := Polled(db, o, seen, gate, now);
            && op in db'.operations
            && db'.operations[op].kind == db.operations[op].kind
            && db'.operations[op].verifyDeadline == db.operations[op].verifyDeadline
            && (OpIn(db', op, OpJournaled) ==> OpIn(db, op, OpJournaled))
            && (OpIn(db', op, OpUncertain) ==> OpIn(db, op, OpUncertain))
  {
    hide InPhase, Live, Moved, WithFacts, Tombstoned, Classify, Effect, CanFinish, ExternalFree;
  }

  /** What the other actors may do to an existing create. */
  lemma ActorOnCreate(w: World, s: Step, op: OperationId)
    requires !Drives(w, s) && IsCreate(w, op)
    ensures IsCreate(Next(w, s), op)
    ensures OpIn(Next(w, s).db, op, OpJournaled) ==> OpIn(w.db, op, OpJournaled)
    ensures !OpIn(w.db, op, OpUncertain) && !Freezes(w, s) ==>
              && !OpIn(Next(w, s).db, op, OpUncertain)
              && Next(w, s).db.operations[op].verifyDeadline == w.db.operations[op].verifyDeadline
  {
    if !s.Engine? {
      OthersKeepOps(w, s, op);
    } else {
      match s.e
      case Refused(o, f) => RefusedOpEdge(w.db, o, f, w.clock, op); OtherOpKept(w.db, s.e, w.clock, o, op);
      case Observed(o, seen, gate) => ObservedOnOp(w.db, o, seen, gate, w.clock, op);
      case LookedUp(o, labels, found, readAt) => OtherOpKept(w.db, s.e, w.clock, o, op);
      case _ =>
    }
  }

  /** An engine transaction touches no operation but its own. */
  lemma OtherOpKept(db: Fleet, e: EngineStep, now: int, o: OperationId, op: OperationId)
    requires op in db.operations && e.op == o
    ensures var db' := EngineNext(db, e, now);
            op in db'.operations && (op != o ==> db'.operations[op] == db.operations[op])
  {
    hide InPhase, Live, Moved, WithFacts, Tombstoned, Classify, Effect, CanFinish, ExternalFree;
  }

  /** No operation changes its kind. */
  lemma KindsStay(w: World, s: Step, op: OperationId)
    requires Inv(w.db) && op in w.db.operations
    ensures IsCreate(Next(w, s), op) <==> IsCreate(w, op)
  {
    StepOpEdge(w, s, op);
  }

  lemma ActorKeepsOp(sys: System, s: Step, op: OperationId)
    requires CloudSafe(sys) && Enabled(sys, Actor(s)) && IsCreate(Next(sys.w, s), op)
    ensures OpSafe(sys.orders, Next(sys.w, s).clock, op, NextDb(sys.w, s).operations[op], sys.labels)
    ensures sys.labels ==> !OpIn(NextDb(sys.w, s), op, OpUncertain)
  {
    hide Inv, NextDb;
    if op in sys.w.db.operations {
      CloudInv(sys);
      KindsStay(sys.w, s, op);
      ActorOnCreate(sys.w, s, op);
      assert OpSafe(sys.orders, sys.w.clock, op, sys.w.db.operations[op], sys.labels);
    } else {
      NewOpIsJournaled(sys.w, s, op);
    }
    forall n: nat | Open(sys.orders, Next(sys.w, s).clock, op, n)
      ensures Open(sys.orders, sys.w.clock, op, n) && IsCreate(sys.w, op)
    {
    }
  }

  lemma CloudInv(sys: System)
    requires CloudSafe(sys)
    ensures Inv(sys.w.db)
  {
  }

  lemma ActorKeepsSafe(sys: System, s: Step)
    requires CloudSafe(sys) && SnapshotHolds(sys.w.db.resources, sys.w.sweep) && Enabled(sys, Actor(s))
    ensures CloudSafe(SysNext(sys, Actor(s)))
  {
    var sys' := SysNext(sys, Actor(s));
    StepKeepsInv(sys.w, s);
    forall op | IsCreate(sys'.w, op)
      ensures OpSafe(sys.orders, sys'.w.clock, op, sys'.w.db.operations[op], sys.labels)
      ensures sys.labels ==> !OpIn(sys'.w.db, op, OpUncertain)
    {
      ActorKeepsOp(sys, s, op);
    }
    forall op | IsCreate(sys.w, op)
      ensures IsCreate(sys'.w, op)
    {
      KindsStay(sys.w, s, op);
    }
    assert forall op, n: nat :: Open(sys.orders, sys'.w.clock, op, n) ==> Open(sys.orders, sys.w.clock, op, n);
  }

  /** A create-driving transaction: the other creates do not move, so only the driven one needs an argument. */
  lemma DriveKeepsSafe(sys: System, e: EngineStep, orders': seq<Order>)
    requires CloudSafe(sys) && IsCreate(sys.w, e.op)
    requires |sys.orders| <= |orders'|
    requires forall n | 0 <= n < |orders'| ::
               && (n < |sys.orders| ==> orders'[n].op == sys.orders[n].op && orders'[n].due == sys.orders[n].due)
               && (n >= |sys.orders| ==> orders'[n].op == e.op)
    requires forall op, n: nat :: op != e.op && Open(orders', sys.w.clock, op, n) ==> Open(sys.orders, sys.w.clock, op, n)
    requires e.op in EngineNext(sys.w.db, e, sys.w.clock).operations
    requires OpSafe(orders', sys.w.clock, e.op, EngineNext(sys.w.db, e, sys.w.clock).operations[e.op], sys.labels)
    requires sys.labels ==> !OpIn(EngineNext(sys.w.db, e, sys.w.clock), e.op, OpUncertain)
    ensures var sys' := System(Next(sys.w, Engine(e)), orders', NoCall, sys.labels, sys.retired); CloudSafe(sys')
  {
    var w' := Next(sys.w, Engine(e));
    EngineKeepsInv(sys.w.db, e, sys.w.clock);
    EngineAddsNoOps(sys.w.db, e, sys.w.clock);
    forall op | IsCreate(w', op)
      ensures OpSafe(orders', w'.clock, op, w'.db.operations[op], sys.labels)
      ensures sys.labels ==> !OpIn(w'.db, op, OpUncertain)
    {
      KindsStay(sys.w, Engine(e), op);
      OtherOpKept(sys.w.db, e, sys.w.clock, e.op, op);
      assert OpSafe(sys.orders, sys.w.clock, op, sys.w.db.operations[op], sys.labels);
    }
    forall op | IsCreate(sys.w, op)
      ensures IsCreate(w', op)
    {
      KindsStay(sys.w, Engine(e), op);
    }
  }

  lemma SendKeepsSafe(sys: System, op: OperationId, window: nat)
    requires CloudSafe(sys) && Enabled(sys, SendCreate(op, window))
    ensures CloudSafe(SysNext(sys, SendCreate(op, window)))
  {
    var sys' := SysNext(sys, SendCreate(op, window));
    assert OpSafe(sys.orders, sys.w.clock, op, sys.w.db.operations[op], sys.labels);
    assert forall x, n: nat :: n < |sys.orders| && Open(sys'.orders, sys.w.clock, x, n) ==> Open(sys.orders, sys.w.clock, x, n);
    DriveKeepsSafe(sys, Dispatched(op, window), sys'.orders);
  }

  lemma AcceptKeepsSafe(sys: System, ref: Option<ExternalId>)
    requires CloudSafe(sys) && Enabled(sys, ReplyAccepted(ref))
    ensures CloudSafe(SysNext(sys, ReplyAccepted(ref)))
  {
    var op := sys.call.op;
    assert OpSafe(sys.orders, sys.w.clock, op, sys.w.db.operations[op], sys.labels);
    EngineAddsNoOps(sys.w.db, Accepted(op, ref), sys.w.clock);
    DriveKeepsSafe(sys, Accepted(op, ref), sys.orders);
  }

  /** What a refused create becomes: journaled again only on the word that nothing happened. */
  lemma RefusedCreate(db: Fleet, op: OperationId, f: Failure, now: int)
    requires op in db.operations && db.operations[op].kind.OpKindCreate?
    ensures var o, db' := db.operations[op], ApplyFailed(db, op, f, now);
            && op in db'.operations
            && db'.operations[op].verifyDeadline == o.verifyDeadline
            && (OpIn(db', op, OpJournaled) ==> OpIn(db, op, OpJournaled) || Effect(f).EffectNone?)
            && (OpIn(db', op, OpUncertain) ==> OpIn(db, op, OpUncertain))
  {
  }

  lemma RefuseKeepsSafe(sys: System, f: Failure)
    requires CloudSafe(sys) && Enabled(sys, ReplyFailed(f))
    ensures CloudSafe(SysNext(sys, ReplyFailed(f)))
  {
    var op, orders' := sys.call.op, SysNext(sys, ReplyFailed(f)).orders;
    assert OpSafe(sys.orders, sys.w.clock, op, sys.w.db.operations[op], sys.labels);
    RefusedCreate(sys.w.db, op, f, sys.w.clock);
    assert forall x, n: nat :: Open(orders', sys.w.clock, x, n) ==> Open(sys.orders, sys.w.clock, x, n);
    DriveKeepsSafe(sys, Refused(op, f), orders');
  }

  lemma LookUpKeepsSafe(sys: System, op: OperationId, readAt: int, listed: set<ExternalId>)
    requires CloudSafe(sys) && Enabled(sys, LookUp(op, readAt, listed))
    ensures CloudSafe(SysNext(sys, LookUp(op, readAt, listed)))
  {
  }

  /** What a looked-up create becomes: journaled again only when nothing was found past the deadline. */
  lemma LookedUpCreate(db: Fleet, op: OperationId, found: Lookup, readAt: int, now: int)
    requires op in db.operations && db.operations[op].kind.OpKindCreate?
    ensures var o, db' := db.operations[op], Verified(db, op, true, found, readAt, now);
            && op in db'.operations
            && db'.operations[op].verifyDeadline == o.verifyDeadline
            && (OpIn(db', op, OpUncertain) ==> OpIn(db, op, OpUncertain))
            && (OpIn(db', op, OpJournaled) ==>
                  OpIn(db, op, OpJournaled) || (found.LookupAbsent? && !(o.verifyDeadline.Some? && readAt < o.verifyDeadline.value)))
  {
  }

  lemma DecideKeepsSafe(sys: System, pick: ExternalId)
    requires CloudSafe(sys) && Enabled(sys, Decide(pick))
    ensures CloudSafe(SysNext(sys, Decide(pick)))
  {
    var op, readAt := sys.call.op, sys.call.readAt;
    var found := if sys.call.found == {} then LookupAbsent else LookupFound(pick);
    assert OpSafe(sys.orders, sys.w.clock, op, sys.w.db.operations[op], sys.labels);
    LookedUpCreate(sys.w.db, op, found, readAt, sys.w.clock);
    DriveKeepsSafe(sys, LookedUp(op, true, found, readAt), sys.orders);
  }

  /** Landing and vanishing only turn open orders into open or closed ones. */
  lemma StagingKeepsSafe(sys: System, serial: nat, stage: Stage)
    requires CloudSafe(sys) && serial < |sys.orders|
    requires Open(sys.orders, sys.w.clock, sys.orders[serial].op, serial) || stage.Gone?
    requires !stage.InTransit?
    ensures CloudSafe(sys.(orders := Staged(sys.orders, serial, stage)))
  {
    var orders' := Staged(sys.orders, serial, stage);
    assert forall x, n: nat :: Open(orders', sys.w.clock, x, n) ==> Open(sys.orders, sys.w.clock, x, n);
    forall op | IsCreate(sys.w, op)
      ensures OpSafe(orders', sys.w.clock, op, sys.w.db.operations[op], sys.labels)
    {
      assert OpSafe(sys.orders, sys.w.clock, op, sys.w.db.operations[op], sys.labels);
    }
  }

  lemma MoveKeepsSafe(sys: System, m: Move)
    requires CloudSafe(sys) && Sound(sys.w) && Enabled(sys, m)
    ensures CloudSafe(SysNext(sys, m)) && Sound(SysNext(sys, m).w)
  {
    match m
    case Actor(s) => ActorKeepsSafe(sys, s); StepKeepsSound(sys.w, s);
    case SendCreate(op, window) => SendKeepsSafe(sys, op, window); StepKeepsSound(sys.w, Engine(Dispatched(op, window)));
    case Land(serial, ext) => StagingKeepsSafe(sys, serial, Running(ext));
    case ReplyAccepted(ref) => AcceptKeepsSafe(sys, ref); StepKeepsSound(sys.w, Engine(Accepted(sys.call.op, ref)));
    case ReplyFailed(f) => RefuseKeepsSafe(sys, f); StepKeepsSound(sys.w, Engine(Refused(sys.call.op, f)));
    case LookUp(op, readAt, listed) => LookUpKeepsSafe(sys, op, readAt, listed);
    case Decide(pick) =>
      var found := if sys.call.found == {} then LookupAbsent else LookupFound(pick);
      DecideKeepsSafe(sys, pick);
      StepKeepsSound(sys.w, Engine(LookedUp(sys.call.op, true, found, sys.call.readAt)));
    case Vanish(serial) => StagingKeepsSafe(sys, serial, Gone);
  }

  lemma {:induction false} RunKeepsSafe(sys: System, moves: seq<Move>)
    requires CloudSafe(sys) && Sound(sys.w)
    ensures CloudSafe(SysRun(sys, moves)) && Sound(SysRun(sys, moves).w)
  {
    if |moves| > 0 {
      RunKeepsSafe(sys, moves[..|moves| - 1]);
      var before := SysRun(sys, moves[..|moves| - 1]);
      if Enabled(before, moves[|moves| - 1]) { MoveKeepsSafe(before, moves[|moves| - 1]); }
    }
  }

  /** Invariant 7 over every run, with any verification windows and with crashes and lost replies anywhere: two requests of one create operation never
      both have a live machine. */
  lemma NeverADuplicateMachine(clock: int, labels: bool, moves: seq<Move>, n: nat, k: nat)
    requires var orders := SysRun(PowerOn(clock, labels), moves).orders;
             n < |orders| && k < |orders| && orders[n].stage.Running? && orders[k].stage.Running? && orders[n].op == orders[k].op
    ensures n == k
  {
    RunKeepsSafe(PowerOn(clock, labels), moves);
    var sys := SysRun(PowerOn(clock, labels), moves);
    assert OpSafe(sys.orders, sys.w.clock, sys.orders[n].op, sys.w.db.operations[sys.orders[n].op], sys.labels);
    assert Open(sys.orders, sys.w.clock, sys.orders[n].op, n) && Open(sys.orders, sys.w.clock, sys.orders[n].op, k);
  }

  // ---- Deletes ----

  /** A machine whose row the engine turned into a tombstone does not run. */
  ghost predicate RetiredAreGone(sys: System) {
    forall ext <- sys.retired :: !IsUp(sys.orders, ext)
  }

  lemma RetiringIsHonest(sys: System, s: Step, ext: ExternalId)
    requires Inv(sys.w.db) && HonestAboutDeletes(sys, s) && ext in Retires(sys.w, s)
    ensures !IsUp(sys.orders, ext)
  {
    var id :| id in sys.w.db.resources && Live(sys.w.db.resources, id) && !Live(NextDb(sys.w, s).resources, id)
              && sys.w.db.resources[id].externalId == Some(ext);
    Evidence.EngineLetsGo(sys.w, s.e, id);
    assert OpHolds(sys.w.db.resources, sys.w.db.operations[s.e.op]);
  }

  lemma MoveKeepsGone(sys: System, m: Move)
    requires CloudSafe(sys) && RetiredAreGone(sys) && Enabled(sys, m)
    ensures RetiredAreGone(SysNext(sys, m)) && sys.retired <= SysNext(sys, m).retired
  {
    var sys' := SysNext(sys, m);
    CloudInv(sys);
    hide CloudSafe, Inv, NextDb, Next, IsUp;
    forall ext <- sys'.retired
      ensures !IsUp(sys'.orders, ext)
    {
      if ext in sys.retired { NoneComesUp(sys, m, ext); } else { RetiringIsHonest(sys, m.s, ext); }
    }
  }

  /** No move brings a retired machine up. */
  lemma NoneComesUp(sys: System, m: Move, ext: ExternalId)
    requires Enabled(sys, m) && ext in sys.retired
    ensures IsUp(SysNext(sys, m).orders, ext) ==> IsUp(sys.orders, ext)
  {
    var orders' := SysNext(sys, m).orders;
    hide NextDb, Next, HonestAboutDeletes, Drives;
    if IsUp(orders', ext) {
      var n :| 0 <= n < |orders'| && orders'[n].stage == Running(ext);
      assert n < |sys.orders| && sys.orders[n].stage == Running(ext);
    }
  }

  lemma {:induction false} RunKeepsGone(sys: System, moves: seq<Move>)
    requires CloudSafe(sys) && Sound(sys.w) && RetiredAreGone(sys)
    ensures RetiredAreGone(SysRun(sys, moves)) && sys.retired <= SysRun(sys, moves).retired
  {
    if |moves| > 0 {
      RunKeepsGone(sys, moves[..|moves| - 1]);
      RunKeepsSafe(sys, moves[..|moves| - 1]);
      var before := SysRun(sys, moves[..|moves| - 1]);
      if Enabled(before, moves[|moves| - 1]) { MoveKeepsGone(before, moves[|moves| - 1]); }
    }
  }

  lemma {:induction false} SysRunJoins(sys: System, a: seq<Move>, b: seq<Move>)
    ensures SysRun(sys, a + b) == SysRun(SysRun(sys, a), b)
  {
    if |b| == 0 {
      assert a + b == a;
    } else {
      SysRunJoins(sys, a, b[..|b| - 1]);
      assert (a + b)[..|a + b| - 1] == a + b[..|b| - 1];
    }
  }

  /** Over every run: once the engine has turned a row into a tombstone, its machine never runs again. No tombstone hides a
      machine that runs on without a record. */
  lemma NoMachineOutlivesItsTombstone(clock: int, labels: bool, before: seq<Move>, e: EngineStep, after: seq<Move>, id: ResourceId)
    requires var sys := SysRun(PowerOn(clock, labels), before);
             && Enabled(sys, Actor(Engine(e)))
             && Live(sys.w.db.resources, id) && sys.w.db.resources[id].externalId.Some?
             && !Live(NextDb(sys.w, Engine(e)).resources, id)
    ensures var ext := SysRun(PowerOn(clock, labels), before).w.db.resources[id].externalId.value;
            var orders := SysRun(PowerOn(clock, labels), before + [Actor(Engine(e))] + after).orders;
            forall n | 0 <= n < |orders| :: orders[n].stage != Running(ext)
  {
    hide NextDb, CloudSafe, Sound, Inv, HonestAboutDeletes, Drives, RetiredAreGone;
    var start := PowerOn(clock, labels);
    var sys, s := SysRun(start, before), Engine(e);
    Powered(clock, labels);
    var next := SysNext(sys, Actor(s));
    var ext := sys.w.db.resources[id].externalId.value;
    assert (before + [Actor(s)])[..|before|] == before;
    assert SysRun(start, before + [Actor(s)]) == next;
    assert ext in Retires(sys.w, s);
    RunKeepsSafe(start, before);
    RunKeepsGone(start, before);
    MoveKeepsSafe(sys, Actor(s));
    MoveKeepsGone(sys, Actor(s));
    RunKeepsGone(next, after);
    SysRunJoins(start, before + [Actor(s)], after);
    GoneForGood(SysRun(next, after), ext);
  }

  lemma Powered(clock: int, labels: bool)
    ensures var sys := PowerOn(clock, labels); CloudSafe(sys) && Sound(sys.w) && RetiredAreGone(sys)
  {
    BootIsSound(clock);
  }

  lemma GoneForGood(sys: System, ext: ExternalId)
    requires RetiredAreGone(sys) && ext in sys.retired
    ensures forall n | 0 <= n < |sys.orders| :: sys.orders[n].stage != Running(ext)
  {
    assert !IsUp(sys.orders, ext);
  }
}
