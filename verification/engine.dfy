/** The operation engine: the journal protocol around every provider mutation. */
module Operations {
  import opened Basics
  import opened Phases
  import opened Capacity
  import opened Storage
  import opened ProviderErrors
  import opened Transactions

  /** The provider is called between the methods: each one is what happens in the store once its answer is known. */
  class Engine {
    const st: Store
    const verifyWindow: nat

    constructor (st: Store, verifyWindow: nat)
      ensures this.st == st && this.verifyWindow == verifyWindow
    {
      this.st := st;
      this.verifyWindow := verifyWindow;
    }

    /** Up to the moment the provider is called: sent says whether the dispatch marker was committed. */
    method BeginDispatch(id: OperationId, configured: bool, now: int) returns (sent: bool)
      requires OpIn(st.Db(), id, OpJournaled)
      modifies st
      ensures sent == (configured && CanDispatch(old(st.Db()), id))
      ensures st.Db() == if sent then Dispatch(old(st.Db()), id, verifyWindow, now) else FailOp(old(st.Db()), id, OpJournaled, now)
    {
      var op := st.operations[id];
      if !configured {
        Fail(id, OpJournaled, now);
        return false;
      }
      if ParkOp(op.kind) && op.attempt >= MAX_PARK_OP_ATTEMPTS {
        Fail(id, OpJournaled, now);
        return false;
      }
      var err := st.TransitionOp(id, OpJournaled,
        op.(state := OpInFlight, attempt := op.attempt + 1, verifyDeadline := Some(now + verifyWindow)));
      sent := true;
    }

    /** The provider accepted: the reference is kept before anything is assumed to be listable. */
    method Accept(id: OperationId, ref: Option<ExternalId>)
      requires id in st.operations
      modifies st
      ensures st.Db() == Attach(old(st.Db()), id, OpInFlight, ref)
    {
      var before := st.Db();
      var op := st.operations[id];
      var err := st.TransitionOp(id, OpInFlight, op.(state := OpExternalAccepted, ref := ref));
      if err.NoError? && op.kind.OpKindCreate? && ref.Some? {
        err := st.SetExternalRef(op.resource, ref.value);
      }
      if !err.NoError? {
        st.Rollback(before);
      }
    }

    method HandleApplyError(id: OperationId, f: Failure, now: int)
      requires OpIn(st.Db(), id, OpInFlight)
      modifies st
      ensures st.Db() == ApplyFailed(old(st.Db()), id, f, now)
    {
      var op := st.operations[id];
      var cls := Classify(f);
      if op.kind.OpKindDelete? && cls.NotFound? {
        ConfirmDelete(id, OpInFlight, now);
        return;
      }
      if ParkOp(op.kind) && cls.NotFound? {
        Fail(id, OpInFlight, now);
        return;
      }
      if ParkOp(op.kind) && !cls.Invalid? && !cls.FatalError? {
        var err := st.TransitionOp(id, OpInFlight, op.(state := OpJournaled));
        return;
      }
      if cls.Invalid? || cls.FatalError? {
        Fail(id, OpInFlight, now);
      } else if Effect(f).EffectNone? {
        var err := st.TransitionOp(id, OpInFlight, op.(state := OpJournaled));
      } else {
        var err := st.TransitionOp(id, OpInFlight, op.(state := OpVerifying));
      }
    }

    method Poll(id: OperationId, configured: bool, seen: Observation, gate: Gate, now: int)
      requires OpIn(st.Db(), id, OpExternalAccepted)
      modifies st
      ensures st.Db() == if configured then Polled(old(st.Db()), id, seen, gate, now)
                         else FailOp(old(st.Db()), id, OpExternalAccepted, now)
    {
      var op := st.operations[id];
      if !configured {
        Fail(id, OpExternalAccepted, now);
        return;
      }
      match seen {
        case ObserveError(f) =>
          if Classify(f).NotFound? {
            if op.kind.OpKindDelete? {
              ConfirmDelete(id, OpExternalAccepted, now);
            } else if ParkOp(op.kind) {
              Fail(id, OpExternalAccepted, now);
            } else {
              var err := st.TransitionOp(id, OpExternalAccepted, op.(state := OpVerifying));
            }
          }
        case ObserveSucceeded(facts) =>
          if op.kind.OpKindDelete? {
            ConfirmDelete(id, OpExternalAccepted, now);
            return;
          }
          if op.kind.OpKindStop? {
            Confirm(id, Parked, None, now);
            return;
          }
          if gate.GateExhausted? {
            if op.kind.OpKindStart? {
              // The machine runs at full price: reverting it to parked would misstate it.
              FailPhases(id, OpExternalAccepted, Starting, Failed, now);
            } else {
              Fail(id, OpExternalAccepted, now);
            }
          } else if gate.GateReady? {
            Confirm(id, Ready, facts, now);
          }
        case ObserveFailed =>
          Fail(id, OpExternalAccepted, now);
        case ObservePending =>
      }
    }

    /** The resolution of an operation whose outcome is unknown. */
    method Verify(id: OperationId, configured: bool, labels: bool, found: Lookup, readAt: int, now: int)
      requires OpIn(st.Db(), id, OpVerifying)
      modifies st
      ensures st.Db() == if configured then Verified(old(st.Db()), id, labels, found, readAt, now)
                         else FailOp(old(st.Db()), id, OpVerifying, now)
    {
      var op := st.operations[id];
      if !configured {
        Fail(id, OpVerifying, now);
        return;
      }
      if ParkOp(op.kind) {
        var err := st.TransitionOp(id, OpVerifying, op.(state := OpJournaled));
        return;
      }
      if op.kind.OpKindDelete? {
        if op.target.None? {
          Fail(id, OpVerifying, now);
        } else if found.LookupAbsent? {
          ConfirmDelete(id, OpVerifying, now);
        } else if found.LookupFound? {
          var err := st.TransitionOp(id, OpVerifying, op.(state := OpJournaled));
        }
        return;
      }
      if !labels {
        var err := st.TransitionOp(id, OpVerifying, op.(state := OpUncertain));
        return;
      }
      if found.LookupFound? {
        var before := st.Db();
        var err := st.TransitionOp(id, OpVerifying, op.(state := OpExternalAccepted, ref := Some(found.ext)));
        err := st.SetExternalRef(op.resource, found.ext);
        if !err.NoError? {
          st.Rollback(before);
        }
        return;
      }
      if found.LookupError? || (op.verifyDeadline.Some? && readAt < op.verifyDeadline.value) {
        return;
      }
      var err := st.TransitionOp(id, OpVerifying, op.(state := OpJournaled));
    }

    /** After a restart, every operation caught in flight is verified before any re-mutation. */
    method Resume()
      modifies st
      ensures st.operations == map o | o in old(st.operations) ::
                if old(st.operations)[o].state.OpInFlight? then old(st.operations)[o].(state := OpVerifying) else old(st.operations)[o]
      ensures st.resources == old(st.resources) && st.leases == old(st.leases) && st.acquisitions == old(st.acquisitions)
    {
      var todo := st.operations.Keys;
      while todo != {}
        invariant todo <= old(st.operations).Keys == st.operations.Keys
        invariant st.resources == old(st.resources) && st.leases == old(st.leases) && st.acquisitions == old(st.acquisitions)
        invariant forall o :: o in todo ==> st.operations[o] == old(st.operations)[o]
        invariant forall o :: o in st.operations && o !in todo ==>
          st.operations[o] == if old(st.operations)[o].state.OpInFlight? then old(st.operations)[o].(state := OpVerifying)
                              else old(st.operations)[o]
        decreases todo
      {
        var o :| o in todo;
        if st.operations[o].state.OpInFlight? {
          var err := st.TransitionOp(o, OpInFlight, st.operations[o].(state := OpVerifying));
        }
        todo := todo - {o};
      }
    }

    // ---- Terminal transactions ----

    /** A confirmed create, stop or start. */
    method Confirm(id: OperationId, to: Phase, facts: Option<Vector>, now: int)
      requires OpIn(st.Db(), id, OpExternalAccepted)
      modifies st
      ensures st.Db() == Finish(old(st.Db()), id, OpExternalAccepted, to, facts, now)
    {
      var before := st.Db();
      var op := st.operations[id];
      var err := st.TransitionOp(id, OpExternalAccepted, op.(state := OpSucceeded));
      if facts.Some? {
        err := st.SetProviderFacts(op.resource, facts.value, now);
      }
      if err.NoError? {
        err := st.CASPhase(op.resource, ShieldOf(op.kind), to, now);
      }
      if !err.NoError? {
        st.Rollback(before);
      }
    }

    /** A confirmed delete: the tombstone. */
    method ConfirmDelete(id: OperationId, from: OpState, now: int)
      requires OpIn(st.Db(), id, from)
      modifies st
      ensures st.Db() == SucceedDelete(old(st.Db()), id, from, now)
    {
      var before := st.Db();
      var op := st.operations[id];
      var err := st.TransitionOp(id, from, op.(state := OpSucceeded));
      err := st.MarkDeleted(op.resource, now);
      if !err.NoError? {
        st.Rollback(before);
      }
    }

    method Fail(id: OperationId, from: OpState, now: int)
      requires OpIn(st.Db(), id, from)
      modifies st
      ensures st.Db() == FailOp(old(st.Db()), id, from, now)
    {
      var fromPhase, toPhase := Provisioning, Failed;
      match st.operations[id].kind {
        case OpKindDelete => fromPhase := Deleting;
        case OpKindStop => fromPhase, toPhase := Parking, Ready;
        case OpKindStart => fromPhase, toPhase := Starting, Parked;
        case OpKindCreate =>
      }
      FailPhases(id, from, fromPhase, toPhase, now);
    }

    /** The journal is never blocked on the phase: a missed phase write is dropped. */
    method FailPhases(id: OperationId, from: OpState, resFrom: Phase, resTo: Phase, now: int)
      requires OpIn(st.Db(), id, from)
      modifies st
      ensures st.Db() == FailOpPhases(old(st.Db()), id, from, resFrom, resTo, now)
    {
      var op := st.operations[id];
      var err := st.TransitionOp(id, from, op.(state := OpFailed));
      err := st.CASPhase(op.resource, resFrom, resTo, now);
    }
  }
}
