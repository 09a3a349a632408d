/** The discovery sweep: refresh what is seen, resolve what is unmatched, and bury what is confirmed gone. */
module Discovery {
  import opened Basics
  import opened Phases
  import opened Capacity
  import opened Storage
  import opened Transactions
  import opened Invariants
  import opened Runs
  import opened Reconcile
  import Ids

  /** One machine in the provider's listing, with what its labels say. */
  datatype Machine = Machine(
    ext: ExternalId,
    owned: bool,
    sighted: Sighting,
    capacity: Vector,
    fleetplaneId: Option<ResourceId>,
    createOp: Option<OperationId>,
    className: string,
    parkable: bool
  )

  /** deleteGhosts and adoptUnlabeled are the configured policies; graceMs is the orphan grace. */
  datatype Policy = Policy(deleteGhosts: bool, adoptUnlabeled: bool, graceMs: nat)

  /** What the sweep decides about a machine that carries this control plane's labels but matches no live row. */
  datatype Verdict = HandsOff | Ghost | Readopt

  /** The journal is the evidence: an unfinished create owns its machine, a create that failed or is bound to another
      machine makes this one a ghost, and anything else is re-adopted. */
  function Judge(db: Fleet, m: Machine, liveRows: Rows, open: set<ResourceId>): Verdict {
    if m.fleetplaneId.Some? && m.fleetplaneId.value in liveRows && liveRows[m.fleetplaneId.value].externalId.None?
       && m.fleetplaneId.value in open then HandsOff
    else if m.createOp.Some? && m.createOp.value in db.operations then
      var op := db.operations[m.createOp.value];
      if !op.state.Terminal() then HandsOff
      else if op.state.OpFailed? || op.state.OpAborted? then Ghost
      else if op.resource in liveRows && liveRows[op.resource].externalId.Some? && liveRows[op.resource].externalId != Some(m.ext) then Ghost
      else Readopt
    else Readopt
  }

  /** A row may be buried by this sweep: an orphan outside its grace, unlisted, confirmed gone, unleased and unheld. */
  predicate Buriable(row: Resource, listed: set<ExternalId>, gone: set<ExternalId>, open: set<ResourceId>, id: ResourceId, graceMs: nat, at: int) {
    && row.phase.Orphaned? && row.externalId.Some?
    && row.externalId.value !in listed && row.externalId.value in gone && id !in open
    && at - row.updatedAt >= graceMs
  }

  /** No listed machine is the row's. */
  predicate Unlisted(row: Resource, listed: set<ExternalId>) {
    row.externalId.None? || row.externalId.value !in listed
  }

  predicate Confirmed(row: Resource, listed: set<ExternalId>, gone: set<ExternalId>) {
    row.externalId.Some? && row.externalId.value !in listed && row.externalId.value in gone
  }

  function Listing(machines: seq<Machine>): set<ExternalId> {
    set i | 0 <= i < |machines| :: machines[i].ext
  }

  /** The record of a listed machine. */
  function RecordOf(m: Machine, ownership: Ownership, at: int): Resource {
    MintedRow(m.ext, ownership, m.className, m.sighted.SeenStopped?, m.parkable, m.capacity, at)
  }

  /** What becomes of a ghost: recorded, and by policy drained and journaled for deletion. */
  function GhostHandled(db: Fleet, m: Machine, deleteGhosts: bool, id: ResourceId, op: OperationId, at: int): Fleet {
    var minted := Mint(db, id, RecordOf(m, OwnershipManaged, at));
    if deleteGhosts && ExternalFree(db.resources, id, m.ext)
    then Transactions.JournalDelete(MovePhase(minted, id, Ready, Draining, at), id, op, at)
    else minted
  }

  /** What becomes of an owned machine without a row. */
  function Resolved(db: Fleet, m: Machine, verdict: Verdict, deleteGhosts: bool, id: ResourceId, op: OperationId, at: int): Fleet {
    match verdict
    case HandsOff => db
    case Ghost => GhostHandled(db, m, deleteGhosts, id, op, at)
    case Readopt => Mint(db, id, RecordOf(m, OwnershipManaged, at))
  }

  /** By policy a ghost that no live row owns ends under a journaled delete of exactly its machine; a ghost found stopped on
      a parkable class is minted parked and stays there. */
  lemma GhostFate(db: Fleet, m: Machine, id: ResourceId, op: OperationId, at: int)
    requires Inv(db) && id !in db.resources && op !in db.operations && ExternalFree(db.resources, id, m.ext)
    ensures var db' := GhostHandled(db, m, true, id, op, at);
            if m.sighted.SeenStopped? && m.parkable
            then InPhase(db'.resources, id, Parked) && db'.operations == db.operations
            else InPhase(db'.resources, id, Deleting) && db'.operations == db.operations[op := NewOp(OpKindDelete, id, Some(m.ext), at)]
  {
    FreshUnheld(db, id);
    hide Inv, Unleased, OpFree;
    var row := RecordOf(m, OwnershipManaged, at);
    var minted := Mint(db, id, row);
    assert minted == db.(resources := db.resources[id := row]);
    if row.phase.Ready? {
      var drained := MovePhase(minted, id, Ready, Draining, at);
      assert drained == db.(resources := minted.resources[id := Moved(row, Draining, at)]);
      assert CanDelete(drained, id, op);
    }
  }

  /** An unknown row has neither leases nor an operation. */
  lemma FreshUnheld(db: Fleet, id: ResourceId)
    requires Inv(db) && id !in db.resources
    ensures Unleased(db.leases, id) && OpFree(db.operations, id)
  {
    ShieldUnleased(db.resources, db.leases, id);
    forall o | o in db.operations.Keys && ActiveOp(db.operations, o)
      ensures db.operations[o].resource != id
    {
      assert OpHolds(db.resources, db.operations[o]);
    }
  }

  predicate OwnsMachine(rows: Rows, ext: ExternalId) {
    exists x <- rows.Keys :: Live(rows, x) && rows[x].externalId == Some(ext)
  }

  /** A listed machine is recorded: a row of the snapshot or a live row is its own, unless a create is still under way for
      it, or it carries no label of ours and is not to be adopted. */
  predicate Recorded(db: Fleet, m: Machine, snapshot: Rows, open: set<ResourceId>, policy: Policy) {
    || (exists x <- snapshot.Keys :: snapshot[x].externalId == Some(m.ext))
    || OwnsMachine(db.resources, m.ext)
    || (if m.owned then Judge(db, m, snapshot, open).HandsOff? else !policy.adoptUnlabeled)
  }

  lemma HandsOffStays(db: Fleet, m: Machine, snapshot: Rows, open: set<ResourceId>, deleteGhosts: bool, id: ResourceId, op: OperationId, at: int)
    ensures Judge(db, m, snapshot, open).HandsOff? ==>
              Judge(Resolved(db, m, Judge(db, m, snapshot, open), deleteGhosts, id, op, at), m, snapshot, open).HandsOff?
  {
  }

  lemma RecordedStays(db: Fleet, db': Fleet, m: Machine, snapshot: Rows, open: set<ResourceId>, policy: Policy)
    requires Recorded(db, m, snapshot, open, policy)
    requires forall o :: o in db.operations ==> o in db'.operations && db'.operations[o] == db.operations[o]
    requires forall x :: x in db.resources ==> Kept(db.resources, db'.resources, x)
    ensures Recorded(db', m, snapshot, open, policy)
  {
    if OwnsMachine(db.resources, m.ext) {
      var x :| x in db.resources.Keys && Live(db.resources, x) && db.resources[x].externalId == Some(m.ext);
      assert Kept(db.resources, db'.resources, x) && x in db'.resources.Keys;
    }
  }

  /** Burying and orphaning unlisted rows takes no listed machine its record. */
  lemma RecordedSurvives(db: Fleet, db': Fleet, m: Machine, snapshot: Rows, open: set<ResourceId>, policy: Policy,
                         listed: set<ExternalId>, gone: set<ExternalId>)
    requires Recorded(db, m, snapshot, open, policy) && m.ext in listed && db'.operations == db.operations
    requires db'.resources.Keys == db.resources.Keys
    requires forall x <- db.resources.Keys ::
               db'.resources[x] == db.resources[x] || (x in snapshot && Confirmed(snapshot[x], listed, gone) && db.resources[x] == snapshot[x])
    ensures Recorded(db', m, snapshot, open, policy)
  {
    if OwnsMachine(db.resources, m.ext) {
      var x :| x in db.resources.Keys && Live(db.resources, x) && db.resources[x].externalId == Some(m.ext);
      assert x in db'.resources.Keys && db'.resources[x] == db.resources[x];
    }
  }

  /** The row is still there, as alive as it was and with the same machine. */
  predicate Kept(rows: Rows, rows': Rows, x: ResourceId)
    requires x in rows
  {
    x in rows' && rows'[x].deletedAt == rows[x].deletedAt && rows'[x].externalId == rows[x].externalId
  }

  /** A machine that was minted, or could not be because a live row owns it, is owned. */
  lemma MintOwns(db: Fleet, id: ResourceId, row: Resource)
    requires id !in db.resources && row.deletedAt.None? && row.externalId.Some?
    ensures OwnsMachine(Mint(db, id, row).resources, row.externalId.value)
  {
    var rows := Mint(db, id, row).resources;
    if ExternalFree(db.resources, id, row.externalId.value) {
      assert id in rows.Keys && Live(rows, id);
    } else {
      var x :| x in db.resources.Keys && x != id && Live(db.resources, x) && db.resources[x].externalId == row.externalId;
      assert x in rows.Keys && Live(rows, x);
    }
  }

  /** Handling a ghost only adds: its row, which stays live, and perhaps an operation. */
  lemma GhostAdds(db: Fleet, m: Machine, deleteGhosts: bool, id: ResourceId, op: OperationId, at: int)
    requires id !in db.resources && op !in db.operations
    ensures var db' := GhostHandled(db, m, deleteGhosts, id, op, at);
            && db'.leases == db.leases && db'.acquisitions == db.acquisitions && OwnsMachine(db'.resources, m.ext)
            && (forall x <- db.resources.Keys :: x in db'.resources && db'.resources[x] == db.resources[x])
            && (forall o <- db.operations.Keys :: o in db'.operations && db'.operations[o] == db.operations[o])
  {
    var row := RecordOf(m, OwnershipManaged, at);
    MintOwns(db, id, row);
    var minted := Mint(db, id, row);
    if deleteGhosts && ExternalFree(db.resources, id, m.ext) {
      assert minted.resources == db.resources[id := row];
      var drained := MovePhase(minted, id, Ready, Draining, at);
      RowOnly(minted, id, Ready, Draining, at);
      DeleteAdds(db, drained, m.ext, id, op, at);
    }
  }

  lemma RowOnly(db: Fleet, id: ResourceId, from: Phase, to: Phase, at: int)
    requires id in db.resources
    ensures var db' := MovePhase(db, id, from, to, at);
            && db' == db.(resources := db.resources[id := db'.resources[id]])
            && db'.resources[id].deletedAt == db.resources[id].deletedAt && db'.resources[id].externalId == db.resources[id].externalId
  {
    assert db.resources[id := db.resources[id]] == db.resources;
  }

  lemma DeleteAdds(db: Fleet, drained: Fleet, ext: ExternalId, id: ResourceId, op: OperationId, at: int)
    requires id !in db.resources && op !in db.operations && id in drained.resources
    requires drained == db.(resources := db.resources[id := drained.resources[id]])
    requires Live(drained.resources, id) && drained.resources[id].externalId == Some(ext)
    ensures var db' := Transactions.JournalDelete(drained, id, op, at);
            && db'.leases == db.leases && db'.acquisitions == db.acquisitions && OwnsMachine(db'.resources, ext)
            && (forall x <- db.resources.Keys :: x in db'.resources && db'.resources[x] == db.resources[x])
            && (forall o <- db.operations.Keys :: o in db'.operations && db'.operations[o] == db.operations[o])
  {
    hide OpFree, Unleased;
    var db' := Transactions.JournalDelete(drained, id, op, at);
    assert id in db'.resources.Keys && Live(db'.resources, id) && db'.resources[id].externalId == Some(ext);
  }

  lemma ResolvedAdds(db: Fleet, m: Machine, verdict: Verdict, deleteGhosts: bool, id: ResourceId, op: OperationId, at: int)
    requires id !in db.resources && op !in db.operations
    ensures var db' := Resolved(db, m, verdict, deleteGhosts, id, op, at);
            && db'.leases == db.leases && db'.acquisitions == db.acquisitions
            && (verdict.HandsOff? || OwnsMachine(db'.resources, m.ext))
            && (forall x <- db.resources.Keys :: x in db'.resources && db'.resources[x] == db.resources[x])
            && (forall o <- db.operations.Keys :: o in db'.operations && db'.operations[o] == db.operations[o])
  {
    hide GhostHandled, OwnsMachine;
    GhostAdds(db, m, deleteGhosts, id, op, at);
    MintOwns(db, id, RecordOf(m, OwnershipManaged, at));
  }

  // ---- What the journal says about a listed machine ----

  /** No row of the snapshot is the machine's. */
  predicate Unmatched(m: Machine, snapshot: Rows) {
    forall x <- snapshot.Keys :: snapshot[x].externalId != Some(m.ext)
  }

  /** A create that has not ended may still claim the machine: its label names a row that waits for one, or an operation that
      is not finished. */
  predicate UnderWay(ops: Ops, m: Machine, snapshot: Rows, open: set<ResourceId>) {
    || (m.fleetplaneId.Some? && m.fleetplaneId.value in open && m.fleetplaneId.value in snapshot
        && snapshot[m.fleetplaneId.value].externalId.None?)
    || (m.createOp.Some? && m.createOp.value in ops && !(ops[m.createOp.value].state in {OpSucceeded, OpFailed, OpAborted}))
  }

  /** Its create failed, or succeeded with another machine on the row. */
  predicate GhostEvidence(ops: Ops, m: Machine, snapshot: Rows) {
    && m.createOp.Some? && m.createOp.value in ops
    && var o := ops[m.createOp.value];
    || o.state in {OpFailed, OpAborted}
    || (o.state.OpSucceeded? && exists x <- snapshot.Keys :: x == o.resource && snapshot[x].externalId.Some? && snapshot[x].externalId.value != m.ext)
  }

  predicate AsParked(m: Machine) {
    m.sighted.SeenStopped? && m.parkable
  }

  /** The machine is to be deleted: a ghost, by policy, unless it was found stopped and is kept parked. */
  predicate ToDelete(ops: Ops, m: Machine, snapshot: Rows, policy: Policy) {
    m.owned && policy.deleteGhosts && GhostEvidence(ops, m, snapshot) && !AsParked(m)
  }

  /** The machine is to be recorded. */
  predicate ToRecord(ops: Ops, m: Machine, snapshot: Rows, open: set<ResourceId>, policy: Policy) {
    Unmatched(m, snapshot) && if m.owned then !UnderWay(ops, m, snapshot, open) else policy.adoptUnlabeled
  }

  /** The new row of a machine, and the delete it is under if it is to be deleted. */
  predicate RowOf(r: Resource, m: Machine, deleting: bool) {
    && r.deletedAt.None? && r.externalId == Some(m.ext)
    && r.ownership == (if m.owned then OwnershipManaged else OwnershipObserved)
    && r.phase == if deleting then Deleting else if AsParked(m) then Parked else Ready
  }

  /** What sighting one machine may do, on rows and operations alone. */
  ghost predicate SightedAs(db: Fleet, db': Fleet, m: Machine, snapshot: Rows, open: set<ResourceId>, policy: Policy, at: int) {
    if ToRecord(db.operations, m, snapshot, open, policy) && !OwnsMachine(db.resources, m.ext) then
      exists id, op :: RecordedAs(db, db', m, ToDelete(db.operations, m, snapshot, policy), id, op, at)
    else
      db'.operations == db.operations && db'.resources.Keys == db.resources.Keys
  }

  ghost predicate RecordedAs(db: Fleet, db': Fleet, m: Machine, deleting: bool, id: ResourceId, op: OperationId, at: int) {
    && id !in db.resources && (deleting ==> op !in db.operations)
    && db'.resources.Keys == db.resources.Keys + {id} && RowOf(db'.resources[id], m, deleting)
    && db'.operations == if deleting then db.operations[op := Operation(OpKindDelete, id, Some(m.ext), OpJournaled, 0, None, None, at)]
                         else db.operations
  }

  lemma ResolvedAs(db: Fleet, m: Machine, snapshot: Rows, open: set<ResourceId>, policy: Policy, id: ResourceId, op: OperationId, at: int)
    requires Inv(db) && id !in db.resources && op !in db.operations && m.owned && Unmatched(m, snapshot)
    ensures SightedAs(db, Resolved(db, m, Judge(db, m, snapshot, open), policy.deleteGhosts, id, op, at), m, snapshot, open, policy, at)
  {
    var db' := Resolved(db, m, Judge(db, m, snapshot, open), policy.deleteGhosts, id, op, at);
    JudgeSays(db, m, snapshot, open);
    assert ExternalFree(db.resources, id, m.ext) <==> !OwnsMachine(db.resources, m.ext);
    FreeMint(db, m, policy.deleteGhosts, id, op, at);
    hide Judge, GhostHandled, Mint, Inv, ExternalFree, OwnsMachine, GhostEvidence, UnderWay, Unmatched;
    if ToRecord(db.operations, m, snapshot, open, policy) && !OwnsMachine(db.resources, m.ext) {
      assert RecordedAs(db, db', m, ToDelete(db.operations, m, snapshot, policy), id, op, at);
    }
  }

  lemma JudgeSays(db: Fleet, m: Machine, snapshot: Rows, open: set<ResourceId>)
    ensures Judge(db, m, snapshot, open).HandsOff? <==> UnderWay(db.operations, m, snapshot, open)
    ensures Judge(db, m, snapshot, open).Ghost? <==> !UnderWay(db.operations, m, snapshot, open) && GhostEvidence(db.operations, m, snapshot)
  {
  }

  /** What minting and handling a ghost do to rows and operations. */
  lemma FreeMint(db: Fleet, m: Machine, deleteGhosts: bool, id: ResourceId, op: OperationId, at: int)
    requires Inv(db) && id !in db.resources && op !in db.operations && m.owned
    ensures var minted, handled := Mint(db, id, RecordOf(m, OwnershipManaged, at)), GhostHandled(db, m, deleteGhosts, id, op, at);
            if ExternalFree(db.resources, id, m.ext)
            then RecordedAs(db, minted, m, false, id, op, at) && RecordedAs(db, handled, m, deleteGhosts && !AsParked(m), id, op, at)
            else minted == db && handled == db
  {
    if ExternalFree(db.resources, id, m.ext) && deleteGhosts {
      GhostFate(db, m, id, op, at);
      GhostKeys(db, m, id, op, at);
    }
    hide Inv;
  }

  lemma GhostKeys(db: Fleet, m: Machine, id: ResourceId, op: OperationId, at: int)
    requires Inv(db) && id !in db.resources && op !in db.operations && ExternalFree(db.resources, id, m.ext)
    ensures var rows := GhostHandled(db, m, true, id, op, at).resources;
            && rows.Keys == db.resources.Keys + {id}
            && rows[id].externalId == Some(m.ext) && rows[id].ownership.OwnershipManaged?
  {
    hide OpFree, Unleased, Inv;
  }

  // ---- What a whole listing leads to ----

  /** The machine is not listed before. */
  predicate FirstListed(machines: seq<Machine>, i: nat)
    requires i < |machines|
  {
    forall j | 0 <= j < i :: machines[j].ext != machines[i].ext
  }

  /** Its create operation, if it names one, is not one this sweep itself adds. */
  predicate LabelIsOld(db0: Fleet, db: Fleet, m: Machine) {
    m.createOp.Some? && m.createOp.value in db.operations ==> m.createOp.value in db0.operations
  }

  ghost predicate EndsOn(db0: Fleet, db: Fleet, m: Machine, deleting: bool, x: ResourceId) {
    && x !in db0.resources && x in db.resources && RowOf(db.resources[x], m, deleting)
    && if deleting then exists o :: o !in db0.operations && o in db.operations && DeleteOf(db.operations[o], x, m)
       else OpFree(db.operations, x)
  }

  predicate DeleteOf(o: Operation, x: ResourceId, m: Machine) {
    o.kind.OpKindDelete? && o.state.OpJournaled? && o.resource == x && o.target == Some(m.ext)
  }

  /** Every listed machine that is to be recorded ends on a new row of its own, under a delete exactly when it is to be
      deleted; and the sweep adds no other row and no other operation. */
  ghost predicate Discovered(db0: Fleet, db: Fleet, machines: seq<Machine>, snapshot: Rows, open: set<ResourceId>, policy: Policy) {
    && (forall i | 0 <= i < |machines| && FirstListed(machines, i) && ToRecord(db0.operations, machines[i], snapshot, open, policy)
                   && LabelIsOld(db0, db, machines[i]) ::
          exists x :: EndsOn(db0, db, machines[i], ToDelete(db0.operations, machines[i], snapshot, policy), x))
    && (forall x <- db.resources.Keys - db0.resources.Keys ::
          exists i | 0 <= i < |machines| ::
            ToRecord(db0.operations, machines[i], snapshot, open, policy) && db.resources[x].externalId == Some(machines[i].ext))
    && (forall o <- db.operations.Keys - db0.operations.Keys ::
          exists i | 0 <= i < |machines| :: DeletedFor(db0, db, o, machines[i], snapshot, open, policy))
  }

  /** An operation the sweep added: the delete of a new row, for a machine that is to be deleted. */
  predicate DeletedFor(db0: Fleet, db: Fleet, o: OperationId, m: Machine, snapshot: Rows, open: set<ResourceId>, policy: Policy) {
    && ToRecord(db0.operations, m, snapshot, open, policy) && ToDelete(db0.operations, m, snapshot, policy)
    && o in db.operations
    && db.operations[o].resource in db.resources && db.operations[o].resource !in db0.resources
    && DeleteOf(db.operations[o], db.operations[o].resource, m)
  }

  /** Between the start of the sweep and now: operations stay, rows stay, and the live ones keep the machines of the snapshot. */
  ghost predicate Grew(db0: Fleet, db: Fleet, snapshot: Rows) {
    && (forall o <- db0.operations.Keys :: o in db.operations && db.operations[o] == db0.operations[o])
    && db0.resources.Keys <= db.resources.Keys
    && (forall x <- db0.resources.Keys :: Live(db.resources, x) ==> x in snapshot && db.resources[x].externalId == snapshot[x].externalId)
  }

  /** The step touches no row the sweep added before. */
  ghost predicate Adds(db0: Fleet, mid: Fleet, db: Fleet) {
    && (forall o <- mid.operations.Keys :: o in db.operations && db.operations[o] == mid.operations[o])
    && (forall x <- mid.resources.Keys - db0.resources.Keys :: x in db.resources && db.resources[x] == mid.resources[x])
  }

  /** The evidence of the journal does not change while the sweep adds deletes. */
  lemma SameEvidence(db0: Fleet, mid: Fleet, machines: seq<Machine>, m: Machine, snapshot: Rows, open: set<ResourceId>, policy: Policy)
    requires Discovered(db0, mid, machines, snapshot, open, policy) && Grew(db0, mid, snapshot)
    ensures UnderWay(db0.operations, m, snapshot, open) ==> UnderWay(mid.operations, m, snapshot, open)
    ensures LabelIsOld(db0, mid, m) ==> (UnderWay(db0.operations, m, snapshot, open) <==> UnderWay(mid.operations, m, snapshot, open))
    ensures GhostEvidence(db0.operations, m, snapshot) <==> GhostEvidence(mid.operations, m, snapshot)
  {
    if m.createOp.Some? && m.createOp.value in mid.operations && m.createOp.value !in db0.operations {
      assert m.createOp.value in mid.operations.Keys - db0.operations.Keys;
    }
  }

  lemma NotOwnedYet(db0: Fleet, mid: Fleet, machines: seq<Machine>, m: Machine, snapshot: Rows, open: set<ResourceId>, policy: Policy)
    requires Discovered(db0, mid, machines, snapshot, open, policy) && Grew(db0, mid, snapshot)
    requires FirstListed(machines + [m], |machines|) && Unmatched(m, snapshot)
    ensures !OwnsMachine(mid.resources, m.ext)
  {
    forall x | x in mid.resources.Keys && Live(mid.resources, x)
      ensures mid.resources[x].externalId != Some(m.ext)
    {
      if x in db0.resources.Keys {
        assert x in snapshot.Keys;
      } else {
        var i :| 0 <= i < |machines| && ToRecord(db0.operations, machines[i], snapshot, open, policy)
                 && mid.resources[x].externalId == Some(machines[i].ext);
        assert (machines + [m])[i] == machines[i];
      }
    }
  }

  /** A machine listed for the first time ends as its evidence says. */
  lemma ThisOne(db0: Fleet, mid: Fleet, db: Fleet, machines: seq<Machine>, m: Machine, snapshot: Rows, open: set<ResourceId>,
                policy: Policy, at: int)
    requires Inv(mid) && Discovered(db0, mid, machines, snapshot, open, policy) && Grew(db0, mid, snapshot) && Adds(db0, mid, db)
    requires SightedAs(mid, db, m, snapshot, open, policy, at)
    requires FirstListed(machines + [m], |machines|) && ToRecord(db0.operations, m, snapshot, open, policy) && LabelIsOld(db0, db, m)
    ensures exists x :: EndsOn(db0, db, m, ToDelete(db0.operations, m, snapshot, policy), x)
  {
    assert LabelIsOld(db0, mid, m);
    SameEvidence(db0, mid, machines, m, snapshot, open, policy);
    NotOwnedYet(db0, mid, machines, m, snapshot, open, policy);
    var deleting := ToDelete(db0.operations, m, snapshot, policy);
    assert ToDelete(mid.operations, m, snapshot, policy) == deleting;
    hide UnderWay, GhostEvidence, OwnsMachine, Unmatched, Discovered, FirstListed;
    var id, op :| RecordedAs(mid, db, m, deleting, id, op, at);
    FreshUnheld(mid, id);
    assert id in db.resources.Keys && id !in db0.resources;
    if deleting {
      assert op !in db0.operations.Keys;
      assert DeleteOf(db.operations[op], id, m);
    }
    assert EndsOn(db0, db, m, deleting, id);
  }

  lemma StillEndsOn(db0: Fleet, mid: Fleet, db: Fleet, before: Machine, deleting: bool, m: Machine, snapshot: Rows, open: set<ResourceId>,
                    policy: Policy, at: int, x: ResourceId)
    requires EndsOn(db0, mid, before, deleting, x) && Adds(db0, mid, db) && SightedAs(mid, db, m, snapshot, open, policy, at)
    ensures EndsOn(db0, db, before, deleting, x)
  {
    assert x in mid.resources.Keys - db0.resources.Keys;
    if deleting {
      var o :| o !in db0.operations && o in mid.operations && DeleteOf(mid.operations[o], x, before);
      assert o in mid.operations.Keys;
    } else {
      hide UnderWay, GhostEvidence, OwnsMachine, Unmatched, RowOf;
      if ToRecord(mid.operations, m, snapshot, open, policy) && !OwnsMachine(mid.resources, m.ext) {
        var id, op :| RecordedAs(mid, db, m, ToDelete(mid.operations, m, snapshot, policy), id, op, at);
        assert id != x;
      }
    }
  }

  lemma NewRowHasMachine(db0: Fleet, mid: Fleet, db: Fleet, machines: seq<Machine>, m: Machine, snapshot: Rows, open: set<ResourceId>,
                         policy: Policy, at: int, x: ResourceId)
    requires Discovered(db0, mid, machines, snapshot, open, policy) && Grew(db0, mid, snapshot) && Adds(db0, mid, db)
    requires SightedAs(mid, db, m, snapshot, open, policy, at) && x in db.resources.Keys - db0.resources.Keys
    ensures exists i | 0 <= i < |machines + [m]| ::
              ToRecord(db0.operations, (machines + [m])[i], snapshot, open, policy) && db.resources[x].externalId == Some((machines + [m])[i].ext)
  {
    SameEvidence(db0, mid, machines, m, snapshot, open, policy);
    hide UnderWay, GhostEvidence, OwnsMachine, Unmatched;
    if x in mid.resources.Keys {
      var i :| 0 <= i < |machines| && ToRecord(db0.operations, machines[i], snapshot, open, policy)
               && mid.resources[x].externalId == Some(machines[i].ext);
      assert (machines + [m])[i] == machines[i];
    } else {
      assert (machines + [m])[|machines|] == m;
    }
  }

  lemma NewDeleteHasMachine(db0: Fleet, mid: Fleet, db: Fleet, machines: seq<Machine>, m: Machine, snapshot: Rows, open: set<ResourceId>,
                            policy: Policy, at: int, o: OperationId)
    requires Discovered(db0, mid, machines, snapshot, open, policy) && Grew(db0, mid, snapshot) && Adds(db0, mid, db)
    requires SightedAs(mid, db, m, snapshot, open, policy, at) && o in db.operations.Keys - db0.operations.Keys
    ensures exists i | 0 <= i < |machines + [m]| ::
              DeletedFor(db0, db, o, (machines + [m])[i], snapshot, open, policy)
  {
    SameEvidence(db0, mid, machines, m, snapshot, open, policy);
    hide UnderWay, GhostEvidence, OwnsMachine, Unmatched;
    if o in mid.operations.Keys {
      assert o in mid.operations.Keys - db0.operations.Keys;
      var i :| 0 <= i < |machines| && DeletedFor(db0, mid, o, machines[i], snapshot, open, policy);
      assert (machines + [m])[i] == machines[i];
      assert mid.operations[o].resource in mid.resources.Keys - db0.resources.Keys;
    } else {
      assert (machines + [m])[|machines|] == m;
      var id, op :| RecordedAs(mid, db, m, ToDelete(mid.operations, m, snapshot, policy), id, op, at);
      assert id in db.resources.Keys && id !in db0.resources.Keys;
    }
  }

  lemma OneMore(db0: Fleet, mid: Fleet, db: Fleet, machines: seq<Machine>, m: Machine, snapshot: Rows, open: set<ResourceId>,
                policy: Policy, at: int)
    requires Inv(mid) && Discovered(db0, mid, machines, snapshot, open, policy) && Grew(db0, mid, snapshot) && Adds(db0, mid, db)
    requires SightedAs(mid, db, m, snapshot, open, policy, at)
    ensures Discovered(db0, db, machines + [m], snapshot, open, policy)
  {
    hide Inv, Grew, Adds, SightedAs, ToRecord, ToDelete, EndsOn, DeletedFor;
    var all := machines + [m];
    forall i | 0 <= i < |all| && FirstListed(all, i) && ToRecord(db0.operations, all[i], snapshot, open, policy) && LabelIsOld(db0, db, all[i])
      ensures exists x :: EndsOn(db0, db, all[i], ToDelete(db0.operations, all[i], snapshot, policy), x)
    {
      if i == |machines| {
        ThisOne(db0, mid, db, machines, m, snapshot, open, policy, at);
      } else {
        assert forall j | 0 <= j <= i :: all[j] == machines[j];
        assert FirstListed(machines, i);
        OldLabel(db0, mid, db, machines[i]);
        var deleting := ToDelete(db0.operations, machines[i], snapshot, policy);
        var x :| EndsOn(db0, mid, machines[i], deleting, x);
        StillEndsOn(db0, mid, db, machines[i], deleting, m, snapshot, open, policy, at, x);
      }
    }
    forall x <- db.resources.Keys - db0.resources.Keys
      ensures exists i | 0 <= i < |all| :: ToRecord(db0.operations, all[i], snapshot, open, policy) && db.resources[x].externalId == Some(all[i].ext)
    {
      NewRowHasMachine(db0, mid, db, machines, m, snapshot, open, policy, at, x);
    }
    forall o <- db.operations.Keys - db0.operations.Keys
      ensures exists i | 0 <= i < |all| :: DeletedFor(db0, db, o, all[i], snapshot, open, policy)
    {
      NewDeleteHasMachine(db0, mid, db, machines, m, snapshot, open, policy, at, o);
    }
  }

  lemma OldLabel(db0: Fleet, mid: Fleet, db: Fleet, m: Machine)
    requires Adds(db0, mid, db) && LabelIsOld(db0, db, m)
    ensures LabelIsOld(db0, mid, m)
  {
    assert m.createOp.Some? && m.createOp.value in mid.operations ==> m.createOp.value in mid.operations.Keys;
  }

  lemma NothingDiscovered(db: Fleet, snapshot: Rows, open: set<ResourceId>, policy: Policy)
    ensures Discovered(db, db, [], snapshot, open, policy)
  {
  }

  class Sweeper {
    const st: Store
    const rec: Reconciler

    constructor (st: Store, rec: Reconciler)
      requires rec.st == st
      ensures this.st == st && this.rec == rec
    {
      this.st := st;
      this.rec := rec;
    }

    method RefreshObserved(id: ResourceId, snapshot: Resource, m: Machine, at: int)
      modifies st
      ensures st.Db() == Refresh(old(st.Db()), id, snapshot, m.sighted, m.capacity, at)
    {
      var before := st.Db();
      var err := st.SetProviderFacts(id, m.capacity, at);
      if !err.NoError? {
        return;
      }
      if snapshot.phase.Orphaned? && m.sighted.SeenRunning? {
        err := st.CASPhase(id, Orphaned, Ready, at);
      } else if snapshot.phase.Orphaned? && m.sighted.SeenStopped? && snapshot.parkable {
        err := st.CASPhase(id, Orphaned, Parked, at);
      }
      if !err.NoError? {
        st.Rollback(before);
      }
    }

    /** The initial phase follows the observation: a stopped machine is never minted as schedulable. */
    method MintRecord(m: Machine, ownership: Ownership, at: int) returns (id: ResourceId, err: Error)
      modifies st`resources
      ensures id !in old(st.resources)
      ensures err.NoError? <==> ExternalFree(old(st.resources), id, m.ext)
      ensures st.Db() == Mint(old(st.Db()), id, RecordOf(m, ownership, at))
    {
      id := Ids.Fresh(st.resources.Keys);
      var row := Resource(Ready, ownership, Some(m.ext), false, None, m.className, m.capacity, m.parkable, at, at, None, None, None, None, None);
      if m.sighted.SeenStopped? && m.parkable {
        row := row.(phase := Parked, parkedAt := Some(at));
      }
      err := st.CreateResource(id, row);
    }

    /** A ghost is recorded, and by policy drained and deleted through the journal. Only its own row and operation appear. */
    method HandleGhost(m: Machine, policy: Policy, at: int) returns (ghost id: ResourceId, ghost op: OperationId)
      requires rec.st == st && Inv(st.Db())
      modifies st
      ensures Inv(st.Db()) && st.leases == old(st.leases) && st.acquisitions == old(st.acquisitions)
      ensures id !in old(st.resources) && op !in old(st.operations)
      ensures st.Db() == GhostHandled(old(st.Db()), m, policy.deleteGhosts, id, op, at)
    {
      hide Inv, DeleteGates;
      ghost var before := st.Db();
      var newOp := Ids.Fresh(st.operations.Keys);
      op := newOp;
      var minted, err := MintRecord(m, OwnershipManaged, at);
      id := minted;
      MintKeeps(before, id, RecordOf(m, OwnershipManaged, at));
      if !err.NoError? || !policy.deleteGhosts {
        return;
      }
      ghost var found := st.Db();
      err := st.CASPhase(minted, Ready, Draining, at);
      MovePhaseKeeps(found, id, Ready, Draining, at);
      assert st.Db() == MovePhase(found, id, Ready, Draining, at);
      if err.NoError? {
        DeleteKeeps(st.Db(), id, op, at);
        err := rec.JournalDelete(minted, newOp, at);
      }
    }

    /** The journal decides what an owned machine without a row is. */
    method JudgeUnmatched(m: Machine, liveRows: Rows, open: set<ResourceId>) returns (verdict: Verdict)
      ensures verdict == Judge(st.Db(), m, liveRows, open)
    {
      if m.fleetplaneId.Some? && m.fleetplaneId.value in liveRows && liveRows[m.fleetplaneId.value].externalId.None?
         && m.fleetplaneId.value in open {
        return HandsOff;
      }
      if m.createOp.Some? && m.createOp.value in st.operations {
        var createOp := st.operations[m.createOp.value];
        if !createOp.state.Terminal() {
          return HandsOff;
        }
        var boundElsewhere := false;
        if createOp.state.OpSucceeded? && createOp.resource in liveRows {
          var row := liveRows[createOp.resource];
          boundElsewhere := row.externalId.Some? && row.externalId.value != m.ext;
        }
        if boundElsewhere || createOp.state.OpFailed? || createOp.state.OpAborted? {
          return Ghost;
        }
      }
      verdict := Readopt;
    }

    method ResolveOwnedUnmatched(m: Machine, liveRows: Rows, open: set<ResourceId>, policy: Policy, at: int)
      returns (ghost id: ResourceId, ghost op: OperationId)
      requires rec.st == st && Inv(st.Db())
      modifies st
      ensures Inv(st.Db()) && st.leases == old(st.leases) && st.acquisitions == old(st.acquisitions)
      ensures id !in old(st.resources) && op !in old(st.operations)
      ensures st.Db() == Resolved(old(st.Db()), m, Judge(old(st.Db()), m, liveRows, open), policy.deleteGhosts, id, op, at)
      ensures m.owned && Unmatched(m, liveRows) ==> SightedAs(old(st.Db()), st.Db(), m, liveRows, open, policy, at)
    {
      hide Inv, GhostHandled, Judge, ExternalFree, InPhase, Live, SightedAs, Unmatched;
      ghost var before := st.Db();
      var newOp := Ids.Fresh(st.operations.Keys);
      var newId := Ids.Fresh(st.resources.Keys);
      id, op := newId, newOp;
      var verdict := JudgeUnmatched(m, liveRows, open);
      match verdict {
        case HandsOff =>
        case Ghost => id, op := HandleGhost(m, policy, at);
        case Readopt =>
          var minted, err := MintRecord(m, OwnershipManaged, at);
          id := minted;
          MintKeeps(before, id, RecordOf(m, OwnershipManaged, at));
      }
      if m.owned && Unmatched(m, liveRows) { ResolvedAs(before, m, liveRows, open, policy, id, op, at); }
    }

    /** Absence in a listing is never proof: gone is what a direct get confirmed. */
    method ConfirmOrphan(id: ResourceId, snapshot: Resource, gone: bool, policy: Policy, at: int)
      modifies st`resources
      ensures st.Db() ==
        if !gone then old(st.Db())
        else if snapshot.phase.Orphaned? then
          if at - snapshot.updatedAt < policy.graceMs then old(st.Db()) else TombstoneOrphan(old(st.Db()), id, at)
        else if CanTransition(snapshot.phase, Orphaned) then MovePhase(old(st.Db()), id, snapshot.phase, Orphaned, at)
        else old(st.Db())
    {
      if !gone {
        return;
      }
      if snapshot.phase.Orphaned? {
        if at - snapshot.updatedAt < policy.graceMs {
          return;
        }
        var n := st.CountActive(id);
        if n > 0 {
          return;
        }
        var err := st.MarkDeleted(id, at);
      } else if CanTransition(snapshot.phase, Orphaned) {
        var err := st.CASPhase(id, snapshot.phase, Orphaned, at);
      }
    }

    /** The snapshot's index by machine. */
    method FindByExternal(rows: Rows, ext: ExternalId) returns (found: Option<ResourceId>)
      ensures found.Some? ==> found.value in rows && rows[found.value].externalId == Some(ext)
      ensures found.None? ==> forall x :: x in rows ==> rows[x].externalId != Some(ext)
    {
      var todo := rows.Keys;
      while todo != {}
        invariant todo <= rows.Keys
        invariant forall x :: x in rows && x !in todo ==> rows[x].externalId != Some(ext)
        decreases todo
      {
        var x :| x in todo;
        if rows[x].externalId == Some(ext) {
          return Some(x);
        }
        todo := todo - {x};
      }
      found := None;
    }

    /** One listed machine: its row is refreshed, or it is resolved into a row of its own. */
    method SightOne(m: Machine, snapshot: Rows, open: set<ResourceId>, policy: Policy, at: int)
      requires rec.st == st && Inv(st.Db())
      modifies st
      ensures Inv(st.Db()) && st.leases == old(st.leases) && st.acquisitions == old(st.acquisitions)
      ensures forall o :: o in old(st.operations) ==> o in st.operations && st.operations[o] == old(st.operations)[o]
      ensures forall x :: x in old(st.resources) ==> x in st.resources && Kept(old(st.resources), st.resources, x)
      ensures forall x :: x in old(st.resources) && !(x in snapshot && snapshot[x].externalId == Some(m.ext)) ==>
        st.resources[x] == old(st.resources)[x]
      ensures Recorded(st.Db(), m, snapshot, open, policy)
      ensures SightedAs(old(st.Db()), st.Db(), m, snapshot, open, policy, at)
    {
      hide Inv, Resolved, Judge, OwnsMachine, UnderWay, GhostEvidence, RecordedAs;
      var row := FindByExternal(snapshot, m.ext);
      ghost var before := st.Db();
      if row.Some? {
        RefreshKeeps(st.Db(), row.value, snapshot[row.value], m.sighted, m.capacity, at);
        RefreshObserved(row.value, snapshot[row.value], m, at);
        assert row.value in snapshot.Keys;
      } else if m.owned {
        ghost var id, op := ResolveOwnedUnmatched(m, snapshot, open, policy, at);
        ResolvedAdds(before, m, Judge(before, m, snapshot, open), policy.deleteGhosts, id, op, at);
        HandsOffStays(before, m, snapshot, open, policy.deleteGhosts, id, op, at);
      } else if policy.adoptUnlabeled {
        MintAdopted(m, policy, at);
        AdoptedAs(before, st.Db(), m, snapshot, open, policy, at);
      }
    }

    /** The first half of the sweep: every listed machine in turn. */
    method SightPass(machines: seq<Machine>, snapshot: Rows, open: set<ResourceId>, policy: Policy, at: int)
      requires rec.st == st && Inv(st.Db()) && snapshot == LiveRows(st.resources)
      modifies st
      ensures Inv(st.Db()) && st.leases == old(st.leases) && st.acquisitions == old(st.acquisitions)
      ensures forall o :: o in old(st.operations) ==> o in st.operations && st.operations[o] == old(st.operations)[o]
      ensures forall x :: x in old(st.resources) ==> x in st.resources && Kept(old(st.resources), st.resources, x)
      ensures forall x :: x in old(st.resources) && (x !in snapshot || Unlisted(snapshot[x], Listing(machines))) ==>
        st.resources[x] == old(st.resources)[x]
      ensures forall i | 0 <= i < |machines| :: Recorded(st.Db(), machines[i], snapshot, open, policy)
      ensures Discovered(old(st.Db()), st.Db(), machines, snapshot, open, policy)
    {
      hide Inv, LiveRows, Recorded, SightedAs, Discovered;
      ghost var start := st.Db();
      NothingDiscovered(start, snapshot, open, policy);
      for i := 0 to |machines|
        invariant Inv(st.Db()) && st.leases == start.leases && st.acquisitions == start.acquisitions
        invariant forall o :: o in start.operations ==> o in st.operations && st.operations[o] == start.operations[o]
        invariant forall x :: x in start.resources ==> x in st.resources && Kept(start.resources, st.resources, x)
        invariant forall x :: x in start.resources && (x !in snapshot || Unlisted(snapshot[x], Listing(machines[..i]))) ==>
          st.resources[x] == start.resources[x]
        invariant forall j | 0 <= j < i :: Recorded(st.Db(), machines[j], snapshot, open, policy)
        invariant Discovered(start, st.Db(), machines[..i], snapshot, open, policy)
      {
        assert machines[..i + 1] == machines[..i] + [machines[i]];
        ListingAdds(machines[..i], machines[i]);
        ghost var before := st.Db();
        SightOne(machines[i], snapshot, open, policy, at);
        forall j | 0 <= j < i
          ensures Recorded(st.Db(), machines[j], snapshot, open, policy)
        {
          RecordedStays(before, st.Db(), machines[j], snapshot, open, policy);
        }
        SnapshotGrew(start, before, snapshot);
        SightAdds(start, before, st.Db(), machines[i], snapshot);
        OneMore(start, before, st.Db(), machines[..i], machines[i], snapshot, open, policy, at);
      }
      assert machines[..|machines|] == machines;
    }

    method MintAdopted(m: Machine, policy: Policy, at: int)
      requires Inv(st.Db()) && !m.owned
      modifies st`resources
      ensures if OwnsMachine(old(st.resources), m.ext) then st.resources == old(st.resources)
              else exists id :: id !in old(st.resources) && st.resources.Keys == old(st.resources).Keys + {id} && RowOf(st.resources[id], m, false)
      ensures Inv(st.Db()) && OwnsMachine(st.resources, m.ext)
      ensures forall x :: x in old(st.resources) ==> x in st.resources && st.resources[x] == old(st.resources)[x]
    {
      ghost var before := st.Db();
      var id, err := MintRecord(m, OwnershipObserved, at);
      MintOwns(before, id, RecordOf(m, OwnershipObserved, at));
      MintKeeps(before, id, RecordOf(m, OwnershipObserved, at));
    }

    /** One row of the snapshot, after the listing. */
    method ConfirmOne(id: ResourceId, row: Resource, listed: set<ExternalId>, gone: set<ExternalId>, open: set<ResourceId>, policy: Policy, at: int)
      requires Inv(st.Db()) && Live(st.resources, id)
      requires Unlisted(row, listed) ==> st.resources[id] == row
      requires row.phase.Provisioning? ==> id in open
      modifies st`resources
      ensures Inv(st.Db()) && id in st.resources && st.resources == old(st.resources)[id := st.resources[id]]
      ensures st.resources[id].deletedAt.Some? <==> Unleased(st.leases, id) && Buriable(row, listed, gone, open, id, policy.graceMs, at)
      ensures Confirmed(row, listed, gone) || st.resources[id] == old(st.resources)[id]
    {
      if row.externalId.Some? && row.externalId.value !in listed && id !in open {
        ConfirmKeeps(st.Db(), id, row, at);
        ConfirmOrphan(id, row, row.externalId.value in gone, policy, at);
      }
    }

    /** The second half: unlisted rows that a direct get confirms as gone are orphaned, and old orphans buried. */
    method ConfirmPass(snapshot: Rows, listed: set<ExternalId>, gone: set<ExternalId>, open: set<ResourceId>, policy: Policy, at: int)
      requires Inv(st.Db())
      requires forall id :: id in snapshot ==> Live(st.resources, id) && (Unlisted(snapshot[id], listed) ==> st.resources[id] == snapshot[id])
      requires forall id :: id in snapshot && snapshot[id].phase.Provisioning? ==> id in open
      modifies st`resources
      ensures Inv(st.Db()) && st.resources.Keys == old(st.resources).Keys
      ensures forall id :: id in snapshot ==>
        (st.resources[id].deletedAt.Some? <==>
          Unleased(st.leases, id) && Buriable(snapshot[id], listed, gone, open, id, policy.graceMs, at))
      ensures forall id | id in snapshot :: Confirmed(snapshot[id], listed, gone) || st.resources[id] == old(st.resources)[id]
      ensures forall id | id in old(st.resources) && id !in snapshot :: st.resources[id] == old(st.resources)[id]
    {
      hide Inv, Buriable, Confirmed, Unlisted, Unleased;
      var todo := snapshot.Keys;
      while todo != {}
        invariant todo <= snapshot.Keys
        invariant Inv(st.Db()) && st.resources.Keys == old(st.resources).Keys
        invariant forall id | id in todo :: st.resources[id] == old(st.resources)[id]
        invariant forall id | id in old(st.resources) && id !in snapshot :: st.resources[id] == old(st.resources)[id]
        invariant forall id | id in snapshot && id !in todo ::
          (st.resources[id].deletedAt.Some? <==>
            Unleased(st.leases, id) && Buriable(snapshot[id], listed, gone, open, id, policy.graceMs, at))
        invariant forall id | id in snapshot && id !in todo :: Confirmed(snapshot[id], listed, gone) || st.resources[id] == old(st.resources)[id]
        decreases todo
      {
        var id :| id in todo;
        ConfirmOne(id, snapshot[id], listed, gone, open, policy, at);
        todo := todo - {id};
      }
    }

    /** One full pass over a provider. machines is its listing and gone what direct gets confirm as absent. A live row is
        buried exactly when it was an orphan outside its grace, unlisted, confirmed gone, unleased and unheld; a row whose
        machine is neither listed nor confirmed gone is untouched. */
    method SweepKind(machines: seq<Machine>, gone: set<ExternalId>, healthy: bool, policy: Policy, at: int)
      requires rec.st == st && Inv(st.Db())
      modifies st
      ensures Inv(st.Db()) && st.leases == old(st.leases) && st.acquisitions == old(st.acquisitions)
      ensures forall o :: o in old(st.operations) ==> o in st.operations && st.operations[o] == old(st.operations)[o]
      ensures forall id :: Live(old(st.resources), id) ==> id in st.resources
      ensures forall id :: Live(old(st.resources), id) ==>
        (st.resources[id].deletedAt.Some? <==>
          healthy && Unleased(st.leases, id)
          && Buriable(old(st.resources)[id], Listing(machines), gone, HeldRows(old(st.operations)), id, policy.graceMs, at))
      ensures forall id | Live(old(st.resources), id) && Unlisted(old(st.resources)[id], Listing(machines)) ::
        (healthy && Confirmed(old(st.resources)[id], Listing(machines), gone)) || st.resources[id] == old(st.resources)[id]
      ensures forall i | 0 <= i < |machines| ::
        Recorded(st.Db(), machines[i], old(LiveRows(st.resources)), HeldRows(old(st.operations)), policy)
      ensures Discovered(old(st.Db()), st.Db(), machines, old(LiveRows(st.resources)), HeldRows(old(st.operations)), policy)
    {
      hide Discovered;
      var snapshot := LiveRows(st.resources);
      var open := HeldRows(st.operations);
      CreatesAreHeld(st.Db());
      SightPass(machines, snapshot, open, policy, at);
      if healthy {
        ghost var seen := st.Db();
        ConfirmPass(snapshot, Listing(machines), gone, open, policy, at);
        forall i | 0 <= i < |machines|
          ensures Recorded(st.Db(), machines[i], snapshot, open, policy)
        {
          RecordedSurvives(seen, st.Db(), machines[i], snapshot, open, policy, Listing(machines), gone);
        }
        DiscoveredSurvives(old(st.Db()), seen, st.Db(), machines, snapshot, open, policy);
      }
    }
  }

  /** Rows the sweep added are not in its snapshot, so the second half leaves them alone. */
  lemma DiscoveredSurvives(db0: Fleet, seen: Fleet, db: Fleet, machines: seq<Machine>, snapshot: Rows, open: set<ResourceId>, policy: Policy)
    requires Discovered(db0, seen, machines, snapshot, open, policy)
    requires db.operations == seen.operations && db.resources.Keys == seen.resources.Keys
    requires forall x <- seen.resources.Keys - db0.resources.Keys :: db.resources[x] == seen.resources[x]
    ensures Discovered(db0, db, machines, snapshot, open, policy)
  {
    hide ToRecord, ToDelete, DeleteOf, RowOf;
    forall i | 0 <= i < |machines| && FirstListed(machines, i) && ToRecord(db0.operations, machines[i], snapshot, open, policy)
               && LabelIsOld(db0, db, machines[i])
      ensures exists x :: EndsOn(db0, db, machines[i], ToDelete(db0.operations, machines[i], snapshot, policy), x)
    {
      var deleting := ToDelete(db0.operations, machines[i], snapshot, policy);
      var x :| EndsOn(db0, seen, machines[i], deleting, x);
      assert EndsOn(db0, db, machines[i], deleting, x);
    }
    forall o <- db.operations.Keys - db0.operations.Keys
      ensures exists i | 0 <= i < |machines| :: DeletedFor(db0, db, o, machines[i], snapshot, open, policy)
    {
      var i :| 0 <= i < |machines| && DeletedFor(db0, seen, o, machines[i], snapshot, open, policy);
      assert DeletedFor(db0, db, o, machines[i], snapshot, open, policy);
    }
  }

  lemma SnapshotGrew(db0: Fleet, db: Fleet, snapshot: Rows)
    requires snapshot == LiveRows(db0.resources)
    requires forall o :: o in db0.operations ==> o in db.operations && db.operations[o] == db0.operations[o]
    requires forall x :: x in db0.resources ==> x in db.resources && Kept(db0.resources, db.resources, x)
    ensures Grew(db0, db, snapshot)
  {
  }

  lemma SightAdds(db0: Fleet, mid: Fleet, db: Fleet, m: Machine, snapshot: Rows)
    requires snapshot == LiveRows(db0.resources)
    requires forall o :: o in mid.operations ==> o in db.operations && db.operations[o] == mid.operations[o]
    requires forall x :: x in mid.resources ==> x in db.resources && Kept(mid.resources, db.resources, x)
    requires forall x :: x in mid.resources && !(x in snapshot && snapshot[x].externalId == Some(m.ext)) ==> db.resources[x] == mid.resources[x]
    ensures Adds(db0, mid, db)
  {
  }

  lemma AdoptedAs(db: Fleet, db': Fleet, m: Machine, snapshot: Rows, open: set<ResourceId>, policy: Policy, at: int)
    requires !m.owned && policy.adoptUnlabeled && Unmatched(m, snapshot) && db'.operations == db.operations
    requires if OwnsMachine(db.resources, m.ext) then db'.resources == db.resources
             else exists id :: id !in db.resources && db'.resources.Keys == db.resources.Keys + {id} && RowOf(db'.resources[id], m, false)
    ensures SightedAs(db, db', m, snapshot, open, policy, at)
  {
    hide OwnsMachine, RowOf, Unmatched;
    if !OwnsMachine(db.resources, m.ext) {
      var id :| id !in db.resources && db'.resources.Keys == db.resources.Keys + {id} && RowOf(db'.resources[id], m, false);
      assert RecordedAs(db, db', m, false, id, 0, at);
      assert !ToDelete(db.operations, m, snapshot, policy);
    }
  }

  lemma CreatesAreHeld(db: Fleet)
    requires Inv(db)
    ensures forall id :: InPhase(db.resources, id, Provisioning) ==> id in HeldRows(db.operations)
  {
    forall id | InPhase(db.resources, id, Provisioning)
      ensures id in HeldRows(db.operations)
    {
      var o := Holder(db.operations, id);
      assert o in db.operations && !db.operations[o].state.Terminal();
    }
  }

  lemma ListingAdds(machines: seq<Machine>, m: Machine)
    ensures Listing(machines + [m]) == Listing(machines) + {m.ext}
  {
    assert (machines + [m])[|machines|] == m;
    forall x | x in Listing(machines)
      ensures x in Listing(machines + [m])
    {
      var i :| 0 <= i < |machines| && machines[i].ext == x;
      assert (machines + [m])[i].ext == x;
    }
  }

  /** Without interference the snapshot is the row, so what the sweep writes stays within the invariant. */
  lemma ConfirmKeeps(db: Fleet, id: ResourceId, row: Resource, at: int)
    requires Inv(db) && Live(db.resources, id) && db.resources[id] == row && row.externalId.Some?
    requires !row.phase.Provisioning?
    ensures row.phase.Orphaned? ==> Inv(TombstoneOrphan(db, id, at))
    ensures CanTransition(row.phase, Orphaned) ==> Inv(MovePhase(db, id, row.phase, Orphaned, at))
  {
    if row.phase.Orphaned? && Unleased(db.leases, id) { TombstoneKeeps(db, id, at); }
    if CanTransition(row.phase, Orphaned) { MovePhaseKeeps(db, id, row.phase, Orphaned, at); }
  }
}
