/** Keyed commands over every run of requests, collections and foreign changes to the fleet. */
module ExactlyOnce {
  import opened Basics
  import opened Phases
  import opened Storage
  import opened Idempotency
  import opened Service

  /** One performed side effect, in commit order. */
  datatype Entry = Entry(key: Option<IdemKey>, hash: string, op: Option<OperationId>, r: Response, at: int)

  /** latestGc is the latest time any collection ran at. */
  datatype Desk = Desk(db: Fleet, records: Records, log: seq<Entry>, latestGc: Option<int>)

  datatype Event =
    | Request(key: Option<IdemKey>, hash: string, c: Command, r: Response, now: int)
    | Collect(chosen: set<IdemKey>, now: int)
    | Elsewhere(db: Fleet)

  function ReplyTo(d: Desk, e: Event): Reply
    requires e.Request?
  {
    Keyed(d.db, d.records, e.key, e.hash, e.c, e.r, e.now).2
  }

  function DeskNext(d: Desk, e: Event): Desk {
    match e
    case Request(key, hash, c, r, now) =>
      var after := Keyed(d.db, d.records, key, hash, c, r, now);
      Desk(after.0, after.1, if after.2.Done? then d.log + [Entry(key, hash, OpOf(c), r, now)] else d.log, d.latestGc)
    case Collect(chosen, now) =>
      d.(records := map k | k in d.records && !(k in chosen && Collectable(d.records[k], d.db.operations, now)) :: d.records[k],
         latestGc := if d.latestGc.Some? && d.latestGc.value >= now then d.latestGc else Some(now))
    case Elsewhere(db) => d.(db := db)
  }

  function DeskRun(d: Desk, events: seq<Event>): Desk {
    if |events| == 0 then d else DeskNext(DeskRun(d, events[..|events| - 1]), events[|events| - 1])
  }

  function FreshDesk(db: Fleet): Desk {
    Desk(db, map[], [], None)
  }

  /** The record that replays this effect is still there. */
  predicate Held(records: Records, e: Entry) {
    e.key.Some? && e.key.value in records && records[e.key.value] == Completed(e.hash, e.op, e.r, e.at + RETENTION_MS)
  }

  /** A collection ran after the retention of this effect was over. */
  predicate Outlived(d: Desk, e: Entry) {
    d.latestGc.Some? && e.at + RETENTION_MS < d.latestGc.value
  }

  /** The record is that of an effect. */
  ghost predicate Earned(d: Desk, k: IdemKey) {
    exists i | 0 <= i < |d.log| :: d.log[i].key == Some(k) && Held(d.records, d.log[i])
  }

  ghost predicate DeskSound(d: Desk) {
    && (forall k :: k in d.records ==> d.records[k].state.IdemCompleted? && Earned(d, k))
    && (forall i | 0 <= i < |d.log| && d.log[i].key.Some? :: Held(d.records, d.log[i]) || Outlived(d, d.log[i]))
    && (forall i, j | 0 <= i < j < |d.log| && d.log[i].key.Some? && d.log[i].key == d.log[j].key :: Outlived(d, d.log[i]))
  }

  lemma StaysEarned(d: Desk, e: Event, k: IdemKey)
    requires DeskSound(d) && k in DeskNext(d, e).records
    ensures DeskNext(d, e).records[k].state.IdemCompleted? && Earned(DeskNext(d, e), k)
  {
    hide Performed, Admitted;
    var d' := DeskNext(d, e);
    if k in d.records {
      assert Earned(d, k);
      var i :| 0 <= i < |d.log| && d.log[i].key == Some(k) && Held(d.records, d.log[i]);
      assert d'.log[i] == d.log[i];
    } else {
      assert d'.log[|d.log|].key == Some(k);
    }
  }

  lemma EventKeepsDesk(d: Desk, e: Event)
    requires DeskSound(d)
    ensures DeskSound(DeskNext(d, e))
  {
    var d' := DeskNext(d, e);
    hide Performed, Admitted, Earned;
    forall k | k in d'.records
      ensures d'.records[k].state.IdemCompleted? && Earned(d', k)
    {
      StaysEarned(d, e, k);
    }
    forall i | 0 <= i < |d'.log| && d'.log[i].key.Some?
      ensures Held(d'.records, d'.log[i]) || Outlived(d', d'.log[i])
    {
      if i < |d.log| { assert Held(d.records, d.log[i]) || Outlived(d, d.log[i]); }
    }
    forall i, j | 0 <= i < j < |d'.log| && d'.log[i].key.Some? && d'.log[i].key == d'.log[j].key
      ensures Outlived(d', d'.log[i])
    {
      assert Held(d.records, d.log[i]) || Outlived(d, d.log[i]);
    }
  }

  lemma {:induction false} RunKeepsDesk(d: Desk, events: seq<Event>)
    requires DeskSound(d)
    ensures DeskSound(DeskRun(d, events))
  {
    if |events| > 0 {
      RunKeepsDesk(d, events[..|events| - 1]);
      EventKeepsDesk(DeskRun(d, events[..|events| - 1]), events[|events| - 1]);
    }
  }

  /** Two side effects of one key never happen unless a collection ran after the retention of the first was over. */
  lemma OneEffectPerKey(db: Fleet, events: seq<Event>, i: nat, j: nat)
    requires var log := DeskRun(FreshDesk(db), events).log;
             i < j < |log| && log[i].key.Some? && log[i].key == log[j].key
    ensures Outlived(DeskRun(FreshDesk(db), events), DeskRun(FreshDesk(db), events).log[i])
  {
    RunKeepsDesk(FreshDesk(db), events);
  }

  lemma {:induction false} NoCollectionNoGc(d: Desk, events: seq<Event>)
    requires d.latestGc.None? && forall n | 0 <= n < |events| :: !events[n].Collect?
    ensures DeskRun(d, events).latestGc.None?
  {
    if |events| > 0 { NoCollectionNoGc(d, events[..|events| - 1]); }
  }

  /** As deployed, where nothing collects, a key has at most one side effect ever. */
  lemma OneEffectEver(db: Fleet, events: seq<Event>, i: nat, j: nat)
    requires forall n | 0 <= n < |events| :: !events[n].Collect?
    requires var log := DeskRun(FreshDesk(db), events).log;
             i < |log| && j < |log| && log[i].key.Some? && log[i].key == log[j].key
    ensures i == j
  {
    NoCollectionNoGc(FreshDesk(db), events);
    if i < j { OneEffectPerKey(db, events, i, j); }
    if j < i { OneEffectPerKey(db, events, j, i); }
  }

  /** Once a keyed effect happened, every later request with its key replays the stored bytes or is turned away, and
      either way changes nothing; the in-flight answer never occurs. */
  lemma LaterRequestsReplay(db: Fleet, events: seq<Event>, i: nat, e: Event)
    requires var d := DeskRun(FreshDesk(db), events);
             i < |d.log| && e.Request? && e.key.Some? && d.log[i].key == e.key && !Outlived(d, d.log[i])
    ensures var d := DeskRun(FreshDesk(db), events);
            && DeskNext(d, e) == d
            && ReplyTo(d, e) == if e.hash == d.log[i].hash then Replayed(d.log[i].r) else Mismatch
  {
    RunKeepsDesk(FreshDesk(db), events);
  }

  lemma NeverInFlight(db: Fleet, events: seq<Event>, e: Event)
    requires e.Request?
    ensures !ReplyTo(DeskRun(FreshDesk(db), events), e).InFlight?
  {
    RunKeepsDesk(FreshDesk(db), events);
  }

  /** No answer comes from nowhere: a replay repeats the reply of an effect of the same key and request, and a mismatch means
      an effect of the same key for another request. */
  lemma RepliesAreEarned(db: Fleet, events: seq<Event>, e: Event) returns (i: nat)
    requires e.Request?
    requires var reply := ReplyTo(DeskRun(FreshDesk(db), events), e); reply.Replayed? || reply.Mismatch?
    ensures var d := DeskRun(FreshDesk(db), events);
            && i < |d.log| && d.log[i].key == e.key
            && if ReplyTo(d, e).Replayed? then d.log[i].hash == e.hash && d.log[i].r == ReplyTo(d, e).r else d.log[i].hash != e.hash
  {
    RunKeepsDesk(FreshDesk(db), events);
    var d := DeskRun(FreshDesk(db), events);
    assert Earned(d, e.key.value);
    i :| 0 <= i < |d.log| && d.log[i].key == e.key && Held(d.records, d.log[i]);
  }

  // ---- The effect ----

  /** What a command asks of the fleet. */
  predicate Passes(db: Fleet, c: Command) {
    match c
    case CreateCommand(id, op, _) => id !in db.resources && op !in db.operations && OpFree(db.operations, id)
    case DeleteCommand(id, op) =>
      && Live(db.resources, id)
      && var r := db.resources[id];
      && r.ownership.OwnershipManaged? && !r.deleteProtected && Unleased(db.leases, id)
      && (r.externalId.Some? ==>
            r.phase in {Unknown, Ready, Draining, Failed, Parked} && op !in db.operations && OpFree(db.operations, id))
    case AcquireCommand(a, _) => a !in db.acquisitions
  }

  /** And what it does. */
  function Effect(db: Fleet, c: Command, now: int): Fleet
    requires Passes(db, c)
  {
    match c
    case CreateCommand(id, op, row) =>
      db.(resources := db.resources[id := row],
          operations := db.operations[op := Operation(OpKindCreate, id, None, OpJournaled, 0, None, None, now)])
    case DeleteCommand(id, op) =>
      var r := db.resources[id];
      if r.externalId.None? then db.(resources := db.resources[id := r.(deletedAt := Some(now), updatedAt := now)])
      else
        db.(resources := db.resources[id := r.(phase := Deleting, updatedAt := now)],
            operations := db.operations[op := Operation(OpKindDelete, id, r.externalId, OpJournaled, 0, None, None, now)])
    case AcquireCommand(a, acq) => db.(acquisitions := db.acquisitions[a := acq])
  }

  /** A request whose key is free has its effect exactly when it passes its gates, and is done exactly then; a refused one
      changes nothing and keeps its key free. */
  lemma FreshRequestTakesEffect(db: Fleet, events: seq<Event>, e: Event)
    requires e.Request? && (e.key.Some? ==> e.key.value !in DeskRun(FreshDesk(db), events).records)
    ensures var d := DeskRun(FreshDesk(db), events);
            if Passes(d.db, e.c)
            then ReplyTo(d, e) == Done(e.r) && DeskNext(d, e).db == Effect(d.db, e.c, e.now)
                 && DeskNext(d, e).log == d.log + [Entry(e.key, e.hash, OpOf(e.c), e.r, e.now)]
            else ReplyTo(d, e) == Refused && DeskNext(d, e) == d
  {
    hide DeskRun, OpFree, Unleased;
  }
}
