/** The step-clocked cloud the control plane is exercised against: mutations take observations to complete, new machines
    take listings to become visible, and a repeated request is not a second mutation. */
module FakeCloud {

  type MachineId = nat
  type Label = nat

  datatype State = Creating | Running | Stopping | Stopped | Starting | Deleting | Gone

  datatype Machine = Machine(state: State, stepsLeft: int, listLag: int, op: Label)

  datatype Options = Options(createSteps: int, deleteSteps: int, stopSteps: int, startSteps: int, listLagSteps: int, park: bool)

  datatype Kind = Stop | Start | Delete

  type Machines = map<MachineId, Machine>

  // ---- One machine ----

  function Take(m: Machine, during: State, steps: int, after: State): Machine {
    if steps > 0 then m.(state := during, stepsLeft := steps) else m.(state := after)
  }

  predicate Towards(kind: Kind, s: State) {
    match kind
    case Stop => s.Stopping? || s.Stopped?
    case Start => s.Starting? || s.Running?
    case Delete => s.Deleting? || s.Gone?
  }

  function Target(kind: Kind): State {
    match kind
    case Stop => Stopped
    case Start => Running
    case Delete => Gone
  }

  /** What a request does to its machine. A stop or start already under way is left alone; a delete starts over. */
  function Told(m: Machine, kind: Kind, opt: Options): Machine {
    if m.state.Gone? then m
    else match kind
      case Stop => if Towards(Stop, m.state) then m else Take(m, Stopping, opt.stopSteps, Stopped)
      case Start => if Towards(Start, m.state) then m else Take(m, Starting, opt.startSteps, Running)
      case Delete => Take(m, Deleting, opt.deleteSteps, Gone)
  }

  function Settles(s: State): State {
    match s
    case Creating => Running
    case Deleting => Gone
    case Stopping => Stopped
    case Starting => Running
    case _ => s
  }

  /** One observation is one step. */
  function Looked(m: Machine): Machine {
    if Settles(m.state) == m.state then m
    else if m.stepsLeft - 1 <= 0 then m.(state := Settles(m.state), stepsLeft := m.stepsLeft - 1)
    else m.(stepsLeft := m.stepsLeft - 1)
  }

  datatype Poke = Dispatch | Look

  /** A machine under repeated requests of one kind and observations between them. */
  function Poked(m: Machine, kind: Kind, opt: Options, pokes: seq<Poke>): Machine {
    if |pokes| == 0 then m
    else
      var before := Poked(m, kind, opt, pokes[..|pokes| - 1]);
      if pokes[|pokes| - 1].Dispatch? then Told(before, kind, opt) else Looked(before)
  }

  function Looks(pokes: seq<Poke>): nat {
    if |pokes| == 0 then 0 else Looks(pokes[..|pokes| - 1]) + if pokes[|pokes| - 1].Look? then 1 else 0
  }

  function LookedTimes(m: Machine, n: nat): Machine {
    if n == 0 then m else Looked(LookedTimes(m, n - 1))
  }

  /** Duplicated dispatches of a stop or a start are invisible: only the observations count. */
  lemma {:induction false} DuplicatesAreInvisible(m: Machine, kind: Kind, opt: Options, pokes: seq<Poke>)
    requires !kind.Delete? && !m.state.Gone?
    ensures Poked(Told(m, kind, opt), kind, opt, pokes) == LookedTimes(Told(m, kind, opt), Looks(pokes))
    ensures Towards(kind, Poked(Told(m, kind, opt), kind, opt, pokes).state)
  {
    if |pokes| > 0 { DuplicatesAreInvisible(m, kind, opt, pokes[..|pokes| - 1]); }
  }

  lemma {:induction false} Countdown(m: Machine, kind: Kind, n: nat)
    requires Towards(kind, m.state)
    ensures Towards(kind, LookedTimes(m, n).state)
    ensures LookedTimes(m, n).state == Target(kind) <==> m.state == Target(kind) || (n >= 1 && n >= m.stepsLeft)
    ensures LookedTimes(m, n).state != Target(kind) ==> LookedTimes(m, n).stepsLeft == m.stepsLeft - n
  {
    if n > 0 { Countdown(m, kind, n - 1); }
  }

  /** However often a stop or start is handed over, the machine ends in its target state, and it does so as soon as it
      was observed as often as the first request made necessary. */
  lemma DuplicatesReachTheTarget(m: Machine, kind: Kind, opt: Options, pokes: seq<Poke>)
    requires !kind.Delete? && !m.state.Gone?
    ensures var first := Told(m, kind, opt);
            Poked(first, kind, opt, pokes).state == Target(kind)
            <==> first.state == Target(kind) || (Looks(pokes) >= 1 && Looks(pokes) >= first.stepsLeft)
  {
    DuplicatesAreInvisible(m, kind, opt, pokes);
    Countdown(Told(m, kind, opt), kind, Looks(pokes));
  }

  /** A repeated delete starts over but never brings the machine back. */
  lemma {:induction false} DeletedStaysDeleted(m: Machine, opt: Options, pokes: seq<Poke>)
    requires Towards(Delete, m.state)
    ensures Towards(Delete, Poked(m, Delete, opt, pokes).state)
    ensures m.state.Gone? ==> Poked(m, Delete, opt, pokes) == m
  {
    if |pokes| > 0 { DeletedStaysDeleted(m, opt, pokes[..|pokes| - 1]); }
  }

  // ---- Listings ----

  function Aged(m: Machine): Machine {
    if m.listLag > 0 then m.(listLag := m.listLag - 1) else m
  }

  function AgedTimes(m: Machine, n: nat): Machine {
    if n == 0 then m else Aged(AgedTimes(m, n - 1))
  }

  predicate Visible(m: Machine) {
    !m.state.Gone? && m.listLag <= 0
  }

  /** A live machine appears in a listing exactly when as many listings as its lag have been taken. */
  lemma {:induction false} VisibleAfterLag(m: Machine, n: nat)
    requires !m.state.Gone?
    ensures Visible(AgedTimes(m, n)) <==> n >= m.listLag
    ensures AgedTimes(m, n) == m.(listLag := if m.listLag <= 0 then m.listLag else if n >= m.listLag then 0 else m.listLag - n)
  {
    if n > 0 { VisibleAfterLag(m, n - 1); }
  }

  lemma ListedSomeDay(m: Machine)
    ensures !m.state.Gone? <==> exists n: nat :: Visible(AgedTimes(m, n))
  {
    if !m.state.Gone? {
      var n: nat := if m.listLag > 0 then m.listLag else 0;
      VisibleAfterLag(m, n);
      assert Visible(AgedTimes(m, n));
    }
    forall n: nat
      ensures m.state.Gone? ==> !Visible(AgedTimes(m, n))
    {
      AgingKeepsState(m, n);
    }
  }

  lemma {:induction false} AgingKeepsState(m: Machine, n: nat)
    ensures AgedTimes(m, n).state == m.state
  {
    if n > 0 { AgingKeepsState(m, n - 1); }
  }

  // ---- The cloud ----

  datatype Reply = Accepted(id: MachineId) | NotFound | Invalid

  predicate Labelled(machines: Machines, id: MachineId, op: Label) {
    id in machines && !machines[id].state.Gone? && machines[id].op == op
  }

  /** At most one live machine per create operation. */
  ghost predicate OnePerOp(machines: Machines) {
    forall i <- machines.Keys, j <- machines.Keys ::
      !machines[i].state.Gone? && !machines[j].state.Gone? && machines[i].op == machines[j].op ==> i == j
  }

  class Fake {
    var machines: Machines
    var nextId: nat
    const opt: Options

    ghost predicate Valid()
      reads this
    {
      OnePerOp(machines) && forall id <- machines.Keys :: id < nextId
    }

    constructor (opt: Options)
      ensures Valid() && machines == map[] && this.opt == opt
    {
      machines, nextId := map[], 0;
      this.opt := opt;
    }

    /** A create that already made a machine returns it; any other makes one. */
    method Create(op: Label) returns (id: MachineId)
      requires Valid()
      modifies this
      ensures Valid() && Labelled(machines, id, op)
      ensures if exists x <- old(machines).Keys :: Labelled(old(machines), x, op)
              then machines == old(machines)
              else id !in old(machines) && machines == old(machines)[id := Take(Machine(Running, 0, opt.listLagSteps, op), Creating, opt.createSteps, Running)]
    {
      var todo := machines.Keys;
      while todo != {}
        invariant todo <= machines.Keys && forall x <- machines.Keys - todo :: !Labelled(machines, x, op)
        decreases todo
      {
        var x :| x in todo;
        todo := todo - {x};
        if Labelled(machines, x, op) {
          return x;
        }
      }
      ghost var before := machines;
      assert todo == {} && forall x <- before.Keys :: x in before.Keys - todo && !Labelled(before, x, op);
      id := nextId;
      nextId := nextId + 1;
      machines := machines[id := if opt.createSteps > 0 then Machine(Creating, opt.createSteps, opt.listLagSteps, op)
                                 else Machine(Running, 0, opt.listLagSteps, op)];
      forall x | x in before && !before[x].state.Gone?
        ensures before[x].op != op && x != id
      {
        assert x in before.Keys && !Labelled(before, x, op);
      }
    }

    method Tell(id: MachineId, kind: Kind) returns (reply: Reply)
      requires Valid()
      modifies this`machines
      ensures Valid()
      ensures reply == if !kind.Delete? && !opt.park then Invalid
                       else if kind.Delete? || (id in old(machines) && !old(machines)[id].state.Gone?) then Accepted(id)
                       else NotFound
      ensures machines == if reply.Accepted? && id in old(machines) then old(machines)[id := Told(old(machines)[id], kind, opt)] else old(machines)
    {
      if !kind.Delete? && !opt.park {
        return Invalid;
      }
      if id !in machines || machines[id].state.Gone? {
        return if kind.Delete? then Accepted(id) else NotFound;
      }
      machines := machines[id := Told(machines[id], kind, opt)];
      reply := Accepted(id);
    }

    /** One observation of a mutation; not found when the machine is gone. */
    method Observe(id: MachineId) returns (found: bool, settled: bool)
      requires Valid()
      modifies this`machines
      ensures Valid() && found == (id in old(machines) && !old(machines)[id].state.Gone?)
      ensures machines == if found then old(machines)[id := Looked(old(machines)[id])] else old(machines)
      ensures settled ==> found
      ensures found ==> (settled <==> Settles(machines[id].state) == machines[id].state)
    {
      if id !in machines || machines[id].state.Gone? {
        return false, false;
      }
      machines := machines[id := Looked(machines[id])];
      found, settled := true, Settles(machines[id].state) == machines[id].state;
    }

    /** One listing of the machines of an operation is one consistency step for every lagged machine. */
    method Discover(op: Label) returns (listed: set<MachineId>)
      requires Valid()
      modifies this`machines
      ensures Valid() && machines == map id | id in old(machines) :: Aged(old(machines)[id])
      ensures listed == set id | id in machines && Visible(machines[id]) && machines[id].op == op
      ensures forall i <- listed, j <- listed :: i == j
    {
      machines := map id | id in machines :: Aged(machines[id]);
      listed := {};
      var todo := machines.Keys;
      while todo != {}
        invariant todo <= machines.Keys && Valid()
        invariant listed == set id | id in machines && id !in todo && Visible(machines[id]) && machines[id].op == op
        decreases todo
      {
        var id :| id in todo;
        todo := todo - {id};
        if Visible(machines[id]) && machines[id].op == op {
          listed := listed + {id};
        }
      }
      forall i, j | i in listed && j in listed
        ensures i == j
      {
        assert Labelled(machines, i, op) && Labelled(machines, j, op);
      }
    }

    /** A direct get ignores the lag: it finds exactly the machines that some later listing would name. */
    method Get(id: MachineId) returns (found: bool)
      ensures found <==> id in machines && exists n: nat :: Visible(AgedTimes(machines[id], n))
    {
      if id !in machines {
        return false;
      }
      ListedSomeDay(machines[id]);
      found := !machines[id].state.Gone?;
    }
  }
}
