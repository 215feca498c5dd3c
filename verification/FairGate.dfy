/** The cancellable FIFO gate with direct handoff. Each locked section is one step. */
module GateModel {
  import opened Options

  datatype Gate = Gate(held: bool, waiters: seq<nat>)

  const NEW_GATE := Gate(false, [])

  /** Enter at once, or queue up. */
  function Enter(g: Gate, me: nat): (Gate, bool) {
    if !g.held && |g.waiters| == 0 then (g.(held := true), true) else (g.(waiters := g.waiters + [me]), false)
  }

  function Removed(waiters: seq<nat>, me: nat): seq<nat> {
    if waiters == [] then []
    else if waiters[0] == me then waiters[1..]
    else [waiters[0]] + Removed(waiters[1..], me)
  }

  /** A cancelled waiter leaves the queue, if it is still there. */
  function Withdraw(g: Gate, me: nat): (Gate, bool) {
    (g.(waiters := Removed(g.waiters, me)), me in g.waiters)
  }

  /** Hand the gate to the first waiter, or open it. */
  function Release(g: Gate): (Gate, Option<nat>) {
    if |g.waiters| == 0 then (g.(held := false), None) else (g.(waiters := g.waiters[1..]), Some(g.waiters[0]))
  }
}

module FairGates {
  import opened Options
  import opened GateModel

  class FairGate {
    var held: bool
    var waiters: seq<nat>

    ghost function View(): Gate
      reads this
    {
      Gate(held, waiters)
    }

    constructor ()
      ensures View() == NEW_GATE
    {
      held, waiters := false, [];
    }

    method Enter(me: nat) returns (acquired: bool)
      modifies this
      ensures (View(), acquired) == GateModel.Enter(old(View()), me)
    {
      if !held && |waiters| == 0 {
        held := true;
        return true;
      }
      waiters := waiters + [me];
      acquired := false;
    }

    method Withdraw(me: nat) returns (found: bool)
      modifies this
      ensures (View(), found) == GateModel.Withdraw(old(View()), me)
    {
      var index := 0;
      while index < |waiters|
        invariant 0 <= index <= |waiters| && View() == old(View())
        invariant forall i | 0 <= i < index :: waiters[i] != me
      {
        if waiters[index] == me {
          RemovedAt(waiters, index, me);
          waiters := waiters[..index] + waiters[index + 1..];
          return true;
        }
        index := index + 1;
      }
      RemovedAt(waiters, index, me);
      found := false;
    }

    static lemma {:induction false} RemovedAt(waiters: seq<nat>, index: nat, me: nat)
      requires index <= |waiters| && forall i | 0 <= i < index :: waiters[i] != me
      requires index < |waiters| ==> waiters[index] == me
      ensures Removed(waiters, me) == if index < |waiters| then waiters[..index] + waiters[index + 1..] else waiters
      decreases index
    {
      if index != 0 {
        RemovedAt(waiters[1..], index - 1, me);
        assert waiters == [waiters[0]] + waiters[1..];
        if index < |waiters| {
          assert waiters[1..][..index - 1] == waiters[1..index] && waiters[1..][index..] == waiters[index + 1..];
          assert [waiters[0]] + waiters[1..index] == waiters[..index];
        }
      }
    }

    method Release() returns (next: Option<nat>)
      modifies this
      ensures (View(), next) == GateModel.Release(old(View()))
    {
      if |waiters| == 0 {
        held := false;
        return None;
      }
      next := Some(waiters[0]);
      waiters := waiters[1..];
    }
  }
}

/** The gate over every interleaving of arrivals, wake-ups, cancellations and releases. */
module GateRuns {
  import opened GateModel

  /** Where one call of `acquire` is. `Handed` has been chosen by a release; `Passing` has been chosen
      too but its context has ended, so it will release at once. */
  datatype Phase = Waiting | Handed | Passing | Holding | Gone

  /** Each call of `acquire` has its own number. `ready` are the calls whose channel has been closed;
      `arrived`, `granted` and `cancelled` record the order of arrival, the order of grants, and who
      left the queue. */
  datatype World = World(gate: Gate, phase: map<nat, Phase>, ready: set<nat>, arrived: seq<nat>, granted: seq<nat>, cancelled: set<nat>)

  const NEW_WORLD := World(NEW_GATE, map[], {}, [], [], {})

  datatype Step =
    | Arrive(me: nat)
    | Signal(me: nat)
    | Wake(me: nat, expired: bool)
    | GiveUp(me: nat)
    | Pass(me: nat)
    | Leave(me: nat)

  predicate At(w: World, me: nat, phase: Phase) {
    me in w.phase && w.phase[me] == phase
  }

  /** `Signal` closes the channel of a waiter already taken off the queue. A cancelled call may find
      itself still queued, or chosen. */
  predicate Possible(w: World, s: Step) {
    match s
    case Arrive(me) => me !in w.phase
    case Signal(me) => (At(w, me, Handed) || At(w, me, Passing)) && me !in w.ready
    case Wake(me, _) => At(w, me, Handed) && me in w.ready
    case GiveUp(me) => At(w, me, Waiting) || At(w, me, Handed)
    case Pass(me) => At(w, me, Passing) && me in w.ready
    case Leave(me) => At(w, me, Holding)
  }

  function HandOn(w: World, me: nat): World {
    var (gate, next) := Release(w.gate);
    var left := w.(gate := gate, phase := w.phase[me := Gone]);
    if next.None? then left else left.(phase := left.phase[next.value := Handed], granted := w.granted + [next.value])
  }

  function Do(w: World, s: Step): World {
    match s
    case Arrive(me) =>
      var (gate, acquired) := Enter(w.gate, me);
      w.(gate := gate, phase := w.phase[me := if acquired then Holding else Waiting], arrived := w.arrived + [me],
         granted := if acquired then w.granted + [me] else w.granted)
    case Signal(me) => w.(ready := w.ready + {me})
    case Wake(me, expired) => w.(phase := w.phase[me := if expired then Passing else Holding])
    case GiveUp(me) =>
      var (gate, found) := Withdraw(w.gate, me);
      if found then w.(gate := gate, phase := w.phase[me := Gone], cancelled := w.cancelled + {me})
      else w.(phase := w.phase[me := Passing])
    case Pass(me) => HandOn(w, me)
    case Leave(me) => HandOn(w, me)
  }

  function Run(steps: seq<Step>): World {
    if steps == [] then NEW_WORLD else Do(Run(steps[..|steps| - 1]), steps[|steps| - 1])
  }

  predicate IsRun(steps: seq<Step>) {
    steps == [] || (IsRun(steps[..|steps| - 1]) && Possible(Run(steps[..|steps| - 1]), steps[|steps| - 1]))
  }

  /** The gate belongs to this call: it holds it, has been handed it, or must pass it on. */
  predicate Owns(w: World, me: nat) {
    At(w, me, Holding) || At(w, me, Handed) || At(w, me, Passing)
  }

  predicate Unique(waiters: seq<nat>) {
    waiters == [] || (waiters[0] !in waiters[1..] && Unique(waiters[1..]))
  }

  /** What is left of the arrivals when the cancelled are struck out. */
  function Keep(arrived: seq<nat>, cancelled: set<nat>): seq<nat> {
    if arrived == [] then []
    else if arrived[0] in cancelled then Keep(arrived[1..], cancelled)
    else [arrived[0]] + Keep(arrived[1..], cancelled)
  }

  ghost predicate HolderInv(w: World) {
    && (forall a, b | Owns(w, a) && Owns(w, b) :: a == b)
    && (w.gate.held <==> exists me :: Owns(w, me))
    && (!w.gate.held ==> w.gate.waiters == [])
  }

  ghost predicate QueueInv(w: World) {
    && Unique(w.gate.waiters)
    && (forall me :: me in w.gate.waiters <==> At(w, me, Waiting))
    && (forall me | me in w.cancelled :: At(w, me, Gone))
    && (forall me | me in w.arrived :: me in w.phase)
    && (forall me | me in w.granted :: me in w.phase && w.phase[me] != Waiting)
    && (forall me | me in w.phase && w.phase[me] != Gone :: me in w.arrived && me !in w.cancelled)
  }

  ghost predicate WorldInv(w: World) {
    HolderInv(w) && QueueInv(w) && Keep(w.arrived, w.cancelled) == w.granted + w.gate.waiters
  }

  // ---- Queue lemmas ----

  lemma {:induction false} UniqueLast(waiters: seq<nat>, me: nat)
    requires Unique(waiters) && me !in waiters
    ensures Unique(waiters + [me])
  {
    if waiters == [] {
      assert [me][1..] == [];
    } else {
      assert (waiters + [me])[1..] == waiters[1..] + [me];
      UniqueLast(waiters[1..], me);
    }
  }

  lemma {:induction false} RemovedIs(waiters: seq<nat>, me: nat)
    requires Unique(waiters)
    ensures Unique(Removed(waiters, me))
    ensures forall x :: x in Removed(waiters, me) <==> x in waiters && x != me
  {
    if waiters != [] {
      RemovedIs(waiters[1..], me);
      assert waiters == [waiters[0]] + waiters[1..];
      if waiters[0] != me {
        assert Removed(waiters, me)[1..] == Removed(waiters[1..], me);
      }
    }
  }

  lemma {:induction false} KeepLast(arrived: seq<nat>, cancelled: set<nat>, me: nat)
    requires me !in cancelled
    ensures Keep(arrived + [me], cancelled) == Keep(arrived, cancelled) + [me]
  {
    if arrived == [] {
      assert [me][1..] == [];
    } else {
      assert (arrived + [me])[1..] == arrived[1..] + [me];
      KeepLast(arrived[1..], cancelled, me);
    }
  }

  /** Striking out one more strikes out each of its occurrences. */
  lemma {:induction false} KeepWithout(arrived: seq<nat>, cancelled: set<nat>, me: nat)
    ensures Keep(arrived, cancelled + {me}) == Filter(Keep(arrived, cancelled), me)
  {
    if arrived != [] {
      KeepWithout(arrived[1..], cancelled, me);
      var kept := Keep(arrived, cancelled);
      if arrived[0] !in cancelled {
        assert kept[1..] == Keep(arrived[1..], cancelled);
      }
    }
  }

  function Filter(s: seq<nat>, me: nat): seq<nat> {
    if s == [] then [] else (if s[0] == me then [] else [s[0]]) + Filter(s[1..], me)
  }

  lemma {:induction false} FilterAppend(a: seq<nat>, b: seq<nat>, me: nat)
    ensures Filter(a + b, me) == Filter(a, me) + Filter(b, me)
  {
    if a == [] {
      assert a + b == b;
    } else {
      assert (a + b)[1..] == a[1..] + b;
      FilterAppend(a[1..], b, me);
    }
  }

  lemma {:induction false} FilterAbsent(s: seq<nat>, me: nat)
    requires me !in s
    ensures Filter(s, me) == s
  {
    if s != [] {
      FilterAbsent(s[1..], me);
    }
  }

  lemma {:induction false} FilterIsRemoved(s: seq<nat>, me: nat)
    requires Unique(s)
    ensures Filter(s, me) == Removed(s, me)
  {
    if s != [] {
      if s[0] == me {
        FilterAbsent(s[1..], me);
      } else {
        FilterIsRemoved(s[1..], me);
      }
    }
  }

  // ---- Every step keeps the invariant ----

  lemma HandOnOwners(w: World, me: nat)
    requires HolderInv(w) && QueueInv(w) && Owns(w, me)
    ensures HolderInv(HandOn(w, me))
  {
    var v := HandOn(w, me);
    if |w.gate.waiters| != 0 {
      var next := w.gate.waiters[0];
      assert next in w.gate.waiters && At(w, next, Waiting);
      forall x: nat
        ensures Owns(v, x) <==> x == next
      {
        assert Owns(w, x) ==> x == me;
      }
      assert Owns(v, next);
    } else {
      forall x: nat
        ensures !Owns(v, x)
      {
        assert Owns(w, x) ==> x == me;
      }
      assert v.gate.waiters == [];
    }
  }

  lemma HandOnQueue(w: World, me: nat)
    requires QueueInv(w) && Owns(w, me)
    ensures QueueInv(HandOn(w, me))
  {
    var v := HandOn(w, me);
    if |w.gate.waiters| != 0 {
      var next := w.gate.waiters[0];
      assert next in w.gate.waiters && At(w, next, Waiting);
      assert w.gate.waiters == [next] + w.gate.waiters[1..];
      assert next !in w.gate.waiters[1..] && Unique(w.gate.waiters[1..]);
      hide Unique;
      assert v.gate.waiters == w.gate.waiters[1..];
      forall x: nat
        ensures x in v.gate.waiters <==> At(v, x, Waiting)
      {
        assert x in w.gate.waiters <==> At(w, x, Waiting);
      }
    } else {
      assert v.gate.waiters == [];
    }
  }

  lemma HandOnKeeps(w: World, me: nat)
    requires WorldInv(w) && (At(w, me, Holding) || At(w, me, Passing))
    ensures WorldInv(HandOn(w, me))
  {
    HandOnOwners(w, me);
    HandOnQueue(w, me);
    if |w.gate.waiters| != 0 {
      assert w.granted + w.gate.waiters == (w.granted + [w.gate.waiters[0]]) + w.gate.waiters[1..];
    }
    hide Keep, QueueInv, HolderInv;
  }

  lemma ArriveOwners(w: World, me: nat)
    requires HolderInv(w) && me !in w.phase
    ensures HolderInv(Do(w, Arrive(me)))
  {
    var v := Do(w, Arrive(me));
    assert forall x | x != me :: Owns(v, x) <==> Owns(w, x);
    if w.gate.held {
      var owner :| Owns(w, owner);
      assert Owns(v, owner);
    } else {
      assert Owns(v, me);
    }
  }

  lemma ArriveQueue(w: World, me: nat)
    requires QueueInv(w) && me !in w.phase && (!w.gate.held ==> w.gate.waiters == [])
    ensures QueueInv(Do(w, Arrive(me)))
  {
    assert !At(w, me, Waiting) && me !in w.gate.waiters;
    UniqueLast(w.gate.waiters, me);
    hide Unique;
  }

  lemma ArriveOrder(w: World, me: nat)
    requires QueueInv(w) && me !in w.phase && (!w.gate.held ==> w.gate.waiters == []) && Keep(w.arrived, w.cancelled) == w.granted + w.gate.waiters
    ensures var v := Do(w, Arrive(me)); Keep(v.arrived, v.cancelled) == v.granted + v.gate.waiters
  {
    assert me !in w.cancelled;
    KeepLast(w.arrived, w.cancelled, me);
    hide Keep, Unique;
    assert w.granted + w.gate.waiters + [me] == w.granted + (w.gate.waiters + [me]);
    assert w.granted + [] == w.granted && w.granted + [me] + [] == w.granted + [me];
  }

  lemma ArriveKeeps(w: World, me: nat)
    requires WorldInv(w) && me !in w.phase
    ensures WorldInv(Do(w, Arrive(me)))
  {
    hide QueueInv, Keep, Do;
    ArriveOwners(w, me);
    ArriveQueue(w, me);
    ArriveOrder(w, me);
  }

  lemma GiveUpOwners(w: World, me: nat)
    requires HolderInv(w) && QueueInv(w) && Possible(w, GiveUp(me))
    ensures HolderInv(Do(w, GiveUp(me)))
  {
    var v := Do(w, GiveUp(me));
    assert me in w.gate.waiters <==> At(w, me, Waiting);
    assert forall x :: Owns(v, x) <==> Owns(w, x);
    hide Removed, Owns;
  }

  lemma GiveUpQueue(w: World, me: nat)
    requires QueueInv(w) && Possible(w, GiveUp(me))
    ensures QueueInv(Do(w, GiveUp(me)))
  {
    assert me in w.gate.waiters <==> At(w, me, Waiting);
    RemovedIs(w.gate.waiters, me);
    hide Unique, Removed;
  }

  lemma GiveUpOrder(w: World, me: nat)
    requires QueueInv(w) && Possible(w, GiveUp(me)) && Keep(w.arrived, w.cancelled) == w.granted + w.gate.waiters
    ensures var v := Do(w, GiveUp(me)); Keep(v.arrived, v.cancelled) == v.granted + v.gate.waiters
  {
    if me in w.gate.waiters {
      assert At(w, me, Waiting);
      assert me !in w.granted;
      hide Keep, Unique, Filter, Removed;
      KeepWithout(w.arrived, w.cancelled, me);
      FilterAppend(w.granted, w.gate.waiters, me);
      FilterAbsent(w.granted, me);
      FilterIsRemoved(w.gate.waiters, me);
    }
  }

  lemma GiveUpKeeps(w: World, me: nat)
    requires WorldInv(w) && Possible(w, GiveUp(me))
    ensures WorldInv(Do(w, GiveUp(me)))
  {
    hide QueueInv, HolderInv, Keep, Do, Possible;
    GiveUpOwners(w, me);
    GiveUpQueue(w, me);
    GiveUpOrder(w, me);
  }

  lemma StepKeeps(w: World, s: Step)
    requires WorldInv(w) && Possible(w, s)
    ensures WorldInv(Do(w, s))
  {
    match s
    case Arrive(me) => ArriveKeeps(w, me);
    case GiveUp(me) => GiveUpKeeps(w, me);
    case Pass(me) => HandOnKeeps(w, me);
    case Leave(me) => HandOnKeeps(w, me);
    case Signal(me) => SignalKeeps(w, me);
    case Wake(me, expired) => WakeKeeps(w, me, expired);
  }

  lemma SignalKeeps(w: World, me: nat)
    requires WorldInv(w) && Possible(w, Signal(me))
    ensures WorldInv(Do(w, Signal(me)))
  {
    assert forall x :: Owns(Do(w, Signal(me)), x) <==> Owns(w, x);
  }

  lemma WakeKeeps(w: World, me: nat, expired: bool)
    requires WorldInv(w) && Possible(w, Wake(me, expired))
    ensures WorldInv(Do(w, Wake(me, expired)))
  {
    assert forall x :: Owns(Do(w, Wake(me, expired)), x) <==> Owns(w, x);
    hide Keep, Unique;
  }

  lemma {:induction false} EveryInterleaving(steps: seq<Step>)
    requires IsRun(steps)
    ensures WorldInv(Run(steps))
    decreases |steps|
  {
    hide WorldInv, Do, Possible;
    if steps == [] {
      NewWorldInv();
    } else {
      EveryInterleaving(steps[..|steps| - 1]);
      StepKeeps(Run(steps[..|steps| - 1]), steps[|steps| - 1]);
    }
  }

  lemma NewWorldInv()
    ensures WorldInv(NEW_WORLD)
  {
  }

  /** Mutual exclusion, no waiter at an open gate, and first come first served among those that did not
      cancel. */
  lemma FairAndExclusive(steps: seq<Step>, a: nat, b: nat)
    requires IsRun(steps)
    ensures var w := Run(steps);
            (&& (At(w, a, Holding) && At(w, b, Holding) ==> a == b)
             && (!w.gate.held ==> w.gate.waiters == [])
             && (At(w, a, Waiting) ==> w.gate.held)
             && Keep(w.arrived, w.cancelled) == w.granted + w.gate.waiters)
  {
    EveryInterleaving(steps);
    var w := Run(steps);
    assert At(w, a, Holding) && At(w, b, Holding) ==> Owns(w, a) && Owns(w, b);
    hide Run, IsRun, Keep, Unique;
  }

  /** The steps by which a chosen call takes the gate or passes it on. */
  predicate Settles(s: Step, me: nat) {
    s == Signal(me) || s == Wake(me, false) || s == Pass(me)
  }

  /** The call owns the gate and holds it, or can take it or pass it on without waiting for anyone. */
  ghost predicate GoesOn(w: World, me: nat) {
    Owns(w, me) && (At(w, me, Holding) || exists s :: Settles(s, me) && Possible(w, s))
  }

  /** The gate is never held by nobody: whenever it is held exactly one call owns it, and if that call
      does not hold it yet it can go on by itself, without waiting for anyone; a call whose cancellation
      raced with the handoff can only release. */
  lemma HandoffIsNeverLost(steps: seq<Step>)
    requires IsRun(steps)
    ensures var w := Run(steps);
            w.gate.held ==> exists me :: GoesOn(w, me)
  {
    EveryInterleaving(steps);
    var w := Run(steps);
    if w.gate.held {
      var me :| Owns(w, me);
      if !At(w, me, Holding) {
        var s := if me !in w.ready then Signal(me) else if At(w, me, Handed) then Wake(me, false) else Pass(me);
        assert Settles(s, me) && Possible(w, s);
      }
      assert GoesOn(w, me);
    }
  }

  /** Once its cancellation has raced with the handoff, a call never holds the gate: its only steps are
      the closing of its channel and its release. */
  lemma RacedCallOnlyReleases(w: World, s: Step, me: nat)
    requires WorldInv(w) && At(w, me, Passing) && Possible(w, s)
    ensures At(Do(w, s), me, Passing) || (s == Pass(me) && At(Do(w, s), me, Gone))
  {
    assert Owns(w, me);
    if s.Pass? || s.Leave? {
      assert Owns(w, s.me);
    }
    if w.gate.waiters != [] {
      assert w.gate.waiters[0] in w.gate.waiters;
    }
    hide Keep, Unique;
  }
}

/** Several gates at once: the order in which one operation acquires them rules out a deadlock. */
module GateOrder {

  datatype Class = Ordinary | Mutation | Hid

  /** What the body of an operation does with its session. */
  datatype Use = Call | Capture

  datatype Action = Acquire(gate: nat) | Release(gate: nat)

  const MUTATION := 0
  const SESSION := 1
  const RPC := 2
  const CAPTURE := 3

  /** The gates one use of the session takes. */
  function UseActions(use: Use, rpcHeld: bool, wholeHeld: bool): seq<Action> {
    match use
    case Call => if rpcHeld || wholeHeld then [] else [Acquire(RPC), Release(RPC)]
    case Capture => [Acquire(CAPTURE), Release(CAPTURE)]
  }

  function BodyActions(uses: seq<Use>, rpcHeld: bool, wholeHeld: bool): seq<Action> {
    if uses == [] then [] else UseActions(uses[0], rpcHeld, wholeHeld) + BodyActions(uses[1..], rpcHeld, wholeHeld)
  }

  /** From the owner's mutation gate down to the body and back. */
  function Program(kind: Class, sessionWide: bool, uses: seq<Use>): seq<Action> {
    var body := BodyActions(uses, kind.Hid?, sessionWide);
    var hid := if kind.Hid? then [Acquire(RPC)] + body + [Release(RPC)] else body;
    var session := if sessionWide then [Acquire(SESSION)] + hid + [Release(SESSION)] else hid;
    if kind.Ordinary? then session else [Acquire(MUTATION)] + session + [Release(MUTATION)]
  }

  function Next(held: set<nat>, a: Action): set<nat> {
    if a.Acquire? then held + {a.gate} else held - {a.gate}
  }

  /** From `held` on, every acquisition is above everything held, every release is of something held,
      and in the end nothing is. */
  predicate Ranked(held: set<nat>, actions: seq<Action>)
    decreases |actions|
  {
    if actions == [] then held == {}
    else
      && (if actions[0].Acquire? then forall g | g in held :: g < actions[0].gate else actions[0].gate in held)
      && Ranked(Next(held, actions[0]), actions[1..])
  }

  // ---- The machine ----

  /** What each operation still has to do, what it holds, and who holds each gate. */
  datatype Machine = Machine(rest: map<nat, seq<Action>>, held: map<nat, set<nat>>, owner: map<nat, nat>)

  predicate CanRun(m: Machine, thread: nat) {
    thread in m.rest && m.rest[thread] != [] && (m.rest[thread][0].Acquire? ==> m.rest[thread][0].gate !in m.owner)
  }

  function Execute(m: Machine, thread: nat): Machine
    requires CanRun(m, thread) && thread in m.held
  {
    var a := m.rest[thread][0];
    Machine(m.rest[thread := m.rest[thread][1..]], m.held[thread := Next(m.held[thread], a)],
            if a.Acquire? then m.owner[a.gate := thread] else m.owner - {a.gate})
  }

  ghost predicate MachineInv(m: Machine) {
    && m.rest.Keys == m.held.Keys
    && (forall t | t in m.rest :: Ranked(m.held[t], m.rest[t]))
    && (forall g | g in m.owner :: m.owner[g] in m.held && g in m.held[m.owner[g]])
    && (forall t, g | t in m.held && g in m.held[t] :: g in m.owner && m.owner[g] == t)
  }

  lemma ExecuteKeeps(m: Machine, thread: nat)
    requires MachineInv(m) && CanRun(m, thread)
    ensures MachineInv(Execute(m, thread))
  {
    var a, held, v := m.rest[thread][0], m.held[thread], Execute(m, thread);
    assert Ranked(held, m.rest[thread]);
    assert Ranked(Next(held, a), m.rest[thread][1..]) && (a.Acquire? || a.gate in held);
    hide Ranked;
    forall t | t in v.rest
      ensures Ranked(v.held[t], v.rest[t])
    {
      assert t != thread ==> Ranked(m.held[t], m.rest[t]);
    }
    forall t, g | t in v.held && g in v.held[t]
      ensures g in v.owner && v.owner[g] == t
    {
      if !(t == thread && a.Acquire? && g == a.gate) {
        assert g in m.held[t] && m.owner[g] == t;
      }
    }
    forall g | g in v.owner
      ensures v.owner[g] in v.held && g in v.held[v.owner[g]]
    {
      if !(a.Acquire? && g == a.gate) {
        assert g in m.held[m.owner[g]];
      }
    }
  }

  /** Follow the chain of who waits for whom: each step goes to a higher gate, so it ends at an
      operation that can run. */
  lemma {:induction false} ChainEnds(m: Machine, thread: nat, bound: nat) returns (runner: nat)
    requires MachineInv(m) && thread in m.rest && m.rest[thread] != []
    requires forall g | g in m.owner :: g < bound
    requires m.rest[thread][0].Acquire? && m.rest[thread][0].gate in m.owner
    ensures CanRun(m, runner)
    decreases bound - m.rest[thread][0].gate
  {
    var gate := m.rest[thread][0].gate;
    var owner := m.owner[gate];
    assert Ranked(m.held[owner], m.rest[owner]);
    if CanRun(m, owner) {
      runner := owner;
    } else {
      runner := ChainEnds(m, owner, bound);
    }
  }

  /** No deadlock: while any operation is unfinished, some operation can run. */
  lemma SomebodyCanRun(m: Machine, thread: nat)
    requires MachineInv(m) && thread in m.rest && m.rest[thread] != []
    requires forall g | g in m.owner :: g <= CAPTURE
    ensures exists runner :: CanRun(m, runner)
  {
    if CanRun(m, thread) {
      assert CanRun(m, thread);
    } else {
      var runner := ChainEnds(m, thread, CAPTURE + 1);
    }
  }

  // ---- The operations obey the order ----

  /** Everything held is below the gates the body still takes. */
  predicate Below(held: set<nat>, rpcHeld: bool, wholeHeld: bool) {
    forall g | g in held :: g < CAPTURE && (rpcHeld || wholeHeld || g < RPC)
  }

  lemma UseRanked(held: set<nat>, use: Use, rpcHeld: bool, wholeHeld: bool, tail: seq<Action>)
    requires Below(held, rpcHeld, wholeHeld) && Ranked(held, tail)
    ensures Ranked(held, UseActions(use, rpcHeld, wholeHeld) + tail)
  {
    var actions := UseActions(use, rpcHeld, wholeHeld);
    if actions == [] {
      assert actions + tail == tail;
    } else {
      var g := actions[0].gate;
      assert g !in held;
      assert (held + {g}) - {g} == held;
      assert actions + tail == [Acquire(g)] + ([Release(g)] + tail);
      assert ([Release(g)] + tail)[1..] == tail;
      assert (actions + tail)[1..] == [Release(g)] + tail;
    }
  }

  lemma {:induction false} BodyRanked(held: set<nat>, uses: seq<Use>, rpcHeld: bool, wholeHeld: bool, tail: seq<Action>)
    requires Below(held, rpcHeld, wholeHeld) && Ranked(held, tail)
    ensures Ranked(held, BodyActions(uses, rpcHeld, wholeHeld) + tail)
    decreases |uses|
  {
    hide Ranked, UseActions, Below;
    if uses == [] {
      assert [] + tail == tail;
    } else {
      BodyRanked(held, uses[1..], rpcHeld, wholeHeld, tail);
      var rest := BodyActions(uses[1..], rpcHeld, wholeHeld) + tail;
      UseRanked(held, uses[0], rpcHeld, wholeHeld, rest);
      assert BodyActions(uses, rpcHeld, wholeHeld) + tail == UseActions(uses[0], rpcHeld, wholeHeld) + rest;
    }
  }

  /** Taking a gate above all held, doing ranked work and releasing it again is ranked work. */
  lemma BracketRanked(held: set<nat>, gate: nat, inner: seq<Action>, tail: seq<Action>)
    requires gate !in held && forall g | g in held :: g < gate
    requires Ranked(held + {gate}, inner + ([Release(gate)] + tail))
    ensures Ranked(held, [Acquire(gate)] + inner + [Release(gate)] + tail)
  {
    var all := [Acquire(gate)] + inner + [Release(gate)] + tail;
    assert all[1..] == inner + ([Release(gate)] + tail);
  }

  lemma ReleaseRanked(held: set<nat>, gate: nat, tail: seq<Action>)
    requires gate !in held && Ranked(held, tail)
    ensures Ranked(held + {gate}, [Release(gate)] + tail)
  {
    assert ([Release(gate)] + tail)[1..] == tail;
    assert (held + {gate}) - {gate} == held;
  }

  lemma HidRanked(held: set<nat>, hid: bool, sessionWide: bool, uses: seq<Use>, tail: seq<Action>)
    requires (forall g | g in held :: g < RPC) && Ranked(held, tail)
    ensures var body := BodyActions(uses, hid, sessionWide);
            Ranked(held, (if hid then [Acquire(RPC)] + body + [Release(RPC)] else body) + tail)
  {
    var body := BodyActions(uses, hid, sessionWide);
    if hid {
      ReleaseRanked(held, RPC, tail);
      BodyRanked(held + {RPC}, uses, hid, sessionWide, [Release(RPC)] + tail);
      BracketRanked(held, RPC, body, tail);
    } else {
      BodyRanked(held, uses, hid, sessionWide, tail);
    }
  }

  lemma SessionRanked(held: set<nat>, hid: bool, sessionWide: bool, uses: seq<Use>, tail: seq<Action>)
    requires (forall g | g in held :: g < SESSION) && Ranked(held, tail)
    ensures var body := BodyActions(uses, hid, sessionWide);
            var inner := if hid then [Acquire(RPC)] + body + [Release(RPC)] else body;
            Ranked(held, (if sessionWide then [Acquire(SESSION)] + inner + [Release(SESSION)] else inner) + tail)
  {
    var body := BodyActions(uses, hid, sessionWide);
    var inner := if hid then [Acquire(RPC)] + body + [Release(RPC)] else body;
    if sessionWide {
      ReleaseRanked(held, SESSION, tail);
      HidRanked(held + {SESSION}, hid, sessionWide, uses, [Release(SESSION)] + tail);
      BracketRanked(held, SESSION, inner, tail);
    } else {
      HidRanked(held, hid, sessionWide, uses, tail);
    }
  }

  /** Every operation of every class, under either schedule, acquires in rank order and ends holding
      nothing. */
  lemma ProgramRanked(kind: Class, sessionWide: bool, uses: seq<Use>)
    ensures Ranked({}, Program(kind, sessionWide, uses))
  {
    var none: set<nat> := {};
    var body := BodyActions(uses, kind.Hid?, sessionWide);
    var hid := if kind.Hid? then [Acquire(RPC)] + body + [Release(RPC)] else body;
    var session := if sessionWide then [Acquire(SESSION)] + hid + [Release(SESSION)] else hid;
    assert session + [] == session;
    if kind.Ordinary? {
      SessionRanked(none, kind.Hid?, sessionWide, uses, []);
    } else {
      ReleaseRanked(none, MUTATION, []);
      SessionRanked(none + {MUTATION}, kind.Hid?, sessionWide, uses, [Release(MUTATION)] + []) by {
        hide BodyActions;
      }
      BracketRanked(none, MUTATION, session, []);
      assert [Acquire(MUTATION)] + session + [Release(MUTATION)] + [] == [Acquire(MUTATION)] + session + [Release(MUTATION)];
    }
  }

  /** Any number of operations, each at the start of its program. */
  ghost predicate Initial(m: Machine) {
    && m.rest.Keys == m.held.Keys && m.owner == map[]
    && (forall t | t in m.held :: m.held[t] == {})
    && (forall t | t in m.rest :: exists c: Class, wide: bool, uses: seq<Use> :: m.rest[t] == Program(c, wide, uses))
  }

  /** The operations run in the order of the schedule, each turn one action. */
  function RunMachine(m: Machine, schedule: seq<nat>): Machine {
    if schedule == [] then m
    else
      var before, t := RunMachine(m, schedule[..|schedule| - 1]), schedule[|schedule| - 1];
      if CanRun(before, t) && t in before.held then Execute(before, t) else before
  }

  lemma InitialInv(m: Machine)
    requires Initial(m)
    ensures MachineInv(m)
  {
    forall t | t in m.rest
      ensures Ranked(m.held[t], m.rest[t])
    {
      var c: Class, wide: bool, uses: seq<Use> :| m.rest[t] == Program(c, wide, uses);
      ProgramRanked(c, wide, uses);
      assert m.held[t] == {};
    }
    hide Ranked, Program;
  }

  lemma {:induction false} ScheduleKeeps(m: Machine, schedule: seq<nat>)
    requires MachineInv(m) && forall g | g in m.owner :: g <= CAPTURE
    requires forall t, i | t in m.rest && 0 <= i < |m.rest[t]| :: m.rest[t][i].gate <= CAPTURE
    ensures var v := RunMachine(m, schedule);
            (&& MachineInv(v) && (forall g | g in v.owner :: g <= CAPTURE)
             && (forall t, i | t in v.rest && 0 <= i < |v.rest[t]| :: v.rest[t][i].gate <= CAPTURE))
    decreases |schedule|
  {
    hide MachineInv;
    if schedule != [] {
      var before, t := RunMachine(m, schedule[..|schedule| - 1]), schedule[|schedule| - 1];
      ScheduleKeeps(m, schedule[..|schedule| - 1]);
      if CanRun(before, t) && t in before.held {
        ExecuteKeeps(before, t);
        assert before.rest[t][0].gate <= CAPTURE;
      }
    }
  }

  lemma {:induction false} BodyGates(uses: seq<Use>, rpcHeld: bool, wholeHeld: bool)
    ensures forall a | a in BodyActions(uses, rpcHeld, wholeHeld) :: a.gate <= CAPTURE
    decreases |uses|
  {
    if uses != [] {
      BodyGates(uses[1..], rpcHeld, wholeHeld);
    }
  }

  lemma InitialGates(m: Machine)
    requires Initial(m)
    ensures m.owner == map[] && forall t, i | t in m.rest && 0 <= i < |m.rest[t]| :: m.rest[t][i].gate <= CAPTURE
  {
    forall t, i | t in m.rest && 0 <= i < |m.rest[t]|
      ensures m.rest[t][i].gate <= CAPTURE
    {
      var c: Class, wide: bool, uses: seq<Use> :| m.rest[t] == Program(c, wide, uses);
      ProgramGates(c, wide, uses);
      hide Program;
      assert m.rest[t][i] in Program(c, wide, uses);
    }
  }

  lemma ProgramGates(kind: Class, wide: bool, uses: seq<Use>)
    ensures forall a | a in Program(kind, wide, uses) :: a.gate <= CAPTURE
  {
    BodyGates(uses, kind.Hid?, wide);
    hide BodyActions;
  }

  /** No deadlock: whatever operations are started and however they are scheduled, while one is
      unfinished some operation can take its next action. */
  lemma NoDeadlock(m: Machine, schedule: seq<nat>, thread: nat)
    requires Initial(m)
    requires thread in RunMachine(m, schedule).rest && RunMachine(m, schedule).rest[thread] != []
    ensures exists runner :: CanRun(RunMachine(m, schedule), runner)
  {
    InitialInv(m);
    InitialGates(m);
    hide Initial, MachineInv, CanRun;
    ScheduleKeeps(m, schedule);
    SomebodyCanRun(RunMachine(m, schedule), thread);
  }
}
