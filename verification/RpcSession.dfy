/** Request and response correlation on one data channel. Each locked section, channel operation and
    send is one step. */
module RpcModel {
  import opened Evidence

  const MAX_PENDING := 64

  /** What the body of a response says about the call it answers. */
  datatype Content = Result | NoResult | BadResult | MethodUnavailable | ProtocolError | Malformed

  /** `Response` names the identifier the response carried. */
  datatype Resolution = Response(id: nat, content: Content) | SessionClosed

  /** The one-slot channel of a call is named by the call's identifier. `cancelled` is the session's
      context, `swept` whether `Close` has taken the pending map. */
  datatype Session = Session(nextId: nat, pending: set<nat>, token: bool, cancelled: bool, swept: bool, slots: map<nat, Resolution>)

  const NEW_SESSION := Session(0, {}, true, false, false, map[])

  function AddPending(s: Session, id: nat): (Session, bool) {
    if s.cancelled || |s.pending| >= MAX_PENDING then (s, false) else (s.(pending := s.pending + {id}), true)
  }

  function RemovePending(s: Session, id: nat): Session {
    s.(pending := s.pending - {id})
  }

  /** The locked part of handling a response: whether a call was waiting for it. */
  function Claim(s: Session, id: nat): (Session, bool) {
    (s.(pending := s.pending - {id}), id in s.pending)
  }

  /** A send that never blocks: a full slot keeps what it has. */
  function Deliver(s: Session, id: nat, outcome: Resolution): Session {
    if id in s.slots then s else s.(slots := s.slots[id := outcome])
  }

  /** The locked part of `Close`: every pending call is taken at once. */
  function Sweep(s: Session): (Session, set<nat>) {
    (s.(pending := {}, swept := true), s.pending)
  }

  /** What `Call` reports for the outcome it receives. */
  function CalledFor(o: Resolution, wantsResult: bool): Called {
    match o
    case SessionClosed => Err(Unknown)
    case Response(_, content) =>
      match content
      case Result => Ok
      case NoResult => if wantsResult then Err(Unknown) else Ok
      case BadResult => if wantsResult then Err(Unknown) else Ok
      case MethodUnavailable => Err(Failed)
      case ProtocolError => Err(Failed)
      case Malformed => Err(Unknown)
  }
}

module RpcSessions {
  import opened RpcModel

  class RpcSession {
    var nextId: nat
    var pending: set<nat>
    var token: bool
    var cancelled: bool
    var swept: bool
    var slots: map<nat, Resolution>

    ghost function View(): Session
      reads this
    {
      Session(nextId, pending, token, cancelled, swept, slots)
    }

    constructor ()
      ensures View() == NEW_SESSION
    {
      nextId, pending, token, cancelled, swept, slots := 0, {}, true, false, false, map[];
    }

    method AddPending(id: nat) returns (ok: bool)
      modifies this`pending
      ensures (View(), ok) == RpcModel.AddPending(old(View()), id)
    {
      if cancelled || |pending| >= MAX_PENDING {
        return false;
      }
      pending := pending + {id};
      ok := true;
    }

    method RemovePending(id: nat)
      modifies this`pending
      ensures View() == RpcModel.RemovePending(old(View()), id)
    {
      pending := pending - {id};
    }

    method Deliver(id: nat, outcome: Resolution)
      modifies this`slots
      ensures View() == RpcModel.Deliver(old(View()), id, outcome)
    {
      if id !in slots {
        slots := slots[id := outcome];
      }
    }

    method HandleResponse(id: nat, content: Content)
      modifies this`pending, this`slots
      ensures View() == (if id != 0 && id in old(pending)
                         then RpcModel.Deliver(RpcModel.Claim(old(View()), id).0, id, Response(id, content)) else old(View()))
    {
      if id == 0 {
        return;
      }
      var waiting := id in pending;
      pending := pending - {id};
      if waiting {
        Deliver(id, Response(id, content));
      }
    }

    /** Every call that was pending finds the session closed, unless its slot was already full. */
    method Close()
      modifies this`cancelled, this`swept, this`pending, this`slots
      ensures View() == old(View()).(cancelled := true, swept := true, pending := if old(swept) then old(pending) else {}, slots := slots)
      ensures forall id | id in old(slots) :: id in slots && slots[id] == old(slots)[id]
      ensures forall id | id in slots && id !in old(slots) :: !old(swept) && id in old(pending) && slots[id] == SessionClosed
      ensures !old(swept) ==> forall id | id in old(pending) :: id in slots
    {
      cancelled := true;
      if swept {
        return;
      }
      var taken := pending;
      pending := {};
      swept := true;
      var rest := taken;
      while rest != {}
        modifies this`slots
        invariant rest <= taken
        invariant forall id | id in old(slots) :: id in slots && slots[id] == old(slots)[id]
        invariant forall id | id in slots && id !in old(slots) :: id in taken && slots[id] == SessionClosed
        invariant forall id | id in taken - rest :: id in slots
        decreases rest
      {
        var id :| id in rest;
        Deliver(id, SessionClosed);
        rest := rest - {id};
      }
    }
  }
}

/** Calls, responses, timeouts and close in every interleaving. */
module RpcRuns {
  import opened Evidence
  import opened RpcModel

  /** `Leaving` still has its pending entry to remove; `Returned` is the end of the call. */
  datatype Phase = Registered | Sending | Awaiting(wantsResult: bool) | Leaving(verdict: Called) | Returned(verdict: Called)

  /** `wire` are the calls handed to the sender, `inHand` the outcomes taken for a call and not yet put
      into its slot, `taken` what each call received. */
  datatype World = World(s: Session, phase: map<nat, Phase>, wire: set<nat>, inHand: map<nat, Resolution>, taken: map<nat, Resolution>)

  const NEW_WORLD := World(NEW_SESSION, map[], {}, map[], map[])

  datatype Step =
    | Begin
    | Fail(id: nat)
    | TakeToken(id: nat)
    | AbortSend(id: nat)
    | Send(id: nat, ok: bool, wantsResult: bool)
    | Receive(id: nat)
    | GiveUp(id: nat)
    | Remove(id: nat)
    | Message(id: nat, content: Content)
    | PutInSlot(id: nat)
    | CancelSession
    | SweepPending

  predicate At(w: World, id: nat, phase: Phase) {
    id in w.phase && w.phase[id] == phase
  }

  /** A timeout, a cancelled context and a closed session may strike at any point. */
  predicate Possible(w: World, step: Step) {
    match step
    case Begin => true
    case Fail(id) => At(w, id, Registered)
    case TakeToken(id) => At(w, id, Registered) && w.s.token
    case AbortSend(id) => At(w, id, Sending)
    case Send(id, _, _) => At(w, id, Sending)
    case Receive(id) => id in w.phase && w.phase[id].Awaiting? && id in w.s.slots
    case GiveUp(id) => id in w.phase && w.phase[id].Awaiting?
    case Remove(id) => id in w.phase && w.phase[id].Leaving?
    case Message(id, _) => id != 0
    case PutInSlot(id) => id in w.inHand
    case CancelSession => true
    case SweepPending => w.s.cancelled && !w.s.swept
  }

  function Do(w: World, step: Step): World {
    match step
    case Begin =>
      var id := w.s.nextId + 1;
      var (s, ok) := AddPending(w.s.(nextId := id), id);
      w.(s := s, phase := w.phase[id := if ok then Registered else Returned(Err(NotSent))])
    case Fail(id) => w.(phase := w.phase[id := Leaving(Err(NotSent))])
    case TakeToken(id) => w.(s := w.s.(token := false), phase := w.phase[id := Sending])
    case AbortSend(id) => w.(s := w.s.(token := true), phase := w.phase[id := Leaving(Err(NotSent))])
    case Send(id, ok, wantsResult) =>
      w.(s := w.s.(token := true), wire := w.wire + {id}, phase := w.phase[id := if ok then Awaiting(wantsResult) else Leaving(Err(Unknown))])
    case Receive(id) =>
      if id in w.phase && w.phase[id].Awaiting? && id in w.s.slots then
        w.(phase := w.phase[id := Returned(CalledFor(w.s.slots[id], w.phase[id].wantsResult))], taken := w.taken[id := w.s.slots[id]])
      else w
    case GiveUp(id) => w.(phase := w.phase[id := Leaving(Err(Unknown))])
    case Remove(id) =>
      if id in w.phase && w.phase[id].Leaving? then
        w.(s := RemovePending(w.s, id), phase := w.phase[id := Returned(w.phase[id].verdict)])
      else w
    case Message(id, content) =>
      var (s, waiting) := Claim(w.s, id);
      w.(s := s, inHand := if waiting then w.inHand[id := Response(id, content)] else w.inHand)
    case PutInSlot(id) =>
      if id in w.inHand then w.(s := Deliver(w.s, id, w.inHand[id]), inHand := w.inHand - {id}) else w
    case CancelSession => w.(s := w.s.(cancelled := true))
    case SweepPending =>
      var (s, swept) := Sweep(w.s);
      w.(s := s, inHand := map id | id in w.inHand.Keys + swept :: if id in swept then SessionClosed else w.inHand[id])
  }

  function Run(steps: seq<Step>): World {
    if steps == [] then NEW_WORLD else Do(Run(steps[..|steps| - 1]), steps[|steps| - 1])
  }

  predicate IsRun(steps: seq<Step>) {
    steps == [] || (IsRun(steps[..|steps| - 1]) && Possible(Run(steps[..|steps| - 1]), steps[|steps| - 1]))
  }

  // ---- The invariant ----

  predicate OwnOutcome(id: nat, o: Resolution) {
    o.SessionClosed? || o.id == id
  }

  /** The single token of the send gate is either free or with exactly one sender. */
  ghost predicate TokenInv(w: World) {
    && (w.s.token ==> forall id | id in w.phase :: w.phase[id] != Sending)
    && (!w.s.token ==> exists id :: At(w, id, Sending))
    && (forall a, b | At(w, a, Sending) && At(w, b, Sending) :: a == b)
  }

  ghost predicate PendingInv(w: World) {
    && |w.s.pending| <= MAX_PENDING
    && (forall id | id in w.s.pending :: id in w.phase && !w.phase[id].Returned? && id !in w.inHand && id !in w.s.slots)
    && (forall id | id in w.phase :: id <= w.s.nextId)
    && (w.s.swept ==> w.s.cancelled && w.s.pending == {})
  }

  ghost predicate OutcomeInv(w: World) {
    && (forall id | id in w.inHand :: id in w.phase && OwnOutcome(id, w.inHand[id]) && id !in w.s.slots)
    && (forall id | id in w.s.slots :: id in w.phase && OwnOutcome(id, w.s.slots[id]))
    && (forall id | id in w.taken :: id in w.s.slots && w.s.slots[id] == w.taken[id] && id in w.phase && w.phase[id].Returned?)
  }

  /** The evidence of dispatch behind each report. */
  predicate Attested(w: World, id: nat) {
    id in w.phase ==>
      match w.phase[id]
      case Registered => id !in w.wire
      case Sending => id !in w.wire
      case Awaiting(_) => id in w.wire
      case Leaving(v) => if v == Err(NotSent) then id !in w.wire else v == Err(Unknown) && id in w.wire
      case Returned(v) =>
        match v
        case Err(NotSent) => id !in w.wire
        case Err(Unknown) => id in w.wire
        case _ => id in w.wire && id in w.taken && w.taken[id].Response? && w.taken[id].id == id
  }

  ghost predicate WorldInv(w: World) {
    && TokenInv(w) && PendingInv(w) && OutcomeInv(w)
    && (forall id: nat :: Attested(w, id))
    && (forall id | id in w.wire :: id in w.phase)
  }

  lemma Smaller(a: set<nat>, b: set<nat>)
    requires a <= b
    ensures |a| <= |b|
  {
    var rest := b - a;
    assert b == a + rest;
  }

  lemma TokenKeeps(w: World, step: Step)
    requires TokenInv(w) && PendingInv(w) && Possible(w, step)
    ensures TokenInv(Do(w, step))
  {
    var v := Do(w, step);
    if step.TakeToken? {
      assert At(v, step.id, Sending);
      assert forall id | id != step.id :: At(v, id, Sending) ==> At(w, id, Sending);
    } else if step.AbortSend? || step.Send? {
      forall id | id in v.phase
        ensures v.phase[id] != Sending
      {
        assert At(w, id, Sending) ==> id == step.id;
      }
    } else {
      SameSenders(w, step);
      if !v.s.token {
        var id :| At(w, id, Sending);
        assert At(v, id, Sending);
      } else {
        forall id | id in v.phase
          ensures v.phase[id] != Sending
        {
          assert At(v, id, Sending) <==> At(w, id, Sending);
        }
      }
    }
  }

  /** The remaining steps leave the senders and the token alone. */
  lemma SameSenders(w: World, step: Step)
    requires PendingInv(w) && Possible(w, step) && !step.TakeToken? && !step.AbortSend? && !step.Send?
    ensures Do(w, step).s.token == w.s.token
    ensures forall id :: At(Do(w, step), id, Sending) <==> At(w, id, Sending)
  {
  }

  lemma PendingKeeps(w: World, step: Step)
    requires PendingInv(w) && OutcomeInv(w) && Possible(w, step)
    ensures PendingInv(Do(w, step))
  {
    PendingBounded(w, step);
    PendingUnanswered(w, step);
    PendingNumbered(w, step);
    hide Do, OutcomeInv, Possible;
  }

  lemma PendingBounded(w: World, step: Step)
    requires PendingInv(w) && Possible(w, step)
    ensures |Do(w, step).s.pending| <= MAX_PENDING
  {
    if !step.Begin? {
      Smaller(Do(w, step).s.pending, w.s.pending);
    }
  }

  lemma PendingUnanswered(w: World, step: Step)
    requires PendingInv(w) && OutcomeInv(w) && Possible(w, step)
    ensures var v := Do(w, step);
            forall id | id in v.s.pending :: id in v.phase && !v.phase[id].Returned? && id !in v.inHand && id !in v.s.slots
  {
  }

  lemma PendingNumbered(w: World, step: Step)
    requires PendingInv(w) && Possible(w, step)
    ensures var v := Do(w, step);
            (&& (forall id | id in v.phase :: id <= v.s.nextId)
             && (v.s.swept ==> v.s.cancelled && v.s.pending == {}))
  {
  }

  lemma OutcomeKeeps(w: World, step: Step)
    requires PendingInv(w) && OutcomeInv(w) && Possible(w, step)
    ensures OutcomeInv(Do(w, step))
  {
    InHandOwn(w, step);
    SlotsOwn(w, step);
    TakenFromSlots(w, step);
    hide Do, PendingInv, Possible, OwnOutcome;
  }

  lemma InHandOwn(w: World, step: Step)
    requires PendingInv(w) && OutcomeInv(w) && Possible(w, step)
    ensures var v := Do(w, step);
            forall id | id in v.inHand :: id in v.phase && OwnOutcome(id, v.inHand[id]) && id !in v.s.slots
  {
  }

  lemma SlotsOwn(w: World, step: Step)
    requires OutcomeInv(w) && Possible(w, step)
    ensures var v := Do(w, step);
            forall id | id in v.s.slots :: id in v.phase && OwnOutcome(id, v.s.slots[id])
  {
  }

  lemma TakenFromSlots(w: World, step: Step)
    requires PendingInv(w) && OutcomeInv(w) && Possible(w, step)
    ensures var v := Do(w, step);
            forall id | id in v.taken :: id in v.s.slots && v.s.slots[id] == v.taken[id] && id in v.phase && v.phase[id].Returned?
  {
  }

  lemma HonestFrame(w: World, v: World, id: nat)
    requires Attested(w, id) && (id in v.phase <==> id in w.phase) && (id in w.phase ==> v.phase[id] == w.phase[id])
    requires (id in v.wire <==> id in w.wire) && (id in v.taken <==> id in w.taken) && (id in w.taken ==> v.taken[id] == w.taken[id])
    ensures Attested(v, id)
  {
  }

  lemma HonestKeeps(w: World, step: Step, id: nat)
    requires PendingInv(w) && OutcomeInv(w) && Attested(w, id) && (forall x | x in w.wire :: x in w.phase) && Possible(w, step)
    ensures Attested(Do(w, step), id)
  {
    var v := Do(w, step);
    if step.Message? || step.PutInSlot? || step.CancelSession? || step.SweepPending? {
      HonestFrame(w, v, id);
    } else if step.Begin? {
      var newId := w.s.nextId + 1;
      assert newId !in w.phase && newId !in w.wire;
      if id != newId {
        HonestFrame(w, v, id);
      }
    } else if step.id != id {
      HonestFrame(w, v, id);
    }
    hide PendingInv;
  }

  lemma StepKeeps(w: World, step: Step)
    requires WorldInv(w) && Possible(w, step)
    ensures WorldInv(Do(w, step))
  {
    TokenKeeps(w, step);
    PendingKeeps(w, step);
    OutcomeKeeps(w, step);
    forall id: nat
      ensures Attested(Do(w, step), id)
    {
      assert Attested(w, id);
      HonestKeeps(w, step, id);
    }
    hide TokenInv, PendingInv, OutcomeInv, Attested;
  }

  lemma NewWorldInv()
    ensures WorldInv(NEW_WORLD)
  {
  }

  lemma {:induction false} EveryInterleaving(steps: seq<Step>)
    requires IsRun(steps)
    ensures WorldInv(Run(steps))
    decreases |steps|
  {
    hide WorldInv, Do, Possible;
    if steps == [] {
      NewWorldInv();
    } else {
      EveryInterleaving(steps[..|steps| - 1]);
      StepKeeps(Run(steps[..|steps| - 1]), steps[|steps| - 1]);
    }
  }

  /** In every interleaving: at most 64 calls are pending; a returned call leaves no pending entry; what
      a call received is its own response or the closing of the session; success and failure are only
      reported on its own response; not_sent is only reported when nothing was handed to the sender; and
      the send gate's single token is free or with exactly one sender. */
  lemma Correlation(steps: seq<Step>, id: nat)
    requires IsRun(steps)
    ensures var w := Run(steps);
            (&& |w.s.pending| <= MAX_PENDING
             && (id in w.phase && w.phase[id].Returned? ==> id !in w.s.pending)
             && (id in w.taken ==> OwnOutcome(id, w.taken[id]))
             && (At(w, id, Returned(Ok)) || At(w, id, Returned(Err(Failed))) ==> id in w.taken && w.taken[id].Response? && w.taken[id].id == id)
             && (At(w, id, Returned(Err(NotSent))) ==> id !in w.wire)
             && (At(w, id, Returned(Err(Unknown))) ==> id in w.wire))
    ensures TokenInv(Run(steps))
  {
    EveryInterleaving(steps);
    var w := Run(steps);
    assert Attested(w, id);
    hide Run, IsRun, TokenInv;
  }

  /** Each call is resolved at most once: what is in its slot, and what it reported, never changes. */
  lemma {:induction false} ResolvedOnce(steps: seq<Step>, later: seq<Step>, id: nat)
    requires IsRun(steps + later)
    ensures IsRun(steps)
    ensures var w, v := Run(steps), Run(steps + later);
            (&& (id in w.s.slots ==> id in v.s.slots && v.s.slots[id] == w.s.slots[id])
             && (id in w.phase && w.phase[id].Returned? ==> At(v, id, w.phase[id])))
    decreases |later|
  {
    if later == [] {
      assert steps + later == steps;
    } else {
      var n := |later| - 1;
      assert (steps + later)[..|steps + later| - 1] == steps + later[..n];
      ResolvedOnce(steps, later[..n], id);
      EveryInterleaving(steps + later[..n]);
      hide Run, IsRun;
      StaysResolved(Run(steps + later[..n]), later[n], id);
    }
  }

  lemma StaysResolved(w: World, step: Step, id: nat)
    requires WorldInv(w) && Possible(w, step)
    ensures id in w.s.slots ==> id in Do(w, step).s.slots && Do(w, step).s.slots[id] == w.s.slots[id]
    ensures id in w.phase && w.phase[id].Returned? ==> At(Do(w, step), id, w.phase[id])
  {
    if step.Begin? {
      assert w.s.nextId + 1 !in w.phase;
    }
    hide TokenInv, Attested;
  }
}
