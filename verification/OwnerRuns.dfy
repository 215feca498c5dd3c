/** Every run of the owner together with its sessions, its goroutines and the manager's admission latch. */
module OwnerRuns {
  import opened Options
  import opened OwnerModel
  import opened OwnerSafety
  import opened OwnerBooks
  import opened OwnerTasks
  import opened OwnerMoves

  /** The watcher of a session: waiting for its end, for a late takeover, or gone. */
  datatype Phase = Watching | AfterLoss | Over

  /** Who holds the device: any number of ordinary operations, or one release or takeover. */
  datatype Latch = Free | Held | Sent(caller: nat)

  /** `ordinary` counts the admitted operations, `waiting` those with an accepted worker; `returned`
      counts the goroutines whose completion has arrived; `open` are the sessions obtained and not
      closed; `recognized`, `signaled` and `lost` are the sessions whose takeover flag is set, whose
      takeover channel is closed and whose Done channel is closed. */
  datatype World = World(
    o: Owner, returned: multiset<Task>, open: set<nat>,
    recognized: set<nat>, signaled: set<nat>, lost: set<nat>, watch: map<nat, Phase>,
    ordinary: nat, waiting: set<nat>, latch: Latch, asked: set<nat>)

  datatype Event =
    | Admit | Leave
    | Submit(permit: bool, untilTaken: nat, expired: set<nat>) | Abandon(worker: nat) | Collect(worker: nat)
    | Lock | SendRelease(caller: nat, demand: bool) | SendTakeOver(caller: nat, demand: bool, permit: bool) | Unlock
    | Shutdown(caller: nat)
    | AttemptReturns(generation: nat, connection: Connection, expired: set<nat>, untilTaken: nat, expiredLater: set<nat>, demand: bool)
    | OperationReturns(worker: nat, generation: nat, untilTaken: nat, expired: set<nat>, demand: bool)
    | CloseReturns(generation: nat, closed: bool, permitTakeover: bool, permitQueue: bool)
    | PingReturns(generation: nat, failed: bool, demand: bool)
    | IdleFires(generation: nat, demand: bool) | DemandSettles(demand: bool)
    | Recognize(generation: nat) | Signal(generation: nat) | Lose(generation: nat)
    | WatchSignaled(generation: nat) | WatchLost(generation: nat) | WatchLate(generation: nat) | WatchStops(generation: nat)

  function NewWorld(ownership: Ownership): World {
    World(NewOwner(ownership), multiset{}, {}, {}, {}, {}, map[], 0, {}, Free, {})
  }

  /** The command an event sends to the loop. */
  function CommandOf(w: World, e: Event): Option<Command> {
    match e
    case Submit(permit, untilTaken, expired) => Some(Register(permit, untilTaken, expired))
    case Abandon(worker) => Some(Cancel(worker))
    case SendRelease(caller, demand) => Some(Release(caller, demand))
    case SendTakeOver(caller, demand, permit) => Some(TakeOver(caller, demand, permit))
    case Shutdown(caller) => Some(Stop(caller))
    case AttemptReturns(g, connection, expired, untilTaken, expiredLater, demand) => Some(AttemptDone(g, connection, expired, untilTaken, expiredLater, demand))
    case OperationReturns(worker, g, untilTaken, expired, demand) => Some(WorkerDone(worker, g, untilTaken, expired, demand))
    case CloseReturns(g, closed, permitTakeover, permitQueue) => Some(CleanupDone(g, closed, g in w.recognized, permitTakeover, permitQueue))
    case PingReturns(g, failed, demand) => Some(ValidationDone(g, failed, g in w.lost, demand))
    case IdleFires(g, demand) => Some(IdleExpired(g, demand))
    case DemandSettles(demand) => Some(DemandChanged(demand))
    case WatchSignaled(g) => Some(GenerationEnded(g, g in w.recognized))
    case WatchLost(g) => Some(GenerationEnded(g, g in w.recognized))
    case WatchLate(g) => Some(TakeoverRecognized(g))
    case _ => None
  }

  function TaskOf(e: Event): Option<Task> {
    match e
    case AttemptReturns(g, _, _, _, _, _) => Some(Connect(g))
    case OperationReturns(worker, g, _, _, _) => Some(Operate(worker, g))
    case CloseReturns(g, _, _, _) => Some(CloseSession(g))
    case PingReturns(g, _, _) => Some(Ping(g))
    case _ => None
  }

  predicate InFlight(w: World, t: Task) {
    TaskCount(w.o.spawned, t) > w.returned[t]
  }

  predicate PhaseIs(w: World, g: nat, phase: Phase) {
    g in w.watch && w.watch[g] == phase
  }

  /** What can happen next. A finished loop takes no more commands; the senders give up. */
  predicate Possible(w: World, e: Event) {
    && (CommandOf(w, e).Some? ==> Honest(w.o, CommandOf(w, e).value, w.recognized))
    && (TaskOf(e).Some? ==> InFlight(w, TaskOf(e).value))
    && match e
       case Admit => w.latch.Free?
       case Leave => w.ordinary > |w.waiting|
       case Submit(_, _, _) => w.ordinary > |w.waiting| && !w.o.finished
       case Abandon(worker) => worker in w.waiting && !w.o.finished
       case Collect(worker) => worker in w.waiting && worker !in w.o.workers
       case Lock => w.latch.Free? && w.ordinary == 0
       case SendRelease(caller, _) => w.latch.Held? && caller !in w.asked && !w.o.finished
       case SendTakeOver(caller, _, _) => w.latch.Held? && caller !in w.asked && !w.o.finished
       case Unlock => w.latch.Held? || (w.latch.Sent? && AnswerCount(w.o.answers, w.latch.caller) != 0)
       case Shutdown(caller) => caller !in w.asked && !w.o.finished
       case Signal(g) => g in w.recognized
       case WatchSignaled(g) => PhaseIs(w, g, Watching) && g in w.signaled
       case WatchLost(g) => PhaseIs(w, g, Watching) && g in w.lost
       case WatchLate(g) => PhaseIs(w, g, AfterLoss) && g in w.signaled
       case WatchStops(g) => PhaseIs(w, g, AfterLoss) && (g in w.o.unwatched || w.o.finished)
       case _ => true
  }

  function OwnerAfter(w: World, e: Event): Owner {
    match CommandOf(w, e)
    case None => w.o
    case Some(c) => Turn(w.o, c)
  }

  function LastAck(o: Owner): Ack {
    if o.acks == [] then CancelAnswer(false) else o.acks[|o.acks| - 1]
  }

  function OpenAfter(w: World, e: Event): set<nat> {
    match e
    case AttemptReturns(g, connection, _, _, _, _) => if connection.NoSession? then w.open else w.open + {g}
    case CloseReturns(g, closed, _, _) => if closed then w.open - {g} else w.open
    case _ => w.open
  }

  function WatchAfter(w: World, e: Event): map<nat, Phase> {
    match e
    case AttemptReturns(g, _, _, _, _, _) => if OwnerAfter(w, e).generation == Some(g) then w.watch[g := Watching] else w.watch
    case WatchSignaled(g) => w.watch[g := Over]
    case WatchLost(g) => w.watch[g := AfterLoss]
    case WatchLate(g) => w.watch[g := Over]
    case WatchStops(g) => w.watch[g := Over]
    case _ => w.watch
  }

  function OrdinaryAfter(w: World, e: Event): nat {
    match e
    case Admit => w.ordinary + 1
    case Leave => if w.ordinary == 0 then 0 else w.ordinary - 1
    case _ => w.ordinary
  }

  function WaitingAfter(w: World, e: Event): set<nat> {
    match e
    case Submit(_, _, _) => var ack := LastAck(OwnerAfter(w, e)); if ack.Accepted? then w.waiting + {ack.worker} else w.waiting
    case Abandon(worker) => if LastAck(OwnerAfter(w, e)) == CancelAnswer(true) then w.waiting - {worker} else w.waiting
    case Collect(worker) => w.waiting - {worker}
    case _ => w.waiting
  }

  function LatchAfter(w: World, e: Event): Latch {
    match e
    case Lock => Held
    case SendRelease(caller, _) => Sent(caller)
    case SendTakeOver(caller, _, _) => Sent(caller)
    case Unlock => Free
    case _ => w.latch
  }

  function AskedAfter(w: World, e: Event): set<nat> {
    match e
    case SendRelease(caller, _) => w.asked + {caller}
    case SendTakeOver(caller, _, _) => w.asked + {caller}
    case Shutdown(caller) => w.asked + {caller}
    case _ => w.asked
  }

  function After(w: World, e: Event): World {
    World(OwnerAfter(w, e),
          if TaskOf(e).Some? then w.returned + multiset{TaskOf(e).value} else w.returned,
          OpenAfter(w, e),
          if e.Recognize? then w.recognized + {e.generation} else w.recognized,
          if e.Signal? then w.signaled + {e.generation} else w.signaled,
          if e.Lose? then w.lost + {e.generation} else w.lost,
          WatchAfter(w, e), OrdinaryAfter(w, e), WaitingAfter(w, e), LatchAfter(w, e), AskedAfter(w, e))
  }

  /** The world after a run. */
  function Run(ownership: Ownership, events: seq<Event>): World {
    if events == [] then NewWorld(ownership)
    else After(Run(ownership, events[..|events| - 1]), events[|events| - 1])
  }

  /** Each event of the run was possible when it happened. */
  predicate IsRun(ownership: Ownership, events: seq<Event>) {
    events == [] || (IsRun(ownership, events[..|events| - 1]) && Possible(Run(ownership, events[..|events| - 1]), events[|events| - 1]))
  }

  // ---- The invariant of the whole ----

  ghost predicate BooksInv(w: World) {
    && (forall id: nat :: Ledger(w.o, id))
    && (forall caller: nat :: CallerBooks(w.o, caller) == One(caller in w.asked))
  }

  ghost predicate TasksInv(w: World) {
    && (forall t: Task {:trigger w.returned[t]} | Tracked(t) && !t.Ping? :: Returned(w.o, t) == w.returned[t])
    && (forall t: Task {:trigger w.returned[t]} | t.Ping? :: Returned(w.o, t) >= w.returned[t])
  }

  ghost predicate LatchInv(w: World) {
    && |w.waiting| <= w.ordinary
    && w.o.workers.Keys <= w.waiting
    && (!w.latch.Free? ==> w.ordinary == 0)
    && (forall caller: nat | HasClaim(w.o, caller) :: w.latch == Sent(caller))
  }

  ghost predicate WatchInv(w: World) {
    && (w.o.generation.Some? ==> PhaseIs(w, w.o.generation.value, Watching))
    && w.signaled <= w.recognized
  }

  /** A finished loop has nothing under way; a stopping one that has not finished has something. */
  predicate FinishedInv(o: Owner) {
    && (o.finished ==>
          && o.attempt.None? && o.validation.None? && o.generation.None? && o.workers == map[] && o.stopWaiters == []
          && (o.cleanup.Some? ==> o.cleanup.value.failed))
    && (o.stopping && !o.finished ==>
          || o.attempt.Some? || o.validation.Some? || o.generation.Some? || o.workers != map[]
          || (o.cleanup.Some? && !o.cleanup.value.failed))
  }

  ghost predicate WorldInv(w: World) {
    && OwnerInv(w.o) && FinishedInv(w.o) && BooksInv(w) && TasksInv(w) && LatchInv(w) && WatchInv(w)
    && Tidy(w.o, w.recognized) && w.open == Sessions(w.o)
  }

  // ---- Every possible event keeps it ----

  /** A goroutine in flight is one the loop waits for, except a ping whose generation has ended. */
  lemma InFlightIsAwaited(w: World, t: Task)
    requires TasksInv(w) && Tracked(t)
    ensures !t.Ping? ==> (InFlight(w, t) <==> Awaited(w.o, t))
    ensures t.Ping? && Awaited(w.o, t) ==> InFlight(w, t)
  {
    assert w.returned[t] >= 0;
    hide Awaited, TaskCount;
  }

  lemma NotStale(w: World, e: Event, c: Command)
    requires TasksInv(w) && Possible(w, e) && CommandOf(w, e) == Some(c)
    ensures forall t: Task | Completes(c, t) && !t.Ping? :: Awaited(w.o, t)
    ensures forall t: Task :: Completes(c, t) <==> TaskOf(e) == Some(t)
  {
    forall t: Task | Completes(c, t) && !t.Ping?
      ensures Awaited(w.o, t)
    {
      InFlightIsAwaited(w, t);
    }
    hide TasksInv, Awaited, InFlight, Honest;
  }

  lemma NoClaimNotClaimed(o: Owner)
    requires forall caller: nat :: !HasClaim(o, caller)
    ensures !Claimed(o)
  {
    if Claimed(o) {
      var caller: nat := if o.attempt.Some? && o.attempt.value.takeover.Some? then o.attempt.value.takeover.value
                         else if o.validation.Some? then o.validation.value.reply
                         else if o.cleanup.value.reply.Some? then o.cleanup.value.reply.value
                         else o.cleanup.value.takeover.value;
      assert HasClaim(o, caller);
    }
  }

  /** The latch keeps ordinary work and lifecycle work apart inside the owner too. */
  lemma LatchExcludes(w: World)
    requires LatchInv(w)
    ensures Exclusive(w.o)
    ensures w.ordinary > |w.waiting| ==> !Claimed(w.o)
  {
    if w.ordinary > 0 {
      NoClaimNotClaimed(w.o);
    } else {
      assert w.waiting == {};
      assert w.o.workers.Keys == {};
    }
  }

  lemma OwnerStep(w: World, e: Event)
    requires WorldInv(w) && Possible(w, e)
    ensures var o := OwnerAfter(w, e);
            OwnerInv(o) && FinishedInv(o) && Tidy(o, w.recognized)
  {
    hide OwnerInv, Turn, BooksInv, Tidy, Honest, Claimed, Exclusive, WatchInv, Completes, Awaited;
    if CommandOf(w, e).Some? {
      var c := CommandOf(w, e).value;
      NotStale(w, e, c);
      LatchExcludes(w);
      TurnKeeps(w.o, c);
      TurnTidy(w.o, c, w.recognized);
      TurnFinishes(w.o, c);
    }
  }

  lemma TurnFinishes(o: Owner, c: Command)
    requires OwnerInv(o) && FinishedInv(o)
    requires forall t: Task | Completes(c, t) && !t.Ping? :: Awaited(o, t)
    ensures FinishedInv(Turn(o, c))
  {
    hide OwnerInv, Handle, Moves, Awaited, Completes;
    if !o.finished {
      HandleMoves(o, c);
      if c.Register? {
        RegisterWorkers(o, c.permit, c.untilTaken, c.expired);
        HandleRegister(o, c);
      }
      FinishFinishes(Handle(o, c));
    }
  }

  lemma HandleRegister(o: Owner, c: Command)
    requires c.Register?
    ensures Handle(o, c) == DoRegister(o, c.permit, c.untilTaken, c.expired)
  {
    hide DoRegister;
  }

  lemma FinishFinishes(o: Owner)
    requires !o.finished
    ensures FinishedInv(FinishIfStopped(o))
  {
    AnswerAllIs(o, o.stopWaiters, if o.cleanup.Some? then Failed(CloseError) else Success);
    hide AnswerAll;
  }

  lemma BooksStep(w: World, e: Event)
    requires OwnerInv(w.o) && FinishedInv(w.o) && BooksInv(w) && Possible(w, e)
    ensures BooksInv(After(w, e))
  {
    var v := After(w, e);
    hide OwnerInv, Turn, Ledger, CallerBooks, Possible;
    forall id: nat
      ensures Ledger(v.o, id)
    {
      assert Ledger(w.o, id);
      if CommandOf(w, e).Some? {
        TurnLedger(w.o, CommandOf(w, e).value, id);
      }
    }
    forall caller: nat
      ensures CallerBooks(v.o, caller) == One(caller in v.asked)
    {
      CallerStep(w, e, caller);
    }
  }

  lemma CallerStep(w: World, e: Event, caller: nat)
    requires OwnerInv(w.o) && Possible(w, e) && CallerBooks(w.o, caller) == One(caller in w.asked)
    ensures CallerBooks(OwnerAfter(w, e), caller) == One(caller in After(w, e).asked)
  {
    hide OwnerInv, CallerBooks;
    AskedStep(w, e, caller);
    if CommandOf(w, e).Some? && !w.o.finished {
      TurnCallers(w.o, CommandOf(w, e).value, caller);
    }
    hide Turn, Possible, After, Asks;
  }

  lemma AskedStep(w: World, e: Event, caller: nat)
    requires Possible(w, e)
    ensures One(caller in After(w, e).asked)
         == One(caller in w.asked) + One(!w.o.finished && CommandOf(w, e).Some? && Asks(CommandOf(w, e).value, caller))
  {
    hide Turn, Honest, InFlight, AnswerCount;
  }

  lemma TasksStep(w: World, e: Event)
    requires OwnerInv(w.o) && FinishedInv(w.o) && TasksInv(w) && Possible(w, e)
    ensures TasksInv(After(w, e))
  {
    var v := After(w, e);
    forall t: Task {:trigger v.returned[t]} | Tracked(t)
      ensures if t.Ping? then Returned(v.o, t) >= v.returned[t] else Returned(v.o, t) == v.returned[t]
    {
      TaskStep(w, e, t);
    }
    hide After, Returned, Possible, OwnerInv;
  }

  lemma TaskStep(w: World, e: Event, t: Task)
    requires OwnerInv(w.o) && FinishedInv(w.o) && TasksInv(w) && Possible(w, e) && Tracked(t)
    ensures var v := After(w, e);
            if t.Ping? then Returned(v.o, t) >= v.returned[t] else Returned(v.o, t) == v.returned[t]
  {
    assert if t.Ping? then Returned(w.o, t) >= w.returned[t] else Returned(w.o, t) == w.returned[t];
    InFlightIsAwaited(w, t);
    ReturnedStep(w, e, t);
    if CommandOf(w, e).Some? {
      var c := CommandOf(w, e).value;
      NotStale(w, e, c);
      if !w.o.finished {
        TurnTasks(w.o, c, t);
      } else {
        FinishedAwaitsNothing(w.o, t);
      }
    }
    hide TasksInv, OwnerInv, Turn, After, Completes, Drops, TaskCount, Awaited, Possible;
  }

  lemma FinishedAwaitsNothing(o: Owner, t: Task)
    requires FinishedInv(o) && o.finished
    ensures !Awaited(o, t)
  {
  }

  lemma ReturnedStep(w: World, e: Event, t: Task)
    requires Possible(w, e)
    ensures After(w, e).returned[t] == w.returned[t] + One(TaskOf(e) == Some(t)) && After(w, e).o == OwnerAfter(w, e)
    ensures TaskOf(e) == Some(t) ==> InFlight(w, t)
    ensures CommandOf(w, e).None? ==> TaskOf(e).None?
  {
    hide Turn, Honest, TaskCount, AnswerCount;
  }

  /** Claims and workers after an event, against those before. */
  lemma TurnMovesWorld(w: World, e: Event)
    requires OwnerInv(w.o) && TasksInv(w) && FinishedInv(w.o) && Possible(w, e)
    ensures var o := OwnerAfter(w, e);
            (&& (forall caller: nat | HasClaim(o, caller) ::
                   HasClaim(w.o, caller) || Sends(e, caller))
             && (!e.Submit? ==> o.workers.Keys <= w.o.workers.Keys)
             && (o.generation.Some? ==> o.generation == w.o.generation || (e.AttemptReturns? && o.generation == Some(e.generation))))
  {
    hide OwnerInv, Turn, TasksInv, Possible, HasClaim, Awaited, Completes;
    if CommandOf(w, e).Some? && !w.o.finished {
      var c := CommandOf(w, e).value;
      NotStale(w, e, c);
      TurnMoves(w.o, c);
      AskingIsSending(w, e);
      hide Sessions, SessionsAfter, Asks, Sends;
    } else {
      FinishedTurn(w, e);
    }
  }

  lemma FinishedTurn(w: World, e: Event)
    requires CommandOf(w, e).None? || w.o.finished
    ensures OwnerAfter(w, e) == w.o
  {
  }

  predicate Sends(e: Event, caller: nat) {
    (e.SendRelease? && e.caller == caller) || (e.SendTakeOver? && e.caller == caller)
  }

  lemma AskingIsSending(w: World, e: Event)
    requires CommandOf(w, e).Some?
    ensures forall caller: nat :: Asks(CommandOf(w, e).value, caller) && !CommandOf(w, e).value.Stop? ==> Sends(e, caller)
  {
  }

  lemma LatchStep(w: World, e: Event)
    requires OwnerInv(w.o) && TasksInv(w) && FinishedInv(w.o) && BooksInv(w) && LatchInv(w) && Possible(w, e)
    ensures LatchInv(After(w, e))
  {
    TurnMovesWorld(w, e);
    WaitingStep(w, e);
    LatchMoves(w, e);
    var v := After(w, e);
    forall caller: nat | HasClaim(v.o, caller)
      ensures v.latch == Sent(caller)
    {
      ClaimStep(w, e, caller);
    }
    hide HasClaim, Turn, Possible, After, OwnerInv, BooksInv, TasksInv;
  }

  lemma LatchMoves(w: World, e: Event)
    requires LatchInv(w) && Possible(w, e)
    ensures var v := After(w, e);
            !v.latch.Free? ==> v.ordinary == 0
  {
    hide HasClaim, Turn, Honest, InFlight, AnswerCount;
  }

  lemma ClaimStep(w: World, e: Event, caller: nat)
    requires LatchInv(w) && BooksInv(w) && Possible(w, e) && HasClaim(After(w, e).o, caller)
    requires HasClaim(w.o, caller) || Sends(e, caller)
    ensures After(w, e).latch == Sent(caller)
  {
    if Sends(e, caller) {
      hide Turn, Honest, InFlight, AnswerCount, HasClaim;
    } else {
      assert w.latch == Sent(caller);
      assert CallerBooks(w.o, caller) == One(caller in w.asked);
      ClaimedNotAnswered(w.o, caller);
      hide Turn, Honest, InFlight, AnswerCount, HasClaim, CallerBooks;
    }
  }

  lemma ClaimedNotAnswered(o: Owner, caller: nat)
    requires HasClaim(o, caller) && CallerBooks(o, caller) <= 1
    ensures AnswerCount(o.answers, caller) == 0
  {
  }

  /** The workers the owner holds are among those whose callers wait. */
  lemma WaitingStep(w: World, e: Event)
    requires OwnerInv(w.o) && FinishedInv(w.o) && LatchInv(w) && Possible(w, e)
    requires !e.Submit? ==> OwnerAfter(w, e).workers.Keys <= w.o.workers.Keys
    ensures |WaitingAfter(w, e)| <= OrdinaryAfter(w, e) && OwnerAfter(w, e).workers.Keys <= WaitingAfter(w, e)
  {
    hide OwnerAfter, OwnerInv, HasClaim, Honest, InFlight, AnswerCount, FinishedInv, LastAck, CommandOf, TaskOf;
    if e.Submit? {
      SubmitStep(w, e);
    } else if e.Abandon? {
      AbandonStep(w, e);
    }
  }

  lemma SubmitStep(w: World, e: Event)
    requires OwnerInv(w.o) && e.Submit? && !w.o.finished
    ensures var o := OwnerAfter(w, e);
            o.workers.Keys <= w.o.workers.Keys + (if LastAck(o).Accepted? then {LastAck(o).worker} else {})
  {
    hide OwnerInv, DoRegister, FinishIfStopped;
    RegisterWorkers(w.o, e.permit, e.untilTaken, e.expired);
    FinishMatters(DoRegister(w.o, e.permit, e.untilTaken, e.expired));
  }

  lemma AbandonStep(w: World, e: Event)
    requires e.Abandon? && !w.o.finished
    ensures LastAck(OwnerAfter(w, e)) == CancelAnswer(true) ==> e.worker !in OwnerAfter(w, e).workers
  {
    hide DoCancel, FinishIfStopped;
    CancelWorkers(w.o, e.worker);
    FinishMatters(DoCancel(w.o, e.worker));
  }

  lemma WatchStep(w: World, e: Event)
    requires OwnerInv(w.o) && TasksInv(w) && FinishedInv(w.o) && WatchInv(w) && Possible(w, e)
    ensures WatchInv(After(w, e))
  {
    TurnMovesWorld(w, e);
    if e.WatchSignaled? || e.WatchLost? {
      EndedIsOver(w, e);
    }
    WatchNeeds(w, e);
    WatchMoves(w, e);
    hide OwnerInv, TasksInv, Possible, HasClaim, OwnerAfter, FinishedInv, WatchAfter, PhaseIs;
  }

  /** What the watcher's own steps need. */
  lemma WatchNeeds(w: World, e: Event)
    requires Possible(w, e)
    ensures e.Signal? ==> e.generation in w.recognized
    ensures e.WatchLate? || e.WatchStops? ==> PhaseIs(w, e.generation, AfterLoss)
  {
    hide Honest, InFlight, AnswerCount, CommandOf, TaskOf;
  }

  lemma WatchMoves(w: World, e: Event)
    requires e.WatchLate? || e.WatchStops? ==> PhaseIs(w, e.generation, AfterLoss)
    ensures forall g | PhaseIs(w, g, Watching) && !((e.WatchSignaled? || e.WatchLost?) && e.generation == g) :: PhaseIs(After(w, e), g, Watching)
    ensures e.AttemptReturns? && OwnerAfter(w, e).generation == Some(e.generation) ==> PhaseIs(After(w, e), e.generation, Watching)
  {
    hide OwnerAfter, TaskOf, OpenAfter, OrdinaryAfter, WaitingAfter, LatchAfter, AskedAfter;
  }

  lemma EndedIsOver(w: World, e: Event)
    requires OwnerInv(w.o) && FinishedInv(w.o) && (e.WatchSignaled? || e.WatchLost?)
    ensures OwnerAfter(w, e).generation != Some(e.generation)
  {
    hide OwnerInv, FinishIfStopped, FailQueued;
    if !w.o.finished {
      var o := DoGenerationEnded(w.o, e.generation, e.generation in w.recognized);
      EndedGeneration(w.o, e.generation, e.generation in w.recognized);
      FinishMatters(o);
    }
  }

  lemma EndedGeneration(o: Owner, g: nat, recognized: bool)
    requires OwnerInv(o)
    ensures DoGenerationEnded(o, g, recognized).generation != Some(g)
  {
    hide FailQueued, WorkersInv;
    var terminal, cause := if recognized then TakenOver else Uncertain, if recognized then SessionTakenOver else OwnershipUncertain;
    var validated := o.validation.Some? && o.validation.value.generation == g;
    FailQueuedIs(o.(ownership := terminal, validation := if validated then None else o.validation), NotSent(cause));
  }

  /** The sessions that are open are those the owner holds. */
  lemma OpenStep(w: World, e: Event)
    requires OwnerInv(w.o) && TasksInv(w) && FinishedInv(w.o) && w.open == Sessions(w.o) && Possible(w, e)
    ensures After(w, e).open == Sessions(After(w, e).o)
  {
    hide OwnerInv, TasksInv, Turn, Honest, InFlight, AnswerCount, HasClaim, Awaited, Completes, Sessions;
    if CommandOf(w, e).Some? && !w.o.finished {
      NotStale(w, e, CommandOf(w, e).value);
      TurnMoves(w.o, CommandOf(w, e).value);
    } else {
      FinishedTurn(w, e);
      if w.o.finished {
        FinishedTasks(w, e);
      }
    }
  }

  lemma FinishedTasks(w: World, e: Event)
    requires TasksInv(w) && FinishedInv(w.o) && w.o.finished && Possible(w, e)
    ensures !e.AttemptReturns? && !e.CloseReturns?
  {
    if TaskOf(e).Some? {
      InFlightIsAwaited(w, TaskOf(e).value);
      FinishedAwaitsNothing(w.o, TaskOf(e).value);
    }
    hide TasksInv, Awaited, InFlight;
  }

  lemma StepKeeps(w: World, e: Event)
    requires WorldInv(w) && Possible(w, e)
    ensures WorldInv(After(w, e))
  {
    hide OwnerInv, BooksInv, TasksInv, LatchInv, WatchInv, Turn, Possible, Tidy, Sessions, FinishedInv;
    OwnerStep(w, e);
    BooksStep(w, e);
    TasksStep(w, e);
    LatchStep(w, e);
    WatchStep(w, e);
    OpenStep(w, e);
    TidyGrows(OwnerAfter(w, e), w.recognized, After(w, e).recognized);
  }

  lemma TidyGrows(o: Owner, few: set<nat>, many: set<nat>)
    requires Tidy(o, few) && few <= many
    ensures Tidy(o, many)
  {
  }

  lemma NewWorldInv(ownership: Ownership)
    requires ownership != Active && ownership != Stopped
    ensures WorldInv(NewWorld(ownership))
  {
  }

  lemma {:induction false} EveryRun(ownership: Ownership, events: seq<Event>)
    requires ownership != Active && ownership != Stopped && IsRun(ownership, events)
    ensures WorldInv(Run(ownership, events))
    decreases |events|
  {
    hide WorldInv, After, Possible;
    if events == [] {
      NewWorldInv(ownership);
    } else {
      EveryRun(ownership, events[..|events| - 1]);
      StepKeeps(Run(ownership, events[..|events| - 1]), events[|events| - 1]);
    }
  }

  // ---- What every run shows ----

  /** One session at a time: at most one of attempt, generation and cleanup exists, the sessions not yet
      closed are exactly the generation's or the cleanup's, and a new Connect is only started when every
      session obtained before has been closed. */
  lemma SingleLiveSession(ownership: Ownership, events: seq<Event>, e: Event, g: nat)
    requires ownership != Active && ownership != Stopped && IsRun(ownership, events)
    requires Possible(Run(ownership, events), e)
    ensures var w, v := Run(ownership, events), After(Run(ownership, events), e);
            (&& OneAtATime(w.o) && w.open == Sessions(w.o) && |w.open| <= 1
             && (TaskCount(v.o.spawned, Connect(g)) > TaskCount(w.o.spawned, Connect(g)) ==> v.open == {}))
  {
    hide After, Possible, Run, IsRun, Tidy, BooksInv, LatchInv, WatchInv, WorkersInv;
    EveryRun(ownership, events);
    var w := Run(ownership, events);
    StepKeeps(w, e);
    ConnectsAwaited(w, e, g);
    OneSession(w.o);
    hide TasksInv, TaskCount;
  }

  lemma OneSession(o: Owner)
    requires OneAtATime(o)
    ensures |Sessions(o)| <= 1 && (o.attempt.Some? ==> Sessions(o) == {})
  {
  }

  lemma ConnectsAwaited(w: World, e: Event, g: nat)
    requires WorldInv(w) && Possible(w, e)
    ensures TaskCount(After(w, e).o.spawned, Connect(g)) > TaskCount(w.o.spawned, Connect(g)) ==> After(w, e).o.attempt.Some?
  {
    var t := Connect(g);
    TasksStep(w, e);
    ReturnedStep(w, e, t);
    InFlightIsAwaited(w, t);
    assert Returned(w.o, t) == w.returned[t];
    assert Returned(After(w, e).o, t) == After(w, e).returned[t];
    hide After, Possible, TaskCount, TasksInv, OwnerInv, Tidy, BooksInv, LatchInv, WatchInv;
  }

  /** Nobody is stranded. Every worker the owner owes a reply has something in flight that will end in
      one: its own operation; or the attempt it waits for; or a cleanup that will start an attempt or
      fail the queue; or the watcher of a session already recognised as taken over. */
  ghost predicate Attended(w: World, worker: nat)
    requires worker in w.o.workers
  {
    var g := w.o.workers[worker].generation;
    || (g != 0 && InFlight(w, Operate(worker, g)))
    || (w.o.attempt.Some? && InFlight(w, Connect(w.o.attempt.value.generation)))
    || (&& worker in w.o.queue && w.o.cleanup.Some? && w.o.cleanup.value.target == Idle
        && InFlight(w, CloseSession(w.o.cleanup.value.generation)))
    || (worker in w.o.queue && w.o.generation.Some? && w.o.generation.value in w.recognized && PhaseIs(w, w.o.generation.value, Watching))
  }

  lemma NobodyStranded(ownership: Ownership, events: seq<Event>, worker: nat)
    requires ownership != Active && ownership != Stopped && IsRun(ownership, events)
    requires worker in Run(ownership, events).o.workers
    ensures Attended(Run(ownership, events), worker)
  {
    hide After, Possible, Run, IsRun;
    EveryRun(ownership, events);
    Attending(Run(ownership, events), worker);
  }

  lemma Attending(w: World, worker: nat)
    requires WorldInv(w) && worker in w.o.workers
    ensures Attended(w, worker)
  {
    var g := w.o.workers[worker].generation;
    InFlightIsAwaited(w, Operate(worker, g));
    if w.o.attempt.Some? {
      InFlightIsAwaited(w, Connect(w.o.attempt.value.generation));
    }
    if w.o.cleanup.Some? {
      InFlightIsAwaited(w, CloseSession(w.o.cleanup.value.generation));
    }
    hide BooksInv, TasksInv, LatchInv, InFlight, PhaseInv, Sessions;
  }

  /** A caller whose release, takeover or stop the loop has not answered is attended in the same way: what
      it waits for is in flight. A stop waits for whatever is left. */
  lemma CallersAttended(ownership: Ownership, events: seq<Event>, caller: nat)
    requires ownership != Active && ownership != Stopped && IsRun(ownership, events)
    requires var o := Run(ownership, events).o; HasClaim(o, caller) || caller in o.stopWaiters
    ensures var w := Run(ownership, events);
            || (w.o.attempt.Some? && InFlight(w, Connect(w.o.attempt.value.generation)))
            || (w.o.validation.Some? && InFlight(w, Ping(w.o.validation.value.generation)))
            || (w.o.cleanup.Some? && InFlight(w, CloseSession(w.o.cleanup.value.generation)))
            || (!HasClaim(w.o, caller) && exists worker | worker in w.o.workers :: InFlight(w, Operate(worker, w.o.workers[worker].generation)))
  {
    hide After, Possible, Run, IsRun, HasClaim;
    EveryRun(ownership, events);
    var w := Run(ownership, events);
    if HasClaim(w.o, caller) {
      ClaimAttended(w, caller);
    } else {
      StopAttended(w);
    }
    hide WorldInv, InFlight;
  }

  lemma ClaimAttended(w: World, caller: nat)
    requires WorldInv(w) && HasClaim(w.o, caller)
    ensures || (w.o.attempt.Some? && InFlight(w, Connect(w.o.attempt.value.generation)))
            || (w.o.validation.Some? && InFlight(w, Ping(w.o.validation.value.generation)))
            || (w.o.cleanup.Some? && InFlight(w, CloseSession(w.o.cleanup.value.generation)))
  {
    OwnersTasks(w);
    hide BooksInv, TasksInv, LatchInv, WatchInv, InFlight, WorkersInv, Sessions, Tidy;
  }

  /** What the loop waits for is in flight. */
  lemma OwnersTasks(w: World)
    requires WorldInv(w)
    ensures w.o.attempt.Some? ==> InFlight(w, Connect(w.o.attempt.value.generation))
    ensures w.o.validation.Some? ==> InFlight(w, Ping(w.o.validation.value.generation))
    ensures w.o.cleanup.Some? && !w.o.cleanup.value.failed ==> InFlight(w, CloseSession(w.o.cleanup.value.generation))
  {
    if w.o.attempt.Some? {
      InFlightIsAwaited(w, Connect(w.o.attempt.value.generation));
    }
    if w.o.validation.Some? {
      InFlightIsAwaited(w, Ping(w.o.validation.value.generation));
    }
    if w.o.cleanup.Some? {
      InFlightIsAwaited(w, CloseSession(w.o.cleanup.value.generation));
    }
    hide OwnerInv, BooksInv, TasksInv, LatchInv, WatchInv, InFlight, Sessions, Tidy;
  }

  /** A stop that has not been answered: something is still under way. */
  lemma StopAttended(w: World)
    requires WorldInv(w) && w.o.stopWaiters != []
    ensures || (w.o.attempt.Some? && InFlight(w, Connect(w.o.attempt.value.generation)))
            || (w.o.validation.Some? && InFlight(w, Ping(w.o.validation.value.generation)))
            || (w.o.cleanup.Some? && InFlight(w, CloseSession(w.o.cleanup.value.generation)))
            || exists worker | worker in w.o.workers :: InFlight(w, Operate(worker, w.o.workers[worker].generation))
  {
    OwnersTasks(w);
    StopHolds(w.o);
    if w.o.workers != map[] {
      var worker :| worker in w.o.workers;
      Attending(w, worker);
    }
    hide WorldInv, InFlight, OwnerInv, FinishedInv;
  }

  lemma StopHolds(o: Owner)
    requires OwnerInv(o) && FinishedInv(o) && o.stopWaiters != []
    ensures o.queue == []
    ensures o.attempt.Some? || o.validation.Some? || o.workers != map[] || (o.cleanup.Some? && !o.cleanup.value.failed)
  {
    hide WorkersInv;
  }

  /** Nobody is answered twice, and nobody that was not accepted is answered at all. */
  lemma AtMostOneReply(ownership: Ownership, events: seq<Event>, worker: nat, caller: nat)
    requires ownership != Active && ownership != Stopped && IsRun(ownership, events)
    ensures var w := Run(ownership, events);
            (&& ReplyCount(w.o.replies, worker) + One(worker in w.o.workers) == AcceptCount(w.o.acks, worker) <= 1
             && AnswerCount(w.o.answers, caller) + Claims(w.o, caller) == One(caller in w.asked))
  {
    hide After, Possible, Run, IsRun;
    EveryRun(ownership, events);
    var w := Run(ownership, events);
    assert Ledger(w.o, worker) && CallerBooks(w.o, caller) == One(caller in w.asked);
    hide OwnerInv, TasksInv, LatchInv, WatchInv, Tidy;
  }

  /** When the loop exits every accepted worker and every caller has had exactly one reply, and nothing
      it started is still awaited. */
  lemma NothingOwedAtExit(ownership: Ownership, events: seq<Event>, worker: nat, caller: nat, t: Task)
    requires ownership != Active && ownership != Stopped && IsRun(ownership, events)
    requires Run(ownership, events).o.finished
    ensures var w := Run(ownership, events);
            (&& ReplyCount(w.o.replies, worker) == AcceptCount(w.o.acks, worker)
             && AnswerCount(w.o.answers, caller) == One(caller in w.asked)
             && (Tracked(t) && !t.Ping? ==> !InFlight(w, t)))
  {
    hide After, Possible, Run, IsRun;
    EveryRun(ownership, events);
    AtMostOneReply(ownership, events, worker, caller);
    var w := Run(ownership, events);
    FinishedAwaitsNothing(w.o, t);
    if Tracked(t) {
      InFlightIsAwaited(w, t);
    }
    NoClaims(w.o, caller);
    hide OwnerInv, TasksInv, LatchInv, WatchInv, Tidy, BooksInv, InFlight, Awaited, Claims;
  }

  lemma NoClaims(o: Owner, caller: nat)
    requires FinishedInv(o) && CleanupInv(o) && o.finished
    ensures Claims(o, caller) == 0
  {
  }
}
