/** What one turn of the owner's loop can do to the sessions, the callers it holds and the queue. */
module OwnerMoves {
  import opened Options
  import opened OwnerModel
  import opened OwnerSafety
  import opened OwnerBooks
  import opened OwnerTasks

  /** A release or takeover whose reply the loop still holds. */
  predicate HasClaim(o: Owner, caller: nat) {
    || (o.attempt.Some? && o.attempt.value.takeover == Some(caller))
    || (o.validation.Some? && o.validation.value.reply == caller)
    || (o.cleanup.Some? && o.cleanup.value.reply == Some(caller))
    || (o.cleanup.Some? && o.cleanup.value.takeover == Some(caller))
  }

  predicate Claimed(o: Owner) {
    || (o.attempt.Some? && o.attempt.value.takeover.Some?)
    || o.validation.Some?
    || (o.cleanup.Some? && (o.cleanup.value.reply.Some? || o.cleanup.value.takeover.Some?))
  }

  /** The session the owner has obtained and not seen closed. */
  function SessionHeld(o: Owner): Option<nat> {
    if o.generation.Some? then o.generation else if o.cleanup.Some? then Some(o.cleanup.value.generation) else None
  }

  function Sessions(o: Owner): set<nat> {
    if SessionHeld(o).Some? then {SessionHeld(o).value} else {}
  }

  function SessionsAfter(o: Owner, c: Command): set<nat> {
    match c
    case AttemptDone(g, connection, _, _, _, _) => if connection.NoSession? then Sessions(o) else Sessions(o) + {g}
    case CleanupDone(g, closed, _, _, _) => if closed then Sessions(o) - {g} else Sessions(o)
    case _ => Sessions(o)
  }

  ghost predicate Moves(o: Owner, r: Owner, c: Command) {
    && (forall caller: nat :: HasClaim(r, caller) ==> HasClaim(o, caller) || (Asks(c, caller) && !c.Stop?))
    && (r.generation.Some? ==> r.generation == o.generation || (c.AttemptDone? && r.generation == Some(c.generation)))
    && Sessions(r) == SessionsAfter(o, c)
    && Ages(o, r, c)
  }

  /** Watch channels are closed only by a cleanup that succeeds; a new attempt is a new generation. */
  predicate Ages(o: Owner, r: Owner, c: Command) {
    && r.unwatched <= o.unwatched + (if c.CleanupDone? && c.closed then {c.generation} else {})
    && r.nextGeneration >= o.nextGeneration
    && (r.attempt.Some? && r.attempt != o.attempt ==> r.nextGeneration > o.nextGeneration)
  }

  /** Workers only come in by registering; only the end of the loop finishes it. */
  predicate Stays(o: Owner, r: Owner) {
    r.workers.Keys <= o.workers.Keys && r.finished == o.finished
  }

  /** The matters above look at no more than this. */
  predicate SameMatters(o: Owner, r: Owner) {
    && r.attempt == o.attempt && r.validation == o.validation && r.cleanup == o.cleanup && r.generation == o.generation
    && r.unwatched == o.unwatched && r.nextGeneration == o.nextGeneration
  }

  lemma MattersMove(o: Owner, r: Owner, c: Command)
    requires SameMatters(o, r) && !c.AttemptDone? && !c.CleanupDone?
    ensures Moves(o, r, c)
  {
  }

  lemma RegisterMoves(o: Owner, permit: bool, untilTaken: nat, expired: set<nat>)
    requires OwnerInv(o)
    ensures Moves(o, DoRegister(o, permit, untilTaken, expired), Register(permit, untilTaken, expired))
  {
    hide WorkersInv, Without, StartNext, Enter, Refusal;
    if Admits(o) {
      EnterIs(o, permit);
      EnterMatters(o, permit);
      var (o2, err) := Enter(o, permit);
      if err.None? {
        AckedKeeps(o2, Accepted(o.nextWorker + 1));
        StartNextIs(Acked(o2, Accepted(o.nextWorker + 1)), untilTaken, expired);
      }
    }
  }

  /** Registering either adds the new worker and says so, or adds none. */
  lemma RegisterWorkers(o: Owner, permit: bool, untilTaken: nat, expired: set<nat>)
    requires OwnerInv(o)
    ensures var r := DoRegister(o, permit, untilTaken, expired);
            (&& r.finished == o.finished && r.acks != []
             && match r.acks[|r.acks| - 1]
                case Accepted(id) => r.workers.Keys <= o.workers.Keys + {id}
                case _ => r.workers.Keys <= o.workers.Keys)
  {
    hide PhaseInv, Without, StartNext, Enter, Refusal, Admits;
    if Admits(o) {
      EnterIs(o, permit);
      var id := o.nextWorker + 1;
      assert id !in o.workers;
      hide WorkersInv;
      var (o2, err) := Enter(o, permit);
      if err.None? {
        AckedKeeps(o2, Accepted(id));
        StartNextIs(Acked(o2, Accepted(id)), untilTaken, expired);
      }
    }
  }

  lemma CancelWorkers(o: Owner, worker: nat)
    ensures var r := DoCancel(o, worker);
            r.acks != [] && (r.acks[|r.acks| - 1] == CancelAnswer(true) ==> worker !in r.workers)
  {
    hide Without;
  }

  lemma EnterMatters(o: Owner, permit: bool)
    ensures var (r, err) := Enter(o, permit);
            && r.nextGeneration >= o.nextGeneration
            && (r.attempt == o.attempt || (r.attempt.Some? && r.attempt.value.takeover.None? && r.nextGeneration == o.nextGeneration + 1))
  {
  }

  /** After the attempt, with the caller it was made for: nothing is open, nothing is held. */
  ghost predicate Connecting(o: Owner, r: Owner, g: nat, takeover: Option<nat>, sessions: set<nat>) {
    && (forall caller: nat :: HasClaim(r, caller) ==> takeover == Some(caller))
    && (r.generation.Some? ==> r.generation == Some(g))
    && Sessions(r) == sessions
    && r.unwatched == o.unwatched && r.nextGeneration == o.nextGeneration && r.attempt.None?
  }

  lemma AttemptFailedMoves(o: Owner, g: nat, takeover: Option<nat>, left: bool)
    requires AttemptOver(o, g, takeover)
    ensures Connecting(o, AttemptFailed(o, g, takeover, left), g, takeover, if left then {g} else {})
    ensures Stays(o, AttemptFailed(o, g, takeover, left))
  {
    hide FailQueued, WorkersInv;
    FailQueuedIs(o, Failed(AttemptError));
  }

  lemma AttemptConnectedMoves(o: Owner, g: nat, takeover: Option<nat>, untilTaken: nat, expired: set<nat>, demand: bool)
    requires AttemptOver(o, g, takeover)
    ensures Connecting(o, AttemptConnected(o, g, takeover, untilTaken, expired, demand), g, takeover, {g})
    ensures Stays(o, AttemptConnected(o, g, takeover, untilTaken, expired, demand))
  {
    hide WorkersInv, StartNext;
    if !o.stopping && (|o.queue| != 0 || takeover.Some?) {
      var o3 := Answered(Spawn(o.(generation := Some(g), ownership := Active), Watch(g)), takeover, Success);
      WorkersFrame(o, o3);
      StartNextIs(o3, untilTaken, expired);
    }
  }

  lemma AttemptDoneMoves(o: Owner, g: nat, connection: Connection, expired: set<nat>, untilTaken: nat, expiredLater: set<nat>, demand: bool)
    requires OwnerInv(o) && Awaited(o, Connect(g))
    ensures Moves(o, DoAttemptDone(o, g, connection, expired, untilTaken, expiredLater, demand), AttemptDone(g, connection, expired, untilTaken, expiredLater, demand))
    ensures Stays(o, DoAttemptDone(o, g, connection, expired, untilTaken, expiredLater, demand))
  {
    hide SettleCanceled, FilterQueue, WorkersInv, AttemptFailed, AttemptConnected;
    var takeover := o.attempt.value.takeover;
    AfterAttemptIs(o, expired);
    AfterAttemptQueue(o, expired);
    var o2 := AfterAttempt(o, expired);
    AttemptConnectedMoves(o2, g, takeover, untilTaken, expiredLater, demand);
    AttemptFailedMoves(o2, g, takeover, connection.SessionLeft?);
    assert Sessions(o) == {};
    assert takeover.Some? ==> HasClaim(o, takeover.value);
  }

  lemma WorkerDoneMoves(o: Owner, done: nat, g: nat, untilTaken: nat, expired: set<nat>, demand: bool)
    requires OwnerInv(o) && Awaited(o, Operate(done, g))
    ensures Moves(o, DoWorkerDone(o, done, g, untilTaken, expired, demand), WorkerDone(done, g, untilTaken, expired, demand))
    ensures Stays(o, DoWorkerDone(o, done, g, untilTaken, expired, demand))
  {
    var o1 := Settle(o, done, Own);
    assert OwnerInv(o1);
    hide OwnerInv, StartNext, Moves, Awaited;
    StartNextIs(o1, untilTaken, expired);
    MattersMove(o, DoWorkerDone(o, done, g, untilTaken, expired, demand), WorkerDone(done, g, untilTaken, expired, demand));
  }

  lemma GenerationEndedMoves(o: Owner, g: nat, recognized: bool)
    requires OwnerInv(o)
    ensures Moves(o, DoGenerationEnded(o, g, recognized), GenerationEnded(g, recognized))
    ensures Stays(o, DoGenerationEnded(o, g, recognized))
  {
    hide FailQueued, WorkersInv;
    if o.generation == Some(g) {
      var terminal, cause := if recognized then TakenOver else Uncertain, if recognized then SessionTakenOver else OwnershipUncertain;
      var validated := o.validation.Some? && o.validation.value.generation == g;
      FailQueuedIs(o.(ownership := terminal, validation := if validated then None else o.validation), NotSent(cause));
    }
  }

  lemma TakeoverRecognizedMoves(o: Owner, g: nat)
    ensures Moves(o, DoTakeoverRecognized(o, g), TakeoverRecognized(g))
    ensures Stays(o, DoTakeoverRecognized(o, g))
  {
    hide FailQueued;
    FailQueuedIs(o.(ownership := TakenOver,
                    cleanup := if PendingTerminal(o, g) then Some(o.cleanup.value.(target := TakenOver)) else o.cleanup), NotSent(SessionTakenOver));
  }

  lemma ResumeMatters(o: Owner, takeover: Option<nat>, permitTakeover: bool, permitQueue: bool)
    requires o.attempt.None?
    ensures var r := Resume(o, takeover, permitTakeover, permitQueue);
            (&& r.validation == o.validation && r.cleanup == o.cleanup && r.generation == o.generation
             && r.unwatched == o.unwatched && r.nextGeneration >= o.nextGeneration && (r.attempt.Some? ==> r.nextGeneration > o.nextGeneration)
             && (r.attempt.Some? ==> r.attempt.value.takeover == takeover || r.attempt.value.takeover.None?))
    ensures Stays(o, Resume(o, takeover, permitTakeover, permitQueue))
  {
    hide FailQueued;
    StartAttemptIs(o, takeover, permitTakeover);
    var (o1, err) := if takeover.Some? then StartAttempt(o, takeover, permitTakeover) else (o, None);
    var o2 := if err.Some? then Answered(o1, takeover, err.value) else o1;
    var (o3, failed) := StartAttempt(o2, None, permitQueue);
    if failed.Some? {
      FailQueuedIs(o3, failed.value);
    }
  }

  lemma CleanupFailedMoves(o: Owner, g: nat, recognized: bool, permitTakeover: bool, permitQueue: bool)
    requires OwnerInv(o) && Awaited(o, CloseSession(g))
    ensures Moves(o, CleanupFailed(o), CleanupDone(g, false, recognized, permitTakeover, permitQueue))
    ensures Stays(o, CleanupFailed(o))
  {
    hide FailQueued, WorkersInv;
    FailQueuedIs(o.(cleanup := Some(o.cleanup.value.(failed := true, reply := None, takeover := None)), ownership := Uncertain), NotSent(Busy));
  }

  /** From the closed session's state `m` on, `Resume` can only start an attempt. */
  lemma ClosedMoves(o: Owner, m: Owner, r: Owner, c: Command)
    requires o.cleanup.Some? && o.generation.None? && o.attempt.None? && c.CleanupDone? && c.closed && c.generation == o.cleanup.value.generation
    requires m.cleanup.None? && m.generation.None? && m.attempt.None? && m.validation == o.validation && m.nextGeneration == o.nextGeneration
    requires m.unwatched <= o.unwatched + {c.generation}
    requires r.validation == m.validation && r.cleanup.None? && r.generation.None? && r.unwatched == m.unwatched && r.nextGeneration >= m.nextGeneration
    requires r.attempt.Some? ==> r.nextGeneration > m.nextGeneration
    requires r.attempt.Some? ==> r.attempt.value.takeover == o.cleanup.value.takeover || r.attempt.value.takeover.None?
    ensures Moves(o, r, c)
  {
  }

  lemma CleanupDoneMoves(o: Owner, g: nat, closed: bool, recognized: bool, permitTakeover: bool, permitQueue: bool)
    requires OwnerInv(o) && Awaited(o, CloseSession(g))
    ensures Moves(o, DoCleanupDone(o, g, closed, recognized, permitTakeover, permitQueue), CleanupDone(g, closed, recognized, permitTakeover, permitQueue))
    ensures Stays(o, DoCleanupDone(o, g, closed, recognized, permitTakeover, permitQueue))
  {
    hide WorkersInv, Resume, CleanupFailed, Moves, Stays, AttemptInv, GenerationInv, CleanupInv, OwnershipInv;
    if closed {
      var m, r := Closed(o, recognized), DoCleanupDone(o, g, closed, recognized, permitTakeover, permitQueue);
      assert m.cleanup.None? && m.generation.None? && m.attempt.None?;
      ResumeMatters(m, o.cleanup.value.takeover, permitTakeover, permitQueue);
      ClosedMoves(o, m, r, CleanupDone(g, closed, recognized, permitTakeover, permitQueue));
      SameStays(o, m, r);
    } else {
      CleanupFailedMoves(o, g, recognized, permitTakeover, permitQueue);
    }
  }

  lemma SameStays(o: Owner, m: Owner, r: Owner)
    requires Stays(m, r) && m.workers == o.workers && m.finished == o.finished
    ensures Stays(o, r)
  {
  }

  lemma ReleaseNowSessions(o: Owner, reply: nat)
    requires OneAtATime(o)
    ensures var r := ReleaseNow(o, reply);
            SessionHeld(r) == SessionHeld(o) && (r.generation.Some? ==> r.generation == o.generation) && Ages(o, r, Release(reply, false)) && Stays(o, r)
  {
  }

  lemma ReleaseSessions(o: Owner, reply: nat, demand: bool)
    requires PhaseInv(o)
    ensures var r := DoRelease(o, reply, demand);
            (&& SessionHeld(r) == SessionHeld(o) && (r.generation.Some? ==> r.generation == o.generation)
             && Ages(o, r, Release(reply, demand)) && Stays(o, r))
  {
    ReleaseNowSessions(o, reply);
    hide PhaseInv, ReleaseNow;
  }

  lemma ReleaseClaims(o: Owner, reply: nat, demand: bool, caller: nat)
    requires PhaseInv(o) && HasClaim(DoRelease(o, reply, demand), caller)
    ensures HasClaim(o, caller) || caller == reply
  {
  }

  lemma ReleaseMoves(o: Owner, reply: nat, demand: bool)
    requires PhaseInv(o)
    ensures Moves(o, DoRelease(o, reply, demand), Release(reply, demand))
    ensures Stays(o, DoRelease(o, reply, demand))
  {
    hide DoRelease, PhaseInv, HasClaim, SessionHeld, Ages, Stays;
    ReleaseSessions(o, reply, demand);
    forall caller: nat | HasClaim(DoRelease(o, reply, demand), caller)
      ensures HasClaim(o, caller) || caller == reply
    {
      ReleaseClaims(o, reply, demand, caller);
    }
  }

  lemma TakeOverNowHolds(o: Owner, reply: nat, permit: bool)
    ensures var r := TakeOverNow(o, reply, permit);
            SessionHeld(r) == SessionHeld(o) && r.generation == o.generation
  {
    StartAttemptIs(o, Some(reply), permit);
    hide StartAttempt;
  }

  lemma TakeOverNowAges(o: Owner, reply: nat, permit: bool)
    ensures var r := TakeOverNow(o, reply, permit);
            Ages(o, r, TakeOver(reply, false, permit)) && Stays(o, r)
  {
    StartAttemptIs(o, Some(reply), permit);
    hide StartAttempt;
  }

  lemma TakeOverSessions(o: Owner, reply: nat, demand: bool, permit: bool)
    requires PhaseInv(o)
    ensures var r := DoTakeOver(o, reply, demand, permit);
            SessionHeld(r) == SessionHeld(o) && r.generation == o.generation && Ages(o, r, TakeOver(reply, demand, permit)) && Stays(o, r)
  {
    TakeOverNowHolds(o, reply, permit);
    TakeOverNowAges(o, reply, permit);
    hide PhaseInv, TakeOverNow;
  }

  lemma TakeOverClaims(o: Owner, reply: nat, demand: bool, permit: bool, caller: nat)
    requires PhaseInv(o) && HasClaim(DoTakeOver(o, reply, demand, permit), caller)
    ensures HasClaim(o, caller) || caller == reply
  {
  }

  lemma TakeOverMoves(o: Owner, reply: nat, demand: bool, permit: bool)
    requires PhaseInv(o)
    ensures Moves(o, DoTakeOver(o, reply, demand, permit), TakeOver(reply, demand, permit))
    ensures Stays(o, DoTakeOver(o, reply, demand, permit))
  {
    hide DoTakeOver, PhaseInv, HasClaim, SessionHeld, Ages, Stays;
    TakeOverSessions(o, reply, demand, permit);
    forall caller: nat | HasClaim(DoTakeOver(o, reply, demand, permit), caller)
      ensures HasClaim(o, caller) || caller == reply
    {
      TakeOverClaims(o, reply, demand, permit, caller);
    }
  }

  lemma ValidationDoneMoves(o: Owner, g: nat, failed: bool, lost: bool, demand: bool)
    requires PhaseInv(o)
    ensures Moves(o, DoValidationDone(o, g, failed, lost, demand), ValidationDone(g, failed, lost, demand))
    ensures Stays(o, DoValidationDone(o, g, failed, lost, demand))
  {
  }

  lemma IdleSessions(o: Owner, g: nat, demand: bool)
    requires PhaseInv(o)
    ensures var r := DoIdleExpired(o, g, demand);
            SessionHeld(r) == SessionHeld(o) && (r.generation.Some? ==> r.generation == o.generation) && Ages(o, r, IdleExpired(g, demand))
    ensures Stays(o, DoIdleExpired(o, g, demand))
  {
  }

  lemma IdleClaims(o: Owner, g: nat, demand: bool, caller: nat)
    requires PhaseInv(o) && HasClaim(DoIdleExpired(o, g, demand), caller)
    ensures HasClaim(o, caller)
  {
  }

  lemma IdleMoves(o: Owner, g: nat, demand: bool)
    requires PhaseInv(o)
    ensures Moves(o, DoIdleExpired(o, g, demand), IdleExpired(g, demand))
    ensures Stays(o, DoIdleExpired(o, g, demand))
  {
    hide DoIdleExpired, PhaseInv, HasClaim, SessionHeld, Ages;
    IdleSessions(o, g, demand);
    forall caller: nat | HasClaim(DoIdleExpired(o, g, demand), caller)
      ensures HasClaim(o, caller)
    {
      IdleClaims(o, g, demand, caller);
    }
  }

  lemma DemandMoves(o: Owner, demand: bool)
    ensures Moves(o, ScheduleIdle(o, demand), DemandChanged(demand))
    ensures Stays(o, ScheduleIdle(o, demand))
  {
    MattersMove(o, ScheduleIdle(o, demand), DemandChanged(demand));
    hide Moves;
  }

  lemma StopMoves(o: Owner, reply: nat)
    requires OwnerInv(o)
    ensures Moves(o, DoStop(o, reply), Stop(reply))
    ensures Stays(o, DoStop(o, reply))
  {
    hide CancelAll, FailQueued, WorkersInv;
    StopQueueIs(o);
  }

  lemma CancelMoves(o: Owner, worker: nat)
    ensures Moves(o, DoCancel(o, worker), Cancel(worker))
    ensures Stays(o, DoCancel(o, worker))
  {
    hide Without;
  }

  lemma HandleMoves(o: Owner, c: Command)
    requires OwnerInv(o)
    requires forall t: Task | Completes(c, t) && !t.Ping? :: Awaited(o, t)
    ensures Moves(o, Handle(o, c), c)
    ensures !c.Register? ==> Stays(o, Handle(o, c))
  {
    hide WorkersInv, PhaseInv, Moves, Stays, Awaited, DoRegister, DoCancel, DoAttemptDone, DoWorkerDone, DoGenerationEnded, DoTakeoverRecognized, DoCleanupDone, DoStop, DoIdleExpired, DoRelease, DoTakeOver, DoValidationDone, ScheduleIdle;
    match c
    case Register(permit, untilTaken, expired) => RegisterMoves(o, permit, untilTaken, expired);
    case Cancel(worker) => CancelMoves(o, worker);
    case AttemptDone(g, connection, expired, untilTaken, expiredLater, demand) =>
      assert Completes(c, Connect(g));
      AttemptDoneMoves(o, g, connection, expired, untilTaken, expiredLater, demand);
    case WorkerDone(done, g, untilTaken, expired, demand) =>
      assert Completes(c, Operate(done, g));
      WorkerDoneMoves(o, done, g, untilTaken, expired, demand);
    case GenerationEnded(g, recognized) => GenerationEndedMoves(o, g, recognized);
    case TakeoverRecognized(g) => TakeoverRecognizedMoves(o, g);
    case IdleExpired(g, demand) => IdleMoves(o, g, demand);
    case DemandChanged(demand) => DemandMoves(o, demand);
    case CleanupDone(g, closed, recognized, permitTakeover, permitQueue) =>
      assert Completes(c, CloseSession(g));
      CleanupDoneMoves(o, g, closed, recognized, permitTakeover, permitQueue);
    case Release(reply, demand) => ReleaseMoves(o, reply, demand);
    case TakeOver(reply, demand, permit) => TakeOverMoves(o, reply, demand, permit);
    case ValidationDone(g, failed, lost, demand) => ValidationDoneMoves(o, g, failed, lost, demand);
    case Stop(reply) => StopMoves(o, reply);
  }

  lemma FinishMatters(o: Owner)
    ensures SameMatters(o, FinishIfStopped(o)) && FinishIfStopped(o).workers == o.workers && FinishIfStopped(o).queue == o.queue && FinishIfStopped(o).acks == o.acks
  {
    AnswerAllIs(o, o.stopWaiters, if o.cleanup.Some? then Failed(CloseError) else Success);
    hide AnswerAll;
  }

  lemma TurnMoves(o: Owner, c: Command)
    requires OwnerInv(o) && !o.finished
    requires forall t: Task | Completes(c, t) && !t.Ping? :: Awaited(o, t)
    ensures Moves(o, Turn(o, c), c)
    ensures !c.Register? ==> Turn(o, c).workers.Keys <= o.workers.Keys
  {
    hide OwnerInv, Handle, FinishIfStopped, Awaited, Completes;
    HandleMoves(o, c);
    FinishMatters(Handle(o, c));
  }

  // ---- Nobody is left behind in the queue ----

  /** A queue is only left behind when something under way will deal with it. */
  predicate Tidy(o: Owner, recognized: set<nat>) {
    o.queue != [] ==>
      || o.attempt.Some?
      || (o.cleanup.Some? && !o.cleanup.value.failed && o.cleanup.value.target == Idle)
      || (o.generation.Some? && o.generation.value in recognized)
  }

  /** While a release or takeover is under way there are no workers. */
  predicate Exclusive(o: Owner) {
    Claimed(o) ==> o.workers == map[]
  }

  /** The dispatch loop stops early only at a recognised takeover. */
  predicate Drains(o: Owner, g: Option<nat>, untilTaken: nat, recognized: set<nat>) {
    untilTaken > |o.queue| || (g.Some? && g.value in recognized)
  }

  /** What the environment may hand to the loop in a command. */
  predicate Honest(o: Owner, c: Command, recognized: set<nat>) {
    match c
    case Register(_, untilTaken, _) => Drains(o, o.generation, untilTaken, recognized)
    case AttemptDone(g, _, _, untilTaken, _, _) => Drains(o, Some(g), untilTaken, recognized)
    case WorkerDone(_, _, untilTaken, _, _) => Drains(o, o.generation, untilTaken, recognized)
    case _ => true
  }

  lemma QueuedAreWorkers(o: Owner)
    requires WorkersInv(o) && o.workers == map[]
    ensures o.queue == []
  {
    QueueHead(o);
  }

  lemma QueueHead(o: Owner)
    requires WorkersInv(o)
    ensures o.queue != [] ==> o.queue[0] in o.workers
  {
    if o.queue != [] {
      assert o.queue[0] in o.queue;
    }
  }

  lemma RegisterTidy(o: Owner, permit: bool, untilTaken: nat, expired: set<nat>, recognized: set<nat>)
    requires OwnerInv(o) && Tidy(o, recognized) && !Claimed(o) && Drains(o, o.generation, untilTaken, recognized)
    ensures Tidy(DoRegister(o, permit, untilTaken, expired), recognized)
  {
    hide WorkersInv, StartNext, Refusal;
    if Admits(o) {
      EnterIs(o, permit);
      var id := o.nextWorker + 1;
      var (o2, err) := Enter(o, permit);
      if err.None? {
        AckedKeeps(o2, Accepted(id));
        StartNextIs(Acked(o2, Accepted(id)), untilTaken, expired);
      } else {
        assert o.queue == [];
        assert Without([id], id) == [];
      }
    }
  }

  lemma AttemptDoneTidy(o: Owner, g: nat, connection: Connection, expired: set<nat>, untilTaken: nat, expiredLater: set<nat>, demand: bool, recognized: set<nat>)
    requires OwnerInv(o) && Awaited(o, Connect(g)) && Drains(o, Some(g), untilTaken, recognized)
    ensures Tidy(DoAttemptDone(o, g, connection, expired, untilTaken, expiredLater, demand), recognized)
  {
    hide SettleCanceled, FilterQueue, WorkersInv, StartNext, FailQueued;
    var takeover := o.attempt.value.takeover;
    AfterAttemptIs(o, expired);
    AfterAttemptQueue(o, expired);
    AfterAttemptShorter(o, expired);
    var o2 := AfterAttempt(o, expired);
    FailQueuedIs(o2, Failed(AttemptError));
    if connection.Connected? && !o2.stopping && (|o2.queue| != 0 || takeover.Some?) {
      var o3 := Answered(Spawn(o2.(generation := Some(g), ownership := Active), Watch(g)), takeover, Success);
      WorkersFrame(o2, o3);
      StartNextIs(o3, untilTaken, expiredLater);
    }
  }

  lemma AfterAttemptShorter(o: Owner, expired: set<nat>)
    ensures |AfterAttempt(o, expired).queue| <= |o.queue|
  {
    SettleCanceledIs(o.(attempt := None), o.nextWorker);
    var o1 := SettleCanceled(o.(attempt := None), o.nextWorker);
    FilterShrinks(o1, o1.queue, [], expired);
    hide SettleCanceled, FilterQueue;
  }

  lemma WorkerDoneTidy(o: Owner, done: nat, g: nat, untilTaken: nat, expired: set<nat>, demand: bool, recognized: set<nat>)
    requires OwnerInv(o) && Awaited(o, Operate(done, g)) && Tidy(o, recognized) && Drains(o, o.generation, untilTaken, recognized)
    ensures Tidy(DoWorkerDone(o, done, g, untilTaken, expired, demand), recognized)
  {
    var o1 := Settle(o, done, Own);
    assert OwnerInv(o1);
    hide WorkersInv, StartNext;
    StartNextIs(o1, untilTaken, expired);
    NotStoppingWhenQueued(o1);
  }

  lemma NotStoppingWhenQueued(o: Owner)
    requires OwnerInv(o)
    ensures o.queue != [] ==> !o.stopping
  {
    hide WorkersInv;
  }

  lemma CleanupFailedTidy(o: Owner, taken: set<nat>)
    requires o.cleanup.Some?
    ensures Tidy(CleanupFailed(o), taken)
  {
    hide FailQueued;
    FailQueuedIs(o.(cleanup := Some(o.cleanup.value.(failed := true, reply := None, takeover := None)), ownership := Uncertain), NotSent(Busy));
  }

  lemma CleanupDoneTidy(o: Owner, g: nat, closed: bool, recognized: bool, permitTakeover: bool, permitQueue: bool, taken: set<nat>)
    requires OwnerInv(o) && Awaited(o, CloseSession(g)) && Tidy(o, taken) && Exclusive(o)
    ensures Tidy(DoCleanupDone(o, g, closed, recognized, permitTakeover, permitQueue), taken)
  {
    if o.workers == map[] {
      QueuedAreWorkers(o);
    }
    hide WorkersInv, CleanupFailed, Resume, AttemptInv, GenerationInv;
    if closed {
      var m := Closed(o, recognized);
      assert m.attempt.None? && m.generation.None? && m.cleanup.None? && m.queue == o.queue;
      assert o.queue != [] ==> !Claimed(o) && !o.stopping && o.cleanup.value.target == Idle;
      hide PhaseInv;
      ResumeTidy(m, o.cleanup.value.takeover, permitTakeover, permitQueue, taken);
    } else {
      CleanupFailedTidy(o, taken);
    }
  }

  lemma ResumeTidy(o: Owner, takeover: Option<nat>, permitTakeover: bool, permitQueue: bool, recognized: set<nat>)
    requires o.attempt.None? && o.generation.None? && o.cleanup.None?
    requires o.queue != [] ==> takeover.None? && o.validation.None? && !o.stopping && o.ownership == Idle
    ensures Tidy(Resume(o, takeover, permitTakeover, permitQueue), recognized)
  {
    hide FailQueued;
    if o.queue == [] {
      StartAttemptIs(o, takeover, permitTakeover);
    } else {
      var (o3, failed) := StartAttempt(o, None, permitQueue);
      if failed.Some? {
        FailQueuedIs(o3, failed.value);
      }
    }
  }

  lemma LifecycleTidy(o: Owner, reply: nat, demand: bool, permit: bool, recognized: set<nat>)
    requires PhaseInv(o) && Tidy(o, recognized)
    ensures Tidy(DoRelease(o, reply, demand), recognized) && Tidy(DoTakeOver(o, reply, demand, permit), recognized)
  {
  }

  lemma OtherTidy(o: Owner, g: nat, failed: bool, lost: bool, demand: bool, recognized: set<nat>)
    requires OwnerInv(o) && Tidy(o, recognized) && Exclusive(o)
    ensures Tidy(DoValidationDone(o, g, failed, lost, demand), recognized)
    ensures Tidy(DoIdleExpired(o, g, demand), recognized)
    ensures Tidy(ScheduleIdle(o, demand), recognized)
  {
    if o.workers == map[] {
      QueuedAreWorkers(o);
    }
    hide WorkersInv;
  }

  lemma TerminalTidy(o: Owner, g: nat, recognized: bool, taken: set<nat>)
    requires OwnerInv(o) && Tidy(o, taken)
    ensures Tidy(DoGenerationEnded(o, g, recognized), taken) && Tidy(DoTakeoverRecognized(o, g), taken)
  {
    hide FailQueued, WorkersInv;
    var terminal, cause := if recognized then TakenOver else Uncertain, if recognized then SessionTakenOver else OwnershipUncertain;
    var validated := o.validation.Some? && o.validation.value.generation == g;
    FailQueuedIs(o.(ownership := terminal, validation := if validated then None else o.validation), NotSent(cause));
    FailQueuedIs(o.(ownership := TakenOver,
                    cleanup := if PendingTerminal(o, g) then Some(o.cleanup.value.(target := TakenOver)) else o.cleanup), NotSent(SessionTakenOver));
  }

  lemma QueueTidy(o: Owner, worker: nat, reply: nat, recognized: set<nat>)
    requires OwnerInv(o) && Tidy(o, recognized)
    ensures Tidy(DoCancel(o, worker), recognized) && Tidy(DoStop(o, reply), recognized)
  {
    WithoutIs(o.queue, worker);
    if o.queue == [] {
      assert Without(o.queue, worker) == [];
    }
    hide CancelAll, FailQueued, WorkersInv, Without;
    StopQueueIs(o);
  }

  lemma TurnTidy(o: Owner, c: Command, recognized: set<nat>)
    requires OwnerInv(o) && Tidy(o, recognized) && Exclusive(o) && Honest(o, c, recognized)
    requires c.Register? ==> !Claimed(o)
    requires forall t: Task | Completes(c, t) && !t.Ping? :: Awaited(o, t)
    ensures Tidy(Turn(o, c), recognized)
  {
    hide OwnerInv, Handle, FinishIfStopped, Awaited, Completes, Exclusive, Claimed, Honest;
    if !o.finished {
      HandleTidy(o, c, recognized);
      FinishMatters(Handle(o, c));
    }
  }

  lemma HandleTidy(o: Owner, c: Command, recognized: set<nat>)
    requires OwnerInv(o) && Tidy(o, recognized) && Exclusive(o) && Honest(o, c, recognized)
    requires c.Register? ==> !Claimed(o)
    requires forall t: Task | Completes(c, t) && !t.Ping? :: Awaited(o, t)
    ensures Tidy(Handle(o, c), recognized)
  {
    assert PhaseInv(o);
    hide WorkersInv, PhaseInv, Awaited, Exclusive, Tidy, Claimed, Drains, DoRegister, DoCancel, DoAttemptDone, DoWorkerDone, DoGenerationEnded, DoTakeoverRecognized, DoCleanupDone, DoStop, DoIdleExpired, DoRelease, DoTakeOver, DoValidationDone, ScheduleIdle;
    match c
    case Register(permit, untilTaken, expired) => RegisterTidy(o, permit, untilTaken, expired, recognized);
    case Cancel(worker) => QueueTidy(o, worker, 0, recognized);
    case AttemptDone(g, connection, expired, untilTaken, expiredLater, demand) =>
      assert Completes(c, Connect(g));
      AttemptDoneTidy(o, g, connection, expired, untilTaken, expiredLater, demand, recognized);
    case WorkerDone(done, g, untilTaken, expired, demand) =>
      assert Completes(c, Operate(done, g));
      WorkerDoneTidy(o, done, g, untilTaken, expired, demand, recognized);
    case GenerationEnded(g, taken) => TerminalTidy(o, g, taken, recognized);
    case TakeoverRecognized(g) => TerminalTidy(o, g, false, recognized);
    case IdleExpired(g, demand) => OtherTidy(o, g, false, false, demand, recognized);
    case DemandChanged(demand) => OtherTidy(o, 0, false, false, demand, recognized);
    case CleanupDone(g, closed, taken, permitTakeover, permitQueue) =>
      assert Completes(c, CloseSession(g));
      CleanupDoneTidy(o, g, closed, taken, permitTakeover, permitQueue, recognized);
    case Release(reply, demand) => LifecycleTidy(o, reply, demand, false, recognized);
    case TakeOver(reply, demand, permit) => LifecycleTidy(o, reply, demand, permit, recognized);
    case ValidationDone(g, failed, lost, demand) => OtherTidy(o, g, failed, lost, demand, recognized);
    case Stop(reply) => QueueTidy(o, 0, reply, recognized);
  }
}
