/** A takeover recognised late wins whatever the order in which the loop learns of it, and exactly when it
    does not. */
module OwnerTakeover {
  import opened Options
  import opened OwnerModel
  import opened OwnerSafety
  import opened OwnerBooks
  import opened OwnerTasks
  import opened OwnerMoves
  import opened OwnerRuns
  import opened OwnerOwnership

  // ---- A takeover recognised late ----

  /** A closed watch channel belongs to a generation that is over. */
  ghost predicate FreshWatch(o: Owner) {
    forall u | u in o.unwatched ::
      u <= o.nextGeneration && (u == o.nextGeneration ==> SessionHeld(o).None? && o.attempt.None?)
  }

  lemma FreshWatchStep(w: World, e: Event)
    requires WorldInv(w) && FreshWatch(w.o) && Possible(w, e)
    ensures FreshWatch(After(w, e).o)
  {
    hide BooksInv, LatchInv, WatchInv, WorkersInv, Tidy, Turn, Honest, AnswerCount, HasClaim, InFlight, FinishedInv;
    if CommandOf(w, e).Some? && !w.o.finished {
      var c := CommandOf(w, e).value;
      NotStale(w, e, c);
      TurnMoves(w.o, c);
      FreshWatchMoves(w.o, Turn(w.o, c), c);
    } else {
      FinishedTurn(w, e);
    }
  }

  lemma FreshWatchMoves(o: Owner, r: Owner, c: Command)
    requires PhaseInv(o) && FreshWatch(o) && Ages(o, r, c) && Sessions(r) == SessionsAfter(o, c)
    requires forall t: Task | Completes(c, t) && !t.Ping? :: Awaited(o, t)
    ensures FreshWatch(r)
  {
    if c.AttemptDone? {
      assert Completes(c, Connect(c.generation));
    } else if c.CleanupDone? {
      assert Completes(c, CloseSession(c.generation));
    }
    assert SessionHeld(r).Some? ==> SessionHeld(r).value in Sessions(r);
    hide GenerationInv, OwnershipInv, Completes;
  }

  lemma {:induction false} LiveSessionIsWatched(ownership: Ownership, events: seq<Event>)
    requires ownership != Active && ownership != Stopped && IsRun(ownership, events)
    ensures FreshWatch(Run(ownership, events).o)
    decreases |events|
  {
    hide After, Possible, WorldInv, FreshWatch;
    if events == [] {
      NoWatchYet(ownership);
    } else {
      var before := events[..|events| - 1];
      EveryRun(ownership, before);
      LiveSessionIsWatched(ownership, before);
      FreshWatchStep(Run(ownership, before), events[|events| - 1]);
    }
  }

  lemma NoWatchYet(ownership: Ownership)
    ensures FreshWatch(NewWorld(ownership).o)
  {
  }

  /** No release, takeover or stop, and closing succeeds. */
  predicate Mild(e: Event) {
    && !e.SendRelease? && !e.SendTakeOver? && !e.Shutdown? && !e.IdleFires?
    && (e.CloseReturns? ==> e.closed)
  }

  /** The idle lease runs out on a generation that is idle. */
  predicate Expires(o: Owner, g: nat, demand: bool) {
    o.generation == Some(g) && |o.workers| == 0 && |o.queue| == 0 && !demand
  }

  /** The lease may fire, but not on an idle generation. */
  predicate Undisturbed(w: World, e: Event) {
    Mild(e) || (e.IdleFires? && !Expires(w.o, e.generation, e.demand))
  }

  /** The ownership the end of the generation left: taken over, or uncertain while a takeover may still be
      reported by the watcher. */
  predicate Ended(w: World, g: nat) {
    w.o.ownership == TakenOver || (w.o.ownership == Uncertain && PhaseIs(w, g, AfterLoss) && g !in w.o.unwatched)
  }

  /** While the session is being closed a takeover recognised already will be seen at the end. */
  predicate CleaningUp(w: World, g: nat) {
    && w.o.cleanup.Some? && w.o.generation.None? && w.o.validation.None?
    && var c := w.o.cleanup.value;
    && c.generation == g && !c.failed && c.reply.None? && c.takeover.None? && c.watched
    && c.target == w.o.ownership && (Ended(w, g) || (w.o.ownership == Uncertain && g in w.recognized))
  }

  /** A validation may find the session lost only once the takeover is recognised. */
  predicate Safe(w: World, g: nat) {
    w.o.validation.None? || g in w.recognized
  }

  /** From the live generation on, all the ways the end of generation `g` can be under way. */
  predicate Converging(w: World, g: nat) {
    && !w.o.stopping && w.o.attempt.None? && w.o.nextGeneration == g
    && (|| (w.o.generation == Some(g) && w.o.cleanup.None? && g !in w.o.unwatched && Safe(w, g))
        || CleaningUp(w, g)
        || (w.o.generation.None? && w.o.cleanup.None? && w.o.validation.None? && Ended(w, g)))
  }

  /** Nothing changes but workers, queue, replies and started operations. */
  predicate Calm(o: Owner, r: Owner) {
    SameMatters(o, r) && r.ownership == o.ownership && r.stopping == o.stopping
  }

  predicate Settled(o: Owner) {
    o.attempt.None? && (o.generation.Some? || o.ownership == TakenOver || o.ownership == Uncertain)
  }

  lemma RegisterCalm(o: Owner, permit: bool, untilTaken: nat, expired: set<nat>, worker: nat)
    requires OwnerInv(o) && Settled(o)
    ensures Calm(o, DoRegister(o, permit, untilTaken, expired)) && Calm(o, DoCancel(o, worker))
  {
    hide WorkersInv, StartNext, Without, Refusal, GenerationInv, CleanupInv;
    if Admits(o) {
      EnterIs(o, permit);
      var (o2, err) := Enter(o, permit);
      AckedKeeps(o2, Accepted(o.nextWorker + 1));
      StartNextIs(Acked(o2, Accepted(o.nextWorker + 1)), untilTaken, expired);
    }
  }

  lemma WorkerDoneCalm(o: Owner, done: nat, g: nat, untilTaken: nat, expired: set<nat>, demand: bool)
    requires OwnerInv(o) && Awaited(o, Operate(done, g))
    ensures Calm(o, DoWorkerDone(o, done, g, untilTaken, expired, demand))
  {
    var o1 := Settle(o, done, Own);
    assert OwnerInv(o1);
    hide OwnerInv, StartNext;
    StartNextIs(o1, untilTaken, expired);
  }

  lemma ElsewhereCalm(o: Owner, g: nat, h: nat, recognized: bool, x: nat, failed: bool, lost: bool, demand: bool)
    requires Settled(o) && o.nextGeneration == g && h != g
    requires o.generation.Some? ==> o.generation.value == g
    requires o.cleanup.Some? ==> o.cleanup.value.generation == g
    requires o.validation.Some? ==> x != o.validation.value.generation
    ensures Calm(o, DoGenerationEnded(o, h, recognized)) && Calm(o, DoTakeoverRecognized(o, h))
    ensures Calm(o, DoValidationDone(o, x, failed, lost, demand)) && Calm(o, ScheduleIdle(o, demand))
  {
  }

  /** Every undisturbed event that does not concern the end of `g`. */
  lemma HandleCalm(o: Owner, c: Command, g: nat)
    requires OwnerInv(o) && Settled(o) && o.nextGeneration == g
    requires o.generation.Some? ==> o.generation.value == g
    requires o.cleanup.Some? ==> o.cleanup.value.generation == g
    requires forall t: Task | Completes(c, t) && !t.Ping? :: Awaited(o, t)
    requires !c.Release? && !c.TakeOver? && !c.Stop? && !c.CleanupDone? && !c.AttemptDone?
    requires c.IdleExpired? ==> !Expires(o, c.generation, c.demand)
    requires (c.GenerationEnded? || c.TakeoverRecognized?) ==> c.generation != g
    requires c.ValidationDone? && o.validation.Some? ==> c.generation != o.validation.value.generation
    ensures Calm(o, Handle(o, c))
  {
    hide WorkersInv, PhaseInv, Calm, DoRegister, DoCancel, DoWorkerDone, DoGenerationEnded, DoTakeoverRecognized, DoValidationDone, DoIdleExpired, ScheduleIdle;
    var x := if o.validation.Some? then o.validation.value.generation + 1 else 0;
    match c
    case Register(permit, untilTaken, expired) => RegisterCalm(o, permit, untilTaken, expired, 0);
    case Cancel(worker) => RegisterCalm(o, false, 0, {}, worker);
    case WorkerDone(done, h, untilTaken, expired, demand) =>
      assert Completes(c, Operate(done, h));
      WorkerDoneCalm(o, done, h, untilTaken, expired, demand);
    case GenerationEnded(h, recognized) => ElsewhereCalm(o, g, h, recognized, x, false, false, false);
    case TakeoverRecognized(h) => ElsewhereCalm(o, g, h, false, x, false, false, false);
    case IdleExpired(h, demand) => IdleCalm(o, h, demand);
    case DemandChanged(demand) => ElsewhereCalm(o, g, g + 1, false, x, false, false, demand);
    case ValidationDone(h, failed, lost, demand) => ElsewhereCalm(o, g, g + 1, false, h, failed, lost, demand);
    case _ =>
  }

  lemma IdleCalm(o: Owner, g: nat, demand: bool)
    requires !Expires(o, g, demand)
    ensures Calm(o, DoIdleExpired(o, g, demand))
  {
  }

  /** The event concerns the end of generation `g`. */
  predicate Concerns(e: Event, g: nat) {
    (e.WatchSignaled? || e.WatchLost? || e.WatchLate? || e.CloseReturns?) && e.generation == g
  }

  lemma NoAttempt(w: World, e: Event)
    requires TasksInv(w) && w.o.attempt.None? && Possible(w, e)
    ensures !e.AttemptReturns?
  {
    if e.AttemptReturns? {
      InFlightIsAwaited(w, Connect(e.generation));
    }
    hide TasksInv, InFlight;
  }

  lemma OwnCleanup(w: World, e: Event, g: nat)
    requires TasksInv(w) && Possible(w, e) && e.CloseReturns?
    requires w.o.cleanup.Some? ==> w.o.cleanup.value.generation == g
    ensures e.generation == g && w.o.cleanup.Some? && !w.o.cleanup.value.failed
  {
    InFlightIsAwaited(w, CloseSession(e.generation));
    hide TasksInv, InFlight;
  }

  /** The validation in flight comes to its end. */
  predicate Validates(w: World, e: Event) {
    e.PingReturns? && w.o.validation.Some? && e.generation == w.o.validation.value.generation
  }

  /** An event that is none of the generation's own leaves the convergence as it is. */
  lemma CalmStep(w: World, e: Event, g: nat)
    requires WorldInv(w) && Converging(w, g) && Possible(w, e) && Undisturbed(w, e) && !Concerns(e, g) && !Validates(w, e)
    ensures Calm(w.o, OwnerAfter(w, e))
  {
    NoAttempt(w, e);
    if e.CloseReturns? {
      OwnCleanup(w, e, g);
    }
    OwnerParts(w);
    ConvergingSettled(w, g);
    hide WorldInv, OwnerInv, Possible, Handle, FinishIfStopped, Converging, Settled, Honest;
    if CommandOf(w, e).Some? && !w.o.finished {
      var c := CommandOf(w, e).value;
      NotStale(w, e, c);
      HandleCalm(w.o, c, g);
      FinishBarred(Handle(w.o, c));
      FinishStops(Handle(w.o, c));
    }
  }

  lemma FinishStops(o: Owner)
    ensures FinishIfStopped(o).stopping == o.stopping
  {
    AnswerAllIs(o, o.stopWaiters, if o.cleanup.Some? then Failed(CloseError) else Success);
    hide AnswerAll;
  }

  lemma OwnerParts(w: World)
    requires WorldInv(w)
    ensures OwnerInv(w.o) && TasksInv(w) && FinishedInv(w.o) && WatchInv(w) && w.open == Sessions(w.o)
  {
    hide OwnerInv, TasksInv, FinishedInv, WatchInv, BooksInv, LatchInv, Tidy, Sessions;
  }

  lemma ConvergingSettled(w: World, g: nat)
    requires Converging(w, g)
    ensures Settled(w.o) && w.o.nextGeneration == g
    ensures w.o.generation.Some? ==> w.o.generation.value == g
    ensures w.o.cleanup.Some? ==> w.o.cleanup.value.generation == g
  {
  }

  /** The end of the generation: taken over, or uncertain with the watcher still there. */
  lemma EndStep(w: World, e: Event, g: nat)
    requires OwnerInv(w.o) && WatchInv(w) && Converging(w, g) && w.o.generation == Some(g) && Possible(w, e)
    requires (e.WatchSignaled? || e.WatchLost?) && e.generation == g && !w.o.finished
    ensures Converging(After(w, e), g)
  {
    var recognized := g in w.recognized;
    var r := OwnerAfter(w, e);
    EndedOwner(w.o, g, recognized, if recognized then TakenOver else Uncertain);
    EndedPhase(w, e, g);
    assert r == FinishIfStopped(DoGenerationEnded(w.o, g, recognized));
    hide OwnerAfter, OwnerInv, Possible, FinishIfStopped, DoGenerationEnded, WatchInv, WatchAfter, PhaseIs;
  }

  lemma EndedOwner(o: Owner, g: nat, recognized: bool, terminal: Ownership)
    requires PhaseInv(o) && o.generation == Some(g) && o.cleanup.None? && o.attempt.None? && !o.stopping
    requires terminal == if recognized then TakenOver else Uncertain
    ensures var r := FinishIfStopped(DoGenerationEnded(o, g, recognized));
            (&& !r.stopping && r.attempt.None? && r.validation.None? && r.generation.None? && r.nextGeneration == o.nextGeneration
             && r.ownership == terminal && r.cleanup == Some(Cleanup(g, terminal, false, None, None, true)) && r.unwatched == o.unwatched)
  {
    hide FailQueued, FinishIfStopped;
    var cause := if recognized then SessionTakenOver else OwnershipUncertain;
    FailQueuedIs(o.(ownership := terminal, validation := None), NotSent(cause));
    FinishBarred(DoGenerationEnded(o, g, recognized));
    FinishStops(DoGenerationEnded(o, g, recognized));
  }

  lemma EndedPhase(w: World, e: Event, g: nat)
    requires Possible(w, e) && (e.WatchSignaled? || e.WatchLost?) && e.generation == g && WatchInv(w)
    ensures PhaseIs(After(w, e), g, if e.WatchSignaled? then Over else AfterLoss)
    ensures e.WatchSignaled? ==> g in w.recognized
  {
    hide OwnerAfter, Honest;
  }

  /** The end of a validation while the takeover is recognised. */
  lemma ValidatedStep(w: World, e: Event, g: nat)
    requires OwnerInv(w.o) && Converging(w, g) && Possible(w, e) && Validates(w, e) && !w.o.finished
    ensures Converging(After(w, e), g)
  {
    var o := DoValidationDone(w.o, e.generation, e.failed, e.generation in w.lost, e.demand);
    ValidatedOwner(w.o, g, e.failed, e.generation in w.lost, e.demand);
    assert OwnerAfter(w, e) == FinishIfStopped(o);
    hide OwnerAfter, OwnerInv, Possible, FinishIfStopped, DoValidationDone, PhaseIs;
  }

  lemma ValidatedOwner(o: Owner, g: nat, failed: bool, lost: bool, demand: bool)
    requires PhaseInv(o) && o.generation == Some(g) && o.validation.Some? && o.cleanup.None? && o.attempt.None? && !o.stopping
    ensures var r := FinishIfStopped(DoValidationDone(o, o.validation.value.generation, failed, lost, demand));
            (&& o.validation.value.generation == g
             && !r.stopping && r.attempt.None? && r.validation.None? && r.nextGeneration == o.nextGeneration && r.unwatched == o.unwatched
             && (if lost then r.generation.None? && r.ownership == Uncertain && r.cleanup == Some(Cleanup(g, Uncertain, false, None, None, true))
                 else r.generation == Some(g) && r.cleanup.None?))
  {
    hide FinishIfStopped;
    var r := DoValidationDone(o, o.validation.value.generation, failed, lost, demand);
    FinishBarred(r);
    FinishStops(r);
  }

  lemma LateStep(w: World, e: Event, g: nat)
    requires OwnerInv(w.o) && Converging(w, g) && w.o.generation.None? && e == WatchLate(g) && !w.o.finished
    ensures Converging(After(w, e), g)
  {
    hide OwnerInv, FailQueued, FinishIfStopped;
    var o := DoTakeoverRecognized(w.o, g);
    FailQueuedIs(w.o.(ownership := TakenOver,
                      cleanup := if PendingTerminal(w.o, g) then Some(w.o.cleanup.value.(target := TakenOver)) else w.o.cleanup), NotSent(SessionTakenOver));
    FinishBarred(o);
    FinishStops(o);
    assert OwnerAfter(w, e) == FinishIfStopped(o);
    hide OwnerAfter;
  }

  lemma CloseStep(w: World, e: Event, g: nat)
    requires OwnerInv(w.o) && CleaningUp(w, g) && Converging(w, g) && e.CloseReturns? && e.generation == g && e.closed && !w.o.finished
    ensures Converging(After(w, e), g)
  {
    hide OwnerInv, FinishIfStopped, FailQueued;
    var m := Closed(w.o, g in w.recognized);
    var o := Resume(m, None, e.permitTakeover, e.permitQueue);
    assert o == m;
    FinishBarred(o);
    FinishStops(o);
    assert OwnerAfter(w, e) == FinishIfStopped(o);
    hide OwnerAfter, Resume;
  }

  lemma NotFinished(w: World)
    requires WorldInv(w) && !w.o.stopping
    ensures !w.o.finished
  {
    hide WorkersInv, BooksInv, TasksInv, LatchInv, WatchInv, Tidy;
  }

  lemma StepConverges(w: World, e: Event, g: nat)
    requires WorldInv(w) && Converging(w, g) && Possible(w, e) && Undisturbed(w, e)
    ensures Converging(After(w, e), g)
  {
    NotFinished(w);
    OwnerParts(w);
    if Concerns(e, g) {
      if e.CloseReturns? {
        OwnCleanup(w, e, g);
        CloseStep(w, e, g);
      } else if e.WatchLate? {
        LateStep(w, e, g) by {
          LateIsAfter(w, e, g);
        }
      } else if w.o.generation == Some(g) {
        EndStep(w, e, g);
      } else {
        EndedTwice(w, e, g);
      }
    } else if Validates(w, e) {
      ValidatedStep(w, e, g);
    } else {
      CalmStep(w, e, g);
      CalmConverges(w, e, g);
    }
  }

  lemma LateIsAfter(w: World, e: Event, g: nat)
    requires WatchInv(w) && Possible(w, e) && e == WatchLate(g)
    ensures w.o.generation != Some(g)
  {
    hide Honest, InFlight;
  }

  /** The watcher's first report after the generation has ended otherwise: nothing is waiting for it. */
  lemma EndedTwice(w: World, e: Event, g: nat)
    requires Converging(w, g) && Possible(w, e) && w.o.generation != Some(g)
    requires (e.WatchSignaled? || e.WatchLost?) && e.generation == g && !w.o.finished
    ensures Converging(After(w, e), g)
  {
    hide FinishIfStopped, Honest;
    assert w.o.generation.None?;
    FinishBarred(w.o);
    FinishStops(w.o);
    assert OwnerAfter(w, e) == FinishIfStopped(w.o);
    assert !PhaseIs(w, g, AfterLoss);
    hide OwnerAfter;
  }

  lemma CalmConverges(w: World, e: Event, g: nat)
    requires Converging(w, g) && Possible(w, e) && !Concerns(e, g) && Calm(w.o, OwnerAfter(w, e)) && !w.o.finished && !e.AttemptReturns?
    ensures Converging(After(w, e), g)
  {
    hide OwnerAfter, Honest, InFlight, AnswerCount, CommandOf, TaskOf;
    if g !in w.o.unwatched {
      WatchCalm(w, e, g);
    }
  }

  lemma WatchCalm(w: World, e: Event, g: nat)
    requires Possible(w, e) && !Concerns(e, g) && !e.AttemptReturns? && g !in w.o.unwatched && !w.o.finished
    ensures PhaseIs(w, g, AfterLoss) ==> PhaseIs(After(w, e), g, AfterLoss)
  {
    hide OwnerAfter, Honest, InFlight, AnswerCount, CommandOf, TaskOf;
  }

  /** What is left to happen to generation `g`: its end, its cleanup, its watcher's reports. */
  function Remaining(w: World, g: nat): nat {
    (if w.o.generation == Some(g) then 2 else if w.o.cleanup.Some? then 1 else 0)
    + (if PhaseIs(w, g, Watching) then 2 else if PhaseIs(w, g, AfterLoss) then 1 else 0)
  }

  /** As long as the takeover has not been taken in, something that concerns it can happen. */
  lemma QuiescentIsTakenOver(w: World, g: nat)
    requires WorldInv(w) && Converging(w, g) && g in w.signaled
    requires !Possible(w, WatchSignaled(g)) && !Possible(w, WatchLate(g)) && !Possible(w, CloseReturns(g, true, false, false))
    ensures w.o.ownership == TakenOver && w.o.cleanup.None?
  {
    OwnerParts(w);
    InFlightIsAwaited(w, CloseSession(g));
    hide WorldInv, OwnerInv, TasksInv, InFlight;
  }

  predicate UndisturbedRun(w: World, events: seq<Event>)
    decreases |events|
  {
    events == [] || (UndisturbedRun(w, events[..|events| - 1]) && Undisturbed(RunFrom(w, events[..|events| - 1]), events[|events| - 1]))
  }

  lemma {:induction false} ConvergesOn(w: World, events: seq<Event>, g: nat)
    requires WorldInv(w) && Converging(w, g) && IsRunFrom(w, events) && UndisturbedRun(w, events)
    ensures WorldInv(RunFrom(w, events)) && Converging(RunFrom(w, events), g)
    decreases |events|
  {
    hide WorldInv, Converging, After, Possible, Undisturbed;
    if events != [] {
      var before, e := events[..|events| - 1], events[|events| - 1];
      assert events == before + [e];
      ConvergesOn(w, before, g);
      StepConverges(RunFrom(w, before), e, g);
      StepKeeps(RunFrom(w, before), e);
    }
  }

  /** Nothing that concerns the generation is left to happen. */
  ghost predicate Quiet(w: World, g: nat) {
    forall e: Event | Concerns(e, g) :: !Possible(w, e)
  }

  /** In whatever order the loss of the session, the recognition of the takeover, the end of a validation
      and the end of the cleanup reach the loop, once the takeover has been signalled and nothing that
      concerns the generation is left to happen, the owner is TakenOver. */
  ghost predicate Wins(w: World, g: nat) {
    forall later: seq<Event> | IsRunFrom(w, later) && UndisturbedRun(w, later) && g in RunFrom(w, later).signaled && Quiet(RunFrom(w, later), g) ::
      RunFrom(w, later).o.ownership == TakenOver
  }

  /** Late-takeover confluence: from a live generation of any run, with no release, takeover or stop and no
      lease running out on an idle generation in between, and closing succeeding, the takeover wins whatever
      the order exactly when no validation is in flight or the takeover has been recognised already. */
  lemma LateTakeoverWinsIff(ownership: Ownership, events: seq<Event>, g: nat)
    requires ownership != Active && ownership != Stopped && IsRun(ownership, events)
    requires Run(ownership, events).o.generation == Some(g)
    ensures var w := Run(ownership, events); Wins(w, g) <==> Safe(w, g)
  {
    hide After, Possible, Run, IsRun, Wins;
    var w := Run(ownership, events);
    EveryRun(ownership, events);
    LiveSessionIsWatched(ownership, events);
    if Safe(w, g) {
      LiveConverges(w, g);
      ConvergingWins(w, g);
    } else {
      ValidationHidesTakeover(w, g);
    }
    hide WorldInv, Converging;
  }

  lemma ConvergingWins(w: World, g: nat)
    requires WorldInv(w) && Converging(w, g)
    ensures Wins(w, g)
  {
    hide WorldInv, Converging, RunFrom, IsRunFrom, UndisturbedRun, Possible;
    forall later: seq<Event> | IsRunFrom(w, later) && UndisturbedRun(w, later) && g in RunFrom(w, later).signaled && Quiet(RunFrom(w, later), g)
      ensures RunFrom(w, later).o.ownership == TakenOver
    {
      LateTakeoverWins(w, later, g);
    }
  }

  /** Step by step: ownership is active, uncertain or taken over, and in the end taken over. */
  lemma LateTakeoverWins(w: World, later: seq<Event>, g: nat)
    requires WorldInv(w) && Converging(w, g) && IsRunFrom(w, later) && UndisturbedRun(w, later)
    ensures var v := RunFrom(w, later);
            (&& (v.o.ownership == Active || v.o.ownership == Uncertain || v.o.ownership == TakenOver)
             && (g in v.signaled && Quiet(v, g) ==> v.o.ownership == TakenOver && v.o.cleanup.None?))
  {
    hide After, Possible, UndisturbedRun, IsRunFrom, RunFrom, WorldInv, Converging;
    ConvergesOn(w, later, g);
    var v := RunFrom(w, later);
    if g in v.signaled && Quiet(v, g) {
      assert Concerns(WatchSignaled(g), g) && Concerns(WatchLate(g), g) && Concerns(CloseReturns(g, true, false, false), g);
      QuiescentIsTakenOver(v, g);
    }
    OwnershipWhileConverging(v, g);
  }

  lemma OwnershipWhileConverging(w: World, g: nat)
    requires WorldInv(w) && Converging(w, g)
    ensures w.o.ownership == Active || w.o.ownership == Uncertain || w.o.ownership == TakenOver
  {
    ParkedParts(w);
    hide WorldInv;
  }

  lemma LiveConverges(w: World, g: nat)
    requires WorldInv(w) && FreshWatch(w.o) && w.o.generation == Some(g) && Safe(w, g)
    ensures Converging(w, g)
  {
    ParkedParts(w);
    hide WorldInv;
  }

  /** It ends: each event that concerns the generation leaves less to happen, and none leaves more. */
  lemma EndIsNear(w: World, e: Event, g: nat)
    requires WorldInv(w) && Converging(w, g) && Possible(w, e) && Undisturbed(w, e)
    ensures Remaining(After(w, e), g) <= Remaining(w, g) <= 4
    ensures Concerns(e, g) ==> Remaining(After(w, e), g) < Remaining(w, g)
  {
    NotFinished(w);
    OwnerParts(w);
    StepConverges(w, e, g);
    if Concerns(e, g) {
      if e.CloseReturns? {
        OwnCleanup(w, e, g);
        ClosedOver(w, e, g);
      } else {
        WatcherMoves(w, e, g);
      }
    } else if Validates(w, e) {
      ValidatedMoves(w, e, g);
    } else {
      CalmStep(w, e, g);
      PhaseCalm(w, e, g);
    }
    hide WorldInv, Converging, After, Possible;
  }

  lemma ValidatedMoves(w: World, e: Event, g: nat)
    requires OwnerInv(w.o) && Converging(w, g) && Possible(w, e) && Validates(w, e) && !w.o.finished
    ensures Remaining(After(w, e), g) <= Remaining(w, g) <= 4
  {
    var o := DoValidationDone(w.o, e.generation, e.failed, e.generation in w.lost, e.demand);
    ValidatedOwner(w.o, g, e.failed, e.generation in w.lost, e.demand);
    assert OwnerAfter(w, e) == FinishIfStopped(o);
    hide OwnerAfter, OwnerInv, Possible, FinishIfStopped, DoValidationDone;
  }

  lemma PhaseCalm(w: World, e: Event, g: nat)
    requires Possible(w, e) && !Concerns(e, g) && Calm(w.o, OwnerAfter(w, e)) && !e.AttemptReturns?
    ensures Remaining(After(w, e), g) <= Remaining(w, g) <= 4
  {
    hide OwnerAfter, Honest, InFlight, AnswerCount, CommandOf, TaskOf;
  }

  lemma ClosedOver(w: World, e: Event, g: nat)
    requires OwnerInv(w.o) && Converging(w, g) && w.o.cleanup.Some? && e.CloseReturns? && e.generation == g && e.closed && !w.o.finished
    ensures Remaining(After(w, e), g) < Remaining(w, g) <= 4
  {
    hide OwnerInv, FinishIfStopped, FailQueued;
    assert CleaningUp(w, g);
    var o := Resume(Closed(w.o, g in w.recognized), None, e.permitTakeover, e.permitQueue);
    assert o.cleanup.None? && o.generation.None?;
    FinishBarred(o);
    assert OwnerAfter(w, e) == FinishIfStopped(o);
    hide OwnerAfter, Resume, Closed;
  }

  lemma WatcherMoves(w: World, e: Event, g: nat)
    requires OwnerInv(w.o) && WatchInv(w) && TasksInv(w) && FinishedInv(w.o) && w.open == Sessions(w.o) && Converging(w, g) && Possible(w, e) && !w.o.finished
    requires (e.WatchSignaled? || e.WatchLost? || e.WatchLate?) && e.generation == g
    ensures Remaining(After(w, e), g) < Remaining(w, g) <= 4
  {
    ReportOpensNothing(w, e, g);
    PhaseFalls(w, e, g);
    assert After(w, e).o == OwnerAfter(w, e);
    hide OwnerInv, TasksInv, FinishedInv, OwnerAfter, Possible, After, PhaseIs, Converging, WatchInv;
  }

  lemma PhaseFalls(w: World, e: Event, g: nat)
    requires Possible(w, e) && (e.WatchSignaled? || e.WatchLost? || e.WatchLate?) && e.generation == g
    ensures var v := After(w, e);
            (if PhaseIs(w, g, Watching) then !PhaseIs(v, g, Watching)
             else PhaseIs(w, g, AfterLoss) && !PhaseIs(v, g, Watching) && !PhaseIs(v, g, AfterLoss))
  {
    hide OwnerAfter, Honest, InFlight, AnswerCount, CommandOf, TaskOf;
  }

  /** The watcher's reports open nothing. */
  lemma ReportOpensNothing(w: World, e: Event, g: nat)
    requires OwnerInv(w.o) && TasksInv(w) && FinishedInv(w.o) && w.open == Sessions(w.o) && Possible(w, e) && Converging(w, g)
    requires (e.WatchSignaled? || e.WatchLost? || e.WatchLate?) && e.generation == g
    ensures var r := OwnerAfter(w, e);
            (if r.generation == Some(g) then 2 else if r.cleanup.Some? then 1 else 0)
            <= (if w.o.generation == Some(g) then 2 else if w.o.cleanup.Some? then 1 else 0)
  {
    TurnMovesWorld(w, e);
    ReportSessions(w, e);
    assert w.o.generation.Some? ==> w.o.generation == Some(g);
    hide OwnerInv, TasksInv, FinishedInv, OwnerAfter, Possible, HasClaim, Converging;
    SameSessions(w.o, OwnerAfter(w, e), g);
  }

  lemma ReportSessions(w: World, e: Event)
    requires OwnerInv(w.o) && TasksInv(w) && FinishedInv(w.o) && w.open == Sessions(w.o) && Possible(w, e)
    requires e.WatchSignaled? || e.WatchLost? || e.WatchLate?
    ensures Sessions(OwnerAfter(w, e)) == Sessions(w.o)
  {
    OpenStep(w, e);
    hide OwnerInv, TasksInv, FinishedInv, OwnerAfter, Possible, Sessions, LastAck;
  }

  lemma SameSessions(o: Owner, r: Owner, g: nat)
    requires Sessions(r) == Sessions(o) && (r.generation.Some? ==> r.generation == o.generation) && (o.generation.Some? ==> o.generation == Some(g))
    ensures (if r.generation == Some(g) then 2 else if r.cleanup.Some? then 1 else 0)
            <= (if o.generation == Some(g) then 2 else if o.cleanup.Some? then 1 else 0)
  {
    assert SessionHeld(r).Some? ==> SessionHeld(r).value in Sessions(o);
  }

  // ---- The runs in which the takeover is lost ----

  lemma {:induction false} RunFromCons(w: World, e: Event, rest: seq<Event>)
    ensures RunFrom(w, [e] + rest) == RunFrom(After(w, e), rest)
    ensures IsRunFrom(w, [e] + rest) == (Possible(w, e) && IsRunFrom(After(w, e), rest))
    decreases |rest|
  {
    hide After, Possible;
    var all := [e] + rest;
    if rest == [] {
      assert all == [e] && all[..0] == [];
    } else {
      assert all[..|all| - 1] == [e] + rest[..|rest| - 1];
      RunFromCons(w, e, rest[..|rest| - 1]);
    }
  }

  lemma {:induction false} MildIsUndisturbed(w: World, events: seq<Event>)
    requires forall e | e in events :: Mild(e)
    ensures UndisturbedRun(w, events)
    decreases |events|
  {
    hide Mild, RunFrom;
    if events != [] {
      MildIsUndisturbed(w, events[..|events| - 1]);
    }
  }

  /** The takeover is recognised and signalled after everything else is over; the watcher then sees both
      the signal and the end of the session and reports only the end. */
  function TooLate(g: nat): seq<Event> {
    [Recognize(g), Signal(g), WatchSignaled(g)]
  }

  /** A validation finds the session lost before the takeover is recognised. */
  function HiddenTakeover(g: nat): seq<Event> {
    [Lose(g), PingReturns(g, false, false), CloseReturns(g, true, false, false)] + TooLate(g)
  }

  /** The lease runs out and the session is closed before the takeover is reported. */
  function ExpiredTakeover(g: nat): seq<Event> {
    [CloseReturns(g, true, false, false)] + TooLate(g)
  }

  /** The run is possible, undisturbed, signalled and over, and leaves this ownership. */
  ghost predicate EndsIn(w: World, events: seq<Event>, g: nat, ownership: Ownership) {
    && IsRunFrom(w, events) && UndisturbedRun(w, events)
    && var v := RunFrom(w, events);
    && g in v.signaled && Quiet(v, g) && v.o.ownership == ownership
  }

  /** Everything is over but for the watcher, which is still waiting. */
  ghost predicate Unwatched(w: World, g: nat) {
    && WorldInv(w) && PhaseIs(w, g, Watching)
    && w.o.generation.None? && w.o.cleanup.None? && w.o.attempt.None? && !w.o.stopping
  }

  lemma ReportedTooLate(w: World, g: nat)
    requires Unwatched(w, g)
    ensures EndsIn(w, TooLate(g), g, w.o.ownership)
  {
    var w3 := After(w, Recognize(g));
    var w4 := After(w3, Signal(g));
    var v := After(w4, WatchSignaled(g));
    Signaling(w, g);
    hide WorldInv, After, Possible, Quiet;
    StepKeeps(w, Recognize(g));
    StepKeeps(w3, Signal(g));
    LateReport(w4, g);
    StepKeeps(w4, WatchSignaled(g));
    NothingAwaited(v, g);
    RunFromCons(w4, WatchSignaled(g), []);
    RunFromCons(w3, Signal(g), [WatchSignaled(g)]);
    RunFromCons(w, Recognize(g), [Signal(g), WatchSignaled(g)]);
    assert [Recognize(g)] + [Signal(g), WatchSignaled(g)] == TooLate(g) && [Signal(g)] + [WatchSignaled(g)] == [Signal(g), WatchSignaled(g)] && [WatchSignaled(g)] + [] == [WatchSignaled(g)];
    MildIsUndisturbed(w, TooLate(g));
  }

  lemma EndsInCons(w: World, e: Event, rest: seq<Event>, g: nat, ownership: Ownership)
    requires Possible(w, e) && EndsIn(After(w, e), rest, g, ownership) && Mild(e) && forall x | x in rest :: Mild(x)
    ensures EndsIn(w, [e] + rest, g, ownership)
  {
    hide After, Possible, Quiet, Mild;
    RunFromCons(w, e, rest);
    MildIsUndisturbed(w, [e] + rest);
  }

  /** From any live generation with a validation in flight and the takeover not yet recognised, this run is
      possible and ends Uncertain with nothing left to correct it. */
  lemma ValidationHidesTakeover(w: World, g: nat)
    requires WorldInv(w) && w.o.generation == Some(g) && w.o.validation.Some? && g !in w.recognized
    ensures EndsIn(w, HiddenTakeover(g), g, Uncertain) && !Wins(w, g)
  {
    hide WorldInv, After, Possible, EndsIn;
    var w0 := After(w, Lose(g));
    var ping, close := PingReturns(g, false, false), CloseReturns(g, true, false, false);
    var w1 := After(w0, ping);
    var w2 := After(w1, close);
    Losing(w, g);
    StepKeeps(w, Lose(g));
    PingLost(w0, g, false);
    StepKeeps(w0, ping);
    CloseUncertain(w1, g);
    StepKeeps(w1, close);
    ReportedTooLate(w2, g);
    EndsInCons(w1, close, TooLate(g), g, Uncertain);
    EndsInCons(w0, ping, [close] + TooLate(g), g, Uncertain);
    EndsInCons(w, Lose(g), [ping] + ([close] + TooLate(g)), g, Uncertain);
    assert [Lose(g)] + ([ping] + ([close] + TooLate(g))) == HiddenTakeover(g);
    LosesNot(w, HiddenTakeover(g), g, Uncertain);
  }

  lemma LosesNot(w: World, events: seq<Event>, g: nat, ownership: Ownership)
    requires EndsIn(w, events, g, ownership) && ownership != TakenOver
    ensures !Wins(w, g)
  {
    hide RunFrom, IsRunFrom, UndisturbedRun, Quiet;
  }

  lemma Losing(w: World, g: nat)
    ensures Possible(w, Lose(g))
    ensures var v := After(w, Lose(g)); v.o == w.o && v.recognized == w.recognized && g in v.lost
  {
  }

  /** An idle expiry while a takeover may still win: it loses the takeover exactly when it takes hold, even
      when the takeover is recognised already, and the owner ends Idle. */
  lemma IdleExpiryLosesIff(ownership: Ownership, events: seq<Event>, g: nat, demand: bool)
    requires ownership != Active && ownership != Stopped && IsRun(ownership, events)
    requires var w := Run(ownership, events); w.o.generation == Some(g) && Safe(w, g)
    ensures var w := Run(ownership, events);
            var v := After(w, IdleFires(g, demand));
            (&& Possible(w, IdleFires(g, demand))
             && (Wins(v, g) <==> !Expires(w.o, g, demand))
             && (Expires(w.o, g, demand) ==> EndsIn(v, ExpiredTakeover(g), g, Idle)))
  {
    hide After, Possible, Run, IsRun, Wins, Safe, Expires, EndsIn;
    var w := Run(ownership, events);
    EveryRun(ownership, events);
    LiveSessionIsWatched(ownership, events);
    IdlePossible(w, g, demand);
    StepKeeps(w, IdleFires(g, demand));
    if Expires(w.o, g, demand) {
      IdleHidesTakeover(w, g, demand);
      LosesNot(After(w, IdleFires(g, demand)), ExpiredTakeover(g), g, Idle);
    } else {
      LiveConverges(w, g);
      StepConverges(w, IdleFires(g, demand), g);
      ConvergingWins(After(w, IdleFires(g, demand)), g);
    }
    hide WorldInv, Converging;
  }

  lemma IdlePossible(w: World, g: nat, demand: bool)
    ensures Possible(w, IdleFires(g, demand))
  {
  }

  lemma IdleHidesTakeover(w: World, g: nat, demand: bool)
    requires WorldInv(w) && Expires(w.o, g, demand)
    ensures EndsIn(After(w, IdleFires(g, demand)), ExpiredTakeover(g), g, Idle)
  {
    hide WorldInv, After, Possible, EndsIn, Expires;
    var fires, close := IdleFires(g, demand), CloseReturns(g, true, false, false);
    var v := After(w, fires);
    IdleExpired(w, g, demand);
    IdlePossible(w, g, demand);
    StepKeeps(w, fires);
    CloseIdle(v, g);
    StepKeeps(v, close);
    ReportedTooLate(After(v, close), g);
    EndsInCons(v, close, TooLate(g), g, Idle);
  }

  /** The lease has run out on generation `g`. */
  predicate ClosingIdle(w: World, g: nat) {
    && PhaseIs(w, g, Watching) && w.o.generation.None? && w.o.queue == [] && !w.o.stopping && w.o.attempt.None?
    && w.o.cleanup == Some(Cleanup(g, Idle, false, None, None, true))
  }

  lemma IdleExpired(w: World, g: nat, demand: bool)
    requires WorldInv(w) && Expires(w.o, g, demand)
    ensures ClosingIdle(After(w, IdleFires(g, demand)), g)
  {
    OwnerParts(w);
    ParkedParts(w);
    NotFinished(w);
    hide WorldInv, OwnerInv, TasksInv, FinishedInv, FinishIfStopped;
    var o := DoIdleExpired(w.o, g, demand);
    FinishBarred(o);
    FinishStops(o);
    FinishQueue(o);
    assert OwnerAfter(w, IdleFires(g, demand)) == FinishIfStopped(o);
  }

  lemma FinishQueue(o: Owner)
    ensures FinishIfStopped(o).queue == o.queue
  {
    AnswerAllIs(o, o.stopWaiters, if o.cleanup.Some? then Failed(CloseError) else Success);
    hide AnswerAll;
  }

  lemma CloseIdle(w: World, g: nat)
    requires WorldInv(w) && ClosingIdle(w, g)
    ensures var e := CloseReturns(g, true, false, false);
            var v := After(w, e);
            (&& Possible(w, e) && PhaseIs(v, g, Watching) && v.o.ownership == Idle
             && v.o.generation.None? && v.o.cleanup.None? && !v.o.stopping && v.o.attempt.None?)
  {
    OwnerParts(w);
    NotFinished(w);
    hide WorldInv, OwnerInv, TasksInv, FinishedInv, FinishIfStopped, FailQueued, TaskCount;
    InFlightIsAwaited(w, CloseSession(g));
    var o := Resume(Closed(w.o, g in w.recognized), None, false, false);
    assert o == Closed(w.o, g in w.recognized);
    FinishBarred(o);
    FinishStops(o);
    assert OwnerAfter(w, CloseReturns(g, true, false, false)) == FinishIfStopped(o);
  }

  lemma PingLost(w: World, g: nat, failed: bool)
    requires WorldInv(w) && w.o.generation == Some(g) && w.o.validation.Some? && g in w.lost && g !in w.recognized
    ensures var e := PingReturns(g, failed, false);
            var v := After(w, e);
            (&& Possible(w, e) && v.recognized == w.recognized && PhaseIs(v, g, Watching)
             && v.o.generation.None? && v.o.ownership == Uncertain && !v.o.stopping && v.o.attempt.None? && v.o.validation.None?
             && v.o.cleanup == Some(Cleanup(g, Uncertain, false, None, None, true)))
  {
    OwnerParts(w);
    ParkedParts(w);
    hide WorldInv, OwnerInv, TasksInv, FinishedInv, FinishIfStopped, TaskCount;
    InFlightIsAwaited(w, Ping(g));
    var o := DoValidationDone(w.o, g, failed, true, false);
    FinishBarred(o);
    FinishStops(o);
    NotFinished(w);
    assert OwnerAfter(w, PingReturns(g, failed, false)) == FinishIfStopped(o);
  }

  lemma CloseUncertain(w: World, g: nat)
    requires WorldInv(w) && g !in w.recognized && PhaseIs(w, g, Watching)
    requires w.o.ownership == Uncertain && !w.o.stopping && w.o.attempt.None? && w.o.generation.None? && w.o.validation.None?
    requires w.o.cleanup == Some(Cleanup(g, Uncertain, false, None, None, true))
    ensures var e := CloseReturns(g, true, false, false);
            var v := After(w, e);
            (&& Possible(w, e) && v.recognized == w.recognized && PhaseIs(v, g, Watching)
             && v.o.generation.None? && v.o.cleanup.None? && v.o.ownership == Uncertain && !v.o.stopping && v.o.attempt.None?)
  {
    OwnerParts(w);
    NotFinished(w);
    hide WorldInv, OwnerInv, TasksInv, FinishedInv, FinishIfStopped, FailQueued, TaskCount;
    InFlightIsAwaited(w, CloseSession(g));
    var o := Resume(Closed(w.o, false), None, false, false);
    assert o == Closed(w.o, false);
    FinishBarred(o);
    FinishStops(o);
    assert OwnerAfter(w, CloseReturns(g, true, false, false)) == FinishIfStopped(o);
  }

  lemma Signaling(w: World, g: nat)
    ensures var w3 := After(w, Recognize(g));
            var w4 := After(w3, Signal(g));
            (&& Possible(w, Recognize(g)) && Possible(w3, Signal(g)) && g in w4.signaled
             && w4.o == w.o && w4.watch == w.watch)
  {
    hide Turn;
  }

  lemma LateReport(w: World, g: nat)
    requires Unwatched(w, g) && g in w.signaled
    ensures var v := After(w, WatchSignaled(g));
            Possible(w, WatchSignaled(g)) && g in v.signaled && v.o.ownership == w.o.ownership && v.o.cleanup.None? && PhaseIs(v, g, Over)
  {
    NotFinished(w);
    hide WorldInv, FinishIfStopped;
    FinishBarred(w.o);
    assert OwnerAfter(w, WatchSignaled(g)) == FinishIfStopped(w.o);
  }

  lemma NothingAwaited(w: World, g: nat)
    requires WorldInv(w) && w.o.cleanup.None? && PhaseIs(w, g, Over)
    ensures Quiet(w, g)
  {
    OwnerParts(w);
    hide WorldInv, TasksInv, InFlight, Honest, AnswerCount;
    InFlightIsAwaited(w, CloseSession(g));
  }

  // ---- Both are reached from the start ----

  lemma {:induction false} RunAppend(ownership: Ownership, a: seq<Event>, b: seq<Event>)
    ensures Run(ownership, a + b) == RunFrom(Run(ownership, a), b)
    ensures IsRun(ownership, a + b) == (IsRun(ownership, a) && IsRunFrom(Run(ownership, a), b))
    decreases |b|
  {
    hide After, Possible;
    if b == [] {
      assert a + b == a;
    } else {
      assert (a + b)[..|a + b| - 1] == a + b[..|b| - 1];
      RunAppend(ownership, a, b[..|b| - 1]);
    }
  }

  /** A released device is taken over by caller 0. */
  function FirstTakeover(): seq<Event> {
    [Lock, SendTakeOver(0, false, true), AttemptReturns(1, Connected, {}, 1, {}, false), Unlock]
  }

  /** Session 1 is live and nobody uses it. */
  predicate Unused(o: Owner) {
    && o.generation == Some(1) && o.ownership == Active && o.attempt.None? && o.cleanup.None? && o.validation.None?
    && o.workers == map[] && o.queue == [] && !o.stopping && !o.finished
  }

  lemma AskedTurn()
    ensures var o := Turn(NewOwner(Released), TakeOver(0, false, true));
            (&& o == NewOwner(Released).(nextGeneration := 1, attempt := Some(Attempt(1, Some(0))), spawned := [Connect(1)]))
  {
    assert [] + [Connect(1)] == [Connect(1)];
  }

  lemma ConnectedTurn(o: Owner)
    requires o == NewOwner(Released).(nextGeneration := 1, attempt := Some(Attempt(1, Some(0))), spawned := [Connect(1)])
    ensures var r := Turn(o, AttemptDone(1, Connected, {}, 1, {}, false));
            Unused(r) && r.answers == [Answer(0, Success)]
  {
    var o1 := o.(attempt := None);
    assert SettleCanceled(o1, 0) == o1;
    assert FilterQueue(o1, [], [], {}) == o1;
    var o2 := Answered(Spawn(o1.(generation := Some(1), ownership := Active), Watch(1)), Some(0), Success);
    assert o2.answers == [Answer(0, Success)];
    assert StartNext(o2, 1, {}) == o2;
    assert Handle(o, AttemptDone(1, Connected, {}, 1, {}, false)) == ScheduleIdle(o2, false);
    hide Handle;
  }

  lemma LockStep(w: World)
    requires w.latch.Free? && w.ordinary == 0
    ensures Possible(w, Lock) && After(w, Lock) == w.(latch := Held)
  {
  }

  lemma AskStep(w: World)
    requires w == NewWorld(Released).(latch := Held)
    ensures var e := SendTakeOver(0, false, true);
            Possible(w, e) && After(w, e) == w.(o := Turn(w.o, TakeOver(0, false, true)), latch := Sent(0), asked := {0})
  {
    hide Turn;
  }

  lemma ConnectStep(w: World, connected: Event)
    requires connected == AttemptReturns(1, Connected, {}, 1, {}, false)
    requires w.o.spawned == [Connect(1)] && w.o.queue == [] && w.returned == multiset{}
    ensures Possible(w, connected)
    ensures var v := After(w, connected);
            v.o == Turn(w.o, AttemptDone(1, Connected, {}, 1, {}, false))
            && v.latch == w.latch && v.ordinary == w.ordinary && v.asked == w.asked && v.recognized == w.recognized
  {
    assert TaskCount([Connect(1)], Connect(1)) == 1;
    hide Turn;
  }

  lemma UnlockStep(w: World)
    requires w.latch == Sent(0) && w.o.answers == [Answer(0, Success)]
    ensures Possible(w, Unlock)
    ensures var v := After(w, Unlock);
            v.o == w.o && v.latch.Free? && v.ordinary == w.ordinary && v.asked == w.asked && v.recognized == w.recognized
  {
    assert AnswerCount([Answer(0, Success)], 0) == 1;
  }

  lemma FirstTakeoverRuns()
    ensures IsRun(Released, FirstTakeover())
    ensures var w := Run(Released, FirstTakeover());
            Unused(w.o) && w.latch.Free? && w.ordinary == 0 && w.asked == {0} && w.recognized == {}
  {
    var connected := AttemptReturns(1, Connected, {}, 1, {}, false);
    var w1 := After(NewWorld(Released), Lock);
    var w2 := After(w1, SendTakeOver(0, false, true));
    LockStep(NewWorld(Released));
    AskStep(w1);
    AskedTurn();
    ConnectStep(w2, connected);
    ConnectedTurn(w2.o);
    UnlockStep(After(w2, connected));
    FirstFour(connected);
    hide Turn, Unused, After, Possible, Run, IsRun;
  }

  lemma FirstFour(connected: Event)
    ensures var a, b, d := Lock, SendTakeOver(0, false, true), Unlock;
            var w0 := NewWorld(Released);
            var w1 := After(w0, a);
            var w2 := After(w1, b);
            var w3 := After(w2, connected);
            (&& Run(Released, [a, b, connected, d]) == After(w3, d)
             && IsRun(Released, [a, b, connected, d]) == (Possible(w0, a) && Possible(w1, b) && Possible(w2, connected) && Possible(w3, d)))
  {
    hide After, Possible;
    var a, b, d := Lock, SendTakeOver(0, false, true), Unlock;
    var w0 := NewWorld(Released);
    RunAppend(Released, [], [a, b, connected, d]);
    RunFromCons(w0, a, [b, connected, d]);
    RunFromCons(After(w0, a), b, [connected, d]);
    RunFromCons(After(After(w0, a), b), connected, [d]);
    RunFromCons(After(After(After(w0, a), b), connected), d, []);
    assert [] + [a, b, connected, d] == [a, b, connected, d] && [a] + [b, connected, d] == [a, b, connected, d]
        && [b] + [connected, d] == [b, connected, d] && [connected] + [d] == [connected, d] && [d] + [] == [d];
  }

  /** Caller 1 asks for the session once more, which validates it. */
  function Revalidated(): seq<Event> {
    [Lock, SendTakeOver(1, false, true)]
  }

  lemma RevalidatedTurn(o: Owner)
    requires Unused(o)
    ensures var r := Turn(o, TakeOver(1, false, true));
            r.generation == Some(1) && r.validation.Some?
  {
  }

  lemma Revalidating(w: World)
    requires Unused(w.o) && w.latch.Free? && w.ordinary == 0 && w.asked == {0} && w.recognized == {}
    ensures IsRunFrom(w, Revalidated())
    ensures var v := RunFrom(w, Revalidated()); v.o.generation == Some(1) && v.o.validation.Some? && v.recognized == {}
  {
    RevalidatedTurn(w.o);
    LockStep(w);
    TwoSteps(w, Lock, SendTakeOver(1, false, true));
    assert Possible(After(w, Lock), SendTakeOver(1, false, true));
    hide Turn, RunFrom, IsRunFrom;
  }

  /** A run from the start in which a validation hides the takeover for good. */
  lemma HiddenFromTheStart()
    ensures var events := FirstTakeover() + Revalidated() + HiddenTakeover(1);
            var v := Run(Released, events);
            IsRun(Released, events) && 1 in v.signaled && Quiet(v, 1) && v.o.ownership == Uncertain
  {
    hide After, Possible, Run, IsRun, RunFrom, IsRunFrom, HiddenTakeover, Quiet, UndisturbedRun, Wins, WorldInv;
    var before := FirstTakeover() + Revalidated();
    FirstTakeoverRuns();
    Revalidating(Run(Released, FirstTakeover()));
    RunAppend(Released, FirstTakeover(), Revalidated());
    EveryRun(Released, before);
    ValidationHidesTakeover(Run(Released, before), 1);
    RunAppend(Released, before, HiddenTakeover(1));
  }

  /** A run from the start in which the lease runs out after the takeover has been recognised and before
      it is reported: the owner ends Idle. */
  lemma ExpiredFromTheStart()
    ensures var events := FirstTakeover() + [Recognize(1), IdleFires(1, false)] + ExpiredTakeover(1);
            var v := Run(Released, events);
            IsRun(Released, events) && 1 in v.signaled && Quiet(v, 1) && v.o.ownership == Idle
  {
    hide After, Possible, Run, IsRun, RunFrom, IsRunFrom, ExpiredTakeover, Quiet, UndisturbedRun, Wins, WorldInv, FirstTakeover;
    var a, b := Recognize(1), IdleFires(1, false);
    FirstTakeoverRuns();
    var w := Run(Released, FirstTakeover());
    EveryRun(Released, FirstTakeover());
    Recognizing(w);
    StepKeeps(w, a);
    IdlePossible(After(w, a), 1, false);
    IdleHidesTakeover(After(w, a), 1, false);
    TwoSteps(w, a, b);
    RunAppend(Released, FirstTakeover(), [a, b]);
    RunAppend(Released, FirstTakeover() + [a, b], ExpiredTakeover(1));
  }

  lemma TwoSteps(w: World, a: Event, b: Event)
    ensures RunFrom(w, [a, b]) == After(After(w, a), b)
    ensures IsRunFrom(w, [a, b]) == (Possible(w, a) && Possible(After(w, a), b))
  {
    hide After, Possible;
    RunFromCons(w, a, [b]);
    RunFromCons(After(w, a), b, []);
    assert [a] + [b] == [a, b] && [b] + [] == [b];
  }

  lemma Recognizing(w: World)
    requires Unused(w.o)
    ensures Possible(w, Recognize(1)) && Expires(After(w, Recognize(1)).o, 1, false)
  {
    hide Turn;
  }
}
