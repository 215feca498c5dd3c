/** Nobody is forgotten: each thing a worker waits for brings it strictly closer to its one reply. */
module OwnerProgress {
  import opened Options
  import opened OwnerModel
  import opened OwnerSafety
  import opened OwnerBooks
  import opened OwnerTasks
  import opened OwnerMoves
  import opened OwnerLogs
  import opened OwnerRuns
  import opened OwnerOwnership
  import opened OwnerTakeover

  /** How far the worker is from its reply: at work on a session, queued at one, waiting for an attempt, or
      for the end of the cleanup before it. */
  function Distance(o: Owner, worker: nat): nat {
    if worker !in o.workers then 0
    else if o.workers[worker].generation != 0 then 1
    else if o.generation.Some? then 2
    else if o.attempt.Some? then 3
    else 4
  }

  /** The event is the end of what the worker waits for. */
  predicate Ends(w: World, e: Event, worker: nat)
    requires worker in w.o.workers
  {
    var g := w.o.workers[worker].generation;
    if g != 0 then e.OperationReturns? && e.worker == worker && e.generation == g
    else if w.o.generation.Some? then (e.WatchSignaled? || e.WatchLost?) && w.o.generation == Some(e.generation)
    else if w.o.attempt.Some? then e.AttemptReturns? && e.generation == w.o.attempt.value.generation
    else e.CloseReturns? && w.o.cleanup.Some? && e.generation == w.o.cleanup.value.generation
  }

  // ---- Counts over growing logs ----

  lemma {:induction false} TasksGrow(a: seq<Task>, b: seq<Task>, t: Task)
    requires a <= b
    ensures TaskCount(a, t) <= TaskCount(b, t)
    decreases |b|
  {
    if a == b {
    } else {
      assert a <= b[..|b| - 1];
      TasksGrow(a, b[..|b| - 1], t);
    }
  }

  lemma {:induction false} AcceptsGrow(a: seq<Ack>, b: seq<Ack>, worker: nat)
    requires a <= b
    ensures AcceptCount(a, worker) <= AcceptCount(b, worker)
    decreases |b|
  {
    if a == b {
    } else {
      assert a <= b[..|b| - 1];
      AcceptsGrow(a, b[..|b| - 1], worker);
    }
  }

  lemma AfterGrows(w: World, e: Event)
    ensures Grown(w.o, After(w, e).o)
  {
    if CommandOf(w, e).Some? {
      TurnGrows(w.o, CommandOf(w, e).value);
    }
    hide Turn, CommandOf;
  }

  // ---- What an event does to those who wait ----

  /** A worker at work stays at work until its own operation returns. */
  lemma AtWorkStays(w: World, e: Event, worker: nat)
    requires WorldInv(w) && Possible(w, e) && worker in w.o.workers && w.o.workers[worker].generation != 0
    requires !(e.OperationReturns? && e.worker == worker && e.generation == w.o.workers[worker].generation)
    ensures var v := After(w, e);
            worker in v.o.workers && v.o.workers[worker].generation == w.o.workers[worker].generation
  {
    var t := Operate(worker, w.o.workers[worker].generation);
    var v := After(w, e);
    StepKeeps(w, e);
    WorldTasks(w);
    WorldTasks(v);
    InFlightIsAwaited(w, t);
    InFlightIsAwaited(v, t);
    ReturnedStep(w, e, t);
    AfterGrows(w, e);
    TasksGrow(w.o.spawned, v.o.spawned, t);
    hide WorldInv, TasksInv, After, Possible, Grown, TaskCount;
  }

  lemma WorldTasks(w: World)
    requires WorldInv(w)
    ensures TasksInv(w) && OwnerInv(w.o) && FinishedInv(w.o) && BooksInv(w) && w.open == Sessions(w.o) && Tidy(w.o, w.recognized) && OneAtATime(w.o)
  {
    hide TasksInv, WorkersInv, BooksInv, LatchInv, WatchInv, Tidy, Sessions, FinishedInv;
  }

  lemma OperationOver(o: Owner, worker: nat, g: nat, untilTaken: nat, expired: set<nat>, demand: bool)
    requires OwnerInv(o) && Awaited(o, Operate(worker, g))
    ensures worker !in DoWorkerDone(o, worker, g, untilTaken, expired, demand).workers
  {
    var o1 := Settle(o, worker, Own);
    assert OwnerInv(o1);
    hide OwnerInv, StartNext;
    StartNextIs(o1, untilTaken, expired);
  }

  /** Its own operation returns: the worker has its reply. */
  lemma OperationEnds(w: World, e: Event, worker: nat)
    requires WorldInv(w) && Possible(w, e) && e.OperationReturns? && e.worker == worker
    ensures worker !in After(w, e).o.workers
  {
    WorldTasks(w);
    InFlightIsAwaited(w, Operate(worker, e.generation));
    OperationOver(w.o, worker, e.generation, e.untilTaken, e.expired, e.demand);
    FinishMatters(DoWorkerDone(w.o, worker, e.generation, e.untilTaken, e.expired, e.demand));
    hide WorldInv, TasksInv, OwnerInv, DoWorkerDone, FinishIfStopped, InFlight, FinishedInv, BooksInv, Tidy, Sessions;
  }

  /** A worker not yet at work is queued, unless it was canceled while an attempt is in flight. */
  lemma WaitsInQueue(w: World, worker: nat)
    requires WorldInv(w) && worker in w.o.workers && w.o.workers[worker].generation == 0 && w.o.attempt.None?
    ensures worker in w.o.queue && !w.o.stopping
    ensures w.o.generation.None? ==> w.o.cleanup.Some? && !w.o.cleanup.value.failed && w.o.cleanup.value.target == Idle
  {
    WorldTasks(w);
    hide WorldInv, BooksInv, TasksInv, FinishedInv, Sessions;
  }

  /** Queued at a live session: it stays there, or the session's end answers the queue. */
  lemma LiveQueue(w: World, e: Event, g: nat, worker: nat)
    requires WorldInv(w) && Possible(w, e) && w.o.generation == Some(g) && worker in w.o.workers && !e.Shutdown?
    ensures var v := After(w, e);
            if (e.WatchSignaled? || e.WatchLost?) && e.generation == g
            then v.o.generation.None? && v.o.attempt.None? && (v.o.cleanup.Some? ==> v.o.cleanup.value.target != Idle)
            else v.o.generation == Some(g)
  {
    WaitingParts(w, g, worker);
    NotFinished(w);
    hide WorldInv, Possible, FinishIfStopped, Handle, OwnerInv, TasksInv;
    if (e.WatchSignaled? || e.WatchLost?) && e.generation == g {
      WatchEnds(w, e, g);
    } else {
      LiveStays(w, e, g);
    }
  }

  lemma LiveStays(w: World, e: Event, g: nat)
    requires OwnerInv(w.o) && TasksInv(w) && OnlyOrdinary(w) && Possible(w, e) && w.o.generation == Some(g) && w.o.nextGeneration == g && !w.o.finished
    requires !e.Shutdown? && !((e.WatchSignaled? || e.WatchLost?) && e.generation == g)
    ensures After(w, e).o.generation == Some(g)
  {
    hide Possible, Turn, OwnerInv, OnlyOrdinary, TasksInv;
    OrdinaryEvents(w, e, g);
    if CommandOf(w, e).Some? {
      LiveCalm(w, e, CommandOf(w, e).value, g);
    }
  }

  lemma WatchEnds(w: World, e: Event, g: nat)
    requires PhaseInv(w.o) && OnlyOrdinary(w) && w.o.generation == Some(g) && !w.o.finished && (e.WatchSignaled? || e.WatchLost?) && e.generation == g
    ensures var v := After(w, e);
            v.o.generation.None? && v.o.attempt.None? && (v.o.cleanup.Some? ==> v.o.cleanup.value.target != Idle)
  {
    EndedOwner(w.o, g, g in w.recognized, if g in w.recognized then TakenOver else Uncertain);
    WatchTurn(w.o, g, g in w.recognized);
    hide Turn, DoGenerationEnded, PhaseInv, FinishIfStopped;
  }

  lemma WatchTurn(o: Owner, g: nat, recognized: bool)
    requires !o.finished
    ensures Turn(o, GenerationEnded(g, recognized)) == FinishIfStopped(DoGenerationEnded(o, g, recognized))
  {
  }

  /** While there are workers no release, takeover or validation is under way. */
  predicate OnlyOrdinary(w: World) {
    w.latch.Free? && w.o.validation.None? && w.o.cleanup.None? && w.o.attempt.None? && w.o.workers != map[]
  }

  lemma WaitingParts(w: World, g: nat, worker: nat)
    requires WorldInv(w) && w.o.generation == Some(g) && worker in w.o.workers
    ensures OwnerInv(w.o) && PhaseInv(w.o) && TasksInv(w) && OnlyOrdinary(w) && !w.o.stopping && w.o.nextGeneration == g
  {
    assert worker in w.waiting && {worker} <= w.waiting;
    MemberCounts(w.waiting, worker);
    LatchExcludes(w);
    hide BooksInv, TasksInv, WatchInv, Tidy, WorkersInv, FinishedInv;
  }

  lemma MemberCounts(s: set<nat>, x: nat)
    requires x in s
    ensures |s| != 0
  {
  }

  lemma OrdinaryEvents(w: World, e: Event, g: nat)
    requires TasksInv(w) && OnlyOrdinary(w) && Possible(w, e)
    ensures !e.SendRelease? && !e.SendTakeOver? && !e.CloseReturns? && !e.AttemptReturns?
  {
    if TaskOf(e).Some? {
      InFlightIsAwaited(w, TaskOf(e).value);
    }
    hide TasksInv, InFlight, Honest;
  }

  lemma LiveCalm(w: World, e: Event, c: Command, g: nat)
    requires OwnerInv(w.o) && TasksInv(w) && OnlyOrdinary(w) && Possible(w, e) && w.o.generation == Some(g) && w.o.nextGeneration == g && !w.o.finished
    requires CommandOf(w, e) == Some(c) && !c.Release? && !c.TakeOver? && !c.Stop? && !c.CleanupDone? && !c.AttemptDone?
    requires !(c.GenerationEnded? && c.generation == g)
    ensures After(w, e).o.generation == Some(g)
  {
    NotStale(w, e, c);
    if c.TakeoverRecognized? && c.generation == g {
      LateIsNothing(w.o, g);
    } else {
      assert |w.o.workers| != 0;
      HandleCalm(w.o, c, g);
    }
    FinishBarred(Handle(w.o, c));
    hide OwnerInv, TasksInv, Possible, Handle, FinishIfStopped, Completes, Awaited, Expires;
    assert After(w, e).o == FinishIfStopped(Handle(w.o, c));
  }

  lemma LateIsNothing(o: Owner, g: nat)
    requires o.generation.Some? && o.cleanup.None?
    ensures Handle(o, TakeoverRecognized(g)) == o
  {
  }

  // ---- Waiting for an attempt, or for a cleanup ----

  /** The end of an attempt leaves no attempt, and a cleanup only with an empty queue. */
  lemma AttemptOverLeaves(o: Owner, g: nat, connection: Connection, expired: set<nat>, untilTaken: nat, expiredLater: set<nat>, demand: bool)
    requires OwnerInv(o) && o.attempt.Some? && o.attempt.value.generation == g
    ensures var r := DoAttemptDone(o, g, connection, expired, untilTaken, expiredLater, demand);
            r.attempt.None? && (r.cleanup.Some? ==> r.queue == [])
  {
    var o2 := AfterAttempt(o, expired);
    AfterAttemptIs(o, expired);
    StoppedQueue(o, expired);
    AttemptFailedLeaves(o2, g, o.attempt.value.takeover, connection.SessionLeft?);
    AttemptConnectedLeaves(o2, g, o.attempt.value.takeover, untilTaken, expiredLater, demand);
    hide WorkersInv, SettleCanceled, FilterQueue, AttemptFailed, AttemptConnected;
  }

  lemma StoppedQueue(o: Owner, expired: set<nat>)
    requires WorkersInv(o) && (o.stopping ==> o.queue == [])
    ensures o.stopping ==> AfterAttempt(o, expired).queue == []
  {
    SettleCanceledIs(o.(attempt := None), o.nextWorker);
    hide SettleCanceled, WorkersInv;
  }

  lemma AttemptFailedLeaves(o: Owner, g: nat, takeover: Option<nat>, left: bool)
    requires o.attempt.None? && o.cleanup.None?
    ensures var r := AttemptFailed(o, g, takeover, left); r.attempt.None? && (r.cleanup.Some? ==> r.queue == [])
  {
    FailQueuedIs(o, Failed(AttemptError));
    assert FailQueued(o, Failed(AttemptError)).queue == [];
    hide FailQueued;
  }

  lemma AttemptConnectedLeaves(o: Owner, g: nat, takeover: Option<nat>, untilTaken: nat, expired: set<nat>, demand: bool)
    requires WorkersInv(o) && g != 0 && o.attempt.None? && o.cleanup.None? && (o.stopping ==> o.queue == [])
    ensures var r := AttemptConnected(o, g, takeover, untilTaken, expired, demand); r.attempt.None? && (r.cleanup.Some? ==> r.queue == [])
  {
    var o1 := Answered(Spawn(o.(generation := Some(g), ownership := Active), Watch(g)), takeover, Success);
    WorkersFrame(o, o1);
    DispatchIs(o1, g, untilTaken, expired);
    hide Dispatch, WorkersInv;
  }

  /** Waiting for an attempt: it is still there, or a live session has taken its place. */
  lemma AttemptAwaited(w: World, e: Event, worker: nat)
    requires WorldInv(w) && Possible(w, e) && w.o.attempt.Some? && worker in w.o.workers
    requires worker in After(w, e).o.workers && After(w, e).o.workers[worker].generation == 0
    ensures var v := After(w, e);
            (v.o.attempt.Some? && !(e.AttemptReturns? && e.generation == w.o.attempt.value.generation)) || v.o.generation.Some?
  {
    var v := After(w, e);
    StepKeeps(w, e);
    WorldTasks(w);
    WorldTasks(v);
    if e.AttemptReturns? && e.generation == w.o.attempt.value.generation {
      AttemptTurn(w, e);
    } else {
      NoSessionOpens(w, e);
    }
    if v.o.attempt.None? {
      WaitsInQueue(v, worker);
    }
    hide WorldInv, After, Possible, OwnerInv, BooksInv, TasksInv, FinishedInv, Tidy;
  }

  lemma AttemptTurn(w: World, e: Event)
    requires OwnerInv(w.o) && FinishedInv(w.o) && w.o.attempt.Some? && e.AttemptReturns? && e.generation == w.o.attempt.value.generation
    ensures var r := After(w, e).o; r.attempt.None? && (r.cleanup.Some? ==> r.queue == [])
  {
    hide OwnerInv, DoAttemptDone, FinishIfStopped;
    var o := DoAttemptDone(w.o, e.generation, e.connection, e.expired, e.untilTaken, e.expiredLater, e.demand);
    AttemptOverLeaves(w.o, e.generation, e.connection, e.expired, e.untilTaken, e.expiredLater, e.demand);
    FinishMatters(o);
    FinishQueue(o);
    assert OwnerAfter(w, e) == FinishIfStopped(o);
  }

  /** With an attempt in flight no session is open until it returns. */
  lemma NoSessionOpens(w: World, e: Event)
    requires TasksInv(w) && Possible(w, e) && w.o.attempt.Some? && OneAtATime(w.o) && w.open == Sessions(w.o)
    requires After(w, e).open == Sessions(After(w, e).o)
    requires !(e.AttemptReturns? && e.generation == w.o.attempt.value.generation)
    ensures After(w, e).o.cleanup.None? && After(w, e).o.generation.None?
  {
    if e.AttemptReturns? {
      InFlightIsAwaited(w, Connect(e.generation));
    }
    hide TasksInv, InFlight, Possible, OwnerAfter;
  }

  /** Waiting for the end of a cleanup: afterwards an attempt is in flight or the queue is answered. */
  lemma CleanupAwaited(w: World, e: Event, worker: nat)
    requires WorldInv(w) && Possible(w, e) && w.o.attempt.None? && w.o.generation.None? && w.o.cleanup.Some?
    requires e.CloseReturns? && e.generation == w.o.cleanup.value.generation
    requires worker in After(w, e).o.workers && After(w, e).o.workers[worker].generation == 0
    ensures After(w, e).o.attempt.Some?
  {
    var v := After(w, e);
    StepKeeps(w, e);
    WorldTasks(w);
    WorldTasks(v);
    if v.o.attempt.None? {
      WaitsInQueue(v, worker);
      if e.closed {
        ClosedTurn(w, e);
      } else {
        FailedTurn(w, e);
      }
      assert false;
    }
    hide WorldInv, After, Possible, OwnerInv, BooksInv, TasksInv, FinishedInv, Tidy;
  }

  lemma ClosedTurn(w: World, e: Event)
    requires w.o.generation.None? && w.o.cleanup.Some? && w.open == Sessions(w.o) && After(w, e).open == Sessions(After(w, e).o)
    requires e.CloseReturns? && e.generation == w.o.cleanup.value.generation && e.closed
    ensures After(w, e).o.generation.None? && After(w, e).o.cleanup.None?
  {
    hide OwnerAfter;
  }

  lemma FailedTurn(w: World, e: Event)
    requires FinishedInv(w.o) && TasksInv(w) && Possible(w, e) && w.o.generation.None? && w.o.cleanup.Some?
    requires e.CloseReturns? && e.generation == w.o.cleanup.value.generation && !e.closed
    ensures After(w, e).o.generation.None? && After(w, e).o.cleanup.Some? && After(w, e).o.cleanup.value.failed
  {
    InFlightIsAwaited(w, CloseSession(e.generation));
    hide TasksInv, InFlight, FailQueued, FinishIfStopped;
    var c := w.o.cleanup.value;
    FailQueuedIs(w.o.(cleanup := Some(c.(failed := true, reply := None, takeover := None)), ownership := Uncertain), NotSent(Busy));
    FinishMatters(CleanupFailed(w.o));
    assert OwnerAfter(w, e) == FinishIfStopped(CleanupFailed(w.o));
  }

  // ---- Closer and closer ----

  /** No event takes a worker farther from its reply, and the end of what it waits for brings it strictly
      closer: after at most four such ends it has been answered. */
  lemma NeverFarther(w: World, e: Event, worker: nat)
    requires WorldInv(w) && Possible(w, e) && worker in w.o.workers
    ensures Distance(After(w, e).o, worker) <= Distance(w.o, worker) <= 4
    ensures Ends(w, e, worker) ==> Distance(After(w, e).o, worker) < Distance(w.o, worker)
  {
    var v := After(w, e);
    if w.o.workers[worker].generation != 0 {
      if e.OperationReturns? && e.worker == worker {
        OperationEnds(w, e, worker);
      } else {
        AtWorkStays(w, e, worker);
      }
    } else if worker in v.o.workers && v.o.workers[worker].generation == 0 {
      if w.o.generation.Some? {
        QueuedAtSession(w, e, worker);
      } else if w.o.attempt.Some? {
        AttemptAwaited(w, e, worker);
      } else {
        WaitsInQueue(w, worker);
        if e.CloseReturns? && e.generation == w.o.cleanup.value.generation {
          CleanupAwaited(w, e, worker);
        }
      }
    }
    hide WorldInv, After, Possible;
  }

  lemma QueuedAtSession(w: World, e: Event, worker: nat)
    requires WorldInv(w) && Possible(w, e) && w.o.generation.Some? && worker in w.o.workers
    requires worker in After(w, e).o.workers && After(w, e).o.workers[worker].generation == 0
    ensures After(w, e).o.generation.Some? && !Ends0(w, e)
  {
    var v, g := After(w, e), w.o.generation.value;
    StepKeeps(w, e);
    if e.Shutdown? {
      ShutdownQueue(w, e, worker);
    } else {
      LiveQueue(w, e, g, worker);
    }
    if v.o.attempt.None? {
      WaitsInQueue(v, worker);
    }
    hide WorldInv, After, Possible;
  }

  /** The end of the live session. */
  predicate Ends0(w: World, e: Event) {
    (e.WatchSignaled? || e.WatchLost?) && w.o.generation == Some(e.generation)
  }

  /** A stop answers the queue of a live session at once. */
  lemma ShutdownQueue(w: World, e: Event, worker: nat)
    requires WorldInv(w) && Possible(w, e) && e.Shutdown? && w.o.generation.Some? && worker in After(w, e).o.workers
    ensures After(w, e).o.workers[worker].generation != 0
  {
    StepKeeps(w, e);
    WorldTasks(w);
    WorldTasks(After(w, e));
    StopTurns(w, e);
    if After(w, e).o.workers[worker].generation == 0 {
      WaitsInQueue(After(w, e), worker);
    }
    hide WorldInv, After, Possible, OwnerInv, BooksInv, TasksInv, FinishedInv, Tidy;
  }

  lemma StopTurns(w: World, e: Event)
    requires OwnerInv(w.o) && FinishedInv(w.o) && e.Shutdown? && w.o.generation.Some?
    requires OneAtATime(After(w, e).o) && w.open == Sessions(w.o) && After(w, e).open == Sessions(After(w, e).o)
    ensures After(w, e).o.stopping && After(w, e).o.attempt.None?
  {
    var o := DoStop(w.o, e.caller);
    assert After(w, e).open == w.open;
    StopStops(w.o, e.caller);
    FinishStops(o);
    OneSession(After(w, e).o);
    NotOver(w.o);
    assert After(w, e).o == FinishIfStopped(o);
    hide OwnerInv, DoStop, FinishIfStopped, OwnerAfter;
  }

  lemma NotOver(o: Owner)
    requires OwnerInv(o) && FinishedInv(o) && o.generation.Some?
    ensures !o.finished
  {
    hide OwnerInv;
  }

  lemma StopStops(o: Owner, reply: nat)
    requires OwnerInv(o)
    ensures DoStop(o, reply).stopping
  {
    StopQueueIs(o);
    hide CancelAll, FailQueued, OwnerInv;
  }

  // ---- And then it is answered ----

  /** Over whole runs: what a worker waits for is in flight, no event takes it farther from its reply, the
      end of what it waits for brings it closer, and when there is nothing left to wait for it has had
      exactly one reply. */
  lemma NobodyForgotten(ownership: Ownership, events: seq<Event>, e: Event, worker: nat)
    requires ownership != Active && ownership != Stopped && IsRun(ownership, events + [e])
    requires worker in Run(ownership, events).o.workers
    ensures var w, v := Run(ownership, events), Run(ownership, events + [e]);
            (&& Attended(w, worker)
             && Distance(v.o, worker) <= Distance(w.o, worker) <= 4
             && (Ends(w, e, worker) ==> Distance(v.o, worker) < Distance(w.o, worker))
             && (Distance(v.o, worker) == 0 ==> ReplyCount(v.o.replies, worker) == 1))
  {
    hide WorldInv, After, Possible, Distance, Ends, Attended, Grown;
    assert (events + [e])[..|events + [e]| - 1] == events;
    var w, v := Run(ownership, events), Run(ownership, events + [e]);
    assert v == After(w, e) && IsRun(ownership, events) && Possible(w, e);
    EveryRun(ownership, events);
    NobodyStranded(ownership, events, worker);
    NeverFarther(w, e, worker);
    AtMostOneReply(ownership, events, worker, 0);
    AtMostOneReply(ownership, events + [e], worker, 0);
    AfterGrows(w, e);
    GrownAcks(w.o, v.o, worker);
    DistanceZero(v.o, worker);
    hide Run, IsRun;
  }

  lemma GrownAcks(o: Owner, r: Owner, worker: nat)
    requires Grown(o, r)
    ensures AcceptCount(o.acks, worker) <= AcceptCount(r.acks, worker)
  {
    AcceptsGrow(o.acks, r.acks, worker);
  }

  lemma DistanceZero(o: Owner, worker: nat)
    ensures Distance(o, worker) == 0 <==> worker !in o.workers
  {
  }
}
