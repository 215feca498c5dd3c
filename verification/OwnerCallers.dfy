/** Nobody who asked is forgotten either: each thing a release, takeover or stop waits for brings its caller
    strictly closer to the one answer. */
module OwnerCallers {
  import opened Options
  import opened OwnerModel
  import opened OwnerSafety
  import opened OwnerBooks
  import opened OwnerTasks
  import opened OwnerMoves
  import opened OwnerRuns
  import opened OwnerProgress

  /** What a stop still has to wait for: an attempt may leave a session to be closed. */
  function Outstanding(o: Owner): nat {
    (if o.attempt.Some? then 2 else 0) + (if o.cleanup.Some? && !o.cleanup.value.failed then 1 else 0)
    + (if o.validation.Some? then 1 else 0) + |o.workers|
  }

  /** How far the caller is from its answer: a takeover behind a cleanup waits for the cleanup and then for
      its attempt; any other release or takeover for one thing; a stop for all that is outstanding. */
  function CallerDistance(o: Owner, caller: nat): nat {
    if caller in o.stopWaiters then Outstanding(o)
    else if o.cleanup.Some? && o.cleanup.value.takeover == Some(caller) then 2
    else if HasClaim(o, caller) then 1
    else 0
  }

  /** The event is the end of something the caller waits for. */
  predicate EndsFor(w: World, e: Event, caller: nat) {
    if caller in w.o.stopWaiters then
      || (e.AttemptReturns? && w.o.attempt.Some? && e.generation == w.o.attempt.value.generation)
      || (e.CloseReturns? && w.o.cleanup.Some? && !w.o.cleanup.value.failed && e.generation == w.o.cleanup.value.generation)
      || (e.PingReturns? && w.o.validation.Some? && e.generation == w.o.validation.value.generation)
      || (e.OperationReturns? && e.worker in w.o.workers && e.generation == w.o.workers[e.worker].generation != 0)
    else
      || (e.AttemptReturns? && w.o.attempt.Some? && w.o.attempt.value.takeover == Some(caller) && e.generation == w.o.attempt.value.generation)
      || (e.CloseReturns? && w.o.cleanup.Some? && (w.o.cleanup.value.reply == Some(caller) || w.o.cleanup.value.takeover == Some(caller))
          && e.generation == w.o.cleanup.value.generation)
      || (e.PingReturns? && w.o.validation.Some? && w.o.validation.value.reply == caller && e.generation == w.o.validation.value.generation)
      || ((e.WatchSignaled? || e.WatchLost?) && w.o.validation.Some? && w.o.validation.value.reply == caller && w.o.generation == Some(e.generation))
  }

  // ---- Who waits where ----

  /** Nobody new waits for a stop, or behind a cleanup. */
  predicate Steady(o: Owner, r: Owner) {
    && r.stopWaiters == o.stopWaiters
    && (r.cleanup.Some? && r.cleanup.value.takeover.Some? ==> o.cleanup.Some? && o.cleanup.value.takeover == r.cleanup.value.takeover)
  }

  lemma RegisterSteady(o: Owner, permit: bool, untilTaken: nat, expired: set<nat>)
    requires OwnerInv(o)
    ensures Steady(o, DoRegister(o, permit, untilTaken, expired))
  {
    hide OwnerInv, StartNext, Without, Refusal, Enter;
    if Admits(o) {
      EnterIs(o, permit);
      var o2 := Enter(o, permit).0;
      AckedKeeps(o2, Accepted(o.nextWorker + 1));
      StartNextIs(Acked(o2, Accepted(o.nextWorker + 1)), untilTaken, expired);
    }
  }

  lemma CancelSteady(o: Owner, worker: nat)
    ensures Steady(o, DoCancel(o, worker))
  {
    hide Without;
  }

  lemma AttemptDoneSteady(o: Owner, g: nat, connection: Connection, expired: set<nat>, untilTaken: nat, expiredLater: set<nat>, demand: bool)
    requires OwnerInv(o)
    ensures Steady(o, DoAttemptDone(o, g, connection, expired, untilTaken, expiredLater, demand))
  {
    if o.attempt.Some? && o.attempt.value.generation == g {
      AttemptOverWaits(o, g, connection, expired, untilTaken, expiredLater, demand);
    }
    hide SettleCanceled, FilterQueue, AttemptConnected, AttemptFailed, OwnerInv;
  }

  /** The end of an attempt answers its caller and leaves no other one waiting but for a stop. */
  lemma AttemptOverWaits(o: Owner, g: nat, connection: Connection, expired: set<nat>, untilTaken: nat, expiredLater: set<nat>, demand: bool)
    requires OwnerInv(o) && o.attempt.Some? && o.attempt.value.generation == g
    ensures var r := DoAttemptDone(o, g, connection, expired, untilTaken, expiredLater, demand);
            r.stopWaiters == o.stopWaiters && r.attempt.None? && r.validation.None? && (r.cleanup.Some? ==> r.cleanup.value.reply.None? && r.cleanup.value.takeover.None?)
  {
    var o2 := AfterAttempt(o, expired);
    AfterAttemptIs(o, expired);
    FailedWaits(o2, g, o.attempt.value.takeover, connection.SessionLeft?);
    ConnectedWaits(o2, g, o.attempt.value.takeover, untilTaken, expiredLater, demand);
    hide WorkersInv, SettleCanceled, FilterQueue, AttemptFailed, AttemptConnected;
  }

  lemma FailedWaits(o: Owner, g: nat, takeover: Option<nat>, left: bool)
    requires o.attempt.None? && o.cleanup.None?
    ensures var r := AttemptFailed(o, g, takeover, left);
            r.stopWaiters == o.stopWaiters && r.attempt.None? && r.validation == o.validation && (r.cleanup.Some? ==> r.cleanup.value.reply.None? && r.cleanup.value.takeover.None?)
  {
    FailQueuedIs(o, Failed(AttemptError));
    hide FailQueued;
  }

  lemma ConnectedWaits(o: Owner, g: nat, takeover: Option<nat>, untilTaken: nat, expired: set<nat>, demand: bool)
    requires WorkersInv(o) && g != 0 && o.attempt.None? && o.cleanup.None?
    ensures var r := AttemptConnected(o, g, takeover, untilTaken, expired, demand);
            r.stopWaiters == o.stopWaiters && r.attempt.None? && r.validation == o.validation && (r.cleanup.Some? ==> r.cleanup.value.reply.None? && r.cleanup.value.takeover.None?)
  {
    var o1 := Answered(Spawn(o.(generation := Some(g), ownership := Active), Watch(g)), takeover, Success);
    WorkersFrame(o, o1);
    DispatchIs(o1, g, untilTaken, expired);
    hide Dispatch, WorkersInv;
  }

  lemma WorkerDoneSteady(o: Owner, worker: nat, g: nat, untilTaken: nat, expired: set<nat>, demand: bool)
    requires OwnerInv(o) && Awaited(o, Operate(worker, g))
    ensures Steady(o, DoWorkerDone(o, worker, g, untilTaken, expired, demand))
  {
    var o1 := Settle(o, worker, Own);
    assert OwnerInv(o1);
    hide OwnerInv, StartNext;
    StartNextIs(o1, untilTaken, expired);
  }

  lemma EndSteady(o: Owner, g: nat, recognized: bool)
    ensures Steady(o, DoGenerationEnded(o, g, recognized))
  {
    hide FailQueued;
    var cause := if recognized then SessionTakenOver else OwnershipUncertain;
    var validated := o.validation.Some? && o.validation.value.generation == g;
    FailQueuedIs(o.(ownership := if recognized then TakenOver else Uncertain, validation := if validated then None else o.validation), NotSent(cause));
  }

  lemma RecognizedSteady(o: Owner, g: nat)
    ensures Steady(o, DoTakeoverRecognized(o, g))
  {
    hide FailQueued;
    FailQueuedIs(o.(ownership := TakenOver,
                    cleanup := if PendingTerminal(o, g) then Some(o.cleanup.value.(target := TakenOver)) else o.cleanup), NotSent(SessionTakenOver));
  }

  /** The end of a cleanup leaves nobody waiting for one. */
  lemma CleanupOverWaits(o: Owner, g: nat, closed: bool, recognized: bool, permitTakeover: bool, permitQueue: bool)
    requires o.cleanup.Some? && o.cleanup.value.generation == g && o.attempt.None?
    ensures var r := DoCleanupDone(o, g, closed, recognized, permitTakeover, permitQueue);
            (&& r.stopWaiters == o.stopWaiters && r.validation == o.validation
             && (r.cleanup.Some? ==> r.cleanup.value.failed && r.cleanup.value.reply.None? && r.cleanup.value.takeover.None?)
             && (r.attempt.Some? ==> r.attempt.value.takeover == o.cleanup.value.takeover || r.attempt.value.takeover.None?))
  {
    if closed {
      ResumeWaits(Closed(o, recognized), o.cleanup.value.takeover, permitTakeover, permitQueue);
      hide Resume;
    } else {
      FailQueuedIs(o.(cleanup := Some(o.cleanup.value.(failed := true, reply := None, takeover := None)), ownership := Uncertain), NotSent(Busy));
      hide FailQueued;
    }
  }

  lemma ResumeWaits(o: Owner, takeover: Option<nat>, permitTakeover: bool, permitQueue: bool)
    requires o.cleanup.None? && o.attempt.None?
    ensures var r := Resume(o, takeover, permitTakeover, permitQueue);
            (&& r.stopWaiters == o.stopWaiters && r.validation == o.validation && r.cleanup.None?
             && (r.attempt.Some? ==> r.attempt.value.takeover == takeover || r.attempt.value.takeover.None?))
  {
    var (o1, err) := if takeover.Some? then StartAttempt(o, takeover, permitTakeover) else (o, None);
    var o2 := if err.Some? then Answered(o1, takeover, err.value) else o1;
    StartWaits(o, takeover, permitTakeover);
    StartWaits(o2, None, permitQueue);
    var (o3, failed) := StartAttempt(o2, None, permitQueue);
    if failed.Some? {
      FailQueuedIs(o3, failed.value);
    }
    hide StartAttempt, FailQueued;
  }

  lemma StartWaits(o: Owner, takeover: Option<nat>, permit: bool)
    ensures var r := StartAttempt(o, takeover, permit).0;
            (&& r.stopWaiters == o.stopWaiters && r.validation == o.validation && r.cleanup == o.cleanup
             && (r.attempt == o.attempt || (r.attempt.Some? && r.attempt.value.takeover == takeover)))
  {
  }

  lemma CleanupDoneSteady(o: Owner, g: nat, closed: bool, recognized: bool, permitTakeover: bool, permitQueue: bool)
    requires o.cleanup.Some? ==> o.attempt.None?
    ensures Steady(o, DoCleanupDone(o, g, closed, recognized, permitTakeover, permitQueue))
  {
    if o.cleanup.Some? && o.cleanup.value.generation == g {
      CleanupOverWaits(o, g, closed, recognized, permitTakeover, permitQueue);
    }
    hide Closed, Resume, CleanupFailed;
  }

  lemma ReleaseSteady(o: Owner, reply: nat, demand: bool)
    ensures Steady(o, DoRelease(o, reply, demand))
  {
  }

  /** A takeover waits behind a cleanup only as the caller that asked. */
  lemma TakeOverSteady(o: Owner, reply: nat, demand: bool, permit: bool)
    ensures var r := DoTakeOver(o, reply, demand, permit);
            Steady(o, r) || (r.stopWaiters == o.stopWaiters && r.cleanup.Some? && r.cleanup.value.takeover == Some(reply))
  {
    StartWaits(o, Some(reply), permit);
    hide StartAttempt;
  }

  lemma OtherSteady(o: Owner, g: nat, failed: bool, lost: bool, demand: bool)
    ensures Steady(o, DoValidationDone(o, g, failed, lost, demand)) && Steady(o, DoIdleExpired(o, g, demand)) && Steady(o, ScheduleIdle(o, demand))
  {
  }

  lemma StopSteady(o: Owner, reply: nat)
    requires OwnerInv(o)
    ensures var r := DoStop(o, reply); Steady(o.(stopWaiters := o.stopWaiters + [reply]), r)
  {
    StopQueueIs(o);
    hide CancelAll, FailQueued, OwnerInv;
  }

  /** Only the command's own caller starts to wait for a stop, or behind a cleanup. */
  lemma HandleSteady(o: Owner, c: Command)
    requires OwnerInv(o) && forall t: Task | Completes(c, t) && !t.Ping? :: Awaited(o, t)
    ensures var r := Handle(o, c);
            (&& r.stopWaiters == o.stopWaiters + (if c.Stop? then [c.reply] else [])
             && (r.cleanup.Some? && r.cleanup.value.takeover.Some? ==>
                   || (o.cleanup.Some? && o.cleanup.value.takeover == r.cleanup.value.takeover)
                   || (c.TakeOver? && r.cleanup.value.takeover == Some(c.reply))))
  {
    hide OwnerInv, Awaited, DoRegister, DoCancel, DoAttemptDone, DoWorkerDone, DoGenerationEnded, DoTakeoverRecognized, DoCleanupDone, DoStop, DoIdleExpired,
         DoRelease, DoTakeOver, DoValidationDone, ScheduleIdle;
    assert o.stopWaiters + [] == o.stopWaiters;
    CleanupExcludes(o);
    match c {
      case Register(permit, untilTaken, expired) => RegisterSteady(o, permit, untilTaken, expired);
      case Cancel(worker) => CancelSteady(o, worker);
      case AttemptDone(g, connection, expired, untilTaken, expiredLater, demand) => AttemptDoneSteady(o, g, connection, expired, untilTaken, expiredLater, demand);
      case WorkerDone(worker, g, untilTaken, expired, demand) =>
        assert Completes(c, Operate(worker, g));
        WorkerDoneSteady(o, worker, g, untilTaken, expired, demand);
      case GenerationEnded(g, recognized) => EndSteady(o, g, recognized);
      case TakeoverRecognized(g) => RecognizedSteady(o, g);
      case IdleExpired(g, demand) => OtherSteady(o, g, false, false, demand);
      case DemandChanged(demand) => OtherSteady(o, 0, false, false, demand);
      case CleanupDone(g, closed, recognized, permitTakeover, permitQueue) => CleanupDoneSteady(o, g, closed, recognized, permitTakeover, permitQueue);
      case Release(reply, demand) => ReleaseSteady(o, reply, demand);
      case TakeOver(reply, demand, permit) => TakeOverSteady(o, reply, demand, permit);
      case ValidationDone(g, failed, lost, demand) => OtherSteady(o, g, failed, lost, demand);
      case Stop(reply) => StopSteady(o, reply);
    }
  }

  lemma CleanupExcludes(o: Owner)
    requires OwnerInv(o)
    ensures o.cleanup.Some? ==> o.attempt.None? && o.generation.None?
  {
    hide WorkersInv;
  }

  /** The end of a validation, by its ping or with its generation, leaves none and no other claim. */
  lemma ValidationOverWaits(o: Owner, g: nat, failed: bool, lost: bool, demand: bool)
    requires o.validation.Some? && o.validation.value.generation == g && o.attempt.None?
    ensures var r := DoValidationDone(o, g, failed, lost, demand);
            r.validation.None? && r.attempt.None? && (r.cleanup == o.cleanup || (r.cleanup.Some? && r.cleanup.value.reply.None? && r.cleanup.value.takeover.None?))
  {
  }

  lemma GenerationOverWaits(o: Owner, g: nat, recognized: bool)
    requires o.generation == Some(g) && o.validation.Some? && o.validation.value.generation == g && o.attempt.None? && o.cleanup.None?
    ensures var r := DoGenerationEnded(o, g, recognized);
            r.validation.None? && r.attempt.None? && r.cleanup.Some? && r.cleanup.value.reply.None? && r.cleanup.value.takeover.None?
  {
    hide FailQueued;
    FailQueuedIs(o.(ownership := if recognized then TakenOver else Uncertain, validation := None),
                 NotSent(if recognized then SessionTakenOver else OwnershipUncertain));
  }

  // ---- What a stop waits for ----

  lemma FewerWorkers(few: map<nat, Worker>, many: map<nat, Worker>)
    requires few.Keys <= many.Keys
    ensures |few| <= |many|
    ensures few.Keys != many.Keys ==> |few| < |many|
  {
    var rest := many.Keys - few.Keys;
    assert many.Keys == few.Keys + rest && few.Keys !! rest;
    assert |few| == |few.Keys| && |many| == |many.Keys|;
  }

  predicate Unclaimed(o: Owner) {
    o.generation.None? && o.queue == [] && o.stopping
  }

  lemma StoppingParts(o: Owner)
    requires OwnerInv(o) && o.stopping
    ensures Unclaimed(o) && (o.attempt.Some? ==> o.validation.None? && o.cleanup.None?)
  {
    hide WorkersInv;
  }

  /** Nothing comes in, and nothing already there grows. */
  predicate Lessens(o: Owner, r: Owner) {
    && (r.attempt.Some? ==> o.attempt.Some?) && (r.validation.Some? ==> o.validation.Some?)
    && (r.cleanup.Some? && !r.cleanup.value.failed ==> o.cleanup.Some? && !o.cleanup.value.failed)
    && r.workers.Keys <= o.workers.Keys
  }

  lemma LessOutstanding(o: Owner, r: Owner)
    requires Lessens(o, r)
    ensures Outstanding(r) <= Outstanding(o)
    ensures o.validation.Some? && r.validation.None? ==> Outstanding(r) < Outstanding(o)
    ensures o.cleanup.Some? && !o.cleanup.value.failed && (r.cleanup.Some? ==> r.cleanup.value.failed) ==> Outstanding(r) < Outstanding(o)
    ensures r.workers.Keys != o.workers.Keys ==> Outstanding(r) < Outstanding(o)
  {
    FewerWorkers(r.workers, o.workers);
  }

  lemma AttemptLessens(o: Owner, g: nat, connection: Connection, expired: set<nat>, untilTaken: nat, expiredLater: set<nat>, demand: bool)
    requires OwnerInv(o) && o.stopping && o.attempt.Some? && o.attempt.value.generation == g
    ensures Outstanding(DoAttemptDone(o, g, connection, expired, untilTaken, expiredLater, demand)) < Outstanding(o)
  {
    StoppingParts(o);
    var o2 := AfterAttempt(o, expired);
    AfterAttemptIs(o, expired);
    FailQueuedIs(o2, Failed(AttemptError));
    var r := DoAttemptDone(o, g, connection, expired, untilTaken, expiredLater, demand);
    AttemptOverLeaves(o, g, connection, expired, untilTaken, expiredLater, demand);
    AttemptOverWaits(o, g, connection, expired, untilTaken, expiredLater, demand);
    assert r.workers.Keys <= o.workers.Keys;
    FewerWorkers(r.workers, o.workers);
    hide OwnerInv, SettleCanceled, FilterQueue, FailQueued;
  }

  lemma CleanupLessens(o: Owner, g: nat, closed: bool, recognized: bool, permitTakeover: bool, permitQueue: bool)
    requires Unclaimed(o) && o.cleanup.Some? && !o.cleanup.value.failed && o.cleanup.value.generation == g && o.attempt.None?
    ensures Outstanding(DoCleanupDone(o, g, closed, recognized, permitTakeover, permitQueue)) < Outstanding(o)
  {
    var r := DoCleanupDone(o, g, closed, recognized, permitTakeover, permitQueue);
    if closed {
      ResumeStopped(Closed(o, recognized), o.cleanup.value.takeover, permitTakeover, permitQueue);
      hide Resume;
      assert r.workers == o.workers && r.cleanup.None? && r.attempt.None? && r.validation == o.validation;
    } else {
      FailedKeepsWorkers(o);
      hide CleanupFailed;
    }
    LessOutstanding(o, r);
    hide Outstanding;
  }

  lemma FailedKeepsWorkers(o: Owner)
    requires o.cleanup.Some?
    ensures var r := CleanupFailed(o);
            r.attempt == o.attempt && r.validation == o.validation && r.cleanup.Some? && r.cleanup.value.failed && r.workers.Keys <= o.workers.Keys
  {
    FailQueuedIs(o.(cleanup := Some(o.cleanup.value.(failed := true, reply := None, takeover := None)), ownership := Uncertain), NotSent(Busy));
    hide FailQueued;
  }

  lemma ResumeStopped(o: Owner, takeover: Option<nat>, permitTakeover: bool, permitQueue: bool)
    requires o.stopping
    ensures var r := Resume(o, takeover, permitTakeover, permitQueue);
            r.workers == o.workers && r.cleanup == o.cleanup && r.attempt == o.attempt && r.validation == o.validation
  {
  }

  lemma WorkerLessens(o: Owner, worker: nat, g: nat, untilTaken: nat, expired: set<nat>, demand: bool)
    requires Unclaimed(o) && worker in o.workers && o.workers[worker].generation == g != 0
    ensures Outstanding(DoWorkerDone(o, worker, g, untilTaken, expired, demand)) < Outstanding(o)
  {
    var r := Settle(o, worker, Own);
    assert DoWorkerDone(o, worker, g, untilTaken, expired, demand) == r;
    assert worker in o.workers.Keys && worker !in r.workers.Keys;
    LessOutstanding(o, r);
  }

  lemma ValidationLessens(o: Owner, g: nat, failed: bool, lost: bool, demand: bool)
    requires Unclaimed(o)
    ensures Outstanding(DoValidationDone(o, g, failed, lost, demand)) <= Outstanding(o)
    ensures o.validation.Some? && o.validation.value.generation == g ==> Outstanding(DoValidationDone(o, g, failed, lost, demand)) < Outstanding(o)
  {
  }

  lemma CancelLessens(o: Owner, worker: nat)
    ensures Outstanding(DoCancel(o, worker)) <= Outstanding(o)
  {
    var r := DoCancel(o, worker);
    hide Without;
    assert Lessens(o, r);
    LessOutstanding(o, r);
    hide Outstanding, Lessens;
  }

  lemma OtherLessens(o: Owner, permit: bool, untilTaken: nat, expired: set<nat>, g: nat, recognized: bool, demand: bool, reply: nat)
    requires Unclaimed(o)
    ensures Outstanding(DoRegister(o, permit, untilTaken, expired)) == Outstanding(o)
    ensures DoGenerationEnded(o, g, recognized) == o && DoTakeoverRecognized(o, g) == o
    ensures Outstanding(DoIdleExpired(o, g, demand)) == Outstanding(o) && ScheduleIdle(o, demand) == o
    ensures Outstanding(DoRelease(o, reply, demand)) == Outstanding(o) && Outstanding(DoTakeOver(o, reply, demand, permit)) == Outstanding(o)
    ensures Outstanding(DoStop(o, reply)) == Outstanding(o)
  {
  }

  /** Once stopping, no command adds to what is outstanding, and each end takes from it. */
  lemma StoppingLessens(o: Owner, c: Command)
    requires OwnerInv(o) && o.stopping && forall t: Task | Completes(c, t) && !t.Ping? :: Awaited(o, t)
    ensures Outstanding(Handle(o, c)) <= Outstanding(o)
    ensures c.AttemptDone? || c.CleanupDone? || c.WorkerDone? || (c.ValidationDone? && o.validation.Some? && o.validation.value.generation == c.generation)
            ==> Outstanding(Handle(o, c)) < Outstanding(o)
  {
    StoppingParts(o);
    hide OwnerInv, Outstanding, Unclaimed, DoRegister, DoCancel, DoAttemptDone, DoWorkerDone, DoGenerationEnded, DoTakeoverRecognized, DoCleanupDone, DoStop, DoIdleExpired,
         DoRelease, DoTakeOver, DoValidationDone, ScheduleIdle;
    match c {
      case Register(permit, untilTaken, expired) => OtherLessens(o, permit, untilTaken, expired, 0, false, false, 0);
      case Cancel(worker) => CancelLessens(o, worker);
      case AttemptDone(g, connection, expired, untilTaken, expiredLater, demand) =>
        assert Completes(c, Connect(g));
        AttemptLessens(o, g, connection, expired, untilTaken, expiredLater, demand);
      case WorkerDone(worker, g, untilTaken, expired, demand) =>
        assert Completes(c, Operate(worker, g));
        WorkerLessens(o, worker, g, untilTaken, expired, demand);
      case GenerationEnded(g, recognized) => OtherLessens(o, false, 0, {}, g, recognized, false, 0);
      case TakeoverRecognized(g) => OtherLessens(o, false, 0, {}, g, false, false, 0);
      case IdleExpired(g, demand) => OtherLessens(o, false, 0, {}, g, false, demand, 0);
      case DemandChanged(demand) => OtherLessens(o, false, 0, {}, 0, false, demand, 0);
      case CleanupDone(g, closed, recognized, permitTakeover, permitQueue) =>
        assert Completes(c, CloseSession(g));
        CleanupLessens(o, g, closed, recognized, permitTakeover, permitQueue);
      case Release(reply, demand) => OtherLessens(o, false, 0, {}, 0, false, demand, reply);
      case TakeOver(reply, demand, permit) => OtherLessens(o, permit, 0, {}, 0, false, demand, reply);
      case ValidationDone(g, failed, lost, demand) => ValidationLessens(o, g, failed, lost, demand);
      case Stop(reply) => OtherLessens(o, false, 0, {}, 0, false, false, reply);
    }
  }

  // ---- Closer and closer ----

  /** At the end of a turn everything stays as it is, but that the callers of stop may be answered. */
  lemma FinishWaits(o: Owner)
    ensures var r := FinishIfStopped(o);
            (&& r.attempt == o.attempt && r.validation == o.validation && r.cleanup == o.cleanup && r.workers == o.workers
             && (r.stopWaiters == o.stopWaiters || r.stopWaiters == []))
  {
    AnswerAllIs(o, o.stopWaiters, if o.cleanup.Some? then Failed(CloseError) else Success);
    hide AnswerAll;
  }

  lemma {:induction false} WaitersCounted(waiters: seq<nat>, caller: nat)
    ensures caller in waiters <==> WaiterCount(waiters, caller) >= 1
  {
    if waiters != [] {
      assert waiters == [waiters[0]] + waiters[1..];
      WaitersCounted(waiters[1..], caller);
    }
  }

  /** A caller waits in one place at most, has asked before, and then cannot ask again. */
  lemma OnePlace(w: World, e: Event, caller: nat)
    requires WorldInv(w) && Possible(w, e) && (HasClaim(w.o, caller) || caller in w.o.stopWaiters)
    ensures Claims(w.o, caller) == 1 && caller in w.asked && !w.o.finished
    ensures CommandOf(w, e).Some? ==> !Asks(CommandOf(w, e).value, caller)
  {
    WaitersCounted(w.o.stopWaiters, caller);
    WorldTasks(w);
    NotOverYet(w.o, caller);
    assert CallerBooks(w.o, caller) == One(caller in w.asked);
    hide WorldInv, OwnerInv, TasksInv, FinishedInv, Tidy, Sessions, WaiterCount, AnswerCount, InFlight, Honest;
  }

  lemma NotOverYet(o: Owner, caller: nat)
    requires OwnerInv(o) && FinishedInv(o) && (HasClaim(o, caller) || caller in o.stopWaiters)
    ensures !o.finished
  {
    hide WorkersInv;
  }

  /** What a turn makes of an event's command. */
  lemma EventTurn(w: World, e: Event)
    requires WorldInv(w) && Possible(w, e) && !w.o.finished
    ensures match CommandOf(w, e)
            case None => After(w, e).o == w.o
            case Some(c) => After(w, e).o == FinishIfStopped(Handle(w.o, c)) && forall t: Task | Completes(c, t) && !t.Ping? :: Awaited(w.o, t)
  {
    WorldTasks(w);
    if CommandOf(w, e).Some? {
      NotStale(w, e, CommandOf(w, e).value);
    }
    hide WorldInv, TasksInv, OwnerInv, BooksInv, FinishedInv, Tidy, Possible, Handle, FinishIfStopped, Completes, Awaited, CommandOf;
  }

  /** A release or takeover: no farther, and closer at the end of what it waits for. */
  lemma ClaimCloser(w: World, e: Event, caller: nat)
    requires WorldInv(w) && Possible(w, e) && HasClaim(w.o, caller)
    ensures CallerDistance(After(w, e).o, caller) <= CallerDistance(w.o, caller)
    ensures EndsFor(w, e, caller) ==> CallerDistance(After(w, e).o, caller) < CallerDistance(w.o, caller)
  {
    OnePlace(w, e, caller);
    EventTurn(w, e);
    WorldTasks(w);
    WaitersCounted(w.o.stopWaiters, caller);
    if CommandOf(w, e).Some? {
      var c := CommandOf(w, e).value;
      HandleSteady(w.o, c);
      FinishWaits(Handle(w.o, c));
      if EndsFor(w, e, caller) {
        ClaimEnds(w, e, caller);
      }
    }
    hide WorldInv, OwnerInv, TasksInv, BooksInv, FinishedInv, Tidy, Possible, Handle, FinishIfStopped, Completes, Awaited, WaiterCount, After, Sessions;
  }

  /** The caller waits for nothing, unless the cleanup it waited behind has made way for its attempt. */
  predicate ClaimOver(o: Owner, r: Owner, caller: nat) {
    && !(r.cleanup.Some? && r.cleanup.value.takeover == Some(caller))
    && (HasClaim(r, caller) ==> o.cleanup.Some? && o.cleanup.value.takeover == Some(caller))
  }

  lemma AttemptEndsClaim(o: Owner, g: nat, connection: Connection, expired: set<nat>, untilTaken: nat, expiredLater: set<nat>, demand: bool, caller: nat)
    requires OwnerInv(o) && o.attempt.Some? && o.attempt.value.generation == g
    ensures ClaimOver(o, DoAttemptDone(o, g, connection, expired, untilTaken, expiredLater, demand), caller)
  {
    AttemptOverWaits(o, g, connection, expired, untilTaken, expiredLater, demand);
    hide OwnerInv, DoAttemptDone;
  }

  lemma CleanupEndsClaim(o: Owner, g: nat, closed: bool, recognized: bool, permitTakeover: bool, permitQueue: bool, caller: nat)
    requires o.cleanup.Some? && o.cleanup.value.generation == g && o.attempt.None?
    requires !(o.validation.Some? && o.validation.value.reply == caller)
    ensures ClaimOver(o, DoCleanupDone(o, g, closed, recognized, permitTakeover, permitQueue), caller)
  {
    CleanupOverWaits(o, g, closed, recognized, permitTakeover, permitQueue);
    hide DoCleanupDone;
  }

  lemma PingEndsClaim(o: Owner, g: nat, failed: bool, lost: bool, demand: bool, caller: nat)
    requires o.validation.Some? && o.validation.value.generation == g && o.attempt.None?
    requires !(o.cleanup.Some? && (o.cleanup.value.reply == Some(caller) || o.cleanup.value.takeover == Some(caller)))
    ensures ClaimOver(o, DoValidationDone(o, g, failed, lost, demand), caller)
  {
    ValidationOverWaits(o, g, failed, lost, demand);
    hide DoValidationDone;
  }

  lemma WatchEndsClaim(o: Owner, g: nat, recognized: bool, caller: nat)
    requires o.generation == Some(g) && o.validation.Some? && o.validation.value.generation == g && o.attempt.None? && o.cleanup.None?
    ensures ClaimOver(o, DoGenerationEnded(o, g, recognized), caller)
  {
    GenerationOverWaits(o, g, recognized);
    hide DoGenerationEnded;
  }

  /** The end itself. */
  lemma ClaimEnds(w: World, e: Event, caller: nat)
    requires OwnerInv(w.o) && Claims(w.o, caller) == 1 && caller !in w.o.stopWaiters && EndsFor(w, e, caller)
    requires CommandOf(w, e).Some?
    ensures ClaimOver(w.o, Handle(w.o, CommandOf(w, e).value), caller)
  {
    var o := w.o;
    EndParts(o);
    OneClaim(o, caller);
    HandlesEnd(w, e);
    hide OwnerInv, Claims, HasClaim, ClaimOver, Handle, CommandOf, DoAttemptDone, DoCleanupDone, DoValidationDone, DoGenerationEnded;
    if e.AttemptReturns? {
      AttemptEndsClaim(o, e.generation, e.connection, e.expired, e.untilTaken, e.expiredLater, e.demand, caller);
    } else if e.CloseReturns? {
      CleanupEndsClaim(o, e.generation, e.closed, e.generation in w.recognized, e.permitTakeover, e.permitQueue, caller);
    } else if e.PingReturns? {
      PingEndsClaim(o, e.generation, e.failed, e.generation in w.lost, e.demand, caller);
    } else {
      WatchEndsClaim(o, e.generation, e.generation in w.recognized, caller);
    }
  }

  lemma HandlesEnd(w: World, e: Event)
    requires CommandOf(w, e).Some?
    ensures var r := Handle(w.o, CommandOf(w, e).value);
            match e
            case AttemptReturns(g, connection, expired, untilTaken, expiredLater, demand) => r == DoAttemptDone(w.o, g, connection, expired, untilTaken, expiredLater, demand)
            case CloseReturns(g, closed, permitTakeover, permitQueue) => r == DoCleanupDone(w.o, g, closed, g in w.recognized, permitTakeover, permitQueue)
            case PingReturns(g, failed, demand) => r == DoValidationDone(w.o, g, failed, g in w.lost, demand)
            case WatchSignaled(g) => r == DoGenerationEnded(w.o, g, g in w.recognized)
            case WatchLost(g) => r == DoGenerationEnded(w.o, g, g in w.recognized)
            case _ => true
  {
    hide DoRegister, DoCancel, DoAttemptDone, DoWorkerDone, DoGenerationEnded, DoTakeoverRecognized, DoCleanupDone, DoStop, DoIdleExpired, DoRelease, DoTakeOver,
         DoValidationDone, ScheduleIdle;
  }

  lemma OneClaim(o: Owner, caller: nat)
    requires Claims(o, caller) == 1
    ensures o.validation.Some? && o.validation.value.reply == caller
            ==> !(o.cleanup.Some? && (o.cleanup.value.reply == Some(caller) || o.cleanup.value.takeover == Some(caller)))
  {
    hide WaiterCount;
  }

  lemma EndParts(o: Owner)
    requires OwnerInv(o)
    ensures o.validation.Some? || o.cleanup.Some? ==> o.attempt.None?
    ensures o.validation.Some? && o.generation.Some? ==> o.validation.value.generation == o.generation.value && o.cleanup.None?
  {
    hide WorkersInv;
  }

  /** A stop: no farther, and closer at the end of anything outstanding. */
  lemma StopCloser(w: World, e: Event, caller: nat)
    requires WorldInv(w) && Possible(w, e) && caller in w.o.stopWaiters
    ensures CallerDistance(After(w, e).o, caller) <= CallerDistance(w.o, caller)
    ensures EndsFor(w, e, caller) ==> CallerDistance(After(w, e).o, caller) < CallerDistance(w.o, caller)
  {
    OnePlace(w, e, caller);
    EventTurn(w, e);
    WorldTasks(w);
    WaitersStop(w.o);
    StillOutstanding(w.o);
    if CommandOf(w, e).Some? {
      var c := CommandOf(w, e).value;
      var r := Handle(w.o, c);
      StoppingLessens(w.o, c);
      HandleSteady(w.o, c);
      FinishWaits(r);
      StopAnswered(w, e, caller);
    }
    hide WorldInv, OwnerInv, TasksInv, BooksInv, FinishedInv, Tidy, Possible, Handle, FinishIfStopped, Completes, Awaited, WaiterCount, After, Sessions, HasClaim, Claims;
  }

  lemma WaitersStop(o: Owner)
    requires OwnerInv(o)
    ensures o.stopWaiters != [] ==> o.stopping
  {
    hide WorkersInv;
  }

  lemma StillOutstanding(o: Owner)
    requires OwnerInv(o) && FinishedInv(o) && o.stopWaiters != []
    ensures Outstanding(o) >= 1
  {
    StopHolds(o);
    assert o.workers != map[] ==> |o.workers| != 0;
    hide OwnerInv;
  }

  /** A caller no longer waiting for its stop waits for nothing else. */
  lemma StopAnswered(w: World, e: Event, caller: nat)
    requires WorldInv(w) && Possible(w, e) && caller in w.o.stopWaiters
    ensures caller !in After(w, e).o.stopWaiters ==> CallerDistance(After(w, e).o, caller) == 0
  {
    OnePlace(w, e, caller);
    WorldTasks(w);
    TurnMovesWorld(w, e);
    WaitersCounted(w.o.stopWaiters, caller);
    NotSends(w, e, caller);
    assert !HasClaim(w.o, caller);
    ClaimOfTakeover(After(w, e).o, caller);
    hide WorldInv, OwnerInv, TasksInv, BooksInv, FinishedInv, Tidy, Possible, WaiterCount, Sessions, OwnerAfter;
  }

  lemma NotSends(w: World, e: Event, caller: nat)
    requires Possible(w, e) && caller in w.asked
    ensures !Sends(e, caller)
  {
  }

  lemma ClaimOfTakeover(o: Owner, caller: nat)
    ensures o.cleanup.Some? && o.cleanup.value.takeover == Some(caller) ==> HasClaim(o, caller)
  {
  }

  /** Over whole runs, for every caller of release, takeover and stop: the distance is zero exactly when it
      has been answered; no event makes it larger; each end of what the caller waits for makes it smaller. */
  lemma NoCallerForgotten(ownership: Ownership, events: seq<Event>, e: Event, caller: nat)
    requires ownership != Active && ownership != Stopped && IsRun(ownership, events + [e])
    requires caller in Run(ownership, events).asked
    ensures var w, v := Run(ownership, events), Run(ownership, events + [e]);
            (&& (CallerDistance(w.o, caller) == 0 <==> AnswerCount(w.o.answers, caller) == 1)
             && CallerDistance(v.o, caller) <= CallerDistance(w.o, caller)
             && (CallerDistance(w.o, caller) != 0 && EndsFor(w, e, caller) ==> CallerDistance(v.o, caller) < CallerDistance(w.o, caller)))
  {
    hide WorldInv, After, Possible, EndsFor;
    assert (events + [e])[..|events + [e]| - 1] == events;
    var w, v := Run(ownership, events), Run(ownership, events + [e]);
    EveryRun(ownership, events);
    EveryRun(ownership, events + [e]);
    assert v == After(w, e) && Possible(w, e);
    AskedStays(w, e, caller);
    DistanceMeans(w, caller);
    DistanceMeans(v, caller);
    if HasClaim(w.o, caller) {
      ClaimCloser(w, e, caller);
    } else if caller in w.o.stopWaiters {
      StopCloser(w, e, caller);
    } else {
      AnsweredStays(w, e, caller);
    }
    hide Run, IsRun, CallerDistance;
  }

  lemma AskedStays(w: World, e: Event, caller: nat)
    ensures caller in w.asked ==> caller in After(w, e).asked
  {
    hide OwnerAfter;
  }

  lemma DistanceMeans(w: World, caller: nat)
    requires WorldInv(w) && caller in w.asked
    ensures CallerDistance(w.o, caller) == 0 <==> AnswerCount(w.o.answers, caller) == 1
    ensures CallerDistance(w.o, caller) == 0 <==> !HasClaim(w.o, caller) && caller !in w.o.stopWaiters
  {
    WorldTasks(w);
    WaitersCounted(w.o.stopWaiters, caller);
    if w.o.stopWaiters != [] {
      StillOutstanding(w.o);
    }
    assert CallerBooks(w.o, caller) == 1;
    hide WorldInv, OwnerInv, TasksInv, BooksInv, FinishedInv, Tidy, Sessions, WaiterCount, AnswerCount, Outstanding;
  }

  /** Answered once is answered for good: nothing is asked twice. */
  lemma AnsweredStays(w: World, e: Event, caller: nat)
    requires WorldInv(w) && Possible(w, e) && caller in w.asked && !HasClaim(w.o, caller) && caller !in w.o.stopWaiters
    ensures CallerDistance(After(w, e).o, caller) == 0
  {
    WorldTasks(w);
    var v := After(w, e);
    StepKeeps(w, e);
    WorldTasks(v);
    AskedStays(w, e, caller);
    DistanceMeans(w, caller);
    DistanceMeans(v, caller);
    AfterGrows(w, e);
    AnswerCountGrows(w.o.answers, v.o.answers, caller);
    assert CallerBooks(v.o, caller) == 1;
    assert AnswerCount(v.o.answers, caller) == 1;
    hide WorldInv, OwnerInv, TasksInv, BooksInv, FinishedInv, Tidy, Possible, Sessions, After, CallerDistance, Claims;
  }

  lemma {:induction false} AnswerCountGrows(a: seq<Answer>, b: seq<Answer>, caller: nat)
    requires a <= b
    ensures AnswerCount(a, caller) <= AnswerCount(b, caller)
    decreases |b|
  {
    if a == b {
    } else {
      assert a <= b[..|b| - 1];
      AnswerCountGrows(a, b[..|b| - 1], caller);
    }
  }
}
