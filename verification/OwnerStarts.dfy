/** A worker answered by the loop itself was never handed to a session: cancellation against dispatch. */
module OwnerStarts {
  import opened Options
  import opened OwnerModel
  import opened OwnerSafety
  import opened OwnerBooks
  import opened OwnerMoves
  import opened OwnerRuns

  /** How often the worker's operation was started. */
  function StartCount(spawned: seq<Task>, worker: nat): nat {
    if spawned == [] then 0
    else
      var last := spawned[|spawned| - 1];
      StartCount(spawned[..|spawned| - 1], worker) + One(last.Operate? && last.worker == worker)
  }

  /** How often the worker was given its operation's own result. */
  function OwnCount(replies: seq<Reply>, worker: nat): nat {
    if replies == [] then 0
    else OwnCount(replies[..|replies| - 1], worker) + One(replies[|replies| - 1] == Reply(worker, Own))
  }

  predicate AtWork(o: Owner, worker: nat) {
    worker in o.workers && o.workers[worker].generation != 0
  }

  /** Started, but neither at work nor answered with its own result. */
  function Lost(o: Owner, worker: nat): int {
    StartCount(o.spawned, worker) - OwnCount(o.replies, worker) - One(AtWork(o, worker))
  }

  lemma LostFrame(o: Owner, r: Owner, worker: nat)
    requires r.workers == o.workers && r.spawned == o.spawned && r.replies == o.replies
    ensures Lost(r, worker) == Lost(o, worker)
  {
  }

  lemma SpawnOther(o: Owner, task: Task, worker: nat)
    requires !task.Operate?
    ensures Lost(Spawn(o, task), worker) == Lost(o, worker)
  {
    assert (o.spawned + [task])[..|o.spawned|] == o.spawned;
  }

  lemma SettleLost(o: Owner, r: Owner, settled: nat, verdict: Verdict, worker: nat)
    requires settled in o.workers && (verdict == Own <==> o.workers[settled].generation != 0)
    requires r.workers == o.workers - {settled} && r.replies == o.replies + [Reply(settled, verdict)] && r.spawned == o.spawned
    ensures Lost(r, worker) == Lost(o, worker)
  {
    assert (o.replies + [Reply(settled, verdict)])[..|o.replies|] == o.replies;
    hide StartCount;
  }

  lemma {:induction false} SettleAllLost(o: Owner, queue: seq<nat>, verdict: Verdict, worker: nat)
    requires verdict != Own && forall id | id in queue && id in o.workers :: o.workers[id].generation == 0
    ensures Lost(SettleAll(o, queue, verdict), worker) == Lost(o, worker)
    decreases |queue|
  {
    hide Lost;
    if queue != [] {
      assert queue == [queue[0]] + queue[1..];
      if queue[0] in o.workers {
        SettleLost(o, Settle(o, queue[0], verdict), queue[0], verdict, worker);
        SettleAllLost(Settle(o, queue[0], verdict), queue[1..], verdict, worker);
      } else {
        SettleAllLost(o, queue[1..], verdict, worker);
      }
    }
  }

  lemma FailQueuedLost(o: Owner, verdict: Verdict, worker: nat)
    requires WorkersInv(o) && verdict != Own
    ensures Lost(FailQueued(o, verdict), worker) == Lost(o, worker)
  {
    SettleAllLost(o, o.queue, verdict, worker);
    hide SettleAll, Unique, StartCount, OwnCount;
  }

  lemma HandedOver(o: Owner, r: Owner, id: nat, g: nat, worker: nat)
    requires id in o.workers && o.workers[id].generation == 0 && g != 0
    requires r.workers == o.workers[id := o.workers[id].(generation := g)] && r.spawned == o.spawned + [Operate(id, g)] && r.replies == o.replies
    ensures Lost(r, worker) == Lost(o, worker)
  {
    assert (o.spawned + [Operate(id, g)])[..|o.spawned|] == o.spawned;
    hide OwnCount;
  }

  lemma HandOverLost(o: Owner, g: nat, expired: set<nat>, worker: nat)
    requires WorkersInv(o) && g != 0 && o.queue != []
    ensures Lost(HandOver(o, g, expired), worker) == Lost(o, worker)
  {
    hide WorkersInv, Lost;
    HandOverIs(o, g, expired);
    var id, r := o.queue[0], HandOver(o, g, expired);
    if id in expired {
      SettleLost(o, r, id, NotSent(ContextEnded), worker);
    } else {
      HandedOver(o, r, id, g, worker);
    }
  }

  lemma {:induction false} DispatchLost(o: Owner, g: nat, untilTaken: nat, expired: set<nat>, worker: nat)
    requires WorkersInv(o) && g != 0
    ensures Lost(Dispatch(o, g, untilTaken, expired), worker) == Lost(o, worker)
    decreases |o.queue|
  {
    hide WorkersInv, Lost, HandOver;
    if o.queue != [] && untilTaken != 0 {
      HandOverIs(o, g, expired);
      HandOverLost(o, g, expired, worker);
      DispatchLost(HandOver(o, g, expired), g, untilTaken - 1, expired, worker);
    }
  }

  lemma StartNextLost(o: Owner, untilTaken: nat, expired: set<nat>, demand: bool, worker: nat)
    requires OwnerInv(o)
    ensures Lost(StartNext(o, untilTaken, expired), worker) == Lost(o, worker)
    ensures Lost(ScheduleIdle(StartNext(o, untilTaken, expired), demand), worker) == Lost(o, worker)
  {
    if o.generation.Some? {
      DispatchLost(o, o.generation.value, untilTaken, expired, worker);
    }
    hide Dispatch, WorkersInv, StartCount, OwnCount;
  }

  lemma {:induction false} SettleCanceledLost(o: Owner, last: nat, worker: nat)
    requires forall id | id in o.workers && o.workers[id].canceled :: o.workers[id].generation == 0
    ensures Lost(SettleCanceled(o, last), worker) == Lost(o, worker)
  {
    hide Lost;
    if last != 0 {
      SettleCanceledLost(o, last - 1, worker);
      SettleCanceledIs(o, last - 1);
      var before := SettleCanceled(o, last - 1);
      if last in before.workers && before.workers[last].canceled {
        SettleLost(before, Settle(before, last, NotSent(ContextEnded)), last, NotSent(ContextEnded), worker);
      }
    }
  }

  lemma {:induction false} FilterLost(o: Owner, queue: seq<nat>, kept: seq<nat>, expired: set<nat>, worker: nat)
    requires forall id | id in queue && id in o.workers :: o.workers[id].generation == 0
    ensures Lost(FilterQueue(o, queue, kept, expired), worker) == Lost(o, worker)
    decreases |queue|
  {
    hide Lost;
    if queue == [] {
      LostFrame(o, o.(queue := kept), worker);
    } else {
      assert queue == [queue[0]] + queue[1..];
      if queue[0] !in o.workers {
        FilterLost(o, queue[1..], kept, expired, worker);
      } else if queue[0] in expired {
        SettleLost(o, Settle(o, queue[0], NotSent(ContextEnded)), queue[0], NotSent(ContextEnded), worker);
        FilterLost(Settle(o, queue[0], NotSent(ContextEnded)), queue[1..], kept, expired, worker);
      } else {
        FilterLost(o, queue[1..], kept + [queue[0]], expired, worker);
      }
    }
  }

  lemma AfterAttemptLost(o: Owner, expired: set<nat>, worker: nat)
    requires WorkersInv(o)
    ensures Lost(AfterAttempt(o, expired), worker) == Lost(o, worker)
  {
    var o0 := o.(attempt := None);
    LostFrame(o, o0, worker);
    SettleCanceledLost(o0, o.nextWorker, worker);
    SettleCanceledIs(o0, o.nextWorker);
    var o1 := SettleCanceled(o0, o.nextWorker);
    hide SettleCanceled, FilterQueue, Lost, Unique;
    FilterLost(o1, o1.queue, [], expired, worker);
  }

  lemma EnterLost(o: Owner, permit: bool, worker: nat)
    requires WorkersInv(o)
    ensures Lost(Enter(o, permit).0, worker) == Lost(o, worker)
    ensures Delist(Enlist(o), o.nextWorker + 1).workers == o.workers
  {
    assert o.nextWorker + 1 !in o.workers;
    assert Lost(Enlist(o), worker) == Lost(o, worker);
    hide Lost;
    AttemptLost(Enlist(o), None, permit, worker);
  }

  lemma AttemptLost(o: Owner, takeover: Option<nat>, permit: bool, worker: nat)
    ensures Lost(StartAttempt(o, takeover, permit).0, worker) == Lost(o, worker)
  {
    var g := o.nextGeneration + 1;
    var o1 := o.(nextGeneration := g, attempt := Some(Attempt(g, takeover)));
    LostFrame(o, o1, worker);
    SpawnOther(o1, Connect(g), worker);
    hide Lost;
  }

  lemma RegisterLost(o: Owner, permit: bool, untilTaken: nat, expired: set<nat>, worker: nat)
    requires OwnerInv(o)
    ensures Lost(DoRegister(o, permit, untilTaken, expired), worker) == Lost(o, worker)
  {
    var r := DoRegister(o, permit, untilTaken, expired);
    EnterLost(o, permit, worker);
    hide WorkersInv, PhaseInv, StartNext, Refusal, Lost, Without, Enter, Admits;
    if !Admits(o) {
      LostFrame(o, r, worker);
    } else {
      EnterIs(o, permit);
      var (o2, err) := Enter(o, permit);
      var id := o.nextWorker + 1;
      if err.Some? {
        LostFrame(o, r, worker);
      } else {
        hide Enlist;
        LostFrame(o2, Acked(o2, Accepted(id)), worker);
        AckedKeeps(o2, Accepted(id));
        StartNextLost(Acked(o2, Accepted(id)), untilTaken, expired, false, worker);
      }
    }
  }

  lemma CancelLost(o: Owner, canceled: nat, worker: nat)
    ensures Lost(DoCancel(o, canceled), worker) == Lost(o, worker)
  {
    hide Without, StartCount;
    var r := DoCancel(o, canceled);
    if canceled in o.workers && o.workers[canceled].generation == 0 {
      var o1 := o.(queue := Without(o.queue, canceled));
      if !(o1.attempt.Some? && |o1.queue| == 0) {
        SettleLost(o, r, canceled, NotSent(ContextEnded), worker);
      }
    }
    hide OwnCount;
  }

  lemma AttemptDoneLost(o: Owner, g: nat, connection: Connection, expired: set<nat>, untilTaken: nat, expiredLater: set<nat>, demand: bool, worker: nat)
    requires OwnerInv(o)
    ensures Lost(DoAttemptDone(o, g, connection, expired, untilTaken, expiredLater, demand), worker) == Lost(o, worker)
  {
    hide SettleCanceled, FilterQueue, AttemptConnected, AttemptFailed, WorkersInv, Lost;
    if o.attempt.Some? && o.attempt.value.generation == g {
      var takeover := o.attempt.value.takeover;
      AfterAttemptIs(o, expired);
      AfterAttemptQueue(o, expired);
      AfterAttemptLost(o, expired, worker);
      var o2 := AfterAttempt(o, expired);
      AttemptFailedLost(o2, g, takeover, connection.SessionLeft?, worker);
      AttemptConnectedLost(o2, g, takeover, untilTaken, expiredLater, demand, worker);
    } else {
      SpawnOther(o, CloseStray(g), worker);
    }
  }

  lemma AttemptFailedLost(o: Owner, g: nat, takeover: Option<nat>, left: bool, worker: nat)
    requires WorkersInv(o)
    ensures Lost(AttemptFailed(o, g, takeover, left), worker) == Lost(o, worker)
  {
    hide FailQueued, WorkersInv, Lost;
    FailQueuedLost(o, Failed(AttemptError), worker);
    LostFrame(FailQueued(o, Failed(AttemptError)), AttemptFailed(o, g, takeover, left), worker);
  }

  lemma AttemptConnectedLost(o: Owner, g: nat, takeover: Option<nat>, untilTaken: nat, expired: set<nat>, demand: bool, worker: nat)
    requires AttemptOver(o, g, takeover)
    ensures Lost(AttemptConnected(o, g, takeover, untilTaken, expired, demand), worker) == Lost(o, worker)
  {
    hide StartNext, ScheduleIdle, WorkersInv, Lost;
    if !o.stopping && (|o.queue| != 0 || takeover.Some?) {
      var o0 := o.(generation := Some(g), ownership := Active);
      LostFrame(o, o0, worker);
      SpawnOther(o0, Watch(g), worker);
      var o1 := Answered(Spawn(o0, Watch(g)), takeover, Success);
      LostFrame(Spawn(o0, Watch(g)), o1, worker);
      WorkersFrame(o, o1);
      StartNextLost(o1, untilTaken, expired, demand, worker);
    } else {
      var o1 := Answered(o, takeover, NotSent(SessionClosed));
      var o2 := o1.(cleanup := Some(Cleanup(g, if o.stopping then Stopped else Idle, false, None, None, false)));
      LostFrame(o, o2, worker);
      SpawnOther(o2, CloseSession(g), worker);
    }
  }

  lemma WorkerDoneLost(o: Owner, done: nat, g: nat, untilTaken: nat, expired: set<nat>, demand: bool, worker: nat)
    requires OwnerInv(o)
    ensures Lost(DoWorkerDone(o, done, g, untilTaken, expired, demand), worker) == Lost(o, worker)
  {
    if done in o.workers && o.workers[done].generation != 0 && o.workers[done].generation == g {
      var o1 := Settle(o, done, Own);
      assert OwnerInv(o1);
      hide OwnerInv, StartNext, ScheduleIdle, Lost;
      SettleLost(o, o1, done, Own, worker);
      StartNextLost(o1, untilTaken, expired, demand, worker);
    }
  }

  lemma StartCleanupLost(o: Owner, g: nat, target: Ownership, reply: Option<nat>, worker: nat)
    ensures Lost(StartCleanup(o, g, target, reply), worker) == Lost(o, worker)
  {
    if o.cleanup.None? {
      var o1 := o.(idleArmed := false, generation := if o.generation == Some(g) then None else o.generation,
                   cleanup := Some(Cleanup(g, target, false, reply, None, true)));
      LostFrame(o, o1, worker);
      SpawnOther(o1, CloseSession(g), worker);
    }
    hide Lost;
  }

  lemma TerminalLost(o: Owner, g: nat, recognized: bool, worker: nat)
    requires OwnerInv(o)
    ensures Lost(DoGenerationEnded(o, g, recognized), worker) == Lost(o, worker)
  {
    hide FailQueued, WorkersInv, Lost, StartCleanup;
    if o.generation == Some(g) {
      var terminal, cause := if recognized then TakenOver else Uncertain, if recognized then SessionTakenOver else OwnershipUncertain;
      var validated := o.validation.Some? && o.validation.value.generation == g;
      var o1 := o.(ownership := terminal, validation := if validated then None else o.validation);
      LostFrame(o, o1, worker);
      WorkersFrame(o, o1);
      FailQueuedLost(o1, NotSent(cause), worker);
      var o2 := FailQueued(o1, NotSent(cause));
      StartCleanupLost(o2, g, terminal, None, worker);
      LostFrame(StartCleanup(o2, g, terminal, None), DoGenerationEnded(o, g, recognized), worker);
    }
  }

  lemma RecognizedLost(o: Owner, g: nat, worker: nat)
    requires OwnerInv(o)
    ensures Lost(DoTakeoverRecognized(o, g), worker) == Lost(o, worker)
  {
    hide FailQueued, WorkersInv, Lost;
    if !o.stopping && (PendingTerminal(o, g) || CompletedTerminal(o, g)) {
      var o1 := o.(ownership := TakenOver,
                   cleanup := if PendingTerminal(o, g) then Some(o.cleanup.value.(target := TakenOver)) else o.cleanup);
      LostFrame(o, o1, worker);
      WorkersFrame(o, o1);
      FailQueuedLost(o1, NotSent(SessionTakenOver), worker);
    }
  }

  lemma CleanupFailedLost(o: Owner, worker: nat)
    requires WorkersInv(o) && o.cleanup.Some?
    ensures Lost(CleanupFailed(o), worker) == Lost(o, worker)
  {
    hide FailQueued, WorkersInv, Lost;
    var o0 := o.(cleanup := Some(o.cleanup.value.(failed := true, reply := None, takeover := None)), ownership := Uncertain);
    LostFrame(o, o0, worker);
    WorkersFrame(o, o0);
    FailQueuedLost(o0, NotSent(Busy), worker);
    LostFrame(FailQueued(o0, NotSent(Busy)), CleanupFailed(o), worker);
  }

  lemma ResumeLost(o: Owner, takeover: Option<nat>, permitTakeover: bool, permitQueue: bool, worker: nat)
    requires OwnerInv(o)
    ensures Lost(Resume(o, takeover, permitTakeover, permitQueue), worker) == Lost(o, worker)
  {
    hide FailQueued, OwnerInv, Lost;
    AttemptLost(o, takeover, permitTakeover, worker);
    StartAttemptKeeps(o, takeover, permitTakeover);
    var (o1, err) := if takeover.Some? then StartAttempt(o, takeover, permitTakeover) else (o, None);
    var o2 := if err.Some? then Answered(o1, takeover, err.value) else o1;
    LostFrame(o1, o2, worker);
    AnsweredKeeps(o1, takeover, if err.Some? then err.value else Success);
    AttemptLost(o2, None, permitQueue, worker);
    StartAttemptKeeps(o2, None, permitQueue);
    RefusedVerdict(o2, None, permitQueue);
    var (o3, failed) := StartAttempt(o2, None, permitQueue);
    hide StartAttempt;
    if failed.Some? {
      WorkersOf(o3);
      FailQueuedLost(o3, failed.value, worker);
    }
  }

  lemma RefusedVerdict(o: Owner, takeover: Option<nat>, permit: bool)
    ensures StartAttempt(o, takeover, permit).1 != Some(Own)
  {
  }

  lemma CleanupDoneLost(o: Owner, g: nat, closed: bool, recognized: bool, permitTakeover: bool, permitQueue: bool, worker: nat)
    requires OwnerInv(o)
    ensures Lost(DoCleanupDone(o, g, closed, recognized, permitTakeover, permitQueue), worker) == Lost(o, worker)
  {
    WorkersOf(o);
    hide OwnerInv, WorkersInv, Resume, Lost, CleanupFailed;
    if o.cleanup.Some? && o.cleanup.value.generation == g {
      if closed {
        ClosedKeeps(o, recognized);
        LostFrame(o, Closed(o, recognized), worker);
        hide Closed;
        ResumeLost(Closed(o, recognized), o.cleanup.value.takeover, permitTakeover, permitQueue, worker);
      } else {
        CleanupFailedLost(o, worker);
      }
    }
  }

  lemma RetryLost(o: Owner, c: Cleanup, worker: nat)
    ensures Lost(RetryCleanup(o, c), worker) == Lost(o, worker)
  {
    var o1 := o.(cleanup := Some(c.(failed := false)));
    LostFrame(o, o1, worker);
    SpawnOther(o1, CloseSession(c.generation), worker);
    hide Lost;
  }

  lemma ReleaseLost(o: Owner, reply: nat, demand: bool, worker: nat)
    ensures Lost(DoRelease(o, reply, demand), worker) == Lost(o, worker)
  {
    hide Lost, StartCleanup, RetryCleanup;
    var r := DoRelease(o, reply, demand);
    if o.generation.Some? && r == StartCleanup(o, o.generation.value, Released, Some(reply)) {
      StartCleanupLost(o, o.generation.value, Released, Some(reply), worker);
    } else if o.cleanup.Some? && r == RetryCleanup(o, o.cleanup.value.(target := Released, reply := Some(reply))) {
      RetryLost(o, o.cleanup.value.(target := Released, reply := Some(reply)), worker);
    } else {
      LostFrame(o, r, worker);
    }
  }

  lemma TakeOverLost(o: Owner, reply: nat, demand: bool, permit: bool, worker: nat)
    ensures Lost(DoTakeOver(o, reply, demand, permit), worker) == Lost(o, worker)
  {
    hide Lost, TakeOverNow;
    LostFrame(o, Answered(o, Some(reply), NotSent(SessionClosed)), worker);
    LostFrame(o, Answered(o, Some(reply), NotSent(Busy)), worker);
    TakeOverNowLost(o, reply, permit, worker);
  }

  lemma TakeOverNowLost(o: Owner, reply: nat, permit: bool, worker: nat)
    ensures Lost(TakeOverNow(o, reply, permit), worker) == Lost(o, worker)
  {
    hide Lost, RetryCleanup, TakeOverNow, StartAttempt;
    var r := TakeOverNow(o, reply, permit);
    TakeOverCases(o, reply, permit);
    AttemptLost(o, Some(reply), permit, worker);
    if o.cleanup.Some? && r == RetryCleanup(o, o.cleanup.value.(takeover := Some(reply), reply := None)) {
      RetryLost(o, o.cleanup.value.(takeover := Some(reply), reply := None), worker);
    } else if o.generation.Some? && r.spawned == o.spawned + [Ping(o.generation.value)] {
      SpawnOther(o, Ping(o.generation.value), worker);
      LostFrame(Spawn(o, Ping(o.generation.value)), r, worker);
    } else if r.spawned == o.spawned {
      LostFrame(o, r, worker);
    } else {
      LostFrame(StartAttempt(o, Some(reply), permit).0, r, worker);
    }
  }

  /** A takeover retries the cleanup, starts a validation, starts an attempt, or starts nothing. */
  lemma TakeOverCases(o: Owner, reply: nat, permit: bool)
    ensures var r := TakeOverNow(o, reply, permit);
            var a := StartAttempt(o, Some(reply), permit).0;
            (|| (o.cleanup.Some? && r == RetryCleanup(o, o.cleanup.value.(takeover := Some(reply), reply := None)))
             || (&& r.workers == o.workers && r.replies == o.replies && a.workers == o.workers && a.replies == o.replies
                && (r.spawned == o.spawned || r.spawned == a.spawned || (o.generation.Some? && r.spawned == o.spawned + [Ping(o.generation.value)]))))
  {
  }

  lemma ValidationDoneLost(o: Owner, g: nat, failed: bool, lost: bool, demand: bool, worker: nat)
    ensures Lost(DoValidationDone(o, g, failed, lost, demand), worker) == Lost(o, worker)
  {
    hide Lost, StartCleanup;
    var r := DoValidationDone(o, g, failed, lost, demand);
    if o.validation.Some? && o.validation.value.generation == g && o.generation == Some(g) && lost {
      var o1 := o.(validation := None, ownership := Uncertain);
      LostFrame(o, o1, worker);
      StartCleanupLost(o1, g, Uncertain, None, worker);
      LostFrame(StartCleanup(o1, g, Uncertain, None), r, worker);
    } else {
      LostFrame(o, r, worker);
    }
  }

  lemma IdleLost(o: Owner, g: nat, demand: bool, worker: nat)
    ensures Lost(DoIdleExpired(o, g, demand), worker) == Lost(o, worker)
    ensures Lost(ScheduleIdle(o, demand), worker) == Lost(o, worker)
  {
    hide Lost, StartCleanup;
    var o1 := o.(idleArmed := false);
    LostFrame(o, o1, worker);
    StartCleanupLost(o1, g, Idle, None, worker);
    LostFrame(o, ScheduleIdle(o, demand), worker);
  }

  lemma {:induction false} CancelAllLost(o: Owner, queue: seq<nat>, worker: nat)
    ensures Lost(CancelAll(o, queue), worker) == Lost(o, worker)
    decreases |queue|
  {
    if queue != [] {
      var next := if queue[0] in o.workers then o.(workers := o.workers[queue[0] := o.workers[queue[0]].(canceled := true)]) else o;
      assert AtWork(next, worker) == AtWork(o, worker);
      CancelAllLost(next, queue[1..], worker);
    }
    hide StartCount, OwnCount;
  }

  lemma StopLost(o: Owner, reply: nat, worker: nat)
    requires OwnerInv(o)
    ensures Lost(DoStop(o, reply), worker) == Lost(o, worker)
  {
    WorkersOf(o);
    hide CancelAll, FailQueued, Lost, OwnerInv, WorkersInv, StartCleanup;
    if o.stopping {
      LostFrame(o, DoStop(o, reply), worker);
    } else {
      var s := o.(stopping := true, idleArmed := false);
      LostFrame(o, s, worker);
      WorkersFrame(o, s);
      CancelAllLost(s, s.queue, worker);
      FailQueuedLost(s, NotSent(SessionClosed), worker);
      var q := StopQueue(o);
      LostFrame(CancelAll(s, s.queue), CancelAll(s, s.queue).(queue := []), worker);
      if q.generation.Some? {
        StartCleanupLost(q, q.generation.value, Stopped, None, worker);
        LostFrame(StartCleanup(q, q.generation.value, Stopped, None), DoStop(o, reply), worker);
      } else {
        LostFrame(q, DoStop(o, reply), worker);
      }
    }
  }

  /** Conservation of starts: an operation that was started is at work or has given its own result. */
  lemma HandleLost(o: Owner, c: Command, worker: nat)
    requires OwnerInv(o)
    ensures Lost(Handle(o, c), worker) == Lost(o, worker)
  {
    hide OwnerInv, Lost, DoRegister, DoCancel, DoAttemptDone, DoWorkerDone, DoGenerationEnded, DoTakeoverRecognized, DoCleanupDone, DoStop, DoIdleExpired, DoRelease, DoTakeOver, DoValidationDone, ScheduleIdle;
    match c
    case Register(permit, untilTaken, expired) => RegisterLost(o, permit, untilTaken, expired, worker);
    case Cancel(canceled) => CancelLost(o, canceled, worker);
    case AttemptDone(g, connection, expired, untilTaken, expiredLater, demand) => AttemptDoneLost(o, g, connection, expired, untilTaken, expiredLater, demand, worker);
    case WorkerDone(done, g, untilTaken, expired, demand) => WorkerDoneLost(o, done, g, untilTaken, expired, demand, worker);
    case GenerationEnded(g, recognized) => TerminalLost(o, g, recognized, worker);
    case TakeoverRecognized(g) => RecognizedLost(o, g, worker);
    case IdleExpired(g, demand) => IdleLost(o, g, demand, worker);
    case DemandChanged(demand) => IdleLost(o, 0, demand, worker);
    case CleanupDone(g, closed, recognized, permitTakeover, permitQueue) => CleanupDoneLost(o, g, closed, recognized, permitTakeover, permitQueue, worker);
    case Release(reply, demand) => ReleaseLost(o, reply, demand, worker);
    case TakeOver(reply, demand, permit) => TakeOverLost(o, reply, demand, permit, worker);
    case ValidationDone(g, failed, lost, demand) => ValidationDoneLost(o, g, failed, lost, demand, worker);
    case Stop(reply) => StopLost(o, reply, worker);
  }

  lemma FinishLost(o: Owner, worker: nat)
    ensures Lost(FinishIfStopped(o), worker) == Lost(o, worker)
  {
    AnswerAllIs(o, o.stopWaiters, if o.cleanup.Some? then Failed(CloseError) else Success);
    hide AnswerAll, StartCount, OwnCount;
  }

  lemma TurnLost(o: Owner, c: Command, worker: nat)
    requires OwnerInv(o)
    ensures Lost(Turn(o, c), worker) == Lost(o, worker)
  {
    hide OwnerInv, Handle, FinishIfStopped, Lost;
    if !o.finished {
      HandleLost(o, c, worker);
      FinishLost(Handle(o, c), worker);
    }
  }

  lemma {:induction false} NoneLost(ownership: Ownership, events: seq<Event>, worker: nat)
    requires ownership != Active && ownership != Stopped && IsRun(ownership, events)
    ensures Lost(Run(ownership, events).o, worker) == 0
    decreases |events|
  {
    hide After, Possible, Lost, WorldInv;
    if events == [] {
      NewNotLost(ownership, worker);
    } else {
      var before, e := events[..|events| - 1], events[|events| - 1];
      NoneLost(ownership, before, worker);
      EveryRun(ownership, before);
      StepLost(Run(ownership, before), e, worker);
    }
  }

  lemma NewNotLost(ownership: Ownership, worker: nat)
    ensures Lost(NewWorld(ownership).o, worker) == 0
  {
  }

  lemma StepLost(w: World, e: Event, worker: nat)
    requires WorldInv(w)
    ensures Lost(After(w, e).o, worker) == Lost(w.o, worker)
  {
    hide OwnerInv, BooksInv, TasksInv, LatchInv, WatchInv, Tidy, Turn, Lost, FinishedInv, WatchAfter, WaitingAfter, OpenAfter;
    if CommandOf(w, e).Some? {
      TurnLost(w.o, CommandOf(w, e).value, worker);
    }
  }

  lemma {:induction false} CountsOfReply(replies: seq<Reply>, worker: nat, verdict: Verdict)
    requires Reply(worker, verdict) in replies
    ensures ReplyCount(replies, worker) >= OwnCount(replies, worker) + One(verdict != Own)
    ensures verdict == Own ==> OwnCount(replies, worker) >= 1
  {
    var n := |replies| - 1;
    OwnAtMost(replies[..n], worker);
    if replies[n] != Reply(worker, verdict) {
      assert Reply(worker, verdict) in replies[..n];
      CountsOfReply(replies[..n], worker, verdict);
    }
  }

  lemma {:induction false} OwnAtMost(replies: seq<Reply>, worker: nat)
    ensures OwnCount(replies, worker) <= ReplyCount(replies, worker)
  {
    if replies != [] {
      OwnAtMost(replies[..|replies| - 1], worker);
    }
  }

  /** In every run: a worker the loop itself answers was never started and never will be, and a worker
      given its own result was started exactly once. */
  lemma LoopVerdictMeansNotStarted(ownership: Ownership, events: seq<Event>, worker: nat, verdict: Verdict)
    requires ownership != Active && ownership != Stopped && IsRun(ownership, events)
    requires Reply(worker, verdict) in Run(ownership, events).o.replies
    ensures StartCount(Run(ownership, events).o.spawned, worker) == One(verdict == Own)
  {
    NoneLost(ownership, events, worker);
    AtMostOneReply(ownership, events, worker, 0);
    CountsOfReply(Run(ownership, events).o.replies, worker, verdict);
    OwnAtMost(Run(ownership, events).o.replies, worker);
    hide Run, IsRun, StartCount, OwnCount, ReplyCount;
  }
}
