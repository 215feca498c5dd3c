/** The goroutines of the owner's loop: each one it waits for is really running, and it starts none that
    it does not wait for. */
module OwnerTasks {
  import opened Options
  import opened OwnerModel
  import opened OwnerSafety
  import opened OwnerBooks

  function TaskCount(spawned: seq<Task>, t: Task): nat {
    if spawned == [] then 0 else TaskCount(spawned[..|spawned| - 1], t) + One(spawned[|spawned| - 1] == t)
  }

  /** The loop waits for this goroutine. */
  predicate Awaited(o: Owner, t: Task) {
    match t
    case Connect(g) => o.attempt.Some? && o.attempt.value.generation == g
    case CloseSession(g) => o.cleanup.Some? && o.cleanup.value.generation == g && !o.cleanup.value.failed
    case Operate(w, g) => w in o.workers && o.workers[w].generation == g != 0
    case Ping(g) => o.validation.Some? && o.validation.value.generation == g
    case _ => false
  }

  /** Started and no longer awaited. */
  function Returned(o: Owner, t: Task): int {
    TaskCount(o.spawned, t) - One(Awaited(o, t))
  }

  /** Every goroutine that sends back a completion. */
  predicate Tracked(t: Task) {
    !t.Watch?
  }

  predicate Completes(c: Command, t: Task) {
    match c
    case AttemptDone(g, _, _, _, _, _) => t == Connect(g)
    case WorkerDone(w, g, _, _, _) => t == Operate(w, g)
    case CleanupDone(g, _, _, _, _) => t == CloseSession(g)
    case ValidationDone(g, _, _, _) => t == Ping(g)
    case _ => false
  }

  /** The end of a generation makes the loop answer its validation without waiting for the ping. */
  predicate Drops(o: Owner, c: Command, t: Task) {
    c.GenerationEnded? && o.generation == Some(c.generation) && t == Ping(c.generation) && Awaited(o, t)
  }

  /** The books of a goroutine look at no more than this. */
  lemma TaskFrame(o: Owner, r: Owner, t: Task)
    requires r.spawned == o.spawned && Awaited(r, t) == Awaited(o, t)
    ensures Returned(r, t) == Returned(o, t)
  {
  }

  lemma SpawnCount(o: Owner, task: Task, t: Task)
    ensures TaskCount(Spawn(o, task).spawned, t) == TaskCount(o.spawned, t) + One(task == t)
  {
    assert (o.spawned + [task])[..|o.spawned|] == o.spawned;
  }

  lemma FailQueuedTasks(o: Owner, verdict: Verdict, t: Task)
    requires WorkersInv(o)
    ensures Returned(FailQueued(o, verdict), t) == Returned(o, t)
  {
    FailQueuedIs(o, verdict);
    hide FailQueued, TaskCount, Unique;
  }

  /** Handing one worker to the session starts its goroutine. */
  lemma StartedTasks(o: Owner, rest: Owner, id: nat, g: nat, t: Task)
    requires id in o.workers && o.workers[id].generation == 0 && g != 0 && Tracked(t)
    requires rest == o.(queue := rest.queue, idleArmed := rest.idleArmed, workers := o.workers[id := o.workers[id].(generation := g)])
    ensures Returned(Spawn(rest, Operate(id, g)), t) == Returned(o, t)
  {
    SpawnCount(rest, Operate(id, g), t);
    hide TaskCount;
  }

  lemma HandOverTasks(o: Owner, g: nat, expired: set<nat>, t: Task)
    requires WorkersInv(o) && g != 0 && o.queue != [] && Tracked(t)
    ensures Returned(HandOver(o, g, expired), t) == Returned(o, t)
  {
    hide WorkersInv, Returned, Tracked;
    HandOverIs(o, g, expired);
    var id, rest := o.queue[0], o.(queue := o.queue[1..]);
    if id in expired {
      SettledTasks(o, HandOver(o, g, expired), id, t);
    } else {
      StartedTasks(o, rest.(idleArmed := false, workers := rest.workers[id := rest.workers[id].(generation := g)]), id, g, t);
    }
  }

  lemma {:induction false} DispatchTasks(o: Owner, g: nat, untilTaken: nat, expired: set<nat>, t: Task)
    requires WorkersInv(o) && g != 0 && Tracked(t)
    ensures Returned(Dispatch(o, g, untilTaken, expired), t) == Returned(o, t)
    decreases |o.queue|
  {
    hide WorkersInv, Returned, Tracked, HandOver;
    if o.queue != [] && untilTaken != 0 {
      HandOverIs(o, g, expired);
      HandOverTasks(o, g, expired, t);
      DispatchTasks(HandOver(o, g, expired), g, untilTaken - 1, expired, t);
    }
  }

  lemma SettledTasks(o: Owner, r: Owner, id: nat, t: Task)
    requires id in o.workers && o.workers[id].generation == 0 && r.workers == o.workers - {id}
    requires r.attempt == o.attempt && r.cleanup == o.cleanup && r.validation == o.validation && r.spawned == o.spawned
    ensures Returned(r, t) == Returned(o, t)
  {
    hide TaskCount;
  }

  lemma StartNextTasks(o: Owner, untilTaken: nat, expired: set<nat>, demand: bool, t: Task)
    requires OwnerInv(o) && Tracked(t)
    ensures Returned(StartNext(o, untilTaken, expired), t) == Returned(o, t)
    ensures Returned(ScheduleIdle(StartNext(o, untilTaken, expired), demand), t) == Returned(o, t)
  {
    if o.generation.Some? {
      DispatchTasks(o, o.generation.value, untilTaken, expired, t);
    }
    hide Dispatch, WorkersInv, TaskCount;
  }

  lemma {:induction false} FilterTasks(o: Owner, queue: seq<nat>, kept: seq<nat>, expired: set<nat>, t: Task)
    requires forall id | id in queue && id in o.workers :: o.workers[id].generation == 0
    ensures Returned(FilterQueue(o, queue, kept, expired), t) == Returned(o, t)
    decreases |queue|
  {
    hide TaskCount;
    if queue != [] {
      assert queue == [queue[0]] + queue[1..];
      if queue[0] !in o.workers {
        FilterTasks(o, queue[1..], kept, expired, t);
      } else if queue[0] in expired {
        FilterTasks(Settle(o, queue[0], NotSent(ContextEnded)), queue[1..], kept, expired, t);
      } else {
        FilterTasks(o, queue[1..], kept + [queue[0]], expired, t);
      }
    }
  }

  /** The end of the attempt is the end of one goroutine. */
  lemma AfterAttemptTasks(o: Owner, expired: set<nat>, t: Task)
    requires WorkersInv(o)
    ensures Returned(AfterAttempt(o, expired), t)
         == Returned(o, t) + One(o.attempt.Some? && t == Connect(o.attempt.value.generation))
  {
    SettleCanceledIs(o.(attempt := None), o.nextWorker);
    var o1 := SettleCanceled(o.(attempt := None), o.nextWorker);
    hide SettleCanceled, FilterQueue, TaskCount, Unique;
    assert t.Operate? ==> Awaited(o1, t) == Awaited(o, t);
    FilterTasks(o1, o1.queue, [], expired, t);
  }

  lemma EnterTasks(o: Owner, permit: bool, t: Task)
    requires WorkersInv(o)
    ensures Returned(Enter(o, permit).0, t) == Returned(o, t)
  {
    hide Returned, StartAttempt, WorkersInv, Awaited;
    FreshWorker(o, t);
    TaskFrame(o, Enlist(o), t);
    StartAttemptTasks(Enlist(o), None, permit, t);
  }

  lemma RegisterTasks(o: Owner, permit: bool, untilTaken: nat, expired: set<nat>, t: Task)
    requires OwnerInv(o) && Tracked(t)
    ensures Returned(DoRegister(o, permit, untilTaken, expired), t) == Returned(o, t)
  {
    hide WorkersInv, PhaseInv, StartNext, Refusal, Returned, Without, Awaited, Tracked, Enter, Admits;
    var r := DoRegister(o, permit, untilTaken, expired);
    if !Admits(o) {
      SameTasks(o, r, t);
    } else {
      EnterIs(o, permit);
      EnterTasks(o, permit, t);
      FreshWorker(o, t);
      var id := o.nextWorker + 1;
      var (o2, err) := Enter(o, permit);
      if err.Some? {
        SameTasks(o, r, t);
      } else {
        var ready := Acked(o2, Accepted(id));
        hide Enlist;
        SameTasks(o2, ready, t);
        AckedKeeps(o2, Accepted(id));
        StartNextTasks(ready, untilTaken, expired, false, t);
      }
    }
  }

  lemma SameTasks(o: Owner, r: Owner, t: Task)
    requires r.attempt == o.attempt && r.cleanup == o.cleanup && r.workers == o.workers && r.validation == o.validation && r.spawned == o.spawned
    ensures Returned(r, t) == Returned(o, t)
  {
    hide TaskCount;
  }

  lemma FreshWorker(o: Owner, t: Task)
    requires WorkersInv(o)
    ensures Awaited(Enlist(o), t) == Awaited(o, t)
    ensures Delist(Enlist(o), o.nextWorker + 1).workers == o.workers
  {
    assert o.nextWorker + 1 !in o.workers;
  }

  lemma StartAttemptTasks(o: Owner, takeover: Option<nat>, permit: bool, t: Task)
    ensures Returned(StartAttempt(o, takeover, permit).0, t) == Returned(o, t)
  {
    SpawnCount(o.(nextGeneration := o.nextGeneration + 1, attempt := Some(Attempt(o.nextGeneration + 1, takeover))), Connect(o.nextGeneration + 1), t);
    hide TaskCount;
  }

  lemma CancelTasks(o: Owner, worker: nat, t: Task)
    ensures Returned(DoCancel(o, worker), t) == Returned(o, t)
  {
    hide Without, TaskCount;
  }

  lemma AttemptDoneTasks(o: Owner, g: nat, connection: Connection, expired: set<nat>, untilTaken: nat, expiredLater: set<nat>, demand: bool, t: Task)
    requires OwnerInv(o) && Tracked(t) && Awaited(o, Connect(g))
    ensures Returned(DoAttemptDone(o, g, connection, expired, untilTaken, expiredLater, demand), t) == Returned(o, t) + One(t == Connect(g))
  {
    hide SettleCanceled, FilterQueue, AttemptConnected, AttemptFailed, WorkersInv, Returned;
    var takeover := o.attempt.value.takeover;
    AfterAttemptIs(o, expired);
    AfterAttemptQueue(o, expired);
    AfterAttemptTasks(o, expired, t);
    var o2 := AfterAttempt(o, expired);
    AttemptFailedTasks(o2, g, takeover, connection.SessionLeft?, t);
    AttemptConnectedTasks(o2, g, takeover, untilTaken, expiredLater, demand, t);
  }

  lemma AttemptFailedTasks(o: Owner, g: nat, takeover: Option<nat>, left: bool, t: Task)
    requires AttemptOver(o, g, takeover)
    ensures Returned(AttemptFailed(o, g, takeover, left), t) == Returned(o, t)
  {
    hide FailQueued, TaskCount, WorkersInv;
    FailQueuedIs(o, Failed(AttemptError));
    FailQueuedTasks(o, Failed(AttemptError), t);
  }

  lemma AttemptConnectedTasks(o: Owner, g: nat, takeover: Option<nat>, untilTaken: nat, expired: set<nat>, demand: bool, t: Task)
    requires AttemptOver(o, g, takeover) && Tracked(t)
    ensures Returned(AttemptConnected(o, g, takeover, untilTaken, expired, demand), t) == Returned(o, t)
  {
    hide StartNext, ScheduleIdle, WorkersInv, TaskCount;
    if !o.stopping && (|o.queue| != 0 || takeover.Some?) {
      var o0 := o.(generation := Some(g), ownership := Active);
      var o1 := Answered(Spawn(o0, Watch(g)), takeover, Success);
      SpawnCount(o0, Watch(g), t);
      WorkersFrame(o, o1);
      StartNextTasks(o1, untilTaken, expired, demand, t);
    } else {
      var o1 := Answered(o, takeover, NotSent(SessionClosed));
      var o2 := o1.(cleanup := Some(Cleanup(g, if o.stopping then Stopped else Idle, false, None, None, false)));
      SpawnCount(o2, CloseSession(g), t);
    }
  }

  lemma WorkerDoneTasks(o: Owner, done: nat, g: nat, untilTaken: nat, expired: set<nat>, demand: bool, t: Task)
    requires OwnerInv(o) && Tracked(t) && Awaited(o, Operate(done, g))
    ensures Returned(DoWorkerDone(o, done, g, untilTaken, expired, demand), t) == Returned(o, t) + One(t == Operate(done, g))
  {
    var o1 := Settle(o, done, Own);
    assert OwnerInv(o1);
    hide OwnerInv, StartNext, ScheduleIdle, TaskCount;
    StartNextTasks(o1, untilTaken, expired, demand, t);
  }

  lemma StartCleanupTasks(o: Owner, g: nat, target: Ownership, reply: Option<nat>, t: Task)
    requires Tracked(t)
    ensures Returned(StartCleanup(o, g, target, reply), t) == Returned(o, t)
  {
    if o.cleanup.None? {
      SpawnCount(o.(idleArmed := false, generation := if o.generation == Some(g) then None else o.generation,
                    cleanup := Some(Cleanup(g, target, false, reply, None, true))), CloseSession(g), t);
    }
    hide TaskCount;
  }

  lemma GenerationEndedTasks(o: Owner, g: nat, recognized: bool, t: Task)
    requires OwnerInv(o) && Tracked(t)
    ensures Returned(DoGenerationEnded(o, g, recognized), t) == Returned(o, t) + One(o.generation == Some(g) && t == Ping(g) && Awaited(o, t))
  {
    hide FailQueued, WorkersInv, TaskCount, StartCleanup;
    if o.generation == Some(g) {
      var terminal, cause := if recognized then TakenOver else Uncertain, if recognized then SessionTakenOver else OwnershipUncertain;
      var validated := o.validation.Some? && o.validation.value.generation == g;
      var o1 := o.(ownership := terminal, validation := if validated then None else o.validation);
      assert Returned(o1, t) == Returned(o, t) + One(t == Ping(g) && Awaited(o, t));
      hide Returned, Awaited, Tracked;
      WorkersFrame(o, o1);
      FailQueuedTasks(o1, NotSent(cause), t);
      var o2 := FailQueued(o1, NotSent(cause));
      StartCleanupTasks(o2, g, terminal, None, t);
      SameTasks(StartCleanup(o2, g, terminal, None), DoGenerationEnded(o, g, recognized), t);
    }
  }

  lemma TakeoverRecognizedTasks(o: Owner, g: nat, t: Task)
    requires OwnerInv(o)
    ensures Returned(DoTakeoverRecognized(o, g), t) == Returned(o, t)
  {
    hide FailQueued, WorkersInv, TaskCount;
    if !o.stopping && (PendingTerminal(o, g) || CompletedTerminal(o, g)) {
      var o1 := o.(ownership := TakenOver,
                   cleanup := if PendingTerminal(o, g) then Some(o.cleanup.value.(target := TakenOver)) else o.cleanup);
      WorkersFrame(o, o1);
      FailQueuedTasks(o1, NotSent(SessionTakenOver), t);
    }
  }

  lemma IdleTasks(o: Owner, g: nat, demand: bool, t: Task)
    requires Tracked(t)
    ensures Returned(DoIdleExpired(o, g, demand), t) == Returned(o, t)
    ensures Returned(ScheduleIdle(o, demand), t) == Returned(o, t)
  {
    StartCleanupTasks(o.(idleArmed := false), g, Idle, None, t);
    TaskFrame(o, o.(idleArmed := false), t);
    TaskFrame(o, ScheduleIdle(o, demand), t);
    hide StartCleanup, Returned;
  }

  lemma ResumeTasks(o: Owner, takeover: Option<nat>, permitTakeover: bool, permitQueue: bool, t: Task)
    requires OwnerInv(o)
    ensures Returned(Resume(o, takeover, permitTakeover, permitQueue), t) == Returned(o, t)
  {
    hide FailQueued, OwnerInv, Returned;
    StartAttemptTasks(o, takeover, permitTakeover, t);
    StartAttemptKeeps(o, takeover, permitTakeover);
    StartAttemptIs(o, takeover, permitTakeover);
    hide StartAttempt;
    var (o1, err) := if takeover.Some? then StartAttempt(o, takeover, permitTakeover) else (o, None);
    var o2 := if err.Some? then Answered(o1, takeover, err.value) else o1;
    TaskFrame(o1, o2, t);
    AnsweredKeeps(o1, takeover, if err.Some? then err.value else Success);
    StartAttemptTasks(o2, None, permitQueue, t);
    StartAttemptKeeps(o2, None, permitQueue);
    var (o3, failed) := StartAttempt(o2, None, permitQueue);
    if failed.Some? {
      WorkersOf(o3);
      FailQueuedTasks(o3, failed.value, t);
    }
  }

  lemma CleanupFailedTasks(o: Owner, t: Task)
    requires WorkersInv(o) && o.cleanup.Some? && !o.cleanup.value.failed
    ensures Returned(CleanupFailed(o), t) == Returned(o, t) + One(t == CloseSession(o.cleanup.value.generation))
  {
    hide FailQueued, WorkersInv, TaskCount;
    var o0 := o.(cleanup := Some(o.cleanup.value.(failed := true, reply := None, takeover := None)), ownership := Uncertain);
    assert Returned(o0, t) == Returned(o, t) + One(t == CloseSession(o.cleanup.value.generation));
    WorkersFrame(o, o0);
    FailQueuedTasks(o0, NotSent(Busy), t);
    hide Returned;
    SameTasks(FailQueued(o0, NotSent(Busy)), CleanupFailed(o), t);
  }

  lemma CleanupDoneTasks(o: Owner, g: nat, closed: bool, recognized: bool, permitTakeover: bool, permitQueue: bool, t: Task)
    requires OwnerInv(o) && Awaited(o, CloseSession(g))
    ensures Returned(DoCleanupDone(o, g, closed, recognized, permitTakeover, permitQueue), t) == Returned(o, t) + One(t == CloseSession(g))
  {
    WorkersOf(o);
    hide OwnerInv, WorkersInv, Resume, Returned, CleanupFailed;
    if closed {
      ClosedKeeps(o, recognized);
      ClosedTasks(o, Closed(o, recognized), t);
      hide Closed;
      ResumeTasks(Closed(o, recognized), o.cleanup.value.takeover, permitTakeover, permitQueue, t);
    } else {
      CleanupFailedTasks(o, t);
    }
  }

  lemma ClosedTasks(o: Owner, r: Owner, t: Task)
    requires o.cleanup.Some? && !o.cleanup.value.failed && r.cleanup.None?
    requires r.attempt == o.attempt && r.workers == o.workers && r.validation == o.validation && r.spawned == o.spawned
    ensures Returned(r, t) == Returned(o, t) + One(t == CloseSession(o.cleanup.value.generation))
  {
    hide TaskCount;
  }

  lemma RetryTasks(o: Owner, cleanup: Cleanup, t: Task)
    requires o.cleanup.Some? && o.cleanup.value.failed && o.cleanup.value.generation == cleanup.generation
    ensures Returned(RetryCleanup(o, cleanup), t) == Returned(o, t)
  {
    SpawnCount(o.(cleanup := Some(cleanup.(failed := false))), CloseSession(cleanup.generation), t);
    hide TaskCount;
  }

  lemma ReleaseTasks(o: Owner, reply: nat, demand: bool, t: Task)
    requires Tracked(t)
    ensures Returned(DoRelease(o, reply, demand), t) == Returned(o, t)
  {
    hide Returned, ReleaseNow, Tracked;
    var r := DoRelease(o, reply, demand);
    if o.stopping || |o.workers| != 0 || |o.queue| != 0 || demand || o.attempt.Some? || (o.cleanup.Some? && !o.cleanup.value.failed) {
      SameTasks(o, r, t);
    } else {
      ReleaseNowTasks(o, reply, t);
    }
  }

  lemma ReleaseNowTasks(o: Owner, reply: nat, t: Task)
    requires Tracked(t) && (o.cleanup.Some? ==> o.cleanup.value.failed)
    ensures Returned(ReleaseNow(o, reply), t) == Returned(o, t)
  {
    hide Returned, StartCleanup, RetryCleanup, Tracked;
    if o.ownership != Released && o.generation.Some? {
      StartCleanupTasks(o, o.generation.value, Released, Some(reply), t);
    } else if o.ownership != Released && o.cleanup.Some? {
      RetryTasks(o, o.cleanup.value.(target := Released, reply := Some(reply)), t);
    } else {
      SameTasks(o, ReleaseNow(o, reply), t);
    }
  }

  lemma TakeOverTasks(o: Owner, reply: nat, demand: bool, permit: bool, t: Task)
    requires Tracked(t)
    ensures Returned(DoTakeOver(o, reply, demand, permit), t) == Returned(o, t)
  {
    hide Returned, TakeOverNow, Tracked;
    var r := DoTakeOver(o, reply, demand, permit);
    if o.stopping || |o.workers| != 0 || |o.queue| != 0 || demand || o.attempt.Some? || o.validation.Some? {
      SameTasks(o, r, t);
    } else {
      TakeOverNowTasks(o, reply, permit, t);
    }
  }

  lemma TakeOverNowTasks(o: Owner, reply: nat, permit: bool, t: Task)
    requires Tracked(t) && o.validation.None?
    ensures Returned(TakeOverNow(o, reply, permit), t) == Returned(o, t)
  {
    hide Returned, StartAttempt, RetryCleanup, Tracked;
    var r := TakeOverNow(o, reply, permit);
    if o.cleanup.Some? && !o.cleanup.value.failed {
      ClaimTasks(o, reply, t);
      if r.answers != o.answers {
        SameTasks(o, r, t);
      }
    } else if o.generation.Some? && o.ownership == Active {
      ValidatingTasks(o, reply, t);
    } else if o.cleanup.Some? {
      RetryTasks(o, o.cleanup.value.(takeover := Some(reply), reply := None), t);
    } else if o.generation.None? {
      StartAttemptTasks(o, Some(reply), permit, t);
      SameTasks(StartAttempt(o, Some(reply), permit).0, r, t);
    } else {
      SameTasks(o, r, t);
    }
  }

  lemma ValidatingTasks(o: Owner, reply: nat, t: Task)
    requires Tracked(t) && o.generation.Some? && o.validation.None?
    ensures var g := o.generation.value;
            Returned(Spawn(o.(idleArmed := false, validation := Some(Validation(g, reply))), Ping(g)), t) == Returned(o, t)
  {
    var g := o.generation.value;
    var v := o.(idleArmed := false, validation := Some(Validation(g, reply)));
    SpawnCount(v, Ping(g), t);
    ValidatingAwaits(o, v, g, reply, t);
    AwaitedSpawn(v, Ping(g), t);
    hide TaskCount, Awaited, Tracked;
  }

  lemma ValidatingAwaits(o: Owner, v: Owner, g: nat, reply: nat, t: Task)
    requires Tracked(t) && o.validation.None?
    requires v.attempt == o.attempt && v.cleanup == o.cleanup && v.workers == o.workers && v.validation == Some(Validation(g, reply))
    ensures One(Awaited(v, t)) == One(Awaited(o, t)) + One(t == Ping(g))
  {
  }

  lemma AwaitedSpawn(o: Owner, task: Task, t: Task)
    ensures Awaited(Spawn(o, task), t) == Awaited(o, t)
  {
  }

  lemma ClaimTasks(o: Owner, reply: nat, t: Task)
    requires o.cleanup.Some?
    ensures Returned(o.(cleanup := Some(o.cleanup.value.(takeover := Some(reply)))), t) == Returned(o, t)
  {
    hide TaskCount;
  }

  lemma ValidationDoneTasks(o: Owner, g: nat, failed: bool, lost: bool, demand: bool, t: Task)
    requires Tracked(t)
    ensures Returned(DoValidationDone(o, g, failed, lost, demand), t) == Returned(o, t) + One(t == Ping(g) && Awaited(o, t))
  {
    if o.validation.Some? && o.validation.value.generation == g {
      var r := DoValidationDone(o, g, failed, lost, demand);
      var o1 := o.(validation := None, ownership := Uncertain);
      ValidatedTasks(o, g, t);
      hide Returned, StartCleanup, Tracked, Awaited;
      if o.generation == Some(g) && lost {
        StartCleanupTasks(o1, g, Uncertain, None, t);
        SameTasks(StartCleanup(o1, g, Uncertain, None), r, t);
      } else {
        SameTasks(o1, r, t);
      }
    }
  }

  lemma ValidatedTasks(o: Owner, g: nat, t: Task)
    requires o.validation.Some? && o.validation.value.generation == g
    ensures Returned(o.(validation := None, ownership := Uncertain), t) == Returned(o, t) + One(t == Ping(g) && Awaited(o, t))
  {
    hide TaskCount;
  }

  lemma StopTasks(o: Owner, reply: nat, t: Task)
    requires OwnerInv(o) && Tracked(t)
    ensures Returned(DoStop(o, reply), t) == Returned(o, t)
  {
    hide CancelAll, FailQueued, Returned, PhaseInv;
    if o.stopping {
      TaskFrame(o, DoStop(o, reply), t);
    } else {
      StopQueueIs(o);
      var s := o.(stopping := true, idleArmed := false);
      CancelAllIs(s, s.queue);
      WorkersFrame(o, s);
      TaskFrame(o, s, t);
      FailQueuedTasks(s, NotSent(SessionClosed), t);
      hide WorkersInv;
      TaskFrame(o, StopQueue(o), t) by {
        StopAwaits(o, t);
      }
      var q := StopQueue(o);
      if q.generation.Some? {
        StartCleanupTasks(q, q.generation.value, Stopped, None, t);
        hide StartCleanup;
        TaskFrame(StartCleanup(q, q.generation.value, Stopped, None), DoStop(o, reply), t);
      } else {
        TaskFrame(q, DoStop(o, reply), t);
      }
    }
  }

  lemma StopAwaits(o: Owner, t: Task)
    requires WorkersInv(o)
    ensures Awaited(StopQueue(o), t) == Awaited(o, t)
  {
    var s := o.(stopping := true, idleArmed := false);
    CancelAllIs(s, s.queue);
    FailQueuedIs(s, NotSent(SessionClosed));
    hide CancelAll, FailQueued, Unique;
  }

  /** Conservation of goroutines: the loop awaits one more exactly when it starts one, and one less
      exactly when that one's completion arrives or the end of its generation makes it pointless. */
  lemma HandleTasks(o: Owner, c: Command, t: Task)
    requires OwnerInv(o) && Tracked(t)
    requires forall x: Task | Completes(c, x) && !x.Ping? :: Awaited(o, x)
    ensures Returned(Handle(o, c), t) == Returned(o, t) + One(Completes(c, t) && Awaited(o, t)) + One(Drops(o, c, t))
  {
    hide OwnerInv, Returned, Awaited, DoRegister, DoCancel, DoAttemptDone, DoWorkerDone, DoGenerationEnded, DoTakeoverRecognized, DoCleanupDone, DoStop, DoIdleExpired, DoRelease, DoTakeOver, DoValidationDone, ScheduleIdle, Tracked;
    match c
    case Register(permit, untilTaken, expired) => RegisterTasks(o, permit, untilTaken, expired, t);
    case Cancel(worker) => CancelTasks(o, worker, t);
    case AttemptDone(g, connection, expired, untilTaken, expiredLater, demand) =>
      assert Completes(c, Connect(g));
      AttemptDoneTasks(o, g, connection, expired, untilTaken, expiredLater, demand, t);
    case WorkerDone(done, g, untilTaken, expired, demand) =>
      assert Completes(c, Operate(done, g));
      WorkerDoneTasks(o, done, g, untilTaken, expired, demand, t);
    case GenerationEnded(g, recognized) => GenerationEndedTasks(o, g, recognized, t);
    case TakeoverRecognized(g) => TakeoverRecognizedTasks(o, g, t);
    case IdleExpired(g, demand) => IdleTasks(o, g, demand, t);
    case DemandChanged(demand) => IdleTasks(o, 0, demand, t);
    case CleanupDone(g, closed, recognized, permitTakeover, permitQueue) =>
      assert Completes(c, CloseSession(g));
      CleanupDoneTasks(o, g, closed, recognized, permitTakeover, permitQueue, t);
    case Release(reply, demand) => ReleaseTasks(o, reply, demand, t);
    case TakeOver(reply, demand, permit) => TakeOverTasks(o, reply, demand, permit, t);
    case ValidationDone(g, failed, lost, demand) => ValidationDoneTasks(o, g, failed, lost, demand, t);
    case Stop(reply) => StopTasks(o, reply, t);
  }

  lemma FinishTasks(o: Owner, t: Task)
    ensures Returned(FinishIfStopped(o), t) == Returned(o, t)
  {
    AnswerAllIs(o, o.stopWaiters, if o.cleanup.Some? then Failed(CloseError) else Success);
    hide AnswerAll, TaskCount;
  }

  lemma TurnTasks(o: Owner, c: Command, t: Task)
    requires OwnerInv(o) && Tracked(t) && !o.finished
    requires forall x: Task | Completes(c, x) && !x.Ping? :: Awaited(o, x)
    ensures Returned(Turn(o, c), t) == Returned(o, t) + One(Completes(c, t) && Awaited(o, t)) + One(Drops(o, c, t))
  {
    hide OwnerInv, Handle, FinishIfStopped, Returned, Awaited, Completes, Tracked, Drops;
    HandleTasks(o, c, t);
    FinishTasks(Handle(o, c), t);
  }
}
