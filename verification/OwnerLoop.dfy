/** The device owner as the object whose loop updates its fields command by command. Every method is
    proved to make of the fields exactly what `OwnerModel` says. */
module DeviceOwners {
  import opened Options
  import opened OwnerModel

  class DeviceOwner {
    var workers: map<nat, Worker>
    var queue: seq<nat>
    var attempt: Option<Attempt>
    var validation: Option<Validation>
    var generation: Option<nat>
    var cleanup: Option<Cleanup>
    var ownership: Ownership
    var stopping: bool
    var stopWaiters: seq<nat>
    var finished: bool
    var nextGeneration: nat
    var nextWorker: nat
    var idleArmed: bool
    var replies: seq<Reply>
    var answers: seq<Answer>
    var acks: seq<Ack>
    var spawned: seq<Task>
    var unwatched: set<nat>

    ghost function View(): Owner
      reads this
    {
      Owner(workers, queue, attempt, validation, generation, cleanup, ownership, stopping, stopWaiters, finished,
            nextGeneration, nextWorker, idleArmed, replies, answers, acks, spawned, unwatched)
    }

    constructor (initial: Ownership)
      ensures View() == NewOwner(initial)
    {
      workers, queue, attempt, validation, generation, cleanup := map[], [], None, None, None, None;
      ownership, stopping, stopWaiters, finished := initial, false, [], false;
      nextGeneration, nextWorker, idleArmed := 0, 0, false;
      replies, answers, acks, spawned, unwatched := [], [], [], [], {};
    }

    method Ack(ack: Ack)
      modifies this`acks
      ensures View() == Acked(old(View()), ack)
    {
      acks := acks + [ack];
    }

    method Reply(to: Option<nat>, verdict: Verdict)
      modifies this`answers
      ensures View() == Answered(old(View()), to, verdict)
    {
      if to.Some? {
        answers := answers + [Answer(to.value, verdict)];
      }
    }

    method Go(task: Task)
      modifies this`spawned
      ensures View() == Spawn(old(View()), task)
    {
      spawned := spawned + [task];
    }

    /** Delete the worker and send its reply. */
    method Finish(worker: nat, verdict: Verdict)
      modifies this`workers, this`replies
      ensures View() == Settle(old(View()), worker, verdict)
    {
      workers := workers - {worker};
      replies := replies + [OwnerModel.Reply(worker, verdict)];
    }

    method RemoveQueued(worker: nat)
      modifies this`queue
      ensures View() == old(View()).(queue := Without(old(queue), worker))
    {
      var index := 0;
      while index < |queue|
        invariant 0 <= index <= |queue| && queue == old(queue)
        invariant forall i | 0 <= i < index :: queue[i] != worker
      {
        if queue[index] == worker {
          WithoutAt(queue, index, worker);
          queue := queue[..index] + queue[index + 1..];
          return;
        }
        index := index + 1;
      }
      WithoutAt(queue, index, worker);
    }

    static lemma {:induction false} WithoutAt(queue: seq<nat>, index: nat, worker: nat)
      requires index <= |queue| && forall i | 0 <= i < index :: queue[i] != worker
      requires index < |queue| ==> queue[index] == worker
      ensures Without(queue, worker) == if index < |queue| then queue[..index] + queue[index + 1..] else queue
      decreases index
    {
      if index != 0 {
        WithoutAt(queue[1..], index - 1, worker);
        assert queue == [queue[0]] + queue[1..];
        if index < |queue| {
          assert queue[1..][..index - 1] == queue[1..index] && queue[1..][index..] == queue[index + 1..];
          assert [queue[0]] + queue[1..index] == queue[..index];
        }
      }
    }

    method FailQueued(verdict: Verdict)
      modifies this`workers, this`replies, this`queue
      ensures View() == OwnerModel.FailQueued(old(View()), verdict)
    {
      var index := 0;
      while index < |queue|
        modifies this`workers, this`replies
        invariant 0 <= index <= |queue|
        invariant View() == old(View()).(workers := workers, replies := replies)
        invariant SettleAll(View(), queue[index..], verdict) == SettleAll(old(View()), queue, verdict)
      {
        var worker := queue[index];
        assert queue[index..][1..] == queue[index + 1..];
        if worker in workers {
          Finish(worker, verdict);
        }
        index := index + 1;
      }
      queue := [];
    }

    method StartAttempt(takeover: Option<nat>, permit: bool) returns (err: Option<Verdict>)
      modifies this`nextGeneration, this`attempt, this`spawned
      ensures (View(), err) == OwnerModel.StartAttempt(old(View()), takeover, permit)
    {
      var ordinary := takeover.None?;
      if attempt.Some? || generation.Some? || cleanup.Some? || validation.Some? || stopping || (ordinary && ownership != Idle) {
        if !ordinary {
          return Some(NotSent(if stopping then SessionClosed else Busy));
        }
        return None;
      }
      if !permit {
        return Some(NotSent(Busy));
      }
      nextGeneration := nextGeneration + 1;
      attempt := Some(Attempt(nextGeneration, takeover));
      Go(Connect(nextGeneration));
      err := None;
    }

    method HandOver(g: nat, expired: set<nat>)
      requires queue != []
      modifies this`workers, this`queue, this`replies, this`spawned, this`idleArmed
      ensures View() == OwnerModel.HandOver(old(View()), g, expired)
    {
      var id := queue[0];
      queue := queue[1..];
      if id in workers {
        if id in expired {
          Finish(id, NotSent(ContextEnded));
        } else {
          idleArmed := false;
          workers := workers[id := workers[id].(generation := g)];
          Go(Operate(id, g));
        }
      }
    }

    /** `untilTaken` is when the session is seen to be taken over. */
    method StartNext(untilTaken: nat, expired: set<nat>)
      modifies this`workers, this`queue, this`replies, this`spawned, this`idleArmed
      ensures View() == OwnerModel.StartNext(old(View()), untilTaken, expired)
    {
      hide OwnerModel.HandOver;
      if generation.None? || stopping {
        return;
      }
      var g, left := generation.value, untilTaken;
      while |queue| != 0 && left != 0
        invariant View() == old(View()).(workers := workers, queue := queue, replies := replies, spawned := spawned, idleArmed := idleArmed)
        invariant OwnerModel.Dispatch(View(), g, left, expired) == OwnerModel.Dispatch(old(View()), g, untilTaken, expired)
        decreases |queue|
      {
        HandOver(g, expired);
        left := left - 1;
      }
    }

    method ScheduleIdle(demand: bool)
      modifies this`idleArmed
      ensures View() == OwnerModel.ScheduleIdle(old(View()), demand)
    {
      if stopping || attempt.Some? || generation.None? || cleanup.Some? || |workers| != 0 || |queue| != 0 || demand || idleArmed {
        return;
      }
      idleArmed := true;
    }

    method StartCleanup(g: nat, target: Ownership, reply: Option<nat>)
      modifies this`idleArmed, this`generation, this`cleanup, this`spawned
      ensures View() == OwnerModel.StartCleanup(old(View()), g, target, reply)
    {
      if cleanup.Some? {
        return;
      }
      idleArmed := false;
      if generation == Some(g) {
        generation := None;
      }
      cleanup := Some(Cleanup(g, target, false, reply, None, true));
      Go(CloseSession(g));
    }

    method FinishIfStopped() returns (done: bool)
      modifies this`answers, this`stopWaiters, this`finished
      ensures View() == OwnerModel.FinishIfStopped(old(View()))
      ensures done ==> finished
    {
      var cleanupPending := cleanup.Some? && !cleanup.value.failed;
      if !stopping || attempt.Some? || validation.Some? || generation.Some? || cleanupPending || |workers| != 0 {
        return false;
      }
      var stopErr := if cleanup.Some? then Failed(CloseError) else Success;
      var index := 0;
      while index < |stopWaiters|
        modifies this`answers
        invariant 0 <= index <= |stopWaiters|
        invariant View() == old(View()).(answers := answers)
        invariant AnswerAll(View(), stopWaiters[index..], stopErr) == AnswerAll(old(View()), stopWaiters, stopErr)
      {
        assert stopWaiters[index..][1..] == stopWaiters[index + 1..];
        Reply(Some(stopWaiters[index]), stopErr);
        index := index + 1;
      }
      stopWaiters := [];
      finished := true;
      done := true;
    }

    // ---- One method per command ----

    method Enter(permit: bool) returns (err: Option<Verdict>)
      modifies this
      ensures (View(), err) == OwnerModel.Enter(old(View()), permit)
    {
      hide OwnerModel.StartAttempt;
      nextWorker := nextWorker + 1;
      workers := workers[nextWorker := Worker(0, false)];
      queue := queue + [nextWorker];
      err := None;
      if generation.None? && attempt.None? && cleanup.None? {
        err := StartAttempt(None, permit);
      }
    }

    method Register(permit: bool, untilTaken: nat, expired: set<nat>)
      modifies this
      ensures View() == DoRegister(old(View()), permit, untilTaken, expired)
    {
      hide OwnerModel.StartNext, OwnerModel.Enter;
      if stopping {
        Ack(Refused(NotSent(SessionClosed)));
        return;
      }
      if ownership != Idle && ownership != Active {
        Ack(Refused(RefusalOf(ownership)));
        return;
      }
      if cleanup.Some? && cleanup.value.failed {
        Ack(Refused(NotSent(OwnershipUncertain)));
        return;
      }
      var id := nextWorker + 1;
      var err := Enter(permit);
      if err.Some? {
        RemoveQueued(id);
        workers := workers - {id};
        Ack(Refused(err.value));
        return;
      }
      Ack(Accepted(id));
      StartNext(untilTaken, expired);
    }

    method Cancel(id: nat)
      modifies this
      ensures View() == DoCancel(old(View()), id)
    {
      hide Without;
      var preDispatch := id in workers && workers[id].generation == 0;
      if preDispatch {
        RemoveQueued(id);
        var lastAttemptWaiter := attempt.Some? && |queue| == 0;
        if lastAttemptWaiter {
          workers := workers[id := workers[id].(canceled := true)];
          preDispatch := false;
        } else {
          Finish(id, NotSent(ContextEnded));
        }
      }
      Ack(CancelAnswer(preDispatch));
    }

    method FinishCanceled()
      modifies this`workers, this`replies
      ensures View() == SettleCanceled(old(View()), nextWorker)
    {
      var id := 0;
      while id < nextWorker
        modifies this`workers, this`replies
        invariant 0 <= id <= nextWorker
        invariant View() == SettleCanceled(old(View()), id)
        invariant View() == old(View()).(workers := workers, replies := replies)
      {
        id := id + 1;
        if id in workers && workers[id].canceled {
          Finish(id, NotSent(ContextEnded));
        }
      }
    }

    method KeepLive(expired: set<nat>)
      modifies this`workers, this`replies, this`queue
      ensures View() == FilterQueue(old(View()), old(queue), [], expired)
    {
      var liveQueue: seq<nat> := [];
      var index := 0;
      while index < |queue|
        modifies this`workers, this`replies
        invariant 0 <= index <= |queue|
        invariant View() == old(View()).(workers := workers, replies := replies)
        invariant FilterQueue(View(), queue[index..], liveQueue, expired) == FilterQueue(old(View()), queue, [], expired)
      {
        var id := queue[index];
        assert queue[index..][1..] == queue[index + 1..];
        index := index + 1;
        if id in workers {
          if id in expired {
            Finish(id, NotSent(ContextEnded));
          } else {
            liveQueue := liveQueue + [id];
          }
        }
      }
      queue := liveQueue;
    }

    method FailAttempt(g: nat, takeover: Option<nat>, left: bool)
      modifies this
      ensures View() == AttemptFailed(old(View()), g, takeover, left)
    {
      hide OwnerModel.FailQueued;
      FailQueued(Failed(AttemptError));
      if takeover.Some? {
        ownership := Uncertain;
        Reply(takeover, Failed(if left then OwnershipUncertain else AttemptError));
      }
      if left {
        cleanup := Some(Cleanup(g, Idle, true, None, None, false));
        ownership := Uncertain;
      }
    }

    method AdoptSession(g: nat, takeover: Option<nat>, untilTaken: nat, expired: set<nat>, demand: bool)
      modifies this
      ensures View() == AttemptConnected(old(View()), g, takeover, untilTaken, expired, demand)
    {
      hide OwnerModel.StartNext, OwnerModel.ScheduleIdle, Answered;
      if !stopping && (|queue| != 0 || takeover.Some?) {
        OpenGeneration(g, takeover);
        StartNext(untilTaken, expired);
        ScheduleIdle(demand);
      } else {
        CloseUnneeded(g, takeover);
      }
    }

    method OpenGeneration(g: nat, takeover: Option<nat>)
      modifies this`generation, this`ownership, this`spawned, this`answers
      ensures View() == Answered(Spawn(old(View()).(generation := Some(g), ownership := Active), Watch(g)), takeover, Success)
    {
      generation := Some(g);
      ownership := Active;
      Go(Watch(g));
      Reply(takeover, Success);
    }

    method CloseUnneeded(g: nat, takeover: Option<nat>)
      modifies this`cleanup, this`spawned, this`answers
      ensures View() == Spawn(Answered(old(View()), takeover, NotSent(SessionClosed))
                                .(cleanup := Some(Cleanup(g, if stopping then Stopped else Idle, false, None, None, false))), CloseSession(g))
    {
      Reply(takeover, NotSent(SessionClosed));
      cleanup := Some(Cleanup(g, if stopping then Stopped else Idle, false, None, None, false));
      Go(CloseSession(g));
    }

    method CompleteAttempt(g: nat, connection: Connection, expired: set<nat>, untilTaken: nat, expiredLater: set<nat>, demand: bool)
      modifies this
      ensures View() == DoAttemptDone(old(View()), g, connection, expired, untilTaken, expiredLater, demand)
    {
      hide SettleCanceled, FilterQueue, AttemptFailed, AttemptConnected;
      if attempt.None? || attempt.value.generation != g {
        if !connection.NoSession? {
          Go(CloseStray(g));
        }
        return;
      }
      var takeover := attempt.value.takeover;
      attempt := None;
      FinishCanceled();
      KeepLive(expired);
      if connection.Connected? {
        AdoptSession(g, takeover, untilTaken, expiredLater, demand);
      } else {
        FailAttempt(g, takeover, connection.SessionLeft?);
      }
    }

    method CompleteWorker(id: nat, g: nat, untilTaken: nat, expired: set<nat>, demand: bool)
      modifies this
      ensures View() == DoWorkerDone(old(View()), id, g, untilTaken, expired, demand)
    {
      hide OwnerModel.StartNext, OwnerModel.ScheduleIdle;
      if id !in workers || workers[id].generation == 0 || workers[id].generation != g {
        return;
      }
      Finish(id, Own);
      StartNext(untilTaken, expired);
      ScheduleIdle(demand);
    }

    method EndGeneration(g: nat, recognized: bool)
      modifies this
      ensures View() == DoGenerationEnded(old(View()), g, recognized)
    {
      hide OwnerModel.FailQueued;
      if generation != Some(g) {
        return;
      }
      var terminalErr := if recognized then SessionTakenOver else OwnershipUncertain;
      ownership := if recognized then TakenOver else Uncertain;
      var validationReply := None;
      if validation.Some? && validation.value.generation == g {
        validationReply := Some(validation.value.reply);
        validation := None;
      }
      FailQueued(NotSent(terminalErr));
      StartCleanup(g, ownership, None);
      Reply(validationReply, Failed(terminalErr));
    }

    method RecognizeTakeover(g: nat)
      modifies this
      ensures View() == DoTakeoverRecognized(old(View()), g)
    {
      hide OwnerModel.FailQueued;
      var pendingTerminalCleanup := cleanup.Some? && cleanup.value.generation == g && !cleanup.value.failed
                                    && cleanup.value.reply.None? && cleanup.value.takeover.None?;
      var completedTerminalCleanup := cleanup.None? && generation.None? && attempt.None? && ownership == Uncertain && nextGeneration == g;
      if !stopping && (pendingTerminalCleanup || completedTerminalCleanup) {
        ownership := TakenOver;
        if pendingTerminalCleanup {
          cleanup := Some(cleanup.value.(target := TakenOver));
        }
        FailQueued(NotSent(SessionTakenOver));
      }
    }

    method ExpireIdle(g: nat, demand: bool)
      modifies this
      ensures View() == DoIdleExpired(old(View()), g, demand)
    {
      idleArmed := false;
      if generation == Some(g) && |workers| == 0 && |queue| == 0 && !demand {
        StartCleanup(g, Idle, None);
      }
    }

    method KeepFailedCleanup()
      requires cleanup.Some?
      modifies this
      ensures View() == CleanupFailed(old(View()))
    {
      hide OwnerModel.FailQueued;
      var c := cleanup.value;
      cleanup := Some(c.(failed := true, reply := None, takeover := None));
      ownership := Uncertain;
      FailQueued(NotSent(Busy));
      Reply(c.reply, Failed(OwnershipUncertain));
      Reply(c.takeover, Failed(OwnershipUncertain));
    }

    method EndCleanup(recognized: bool)
      requires cleanup.Some?
      modifies this
      ensures View() == Closed(old(View()), recognized)
    {
      var c := cleanup.value;
      var target := c.target;
      if target == Uncertain && c.reply.None? && c.takeover.None? && recognized {
        target := TakenOver;
      }
      var keepTakeoverWatch := target == Uncertain && c.reply.None? && c.takeover.None?;
      if c.watched && !keepTakeoverWatch {
        unwatched := unwatched + {c.generation};
      }
      cleanup := None;
      ownership := target;
      Reply(c.reply, Success);
    }

    method Continue(takeover: Option<nat>, permitTakeover: bool, permitQueue: bool)
      modifies this
      ensures View() == Resume(old(View()), takeover, permitTakeover, permitQueue)
    {
      hide OwnerModel.FailQueued, OwnerModel.StartAttempt;
      if takeover.Some? {
        var err := StartAttempt(takeover, permitTakeover);
        if err.Some? {
          Reply(takeover, err.value);
        }
      }
      if !stopping && |queue| != 0 {
        var err := StartAttempt(None, permitQueue);
        if err.Some? {
          FailQueued(err.value);
        }
      }
    }

    method CompleteCleanup(g: nat, closed: bool, recognized: bool, permitTakeover: bool, permitQueue: bool)
      modifies this
      ensures View() == DoCleanupDone(old(View()), g, closed, recognized, permitTakeover, permitQueue)
    {
      hide CleanupFailed, Closed, Resume;
      if cleanup.None? || cleanup.value.generation != g {
        return;
      }
      if !closed {
        KeepFailedCleanup();
        return;
      }
      var takeover := cleanup.value.takeover;
      EndCleanup(recognized);
      Continue(takeover, permitTakeover, permitQueue);
    }

    method Release(reply: nat, demand: bool)
      modifies this
      ensures View() == DoRelease(old(View()), reply, demand)
    {
      var caller := Some(reply);
      if stopping {
        Reply(caller, NotSent(SessionClosed));
      } else if |workers| != 0 || |queue| != 0 || demand || attempt.Some? {
        Reply(caller, NotSent(Busy));
      } else if cleanup.Some? && !cleanup.value.failed {
        Reply(caller, NotSent(Busy));
      } else if ownership == Released {
        Reply(caller, Success);
      } else if generation.Some? {
        StartCleanup(generation.value, Released, caller);
      } else if cleanup.Some? {
        cleanup := Some(cleanup.value.(target := Released, reply := caller, failed := false));
        Go(CloseSession(cleanup.value.generation));
      } else if ownership == Idle || ownership == TakenOver || ownership == Uncertain {
        ownership := Released;
        Reply(caller, Success);
      } else {
        Reply(caller, NotSent(Busy));
      }
    }

    method TakeOver(reply: nat, demand: bool, permit: bool)
      modifies this
      ensures View() == DoTakeOver(old(View()), reply, demand, permit)
    {
      hide OwnerModel.StartAttempt;
      var caller := Some(reply);
      if stopping {
        Reply(caller, NotSent(SessionClosed));
      } else if |workers| != 0 || |queue| != 0 || demand || attempt.Some? || validation.Some? {
        Reply(caller, NotSent(Busy));
      } else if cleanup.Some? && !cleanup.value.failed {
        if cleanup.value.reply.None? && cleanup.value.takeover.None? {
          cleanup := Some(cleanup.value.(takeover := caller));
        } else {
          Reply(caller, NotSent(Busy));
        }
      } else if generation.Some? && ownership == Active {
        idleArmed := false;
        validation := Some(Validation(generation.value, reply));
        Go(Ping(generation.value));
      } else if cleanup.Some? {
        cleanup := Some(cleanup.value.(takeover := caller, reply := None, failed := false));
        Go(CloseSession(cleanup.value.generation));
      } else if generation.None? {
        var err := StartAttempt(caller, permit);
        if err.Some? {
          Reply(caller, err.value);
        }
      } else {
        Reply(caller, NotSent(Busy));
      }
    }

    method CompleteValidation(g: nat, failed: bool, lost: bool, demand: bool)
      modifies this
      ensures View() == DoValidationDone(old(View()), g, failed, lost, demand)
    {
      hide OwnerModel.ScheduleIdle;
      if validation.None? || validation.value.generation != g {
        return;
      }
      var caller := Some(validation.value.reply);
      validation := None;
      if generation != Some(g) {
        Reply(caller, Failed(OwnershipUncertain));
      } else if lost {
        ownership := Uncertain;
        StartCleanup(g, Uncertain, None);
        Reply(caller, Failed(OwnershipUncertain));
      } else if failed {
        Reply(caller, Failed(ReadError));
      } else {
        Reply(caller, Success);
        ScheduleIdle(demand);
      }
    }

    method CancelQueued()
      modifies this`workers, this`queue
      ensures View() == CancelAll(old(View()), old(queue)).(queue := [])
    {
      var index := 0;
      while index < |queue|
        modifies this`workers
        invariant 0 <= index <= |queue|
        invariant View() == old(View()).(workers := workers)
        invariant CancelAll(View(), queue[index..]) == CancelAll(old(View()), queue)
      {
        var id := queue[index];
        assert queue[index..][1..] == queue[index + 1..];
        if id in workers {
          workers := workers[id := workers[id].(canceled := true)];
        }
        index := index + 1;
      }
      queue := [];
    }

    method EndWaiting()
      modifies this`workers, this`queue, this`replies
      ensures View() == if attempt.Some? then CancelAll(old(View()), old(queue)).(queue := [])
                        else OwnerModel.FailQueued(old(View()), NotSent(SessionClosed))
    {
      hide CancelAll, OwnerModel.FailQueued;
      if attempt.Some? {
        CancelQueued();
      } else {
        FailQueued(NotSent(SessionClosed));
      }
    }

    method Stop(reply: nat)
      modifies this
      ensures View() == DoStop(old(View()), reply)
    {
      hide CancelAll, OwnerModel.FailQueued, OwnerModel.StartCleanup;
      if !stopping {
        stopping := true;
        idleArmed := false;
        EndWaiting();
        if generation.Some? {
          StartCleanup(generation.value, Stopped, None);
        }
      }
      stopWaiters := stopWaiters + [reply];
    }

    method Dispatch(c: Command)
      modifies this
      ensures View() == Handle(old(View()), c)
    {
      hide DoRegister, DoCancel, DoAttemptDone, DoWorkerDone, DoGenerationEnded, DoTakeoverRecognized, DoCleanupDone, DoStop, DoIdleExpired, DoRelease, DoTakeOver, DoValidationDone, OwnerModel.ScheduleIdle;
      match c {
        case Register(permit, untilTaken, expired) => Register(permit, untilTaken, expired);
        case Cancel(worker) => Cancel(worker);
        case AttemptDone(g, connection, expired, untilTaken, expiredLater, demand) => CompleteAttempt(g, connection, expired, untilTaken, expiredLater, demand);
        case WorkerDone(worker, g, untilTaken, expired, demand) => CompleteWorker(worker, g, untilTaken, expired, demand);
        case GenerationEnded(g, recognized) => EndGeneration(g, recognized);
        case TakeoverRecognized(g) => RecognizeTakeover(g);
        case IdleExpired(g, demand) => ExpireIdle(g, demand);
        case DemandChanged(demand) => ScheduleIdle(demand);
        case CleanupDone(g, closed, recognized, permitTakeover, permitQueue) => CompleteCleanup(g, closed, recognized, permitTakeover, permitQueue);
        case Release(reply, demand) => Release(reply, demand);
        case TakeOver(reply, demand, permit) => TakeOver(reply, demand, permit);
        case ValidationDone(g, failed, lost, demand) => CompleteValidation(g, failed, lost, demand);
        case Stop(reply) => Stop(reply);
      }
    }

    /** One turn of the loop. */
    method Consume(c: Command)
      modifies this
      ensures View() == Turn(old(View()), c)
    {
      hide Handle, OwnerModel.FinishIfStopped;
      if finished {
        return;
      }
      Dispatch(c);
      var done := FinishIfStopped();
    }
  }
}
