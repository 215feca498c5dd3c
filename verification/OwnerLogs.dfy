/** What the loop has sent and started is never taken back: its logs only grow. */
module OwnerLogs {
  import opened Options
  import opened OwnerModel

  predicate Grown(o: Owner, r: Owner) {
    o.spawned <= r.spawned && o.replies <= r.replies && o.answers <= r.answers && o.acks <= r.acks
  }

  lemma GrownTwice(o: Owner, m: Owner, r: Owner)
    requires Grown(o, m) && Grown(m, r)
    ensures Grown(o, r)
  {
  }

  lemma SettleGrows(o: Owner, worker: nat, verdict: Verdict)
    ensures Grown(o, Settle(o, worker, verdict))
  {
  }

  lemma {:induction false} SettleAllGrows(o: Owner, queue: seq<nat>, verdict: Verdict)
    ensures Grown(o, SettleAll(o, queue, verdict))
    decreases |queue|
  {
    if queue != [] {
      var next := if queue[0] in o.workers then Settle(o, queue[0], verdict) else o;
      SettleGrows(o, queue[0], verdict);
      SettleAllGrows(next, queue[1..], verdict);
      GrownTwice(o, next, SettleAll(next, queue[1..], verdict));
      hide Grown, Settle;
    }
  }

  lemma FailQueuedGrows(o: Owner, verdict: Verdict)
    ensures Grown(o, FailQueued(o, verdict))
  {
    SettleAllGrows(o, o.queue, verdict);
    hide SettleAll;
  }

  lemma {:induction false} DispatchGrows(o: Owner, g: nat, untilTaken: nat, expired: set<nat>)
    ensures Grown(o, Dispatch(o, g, untilTaken, expired))
    decreases |o.queue|
  {
    if o.queue != [] && untilTaken != 0 {
      var next := HandOver(o, g, expired);
      HandOverGrows(o, g, expired);
      DispatchGrows(next, g, untilTaken - 1, expired);
      GrownTwice(o, next, Dispatch(next, g, untilTaken - 1, expired));
      hide Grown, HandOver;
    }
  }

  lemma HandOverGrows(o: Owner, g: nat, expired: set<nat>)
    requires o.queue != []
    ensures Grown(o, HandOver(o, g, expired))
  {
  }

  lemma StartNextGrows(o: Owner, untilTaken: nat, expired: set<nat>, demand: bool)
    ensures Grown(o, StartNext(o, untilTaken, expired)) && Grown(o, ScheduleIdle(StartNext(o, untilTaken, expired), demand))
  {
    if o.generation.Some? {
      DispatchGrows(o, o.generation.value, untilTaken, expired);
    }
    hide Dispatch;
  }

  lemma {:induction false} AnswerAllGrows(o: Owner, waiters: seq<nat>, verdict: Verdict)
    ensures Grown(o, AnswerAll(o, waiters, verdict))
    decreases |waiters|
  {
    if waiters != [] {
      AnswerAllGrows(Answered(o, Some(waiters[0]), verdict), waiters[1..], verdict);
    }
  }

  lemma {:induction false} SettleCanceledGrows(o: Owner, last: nat)
    ensures Grown(o, SettleCanceled(o, last))
  {
    if last != 0 {
      SettleCanceledGrows(o, last - 1);
    }
  }

  lemma {:induction false} FilterQueueGrows(o: Owner, queue: seq<nat>, kept: seq<nat>, expired: set<nat>)
    ensures Grown(o, FilterQueue(o, queue, kept, expired))
    decreases |queue|
  {
    if queue != [] {
      if queue[0] !in o.workers {
        FilterQueueGrows(o, queue[1..], kept, expired);
      } else if queue[0] in expired {
        FilterQueueGrows(Settle(o, queue[0], NotSent(ContextEnded)), queue[1..], kept, expired);
      } else {
        FilterQueueGrows(o, queue[1..], kept + [queue[0]], expired);
      }
    }
  }

  lemma {:induction false} CancelAllGrows(o: Owner, queue: seq<nat>)
    ensures Grown(o, CancelAll(o, queue))
    decreases |queue|
  {
    if queue != [] {
      CancelAllGrows(if queue[0] in o.workers then o.(workers := o.workers[queue[0] := o.workers[queue[0]].(canceled := true)]) else o, queue[1..]);
    }
  }

  lemma StartGrows(o: Owner, takeover: Option<nat>, permit: bool, g: nat, target: Ownership, reply: Option<nat>)
    ensures Grown(o, StartAttempt(o, takeover, permit).0) && Grown(o, StartCleanup(o, g, target, reply))
  {
  }

  /** The same logs are no shorter, and one entry more is one entry more. */
  lemma OneMoreGrows(o: Owner, r: Owner, to: Option<nat>, verdict: Verdict, task: Task, ack: Ack)
    requires r.spawned == o.spawned && r.replies == o.replies && r.answers == o.answers && r.acks == o.acks
    ensures Grown(o, r) && Grown(o, Answered(r, to, verdict)) && Grown(o, Spawn(r, task)) && Grown(o, Acked(r, ack))
  {
  }

  lemma RegisterGrows(o: Owner, permit: bool, untilTaken: nat, expired: set<nat>)
    ensures Grown(o, DoRegister(o, permit, untilTaken, expired))
  {
    hide StartNext, Enter, Refusal, Without, Grown, Acked, Admits;
    var (o2, err) := Enter(o, permit);
    EnterGrows(o, permit);
    var id := o.nextWorker + 1;
    var o3 := Acked(o2, Accepted(id));
    OneMoreGrows(o2, o2, None, Success, Watch(0), Accepted(id));
    OneMoreGrows(o, o, None, Success, Watch(0), Refused(Refusal(o)));
    StartNextGrows(o3, untilTaken, expired, false);
    GrownTwice(o, o2, o3);
    GrownTwice(o, o3, StartNext(o3, untilTaken, expired));
    if err.Some? {
      OneMoreGrows(o2, Delist(o2, id), None, Success, Watch(0), Refused(err.value));
      GrownTwice(o, o2, Acked(Delist(o2, id), Refused(err.value)));
    }
  }

  lemma EnterGrows(o: Owner, permit: bool)
    ensures Grown(o, Enter(o, permit).0)
  {
    OneMoreGrows(o, Enlist(o), None, Success, Watch(0), Accepted(0));
    StartGrows(Enlist(o), None, permit, 0, Idle, None);
    GrownTwice(o, Enlist(o), StartAttempt(Enlist(o), None, permit).0);
    hide StartAttempt, Grown;
  }

  lemma CancelGrows(o: Owner, worker: nat)
    ensures Grown(o, DoCancel(o, worker))
  {
    hide Without;
  }

  lemma AttemptDoneGrows(o: Owner, g: nat, connection: Connection, expired: set<nat>, untilTaken: nat, expiredLater: set<nat>, demand: bool)
    ensures Grown(o, DoAttemptDone(o, g, connection, expired, untilTaken, expiredLater, demand))
  {
    if o.attempt.Some? {
      var takeover := o.attempt.value.takeover;
      var o1 := SettleCanceled(o.(attempt := None), o.nextWorker);
      var o2 := FilterQueue(o1, o1.queue, [], expired);
      SettleCanceledGrows(o.(attempt := None), o.nextWorker);
      FilterQueueGrows(o1, o1.queue, [], expired);
      AttemptEndGrows(o2, g, takeover, untilTaken, expiredLater, demand, connection.SessionLeft?);
    }
    hide SettleCanceled, FilterQueue, AttemptConnected, AttemptFailed;
  }

  lemma AttemptEndGrows(o: Owner, g: nat, takeover: Option<nat>, untilTaken: nat, expired: set<nat>, demand: bool, left: bool)
    ensures Grown(o, AttemptConnected(o, g, takeover, untilTaken, expired, demand)) && Grown(o, AttemptFailed(o, g, takeover, left))
  {
    FailQueuedGrows(o, Failed(AttemptError));
    var o1 := Answered(Spawn(o.(generation := Some(g), ownership := Active), Watch(g)), takeover, Success);
    StartNextGrows(o1, untilTaken, expired, demand);
    hide FailQueued, StartNext, ScheduleIdle;
  }

  lemma WorkerDoneGrows(o: Owner, worker: nat, g: nat, untilTaken: nat, expired: set<nat>, demand: bool)
    ensures Grown(o, DoWorkerDone(o, worker, g, untilTaken, expired, demand))
  {
    StartNextGrows(Settle(o, worker, Own), untilTaken, expired, demand);
    hide StartNext, ScheduleIdle;
  }

  lemma EndGrows(o: Owner, g: nat, recognized: bool)
    ensures Grown(o, DoGenerationEnded(o, g, recognized)) && Grown(o, DoTakeoverRecognized(o, g))
  {
    var cause := if recognized then SessionTakenOver else OwnershipUncertain;
    var validated := o.validation.Some? && o.validation.value.generation == g;
    var o1 := o.(ownership := if recognized then TakenOver else Uncertain, validation := if validated then None else o.validation);
    FailQueuedGrows(o1, NotSent(cause));
    FailQueuedGrows(o.(ownership := TakenOver,
                       cleanup := if PendingTerminal(o, g) then Some(o.cleanup.value.(target := TakenOver)) else o.cleanup),
                    NotSent(SessionTakenOver));
    hide FailQueued;
  }

  lemma CleanupDoneGrows(o: Owner, g: nat, closed: bool, recognized: bool, permitTakeover: bool, permitQueue: bool)
    ensures Grown(o, DoCleanupDone(o, g, closed, recognized, permitTakeover, permitQueue))
  {
    if o.cleanup.Some? {
      CleanupEndGrows(o, recognized);
      ResumeGrows(Closed(o, recognized), o.cleanup.value.takeover, permitTakeover, permitQueue);
    }
    hide Resume, Closed, CleanupFailed;
  }

  lemma CleanupEndGrows(o: Owner, recognized: bool)
    requires o.cleanup.Some?
    ensures Grown(o, Closed(o, recognized)) && Grown(o, CleanupFailed(o))
  {
    FailQueuedGrows(o.(cleanup := Some(o.cleanup.value.(failed := true, reply := None, takeover := None)), ownership := Uncertain), NotSent(Busy));
    hide FailQueued;
  }

  lemma ResumeGrows(o: Owner, takeover: Option<nat>, permitTakeover: bool, permitQueue: bool)
    ensures Grown(o, Resume(o, takeover, permitTakeover, permitQueue))
  {
    var (o1, err) := if takeover.Some? then StartAttempt(o, takeover, permitTakeover) else (o, None);
    var o2 := if err.Some? then Answered(o1, takeover, err.value) else o1;
    StartGrows(o, takeover, permitTakeover, 0, Idle, None);
    StartGrows(o2, None, permitQueue, 0, Idle, None);
    var (o3, failed) := StartAttempt(o2, None, permitQueue);
    if failed.Some? {
      FailQueuedGrows(o3, failed.value);
    }
    hide StartAttempt, FailQueued;
  }

  lemma RetryGrows(o: Owner, cleanup: Cleanup)
    ensures Grown(o, RetryCleanup(o, cleanup))
  {
  }

  lemma AnswersGrow(o: Owner, reply: nat)
    ensures forall verdict: Verdict :: Grown(o, Answered(o, Some(reply), verdict))
    ensures forall verdict: Verdict :: Grown(o, Answered(o.(ownership := Released), Some(reply), verdict))
  {
  }

  lemma ReleaseGrows(o: Owner, reply: nat, demand: bool)
    ensures Grown(o, DoRelease(o, reply, demand))
  {
    AnswersGrow(o, reply);
    if o.generation.Some? {
      StartGrows(o, None, false, o.generation.value, Released, Some(reply));
    }
    if o.cleanup.Some? {
      RetryGrows(o, o.cleanup.value.(target := Released, reply := Some(reply)));
    }
    hide StartCleanup, RetryCleanup, Answered, Grown;
  }

  lemma TakeOverGrows(o: Owner, reply: nat, demand: bool, permit: bool)
    ensures Grown(o, DoTakeOver(o, reply, demand, permit))
  {
    AnswersGrow(o, reply);
    var (o1, err) := StartAttempt(o, Some(reply), permit);
    StartGrows(o, Some(reply), permit, 0, Idle, None);
    AnswersGrow(o1, reply);
    if err.Some? {
      GrownTwice(o, o1, Answered(o1, Some(reply), err.value));
    }
    if o.cleanup.Some? {
      RetryGrows(o, o.cleanup.value.(takeover := Some(reply), reply := None));
      OneMoreGrows(o, o.(cleanup := Some(o.cleanup.value.(takeover := Some(reply)))), None, Success, Watch(0), Accepted(0));
    }
    if o.generation.Some? {
      OneMoreGrows(o, o.(idleArmed := false, validation := Some(Validation(o.generation.value, reply))), None, Success, Ping(o.generation.value), Accepted(0));
    }
    hide StartAttempt, RetryCleanup, Answered, Spawn, Grown;
  }

  lemma ValidationGrows(o: Owner, g: nat, failed: bool, lost: bool, demand: bool)
    ensures Grown(o, DoValidationDone(o, g, failed, lost, demand))
  {
    if o.validation.Some? {
      var o1 := o.(validation := None);
      var o2 := StartCleanup(o1.(ownership := Uncertain), g, Uncertain, None);
      var o3 := Answered(o1, Some(o.validation.value.reply), Success);
      Unturned(o);
      OneMoreGrows(o, o1, None, Success, Watch(0), Accepted(0));
      OneMoreGrows(o, o1.(ownership := Uncertain), None, Success, Watch(0), Accepted(0));
      AnswersGrow(o1, o.validation.value.reply);
      StartGrows(o1.(ownership := Uncertain), None, false, g, Uncertain, None);
      GrownTwice(o, o1.(ownership := Uncertain), o2);
      AnswersGrow(o2, o.validation.value.reply);
      GrownTwice(o, o2, Answered(o2, Some(o.validation.value.reply), Failed(OwnershipUncertain)));
      IdleGrows(o3, g, demand);
      GrownTwice(o, o1, o3);
      GrownTwice(o, o1, Answered(o1, Some(o.validation.value.reply), Failed(OwnershipUncertain)));
      GrownTwice(o, o1, Answered(o1, Some(o.validation.value.reply), Failed(ReadError)));
      GrownTwice(o, o3, ScheduleIdle(o3, demand));
      hide StartCleanup, ScheduleIdle, Answered, Grown;
    } else {
      Unturned(o);
    }
  }

  lemma IdleGrows(o: Owner, g: nat, demand: bool)
    ensures Grown(o, DoIdleExpired(o, g, demand)) && Grown(o, ScheduleIdle(o, demand))
  {
    StartGrows(o.(idleArmed := false), None, false, g, Idle, None);
    hide StartCleanup;
  }

  lemma StopGrows(o: Owner, reply: nat)
    ensures Grown(o, DoStop(o, reply))
  {
    var s := o.(stopping := true, idleArmed := false);
    CancelAllGrows(s, s.queue);
    FailQueuedGrows(s, NotSent(SessionClosed));
    hide CancelAll, FailQueued;
  }

  /** Whatever the command. */
  lemma TurnGrows(o: Owner, c: Command)
    ensures Grown(o, Turn(o, c))
  {
    hide Grown, DoRegister, DoCancel, DoAttemptDone, DoWorkerDone, DoGenerationEnded, DoTakeoverRecognized, DoCleanupDone, DoStop, DoIdleExpired,
         DoRelease, DoTakeOver, DoValidationDone, ScheduleIdle, FinishIfStopped;
    match c {
      case Register(permit, untilTaken, expired) => RegisterGrows(o, permit, untilTaken, expired);
      case Cancel(worker) => CancelGrows(o, worker);
      case AttemptDone(g, connection, expired, untilTaken, expiredLater, demand) => AttemptDoneGrows(o, g, connection, expired, untilTaken, expiredLater, demand);
      case WorkerDone(worker, g, untilTaken, expired, demand) => WorkerDoneGrows(o, worker, g, untilTaken, expired, demand);
      case GenerationEnded(g, recognized) => EndGrows(o, g, recognized);
      case TakeoverRecognized(g) => EndGrows(o, g, false);
      case IdleExpired(g, demand) => IdleGrows(o, g, demand);
      case DemandChanged(demand) => IdleGrows(o, 0, demand);
      case CleanupDone(g, closed, recognized, permitTakeover, permitQueue) => CleanupDoneGrows(o, g, closed, recognized, permitTakeover, permitQueue);
      case Release(reply, demand) => ReleaseGrows(o, reply, demand);
      case TakeOver(reply, demand, permit) => TakeOverGrows(o, reply, demand, permit);
      case ValidationDone(g, failed, lost, demand) => ValidationGrows(o, g, failed, lost, demand);
      case Stop(reply) => StopGrows(o, reply);
    }
    FinishGrows(Handle(o, c));
    Unturned(o);
    GrownTwice(o, Handle(o, c), FinishIfStopped(Handle(o, c)));
  }

  lemma Unturned(o: Owner)
    ensures Grown(o, o)
  {
  }

  lemma FinishGrows(o: Owner)
    ensures Grown(o, FinishIfStopped(o))
  {
    AnswerAllGrows(o, o.stopWaiters, if o.cleanup.Some? then Failed(CloseError) else Success);
    hide AnswerAll;
  }
}
