/** The device owner's command loop as a state and one function per command. Everything the loop reads
    from outside (a permit, a context that ended, a recognised takeover, the demand counter) is part of
    the command; everything it sends or starts is appended to a log. */
module OwnerModel {
  import opened Options

  datatype Ownership = Idle | Active | TakenOver | Uncertain | Released | Stopped

  datatype Cause =
    | SessionClosed | Busy | ContextEnded | AttemptError | CloseError | ReadError
    | OwnershipUncertain | SessionTakenOver | SessionReleased

  /** `Own` is the result of the operation itself. */
  datatype Verdict = Success | NotSent(cause: Cause) | Failed(cause: Cause) | Own

  /** `generation` is zero until the operation is handed to a session. */
  datatype Worker = Worker(generation: nat, canceled: bool)

  datatype Attempt = Attempt(generation: nat, takeover: Option<nat>)

  datatype Validation = Validation(generation: nat, reply: nat)

  datatype Cleanup = Cleanup(
    generation: nat, target: Ownership, failed: bool, reply: Option<nat>, takeover: Option<nat>, watched: bool)

  /** Answers that are given at once. */
  datatype Ack = Accepted(worker: nat) | Refused(why: Verdict) | CancelAnswer(preDispatch: bool)

  /** The goroutines the loop starts. */
  datatype Task =
    | Connect(generation: nat)
    | Watch(generation: nat)
    | Operate(worker: nat, generation: nat)
    | Ping(generation: nat)
    | CloseSession(generation: nat)
    | CloseStray(generation: nat)

  datatype Reply = Reply(worker: nat, verdict: Verdict)

  datatype Answer = Answer(to: nat, verdict: Verdict)

  /** A session is named by the generation whose attempt obtained it. `replies` go to workers,
      `answers` to callers of release, takeover and stop. `unwatched` are the closed watch channels. */
  datatype Owner = Owner(
    workers: map<nat, Worker>, queue: seq<nat>,
    attempt: Option<Attempt>, validation: Option<Validation>, generation: Option<nat>, cleanup: Option<Cleanup>,
    ownership: Ownership, stopping: bool, stopWaiters: seq<nat>, finished: bool,
    nextGeneration: nat, nextWorker: nat, idleArmed: bool,
    replies: seq<Reply>, answers: seq<Answer>, acks: seq<Ack>, spawned: seq<Task>, unwatched: set<nat>)

  /** How `runAttempt` ended: with a live session, with none, or with one it could not close. */
  datatype Connection = Connected | NoSession | SessionLeft

  /** `expired` are the workers whose context has ended; `untilTaken` is how many queue entries are
      handled before the session is seen to be taken over; `demand` is whether the counter is non-zero. */
  datatype Command =
    | Register(permit: bool, untilTaken: nat, expired: set<nat>)
    | Cancel(worker: nat)
    | AttemptDone(generation: nat, connection: Connection, expired: set<nat>, untilTaken: nat, expiredLater: set<nat>, demand: bool)
    | WorkerDone(worker: nat, generation: nat, untilTaken: nat, expired: set<nat>, demand: bool)
    | GenerationEnded(generation: nat, recognized: bool)
    | TakeoverRecognized(generation: nat)
    | IdleExpired(generation: nat, demand: bool)
    | DemandChanged(demand: bool)
    | CleanupDone(generation: nat, closed: bool, recognized: bool, permitTakeover: bool, permitQueue: bool)
    | Release(reply: nat, demand: bool)
    | TakeOver(reply: nat, demand: bool, permit: bool)
    | ValidationDone(generation: nat, failed: bool, lost: bool, demand: bool)
    | Stop(reply: nat)

  function NewOwner(ownership: Ownership): Owner {
    Owner(map[], [], None, None, None, None, ownership, false, [], false, 0, 0, false, [], [], [], [], {})
  }

  // ---- The closures of the loop ----

  function Acked(o: Owner, ack: Ack): Owner {
    o.(acks := o.acks + [ack])
  }

  function Answered(o: Owner, to: Option<nat>, verdict: Verdict): Owner {
    if to.None? then o else o.(answers := o.answers + [Answer(to.value, verdict)])
  }

  function Spawn(o: Owner, task: Task): Owner {
    o.(spawned := o.spawned + [task])
  }

  /** Remove the worker and answer it. */
  function Settle(o: Owner, worker: nat, verdict: Verdict): Owner {
    o.(workers := o.workers - {worker}, replies := o.replies + [Reply(worker, verdict)])
  }

  function Without(queue: seq<nat>, worker: nat): seq<nat> {
    if queue == [] then []
    else if queue[0] == worker then queue[1..]
    else [queue[0]] + Without(queue[1..], worker)
  }

  function SettleAll(o: Owner, queue: seq<nat>, verdict: Verdict): Owner
    decreases |queue|
  {
    if queue == [] then o
    else SettleAll(if queue[0] in o.workers then Settle(o, queue[0], verdict) else o, queue[1..], verdict)
  }

  function FailQueued(o: Owner, verdict: Verdict): Owner {
    SettleAll(o, o.queue, verdict).(queue := [])
  }

  /** Start connecting. The second part is the error returned, if any; when an ordinary attempt is
      simply not due there is none. */
  function StartAttempt(o: Owner, takeover: Option<nat>, permit: bool): (Owner, Option<Verdict>) {
    if o.attempt.Some? || o.generation.Some? || o.cleanup.Some? || o.validation.Some? || o.stopping
       || (takeover.None? && o.ownership != Idle)
    then (o, if takeover.None? then None else Some(NotSent(if o.stopping then SessionClosed else Busy)))
    else if !permit then (o, Some(NotSent(Busy)))
    else
      var g := o.nextGeneration + 1;
      (Spawn(o.(nextGeneration := g, attempt := Some(Attempt(g, takeover))), Connect(g)), None)
  }

  /** Take the first worker off the queue and hand it to the session, unless its context has ended. */
  function HandOver(o: Owner, g: nat, expired: set<nat>): (r: Owner)
    requires o.queue != []
    ensures r.queue == o.queue[1..]
  {
    var id, rest := o.queue[0], o.(queue := o.queue[1..]);
    if id !in o.workers then rest
    else if id in expired then Settle(rest, id, NotSent(ContextEnded))
    else Spawn(rest.(idleArmed := false, workers := rest.workers[id := rest.workers[id].(generation := g)]), Operate(id, g))
  }

  function Dispatch(o: Owner, g: nat, untilTaken: nat, expired: set<nat>): Owner
    decreases |o.queue|
  {
    if o.queue == [] || untilTaken == 0 then o else Dispatch(HandOver(o, g, expired), g, untilTaken - 1, expired)
  }

  function StartNext(o: Owner, untilTaken: nat, expired: set<nat>): Owner {
    if o.generation.None? || o.stopping then o else Dispatch(o, o.generation.value, untilTaken, expired)
  }

  function ScheduleIdle(o: Owner, demand: bool): Owner {
    if o.stopping || o.attempt.Some? || o.generation.None? || o.cleanup.Some? || |o.workers| != 0 || |o.queue| != 0 || demand || o.idleArmed
    then o else o.(idleArmed := true)
  }

  function StartCleanup(o: Owner, g: nat, target: Ownership, reply: Option<nat>): Owner {
    if o.cleanup.Some? then o
    else
      Spawn(o.(idleArmed := false, generation := if o.generation == Some(g) then None else o.generation,
               cleanup := Some(Cleanup(g, target, false, reply, None, true))),
            CloseSession(g))
  }

  function AnswerAll(o: Owner, waiters: seq<nat>, verdict: Verdict): Owner
    decreases |waiters|
  {
    if waiters == [] then o else AnswerAll(Answered(o, Some(waiters[0]), verdict), waiters[1..], verdict)
  }

  function FinishIfStopped(o: Owner): Owner {
    var cleanupPending := o.cleanup.Some? && !o.cleanup.value.failed;
    if !o.stopping || o.attempt.Some? || o.validation.Some? || o.generation.Some? || cleanupPending || |o.workers| != 0 then o
    else AnswerAll(o, o.stopWaiters, if o.cleanup.Some? then Failed(CloseError) else Success).(stopWaiters := [], finished := true)
  }

  // ---- The commands ----

  function RefusalOf(ownership: Ownership): Verdict {
    match ownership
    case Released => NotSent(SessionReleased)
    case TakenOver => NotSent(SessionTakenOver)
    case Uncertain => NotSent(OwnershipUncertain)
    case _ => NotSent(Busy)
  }

  predicate Admits(o: Owner) {
    !o.stopping && (o.ownership == Idle || o.ownership == Active) && !(o.cleanup.Some? && o.cleanup.value.failed)
  }

  function Refusal(o: Owner): Verdict {
    if o.stopping then NotSent(SessionClosed)
    else if o.ownership != Idle && o.ownership != Active then RefusalOf(o.ownership)
    else NotSent(OwnershipUncertain)
  }

  function Enlist(o: Owner): Owner {
    var id := o.nextWorker + 1;
    o.(nextWorker := id, workers := o.workers[id := Worker(0, false)], queue := o.queue + [id])
  }

  function Delist(o: Owner, id: nat): Owner {
    o.(queue := Without(o.queue, id), workers := o.workers - {id})
  }

  /** Enlist, and start connecting when nothing is under way. */
  function Enter(o: Owner, permit: bool): (Owner, Option<Verdict>) {
    if o.generation.None? && o.attempt.None? && o.cleanup.None? then StartAttempt(Enlist(o), None, permit) else (Enlist(o), None)
  }

  function DoRegister(o: Owner, permit: bool, untilTaken: nat, expired: set<nat>): Owner {
    if !Admits(o) then Acked(o, Refused(Refusal(o)))
    else
      var id := o.nextWorker + 1;
      var (o2, err) := Enter(o, permit);
      if err.Some? then Acked(Delist(o2, id), Refused(err.value))
      else StartNext(Acked(o2, Accepted(id)), untilTaken, expired)
  }

  function DoCancel(o: Owner, worker: nat): Owner {
    if worker in o.workers && o.workers[worker].generation == 0 then
      var o1 := o.(queue := Without(o.queue, worker));
      if o1.attempt.Some? && |o1.queue| == 0
      then Acked(o1.(workers := o1.workers[worker := o1.workers[worker].(canceled := true)]), CancelAnswer(false))
      else Acked(Settle(o1, worker, NotSent(ContextEnded)), CancelAnswer(true))
    else Acked(o, CancelAnswer(false))
  }

  /** Canceled workers up to `last`, in the order they registered. */
  function SettleCanceled(o: Owner, last: nat): Owner {
    if last == 0 then o
    else
      var before := SettleCanceled(o, last - 1);
      if last in before.workers && before.workers[last].canceled then Settle(before, last, NotSent(ContextEnded)) else before
  }

  /** Keep in the queue only live workers. */
  function FilterQueue(o: Owner, queue: seq<nat>, kept: seq<nat>, expired: set<nat>): Owner
    decreases |queue|
  {
    if queue == [] then o.(queue := kept)
    else if queue[0] !in o.workers then FilterQueue(o, queue[1..], kept, expired)
    else if queue[0] in expired then FilterQueue(Settle(o, queue[0], NotSent(ContextEnded)), queue[1..], kept, expired)
    else FilterQueue(o, queue[1..], kept + [queue[0]], expired)
  }

  function AttemptFailed(o: Owner, g: nat, takeover: Option<nat>, left: bool): Owner {
    var o1 := FailQueued(o, Failed(AttemptError));
    var o2 := if takeover.Some?
              then Answered(o1.(ownership := Uncertain), takeover, Failed(if left then OwnershipUncertain else AttemptError)) else o1;
    if left then o2.(cleanup := Some(Cleanup(g, Idle, true, None, None, false)), ownership := Uncertain) else o2
  }

  function AttemptConnected(o: Owner, g: nat, takeover: Option<nat>, untilTaken: nat, expired: set<nat>, demand: bool): Owner {
    if !o.stopping && (|o.queue| != 0 || takeover.Some?) then
      var o1 := Answered(Spawn(o.(generation := Some(g), ownership := Active), Watch(g)), takeover, Success);
      ScheduleIdle(StartNext(o1, untilTaken, expired), demand)
    else
      var o1 := Answered(o, takeover, NotSent(SessionClosed));
      Spawn(o1.(cleanup := Some(Cleanup(g, if o.stopping then Stopped else Idle, false, None, None, false))), CloseSession(g))
  }

  function DoAttemptDone(o: Owner, g: nat, connection: Connection, expired: set<nat>, untilTaken: nat, expiredLater: set<nat>, demand: bool): Owner {
    if o.attempt.None? || o.attempt.value.generation != g then
      if connection.NoSession? then o else Spawn(o, CloseStray(g))
    else
      var takeover := o.attempt.value.takeover;
      var o1 := SettleCanceled(o.(attempt := None), o.nextWorker);
      var o2 := FilterQueue(o1, o1.queue, [], expired);
      if connection.Connected? then AttemptConnected(o2, g, takeover, untilTaken, expiredLater, demand)
      else AttemptFailed(o2, g, takeover, connection.SessionLeft?)
  }

  function DoWorkerDone(o: Owner, worker: nat, g: nat, untilTaken: nat, expired: set<nat>, demand: bool): Owner {
    if worker !in o.workers || o.workers[worker].generation == 0 || o.workers[worker].generation != g then o
    else ScheduleIdle(StartNext(Settle(o, worker, Own), untilTaken, expired), demand)
  }

  function DoGenerationEnded(o: Owner, g: nat, recognized: bool): Owner {
    if o.generation != Some(g) then o
    else
      var terminal, cause := if recognized then TakenOver else Uncertain, if recognized then SessionTakenOver else OwnershipUncertain;
      var validated := o.validation.Some? && o.validation.value.generation == g;
      var o1 := o.(ownership := terminal, validation := if validated then None else o.validation);
      var o2 := StartCleanup(FailQueued(o1, NotSent(cause)), g, terminal, None);
      Answered(o2, if validated then Some(o.validation.value.reply) else None, Failed(cause))
  }

  predicate PendingTerminal(o: Owner, g: nat) {
    && o.cleanup.Some? && o.cleanup.value.generation == g && !o.cleanup.value.failed
    && o.cleanup.value.reply.None? && o.cleanup.value.takeover.None?
  }

  predicate CompletedTerminal(o: Owner, g: nat) {
    o.cleanup.None? && o.generation.None? && o.attempt.None? && o.ownership == Uncertain && o.nextGeneration == g
  }

  function DoTakeoverRecognized(o: Owner, g: nat): Owner {
    if o.stopping || !(PendingTerminal(o, g) || CompletedTerminal(o, g)) then o
    else
      FailQueued(o.(ownership := TakenOver,
                    cleanup := if PendingTerminal(o, g) then Some(o.cleanup.value.(target := TakenOver)) else o.cleanup),
                 NotSent(SessionTakenOver))
  }

  function DoIdleExpired(o: Owner, g: nat, demand: bool): Owner {
    var o1 := o.(idleArmed := false);
    if o.generation == Some(g) && |o.workers| == 0 && |o.queue| == 0 && !demand then StartCleanup(o1, g, Idle, None) else o1
  }

  function CleanupFailed(o: Owner): Owner
    requires o.cleanup.Some?
  {
    var c := o.cleanup.value;
    var o1 := FailQueued(o.(cleanup := Some(c.(failed := true, reply := None, takeover := None)), ownership := Uncertain), NotSent(Busy));
    Answered(Answered(o1, c.reply, Failed(OwnershipUncertain)), c.takeover, Failed(OwnershipUncertain))
  }

  /** After the session is closed: what a waiting takeover does, then the queue. */
  function Resume(o: Owner, takeover: Option<nat>, permitTakeover: bool, permitQueue: bool): Owner {
    var (o1, err) := if takeover.Some? then StartAttempt(o, takeover, permitTakeover) else (o, None);
    var o2 := if err.Some? then Answered(o1, takeover, err.value) else o1;
    if o2.stopping || |o2.queue| == 0 then o2
    else
      var (o3, failed) := StartAttempt(o2, None, permitQueue);
      if failed.Some? then FailQueued(o3, failed.value) else o3
  }

  /** The session is closed: the cleanup is over and the release that asked for it is answered. A
      takeover recognised by now overrides uncertainty; while it may still come, the watcher stays. */
  function Closed(o: Owner, recognized: bool): Owner
    requires o.cleanup.Some?
  {
    var c := o.cleanup.value;
    var unclaimed := c.reply.None? && c.takeover.None?;
    var target := if c.target == Uncertain && unclaimed && recognized then TakenOver else c.target;
    var keepWatch := target == Uncertain && unclaimed;
    Answered(o.(cleanup := None, ownership := target,
                unwatched := if c.watched && !keepWatch then o.unwatched + {c.generation} else o.unwatched),
             c.reply, Success)
  }

  function DoCleanupDone(o: Owner, g: nat, closed: bool, recognized: bool, permitTakeover: bool, permitQueue: bool): Owner {
    if o.cleanup.None? || o.cleanup.value.generation != g then o
    else if !closed then CleanupFailed(o)
    else Resume(Closed(o, recognized), o.cleanup.value.takeover, permitTakeover, permitQueue)
  }

  function RetryCleanup(o: Owner, cleanup: Cleanup): Owner {
    Spawn(o.(cleanup := Some(cleanup.(failed := false))), CloseSession(cleanup.generation))
  }

  /** A release with nothing under way. */
  function ReleaseNow(o: Owner, reply: nat): Owner {
    var caller := Some(reply);
    if o.ownership == Released then Answered(o, caller, Success)
    else if o.generation.Some? then StartCleanup(o, o.generation.value, Released, caller)
    else if o.cleanup.Some? then RetryCleanup(o, o.cleanup.value.(target := Released, reply := caller))
    else if o.ownership == Idle || o.ownership == TakenOver || o.ownership == Uncertain then Answered(o.(ownership := Released), caller, Success)
    else Answered(o, caller, NotSent(Busy))
  }

  function DoRelease(o: Owner, reply: nat, demand: bool): Owner {
    if o.stopping then Answered(o, Some(reply), NotSent(SessionClosed))
    else if |o.workers| != 0 || |o.queue| != 0 || demand || o.attempt.Some? then Answered(o, Some(reply), NotSent(Busy))
    else if o.cleanup.Some? && !o.cleanup.value.failed then Answered(o, Some(reply), NotSent(Busy))
    else ReleaseNow(o, reply)
  }

  /** A takeover with nothing under way but perhaps a cleanup. */
  function TakeOverNow(o: Owner, reply: nat, permit: bool): Owner {
    var caller := Some(reply);
    if o.cleanup.Some? && !o.cleanup.value.failed then
      if o.cleanup.value.reply.None? && o.cleanup.value.takeover.None?
      then o.(cleanup := Some(o.cleanup.value.(takeover := caller))) else Answered(o, caller, NotSent(Busy))
    else if o.generation.Some? && o.ownership == Active then
      Spawn(o.(idleArmed := false, validation := Some(Validation(o.generation.value, reply))), Ping(o.generation.value))
    else if o.cleanup.Some? then RetryCleanup(o, o.cleanup.value.(takeover := caller, reply := None))
    else if o.generation.None? then
      var (o1, err) := StartAttempt(o, caller, permit);
      if err.Some? then Answered(o1, caller, err.value) else o1
    else Answered(o, caller, NotSent(Busy))
  }

  function DoTakeOver(o: Owner, reply: nat, demand: bool, permit: bool): Owner {
    if o.stopping then Answered(o, Some(reply), NotSent(SessionClosed))
    else if |o.workers| != 0 || |o.queue| != 0 || demand || o.attempt.Some? || o.validation.Some? then Answered(o, Some(reply), NotSent(Busy))
    else TakeOverNow(o, reply, permit)
  }

  function DoValidationDone(o: Owner, g: nat, failed: bool, lost: bool, demand: bool): Owner {
    if o.validation.None? || o.validation.value.generation != g then o
    else
      var caller, o1 := Some(o.validation.value.reply), o.(validation := None);
      if o.generation != Some(g) then Answered(o1, caller, Failed(OwnershipUncertain))
      else if lost then Answered(StartCleanup(o1.(ownership := Uncertain), g, Uncertain, None), caller, Failed(OwnershipUncertain))
      else if failed then Answered(o1, caller, Failed(ReadError))
      else ScheduleIdle(Answered(o1, caller, Success), demand)
  }

  function CancelAll(o: Owner, queue: seq<nat>): Owner
    decreases |queue|
  {
    if queue == [] then o
    else CancelAll(if queue[0] in o.workers then o.(workers := o.workers[queue[0] := o.workers[queue[0]].(canceled := true)]) else o, queue[1..])
  }

  function DoStop(o: Owner, reply: nat): Owner {
    var o1 := if o.stopping then o
              else
                var s := o.(stopping := true, idleArmed := false);
                var t := if s.attempt.Some? then CancelAll(s, s.queue).(queue := []) else FailQueued(s, NotSent(SessionClosed));
                if t.generation.Some? then StartCleanup(t, t.generation.value, Stopped, None) else t;
    o1.(stopWaiters := o1.stopWaiters + [reply])
  }

  function Handle(o: Owner, c: Command): Owner {
    match c
    case Register(permit, untilTaken, expired) => DoRegister(o, permit, untilTaken, expired)
    case Cancel(worker) => DoCancel(o, worker)
    case AttemptDone(g, connection, expired, untilTaken, expiredLater, demand) => DoAttemptDone(o, g, connection, expired, untilTaken, expiredLater, demand)
    case WorkerDone(worker, g, untilTaken, expired, demand) => DoWorkerDone(o, worker, g, untilTaken, expired, demand)
    case GenerationEnded(g, recognized) => DoGenerationEnded(o, g, recognized)
    case TakeoverRecognized(g) => DoTakeoverRecognized(o, g)
    case IdleExpired(g, demand) => DoIdleExpired(o, g, demand)
    case DemandChanged(demand) => ScheduleIdle(o, demand)
    case CleanupDone(g, closed, recognized, permitTakeover, permitQueue) => DoCleanupDone(o, g, closed, recognized, permitTakeover, permitQueue)
    case Release(reply, demand) => DoRelease(o, reply, demand)
    case TakeOver(reply, demand, permit) => DoTakeOver(o, reply, demand, permit)
    case ValidationDone(g, failed, lost, demand) => DoValidationDone(o, g, failed, lost, demand)
    case Stop(reply) => DoStop(o, reply)
  }

  /** One turn of the loop; once it has finished nothing more is consumed. */
  function Turn(o: Owner, c: Command): Owner {
    if o.finished then o else FinishIfStopped(Handle(o, c))
  }
}
