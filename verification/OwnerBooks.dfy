/** The books of the owner's loop: every accepted worker, every caller and every goroutine is accounted
    for, one unit at a time. */
module OwnerBooks {
  import opened Options
  import opened OwnerModel
  import opened OwnerSafety

  function One(b: bool): nat { if b then 1 else 0 }

  // ---- Workers ----

  function ReplyCount(replies: seq<Reply>, worker: nat): nat {
    if replies == [] then 0
    else ReplyCount(replies[..|replies| - 1], worker) + One(replies[|replies| - 1].worker == worker)
  }

  function AcceptCount(acks: seq<Ack>, worker: nat): nat {
    if acks == [] then 0
    else AcceptCount(acks[..|acks| - 1], worker) + One(acks[|acks| - 1] == Accepted(worker))
  }

  /** What is owed to the worker plus what it has been given. */
  function WorkerBooks(o: Owner, worker: nat): nat {
    One(worker in o.workers) + ReplyCount(o.replies, worker)
  }

  lemma SettleBooks(o: Owner, settled: nat, verdict: Verdict, worker: nat)
    requires settled in o.workers
    ensures WorkerBooks(Settle(o, settled, verdict), worker) == WorkerBooks(o, worker)
  {
    assert (o.replies + [Reply(settled, verdict)])[..|o.replies|] == o.replies;
  }

  lemma AckBooks(o: Owner, ack: Ack, worker: nat)
    ensures AcceptCount(Acked(o, ack).acks, worker) == AcceptCount(o.acks, worker) + One(ack == Accepted(worker))
  {
    assert (o.acks + [ack])[..|o.acks|] == o.acks;
  }

  lemma {:induction false} SettleAllBooks(o: Owner, queue: seq<nat>, verdict: Verdict, worker: nat)
    ensures WorkerBooks(SettleAll(o, queue, verdict), worker) == WorkerBooks(o, worker)
    decreases |queue|
  {
    if queue != [] {
      if queue[0] in o.workers {
        SettleBooks(o, queue[0], verdict, worker);
        SettleAllBooks(Settle(o, queue[0], verdict), queue[1..], verdict, worker);
      } else {
        SettleAllBooks(o, queue[1..], verdict, worker);
      }
      hide WorkerBooks;
    }
  }

  lemma FailQueuedBooks(o: Owner, verdict: Verdict, worker: nat)
    ensures WorkerBooks(FailQueued(o, verdict), worker) == WorkerBooks(o, worker)
    ensures FailQueued(o, verdict).acks == o.acks
  {
    SettleAllBooks(o, o.queue, verdict, worker);
    FailQueuedIs(o, verdict);
    hide SettleAll;
  }

  lemma HandOverBooks(o: Owner, g: nat, expired: set<nat>, worker: nat)
    requires o.queue != []
    ensures var r := HandOver(o, g, expired);
            WorkerBooks(r, worker) == WorkerBooks(o, worker) && r.acks == o.acks && r.nextWorker == o.nextWorker
  {
    if o.queue[0] in o.workers {
      SettleBooks(o.(queue := o.queue[1..]), o.queue[0], NotSent(ContextEnded), worker);
    }
    hide ReplyCount;
  }

  lemma {:induction false} DispatchBooks(o: Owner, g: nat, untilTaken: nat, expired: set<nat>, worker: nat)
    ensures var r := Dispatch(o, g, untilTaken, expired);
            WorkerBooks(r, worker) == WorkerBooks(o, worker) && r.acks == o.acks && r.nextWorker == o.nextWorker
    decreases |o.queue|
  {
    hide WorkerBooks, HandOver;
    if o.queue != [] && untilTaken != 0 {
      HandOverBooks(o, g, expired, worker);
      DispatchBooks(HandOver(o, g, expired), g, untilTaken - 1, expired, worker);
    }
  }

  lemma {:induction false} SettleCanceledBooks(o: Owner, last: nat, worker: nat)
    ensures WorkerBooks(SettleCanceled(o, last), worker) == WorkerBooks(o, worker)
    ensures SettleCanceled(o, last).acks == o.acks
  {
    if last != 0 {
      SettleCanceledBooks(o, last - 1, worker);
      var before := SettleCanceled(o, last - 1);
      if last in before.workers && before.workers[last].canceled {
        SettleBooks(before, last, NotSent(ContextEnded), worker);
      }
      hide WorkerBooks;
    }
  }

  lemma {:induction false} FilterQueueBooks(o: Owner, queue: seq<nat>, kept: seq<nat>, expired: set<nat>, worker: nat)
    ensures WorkerBooks(FilterQueue(o, queue, kept, expired), worker) == WorkerBooks(o, worker)
    ensures FilterQueue(o, queue, kept, expired).acks == o.acks
    decreases |queue|
  {
    if queue != [] {
      if queue[0] !in o.workers {
        FilterQueueBooks(o, queue[1..], kept, expired, worker);
      } else if queue[0] in expired {
        SettleBooks(o, queue[0], NotSent(ContextEnded), worker);
        FilterQueueBooks(Settle(o, queue[0], NotSent(ContextEnded)), queue[1..], kept, expired, worker);
      } else {
        FilterQueueBooks(o, queue[1..], kept + [queue[0]], expired, worker);
      }
    }
  }

  lemma AfterAttemptBooks(o: Owner, expired: set<nat>, worker: nat)
    ensures WorkerBooks(AfterAttempt(o, expired), worker) == WorkerBooks(o, worker)
    ensures AfterAttempt(o, expired).acks == o.acks
  {
    var o1 := SettleCanceled(o.(attempt := None), o.nextWorker);
    SettleCanceledBooks(o.(attempt := None), o.nextWorker, worker);
    FilterQueueBooks(o1, o1.queue, [], expired, worker);
    hide SettleCanceled, FilterQueue;
  }

  lemma StopQueueBooks(o: Owner, worker: nat)
    ensures WorkerBooks(StopQueue(o), worker) == WorkerBooks(o, worker)
    ensures StopQueue(o).acks == o.acks
  {
    var s := o.(stopping := true, idleArmed := false);
    CancelAllIs(s, s.queue);
    FailQueuedBooks(s, NotSent(SessionClosed), worker);
    hide CancelAll, FailQueued;
  }

  /** An accepted worker is owed exactly one reply or has had it; nobody else is owed or had any. */
  predicate Ledger(o: Owner, worker: nat) {
    && WorkerBooks(o, worker) == AcceptCount(o.acks, worker) <= 1
    && (worker > o.nextWorker ==> AcceptCount(o.acks, worker) == 0)
  }

  /** The ledger looks at no more than this. */
  lemma LedgerFrame(o: Owner, r: Owner, worker: nat)
    requires Ledger(o, worker) && WorkerBooks(r, worker) == WorkerBooks(o, worker) && r.acks == o.acks && r.nextWorker == o.nextWorker
    ensures Ledger(r, worker)
  {
  }

  lemma AckedLedger(o: Owner, r: Owner, ack: Ack, worker: nat)
    requires Ledger(o, worker) && !ack.Accepted? && r.acks == o.acks + [ack]
    requires r.workers.Keys == o.workers.Keys && r.replies == o.replies && r.nextWorker >= o.nextWorker
    ensures Ledger(r, worker)
  {
    AckBooks(o, ack, worker);
    assert worker in r.workers <==> worker in o.workers.Keys;
  }

  lemma AcceptedLedger(o: Owner, r: Owner, worker: nat)
    requires Ledger(o, worker) && o.nextWorker + 1 !in o.workers
    requires r.nextWorker == o.nextWorker + 1 && r.workers == o.workers[r.nextWorker := Worker(0, false)]
    requires r.acks == o.acks + [Accepted(r.nextWorker)] && r.replies == o.replies
    ensures Ledger(r, worker)
  {
    AckBooks(o, Accepted(r.nextWorker), worker);
  }

  lemma EnlistedLedger(o: Owner, r: Owner, worker: nat)
    requires WorkersInv(o) && Ledger(o, worker)
    requires r.workers == Enlist(o).workers && r.nextWorker == o.nextWorker + 1 && r.replies == o.replies && r.acks == o.acks + [Accepted(o.nextWorker + 1)]
    ensures Ledger(r, worker)
  {
    assert o.nextWorker + 1 !in o.workers;
    AcceptedLedger(o, r, worker);
  }

  lemma DelistedLedger(o: Owner, r: Owner, why: Verdict, worker: nat)
    requires WorkersInv(o) && Ledger(o, worker)
    requires r.workers == Delist(Enlist(o), o.nextWorker + 1).workers && r.nextWorker == o.nextWorker + 1 && r.replies == o.replies && r.acks == o.acks + [Refused(why)]
    ensures Ledger(r, worker)
  {
    assert o.nextWorker + 1 !in o.workers;
    assert Enlist(o).workers - {o.nextWorker + 1} == o.workers;
    AckedLedger(o, r, Refused(why), worker);
  }

  lemma RegisterLedger(o: Owner, permit: bool, untilTaken: nat, expired: set<nat>, worker: nat)
    requires OwnerInv(o) && Ledger(o, worker)
    ensures Ledger(DoRegister(o, permit, untilTaken, expired), worker)
  {
    var id, o1 := o.nextWorker + 1, Enlist(o);
    assert o1.acks == o.acks && o1.replies == o.replies && o1.nextWorker == id;
    var delisted := Delist(o1, id);
    assert delisted.acks == o.acks && delisted.replies == o.replies && delisted.nextWorker == id;
    hide WorkersInv, PhaseInv, StartNext, Ledger, Refusal, Admits, Enlist, Delist, Enter;
    var r := DoRegister(o, permit, untilTaken, expired);
    if !Admits(o) {
      AckedLedger(o, r, Refused(Refusal(o)), worker);
    } else {
      EnterIs(o, permit);
      var (o2, err) := Enter(o, permit);
      if err.Some? {
        DelistedLedger(o, r, err.value, worker);
      } else {
        var ready := Acked(o2, Accepted(id));
        EnlistedLedger(o, ready, worker);
        StartNextLedger(ready, untilTaken, expired, worker);
      }
    }
  }

  lemma StartNextLedger(o: Owner, untilTaken: nat, expired: set<nat>, worker: nat)
    requires Ledger(o, worker)
    ensures Ledger(StartNext(o, untilTaken, expired), worker)
  {
    if o.generation.Some? {
      DispatchBooks(o, o.generation.value, untilTaken, expired, worker);
    }
    hide Dispatch, WorkerBooks;
  }

  lemma SettledLedger(o: Owner, settled: nat, verdict: Verdict, worker: nat)
    requires Ledger(o, worker) && settled in o.workers
    ensures Ledger(Settle(o, settled, verdict), worker)
  {
    SettleBooks(o, settled, verdict, worker);
    hide WorkerBooks;
  }

  lemma CancelLedger(o: Owner, worker: nat, canceled: nat)
    requires Ledger(o, worker)
    ensures Ledger(DoCancel(o, canceled), worker)
  {
    hide Without, Ledger, Settle;
    var r := DoCancel(o, canceled);
    var o1 := o.(queue := Without(o.queue, canceled));
    if canceled in o.workers && o.workers[canceled].generation == 0 && !(o1.attempt.Some? && |o1.queue| == 0) {
      LedgerFrame(o, o1, worker);
      SettledLedger(o1, canceled, NotSent(ContextEnded), worker);
      AckedLedger(Settle(o1, canceled, NotSent(ContextEnded)), r, CancelAnswer(true), worker);
    } else {
      AckedLedger(o, r, CancelAnswer(false), worker);
    }
  }

  lemma FailedLedger(o: Owner, verdict: Verdict, worker: nat)
    requires Ledger(o, worker)
    ensures Ledger(FailQueued(o, verdict), worker)
  {
    FailQueuedBooks(o, verdict, worker);
    FailQueuedIs(o, verdict);
    hide FailQueued, WorkerBooks;
  }

  lemma StartedLedger(o: Owner, untilTaken: nat, expired: set<nat>, demand: bool, worker: nat)
    requires Ledger(o, worker)
    ensures Ledger(ScheduleIdle(StartNext(o, untilTaken, expired), demand), worker)
  {
    hide StartNext, Ledger;
    StartNextLedger(o, untilTaken, expired, worker);
    LedgerFrame(StartNext(o, untilTaken, expired), ScheduleIdle(StartNext(o, untilTaken, expired), demand), worker);
  }

  lemma AttemptDoneLedger(o: Owner, g: nat, connection: Connection, expired: set<nat>, untilTaken: nat, expiredLater: set<nat>, demand: bool, worker: nat)
    requires OwnerInv(o) && Ledger(o, worker)
    ensures Ledger(DoAttemptDone(o, g, connection, expired, untilTaken, expiredLater, demand), worker)
  {
    hide Ledger, SettleCanceled, FilterQueue, WorkersInv, PhaseInv, AttemptConnected, AttemptFailed;
    if o.attempt.Some? && o.attempt.value.generation == g {
      var takeover := o.attempt.value.takeover;
      AfterAttemptBooks(o, expired, worker);
      AfterAttemptIs(o, expired);
      var o2 := AfterAttempt(o, expired);
      LedgerFrame(o, o2, worker);
      AttemptFailedLedger(o2, g, takeover, connection.SessionLeft?, worker);
      AttemptConnectedLedger(o2, g, takeover, untilTaken, expiredLater, demand, worker);
    } else {
      LedgerFrame(o, DoAttemptDone(o, g, connection, expired, untilTaken, expiredLater, demand), worker);
    }
  }

  lemma AttemptFailedLedger(o: Owner, g: nat, takeover: Option<nat>, left: bool, worker: nat)
    requires Ledger(o, worker)
    ensures Ledger(AttemptFailed(o, g, takeover, left), worker)
  {
    hide Ledger, FailQueued;
    FailedLedger(o, Failed(AttemptError), worker);
    LedgerFrame(FailQueued(o, Failed(AttemptError)), AttemptFailed(o, g, takeover, left), worker);
  }

  lemma AttemptConnectedLedger(o: Owner, g: nat, takeover: Option<nat>, untilTaken: nat, expired: set<nat>, demand: bool, worker: nat)
    requires Ledger(o, worker)
    ensures Ledger(AttemptConnected(o, g, takeover, untilTaken, expired, demand), worker)
  {
    hide Ledger, StartNext, ScheduleIdle;
    if !o.stopping && (|o.queue| != 0 || takeover.Some?) {
      var o1 := Answered(Spawn(o.(generation := Some(g), ownership := Active), Watch(g)), takeover, Success);
      LedgerFrame(o, o1, worker);
      StartedLedger(o1, untilTaken, expired, demand, worker);
    } else {
      LedgerFrame(o, AttemptConnected(o, g, takeover, untilTaken, expired, demand), worker);
    }
  }

  lemma GenerationEndedLedger(o: Owner, g: nat, recognized: bool, worker: nat)
    requires Ledger(o, worker)
    ensures Ledger(DoGenerationEnded(o, g, recognized), worker)
  {
    hide FailQueued, Ledger;
    if o.generation == Some(g) {
      var terminal, cause := if recognized then TakenOver else Uncertain, if recognized then SessionTakenOver else OwnershipUncertain;
      var validated := o.validation.Some? && o.validation.value.generation == g;
      var o1 := o.(ownership := terminal, validation := if validated then None else o.validation);
      LedgerFrame(o, o1, worker);
      FailedLedger(o1, NotSent(cause), worker);
      LedgerFrame(FailQueued(o1, NotSent(cause)), DoGenerationEnded(o, g, recognized), worker);
    }
  }

  lemma TakeoverRecognizedLedger(o: Owner, g: nat, worker: nat)
    requires Ledger(o, worker)
    ensures Ledger(DoTakeoverRecognized(o, g), worker)
  {
    hide FailQueued, Ledger;
    if !o.stopping && (PendingTerminal(o, g) || CompletedTerminal(o, g)) {
      var o1 := o.(ownership := TakenOver,
                   cleanup := if PendingTerminal(o, g) then Some(o.cleanup.value.(target := TakenOver)) else o.cleanup);
      LedgerFrame(o, o1, worker);
      FailedLedger(o1, NotSent(SessionTakenOver), worker);
    }
  }

  lemma CleanupDoneLedger(o: Owner, g: nat, closed: bool, recognized: bool, permitTakeover: bool, permitQueue: bool, worker: nat)
    requires Ledger(o, worker)
    ensures Ledger(DoCleanupDone(o, g, closed, recognized, permitTakeover, permitQueue), worker)
  {
    hide Ledger, Resume, CleanupFailed;
    if o.cleanup.Some? && o.cleanup.value.generation == g {
      if closed {
        LedgerFrame(o, Closed(o, recognized), worker);
        hide Closed;
        ResumeLedger(Closed(o, recognized), o.cleanup.value.takeover, permitTakeover, permitQueue, worker);
      } else {
        CleanupFailedLedger(o, worker);
      }
    }
  }

  lemma CleanupFailedLedger(o: Owner, worker: nat)
    requires Ledger(o, worker) && o.cleanup.Some?
    ensures Ledger(CleanupFailed(o), worker)
  {
    hide FailQueued, Ledger;
    var o1 := o.(cleanup := Some(o.cleanup.value.(failed := true, reply := None, takeover := None)), ownership := Uncertain);
    LedgerFrame(o, o1, worker);
    FailedLedger(o1, NotSent(Busy), worker);
    LedgerFrame(FailQueued(o1, NotSent(Busy)), CleanupFailed(o), worker);
  }

  lemma ResumeLedger(o: Owner, takeover: Option<nat>, permitTakeover: bool, permitQueue: bool, worker: nat)
    requires Ledger(o, worker)
    ensures Ledger(Resume(o, takeover, permitTakeover, permitQueue), worker)
  {
    hide FailQueued, Ledger;
    var (o1, err) := if takeover.Some? then StartAttempt(o, takeover, permitTakeover) else (o, None);
    var o2 := if err.Some? then Answered(o1, takeover, err.value) else o1;
    LedgerFrame(o, o2, worker);
    var (o3, failed) := StartAttempt(o2, None, permitQueue);
    LedgerFrame(o2, o3, worker);
    if failed.Some? {
      FailedLedger(o3, failed.value, worker);
    }
  }

  lemma StopLedger(o: Owner, reply: nat, worker: nat)
    requires OwnerInv(o) && Ledger(o, worker)
    ensures Ledger(DoStop(o, reply), worker)
  {
    hide FailQueued, CancelAll, WorkersInv, PhaseInv, ReplyCount, AcceptCount;
    StopQueueBooks(o, worker);
    StopQueueIs(o);
  }

  lemma WorkerDoneLedger(o: Owner, done: nat, g: nat, untilTaken: nat, expired: set<nat>, demand: bool, worker: nat)
    requires Ledger(o, worker)
    ensures Ledger(DoWorkerDone(o, done, g, untilTaken, expired, demand), worker)
  {
    hide StartNext, Ledger;
    if done in o.workers && o.workers[done].generation != 0 && o.workers[done].generation == g {
      var o1 := Settle(o, done, Own);
      SettledLedger(o, done, Own, worker);
      StartedLedger(o1, untilTaken, expired, demand, worker);
    }
  }

  lemma ReleaseLedger(o: Owner, reply: nat, demand: bool, worker: nat)
    requires Ledger(o, worker)
    ensures Ledger(DoRelease(o, reply, demand), worker)
  {
    hide Ledger;
    LedgerFrame(o, DoRelease(o, reply, demand), worker);
  }

  lemma TakeOverLedger(o: Owner, reply: nat, demand: bool, permit: bool, worker: nat)
    requires Ledger(o, worker)
    ensures Ledger(DoTakeOver(o, reply, demand, permit), worker)
  {
    hide Ledger;
    LedgerFrame(o, DoTakeOver(o, reply, demand, permit), worker);
  }

  lemma ValidationDoneLedger(o: Owner, g: nat, failed: bool, lost: bool, demand: bool, worker: nat)
    requires Ledger(o, worker)
    ensures Ledger(DoValidationDone(o, g, failed, lost, demand), worker)
  {
    hide Ledger, WorkerBooks, DoValidationDone;
    var r := DoValidationDone(o, g, failed, lost, demand);
    ValidationDoneBooks(o, g, failed, lost, demand);
    SameBooks(o, r, worker);
    LedgerFrame(o, r, worker);
  }

  lemma ValidationDoneBooks(o: Owner, g: nat, failed: bool, lost: bool, demand: bool)
    ensures var r := DoValidationDone(o, g, failed, lost, demand);
            r.workers == o.workers && r.replies == o.replies && r.acks == o.acks && r.nextWorker == o.nextWorker
  {
    hide ScheduleIdle, StartCleanup;
    var o1 := o.(validation := None);
    StartCleanupBooks(o1.(ownership := Uncertain), g, Uncertain);
    if o.validation.Some? {
      ScheduleIdleBooks(Answered(o1, Some(o.validation.value.reply), Success), demand);
    }
  }

  lemma ScheduleIdleBooks(o: Owner, demand: bool)
    ensures var r := ScheduleIdle(o, demand);
            r.workers == o.workers && r.replies == o.replies && r.acks == o.acks && r.nextWorker == o.nextWorker
  {
  }

  lemma StartCleanupBooks(o: Owner, g: nat, target: Ownership)
    ensures var r := StartCleanup(o, g, target, None);
            r.workers == o.workers && r.replies == o.replies && r.acks == o.acks && r.nextWorker == o.nextWorker
  {
  }

  lemma SameBooks(o: Owner, r: Owner, worker: nat)
    requires r.workers == o.workers && r.replies == o.replies
    ensures WorkerBooks(r, worker) == WorkerBooks(o, worker)
  {
  }

  lemma IdleLedger(o: Owner, g: nat, demand: bool, worker: nat)
    requires Ledger(o, worker)
    ensures Ledger(DoIdleExpired(o, g, demand), worker) && Ledger(ScheduleIdle(o, demand), worker)
  {
    hide Ledger;
    LedgerFrame(o, DoIdleExpired(o, g, demand), worker);
    LedgerFrame(o, ScheduleIdle(o, demand), worker);
  }

  lemma TurnLedger(o: Owner, c: Command, worker: nat)
    requires OwnerInv(o) && Ledger(o, worker)
    ensures Ledger(Turn(o, c), worker)
  {
    hide OwnerInv, Handle, FinishIfStopped, Ledger;
    if !o.finished {
      HandleLedger(o, c, worker);
      FinishLedger(Handle(o, c), worker);
    }
  }

  lemma FinishLedger(o: Owner, worker: nat)
    requires Ledger(o, worker)
    ensures Ledger(FinishIfStopped(o), worker)
  {
    AnswerAllIs(o, o.stopWaiters, if o.cleanup.Some? then Failed(CloseError) else Success);
    hide AnswerAll, Ledger;
    LedgerFrame(o, FinishIfStopped(o), worker);
  }

  lemma HandleLedger(o: Owner, c: Command, worker: nat)
    requires OwnerInv(o) && Ledger(o, worker)
    ensures Ledger(Handle(o, c), worker)
  {
    hide OwnerInv, Ledger, DoRegister, DoCancel, DoAttemptDone, DoWorkerDone, DoGenerationEnded, DoTakeoverRecognized, DoCleanupDone, DoStop, DoIdleExpired, DoRelease, DoTakeOver, DoValidationDone, ScheduleIdle;
    match c
    case Register(permit, untilTaken, expired) => RegisterLedger(o, permit, untilTaken, expired, worker);
    case Cancel(canceled) => CancelLedger(o, worker, canceled);
    case AttemptDone(g, connection, expired, untilTaken, expiredLater, demand) => AttemptDoneLedger(o, g, connection, expired, untilTaken, expiredLater, demand, worker);
    case WorkerDone(done, g, untilTaken, expired, demand) => WorkerDoneLedger(o, done, g, untilTaken, expired, demand, worker);
    case GenerationEnded(g, recognized) => GenerationEndedLedger(o, g, recognized, worker);
    case TakeoverRecognized(g) => TakeoverRecognizedLedger(o, g, worker);
    case CleanupDone(g, closed, recognized, permitTakeover, permitQueue) => CleanupDoneLedger(o, g, closed, recognized, permitTakeover, permitQueue, worker);
    case Stop(reply) => StopLedger(o, reply, worker);
    case IdleExpired(g, demand) => IdleLedger(o, g, demand, worker);
    case DemandChanged(demand) => IdleLedger(o, 0, demand, worker);
    case Release(reply, demand) => ReleaseLedger(o, reply, demand, worker);
    case TakeOver(reply, demand, permit) => TakeOverLedger(o, reply, demand, permit, worker);
    case ValidationDone(g, failed, lost, demand) => ValidationDoneLedger(o, g, failed, lost, demand, worker);
  }

  // ---- Callers of release, takeover and stop ----

  function WaiterCount(waiters: seq<nat>, caller: nat): nat {
    if waiters == [] then 0 else One(waiters[0] == caller) + WaiterCount(waiters[1..], caller)
  }

  function AnswerCount(answers: seq<Answer>, caller: nat): nat {
    if answers == [] then 0
    else AnswerCount(answers[..|answers| - 1], caller) + One(answers[|answers| - 1].to == caller)
  }

  /** The replies the loop holds for the caller. */
  function Claims(o: Owner, caller: nat): nat {
    One(o.attempt.Some? && o.attempt.value.takeover == Some(caller))
    + One(o.validation.Some? && o.validation.value.reply == caller)
    + One(o.cleanup.Some? && o.cleanup.value.reply == Some(caller))
    + One(o.cleanup.Some? && o.cleanup.value.takeover == Some(caller))
    + WaiterCount(o.stopWaiters, caller)
  }

  function CallerBooks(o: Owner, caller: nat): nat {
    Claims(o, caller) + AnswerCount(o.answers, caller)
  }

  function Asks(c: Command, caller: nat): bool {
    || (c.Release? && c.reply == caller)
    || (c.TakeOver? && c.reply == caller)
    || (c.Stop? && c.reply == caller)
  }

  /** The callers' books look at no more than this. */
  lemma CallerFrame(o: Owner, r: Owner, caller: nat)
    requires r.attempt == o.attempt && r.validation == o.validation && r.cleanup == o.cleanup && r.stopWaiters == o.stopWaiters && r.answers == o.answers
    ensures CallerBooks(r, caller) == CallerBooks(o, caller)
  {
  }

  lemma AnsweredBooks(o: Owner, to: Option<nat>, verdict: Verdict, caller: nat)
    ensures AnswerCount(Answered(o, to, verdict).answers, caller) == AnswerCount(o.answers, caller) + One(to == Some(caller))
    ensures Claims(Answered(o, to, verdict), caller) == Claims(o, caller)
  {
    if to.Some? {
      assert (o.answers + [Answer(to.value, verdict)])[..|o.answers|] == o.answers;
    }
  }

  lemma {:induction false} AnswerAllBooks(o: Owner, waiters: seq<nat>, verdict: Verdict, caller: nat)
    ensures AnswerCount(AnswerAll(o, waiters, verdict).answers, caller) == AnswerCount(o.answers, caller) + WaiterCount(waiters, caller)
    decreases |waiters|
  {
    if waiters != [] {
      AnsweredBooks(o, Some(waiters[0]), verdict, caller);
      AnswerAllBooks(Answered(o, Some(waiters[0]), verdict), waiters[1..], verdict, caller);
      hide AnswerCount;
    }
  }

  lemma FinishCallers(o: Owner, caller: nat)
    ensures CallerBooks(FinishIfStopped(o), caller) == CallerBooks(o, caller)
  {
    var verdict := if o.cleanup.Some? then Failed(CloseError) else Success;
    AnswerAllBooks(o, o.stopWaiters, verdict, caller);
    AnswerAllIs(o, o.stopWaiters, verdict);
    hide AnswerAll, AnswerCount;
  }

  lemma {:induction false} WaiterLast(waiters: seq<nat>, last: nat, caller: nat)
    ensures WaiterCount(waiters + [last], caller) == WaiterCount(waiters, caller) + One(last == caller)
    decreases |waiters|
  {
    if waiters == [] {
      assert [last][1..] == [];
    } else {
      assert (waiters + [last])[1..] == waiters[1..] + [last];
      WaiterLast(waiters[1..], last, caller);
    }
  }

  lemma StartCallers(o: Owner, untilTaken: nat, expired: set<nat>, demand: bool, caller: nat)
    requires OwnerInv(o)
    ensures CallerBooks(StartNext(o, untilTaken, expired), caller) == CallerBooks(o, caller)
    ensures CallerBooks(ScheduleIdle(StartNext(o, untilTaken, expired), demand), caller) == CallerBooks(o, caller)
  {
    StartNextIs(o, untilTaken, expired);
    hide StartNext, OwnerInv, CallerBooks;
    CallerFrame(o, StartNext(o, untilTaken, expired), caller);
    CallerFrame(o, ScheduleIdle(StartNext(o, untilTaken, expired), demand), caller);
  }

  lemma RegisterCallers(o: Owner, permit: bool, untilTaken: nat, expired: set<nat>, caller: nat)
    requires OwnerInv(o)
    ensures CallerBooks(DoRegister(o, permit, untilTaken, expired), caller) == CallerBooks(o, caller)
  {
    var r := DoRegister(o, permit, untilTaken, expired);
    if !Admits(o) {
      hide CallerBooks;
      CallerFrame(o, r, caller);
    } else {
      EnterIs(o, permit);
      var id := o.nextWorker + 1;
      var (o2, err) := Enter(o, permit);
      hide OwnerInv, StartNext, Refusal, Admits, CallerBooks, Without, Enlist;
      EnterCallers(o, permit, caller);
      hide Enter;
      if err.Some? {
        CallerFrame(o2, r, caller);
      } else {
        var ready := Acked(o2, Accepted(id));
        CallerFrame(o2, ready, caller);
        AckedKeeps(o2, Accepted(id));
        StartCallers(ready, untilTaken, expired, false, caller);
      }
    }
  }

  lemma EnterCallers(o: Owner, permit: bool, caller: nat)
    ensures CallerBooks(Enter(o, permit).0, caller) == CallerBooks(o, caller)
  {
    hide CallerBooks, StartAttempt;
    CallerFrame(o, Enlist(o), caller);
    AttemptCallers(Enlist(o), permit, caller);
  }

  /** An ordinary attempt concerns no caller. */
  lemma AttemptCallers(o: Owner, permit: bool, caller: nat)
    ensures CallerBooks(StartAttempt(o, None, permit).0, caller) == CallerBooks(o, caller)
  {
    hide AnswerCount, WaiterCount;
  }

  /** A takeover's attempt either takes the caller's reply over or returns an error for it. */
  lemma TakeoverCallers(o: Owner, takeover: nat, permit: bool, caller: nat)
    ensures var (r, err) := StartAttempt(o, Some(takeover), permit);
            CallerBooks(r, caller) == CallerBooks(o, caller) + One(err.None? && takeover == caller)
  {
    hide AnswerCount, WaiterCount;
  }

  lemma AttemptDoneCallers(o: Owner, g: nat, connection: Connection, expired: set<nat>, untilTaken: nat, expiredLater: set<nat>, demand: bool, caller: nat)
    requires OwnerInv(o)
    ensures CallerBooks(DoAttemptDone(o, g, connection, expired, untilTaken, expiredLater, demand), caller) == CallerBooks(o, caller)
  {
    hide SettleCanceled, FilterQueue, AttemptConnected, AttemptFailed, WorkersInv, AnswerCount, WaiterCount;
    if o.attempt.Some? && o.attempt.value.generation == g {
      var takeover := o.attempt.value.takeover;
      AfterAttemptIs(o, expired);
      AfterAttemptQueue(o, expired);
      var o2 := AfterAttempt(o, expired);
      assert CallerBooks(o, caller) == CallerBooks(o2, caller) + One(takeover == Some(caller));
      hide CallerBooks;
      AttemptFailedCallers(o2, g, takeover, connection.SessionLeft?, caller);
      AttemptConnectedCallers(o2, g, takeover, untilTaken, expiredLater, demand, caller);
    } else {
      CallerFrame(o, DoAttemptDone(o, g, connection, expired, untilTaken, expiredLater, demand), caller);
    }
  }

  lemma AttemptFailedCallers(o: Owner, g: nat, takeover: Option<nat>, left: bool, caller: nat)
    requires o.cleanup.None?
    ensures CallerBooks(AttemptFailed(o, g, takeover, left), caller) == CallerBooks(o, caller) + One(takeover == Some(caller))
  {
    var verdict := Failed(if left then OwnershipUncertain else AttemptError);
    FailQueuedIs(o, Failed(AttemptError));
    var o1 := FailQueued(o, Failed(AttemptError)).(ownership := Uncertain);
    hide FailQueued;
    CallerFrame(o, o1, caller);
    AnsweredBooks(o1, takeover, verdict, caller);
    var o2 := if takeover.Some? then Answered(o1, takeover, verdict) else FailQueued(o, Failed(AttemptError));
    CallerFrame(o, FailQueued(o, Failed(AttemptError)), caller);
    assert CallerBooks(o2, caller) == CallerBooks(o, caller) + One(takeover == Some(caller));
    LeftCallers(o2, g, caller);
    hide CallerBooks;
  }

  /** A failed cleanup holds nobody's reply. */
  lemma LeftCallers(o: Owner, g: nat, caller: nat)
    requires o.cleanup.None?
    ensures CallerBooks(o.(cleanup := Some(Cleanup(g, Idle, true, None, None, false)), ownership := Uncertain), caller) == CallerBooks(o, caller)
  {
    hide AnswerCount, WaiterCount;
  }

  lemma AttemptConnectedCallers(o: Owner, g: nat, takeover: Option<nat>, untilTaken: nat, expired: set<nat>, demand: bool, caller: nat)
    requires AttemptOver(o, g, takeover)
    ensures CallerBooks(AttemptConnected(o, g, takeover, untilTaken, expired, demand), caller) == CallerBooks(o, caller) + One(takeover == Some(caller))
  {
    hide StartNext, ScheduleIdle, WorkersInv, AnswerCount, WaiterCount;
    if !o.stopping && (|o.queue| != 0 || takeover.Some?) {
      var o0 := Spawn(o.(generation := Some(g), ownership := Active), Watch(g));
      var o1 := Answered(o0, takeover, Success);
      AnsweredBooks(o0, takeover, Success, caller);
      WorkersFrame(o, o1);
      StartCallers(o1, untilTaken, expired, demand, caller);
    } else {
      AnsweredBooks(o, takeover, NotSent(SessionClosed), caller);
    }
  }

  lemma GenerationEndedCallers(o: Owner, g: nat, recognized: bool, caller: nat)
    requires OwnerInv(o)
    ensures CallerBooks(DoGenerationEnded(o, g, recognized), caller) == CallerBooks(o, caller)
  {
    hide FailQueued, WorkersInv, AnswerCount, WaiterCount;
    if o.generation == Some(g) {
      var terminal, cause := if recognized then TakenOver else Uncertain, if recognized then SessionTakenOver else OwnershipUncertain;
      var validated := o.validation.Some? && o.validation.value.generation == g;
      var o1 := o.(ownership := terminal, validation := if validated then None else o.validation);
      FailQueuedIs(o1, NotSent(cause));
      var o2 := StartCleanup(FailQueued(o1, NotSent(cause)), g, terminal, None);
      AnsweredBooks(o2, if validated then Some(o.validation.value.reply) else None, Failed(cause), caller);
    }
  }

  lemma TakeoverRecognizedCallers(o: Owner, g: nat, caller: nat)
    ensures CallerBooks(DoTakeoverRecognized(o, g), caller) == CallerBooks(o, caller)
  {
    hide FailQueued, AnswerCount, WaiterCount;
    FailQueuedIs(o.(ownership := TakenOver,
                    cleanup := if PendingTerminal(o, g) then Some(o.cleanup.value.(target := TakenOver)) else o.cleanup), NotSent(SessionTakenOver));
  }

  lemma CleanupFailedCallers(o: Owner, caller: nat)
    requires o.cleanup.Some?
    ensures CallerBooks(CleanupFailed(o), caller) == CallerBooks(o, caller)
  {
    hide FailQueued, AnswerCount, WaiterCount;
    var c := o.cleanup.value;
    var o0 := o.(cleanup := Some(c.(failed := true, reply := None, takeover := None)), ownership := Uncertain);
    FailQueuedIs(o0, NotSent(Busy));
    var o1 := FailQueued(o0, NotSent(Busy));
    AnsweredBooks(o1, c.reply, Failed(OwnershipUncertain), caller);
    AnsweredBooks(Answered(o1, c.reply, Failed(OwnershipUncertain)), c.takeover, Failed(OwnershipUncertain), caller);
  }

  lemma ResumeCallers(o: Owner, takeover: Option<nat>, permitTakeover: bool, permitQueue: bool, caller: nat)
    ensures CallerBooks(Resume(o, takeover, permitTakeover, permitQueue), caller) == CallerBooks(o, caller) + One(takeover == Some(caller))
  {
    hide FailQueued, AnswerCount, WaiterCount;
    if takeover.Some? {
      TakeoverCallers(o, takeover.value, permitTakeover, caller);
    }
    var (o1, err) := if takeover.Some? then StartAttempt(o, takeover, permitTakeover) else (o, None);
    var o2 := if err.Some? then Answered(o1, takeover, err.value) else o1;
    if err.Some? {
      AnsweredBooks(o1, takeover, err.value, caller);
    }
    assert CallerBooks(o2, caller) == CallerBooks(o, caller) + One(takeover == Some(caller));
    hide CallerBooks;
    AttemptCallers(o2, permitQueue, caller);
    hide StartAttempt;
    var (o3, failed) := StartAttempt(o2, None, permitQueue);
    if failed.Some? {
      FailQueuedIs(o3, failed.value);
      CallerFrame(o3, FailQueued(o3, failed.value), caller);
    }
  }

  /** Closing the session answers the release that asked for it and hands the takeover on. */
  lemma ClosedCallers(o: Owner, recognized: bool, caller: nat)
    requires o.cleanup.Some?
    ensures CallerBooks(Closed(o, recognized), caller) + One(o.cleanup.value.takeover == Some(caller)) == CallerBooks(o, caller)
  {
    var c, r := o.cleanup.value, Closed(o, recognized);
    assert r.answers == Answered(o, c.reply, Success).answers;
    assert r.cleanup.None? && r.attempt == o.attempt && r.validation == o.validation && r.stopWaiters == o.stopWaiters;
    hide Closed;
    AnsweredBooks(o, c.reply, Success, caller);
    hide AnswerCount, WaiterCount, Answered;
  }

  lemma CleanupDoneCallers(o: Owner, g: nat, closed: bool, recognized: bool, permitTakeover: bool, permitQueue: bool, caller: nat)
    ensures CallerBooks(DoCleanupDone(o, g, closed, recognized, permitTakeover, permitQueue), caller) == CallerBooks(o, caller)
  {
    hide Resume, CleanupFailed, CallerBooks, Closed;
    if o.cleanup.Some? && o.cleanup.value.generation == g {
      if closed {
        ClosedCallers(o, recognized, caller);
        ResumeCallers(Closed(o, recognized), o.cleanup.value.takeover, permitTakeover, permitQueue, caller);
      } else {
        CleanupFailedCallers(o, caller);
      }
    }
  }

  lemma ReleaseCallers(o: Owner, reply: nat, demand: bool, caller: nat)
    requires PhaseInv(o)
    ensures CallerBooks(DoRelease(o, reply, demand), caller) == CallerBooks(o, caller) + One(reply == caller)
  {
    hide AnswerCount, WaiterCount;
    forall verdict, s: Owner
      ensures CallerBooks(Answered(s, Some(reply), verdict), caller) == CallerBooks(s, caller) + One(reply == caller)
    {
      AnsweredBooks(s, Some(reply), verdict, caller);
    }
  }

  lemma TakeOverCallers(o: Owner, reply: nat, demand: bool, permit: bool, caller: nat)
    requires PhaseInv(o)
    ensures CallerBooks(DoTakeOver(o, reply, demand, permit), caller) == CallerBooks(o, caller) + One(reply == caller)
  {
    hide AnswerCount, WaiterCount;
    forall verdict, s: Owner
      ensures CallerBooks(Answered(s, Some(reply), verdict), caller) == CallerBooks(s, caller) + One(reply == caller)
    {
      AnsweredBooks(s, Some(reply), verdict, caller);
    }
    TakeoverCallers(o, reply, permit, caller);
  }

  lemma ValidationDoneCallers(o: Owner, g: nat, failed: bool, lost: bool, demand: bool, caller: nat)
    requires PhaseInv(o)
    ensures CallerBooks(DoValidationDone(o, g, failed, lost, demand), caller) == CallerBooks(o, caller)
  {
    hide AnswerCount, WaiterCount;
    forall verdict, s: Owner, to: Option<nat>
      ensures CallerBooks(Answered(s, to, verdict), caller) == CallerBooks(s, caller) + One(to == Some(caller))
    {
      AnsweredBooks(s, to, verdict, caller);
    }
  }

  lemma StopCallers(o: Owner, reply: nat, caller: nat)
    requires OwnerInv(o)
    ensures CallerBooks(DoStop(o, reply), caller) == CallerBooks(o, caller) + One(reply == caller)
  {
    hide AnswerCount, WaiterCount, WorkersInv, CancelAll, FailQueued;
    StopQueueIs(o);
    WaiterLast(o.stopWaiters, reply, caller);
  }

  /** Conservation of callers: a turn answers, keeps or takes on each caller, and loses none. */
  lemma HandleCallers(o: Owner, c: Command, caller: nat)
    requires OwnerInv(o)
    ensures CallerBooks(Handle(o, c), caller) == CallerBooks(o, caller) + One(Asks(c, caller))
  {
    hide WorkersInv, PhaseInv, CallerBooks, DoRegister, DoAttemptDone, DoGenerationEnded, DoTakeoverRecognized, DoCleanupDone, DoStop, DoRelease, DoTakeOver, DoValidationDone, StartNext, Without;
    match c
    case Register(permit, untilTaken, expired) => RegisterCallers(o, permit, untilTaken, expired, caller);
    case AttemptDone(g, connection, expired, untilTaken, expiredLater, demand) => AttemptDoneCallers(o, g, connection, expired, untilTaken, expiredLater, demand, caller);
    case WorkerDone(done, g, untilTaken, expired, demand) => WorkerDoneCallers(o, done, g, untilTaken, expired, demand, caller);
    case GenerationEnded(g, recognized) => GenerationEndedCallers(o, g, recognized, caller);
    case TakeoverRecognized(g) => TakeoverRecognizedCallers(o, g, caller);
    case CleanupDone(g, closed, recognized, permitTakeover, permitQueue) => CleanupDoneCallers(o, g, closed, recognized, permitTakeover, permitQueue, caller);
    case Release(reply, demand) => ReleaseCallers(o, reply, demand, caller);
    case TakeOver(reply, demand, permit) => TakeOverCallers(o, reply, demand, permit, caller);
    case ValidationDone(g, failed, lost, demand) => ValidationDoneCallers(o, g, failed, lost, demand, caller);
    case Stop(reply) => StopCallers(o, reply, caller);
    case Cancel(worker) => CallerFrame(o, Handle(o, c), caller);
    case DemandChanged(demand) => CallerFrame(o, Handle(o, c), caller);
    case IdleExpired(g, demand) => IdleCallers(o, g, demand, caller);
  }

  lemma IdleCallers(o: Owner, g: nat, demand: bool, caller: nat)
    ensures CallerBooks(DoIdleExpired(o, g, demand), caller) == CallerBooks(o, caller)
  {
    hide AnswerCount, WaiterCount;
  }

  lemma WorkerDoneCallers(o: Owner, done: nat, g: nat, untilTaken: nat, expired: set<nat>, demand: bool, caller: nat)
    requires OwnerInv(o)
    ensures CallerBooks(DoWorkerDone(o, done, g, untilTaken, expired, demand), caller) == CallerBooks(o, caller)
  {
    if done in o.workers && o.workers[done].generation != 0 && o.workers[done].generation == g {
      var o1 := Settle(o, done, Own);
      assert OwnerInv(o1);
      hide OwnerInv, StartNext, ScheduleIdle, CallerBooks;
      CallerFrame(o, o1, caller);
      StartCallers(o1, untilTaken, expired, demand, caller);
    }
  }

  lemma TurnCallers(o: Owner, c: Command, caller: nat)
    requires OwnerInv(o) && !o.finished
    ensures CallerBooks(Turn(o, c), caller) == CallerBooks(o, caller) + One(Asks(c, caller))
  {
    hide OwnerInv, Handle, FinishIfStopped, CallerBooks;
    HandleCallers(o, c, caller);
    FinishCallers(Handle(o, c), caller);
  }
}
