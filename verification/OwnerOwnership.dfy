/** Who owns the device: ownership given up or lost stays so until an explicit takeover. */
module OwnerOwnership {
  import opened Options
  import opened OwnerModel
  import opened OwnerSafety
  import opened OwnerTasks
  import opened OwnerMoves
  import opened OwnerRuns

  /** In every reachable state: a live generation means Active, and Active means a generation or an
      unfinished cleanup. */
  lemma OwnershipMeaning(ownership: Ownership, events: seq<Event>)
    requires ownership != Active && ownership != Stopped && IsRun(ownership, events)
    ensures var o := Run(ownership, events).o;
            (&& (o.generation.Some? ==> o.ownership == Active)
             && (o.ownership == Active ==> o.generation.Some? || (o.cleanup.Some? && !o.cleanup.value.failed)))
  {
    hide After, Possible, Run, IsRun;
    EveryRun(ownership, events);
    hide WorkersInv, BooksInv, TasksInv, LatchInv, WatchInv, Tidy;
  }

  // ---- Ownership is sticky ----

  predicate TakeoverPending(o: Owner) {
    || (o.attempt.Some? && o.attempt.value.takeover.Some?)
    || (o.cleanup.Some? && o.cleanup.value.takeover.Some?)
  }

  /** Released, taken over or uncertain, with no takeover under way (or stopped from there). */
  predicate Barred(o: Owner) {
    && o.attempt.None? && o.generation.None?
    && (if o.ownership == Stopped then o.cleanup.None? else Parked(o.ownership))
    && (o.cleanup.Some? ==> o.cleanup.value.takeover.None?)
  }

  /** At most one goroutine more, and that one does not connect. */
  predicate NoConnect(o: Owner, r: Owner) {
    || r.spawned == o.spawned
    || (|r.spawned| == |o.spawned| + 1 && r.spawned[..|o.spawned|] == o.spawned && !r.spawned[|o.spawned|].Connect?)
  }

  predicate StaysBarred(o: Owner, r: Owner) {
    Barred(r) && NoConnect(o, r)
  }

  lemma ParkedIsBarred(o: Owner)
    requires PhaseInv(o) && Parked(o.ownership) && !TakeoverPending(o)
    ensures Barred(o)
  {
  }

  lemma BarredTerminal(o: Owner, g: nat, recognized: bool)
    requires PhaseInv(o) && Barred(o)
    ensures StaysBarred(o, DoGenerationEnded(o, g, recognized)) && StaysBarred(o, DoTakeoverRecognized(o, g))
  {
    hide FailQueued;
    FailQueuedIs(o.(ownership := TakenOver,
                    cleanup := if PendingTerminal(o, g) then Some(o.cleanup.value.(target := TakenOver)) else o.cleanup), NotSent(SessionTakenOver));
  }

  lemma BarredCleanup(o: Owner, g: nat, closed: bool, recognized: bool, permitTakeover: bool, permitQueue: bool)
    requires PhaseInv(o) && Barred(o) && Awaited(o, CloseSession(g))
    ensures StaysBarred(o, DoCleanupDone(o, g, closed, recognized, permitTakeover, permitQueue))
  {
    hide FailQueued;
    if closed {
      ClosedBarred(o, recognized);
      hide Closed;
    } else {
      FailQueuedIs(o.(cleanup := Some(o.cleanup.value.(failed := true, reply := None, takeover := None)), ownership := Uncertain), NotSent(Busy));
    }
  }

  lemma ClosedBarred(o: Owner, recognized: bool)
    requires PhaseInv(o) && Barred(o) && o.cleanup.Some? && !o.cleanup.value.failed
    ensures Barred(Closed(o, recognized)) && Closed(o, recognized).spawned == o.spawned
  {
  }

  lemma BarredRegister(o: Owner, permit: bool, untilTaken: nat, expired: set<nat>, worker: nat)
    requires PhaseInv(o) && Barred(o)
    ensures StaysBarred(o, DoRegister(o, permit, untilTaken, expired)) && StaysBarred(o, DoCancel(o, worker))
  {
    hide Enter, StartNext, Without, Refusal;
  }

  lemma BarredWorker(o: Owner, g: nat, connection: Connection, worker: nat, untilTaken: nat, expired: set<nat>, later: set<nat>, demand: bool)
    requires Barred(o)
    ensures StaysBarred(o, DoAttemptDone(o, g, connection, expired, untilTaken, later, demand))
    ensures StaysBarred(o, DoWorkerDone(o, worker, g, untilTaken, expired, demand))
  {
    hide AttemptConnected, AttemptFailed, SettleCanceled, FilterQueue;
  }

  lemma BarredRelease(o: Owner, reply: nat, demand: bool)
    requires PhaseInv(o) && Barred(o)
    ensures StaysBarred(o, DoRelease(o, reply, demand))
  {
  }

  lemma BarredIdle(o: Owner, g: nat, failed: bool, lost: bool, demand: bool)
    requires Barred(o)
    ensures StaysBarred(o, DoValidationDone(o, g, failed, lost, demand)) && StaysBarred(o, DoIdleExpired(o, g, demand)) && StaysBarred(o, ScheduleIdle(o, demand))
  {
  }

  lemma BarredStop(o: Owner, reply: nat)
    requires OwnerInv(o) && Barred(o)
    ensures StaysBarred(o, DoStop(o, reply))
  {
    hide CancelAll, FailQueued, WorkersInv;
    StopQueueIs(o);
  }

  lemma HandleBarred(o: Owner, c: Command)
    requires OwnerInv(o) && Barred(o) && !c.TakeOver?
    requires forall t: Task | Completes(c, t) && !t.Ping? :: Awaited(o, t)
    ensures StaysBarred(o, Handle(o, c))
  {
    hide WorkersInv, PhaseInv, StaysBarred, Awaited, Barred, DoRegister, DoCancel, DoAttemptDone, DoWorkerDone, DoGenerationEnded, DoTakeoverRecognized, DoCleanupDone, DoStop, DoIdleExpired, DoRelease, DoValidationDone, ScheduleIdle;
    match c
    case Register(permit, untilTaken, expired) => BarredRegister(o, permit, untilTaken, expired, 0);
    case Cancel(worker) => BarredRegister(o, false, 0, {}, worker);
    case AttemptDone(g, connection, expired, untilTaken, expiredLater, demand) => BarredWorker(o, g, connection, 0, untilTaken, expired, expiredLater, demand);
    case WorkerDone(done, g, untilTaken, expired, demand) => BarredWorker(o, g, NoSession, done, untilTaken, expired, {}, demand);
    case GenerationEnded(g, recognized) => BarredTerminal(o, g, recognized);
    case TakeoverRecognized(g) => BarredTerminal(o, g, false);
    case IdleExpired(g, demand) => BarredIdle(o, g, false, false, demand);
    case DemandChanged(demand) => BarredIdle(o, 0, false, false, demand);
    case CleanupDone(g, closed, recognized, permitTakeover, permitQueue) =>
      assert Completes(c, CloseSession(g));
      BarredCleanup(o, g, closed, recognized, permitTakeover, permitQueue);
    case Release(reply, demand) => BarredRelease(o, reply, demand);
    case ValidationDone(g, failed, lost, demand) => BarredIdle(o, g, failed, lost, demand);
    case Stop(reply) => BarredStop(o, reply);
  }

  lemma FinishBarred(o: Owner)
    ensures SameMatters(o, FinishIfStopped(o)) && FinishIfStopped(o).ownership == o.ownership && FinishIfStopped(o).spawned == o.spawned
  {
    AnswerAllIs(o, o.stopWaiters, if o.cleanup.Some? then Failed(CloseError) else Success);
    hide AnswerAll;
  }

  lemma StepBarred(w: World, e: Event)
    requires WorldInv(w) && Possible(w, e) && Barred(w.o) && !e.SendTakeOver?
    ensures StaysBarred(w.o, After(w, e).o)
  {
    hide OwnerInv, BooksInv, TasksInv, LatchInv, WatchInv, Tidy, Possible, Handle, FinishIfStopped, Awaited, Completes, FinishedInv, Sessions, WatchAfter, WaitingAfter, OpenAfter;
    if CommandOf(w, e).Some? && !w.o.finished {
      var c := CommandOf(w, e).value;
      NotStale(w, e, c);
      HandleBarred(w.o, c);
      FinishBarred(Handle(w.o, c));
    }
  }

  /** Going on from a world. */
  function RunFrom(w: World, events: seq<Event>): World
    decreases |events|
  {
    if events == [] then w else After(RunFrom(w, events[..|events| - 1]), events[|events| - 1])
  }

  predicate IsRunFrom(w: World, events: seq<Event>)
    decreases |events|
  {
    events == [] || (IsRunFrom(w, events[..|events| - 1]) && Possible(RunFrom(w, events[..|events| - 1]), events[|events| - 1]))
  }

  lemma {:induction false} RunFromKeeps(w: World, events: seq<Event>)
    requires WorldInv(w) && IsRunFrom(w, events)
    ensures WorldInv(RunFrom(w, events))
    decreases |events|
  {
    hide WorldInv, After, Possible;
    if events != [] {
      RunFromKeeps(w, events[..|events| - 1]);
      StepKeeps(RunFrom(w, events[..|events| - 1]), events[|events| - 1]);
    }
  }

  lemma ConnectCount(o: Owner, r: Owner, g: nat)
    requires NoConnect(o, r)
    ensures TaskCount(r.spawned, Connect(g)) == TaskCount(o.spawned, Connect(g))
  {
    if r.spawned != o.spawned {
      assert r.spawned == o.spawned + [r.spawned[|o.spawned|]];
    }
  }

  /** Sticky ownership: once released, taken over or uncertain, with no takeover under way, no run without
      an explicit takeover connects again or makes the owner idle or active. */
  lemma {:induction false} StickyOwnership(w: World, events: seq<Event>, g: nat)
    requires WorldInv(w) && Parked(w.o.ownership) && !TakeoverPending(w.o)
    requires IsRunFrom(w, events) && forall e | e in events :: !e.SendTakeOver?
    ensures var v := RunFrom(w, events);
            (&& Barred(v.o) && v.o.ownership != Idle && v.o.ownership != Active
             && TaskCount(v.o.spawned, Connect(g)) == TaskCount(w.o.spawned, Connect(g)))
    decreases |events|
  {
    hide OwnerInv, BooksInv, TasksInv, LatchInv, WatchInv, Tidy, After, Possible, TaskCount, Sessions, FinishedInv, NoConnect;
    if events == [] {
      ParkedParts(w);
      ParkedIsBarred(w.o);
      hide PhaseInv;
    } else {
      var before, e := events[..|events| - 1], events[|events| - 1];
      assert events == before + [e];
      StickyOwnership(w, before, g);
      RunFromKeeps(w, before);
      StepBarred(RunFrom(w, before), e);
      ConnectCount(RunFrom(w, before).o, RunFrom(w, events).o, g);
    }
  }

  lemma ParkedParts(w: World)
    requires WorldInv(w)
    ensures PhaseInv(w.o)
  {
    hide WorkersInv, BooksInv, TasksInv, LatchInv, WatchInv, Tidy;
  }

  // ---- Why the latch is needed ----

  /** At the owner alone, without the latch, a worker registered while a session is being closed gets an
      attempt of its own exactly when the closing was for idleness; after a release it stays in the queue
      with nothing under way. */
  lemma RegisteredDuringCleanup(o: Owner, register: Command, closed: Command)
    requires OwnerInv(o) && Admits(o) && o.cleanup.Some? && o.validation.None? && o.cleanup.value.takeover.None? && o.queue == []
    requires register.Register? && closed.CleanupDone? && closed.generation == o.cleanup.value.generation && closed.closed && closed.permitQueue
    ensures var r := Turn(Turn(o, register), closed);
            (&& r.queue == [o.nextWorker + 1] && o.nextWorker + 1 in r.workers
             && r.generation.None? && r.cleanup.None?
             && (r.attempt.Some? <==> o.cleanup.value.target == Idle))
  {
    var id := o.nextWorker + 1;
    var o1 := Acked(Enlist(o), Accepted(id));
    assert Turn(o, register) == o1;
    var m := Closed(o1, closed.recognized);
    assert m.queue == [id] && m.attempt.None? && m.generation.None? && m.cleanup.None? && m.validation.None? && !m.stopping;
    assert m.ownership == Idle <==> o.cleanup.value.target == Idle;
    hide OwnerInv, Enlist, Closed;
    assert Handle(o1, closed) == Resume(m, None, closed.permitTakeover, true);
  }

  /** A released session being closed with ownership still Active admits workers: the promise above does
      fail at the owner alone. */
  lemma ReleaseStrandsWithoutLatch()
    ensures var o := Turn(Turn(Turn(Turn(NewOwner(Idle), Register(true, 1, {})), AttemptDone(1, Connected, {}, 1, {}, false)), WorkerDone(1, 1, 1, {}, false)), Release(0, false));
            (&& OwnerInv(o) && Admits(o) && o.cleanup.Some? && o.cleanup.value.target == Released && o.validation.None?
             && o.cleanup.value.takeover.None? && o.queue == [] && o.cleanup.value.generation == 1)
  {
    hide Turn, OwnerInv;
    var o0 := NewOwner(Idle);
    var o1 := Turn(o0, Register(true, 1, {}));
    var o2 := Turn(o1, AttemptDone(1, Connected, {}, 1, {}, false));
    var o3 := Turn(o2, WorkerDone(1, 1, 1, {}, false));
    NewOwnerInv();
    TurnKeeps(o0, Register(true, 1, {}));
    TurnKeeps(o1, AttemptDone(1, Connected, {}, 1, {}, false));
    TurnKeeps(o2, WorkerDone(1, 1, 1, {}, false));
    TurnKeeps(o3, Release(0, false));
    FirstWorker();
    FirstSession(o1);
    FirstDone(o2);
    FirstRelease(o3);
  }

  lemma NewOwnerInv()
    ensures OwnerInv(NewOwner(Idle))
  {
  }

  lemma FirstRelease(o: Owner)
    requires o.workers == map[] && o.queue == [] && o.generation == Some(1) && o.ownership == Active && Idling(o)
    ensures var r := Turn(o, Release(0, false));
            (&& Admits(r) && r.cleanup.Some? && r.cleanup.value.target == Released && r.validation.None?
             && r.cleanup.value.takeover.None? && r.queue == [] && r.cleanup.value.generation == 1)
  {
  }

  lemma FirstWorker()
    ensures var o := Turn(NewOwner(Idle), Register(true, 1, {}));
            (&& o.workers == map[1 := Worker(0, false)] && o.queue == [1] && o.attempt == Some(Attempt(1, None))
             && Idling(o.(attempt := None)) && o.nextWorker == 1)
  {
  }

  /** Nothing else is going on. */
  predicate Idling(o: Owner) {
    o.attempt.None? && o.validation.None? && o.cleanup.None? && !o.stopping && !o.finished
  }

  lemma FirstSession(o: Owner)
    requires o.workers == map[1 := Worker(0, false)] && o.queue == [1] && o.attempt == Some(Attempt(1, None)) && Idling(o.(attempt := None)) && o.nextWorker == 1
    ensures var r := Turn(o, AttemptDone(1, Connected, {}, 1, {}, false));
            r.workers == map[1 := Worker(1, false)] && r.queue == [] && r.generation == Some(1) && r.ownership == Active && Idling(r)
  {
    var o1 := o.(attempt := None);
    assert SettleCanceled(o1, 1) == o1;
    assert FilterQueue(o1, [1], [], {}) == o1;
    var o2 := Answered(Spawn(o1.(generation := Some(1), ownership := Active), Watch(1)), None, Success);
    var o3 := HandOver(o2, 1, {});
    assert o3.queue == [] && o3.workers == map[1 := Worker(1, false)];
    assert Dispatch(o3, 1, 0, {}) == o3;
    assert Dispatch(o2, 1, 1, {}) == o3;
    assert StartNext(o2, 1, {}) == o3;
  }

  lemma FirstDone(o: Owner)
    requires o.workers == map[1 := Worker(1, false)] && o.queue == [] && o.generation == Some(1) && o.ownership == Active && Idling(o)
    ensures var r := Turn(o, WorkerDone(1, 1, 1, {}, false));
            r.workers == map[] && r.queue == [] && r.generation == Some(1) && r.ownership == Active && Idling(r)
  {
    var o1 := Settle(o, 1, Own);
    assert o1.workers == map[];
    assert StartNext(o1, 1, {}) == o1;
  }
}
