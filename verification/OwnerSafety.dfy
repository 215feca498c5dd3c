/** What every turn of the owner's loop keeps: one session at a time, sticky ownership, and the books of
    who is owed a reply. */
module OwnerSafety {
  import opened Options
  import opened OwnerModel

  // ---- The invariant ----

  predicate Unique(queue: seq<nat>) {
    queue == [] || (queue[0] !in queue[1..] && Unique(queue[1..]))
  }

  lemma {:induction false} UniqueMiddle(a: seq<nat>, id: nat, b: seq<nat>)
    ensures Unique(a + [id] + b) <==> Unique(a + b) && id !in a + b
  {
    if a == [] {
      assert [id] + b == [] + [id] + b && [] + b == b;
      assert ([id] + b)[1..] == b;
    } else {
      assert (a + [id] + b)[1..] == a[1..] + [id] + b;
      assert (a + b)[1..] == a[1..] + b;
      UniqueMiddle(a[1..], id, b);
      assert a == [a[0]] + a[1..];
    }
  }

  lemma UniqueLast(queue: seq<nat>, id: nat)
    ensures Unique(queue + [id]) <==> id !in queue && Unique(queue)
  {
    UniqueMiddle(queue, id, []);
    assert queue + [id] + [] == queue + [id] && queue + [] == queue;
  }

  /** A worker is queued, or canceled while an attempt is in flight, or at work on a session. */
  ghost predicate WorkersInv(o: Owner) {
    && Unique(o.queue)
    && (forall id | id in o.queue :: id in o.workers && o.workers[id] == Worker(0, false))
    && (forall id | id in o.workers :: 1 <= id <= o.nextWorker)
    && (forall id | id in o.workers && o.workers[id].canceled :: o.workers[id].generation == 0 && o.attempt.Some?)
    && (forall id | id in o.workers && o.workers[id].generation == 0 :: id in o.queue || o.workers[id].canceled)
  }

  predicate Parked(ownership: Ownership) {
    ownership == Released || ownership == TakenOver || ownership == Uncertain
  }

  predicate OneAtATime(o: Owner) {
    && !(o.attempt.Some? && o.generation.Some?)
    && !(o.attempt.Some? && o.cleanup.Some?)
    && !(o.generation.Some? && o.cleanup.Some?)
  }

  predicate AttemptInv(o: Owner) {
    o.attempt.Some? ==>
      && o.attempt.value.generation == o.nextGeneration != 0
      && (o.attempt.value.takeover.None? ==> o.ownership == Idle)
      && o.validation.None?
  }

  predicate GenerationInv(o: Owner) {
    o.generation.Some? ==>
      && o.generation.value == o.nextGeneration != 0
      && o.ownership == Active && !o.stopping
      && (o.validation.Some? ==> o.validation.value.generation == o.generation.value)
  }

  predicate CleanupInv(o: Owner) {
    o.cleanup.Some? ==>
      var c := o.cleanup.value;
      && c.generation == o.nextGeneration != 0
      && !(c.reply.Some? && c.takeover.Some?)
      && (c.reply.Some? ==> c.target == Released)
      && (c.failed ==> c.reply.None? && c.takeover.None? && o.ownership == Uncertain)
      && c.target != Active && (c.target == Stopped ==> o.stopping)
      && (Parked(o.ownership) && !c.failed && c.takeover.None? ==> Parked(c.target) || c.target == Stopped)
      && (!Parked(o.ownership) && c.reply.None? && c.takeover.None? ==> c.target == Idle || o.stopping)
  }

  predicate OwnershipInv(o: Owner) {
    && (o.ownership == Active ==> o.generation.Some? || (o.cleanup.Some? && !o.cleanup.value.failed))
    && (o.ownership == Stopped ==> o.stopping)
    && (o.stopping ==> o.queue == [])
    && (!o.stopping ==> o.stopWaiters == [] && !o.finished)
  }

  predicate PhaseInv(o: Owner) {
    OneAtATime(o) && AttemptInv(o) && GenerationInv(o) && CleanupInv(o) && OwnershipInv(o)
  }

  ghost predicate OwnerInv(o: Owner) {
    WorkersInv(o) && PhaseInv(o)
  }

  lemma WorkersOf(o: Owner)
    requires OwnerInv(o)
    ensures WorkersInv(o)
  {
    hide WorkersInv, PhaseInv;
  }

  // ---- What the helpers leave alone ----

  ghost function Members(queue: seq<nat>): set<nat> {
    set id | id in queue
  }

  lemma {:induction false} SettleAllIs(o: Owner, queue: seq<nat>, verdict: Verdict)
    ensures var r := SettleAll(o, queue, verdict);
            r == o.(workers := r.workers, replies := r.replies) && r.workers == o.workers - Members(queue)
    decreases |queue|
  {
    if queue != [] {
      var next := if queue[0] in o.workers then Settle(o, queue[0], verdict) else o;
      SettleAllIs(next, queue[1..], verdict);
      assert Members(queue) == {queue[0]} + Members(queue[1..]);
    } else {
      assert Members(queue) == {};
    }
  }

  lemma FailQueuedIs(o: Owner, verdict: Verdict)
    ensures var r := FailQueued(o, verdict);
            r == o.(workers := r.workers, replies := r.replies, queue := []) && r.workers == o.workers - Members(o.queue)
  {
    SettleAllIs(o, o.queue, verdict);
  }

  lemma FailQueuedWorkers(o: Owner, verdict: Verdict)
    requires WorkersInv(o)
    ensures WorkersInv(FailQueued(o, verdict))
  {
    FailQueuedIs(o, verdict);
    hide SettleAll, FailQueued;
  }

  lemma {:induction false} WithoutIs(queue: seq<nat>, worker: nat)
    requires Unique(queue)
    ensures var r := Without(queue, worker);
            Unique(r) && (forall id :: id in r <==> id in queue && id != worker)
    decreases |queue|
  {
    if queue != [] {
      WithoutIs(queue[1..], worker);
      assert queue == [queue[0]] + queue[1..];
      var r := Without(queue, worker);
      if queue[0] != worker {
        assert r[1..] == Without(queue[1..], worker);
        assert r == [queue[0]] + Without(queue[1..], worker);
      }
      hide Unique;
    }
  }

  /** One turn of the dispatch loop. */
  lemma HandOverIs(o: Owner, g: nat, expired: set<nat>)
    requires WorkersInv(o) && g != 0 && o.queue != []
    ensures o.queue[0] in o.workers && o.workers[o.queue[0]] == Worker(0, false)
    ensures var r := HandOver(o, g, expired);
            (&& WorkersInv(r) && r.workers.Keys <= o.workers.Keys
             && r == o.(workers := r.workers, queue := r.queue, replies := r.replies, spawned := r.spawned, idleArmed := r.idleArmed))
  {
    var id := o.queue[0];
    assert o.queue == [id] + o.queue[1..];
    assert id in o.queue && id !in o.queue[1..] && Unique(o.queue[1..]);
    var rest := o.(queue := o.queue[1..]);
    hide Unique;
    assert WorkersInv(rest.(workers := rest.workers - {id}));
    assert WorkersInv(rest.(workers := rest.workers[id := Worker(g, false)]));
    hide WorkersInv;
    var r := HandOver(o, g, expired);
    WorkersFrame(if id in expired then rest.(workers := rest.workers - {id}) else rest.(workers := rest.workers[id := Worker(g, false)]), r);
  }

  lemma {:induction false} DispatchIs(o: Owner, g: nat, untilTaken: nat, expired: set<nat>)
    requires WorkersInv(o) && g != 0
    ensures var r := Dispatch(o, g, untilTaken, expired);
            (&& WorkersInv(r) && r.workers.Keys <= o.workers.Keys
             && r == o.(workers := r.workers, queue := r.queue, replies := r.replies, spawned := r.spawned, idleArmed := r.idleArmed)
             && |r.queue| == if untilTaken < |o.queue| then |o.queue| - untilTaken else 0)
    decreases |o.queue|
  {
    hide WorkersInv, HandOver;
    if o.queue != [] && untilTaken != 0 {
      HandOverIs(o, g, expired);
      DispatchIs(HandOver(o, g, expired), g, untilTaken - 1, expired);
    }
  }

  lemma {:induction false} SettleCanceledIs(o: Owner, last: nat)
    ensures var r := SettleCanceled(o, last);
            (&& r == o.(workers := r.workers, replies := r.replies)
             && (forall id :: id in r.workers <==> id in o.workers && !(1 <= id <= last && o.workers[id].canceled))
             && (forall id | id in r.workers :: r.workers[id] == o.workers[id]))
  {
    if last != 0 {
      SettleCanceledIs(o, last - 1);
    }
  }

  lemma {:induction false} FilterQueueIs(o: Owner, queue: seq<nat>, kept: seq<nat>, expired: set<nat>)
    requires WorkersInv(o.(queue := kept + queue))
    ensures var r := FilterQueue(o, queue, kept, expired);
            WorkersInv(r) && r.workers.Keys <= o.workers.Keys && r == o.(workers := r.workers, queue := r.queue, replies := r.replies)
    decreases |queue|
  {
    if queue == [] {
      assert kept + queue == kept;
    } else {
      var all := kept + queue;
      assert all[|kept|] == queue[0];
      if queue[0] in expired {
        UniqueMiddle(kept, queue[0], queue[1..]);
        assert all == kept + [queue[0]] + queue[1..];
        hide Unique;
        FilterQueueIs(Settle(o, queue[0], NotSent(ContextEnded)), queue[1..], kept, expired);
      } else {
        assert (kept + [queue[0]]) + queue[1..] == all;
        FilterQueueIs(o, queue[1..], kept + [queue[0]], expired);
      }
    }
  }

  lemma {:induction false} CancelAllIs(o: Owner, queue: seq<nat>)
    ensures var r := CancelAll(o, queue);
            (&& r == o.(workers := r.workers) && r.workers.Keys == o.workers.Keys
             && (forall id | id in r.workers ::
                   r.workers[id] == if id in queue then o.workers[id].(canceled := true) else o.workers[id]))
    decreases |queue|
  {
    if queue != [] {
      CancelAllIs(if queue[0] in o.workers then o.(workers := o.workers[queue[0] := o.workers[queue[0]].(canceled := true)]) else o, queue[1..]);
      assert queue == [queue[0]] + queue[1..];
    }
  }

  lemma {:induction false} AnswerAllIs(o: Owner, waiters: seq<nat>, verdict: Verdict)
    ensures var r := AnswerAll(o, waiters, verdict); r == o.(answers := r.answers)
    decreases |waiters|
  {
    if waiters != [] {
      AnswerAllIs(Answered(o, Some(waiters[0]), verdict), waiters[1..], verdict);
    }
  }

  /** The worker invariant looks at no more than this. */
  lemma WorkersFrame(o: Owner, r: Owner)
    requires WorkersInv(o) && r.workers == o.workers && r.queue == o.queue && r.nextWorker == o.nextWorker
    requires o.attempt.Some? ==> r.attempt.Some?
    ensures WorkersInv(r)
  {
  }

  // ---- Every command keeps the invariant ----

  lemma StartNextIs(o: Owner, untilTaken: nat, expired: set<nat>)
    requires OwnerInv(o)
    ensures var r := StartNext(o, untilTaken, expired);
            (&& OwnerInv(r) && r.workers.Keys <= o.workers.Keys
             && r == o.(workers := r.workers, queue := r.queue, replies := r.replies, spawned := r.spawned, idleArmed := r.idleArmed))
    ensures o.generation.Some? && !o.stopping ==> |StartNext(o, untilTaken, expired).queue| == if untilTaken < |o.queue| then |o.queue| - untilTaken else 0
  {
    if o.generation.Some? && !o.stopping {
      DispatchIs(o, o.generation.value, untilTaken, expired);
    }
    hide Dispatch, WorkersInv;
  }

  lemma ScheduleIdleKeeps(o: Owner, demand: bool)
    requires OwnerInv(o)
    ensures OwnerInv(ScheduleIdle(o, demand))
  {
    WorkersFrame(o, ScheduleIdle(o, demand));
    hide WorkersInv;
  }

  lemma StartAttemptKeeps(o: Owner, takeover: Option<nat>, permit: bool)
    requires OwnerInv(o)
    ensures OwnerInv(StartAttempt(o, takeover, permit).0)
  {
    WorkersFrame(o, StartAttempt(o, takeover, permit).0);
    hide WorkersInv;
  }

  lemma StartAttemptIs(o: Owner, takeover: Option<nat>, permit: bool)
    ensures var (r, err) := StartAttempt(o, takeover, permit);
            (&& r == o.(nextGeneration := r.nextGeneration, attempt := r.attempt, spawned := r.spawned) && (err.Some? ==> r == o)
             && (r == o || (r.nextGeneration == o.nextGeneration + 1 && r.attempt == Some(Attempt(r.nextGeneration, takeover)))))
  {
  }

  /** Entering leaves everything but the new worker and a new attempt as it was. */
  lemma EnterIs(o: Owner, permit: bool)
    requires OwnerInv(o) && Admits(o)
    ensures var (r, err) := Enter(o, permit);
            (&& OwnerInv(r) && (err.Some? ==> r == Enlist(o))
             && r == Enlist(o).(nextGeneration := r.nextGeneration, attempt := r.attempt, spawned := r.spawned))
  {
    Enlisted(o);
    hide WorkersInv;
    StartAttemptKeeps(Enlist(o), None, permit);
    assert OwnerInv(Enlist(o));
  }

  lemma RegisterKeeps(o: Owner, permit: bool, untilTaken: nat, expired: set<nat>)
    requires OwnerInv(o)
    ensures OwnerInv(DoRegister(o, permit, untilTaken, expired))
  {
    hide WorkersInv, StartNext, Without, Enter;
    if Admits(o) {
      EnterIs(o, permit);
      var id := o.nextWorker + 1;
      var (o2, err) := Enter(o, permit);
      if err.Some? {
        Backed(o);
        WorkersFrame(Delist(Enlist(o), id), DoRegister(o, permit, untilTaken, expired));
      } else {
        AckedKeeps(o2, Accepted(id));
        StartNextIs(Acked(o2, Accepted(id)), untilTaken, expired);
      }
    } else {
      WorkersFrame(o, DoRegister(o, permit, untilTaken, expired));
    }
  }

  lemma AckedKeeps(o: Owner, ack: Ack)
    requires OwnerInv(o)
    ensures OwnerInv(Acked(o, ack))
  {
    WorkersFrame(o, Acked(o, ack));
    hide WorkersInv;
  }

  lemma Enlisted(o: Owner)
    requires WorkersInv(o)
    ensures WorkersInv(Enlist(o))
  {
    UniqueLast(o.queue, o.nextWorker + 1);
    hide Unique;
  }

  lemma Backed(o: Owner)
    requires WorkersInv(o)
    ensures WorkersInv(Delist(Enlist(o), o.nextWorker + 1))
  {
    var id := o.nextWorker + 1;
    assert id !in o.queue && id !in o.workers;
    WithoutLast(o.queue, id);
    hide Without, Unique;
  }

  lemma {:induction false} WithoutLast(queue: seq<nat>, id: nat)
    requires id !in queue
    ensures Without(queue + [id], id) == queue
    decreases |queue|
  {
    if queue != [] {
      assert (queue + [id])[1..] == queue[1..] + [id];
      WithoutLast(queue[1..], id);
    }
  }

  lemma UnqueuedKeeps(o: Owner, worker: nat)
    requires WorkersInv(o) && worker in o.workers && o.workers[worker].generation == 0
    ensures WorkersInv(o.(queue := Without(o.queue, worker), workers := o.workers - {worker}))
  {
    WithoutIs(o.queue, worker);
    hide Without, Unique;
  }

  lemma CanceledKeeps(o: Owner, worker: nat)
    requires WorkersInv(o) && worker in o.workers && o.workers[worker].generation == 0 && o.attempt.Some?
    ensures WorkersInv(o.(queue := Without(o.queue, worker), workers := o.workers[worker := o.workers[worker].(canceled := true)]))
  {
    WithoutIs(o.queue, worker);
    hide Without, Unique;
  }

  lemma CancelKeeps(o: Owner, worker: nat)
    requires OwnerInv(o)
    ensures OwnerInv(DoCancel(o, worker))
  {
    var r := DoCancel(o, worker);
    if o.queue == [] {
      assert Without(o.queue, worker) == [];
    }
    hide Without, WorkersInv;
    if worker in o.workers && o.workers[worker].generation == 0 {
      var o1 := o.(queue := Without(o.queue, worker));
      if o1.attempt.Some? && |o1.queue| == 0 {
        CanceledKeeps(o, worker);
        WorkersFrame(o1.(workers := o1.workers[worker := o1.workers[worker].(canceled := true)]), r);
      } else {
        UnqueuedKeeps(o, worker);
        WorkersFrame(o1.(workers := o1.workers - {worker}), r);
      }
    } else {
      WorkersFrame(o, r);
    }
  }

  /** Once the attempt is over its canceled and expired workers are gone. */
  function AfterAttempt(o: Owner, expired: set<nat>): Owner {
    var o1 := SettleCanceled(o.(attempt := None), o.nextWorker);
    FilterQueue(o1, o1.queue, [], expired)
  }

  lemma AfterAttemptIs(o: Owner, expired: set<nat>)
    requires WorkersInv(o)
    ensures var r := AfterAttempt(o, expired);
            (&& WorkersInv(r) && r.workers.Keys <= o.workers.Keys
             && r == o.(attempt := None, workers := r.workers, queue := r.queue, replies := r.replies))
  {
    SettleCanceledIs(o.(attempt := None), o.nextWorker);
    hide SettleCanceled, Unique;
    var o1 := SettleCanceled(o.(attempt := None), o.nextWorker);
    assert [] + o1.queue == o1.queue;
    assert WorkersInv(o1);
    FilterQueueIs(o1, o1.queue, [], expired);
    hide FilterQueue, WorkersInv;
  }

  lemma {:induction false} FilterShrinks(o: Owner, queue: seq<nat>, kept: seq<nat>, expired: set<nat>)
    ensures |FilterQueue(o, queue, kept, expired).queue| <= |kept| + |queue|
    decreases |queue|
  {
    if queue != [] {
      if queue[0] !in o.workers {
        FilterShrinks(o, queue[1..], kept, expired);
      } else if queue[0] in expired {
        FilterShrinks(Settle(o, queue[0], NotSent(ContextEnded)), queue[1..], kept, expired);
      } else {
        FilterShrinks(o, queue[1..], kept + [queue[0]], expired);
      }
    }
  }

  /** The state from which the two outcomes of an attempt go on. */
  ghost predicate AttemptOver(o: Owner, g: nat, takeover: Option<nat>) {
    && WorkersInv(o) && OwnershipInv(o) && o.attempt.None? && o.generation.None? && o.cleanup.None? && o.validation.None?
    && g == o.nextGeneration != 0 && (takeover.None? ==> o.ownership == Idle)
  }

  lemma AttemptFailedKeeps(o: Owner, g: nat, takeover: Option<nat>, left: bool)
    requires AttemptOver(o, g, takeover)
    ensures OwnerInv(AttemptFailed(o, g, takeover, left))
  {
    FailQueuedIs(o, Failed(AttemptError));
    FailQueuedWorkers(o, Failed(AttemptError));
    hide FailQueued, WorkersInv;
    WorkersFrame(FailQueued(o, Failed(AttemptError)), AttemptFailed(o, g, takeover, left));
  }

  lemma AttemptConnectedKeeps(o: Owner, g: nat, takeover: Option<nat>, untilTaken: nat, expired: set<nat>, demand: bool)
    requires AttemptOver(o, g, takeover)
    ensures OwnerInv(AttemptConnected(o, g, takeover, untilTaken, expired, demand))
  {
    hide WorkersInv, StartNext, ScheduleIdle;
    if !o.stopping && (|o.queue| != 0 || takeover.Some?) {
      var o1 := Answered(Spawn(o.(generation := Some(g), ownership := Active), Watch(g)), takeover, Success);
      WorkersFrame(o, o1);
      StartNextIs(o1, untilTaken, expired);
      ScheduleIdleKeeps(StartNext(o1, untilTaken, expired), demand);
    } else {
      WorkersFrame(o, AttemptConnected(o, g, takeover, untilTaken, expired, demand));
    }
  }

  lemma AttemptDoneKeeps(o: Owner, g: nat, connection: Connection, expired: set<nat>, untilTaken: nat, expiredLater: set<nat>, demand: bool)
    requires OwnerInv(o)
    ensures OwnerInv(DoAttemptDone(o, g, connection, expired, untilTaken, expiredLater, demand))
  {
    hide WorkersInv, AttemptConnected, AttemptFailed, SettleCanceled, FilterQueue;
    if o.attempt.None? || o.attempt.value.generation != g {
      WorkersFrame(o, DoAttemptDone(o, g, connection, expired, untilTaken, expiredLater, demand));
    } else {
      var takeover := o.attempt.value.takeover;
      AfterAttemptIs(o, expired);
      AfterAttemptQueue(o, expired);
      var o2 := AfterAttempt(o, expired);
      AttemptConnectedKeeps(o2, g, takeover, untilTaken, expiredLater, demand);
      AttemptFailedKeeps(o2, g, takeover, connection.SessionLeft?);
    }
  }

  lemma AfterAttemptQueue(o: Owner, expired: set<nat>)
    ensures o.queue == [] ==> AfterAttempt(o, expired).queue == []
  {
    SettleCanceledIs(o.(attempt := None), o.nextWorker);
    var o1 := SettleCanceled(o.(attempt := None), o.nextWorker);
    FilterShrinks(o1, o1.queue, [], expired);
    hide SettleCanceled, FilterQueue;
  }

  lemma WorkerDoneKeeps(o: Owner, worker: nat, g: nat, untilTaken: nat, expired: set<nat>, demand: bool)
    requires OwnerInv(o)
    ensures OwnerInv(DoWorkerDone(o, worker, g, untilTaken, expired, demand))
  {
    if worker in o.workers && o.workers[worker].generation != 0 && o.workers[worker].generation == g {
      var o1 := Settle(o, worker, Own);
      assert WorkersInv(o1);
      hide WorkersInv, StartNext, ScheduleIdle;
      StartNextIs(o1, untilTaken, expired);
      ScheduleIdleKeeps(StartNext(o1, untilTaken, expired), demand);
    }
  }

  lemma GenerationEndedKeeps(o: Owner, g: nat, recognized: bool)
    requires OwnerInv(o)
    ensures OwnerInv(DoGenerationEnded(o, g, recognized))
  {
    hide WorkersInv, FailQueued;
    if o.generation == Some(g) {
      var terminal, cause := if recognized then TakenOver else Uncertain, if recognized then SessionTakenOver else OwnershipUncertain;
      var validated := o.validation.Some? && o.validation.value.generation == g;
      var o1 := o.(ownership := terminal, validation := if validated then None else o.validation);
      WorkersFrame(o, o1);
      FailQueuedIs(o1, NotSent(cause));
      FailQueuedWorkers(o1, NotSent(cause));
      WorkersFrame(FailQueued(o1, NotSent(cause)), DoGenerationEnded(o, g, recognized));
    }
  }

  lemma TakeoverRecognizedKeeps(o: Owner, g: nat)
    requires OwnerInv(o)
    ensures OwnerInv(DoTakeoverRecognized(o, g))
  {
    hide WorkersInv, FailQueued;
    if !o.stopping && (PendingTerminal(o, g) || CompletedTerminal(o, g)) {
      var o1 := o.(ownership := TakenOver,
                   cleanup := if PendingTerminal(o, g) then Some(o.cleanup.value.(target := TakenOver)) else o.cleanup);
      WorkersFrame(o, o1);
      FailQueuedIs(o1, NotSent(SessionTakenOver));
      FailQueuedWorkers(o1, NotSent(SessionTakenOver));
    }
  }

  lemma IdleExpiredKeeps(o: Owner, g: nat, demand: bool)
    requires OwnerInv(o)
    ensures OwnerInv(DoIdleExpired(o, g, demand))
  {
    WorkersFrame(o, DoIdleExpired(o, g, demand));
    hide WorkersInv;
  }

  lemma CleanupFailedKeeps(o: Owner)
    requires OwnerInv(o) && o.cleanup.Some?
    ensures OwnerInv(CleanupFailed(o))
  {
    hide WorkersInv, FailQueued;
    var o1 := o.(cleanup := Some(o.cleanup.value.(failed := true, reply := None, takeover := None)), ownership := Uncertain);
    WorkersFrame(o, o1);
    FailQueuedIs(o1, NotSent(Busy));
    FailQueuedWorkers(o1, NotSent(Busy));
    WorkersFrame(FailQueued(o1, NotSent(Busy)), CleanupFailed(o));
  }

  lemma ResumeKeeps(o: Owner, takeover: Option<nat>, permitTakeover: bool, permitQueue: bool)
    requires OwnerInv(o)
    ensures OwnerInv(Resume(o, takeover, permitTakeover, permitQueue))
  {
    hide WorkersInv, FailQueued, PhaseInv;
    StartAttemptKeeps(o, takeover, permitTakeover);
    hide StartAttempt;
    var (o1, err) := if takeover.Some? then StartAttempt(o, takeover, permitTakeover) else (o, None);
    var o2 := if err.Some? then Answered(o1, takeover, err.value) else o1;
    AnsweredKeeps(o1, takeover, if err.Some? then err.value else Success);
    StartAttemptKeeps(o2, None, permitQueue);
    var (o3, failed) := StartAttempt(o2, None, permitQueue);
    if failed.Some? {
      FailQueuedKeeps(o3, failed.value);
    }
  }

  lemma AnsweredKeeps(o: Owner, to: Option<nat>, verdict: Verdict)
    requires OwnerInv(o)
    ensures OwnerInv(Answered(o, to, verdict))
  {
    WorkersFrame(o, Answered(o, to, verdict));
    hide WorkersInv;
  }

  lemma FailQueuedKeeps(o: Owner, verdict: Verdict)
    requires OwnerInv(o)
    ensures OwnerInv(FailQueued(o, verdict))
  {
    FailQueuedIs(o, verdict);
    FailQueuedWorkers(o, verdict);
    hide WorkersInv, FailQueued;
  }

  lemma ClosedKeeps(o: Owner, recognized: bool)
    requires OwnerInv(o) && o.cleanup.Some?
    ensures OwnerInv(Closed(o, recognized))
  {
    WorkersFrame(o, Closed(o, recognized));
    hide WorkersInv;
  }

  lemma CleanupDoneKeeps(o: Owner, g: nat, closed: bool, recognized: bool, permitTakeover: bool, permitQueue: bool)
    requires OwnerInv(o)
    ensures OwnerInv(DoCleanupDone(o, g, closed, recognized, permitTakeover, permitQueue))
  {
    hide OwnerInv, Resume, CleanupFailed, Closed;
    if o.cleanup.Some? && o.cleanup.value.generation == g {
      if closed {
        ClosedKeeps(o, recognized);
        ResumeKeeps(Closed(o, recognized), o.cleanup.value.takeover, permitTakeover, permitQueue);
      } else {
        CleanupFailedKeeps(o);
      }
    }
  }

  lemma RetryKeeps(o: Owner, c: Cleanup)
    requires OwnerInv(o) && o.cleanup.Some? && o.cleanup.value.failed && c.generation == o.cleanup.value.generation
    requires (c.target == Released && c.reply.Some? && c.takeover.None?) || (c.target == o.cleanup.value.target && c.reply.None? && c.takeover.Some?)
    ensures OwnerInv(RetryCleanup(o, c))
  {
    WorkersFrame(o, RetryCleanup(o, c));
    hide WorkersInv;
  }

  lemma ReleaseNowKeeps(o: Owner, reply: nat)
    requires OwnerInv(o) && !o.stopping && o.attempt.None? && (o.cleanup.Some? ==> o.cleanup.value.failed)
    ensures OwnerInv(ReleaseNow(o, reply))
  {
    var r := ReleaseNow(o, reply);
    hide WorkersInv, RetryCleanup;
    if o.ownership != Released && o.generation.None? && o.cleanup.Some? {
      RetryKeeps(o, o.cleanup.value.(target := Released, reply := Some(reply)));
    } else {
      WorkersFrame(o, r);
    }
  }

  lemma ReleaseKeeps(o: Owner, reply: nat, demand: bool)
    requires OwnerInv(o)
    ensures OwnerInv(DoRelease(o, reply, demand))
  {
    hide WorkersInv, PhaseInv, ReleaseNow;
    AnsweredKeeps(o, Some(reply), NotSent(SessionClosed));
    AnsweredKeeps(o, Some(reply), NotSent(Busy));
    if !o.stopping && o.attempt.None? && (o.cleanup.Some? ==> o.cleanup.value.failed) {
      ReleaseNowKeeps(o, reply);
    }
  }

  lemma TakeOverKeeps(o: Owner, reply: nat, demand: bool, permit: bool)
    requires OwnerInv(o)
    ensures OwnerInv(DoTakeOver(o, reply, demand, permit))
  {
    hide WorkersInv, PhaseInv, TakeOverNow;
    AnsweredKeeps(o, Some(reply), NotSent(SessionClosed));
    AnsweredKeeps(o, Some(reply), NotSent(Busy));
    if !o.stopping && o.attempt.None? && o.validation.None? {
      TakeOverNowKeeps(o, reply, permit);
    }
  }

  lemma TakeOverNowKeeps(o: Owner, reply: nat, permit: bool)
    requires OwnerInv(o) && !o.stopping && o.attempt.None? && o.validation.None?
    ensures OwnerInv(TakeOverNow(o, reply, permit))
  {
    var r := TakeOverNow(o, reply, permit);
    StartAttemptKeeps(o, Some(reply), permit);
    StartAttemptIs(o, Some(reply), permit);
    hide WorkersInv, RetryCleanup, StartAttempt;
    if o.cleanup.Some? && o.cleanup.value.failed {
      RetryKeeps(o, o.cleanup.value.(takeover := Some(reply), reply := None));
    } else {
      WorkersFrame(o, r);
    }
  }

  lemma ValidationDoneKeeps(o: Owner, g: nat, failed: bool, lost: bool, demand: bool)
    requires OwnerInv(o)
    ensures OwnerInv(DoValidationDone(o, g, failed, lost, demand))
  {
    WorkersFrame(o, DoValidationDone(o, g, failed, lost, demand));
    hide WorkersInv;
  }

  /** What stopping does to the queue. */
  function StopQueue(o: Owner): Owner {
    var s := o.(stopping := true, idleArmed := false);
    if s.attempt.Some? then CancelAll(s, s.queue).(queue := []) else FailQueued(s, NotSent(SessionClosed))
  }

  lemma StopQueueIs(o: Owner)
    requires WorkersInv(o)
    ensures var r := StopQueue(o);
            (&& WorkersInv(r) && r.queue == [] && r.workers.Keys <= o.workers.Keys
             && r == o.(stopping := true, idleArmed := false, workers := r.workers, replies := r.replies, queue := []))
  {
    var s := o.(stopping := true, idleArmed := false);
    WorkersFrame(o, s);
    if o.attempt.Some? {
      CancelAllIs(s, s.queue);
      hide CancelAll;
    } else {
      FailQueuedIs(s, NotSent(SessionClosed));
      FailQueuedWorkers(s, NotSent(SessionClosed));
      hide FailQueued, WorkersInv;
    }
  }

  lemma StopKeeps(o: Owner, reply: nat)
    requires OwnerInv(o)
    ensures OwnerInv(DoStop(o, reply))
  {
    hide WorkersInv, CancelAll, FailQueued;
    if o.stopping {
      WorkersFrame(o, DoStop(o, reply));
    } else {
      StopQueueIs(o);
      WorkersFrame(StopQueue(o), DoStop(o, reply));
    }
  }

  lemma FinishKeeps(o: Owner)
    requires OwnerInv(o)
    ensures OwnerInv(FinishIfStopped(o))
  {
    AnswerAllIs(o, o.stopWaiters, if o.cleanup.Some? then Failed(CloseError) else Success);
    hide AnswerAll;
    WorkersFrame(o, FinishIfStopped(o));
    hide WorkersInv;
  }

  lemma HandleKeeps(o: Owner, c: Command)
    requires OwnerInv(o)
    ensures OwnerInv(Handle(o, c))
  {
    hide OwnerInv, DoRegister, DoCancel, DoAttemptDone, DoWorkerDone, DoGenerationEnded, DoTakeoverRecognized, DoIdleExpired, DoCleanupDone, DoRelease, DoTakeOver, DoValidationDone, DoStop, ScheduleIdle;
    match c
    case Register(permit, untilTaken, expired) => RegisterKeeps(o, permit, untilTaken, expired);
    case Cancel(worker) => CancelKeeps(o, worker);
    case AttemptDone(g, connection, expired, untilTaken, expiredLater, demand) => AttemptDoneKeeps(o, g, connection, expired, untilTaken, expiredLater, demand);
    case WorkerDone(worker, g, untilTaken, expired, demand) => WorkerDoneKeeps(o, worker, g, untilTaken, expired, demand);
    case GenerationEnded(g, recognized) => GenerationEndedKeeps(o, g, recognized);
    case TakeoverRecognized(g) => TakeoverRecognizedKeeps(o, g);
    case IdleExpired(g, demand) => IdleExpiredKeeps(o, g, demand);
    case DemandChanged(demand) => ScheduleIdleKeeps(o, demand);
    case CleanupDone(g, closed, recognized, permitTakeover, permitQueue) => CleanupDoneKeeps(o, g, closed, recognized, permitTakeover, permitQueue);
    case Release(reply, demand) => ReleaseKeeps(o, reply, demand);
    case TakeOver(reply, demand, permit) => TakeOverKeeps(o, reply, demand, permit);
    case ValidationDone(g, failed, lost, demand) => ValidationDoneKeeps(o, g, failed, lost, demand);
    case Stop(reply) => StopKeeps(o, reply);
  }

  lemma TurnKeeps(o: Owner, c: Command)
    requires OwnerInv(o)
    ensures OwnerInv(Turn(o, c))
  {
    hide OwnerInv, Handle, FinishIfStopped;
    if !o.finished {
      HandleKeeps(o, c);
      FinishKeeps(Handle(o, c));
    }
  }
}
