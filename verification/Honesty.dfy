/** What a caller is told about its operation, across the owner, the session, the data channel and the
    classifiers. */
module Honesty {
  import opened Options
  import opened OwnerModel
  import opened OwnerBooks
  import opened OwnerTasks
  import opened OwnerMoves
  import S = OwnerSafety
  import opened OwnerLogs
  import opened OwnerRuns
  import opened OwnerStarts
  import E = Evidence
  import H = HidModel
  import HidRuns
  import R = HidReports
  import U = UploadModel
  import C = Classifiers
  import P = RpcRuns
  import O = OwnerOwnership
  import T = OwnerTakeover

  // ---- One operation, from its gates to its error ----

  datatype Work = HidWork(op: H.Operation) | UploadWork(f: U.Findings, mount: bool) | SingleWork(request: E.Request)

  function KindOf(work: Work): C.Class {
    if work.HidWork? then C.Hid else C.Mutation
  }

  /** `refused` is whether the context ended while the operation waited for the session's or the rpc gate;
      `failure` is its error, if it ends in one; `terminal` and `recognized` are whether the session has
      ended by then, and by a recognised takeover. */
  datatype Execution = Execution(
    work: Work, refused: bool, answers: seq<E.Answered>, takenOver: bool, failure: C.Failure, terminal: bool, recognized: bool)

  function Performed(work: Work, answers: seq<E.Answered>, takenOver: bool): (seq<E.Entry>, E.Called) {
    match work
    case HidWork(op) => var (s, called) := H.Perform(op, answers, takenOver); (s.trace, called)
    case UploadWork(f, mount) => var (s, called) := U.Upload(H.Session(H.PressedNone, [], answers), f, mount); (s.trace, called)
    case SingleWork(request) => (H.Call(H.Session(H.PressedNone, [], answers), request).trace, H.Answer(answers))
  }

  /** An operation refused at its gate does nothing. */
  function Scheduled(x: Execution): (seq<E.Entry>, E.Called) {
    if x.refused then ([], E.Err(E.NotSent)) else Performed(x.work, x.answers, x.takenOver)
  }

  /** An error as a plain result: an unclassified one says nothing. */
  function CalledOf(err: C.Failure): E.Called {
    E.Err(if err.Classified? then err.outcome else E.Unknown)
  }

  /** What a request reports is what the layer below really did: the call with that number has returned
      this on the data channel, the HTTP request ended like this, or the gate refused it. */
  ghost predicate FromBelow(a: E.Answered, w: P.World) {
    match a.route
    case Rpc(id) => P.At(w, id, P.Returned(a.called))
    case Http(_) => exists post :: a == U.PostUpload(post)
    case Refused => a.called == E.Err(E.NotSent)
  }

  ghost predicate Consistent(x: Execution, w: P.World) {
    && (forall a | a in x.answers :: FromBelow(a, w))
    && (Scheduled(x).1.Err? ==> CalledOf(x.failure) == Scheduled(x).1)
  }

  /** The error the worker's goroutine sends back. */
  function Completion(x: Execution): Option<C.Failure> {
    if Scheduled(x).1.Ok? then None else Some(C.TerminalCompletion(x.failure, x.terminal, KindOf(x.work), x.recognized))
  }

  /** On every interleaving of the data channel no call that reports not_sent was handed to the sender. */
  lemma AnswersReliable(answers: seq<E.Answered>, steps: seq<P.Step>)
    requires P.IsRun(steps) && forall a | a in answers :: FromBelow(a, P.Run(steps))
    ensures E.Reliable(answers, P.Run(steps).wire)
  {
    hide P.Run, P.IsRun;
    forall a | a in answers && a.called == E.Err(E.NotSent)
      ensures !E.OnWire(a.route, P.Run(steps).wire)
    {
      assert FromBelow(a, P.Run(steps));
      if a.route.Rpc? {
        P.Correlation(steps, a.route.id);
      }
    }
  }

  lemma ScheduledTruthful(x: Execution, wire: set<nat>)
    requires E.Reliable(x.answers, wire)
    ensures E.Truthful(Scheduled(x).0, Scheduled(x).1, wire)
  {
    hide H.Perform, U.Upload, E.Untouched, E.Reliable, H.Call, H.Answer, H.RouteOf;
    NothingUntouched(wire);
    if !x.refused {
      match x.work {
        case HidWork(op) => HidRuns.HidTruthful(op, x.answers, x.takenOver, wire);
        case UploadWork(f, mount) => U.UploadTruthful(x.answers, f, mount, wire);
        case SingleWork(request) => HidRuns.CallUntouched(H.Session(H.PressedNone, [], x.answers), request, wire);
      }
    }
  }

  lemma NothingUntouched(wire: set<nat>)
    ensures E.Untouched([], wire)
  {
  }

  // ---- What the caller is told ----

  /** Where `RunPrepared` gets its answer from: the worker's reply, the answer to its cancellation, or the
      exit of the owner's loop. */
  datatype Arm = ReplyArm | CancelArm(preDispatch: bool) | DoneArm

  function CauseOf(cause: Cause): C.Cause {
    match cause
    case SessionClosed => C.Unavailable
    case Busy => C.Busy
    case ContextEnded => C.Canceled
    case SessionReleased => C.SessionReleased
    case SessionTakenOver => C.SessionTakenOver
    case OwnershipUncertain => C.OwnershipUncertain
    case _ => C.OtherCause
  }

  /** `attempt` is how a failed connection was classified. */
  function ReplyError(verdict: Verdict, x: Execution, attempt: C.Failure): Option<C.Failure> {
    match verdict
    case Success => None
    case NotSent(cause) => Some(C.Classify(CauseOf(cause), false, E.NotSent))
    case Failed(_) => Some(attempt)
    case Own => Completion(x)
  }

  function Told(arm: Arm, verdict: Verdict, x: Execution, attempt: C.Failure): Option<C.Failure> {
    if arm.DoneArm? || (arm.CancelArm? && arm.preDispatch) then Some(C.Classify(C.Canceled, true, E.NotSent))
    else ReplyError(verdict, x, attempt)
  }

  /** Of a worker's operation there is no trace unless it was started. */
  function TraceOf(o: Owner, worker: nat, x: Execution): seq<E.Entry> {
    if StartCount(o.spawned, worker) == 0 then [] else Scheduled(x).0
  }

  /** If the tool result says not_sent, no mutating request of the operation is on the wire. */
  predicate HonestlyTold(told: Option<C.Failure>, mutation: bool, trace: seq<E.Entry>, wire: set<nat>) {
    told.Some? && C.ToolErrorOf(told.value, mutation).outcome == E.NotSent ==> E.Untouched(trace, wire)
  }

  lemma ToldNotSent(told: C.Failure, mutation: bool)
    ensures C.ToolErrorOf(told, mutation).outcome == E.NotSent <==> CalledOf(told) == E.Err(E.NotSent)
  {
    C.ToolResultKeepsEvidence(told, mutation);
    hide C.ToolErrorOf;
  }

  /** From the operation's own error, through the end of its session, to the tool result. */
  lemma CompletionHonest(x: Execution, mutation: bool, wire: set<nat>)
    requires E.Reliable(x.answers, wire) && (Scheduled(x).1.Err? ==> CalledOf(x.failure) == Scheduled(x).1)
    ensures HonestlyTold(Completion(x), mutation, Scheduled(x).0, wire)
  {
    ScheduledTruthful(x, wire);
    if Scheduled(x).1.Err? {
      var told := C.TerminalCompletion(x.failure, x.terminal, KindOf(x.work), x.recognized);
      C.TerminalKeepsEvidence(x.failure, x.terminal, KindOf(x.work), x.recognized);
      ToldNotSent(told, mutation);
    }
    hide Scheduled, E.Reliable, E.Untouched, C.TerminalCompletion, C.ToolErrorOf;
  }

  // ---- Cancellation ----

  lemma {:induction false} AnswerRepliesStay(o: Owner, waiters: seq<nat>, verdict: Verdict)
    ensures AnswerAll(o, waiters, verdict).replies == o.replies
    decreases |waiters|
  {
    if waiters != [] {
      AnswerRepliesStay(Answered(o, Some(waiters[0]), verdict), waiters[1..], verdict);
    }
  }

  lemma FinishReplies(o: Owner)
    ensures FinishIfStopped(o).replies == o.replies
  {
    AnswerRepliesStay(o, o.stopWaiters, if o.cleanup.Some? then Failed(CloseError) else Success);
  }

  lemma CancelReplies(w: World, worker: nat)
    requires !w.o.finished && LastAck(OwnerAfter(w, Abandon(worker))) == CancelAnswer(true)
    ensures Reply(worker, NotSent(ContextEnded)) in OwnerAfter(w, Abandon(worker)).replies
  {
    hide FinishIfStopped, Without;
    var o := DoCancel(w.o, worker);
    FinishMatters(o);
    FinishReplies(o);
    assert OwnerAfter(w, Abandon(worker)) == FinishIfStopped(o);
    assert o.acks[|o.acks| - 1] == CancelAnswer(true);
    assert o.replies == w.o.replies + [Reply(worker, NotSent(ContextEnded))];
  }

  lemma {:induction false} RunGrows(ownership: Ownership, events: seq<Event>, later: seq<Event>)
    requires IsRun(ownership, events + later)
    ensures IsRun(ownership, events)
    ensures Grown(Run(ownership, events).o, Run(ownership, events + later).o)
    decreases |later|
  {
    hide After, Possible, Grown;
    if later == [] {
      assert events + later == events;
      Unturned(Run(ownership, events).o);
    } else {
      var n := |later| - 1;
      assert (events + later)[..|events + later| - 1] == events + later[..n];
      RunGrows(ownership, events, later[..n]);
      var m := Run(ownership, events + later[..n]);
      EventGrows(m, later[n]);
      GrownTwice(Run(ownership, events).o, m.o, After(m, later[n]).o);
    }
  }

  lemma EventGrows(w: World, e: Event)
    ensures Grown(w.o, After(w, e).o)
  {
    if CommandOf(w, e).Some? {
      TurnGrows(w.o, CommandOf(w, e).value);
    }
    hide Turn, CommandOf;
  }

  /** An accepted cancellation comes with the worker's reply; now and in every later state that is the only
      reply the worker gets, it is not its operation's, and the operation is never started. */
  lemma CancelAnswersTruth(ownership: Ownership, events: seq<Event>, worker: nat, later: seq<Event>)
    requires ownership != Active && ownership != Stopped && IsRun(ownership, events + [Abandon(worker)] + later)
    requires LastAck(Run(ownership, events + [Abandon(worker)]).o) == CancelAnswer(true)
    ensures var o := Run(ownership, events + [Abandon(worker)] + later).o;
            (&& Reply(worker, NotSent(ContextEnded)) in o.replies
             && ReplyCount(o.replies, worker) == 1 && OwnCount(o.replies, worker) == 0 && StartCount(o.spawned, worker) == 0)
  {
    hide Run, IsRun, LastAck, ReplyCount, OwnCount, StartCount, After;
    var all := events + [Abandon(worker)] + later;
    RunGrows(ownership, events + [Abandon(worker)], later);
    LastEvent(ownership, events, Abandon(worker));
    CancelReplies(Run(ownership, events), worker) by {
      AfterOwner(Run(ownership, events), Abandon(worker));
    }
    AfterOwner(Run(ownership, events), Abandon(worker));
    assert Reply(worker, NotSent(ContextEnded)) in Run(ownership, all).o.replies;
    LoopVerdictMeansNotStarted(ownership, all, worker, NotSent(ContextEnded));
    CountsOfReply(Run(ownership, all).o.replies, worker, NotSent(ContextEnded));
    AtMostOneReply(ownership, all, worker, 0);
  }

  lemma LastEvent(ownership: Ownership, events: seq<Event>, e: Event)
    requires IsRun(ownership, events + [e])
    ensures Run(ownership, events + [e]) == After(Run(ownership, events), e) && Possible(Run(ownership, events), e)
  {
    assert (events + [e])[..|events + [e]| - 1] == events;
    hide After, Possible;
  }

  lemma AfterOwner(w: World, e: Event)
    ensures After(w, e).o == OwnerAfter(w, e)
    ensures e.Abandon? && Possible(w, e) ==> !w.o.finished
  {
    hide Turn;
  }

  // ---- Outcome honesty ----

  /** What `RunPrepared` has seen when it takes this arm in a run of the owner: the worker's reply; the
      acknowledgement of the cancellation that the loop handled as event `at`, and the reply too if that
      was refused; the exit of the loop. */
  ghost predicate Heard(ownership: Ownership, events: seq<Event>, worker: nat, arm: Arm, verdict: Verdict, at: nat) {
    match arm
    case ReplyArm => Reply(worker, verdict) in Run(ownership, events).o.replies
    case CancelArm(preDispatch) =>
      && at < |events| && events[at] == Abandon(worker)
      && LastAck(Run(ownership, events[..at + 1]).o) == CancelAnswer(preDispatch)
      && (preDispatch || Reply(worker, verdict) in Run(ownership, events).o.replies)
    case DoneArm => Run(ownership, events).o.finished
  }

  /** Outcome honesty across all layers. In every run of the owner and every interleaving of the data
      channel, whatever the operation, wherever it was refused, failed or was cut off: if its caller, told
      by the worker's reply or by the answer to its cancellation, gets a tool result of not_sent, no
      mutating request of the operation was handed to the sender. */
  lemma NotSentIsTrue(ownership: Ownership, events: seq<Event>, worker: nat, arm: Arm, verdict: Verdict, at: nat,
                      x: Execution, steps: seq<P.Step>, attempt: C.Failure, mutation: bool)
    requires ownership != Active && ownership != Stopped && IsRun(ownership, events)
    requires Heard(ownership, events, worker, arm, verdict, at) && !arm.DoneArm?
    requires P.IsRun(steps) && Consistent(x, P.Run(steps))
    ensures HonestlyTold(Told(arm, verdict, x, attempt), mutation, TraceOf(Run(ownership, events).o, worker, x), P.Run(steps).wire)
  {
    hide Run, IsRun, P.Run, P.IsRun, Scheduled, E.Untouched, Completion, C.ToolErrorOf, FromBelow, StartCount, LastAck;
    NothingUntouched(P.Run(steps).wire);
    if arm == CancelArm(true) {
      var before, later := events[..at], events[at + 1..];
      assert events[..at + 1] == before + [Abandon(worker)];
      assert events == before + [Abandon(worker)] + later;
      CancelAnswersTruth(ownership, before, worker, later);
    } else {
      LoopVerdictMeansNotStarted(ownership, events, worker, verdict);
      if verdict == Own {
        AnswersReliable(x.answers, steps);
        CompletionHonest(x, mutation, P.Run(steps).wire);
      }
    }
  }

  // ---- The loop's exit ----

  /** The arm that answers because the loop has exited is honest about this execution. */
  ghost predicate DoneHonest(o: Owner, worker: nat, x: Execution, steps: seq<P.Step>) {
    P.IsRun(steps) && Consistent(x, P.Run(steps)) ==>
      forall mutation: bool :: HonestlyTold(Told(DoneArm, Own, x, C.Foreign), mutation, TraceOf(o, worker, x), P.Run(steps).wire)
  }

  /** A call whose send fails is reported unknown and is on the wire. */
  function FailedSend(): seq<P.Step> {
    [P.Begin, P.TakeToken(1), P.Send(1, false, false), P.Remove(1)]
  }

  lemma RpcStep(steps: seq<P.Step>, step: P.Step)
    ensures P.Run(steps + [step]) == P.Do(P.Run(steps), step)
    ensures P.IsRun(steps + [step]) == (P.IsRun(steps) && P.Possible(P.Run(steps), step))
  {
    assert (steps + [step])[..|steps|] == steps;
    hide P.Do, P.Possible;
  }

  lemma FailedSendSteps()
    ensures var w1 := P.Do(P.NEW_WORLD, P.Begin);
            var w2 := P.Do(w1, P.TakeToken(1));
            var w3 := P.Do(w2, P.Send(1, false, false));
            var w4 := P.Do(w3, P.Remove(1));
            (&& P.Possible(P.NEW_WORLD, P.Begin) && P.Possible(w1, P.TakeToken(1)) && P.Possible(w2, P.Send(1, false, false)) && P.Possible(w3, P.Remove(1))
             && P.At(w4, 1, P.Returned(E.Err(E.Unknown))) && 1 in w4.wire)
  {
  }

  lemma FailedSendRuns()
    ensures P.IsRun(FailedSend())
    ensures var w := P.Run(FailedSend()); P.At(w, 1, P.Returned(E.Err(E.Unknown))) && 1 in w.wire
  {
    var a: seq<P.Step>, b: seq<P.Step>, c: seq<P.Step> := [P.Begin], [P.Begin, P.TakeToken(1)], [P.Begin, P.TakeToken(1), P.Send(1, false, false)];
    assert [] + [P.Begin] == a && a + [P.TakeToken(1)] == b && b + [P.Send(1, false, false)] == c && c + [P.Remove(1)] == FailedSend();
    NoRpcYet();
    RpcStep([], P.Begin);
    RpcStep(a, P.TakeToken(1));
    RpcStep(b, P.Send(1, false, false));
    RpcStep(c, P.Remove(1));
    FailedSendSteps();
    hide P.Run, P.IsRun, P.Do, P.Possible, FailedSend;
  }

  lemma NoRpcYet()
    ensures P.Run([]) == P.NEW_WORLD && P.IsRun([])
  {
  }

  /** A key press whose send failed. */
  function LostPress(): Execution {
    Execution(HidWork(H.Type([R.KeyReport(0, 4)])), false, [E.Answered(E.Err(E.Unknown), E.Rpc(1))], false,
              C.Classify(C.Unavailable, false, E.Unknown), false, false)
  }

  lemma PressedIsConsistent()
    ensures Consistent(LostPress(), P.Run(FailedSend())) && !E.Untouched(Scheduled(LostPress()).0, P.Run(FailedSend()).wire)
  {
    FailedSendRuns();
    hide P.Run, P.IsRun;
    var s := H.Session(H.PressedNone, [], LostPress().answers);
    var s1 := H.Call(s.(pressed := H.PressedKeyboard), E.KeyDown(0, 4));
    assert H.Keyboard(s, [R.KeyReport(0, 4)], 0) == (s1, E.Err(E.Unknown));
    assert Scheduled(LostPress()).0[0] == E.Sent(E.KeyDown(0, 4), E.Err(E.Unknown), E.Rpc(1));
  }

  /** The arm that answers because the loop has exited reads no reply. In every run whose loop has exited it
      is honest, about every execution there can have been, exactly when the reply it does not read is not
      the operation's own, that is when the operation was never handed to a session. */
  lemma DoneArmHonestIff(ownership: Ownership, events: seq<Event>, worker: nat, verdict: Verdict)
    requires ownership != Active && ownership != Stopped && IsRun(ownership, events)
    requires Run(ownership, events).o.finished && Reply(worker, verdict) in Run(ownership, events).o.replies
    ensures (forall x: Execution, steps: seq<P.Step> :: DoneHonest(Run(ownership, events).o, worker, x, steps)) <==> verdict != Own
  {
    hide Run, IsRun, P.Run, P.IsRun, Scheduled, E.Untouched, C.ToolErrorOf, Consistent, FailedSend, LostPress;
    LoopVerdictMeansNotStarted(ownership, events, worker, verdict);
    var o := Run(ownership, events).o;
    if verdict == Own {
      DoneLies(o, worker);
    } else {
      forall x: Execution, steps: seq<P.Step>
        ensures DoneHonest(o, worker, x, steps)
      {
        NothingUntouched(P.Run(steps).wire);
      }
    }
  }

  lemma DoneLies(o: Owner, worker: nat)
    requires StartCount(o.spawned, worker) != 0
    ensures !DoneHonest(o, worker, LostPress(), FailedSend())
  {
    FailedSendRuns();
    PressedIsConsistent();
    LiesAbout(o, worker);
    hide P.Run, P.IsRun, Scheduled, E.Untouched, C.ToolErrorOf, Consistent, FailedSend, LostPress;
  }

  /** Only the loop's own end is missing. */
  predicate Stopping(o: Owner, g: nat) {
    && o.stopping && !o.finished && o.attempt.None? && o.validation.None? && o.generation.None? && o.queue == []
    && o.cleanup == Some(Cleanup(g, Stopped, false, None, None, true))
  }

  lemma StopTurn(o: Owner, g: nat, caller: nat)
    requires o.generation == Some(g) && o.attempt.None? && o.cleanup.None? && o.validation.None? && o.queue == [] && !o.stopping && !o.finished
    ensures var r := Turn(o, Stop(caller)); Stopping(r, g) && r.workers == o.workers
  {
    var s := o.(stopping := true, idleArmed := false);
    assert FailQueued(s, NotSent(SessionClosed)) == s;
    hide FailQueued;
  }

  lemma DoneTurn(o: Owner, g: nat, worker: nat)
    requires Stopping(o, g) && o.workers == map[worker := Worker(g, false)] && g != 0
    ensures var r := Turn(o, WorkerDone(worker, g, 1, {}, false));
            Stopping(r, g) && r.workers == map[] && Reply(worker, Own) in r.replies
  {
    var s := Settle(o, worker, Own);
    assert s.workers == map[];
    assert s.replies[|o.replies|] == Reply(worker, Own);
    assert Handle(o, WorkerDone(worker, g, 1, {}, false)) == s;
    hide Handle;
  }

  lemma CloseTurn(o: Owner, g: nat, recognized: bool)
    requires Stopping(o, g) && o.workers == map[]
    ensures var r := Turn(o, CleanupDone(g, true, recognized, false, false));
            r.finished && r.replies == o.replies
  {
    var s := Closed(o, recognized);
    assert Handle(o, CleanupDone(g, true, recognized, false, false)) == s;
    FinishReplies(s);
    hide Handle;
  }

  /** It does happen: from any state with one worker at work, a stop, the operation's end and the closing
      of the session make the loop exit with the operation's own result in the reply nobody reads. */
  lemma LoopExitsWithReply(w: World, g: nat, worker: nat, caller: nat)
    requires WorldInv(w) && !w.o.finished && caller !in w.asked
    requires w.o.generation == Some(g) && w.o.validation.None? && w.o.queue == [] && w.o.workers == map[worker := Worker(g, false)] && !w.o.stopping
    ensures var w1 := After(w, Shutdown(caller));
            var w2 := After(w1, OperationReturns(worker, g, 1, {}, false));
            var w3 := After(w2, CloseReturns(g, true, false, false));
            (&& Possible(w, Shutdown(caller)) && Possible(w1, OperationReturns(worker, g, 1, {}, false)) && Possible(w2, CloseReturns(g, true, false, false))
             && w3.o.finished && Reply(worker, Own) in w3.o.replies)
  {
    LiveParts(w, g);
    hide WorldInv, Turn, InFlight, After, Possible, Stopping;
    ShutdownStep(w, g, caller);
    StepKeeps(w, Shutdown(caller));
    var w1 := After(w, Shutdown(caller));
    ReturnStep(w1, g, worker);
    StepKeeps(w1, OperationReturns(worker, g, 1, {}, false));
    ExitCloses(After(w1, OperationReturns(worker, g, 1, {}, false)), g, worker);
  }

  lemma ShutdownStep(w: World, g: nat, caller: nat)
    requires w.o.generation == Some(g) && w.o.attempt.None? && w.o.cleanup.None? && w.o.validation.None? && w.o.queue == []
    requires !w.o.stopping && !w.o.finished && caller !in w.asked
    ensures Possible(w, Shutdown(caller))
    ensures var v := After(w, Shutdown(caller)); Stopping(v.o, g) && v.o.workers == w.o.workers
  {
    hide Turn, Stopping;
    StopTurn(w.o, g, caller);
  }

  lemma ReturnStep(w: World, g: nat, worker: nat)
    requires WorldInv(w) && Stopping(w.o, g) && g != 0 && w.o.workers == map[worker := Worker(g, false)]
    ensures Possible(w, OperationReturns(worker, g, 1, {}, false))
    ensures var v := After(w, OperationReturns(worker, g, 1, {}, false));
            Stopping(v.o, g) && v.o.workers == map[] && Reply(worker, Own) in v.o.replies
  {
    EndsPossible(w, OperationReturns(worker, g, 1, {}, false), g, worker);
    hide Turn, Stopping, Possible, WorldInv;
    DoneTurn(w.o, g, worker);
  }

  lemma ExitCloses(w: World, g: nat, worker: nat)
    requires WorldInv(w) && Stopping(w.o, g) && g != 0 && w.o.workers == map[] && Reply(worker, Own) in w.o.replies
    ensures Possible(w, CloseReturns(g, true, false, false))
    ensures var v := After(w, CloseReturns(g, true, false, false)); v.o.finished && Reply(worker, Own) in v.o.replies
  {
    EndsPossible(w, CloseReturns(g, true, false, false), g, worker);
    hide Turn, Stopping, Possible, WorldInv;
    CloseTurn(w.o, g, g in w.recognized);
  }

  lemma LiveParts(w: World, g: nat)
    requires WorldInv(w) && w.o.generation == Some(g)
    ensures w.o.attempt.None? && w.o.cleanup.None? && g != 0
  {
    hide S.WorkersInv, BooksInv, TasksInv, LatchInv, WatchInv, Tidy;
  }

  lemma EndsPossible(w: World, e: Event, g: nat, worker: nat)
    requires WorldInv(w) && Stopping(w.o, g) && g != 0
    requires (e == OperationReturns(worker, g, 1, {}, false) && w.o.workers == map[worker := Worker(g, false)]) || e == CloseReturns(g, true, false, false)
    ensures Possible(w, e)
  {
    TasksOf(w);
    InFlightIsAwaited(w, TaskOf(e).value);
    hide WorldInv, TasksInv, InFlight;
  }

  lemma TasksOf(w: World)
    requires WorldInv(w)
    ensures TasksInv(w)
  {
    hide S.OwnerInv, BooksInv, TasksInv, LatchInv, WatchInv, Tidy;
  }

  // ---- Such a run ----

  /** One operation is registered, connected for and started. */
  function FirstOperation(): seq<Event> {
    [Admit, Submit(true, 1, {}), AttemptReturns(1, Connected, {}, 2, {}, false)]
  }

  /** It is still at work when the owner is stopped, then returns, and the session is closed. */
  function ExitsUnread(): seq<Event> {
    [Shutdown(0), OperationReturns(1, 1, 1, {}, false), CloseReturns(1, true, false, false)]
  }

  predicate FirstQueued(o: Owner) {
    && o.workers == map[1 := Worker(0, false)] && o.queue == [1] && o.attempt == Some(Attempt(1, None))
    && o.validation.None? && o.cleanup.None? && o.generation.None? && !o.stopping && !o.finished && o.nextWorker == 1
    && o.spawned == [Connect(1)] && o.acks == [Accepted(1)]
  }

  lemma SubmittedTurn()
    ensures FirstQueued(Turn(NewOwner(Idle), Register(true, 1, {})))
  {
    assert [] + [Connect(1)] == [Connect(1)];
  }

  predicate FirstAtWork(o: Owner) {
    && o.generation == Some(1) && o.workers == map[1 := Worker(1, false)] && o.queue == [] && o.validation.None? && !o.stopping && !o.finished
  }

  lemma FirstConnected(o: Owner)
    requires FirstQueued(o)
    ensures FirstAtWork(Turn(o, AttemptDone(1, Connected, {}, 2, {}, false)))
  {
    var o1 := o.(attempt := None);
    assert SettleCanceled(o1, 1) == o1;
    assert FilterQueue(o1, [1], [], {}) == o1;
    var o2 := Answered(Spawn(o1.(generation := Some(1), ownership := Active), Watch(1)), None, Success);
    var o3 := HandOver(o2, 1, {});
    assert o3.queue == [] && o3.workers == map[1 := Worker(1, false)];
    assert Dispatch(o3, 1, 1, {}) == o3;
    assert Dispatch(o2, 1, 2, {}) == o3;
    assert StartNext(o2, 2, {}) == o3;
  }

  lemma AdmitStep(w: World)
    requires w == NewWorld(Idle)
    ensures Possible(w, Admit) && After(w, Admit) == w.(ordinary := 1)
  {
  }

  lemma FirstSubmits(w: World)
    requires w == NewWorld(Idle).(ordinary := 1)
    ensures Possible(w, Submit(true, 1, {}))
    ensures var v := After(w, Submit(true, 1, {}));
            v.o == Turn(w.o, Register(true, 1, {})) && v.returned == multiset{} && v.asked == {}
  {
    hide Turn, LastAck;
  }

  lemma FirstConnects(w: World)
    requires FirstQueued(w.o) && w.returned == multiset{}
    ensures var e := AttemptReturns(1, Connected, {}, 2, {}, false);
            Possible(w, e) && After(w, e).o == Turn(w.o, AttemptDone(1, Connected, {}, 2, {}, false)) && After(w, e).asked == w.asked
  {
    assert TaskCount([Connect(1)], Connect(1)) == 1;
    hide Turn;
  }

  lemma FirstOperationRuns()
    ensures IsRun(Idle, FirstOperation())
    ensures FirstAtWork(Run(Idle, FirstOperation()).o) && Run(Idle, FirstOperation()).asked == {}
  {
    var w1 := After(NewWorld(Idle), Admit);
    var w2 := After(w1, Submit(true, 1, {}));
    AdmitStep(NewWorld(Idle));
    FirstSubmits(w1);
    SubmittedTurn();
    FirstConnects(w2);
    FirstConnected(w2.o);
    Three(NewWorld(Idle), Admit, Submit(true, 1, {}), AttemptReturns(1, Connected, {}, 2, {}, false));
    T.RunAppend(Idle, [], FirstOperation());
    assert [] + FirstOperation() == FirstOperation();
    hide Turn, After, Possible, FirstQueued, FirstAtWork, O.RunFrom, O.IsRunFrom;
  }

  lemma Three(w: World, a: Event, b: Event, c: Event)
    ensures O.RunFrom(w, [a, b, c]) == After(After(After(w, a), b), c)
    ensures O.IsRunFrom(w, [a, b, c]) == (Possible(w, a) && Possible(After(w, a), b) && Possible(After(After(w, a), b), c))
  {
    hide After, Possible;
    T.RunFromCons(w, a, [b, c]);
    T.TwoSteps(After(w, a), b, c);
    assert [a] + [b, c] == [a, b, c];
  }

  /** From the start: a run whose loop exits with the operation's own result unread, an execution of the
      operation that put a key press on the wire, and the exit arm reporting not_sent. */
  lemma DoneArmMayLie()
    ensures var events := FirstOperation() + ExitsUnread();
            var o := Run(Idle, events).o;
            (&& IsRun(Idle, events) && o.finished && Reply(1, Own) in o.replies
             && P.IsRun(FailedSend()) && Consistent(LostPress(), P.Run(FailedSend()))
             && !HonestlyTold(Told(DoneArm, Own, LostPress(), C.Foreign), true, TraceOf(o, 1, LostPress()), P.Run(FailedSend()).wire))
  {
    hide Run, IsRun, P.Run, P.IsRun, Scheduled, E.Untouched, C.ToolErrorOf, Consistent, FailedSend, LostPress, WorldInv, After, Possible, O.RunFrom, O.IsRunFrom,
         FirstOperation, StartCount;
    var events := FirstOperation() + ExitsUnread();
    FirstOperationRuns();
    var w := Run(Idle, FirstOperation());
    EveryRun(Idle, FirstOperation());
    LoopExitsWithReply(w, 1, 1, 0);
    Three(w, Shutdown(0), OperationReturns(1, 1, 1, {}, false), CloseReturns(1, true, false, false));
    T.RunAppend(Idle, FirstOperation(), ExitsUnread());
    LoopVerdictMeansNotStarted(Idle, events, 1, Own);
    FailedSendRuns();
    PressedIsConsistent();
    LiesAbout(Run(Idle, events).o, 1);
  }

  lemma LiesAbout(o: Owner, worker: nat)
    requires StartCount(o.spawned, worker) != 0
    ensures !HonestlyTold(Told(DoneArm, Own, LostPress(), C.Foreign), true, TraceOf(o, worker, LostPress()), P.Run(FailedSend()).wire)
  {
    PressedIsConsistent();
    ToldNotSent(C.Classify(C.Canceled, true, E.NotSent), true);
    hide P.Run, Scheduled, E.Untouched, C.ToolErrorOf, Consistent, FailedSend, LostPress;
  }
}
