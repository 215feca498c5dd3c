/** The order of requests in which a media file is uploaded and mounted, and what is reported when one of
    them fails. */
module UploadModel {
  import opened Evidence
  import opened HidModel
  import opened HidRuns

  /** What the device and the file system turn out to hold: leftovers of earlier uploads, whether the
      device negotiates a fresh upload with a well-formed identifier, whether the bytes sent hash to the
      prepared digest, and whether the file is still the same afterwards. */
  datatype Findings = Findings(hasIncomplete: bool, hasComplete: bool, negotiated: bool, idValid: bool, digestsAgree: bool, sameFile: bool)

  /** The HTTP request behind one upload call: what stops it, in order, and whether the client was given
      it. */
  datatype Post = BadTarget | Unbuilt | Unreachable | BadResponse | Done

  function PostUpload(post: Post): Answered {
    match post
    case BadTarget => Answered(Err(NotSent), Http(false))
    case Unbuilt => Answered(Err(NotSent), Http(false))
    case Unreachable => Answered(Err(Unknown), Http(true))
    case BadResponse => Answered(Err(Unknown), Http(true))
    case Done => Answered(Ok, Http(true))
  }

  function DeleteIf(s: Session, present: bool, complete: bool, mutated: bool): (Session, Called, bool) {
    if !present then (s, Ok, mutated)
    else if Answer(s.answers).Err? then (Call(s, DeleteFile(complete)), Answer(s.answers), mutated)
    else (Call(s, DeleteFile(complete)), Ok, true)
  }

  /** Delete what earlier uploads left; the flag says whether anything was deleted. */
  function Discard(s: Session, f: Findings): (Session, Called, bool) {
    var s1 := Call(s, ListFiles);
    if Answer(s.answers).Err? then (s1, Err(NotSent), false)
    else
      var (s2, called, mutated) := DeleteIf(s1, f.hasIncomplete, false, false);
      if called.Err? then (s2, called, mutated) else DeleteIf(s2, f.hasComplete, true, mutated)
  }

  function DeleteBoth(s: Session): Session {
    Call(Call(s, DeleteFile(false)), DeleteFile(true))
  }

  function AbortStarted(s: Session, idValid: bool): Session {
    Call(if idValid then Call(s, AbortUpload) else s, DeleteFile(false))
  }

  /** From the accepted start of the upload on every failure is unknown. */
  function Transfer(s: Session, f: Findings, mount: bool): (Session, Called) {
    if !f.negotiated || !f.idValid then (AbortStarted(s, f.idValid), Err(Unknown))
    else
      var s1 := Call(s, UploadData);
      if Answer(s.answers).Err? || !f.digestsAgree || !f.sameFile then (DeleteBoth(s1), Err(Unknown))
      else if !mount then (s1, Ok)
      else
        var s2 := Call(s1, Mount);
        if Answer(s1.answers).Err? then (DeleteBoth(s2), Err(Unknown)) else (s2, Ok)
  }

  function Upload(s: Session, f: Findings, mount: bool): (Session, Called) {
    var (s1, called, mutated) := Discard(s, f);
    if called.Err? then (s1, SequenceError(called, mutated))
    else
      var s2 := Call(s1, StartUpload);
      if Answer(s1.answers).Err? then (s2, SequenceError(Answer(s1.answers), mutated)) else Transfer(s2, f, mount)
  }

  // ---- What the order is for ----

  /** As long as nothing has been deleted, nothing has been touched. */
  lemma DeleteIfTruthful(s: Session, present: bool, complete: bool, mutated: bool, wire: set<nat>)
    requires Reliable(s.answers, wire) && (mutated || Untouched(s.trace, wire))
    ensures var (t, called, now) := DeleteIf(s, present, complete, mutated);
            (&& Reliable(t.answers, wire) && (called.Ok? ==> now || Untouched(t.trace, wire))
             && (called.Err? ==> now == mutated && (!mutated ==> Truthful(t.trace, called, wire))))
  {
    CallUntouched(s, DeleteFile(complete), wire);
    hide Untouched, Reliable, Call, Answer, RouteOf;
  }

  lemma DiscardTruthful(s: Session, f: Findings, wire: set<nat>)
    requires Reliable(s.answers, wire) && Untouched(s.trace, wire)
    ensures var (t, called, mutated) := Discard(s, f);
            (&& Reliable(t.answers, wire) && (called.Ok? ==> mutated || Untouched(t.trace, wire))
             && (called.Err? && !mutated ==> Truthful(t.trace, called, wire)))
  {
    CallUntouched(s, ListFiles, wire);
    var s1 := Call(s, ListFiles);
    if Answer(s.answers).Ok? {
      DeleteIfTruthful(s1, f.hasIncomplete, false, false, wire);
      var (s2, called, mutated) := DeleteIf(s1, f.hasIncomplete, false, false);
      if called.Ok? {
        DeleteIfTruthful(s2, f.hasComplete, true, mutated, wire);
      }
    }
    hide Untouched, Reliable, DeleteIf, Call, Answer, RouteOf;
  }

  /** An upload that reports not_sent has deleted, started, sent and mounted nothing: only the listing may
      have gone out, provided each single call reports truthfully. */
  lemma UploadTruthful(answers: seq<Answered>, f: Findings, mount: bool, wire: set<nat>)
    requires Reliable(answers, wire)
    ensures var (s, called) := Upload(Session(PressedNone, [], answers), f, mount); Truthful(s.trace, called, wire)
  {
    var start := Session(PressedNone, [], answers);
    DiscardTruthful(start, f, wire);
    var (s1, called, mutated) := Discard(start, f);
    CallUntouched(s1, StartUpload, wire);
    hide Untouched, Reliable, Discard, Call, Answer, RouteOf;
  }

  predicate Accepted(e: Entry, r: Request) {
    e.Sent? && e.request == r && e.called.Ok?
  }

  /** Nothing but the accepted data, and the accepted mount if asked for. */
  predicate AllAccepted(from: seq<Entry>, to: seq<Entry>, mount: bool) {
    && |to| == |from| + (if mount then 2 else 1) && to[..|from|] == from
    && Accepted(to[|from|], UploadData) && (mount ==> Accepted(to[|from| + 1], Mount))
  }

  /** After the data may have gone out, an upload that does not succeed asks for both artifacts to be
      deleted; one that succeeds has had every request accepted, the mount among them if asked for. */
  lemma TransferCleansUp(s: Session, f: Findings, mount: bool)
    ensures var (t, called) := Transfer(s, f, mount);
            var n := |t.trace|;
            (&& (called.Err? && f.negotiated && f.idValid ==>
                   n >= 2 && t.trace[n - 2].Sent? && t.trace[n - 2].request == DeleteFile(false)
                   && t.trace[n - 1].Sent? && t.trace[n - 1].request == DeleteFile(true))
             && (called.Ok? <==> f.negotiated && f.idValid && f.digestsAgree && f.sameFile && AllAccepted(s.trace, t.trace, mount)))
  {
    var s1 := Call(s, UploadData);
    var s2 := Call(s1, Mount);
    assert s1.trace == s.trace + [Sent(UploadData, Answer(s.answers), RouteOf(s.answers))];
    assert s2.trace == s1.trace + [Sent(Mount, Answer(s1.answers), RouteOf(s1.answers))];
    assert |DeleteBoth(s1).trace| == |s1.trace| + 2 && |DeleteBoth(s2).trace| == |s2.trace| + 2;
    assert |s1.trace| == |s.trace| + 1;
  }
}

module Uploads {
  import opened Evidence
  import opened HidSessions
  import opened UploadModel

  method DiscardExistingUploadArtifacts(session: ScheduledSession, f: Findings) returns (mutated: bool, called: Called)
    modifies session
    ensures (session.View(), called, mutated) == Discard(old(session.View()), f)
  {
    mutated := false;
    called := session.Call(ListFiles);
    if called.Err? {
      return false, Err(NotSent);
    }
    var present := [f.hasIncomplete, f.hasComplete];
    if present[0] {
      called := session.Call(DeleteFile(false));
      if called.Err? {
        return;
      }
      mutated := true;
    }
    if present[1] {
      called := session.Call(DeleteFile(true));
      if called.Err? {
        return;
      }
      mutated := true;
    }
    called := Ok;
  }

  method BestEffortDeleteUploadArtifacts(session: ScheduledSession)
    modifies session
    ensures session.View() == DeleteBoth(old(session.View()))
  {
    var ignored := session.Call(DeleteFile(false));
    ignored := session.Call(DeleteFile(true));
  }

  method AbortStartedUpload(session: ScheduledSession, idValid: bool)
    modifies session
    ensures session.View() == AbortStarted(old(session.View()), idValid)
  {
    if idValid {
      var ignored := session.Call(AbortUpload);
    }
    var ignored := session.Call(DeleteFile(false));
  }

  method TransferLocalMedia(session: ScheduledSession, f: Findings, mount: bool) returns (called: Called)
    modifies session
    ensures (session.View(), called) == Transfer(old(session.View()), f, mount)
  {
    if !f.negotiated || !f.idValid {
      AbortStartedUpload(session, f.idValid);
      return Err(Unknown);
    }
    var uploaded := session.Call(UploadData);
    if uploaded.Err? {
      BestEffortDeleteUploadArtifacts(session);
      return SequenceError(uploaded, true);
    }
    if !f.digestsAgree || !f.sameFile {
      BestEffortDeleteUploadArtifacts(session);
      return Err(Unknown);
    }
    if mount {
      var mounted := session.Call(Mount);
      if mounted.Err? {
        BestEffortDeleteUploadArtifacts(session);
        return SequenceError(mounted, true);
      }
    }
    called := Ok;
  }

  method UploadLocalMedia(session: ScheduledSession, f: Findings, mount: bool) returns (called: Called)
    modifies session
    ensures (session.View(), called) == Upload(old(session.View()), f, mount)
  {
    hide Discard, Transfer;
    var mutated;
    mutated, called := DiscardExistingUploadArtifacts(session, f);
    if called.Err? {
      return SequenceError(called, mutated);
    }
    called := session.Call(StartUpload);
    if called.Err? {
      return SequenceError(called, mutated);
    }
    called := TransferLocalMedia(session, f, mount);
  }
}

/** The classification of an error on its way from the wire to the tool result. */
module Classifiers {
  import opened Evidence

  datatype Cause =
    | InvalidInput | Busy | SessionReleased | SessionTakenOver | OwnershipUncertain | Authentication
    | Unavailable | VideoUnavailable | NoSignal | Protocol | Canceled | Deadline | OtherCause

  datatype Code =
    | CodeInvalidInput | CodeBusy | CodeSessionReleased | CodeSessionTakenOver | CodeOwnershipUncertain | CodeAuthentication
    | CodeDeviceUnavailable | CodeVideoUnavailable | CodeNoSignal | CodeProtocol | CodeCanceled | CodeTimeout | CodeOperationFailed

  /** An error as a caller can tell it: classified, or bare; `Foreign` claims to be classified with a code
      or outcome outside the fixed set. `closed` is whether it stands for a closed session or a
      cancellation. */
  datatype Failure =
    | Classified(code: Code, outcome: Outcome, retryable: bool, closed: bool)
    | Foreign
    | Plain(cause: Cause)

  function CodeOf(cause: Cause): Code {
    match cause
    case InvalidInput => CodeInvalidInput
    case Busy => CodeBusy
    case SessionReleased => CodeSessionReleased
    case SessionTakenOver => CodeSessionTakenOver
    case OwnershipUncertain => CodeOwnershipUncertain
    case Authentication => CodeAuthentication
    case Unavailable => CodeDeviceUnavailable
    case VideoUnavailable => CodeVideoUnavailable
    case NoSignal => CodeNoSignal
    case Protocol => CodeProtocol
    case Canceled => CodeCanceled
    case Deadline => CodeTimeout
    case OtherCause => CodeOperationFailed
  }

  predicate Transient(code: Code) {
    code == CodeDeviceUnavailable || code == CodeNoSignal || code == CodeCanceled || code == CodeTimeout
  }

  function Classify(cause: Cause, closed: bool, outcome: Outcome): Failure {
    Classified(CodeOf(cause), outcome, outcome == Failed && Transient(CodeOf(cause)), closed)
  }

  datatype Class = Ordinary | Mutation | Hid

  /** What the owner makes of an operation's error when the session has meanwhile ended. */
  function TerminalCompletion(err: Failure, terminal: bool, kind: Class, takenOver: bool): Failure {
    if !terminal then err
    else if err.Classified? && err.outcome == Failed && !err.closed then err
    else
      var outcome := if err.Classified? && err.outcome == NotSent then NotSent
                     else if kind.Ordinary? then Failed else Unknown;
      Classify(if takenOver then SessionTakenOver else OwnershipUncertain, false, outcome)
  }

  datatype ToolError = ToolError(code: Code, outcome: Outcome, retryable: bool)

  /** What the caller of a tool sees. */
  method ToolFailure(err: Failure, mutation: bool) returns (failure: ToolError)
    ensures failure == ToolErrorOf(err, mutation)
  {
    failure := ToolError(CodeOperationFailed, Failed, false);
    if err.Classified? {
      failure := ToolError(err.code, err.outcome, err.retryable);
    } else if err.Foreign? {
      if mutation {
        failure := failure.(outcome := Unknown);
      }
    } else if err.cause == Canceled {
      failure := failure.(code := CodeCanceled, retryable := !mutation);
    } else if err.cause == Deadline {
      failure := failure.(code := CodeTimeout, retryable := !mutation);
    }
    if mutation {
      if err.Plain? {
        failure := failure.(outcome := Unknown);
      }
      failure := failure.(retryable := false);
    } else if failure.outcome != NotSent && Transient(failure.code) {
      failure := failure.(outcome := Failed, retryable := true);
    }
  }

  function ToolErrorOf(err: Failure, mutation: bool): ToolError {
    var code := match err
                case Classified(c, _, _, _) => c
                case Foreign => CodeOperationFailed
                case Plain(cause) => if cause == Canceled then CodeCanceled else if cause == Deadline then CodeTimeout else CodeOperationFailed;
    var outcome := if err.Classified? then err.outcome else if mutation then Unknown else Failed;
    if mutation then ToolError(code, outcome, false)
    else if outcome != NotSent && Transient(code) then ToolError(code, Failed, true)
    else ToolError(code, outcome, err.Classified? && err.retryable)
  }

  /** The tool result says not_sent exactly when the operation's error does, a mutation is never reported
      as failed unless its error was classified so, and never as retryable. */
  lemma ToolResultKeepsEvidence(err: Failure, mutation: bool)
    ensures ToolErrorOf(err, mutation).outcome == NotSent <==> err.Classified? && err.outcome == NotSent
    ensures mutation && ToolErrorOf(err, mutation).outcome == Failed ==> err.Classified? && err.outcome == Failed
    ensures mutation ==> !ToolErrorOf(err, mutation).retryable
  {
  }

  /** A failure that the classifier produced may be retried exactly when it is no mutation, was not held
      back, and its cause is passing. */
  lemma RetryExactly(cause: Cause, closed: bool, outcome: Outcome, mutation: bool)
    ensures var t := ToolErrorOf(Classify(cause, closed, outcome), mutation);
            t.retryable <==> !mutation && outcome != NotSent && Transient(CodeOf(cause))
  {
  }

  /** The end of the session turns no evidence of dispatch into not_sent, and none of its absence into
      anything else. */
  lemma TerminalKeepsEvidence(err: Failure, terminal: bool, kind: Class, takenOver: bool)
    ensures var r := TerminalCompletion(err, terminal, kind, takenOver);
            (&& ((r.Classified? && r.outcome == NotSent) <==> (err.Classified? && err.outcome == NotSent))
             && (terminal && !kind.Ordinary? && r.Classified? && r.outcome == Failed ==> err.Classified? && err.outcome == Failed))
  {
  }
}
