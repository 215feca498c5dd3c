/** What an operation has handed to its session, call by call, and what it reports. */
module Evidence {

  datatype Outcome = NotSent | Failed | Unknown

  /** The result of one request, as the layers below classify it. */
  datatype Called = Ok | Err(outcome: Outcome)

  datatype Request =
    | KeyDown(modifier: nat, usage: nat)
    | KeysUp
    | ButtonDown(button: nat)
    | ButtonsUp
    | Cursor
    | ListFiles
    | DeleteFile(complete: bool)
    | StartUpload
    | UploadData
    | Mount
    | AbortUpload
    | NeutralizeKeys
    | NeutralizeButtons

  /** The way a request took: as the call of this number on the data channel; over HTTP, where it was or
      was not handed to the client; or none, because its gate refused it. */
  datatype Route = Rpc(id: nat) | Http(handed: bool) | Refused

  /** What the layers below make of a request. */
  datatype Answered = Answered(called: Called, route: Route)

  /** `Suppressed` is a neutralization left out because the session was recognised as taken over;
      `GatePassed` is the release of the rpc gate. */
  datatype Entry = Sent(request: Request, called: Called, route: Route) | Suppressed | GatePassed

  /** The request was handed to the sender, given the calls that were. */
  predicate OnWire(route: Route, wire: set<nat>) {
    match route
    case Rpc(id) => id in wire
    case Http(handed) => handed
    case Refused => false
  }

  /** What is reported as not sent was not. */
  predicate Reliable(answers: seq<Answered>, wire: set<nat>) {
    forall a | a in answers && a.called == Err(NotSent) :: !OnWire(a.route, wire)
  }

  /** Requests that change nothing on the device, or only let go of what was pressed. */
  predicate Harmless(r: Request) {
    r.ListFiles? || r.NeutralizeKeys? || r.NeutralizeButtons?
  }

  /** No mutating request was handed to the sender. */
  predicate Untouched(trace: seq<Entry>, wire: set<nat>) {
    forall e | e in trace && e.Sent? && !Harmless(e.request) :: !OnWire(e.route, wire)
  }

  /** An error after an earlier request went out can no longer say what happened. */
  function SequenceError(called: Called, prior: bool): Called {
    if called.Ok? || !prior then called else Err(Unknown)
  }

  /** A report of not_sent is the truth. */
  predicate Truthful(trace: seq<Entry>, report: Called, wire: set<nat>) {
    report == Err(NotSent) ==> Untouched(trace, wire)
  }

  lemma UntouchedConcat(a: seq<Entry>, b: seq<Entry>, wire: set<nat>)
    ensures Untouched(a + b, wire) <==> Untouched(a, wire) && Untouched(b, wire)
  {
    assert forall e | e in a :: e in a + b;
    assert forall e | e in b :: e in a + b;
  }
}

/** Keyboard and mouse operations under every pattern of failing calls. */
module HidModel {
  import opened Evidence
  import opened HidReports

  datatype Pressed = PressedNone | PressedKeyboard | PressedMouse

  /** The state of a scheduled session: what must be neutralized, and what has been sent. `answers` are
      what the layers below make of the coming calls (success once they run out). */
  datatype Session = Session(pressed: Pressed, trace: seq<Entry>, answers: seq<Answered>)

  function Answer(answers: seq<Answered>): Called {
    if answers == [] then Ok else answers[0].called
  }

  function RouteOf(answers: seq<Answered>): Route {
    if answers == [] then Refused else answers[0].route
  }

  function Call(s: Session, r: Request): Session {
    s.(trace := s.trace + [Sent(r, Answer(s.answers), RouteOf(s.answers))], answers := if s.answers == [] then [] else s.answers[1..])
  }

  /** One press and one release per report. */
  function Keyboard(s: Session, reports: seq<KeyReport>, index: nat): (Session, Called)
    requires index <= |reports|
    decreases |reports| - index
  {
    if index == |reports| then (s, Ok)
    else
      var r := reports[index];
      var s1 := Call(s.(pressed := PressedKeyboard), KeyDown(r.modifier, r.usage));
      if Answer(s.answers).Err? then (s1, SequenceError(Answer(s.answers), index > 0))
      else
        var s2 := Call(s1, KeysUp);
        if Answer(s1.answers).Err? then (s2, SequenceError(Answer(s1.answers), true))
        else Keyboard(s2.(pressed := PressedNone), reports, index + 1)
  }

  datatype MouseRequest = Move | Click(button: nat)

  function Mouse(s: Session, m: MouseRequest): (Session, Called) {
    match m
    case Move => (Call(s, Cursor), SequenceError(Answer(s.answers), false))
    case Click(button) =>
      var s1 := Call(s.(pressed := PressedMouse), ButtonDown(button));
      if Answer(s.answers).Err? then (s1, SequenceError(Answer(s.answers), false))
      else
        var s2 := Call(s1, ButtonsUp);
        if Answer(s1.answers).Err? then (s2, SequenceError(Answer(s1.answers), true))
        else (s2.(pressed := PressedNone), Ok)
  }

  /** The end of the operation, before the rpc gate passes to anyone else. */
  function Finish(s: Session, takenOver: bool): Session {
    var t := match s.pressed
             case PressedNone => s
             case PressedKeyboard => if takenOver then s.(trace := s.trace + [Suppressed]) else Call(s, NeutralizeKeys)
             case PressedMouse => if takenOver then s.(trace := s.trace + [Suppressed]) else Call(s, NeutralizeButtons);
    t.(pressed := PressedNone, trace := t.trace + [GatePassed])
  }

  datatype Operation = Type(reports: seq<KeyReport>) | Point(m: MouseRequest)

  function Perform(op: Operation, answers: seq<Answered>, takenOver: bool): (Session, Called) {
    var start := Session(PressedNone, [], answers);
    var (s, called) := match op
                       case Type(reports) => Keyboard(start, reports, 0)
                       case Point(m) => Mouse(start, m);
    (Finish(s, takenOver), called)
  }
}

/** The session an operation works on, as the object its helpers update. */
module HidSessions {
  import opened Evidence
  import opened HidReports
  import opened HidModel
  import M = HidModel

  class ScheduledSession {
    var pressed: Pressed
    var trace: seq<Entry>
    var answers: seq<Answered>

    ghost function View(): Session
      reads this
    {
      Session(pressed, trace, answers)
    }

    constructor (answers: seq<Answered>)
      ensures View() == Session(PressedNone, [], answers)
    {
      this.answers, pressed, trace := answers, PressedNone, [];
    }

    method Call(r: Request) returns (called: Called)
      modifies this`trace, this`answers
      ensures View() == M.Call(old(View()), r) && called == Answer(old(answers))
    {
      called := Answer(answers);
      trace := trace + [Sent(r, called, RouteOf(answers))];
      answers := if answers == [] then [] else answers[1..];
    }

    method Keyboard(reports: seq<KeyReport>) returns (called: Called)
      modifies this
      ensures (View(), called) == M.Keyboard(old(View()), reports, 0)
    {
      var index := 0;
      while index < |reports|
        invariant 0 <= index <= |reports|
        invariant M.Keyboard(View(), reports, index) == M.Keyboard(old(View()), reports, 0)
      {
        pressed := PressedKeyboard;
        var down := Call(KeyDown(reports[index].modifier, reports[index].usage));
        if down.Err? {
          return SequenceError(down, index > 0);
        }
        var up := Call(KeysUp);
        if up.Err? {
          return SequenceError(up, true);
        }
        pressed := PressedNone;
        index := index + 1;
      }
      called := Ok;
    }

    method Mouse(m: MouseRequest) returns (called: Called)
      modifies this
      ensures (View(), called) == M.Mouse(old(View()), m)
    {
      var calls := match m case Move => [Cursor] case Click(button) => [ButtonDown(button), ButtonsUp];
      var index := 0;
      while index < |calls|
        invariant 0 <= index <= |calls|
        invariant index == 0 ==> View() == old(View())
        invariant m.Move? && index == 1 ==> (View(), Ok) == M.Mouse(old(View()), m)
        invariant m.Click? && index == 1 ==>
                    Answer(old(answers)) == Ok && View() == M.Call(old(View()).(pressed := PressedMouse), ButtonDown(m.button))
        invariant m.Click? && index == 2 ==> (View(), Ok) == M.Mouse(old(View()), m)
      {
        if m.Click? && index == 0 {
          pressed := PressedMouse;
        }
        var sent := Call(calls[index]);
        if sent.Err? {
          return SequenceError(sent, index > 0);
        }
        if m.Click? && index == |calls| - 1 {
          pressed := PressedNone;
        }
        index := index + 1;
      }
      called := Ok;
    }

    method Finish(takenOver: bool)
      modifies this
      ensures View() == M.Finish(old(View()), takenOver)
    {
      if takenOver {
        if !pressed.PressedNone? {
          trace := trace + [Suppressed];
        }
      } else {
        match pressed {
          case PressedKeyboard => var ignored := Call(NeutralizeKeys);
          case PressedMouse => var ignored := Call(NeutralizeButtons);
          case PressedNone =>
        }
      }
      pressed := PressedNone;
      trace := trace + [GatePassed];
    }
  }
}

/** No run leaves anything pressed, and none reports not_sent falsely. */
module HidRuns {
  import opened Octets
  import opened Evidence
  import opened HidReports
  import opened HidModel

  // ---- Bracketing ----

  /** Position `k` lets go of what position `i` may have pressed. */
  predicate LetsGo(trace: seq<Entry>, i: nat, k: nat) {
    && i < k < |trace|
    && match trace[k]
       case Sent(KeysUp, Ok, _) => trace[i].Sent? && trace[i].request.KeyDown?
       case Sent(ButtonsUp, Ok, _) => trace[i].Sent? && trace[i].request.ButtonDown?
       case Sent(NeutralizeKeys, _, _) => trace[i].Sent? && trace[i].request.KeyDown?
       case Sent(NeutralizeButtons, _, _) => trace[i].Sent? && trace[i].request.ButtonDown?
       case Suppressed => true
       case _ => false
  }

  predicate Presses(e: Entry) {
    e.Sent? && (e.request.KeyDown? || e.request.ButtonDown?)
  }

  /** Every press is let go, except possibly the last ones, of the kind still marked as pressed. */
  ghost predicate Bracketed(s: Session) {
    && (forall i | 0 <= i < |s.trace| && Presses(s.trace[i]) ::
          || (s.pressed == PressedKeyboard && s.trace[i].request.KeyDown?)
          || (s.pressed == PressedMouse && s.trace[i].request.ButtonDown?)
          || exists k: nat :: LetsGo(s.trace, i, k))
    && GatePassed !in s.trace && Suppressed !in s.trace
  }

  lemma CallBracketed(s: Session, r: Request)
    requires Bracketed(s) && (r.KeyDown? ==> s.pressed == PressedKeyboard) && (r.ButtonDown? ==> s.pressed == PressedMouse)
    ensures Bracketed(Call(s, r))
  {
    var t := Call(s, r);
    forall i | 0 <= i < |t.trace| && Presses(t.trace[i]) && !(s.pressed == PressedKeyboard && t.trace[i].request.KeyDown?) && !(s.pressed == PressedMouse && t.trace[i].request.ButtonDown?)
      ensures exists k: nat :: LetsGo(t.trace, i, k)
    {
      var k :| LetsGo(s.trace, i, k);
      assert LetsGo(t.trace, i, k);
    }
  }

  /** After an acknowledged release nothing of its kind is pressed any more. */
  lemma ReleaseBracketed(s: Session, r: Request)
    requires Bracketed(s) && Answer(s.answers).Ok?
    requires (r.KeysUp? && s.pressed == PressedKeyboard) || (r.ButtonsUp? && s.pressed == PressedMouse)
    ensures Bracketed(Call(s, r).(pressed := PressedNone))
  {
    var t := Call(s, r);
    forall i | 0 <= i < |t.trace| && Presses(t.trace[i])
      ensures exists k: nat :: LetsGo(t.trace, i, k)
    {
      if (r.KeysUp? && t.trace[i].request.KeyDown?) || (r.ButtonsUp? && t.trace[i].request.ButtonDown?) {
        assert LetsGo(t.trace, i, |s.trace|);
      } else {
        var k :| LetsGo(s.trace, i, k);
        assert LetsGo(t.trace, i, k);
      }
    }
  }

  lemma Armed(s: Session, pressed: Pressed)
    requires Bracketed(s) && s.pressed == PressedNone
    ensures Bracketed(s.(pressed := pressed))
  {
  }

  lemma {:induction false} KeyboardBracketed(s: Session, reports: seq<KeyReport>, index: nat)
    requires index <= |reports| && Bracketed(s) && s.pressed == PressedNone
    ensures var (t, called) := Keyboard(s, reports, index);
            Bracketed(t) && t.pressed != PressedMouse && (called == Ok ==> t.pressed == PressedNone)
    decreases |reports| - index
  {
    hide Bracketed;
    if index < |reports| {
      var r := reports[index];
      Armed(s, PressedKeyboard);
      CallBracketed(s.(pressed := PressedKeyboard), KeyDown(r.modifier, r.usage));
      var s1 := Call(s.(pressed := PressedKeyboard), KeyDown(r.modifier, r.usage));
      if Answer(s.answers).Ok? {
        if Answer(s1.answers).Ok? {
          ReleaseBracketed(s1, KeysUp);
          KeyboardBracketed(Call(s1, KeysUp).(pressed := PressedNone), reports, index + 1);
        } else {
          CallBracketed(s1, KeysUp);
        }
      }
    }
  }

  lemma MouseBracketed(s: Session, m: MouseRequest)
    requires Bracketed(s) && s.pressed == PressedNone
    ensures var (t, called) := Mouse(s, m);
            Bracketed(t) && t.pressed != PressedKeyboard && (called == Ok ==> t.pressed == PressedNone)
  {
    hide Bracketed;
    if m.Move? {
      CallBracketed(s, Cursor);
    } else {
      Armed(s, PressedMouse);
      CallBracketed(s.(pressed := PressedMouse), ButtonDown(m.button));
      var s1 := Call(s.(pressed := PressedMouse), ButtonDown(m.button));
      if Answer(s.answers).Ok? {
        if Answer(s1.answers).Ok? {
          ReleaseBracketed(s1, ButtonsUp);
        } else {
          CallBracketed(s1, ButtonsUp);
        }
      }
    }
  }

  /** The finished trace: every press let go, or the suppression of a taken-over session, and then the
      gate. */
  ghost predicate Closed(trace: seq<Entry>, takenOver: bool) {
    && trace != [] && trace[|trace| - 1] == GatePassed && GatePassed !in trace[..|trace| - 1]
    && (Suppressed in trace ==> takenOver)
    && (forall i | 0 <= i < |trace| && Presses(trace[i]) :: exists k: nat :: LetsGo(trace, i, k) && k < |trace| - 1)
  }

  lemma FinishClosed(s: Session, takenOver: bool)
    requires Bracketed(s)
    ensures Closed(Finish(s, takenOver).trace, takenOver)
  {
    var f := Finish(s, takenOver);
    var n := |f.trace| - 1;
    assert f.trace[..n] == if s.pressed.PressedNone? then s.trace else s.trace + [f.trace[n - 1]];
    forall i | 0 <= i < |f.trace| && Presses(f.trace[i])
      ensures exists k: nat :: LetsGo(f.trace, i, k) && k < n
    {
      assert f.trace[i] == s.trace[i];
      if (s.pressed == PressedKeyboard && s.trace[i].request.KeyDown?) || (s.pressed == PressedMouse && s.trace[i].request.ButtonDown?) {
        assert LetsGo(f.trace, i, n - 1);
      } else {
        var k :| LetsGo(s.trace, i, k);
        assert LetsGo(f.trace, i, k);
      }
    }
  }

  /** In every run of every keyboard or mouse operation, whatever calls fail: each key or button press is
      followed, before the rpc gate passes on, by an acknowledged release, by an attempt to neutralize it
      on the same session, or by the suppression of that attempt because the session was recognised as
      taken over. */
  lemma NothingStaysPressed(op: Operation, answers: seq<Answered>, takenOver: bool)
    ensures Closed(Perform(op, answers, takenOver).0.trace, takenOver)
  {
    var start := Session(PressedNone, [], answers);
    match op {
      case Type(reports) => KeyboardBracketed(start, reports, 0);
      case Point(m) => MouseBracketed(start, m);
    }
    var s := match op
             case Type(reports) => Keyboard(start, reports, 0).0
             case Point(m) => Mouse(start, m).0;
    FinishClosed(s, takenOver);
    hide Closed;
  }

  // ---- Honesty ----

  /** One more call: it touches nothing exactly when it is harmless or not on the wire; what is still to
      come stays reliable. */
  lemma CallUntouched(s: Session, r: Request, wire: set<nat>)
    requires Reliable(s.answers, wire)
    ensures Reliable(Call(s, r).answers, wire)
    ensures Untouched(Call(s, r).trace, wire) <==> Untouched(s.trace, wire) && (Harmless(r) || !OnWire(RouteOf(s.answers), wire))
    ensures Answer(s.answers) == Err(NotSent) ==> !OnWire(RouteOf(s.answers), wire)
  {
    var e := Sent(r, Answer(s.answers), RouteOf(s.answers));
    UntouchedConcat(s.trace, [e], wire);
    assert e in [e];
  }

  lemma {:induction false} KeyboardTruthful(s: Session, reports: seq<KeyReport>, index: nat, wire: set<nat>)
    requires index <= |reports| && Reliable(s.answers, wire) && (index == 0 ==> Untouched(s.trace, wire))
    ensures var (t, called) := Keyboard(s, reports, index); Truthful(t.trace, called, wire) && Reliable(t.answers, wire)
    decreases |reports| - index
  {
    hide Untouched, Reliable, Call, Answer, RouteOf;
    if index < |reports| {
      var r := reports[index];
      var s0 := s.(pressed := PressedKeyboard);
      var s1 := Call(s0, KeyDown(r.modifier, r.usage));
      CallUntouched(s0, KeyDown(r.modifier, r.usage), wire);
      CallUntouched(s1, KeysUp, wire);
      if Answer(s.answers).Ok? && Answer(s1.answers).Ok? {
        KeyboardTruthful(Call(s1, KeysUp).(pressed := PressedNone), reports, index + 1, wire);
      }
    }
  }

  /** When a keyboard or mouse operation reports not_sent, nothing but the neutralization was handed to
      the sender on its behalf, provided each single call reports truthfully. */
  lemma HidTruthful(op: Operation, answers: seq<Answered>, takenOver: bool, wire: set<nat>)
    requires Reliable(answers, wire)
    ensures var (s, called) := Perform(op, answers, takenOver); Truthful(s.trace, called, wire)
  {
    var start := Session(PressedNone, [], answers);
    var (s, called) := match op
                       case Type(reports) => Keyboard(start, reports, 0)
                       case Point(m) => Mouse(start, m);
    match op {
      case Type(reports) => KeyboardTruthful(start, reports, 0, wire);
      case Point(m) => MouseTruthful(start, m, wire);
    }
    if called == Err(NotSent) {
      FinishUntouched(s, takenOver, wire);
    }
    hide Keyboard, Mouse, Finish, Untouched, Reliable;
  }

  lemma MouseTruthful(s: Session, m: MouseRequest, wire: set<nat>)
    requires Reliable(s.answers, wire) && Untouched(s.trace, wire)
    ensures var (t, called) := Mouse(s, m); Truthful(t.trace, called, wire) && Reliable(t.answers, wire)
  {
    hide Untouched, Reliable, Call, Answer, RouteOf;
    if m.Move? {
      CallUntouched(s, Cursor, wire);
    } else {
      var s0 := s.(pressed := PressedMouse);
      CallUntouched(s0, ButtonDown(m.button), wire);
      CallUntouched(Call(s0, ButtonDown(m.button)), ButtonsUp, wire);
    }
  }

  lemma FinishUntouched(s: Session, takenOver: bool, wire: set<nat>)
    requires Reliable(s.answers, wire) && Untouched(s.trace, wire)
    ensures Untouched(Finish(s, takenOver).trace, wire)
  {
    CallUntouched(s, NeutralizeKeys, wire);
    CallUntouched(s, NeutralizeButtons, wire);
    var f := Finish(s, takenOver);
    var t := f.trace[..|f.trace| - 1];
    UntouchedConcat(t, [GatePassed], wire);
    UntouchedConcat(s.trace, [Suppressed], wire);
    assert f.trace == t + [GatePassed];
  }

  // ---- When every call succeeds ----

  /** The reports a host receives. */
  function HostAfter(h: Host, trace: seq<Entry>): Host {
    if trace == [] then h
    else
      var before, e := HostAfter(h, trace[..|trace| - 1]), trace[|trace| - 1];
      if e.Sent? && e.called.Ok? && e.request.KeyDown? && e.request.modifier < 256 then Press(before, KeyReport(e.request.modifier, e.request.usage))
      else if e.Sent? && e.called.Ok? && (e.request.KeysUp? || e.request.NeutralizeKeys?) then LetGo(before)
      else before
  }

  lemma {:induction false} AllSucceed(s: Session, h: Host, reports: seq<KeyReport>, index: nat)
    requires index <= |reports| && s.answers == [] && s.pressed == PressedNone
    ensures var (t, called) := Keyboard(s, reports, index);
            called == Ok && t.pressed == PressedNone && t.answers == []
            && HostAfter(h, t.trace) == Replay(HostAfter(h, s.trace), reports[index..])
    decreases |reports| - index
  {
    if index < |reports| {
      var r := reports[index];
      var s1 := Call(s.(pressed := PressedKeyboard), KeyDown(r.modifier, r.usage));
      var s2 := Call(s1, KeysUp);
      assert s1.trace[..|s.trace|] == s.trace && s2.trace[..|s1.trace|] == s1.trace;
      assert reports[index..][1..] == reports[index + 1..];
      AllSucceed(s2.(pressed := PressedNone), h, reports, index + 1);
    }
  }

  /** Typing an accepted text with every call succeeding leaves on a US-layout host exactly that text
      (carriage return as Enter), no key down, and nothing to neutralize. */
  lemma TypedTextAppears(text: seq<byte>, reports: seq<KeyReport>, takenOver: bool)
    requires Reported(text, reports)
    ensures Ascii(text)
    ensures var (s, called) := Perform(Type(reports), [], takenOver);
            called == Ok && HostAfter(IDLE_HOST, s.trace) == Host({}, 0, ShownText(text))
  {
    var start := Session(PressedNone, [], []);
    AllSucceed(start, IDLE_HOST, reports, 0);
    assert reports[0..] == reports;
    TypingYieldsText(IDLE_HOST, text, reports);
    assert "" + ShownText(text) == ShownText(text);
    var (t, called) := Keyboard(start, reports, 0);
    var f := Finish(t, takenOver);
    assert f.trace[..|f.trace| - 1] == t.trace;
    hide Replay, ShownText, Reported;
  }
}
