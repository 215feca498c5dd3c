/** An access unit that nobody marks is closed by the first packet of the next timestamp; its own order and
    duplication make no difference to that either. */
module Transition {
  import opened Options
  import opened Rtp
  import opened NalPayload
  import opened Depacketizer
  import opened StreamModel
  import opened StreamSafety
  import opened Confluence

  /** As `Admissible`, but the unit stays open: successive arrivals are always less than the gap limit
      apart. */
  ghost predicate AdmissibleOpen(arrivals: seq<Arrival>, n: nat)
    decreases |arrivals|
  {
    arrivals != [] ==>
      var before, a := arrivals[..|arrivals| - 1], arrivals[|arrivals| - 1];
      && AdmissibleOpen(before, n)
      && a.index < n
      && (a.index !in Received(before) ==> a.index < Prefix(Received(before), 0, n) + REORDER_WINDOW)
      && (before != [] ==> a.at - before[|before| - 1].at < MAX_GAP)
  }

  /** The unit as the assembler closes it. */
  function ClosedUnit(u: seq<Packet>): seq<Packet>
    requires u != []
  {
    u[|u| - 1 := u[|u| - 1].(marker := true)]
  }

  /** The packet that ends the unit: in sequence, of another timestamp that is not finished, and in time. */
  predicate EndsUnit(s: Stream, u: seq<Packet>, p: Packet)
    requires u != []
  {
    && !Malformed(p) && p.timestamp != u[0].timestamp && p.timestamp !in s.completed
    && p.sequence == Next16(u[|u| - 1].sequence)
  }

  /** What the ending packet leaves, as a function of the unit alone: the closed unit is retired, then the
      packet opens a unit of its own. */
  function EndedBy(s: Stream, u: seq<Packet>, minGeneration: nat, p: Packet, generation: nat, watermark: nat, at: int, want: bool): Emission
    requires u != []
  {
    var done := Finished(s, ClosedUnit(u), minGeneration, watermark, at, want);
    if done.data.Some? then done.(stream := Process(done.stream, p, generation, watermark, at, false).stream)
    else Insert(done.stream, p, generation, watermark, at, want)
  }

  // ---- The open unit ----

  /** Whatever has arrived, nothing is emitted and nothing but the pending unit changes. */
  lemma {:induction false} OpenStays(s: Stream, u: seq<Packet>, arrivals: seq<Arrival>, watermark: nat, want: bool)
    requires AnchoredRun(s, u) && !EndsMarked(u) && AdmissibleOpen(arrivals, |u|)
    ensures forall a | a in arrivals :: a.index < |u|
    ensures Deliver(s, u, arrivals, watermark, want).data == None
    ensures Waiting(Deliver(s, u, arrivals, watermark, want).stream, s, u, arrivals)
    decreases |arrivals|
  {
    hide AnchoredRun, Process, Finished, Holds, Received;
    if arrivals != [] {
      var before, a := arrivals[..|arrivals| - 1], arrivals[|arrivals| - 1];
      assert arrivals == before + [a];
      OpenStays(s, u, before, watermark, want);
      ArrivalStep(s, u, before, a, Deliver(s, u, before, watermark, want).stream, watermark, want);
    }
  }

  // ---- Its end ----

  lemma {:induction false} ClosedTotal(u: seq<Packet>, n: nat)
    requires u != [] && n <= |u|
    ensures TotalPayload(ClosedUnit(u), n) == TotalPayload(u, n)
  {
    if n != 0 {
      ClosedTotal(u, n - 1);
    }
  }

  lemma ClosedShape(first: uint16, u: seq<Packet>)
    requires RunShape(first, u)
    ensures UnitShape(first, ClosedUnit(u))
  {
    ClosedTotal(u, |u|);
    hide TotalPayload, Add16;
  }

  lemma ClosedContents(q: Pending, u: seq<Packet>, r: set<nat>, last: uint16)
    requires u != [] && |u| <= MAX_PACKETS && Contents(q, u, r) && |u| - 1 in r && last == Add16(q.expected, |u| - 1)
    ensures last in q.packets && Contents(MarkLast(q, last), ClosedUnit(u), r)
  {
    Wraps(q.expected);
    var marked := MarkLast(q, last);
    assert Sub16(last, q.expected) == |u| - 1;
    hide Add16, Sub16;
    forall k | k in marked.packets
      ensures Sub16(k, q.expected) in r && marked.packets[k].packet == ClosedUnit(u)[Sub16(k, q.expected)]
    {
      assert k in q.packets && q.packets[k].packet == u[Sub16(k, q.expected)];
      if Sub16(k, q.expected) == |u| - 1 {
        assert Add16(q.expected, Sub16(k, q.expected)) == k;
      }
    }
  }

  lemma ClosedWindow(q: Pending, last: uint16)
    requires WindowInv(q) && last in q.packets
    ensures WindowInv(MarkLast(q, last))
  {
    MarkedSize(q, last);
  }

  /** With every packet there, the assembler's own marker orders the unit. */
  lemma ClosedOrdered(q: Pending, s: Stream, u: seq<Packet>, r: set<nat>)
    requires RunShape(s.nextSequence, u) && Holds(q, s, u, r) && Covers(r, |u|)
    ensures var last := u[|u| - 1].sequence;
            last in q.packets && OrderedPackets(MarkLast(q, last)) == Ordered(ClosedUnit(u))
  {
    hide TotalPayload, SumPayload, Prefix, WindowInv, Contents, FrontierOf, OrderedPackets, Add16;
    var last := u[|u| - 1].sequence;
    assert |u| - 1 in r;
    assert last == Add16(q.expected, |u| - 1);
    ClosedContents(q, u, r, last);
    ClosedWindow(q, last);
    ClosedShape(s.nextSequence, u);
    LastAt(q.expected, |u| - 1);
    OrderedWhenCovered(MarkLast(q, last), ClosedUnit(u), r);
    hide RunShape;
  }

  lemma LastAt(first: uint16, n: uint16)
    ensures Sub16(Add16(first, n), first) == n
  {
  }

  /** The unit ends as `Finished` of the closed unit. */
  lemma TransitionIsFinished(s: Stream, u: seq<Packet>, q: Pending, r: set<nat>, p: Packet, watermark: nat, at: int, want: bool)
    requires s.pending.None? && RunShape(s.nextSequence, u) && Holds(q, s, u, r) && Covers(r, |u|) && !EndsMarked(u) && EndsUnit(s, u, p)
    ensures FinishAtTimestampTransition(s.(pending := Some(q)), p.sequence, watermark, at, want)
         == Finished(s, ClosedUnit(u), q.minGeneration, watermark, at, want)
  {
    var last := u[|u| - 1].sequence;
    assert Prev16(Next16(last)) == last;
    ClosedOrdered(q, s, u, r);
    EndsTogether(q, s, u, r);
    hide RunShape, Holds, OrderedPackets, Depacketized, Retire, Finished, Covers, Next16, Prev16;
    var marked := MarkLast(q, last);
    RetireIsFinished(s, ClosedUnit(u), marked, watermark, at, want);
    RetireElsewhere(s, q, marked, Depacketized(ClosedUnit(u)), p.sequence, watermark, at, want);
  }

  /** Retiring does not look at the pending unit the stream still has. */
  lemma RetireElsewhere(s: Stream, q: Pending, marked: Pending, access: Access, next: uint16, watermark: nat, at: int, want: bool)
    ensures Retire(s.(pending := Some(q)), marked, access, next, watermark, at, want)
         == Retire(s.(pending := Some(marked)), marked, access, next, watermark, at, want)
  {
    assert s.(pending := Some(q)).(pending := None) == s.(pending := Some(marked)).(pending := None);
    hide Accept, RememberCompleted, SetSequenceAnchor;
  }

  lemma ProcessIsTransition(st: Stream, p: Packet, generation: nat, watermark: nat, at: int, want: bool)
    requires st.draining.None? && p.timestamp !in st.completed && !Malformed(p)
    requires st.pending.Some? && st.pending.value.timestamp != p.timestamp && !Gap(st.pending.value.lastObserved, at)
    ensures Process(st, p, generation, watermark, at, want)
         == (var done := FinishAtTimestampTransition(st, p.sequence, watermark, at, want);
             if done.data.Some? then done.(stream := Process(done.stream, p, generation, watermark, at, false).stream)
             else Insert(done.stream, p, generation, watermark, at, want))
  {
    hide Insert, FinishAtTimestampTransition, DiscardPending, DrainPacket;
  }

  /** Transition confluence. Whatever the admissible order and duplication of a unit without a marker, the
      packet that ends it leaves the same state and emits the same candidate, and nothing is emitted before. */
  lemma TransitionConfluence(s: Stream, u: seq<Packet>, arrivals: seq<Arrival>, p: Packet, generation: nat, watermark: nat, at: int, want: bool)
    requires AnchoredRun(s, u) && !EndsMarked(u) && AdmissibleOpen(arrivals, |u|) && Covers(Received(arrivals), |u|)
    requires EndsUnit(s, u, p) && arrivals != [] && at - arrivals[|arrivals| - 1].at < MAX_GAP
    ensures forall a | a in arrivals :: a.index < |u|
    ensures var before := Deliver(s, u, arrivals, watermark, want);
            (&& before.data == None
             && Process(before.stream, p, generation, watermark, at, want)
                == EndedBy(s, u, MinGeneration(arrivals), p, generation, watermark, at, want))
  {
    OpenStays(s, u, arrivals, watermark, want);
    var st := Deliver(s, u, arrivals, watermark, want).stream;
    var q := st.pending.value;
    TransitionIsFinished(s, u, q, Received(arrivals), p, watermark, at, want);
    TimestampOf(q, s, u, Received(arrivals));
    hide Deliver, RunShape, Holds, Process, Finished, FinishAtTimestampTransition, Insert, Covers, Received, AdmissibleOpen;
    ProcessIsTransition(st, p, generation, watermark, at, want);
  }

  lemma TimestampOf(q: Pending, s: Stream, u: seq<Packet>, r: set<nat>)
    requires u != [] && Holds(q, s, u, r)
    ensures q.timestamp == u[0].timestamp
  {
  }

  // ---- Two orders ----

  /** The number under which the last candidate was recorded is looked at by nobody. */
  function Renumbered(s: Stream, g: nat): Stream {
    s.(candidateGeneration := g)
  }

  lemma DiscardQuiet(s: Stream, g: nat)
    ensures DiscardPending(Renumbered(s, g)) == Renumbered(DiscardPending(s), g)
  {
  }

  lemma RetireQuiet(s: Stream, q: Pending, access: Access, next: uint16, watermark: nat, at: int, g: nat)
    ensures Retire(Renumbered(s, g), q, access, next, watermark, at, false)
         == Emission(Renumbered(Retire(s, q, access, next, watermark, at, false).stream, g), None)
  {
    hide ValidParameters, FramedSize;
  }

  lemma TryCompleteQuiet(s: Stream, watermark: nat, at: int, g: nat)
    requires s.pending.Some?
    ensures TryComplete(Renumbered(s, g), watermark, at, false)
         == Emission(Renumbered(TryComplete(s, watermark, at, false).stream, g), None)
  {
    var q := s.pending.value;
    DiscardQuiet(s, g);
    if OrderedPackets(q).Ordered? {
      RetireQuiet(s, q, Depacketized(OrderedPackets(q).packets), Next16(q.marker), watermark, at, g);
    }
    hide OrderedPackets, Depacketized, Retire, DiscardPending;
  }

  lemma AdmitQuiet(s: Stream, p: Packet, generation: nat, watermark: nat, at: int, g: nat)
    requires s.pending.Some?
    ensures Admit(Renumbered(s, g), p, generation, watermark, at, false)
         == Emission(Renumbered(Admit(s, p, generation, watermark, at, false).stream, g), None)
  {
    hide TryComplete, DiscardPending, Store;
    var stored := Store(s.pending.value, p, generation, at);
    var next := s.(pending := Some(if p.marker then SetMarker(stored, p.sequence) else stored));
    DiscardQuiet(s, g);
    DiscardQuiet(s.(pending := Some(stored)), g);
    TryCompleteQuiet(next, watermark, at, g);
    assert Renumbered(s, g).(pending := next.pending) == Renumbered(next, g);
    assert Renumbered(s, g).(pending := Some(stored)) == Renumbered(s.(pending := Some(stored)), g);
  }

  lemma InsertQuiet(s: Stream, p: Packet, generation: nat, watermark: nat, at: int, g: nat)
    ensures Insert(Renumbered(s, g), p, generation, watermark, at, false)
         == Emission(Renumbered(Insert(s, p, generation, watermark, at, false).stream, g), None)
  {
    hide Admit, DiscardPending, SequenceWithinReorderWindow, ObserveSequence, Touch;
    TouchQuiet(s, p, generation, at, g);
    var held := Touch(s, p, generation, at);
    var (q1, within) := SequenceWithinReorderWindow(held.pending.value, p.sequence);
    var q2 := ObserveSequence(q1, p.sequence);
    var dropped := held.(pending := Some(if p.marker then SetMarker(q2, p.sequence) else q2));
    DiscardQuiet(held, g);
    DiscardQuiet(dropped, g);
    AdmitQuiet(held.(pending := Some(q2)), p, generation, watermark, at, g);
    assert Renumbered(held, g).(pending := Some(q2)) == Renumbered(held.(pending := Some(q2)), g);
    assert Renumbered(held, g).(pending := dropped.pending) == Renumbered(dropped, g);
  }

  lemma TouchQuiet(s: Stream, p: Packet, generation: nat, at: int, g: nat)
    ensures Touch(Renumbered(s, g), p, generation, at) == Renumbered(Touch(s, p, generation, at), g)
  {
  }

  /** What a finished unit leaves for the packet that ended it. */
  lemma FinishedLeaves(s: Stream, u: seq<Packet>, p: Packet, minGeneration: nat, watermark: nat, at: int, want: bool)
    requires AnchoredRun(s, u) && EndsUnit(s, u, p)
    ensures var st := Finished(s, ClosedUnit(u), minGeneration, watermark, at, want).stream;
            st.pending.None? && st.draining.None? && p.timestamp !in st.completed
  {
    hide Depacketized, TotalPayload, FramedSize, Frame, NonParameters, ValidParameters, Distinct;
    assert ClosedUnit(u)[|u| - 1].timestamp == u[0].timestamp;
  }

  /** The closed unit is finished alike in both orders, but for the number of its candidate. */
  lemma FinishedAlike(s: Stream, u: seq<Packet>, g: nat, h: nat, watermark: nat, at: int, want: bool)
    requires u != [] && g > watermark && h > watermark
    ensures var a, b := Finished(s, ClosedUnit(u), g, watermark, at, want), Finished(s, ClosedUnit(u), h, watermark, at, want);
            (&& a.data == b.data && (a.data.None? ==> a.stream == b.stream) && (a.data.Some? ==> a.stream == Renumbered(b.stream, g)))
  {
    hide Depacketized, Accept, RememberCompleted;
  }

  /** Two admissible orders of the same open unit, both seen wholly after the watermark, followed by the
      same packet: the same candidate, and the same state but for the number recorded with it. */
  lemma TransitionOrderDoesNotMatter(s: Stream, u: seq<Packet>, a: seq<Arrival>, b: seq<Arrival>, p: Packet, generation: nat, watermark: nat, at: int, want: bool)
    requires AnchoredRun(s, u) && !EndsMarked(u) && EndsUnit(s, u, p)
    requires AdmissibleOpen(a, |u|) && Covers(Received(a), |u|) && a != [] && at - a[|a| - 1].at < MAX_GAP && forall x | x in a :: x.generation > watermark
    requires AdmissibleOpen(b, |u|) && Covers(Received(b), |u|) && b != [] && at - b[|b| - 1].at < MAX_GAP && forall x | x in b :: x.generation > watermark
    ensures (forall x | x in a :: x.index < |u|) && (forall x | x in b :: x.index < |u|)
    ensures var v := Process(Deliver(s, u, a, watermark, want).stream, p, generation, watermark, at, want);
            var w := Process(Deliver(s, u, b, watermark, want).stream, p, generation, watermark, at, want);
            v.data == w.data && v.stream == Renumbered(w.stream, v.stream.candidateGeneration)
  {
    TransitionConfluence(s, u, a, p, generation, watermark, at, want);
    TransitionConfluence(s, u, b, p, generation, watermark, at, want);
    hide Deliver, AnchoredRun, Process, Finished, Insert, Covers, Received, AdmissibleOpen, EndsUnit, MinGeneration;
    LaterGenerations(a, watermark);
    LaterGenerations(b, watermark);
    EndedAlike(s, u, MinGeneration(a), MinGeneration(b), p, generation, watermark, at, want);
  }

  lemma EndedAlike(s: Stream, u: seq<Packet>, g: nat, h: nat, p: Packet, generation: nat, watermark: nat, at: int, want: bool)
    requires AnchoredRun(s, u) && EndsUnit(s, u, p) && g > watermark && h > watermark
    ensures var v, w := EndedBy(s, u, g, p, generation, watermark, at, want), EndedBy(s, u, h, p, generation, watermark, at, want);
            v.data == w.data && v.stream == Renumbered(w.stream, v.stream.candidateGeneration)
  {
    FinishedAlike(s, u, g, h, watermark, at, want);
    FinishedLeaves(s, u, p, g, watermark, at, want);
    FinishedLeaves(s, u, p, h, watermark, at, want);
    var x, y := Finished(s, ClosedUnit(u), g, watermark, at, want), Finished(s, ClosedUnit(u), h, watermark, at, want);
    assert !Malformed(p);
    ProcessIsInsert(x.stream, p, generation, watermark, at, false);
    ProcessIsInsert(y.stream, p, generation, watermark, at, false);
    InsertQuiet(y.stream, p, generation, watermark, at, g);
    hide AnchoredRun, Process, Finished, Insert, EndsUnit, ClosedUnit;
  }
}
