/** Reordering and duplication of the packets of one access unit make no difference. */
module Confluence {
  import opened Options
  import opened Rtp
  import opened NalPayload
  import opened Depacketizer
  import opened StreamModel
  import opened StreamSafety

  /** Packet `index` of the unit arrives under observation number `generation`. */
  datatype Arrival = Arrival(index: nat, generation: nat, at: int)

  function TotalPayload(u: seq<Packet>, n: nat): nat
    requires n <= |u|
  {
    if n == 0 then 0 else TotalPayload(u, n - 1) + |u[n - 1].payload|
  }

  /** Packets of one timestamp in sequence order from `first` on, within the bounds, with any payloads;
      none but the last may carry the marker. */
  ghost predicate RunShape(first: uint16, u: seq<Packet>) {
    && 1 <= |u| <= MAX_PACKETS
    && (forall i: uint16 | i < |u| ::
          && u[i].sequence == Add16(first, i)
          && u[i].timestamp == u[0].timestamp
          && !Malformed(u[i])
          && (u[i].marker ==> i == |u| - 1))
    && TotalPayload(u, |u|) <= MAX_ACCESS_UNIT
  }

  predicate EndsMarked(u: seq<Packet>)
    requires u != []
  {
    u[|u| - 1].marker
  }

  /** Such a run at the stream's anchor. */
  ghost predicate AnchoredRun(s: Stream, u: seq<Packet>) {
    && s.haveNext && s.pending.None? && s.draining.None? && HistoryInv(s)
    && RunShape(s.nextSequence, u)
    && u[0].timestamp !in s.completed
  }

  /** One access unit closed by its marker. */
  ghost predicate AnchoredUnit(s: Stream, u: seq<Packet>) {
    AnchoredRun(s, u) && EndsMarked(u)
  }

  /** The part of `AnchoredUnit` that does not look at the stream. */
  ghost predicate UnitShape(first: uint16, u: seq<Packet>) {
    RunShape(first, u) && EndsMarked(u)
  }

  /** The depacketizer has a verdict on the unit other than that it is incomplete. */
  predicate Completable(u: seq<Packet>) {
    Depacketized(u) != Failed(IncompleteUnit)
  }

  ghost function Received(arrivals: seq<Arrival>): set<nat> {
    if arrivals == [] then {} else Received(arrivals[..|arrivals| - 1]) + {arrivals[|arrivals| - 1].index}
  }

  ghost predicate Covers(r: set<nat>, n: nat) {
    forall i | 0 <= i < n :: i in r
  }

  /** How many packets from the start have arrived without a hole. */
  ghost function Prefix(r: set<nat>, i: nat, n: nat): (m: nat)
    requires i <= n
    ensures i <= m <= n
    ensures forall j | i <= j < m :: j in r
    ensures m < n ==> m !in r
    decreases n - i
  {
    if i == n || i !in r then i else Prefix(r, i + 1, n)
  }

  /** Every new packet is less than the reorder window ahead of the first hole, and successive
      arrivals, up to the one that fills the last hole, are less than the gap limit apart. */
  ghost predicate Admissible(arrivals: seq<Arrival>, n: nat)
    decreases |arrivals|
  {
    arrivals != [] ==>
      var before, a := arrivals[..|arrivals| - 1], arrivals[|arrivals| - 1];
      && Admissible(before, n)
      && a.index < n
      && (a.index !in Received(before) ==> a.index < Prefix(Received(before), 0, n) + REORDER_WINDOW)
      && (before != [] && !Covers(Received(before), n) ==> a.at - before[|before| - 1].at < MAX_GAP)
  }

  function Deliver(s: Stream, u: seq<Packet>, arrivals: seq<Arrival>, watermark: nat, want: bool): Emission
    requires forall a | a in arrivals :: a.index < |u|
  {
    if arrivals == [] then Emission(s, None)
    else
      var a := arrivals[|arrivals| - 1];
      Process(Deliver(s, u, arrivals[..|arrivals| - 1], watermark, want).stream, u[a.index], a.generation, watermark, a.at, want)
  }

  /** The smallest observation number among the packets the first time each arrived. */
  ghost function MinGeneration(arrivals: seq<Arrival>): nat
    requires arrivals != []
    decreases |arrivals|
  {
    var before, a := arrivals[..|arrivals| - 1], arrivals[|arrivals| - 1];
    if before == [] then a.generation
    else if a.index in Received(before) || a.generation >= MinGeneration(before) then MinGeneration(before)
    else a.generation
  }

  /** The state and candidate a complete unit leaves, as a function of the unit alone (and of the
      moment it completed). */
  function Finished(s: Stream, u: seq<Packet>, minGeneration: nat, watermark: nat, at: int, want: bool): Emission
    requires u != []
  {
    var last := u[|u| - 1];
    var t := SetSequenceAnchor(RememberCompleted(s, last.timestamp, last.sequence, true), last.timestamp, Next16(last.sequence));
    var access := Depacketized(u);
    if access.Failed? || (watermark != 0 && minGeneration <= watermark) then Emission(t, None)
    else
      var r := Accept(t, access.unit, want);
      if r.data.Some? then r.(stream := r.stream.(candidateAt := at, candidateGeneration := minGeneration)) else r
  }

  // ---- What the pending unit holds after the packets in `r` ----

  /** The stored sequence numbers are those of the indices in `r`, counted from `first`. */
  ghost predicate Indexed(packets: map<uint16, Observed>, first: uint16, r: set<nat>, n: nat) {
    && (forall i | i in r :: i < n)
    && (forall k | k in packets :: Sub16(k, first) in r)
    && (forall i: uint16 {:trigger Add16(first, i)} | i in r :: Add16(first, i) in packets)
  }

  ghost predicate Contents(q: Pending, u: seq<Packet>, r: set<nat>) {
    && Indexed(q.packets, q.expected, r, |u|)
    && (forall k | k in q.packets :: q.packets[k].packet == u[Sub16(k, q.expected)])
  }

  ghost predicate FrontierOf(q: Pending, r: set<nat>) {
    && q.frontierSet == (r != {})
    && (q.frontierSet ==> Sub16(q.frontier, q.expected) in r && forall i | i in r :: i <= Sub16(q.frontier, q.expected))
  }

  ghost predicate MarkerAt(q: Pending, u: seq<Packet>, r: set<nat>)
    requires u != []
  {
    && q.markerSet == (EndsMarked(u) && |u| - 1 in r)
    && (q.markerSet ==> Sub16(q.marker, q.expected) == |u| - 1)
  }

  ghost predicate MarkerOf(q: Pending, u: seq<Packet>, r: set<nat>)
    requires u != []
  {
    MarkerAt(q, u, r) && q.markerExplicit == q.markerSet
  }

  ghost predicate Holds(q: Pending, s: Stream, u: seq<Packet>, r: set<nat>)
    requires u != []
  {
    && q.timestamp == u[0].timestamp
    && q.expectedSet && q.expected == s.nextSequence
    && Contents(q, u, r)
    && WindowInv(q)
    && |u| <= MAX_PACKETS && q.reorderNext == Add16(q.expected, Prefix(r, 0, |u|))
    && FrontierOf(q, r)
    && MarkerOf(q, u, r)
    && q.payloadBytes == SumPayload(q.packets)
  }

  /** Counting up from `first` and measuring the distance from `first` undo each other. */
  lemma Wraps(first: uint16)
    ensures forall i: uint16 :: Sub16(Add16(first, i), first) == i
    ensures forall k: uint16 :: Add16(first, Sub16(k, first)) == k
  {
  }

  lemma {:induction false} SumBelow(packets: map<uint16, Observed>, u: seq<Packet>, first: uint16, n: nat)
    requires n <= |u| <= MAX_PACKETS
    requires forall k | k in packets :: Sub16(k, first) < n && packets[k].packet == u[Sub16(k, first)]
    ensures SumPayload(packets) <= TotalPayload(u, n)
    decreases n
  {
    if n == 0 {
      assert packets == map[];
    } else {
      var k := Add16(first, n - 1);
      if k in packets {
        SumWithout(packets, k);
        SumBelow(packets - {k}, u, first, n - 1);
      } else {
        assert forall j | j in packets :: Sub16(j, first) == n - 1 ==> j == k;
        SumBelow(packets, u, first, n - 1);
      }
    }
  }

  lemma CountBelow(packets: map<uint16, Observed>, first: uint16, n: nat)
    requires n <= MAX_PACKETS
    requires forall k | k in packets :: Sub16(k, first) < n
    ensures |packets| <= n
  {
    assert packets.Keys <= RunKeys(first, n);
    SubsetIsSmaller(packets.Keys, RunKeys(first, n));
    assert |packets.Keys| == |packets|;
  }

  lemma {:induction false} AdvanceStops(packets: map<uint16, Observed>, next: uint16, distance: uint16, left: nat)
    requires distance <= left < 0x1_0000
    requires forall j: uint16 | j < distance :: Add16(next, j) in packets
    requires Add16(next, distance) !in packets
    ensures Advance(packets, next, left) == Add16(next, distance)
    decreases left
  {
    if distance != 0 {
      assert Add16(next, 0) == next;
      assert forall j: uint16 | j < distance - 1 :: Add16(Next16(next), j) == Add16(next, j + 1);
      AdvanceStops(packets, Next16(next), distance - 1, left - 1);
    }
  }

  lemma PrefixOfMore(r: set<nat>, i: nat, n: nat)
    ensures Prefix(r, 0, n) <= Prefix(r + {i}, 0, n)
  {
  }

  /** From any point of a run of arrived packets, `reorderNext` advances to its end. */
  lemma AdvanceToEnd(packets: map<uint16, Observed>, first: uint16, m: uint16, end: uint16)
    requires m <= end && |packets| <= MAX_PACKETS
    requires forall j: uint16 | j < end :: Add16(first, j) in packets
    requires Add16(first, end) !in packets
    ensures Advance(packets, Add16(first, m), |packets|) == Add16(first, end)
  {
    hide Add16, Advance;
    RunIsCounted(packets, first, end);
    forall j: uint16 | j < end - m
      ensures Add16(Add16(first, m), j) in packets
    {
      AddTwice(first, m, j);
    }
    AddTwice(first, m, end - m);
    AdvanceStops(packets, Add16(first, m), end - m, |packets|);
  }

  lemma AdvanceToPrefix(packets: map<uint16, Observed>, first: uint16, r: set<nat>, n: nat, m: uint16)
    requires n <= MAX_PACKETS && Indexed(packets, first, r, n) && m <= Prefix(r, 0, n)
    ensures Advance(packets, Add16(first, m), |packets|) == Add16(first, Prefix(r, 0, n))
  {
    hide Add16, Advance;
    CountBelow(packets, first, n);
    PrefixEnds(packets, first, r, n);
    PrefixStored(packets, first, r, n);
    AdvanceToEnd(packets, first, m, Prefix(r, 0, n));
  }

  lemma AddTwice(a: uint16, m: uint16, j: uint16)
    requires m + j < 0x1_0000
    ensures Add16(Add16(a, m), j) == Add16(a, m + j)
  {
  }

  lemma PrefixStored(packets: map<uint16, Observed>, first: uint16, r: set<nat>, n: nat)
    requires n <= MAX_PACKETS && Indexed(packets, first, r, n)
    ensures forall j: uint16 | j < Prefix(r, 0, n) :: Add16(first, j) in packets
  {
  }

  lemma PrefixEnds(packets: map<uint16, Observed>, first: uint16, r: set<nat>, n: nat)
    requires n <= MAX_PACKETS && Indexed(packets, first, r, n)
    ensures Add16(first, Prefix(r, 0, n)) !in packets
  {
    assert Sub16(Add16(first, Prefix(r, 0, n)), first) == Prefix(r, 0, n);
  }

  // ---- One more packet ----

  lemma ContentsGrow(q: Pending, u: seq<Packet>, r: set<nat>, i: uint16, o: Observed)
    requires Contents(q, u, r) && i < |u| && i !in r && o.packet == u[i]
    ensures var k := Add16(q.expected, i);
            (k !in q.packets && Contents(q.(packets := q.packets[k := o]), u, r + {i}))
  {
    Wraps(q.expected);
    hide Add16, Sub16;
  }

  lemma ContentsBound(q: Pending, u: seq<Packet>, r: set<nat>)
    requires Contents(q, u, r) && |u| <= MAX_PACKETS
    ensures |q.packets| <= |u| && SumPayload(q.packets) <= TotalPayload(u, |u|)
  {
    CountBelow(q.packets, q.expected, |u|);
    SumBelow(q.packets, u, q.expected, |u|);
  }

  /** An index `i` past the contiguous prefix is `i - m` ahead of `reorderNext`. */
  lemma AheadBy(first: uint16, m: uint16, i: uint16)
    requires m <= i
    ensures Sub16(Add16(first, i), Add16(first, m)) == i - m
  {
  }

  lemma PrefixBelow(r: set<nat>, n: nat, i: nat)
    requires i < n && i !in r
    ensures Prefix(r, 0, n) <= i
  {
  }

  lemma NewPacketFits(q: Pending, s: Stream, u: seq<Packet>, r: set<nat>, i: uint16, o: Observed)
    requires RunShape(s.nextSequence, u) && Holds(q, s, u, r)
    requires i < |u| && o.packet == u[i] && i !in r && i < Prefix(r, 0, |u|) + REORDER_WINDOW
    ensures u[i].sequence !in q.packets
    ensures Sub16(u[i].sequence, q.reorderNext) < REORDER_WINDOW
    ensures |q.packets| < MAX_PACKETS
    ensures |u[i].payload| <= MAX_ACCESS_UNIT - q.payloadBytes
    ensures Contents(q.(packets := q.packets[u[i].sequence := o]), u, r + {i})
    ensures q.payloadBytes + |u[i].payload| == SumPayload(q.packets[u[i].sequence := o])
  {
    hide WindowInv, Add16, Sub16, SumPayload, TotalPayload, FrontierOf, MarkerOf, Prefix, Contents;
    var k := u[i].sequence;
    assert k == Add16(q.expected, i);
    PrefixBelow(r, |u|, i);
    AheadBy(q.expected, Prefix(r, 0, |u|), i);
    ContentsGrow(q, u, r, i, o);
    var q' := q.(packets := q.packets[k := o]);
    ContentsBound(q', u, r + {i});
    SumStored(q.packets, k, o);
  }

  lemma FrontierMoves(q: Pending, r: set<nat>, i: uint16, n: nat)
    requires FrontierOf(q, r) && i < n <= MAX_PACKETS && forall j | j in r :: j < n
    ensures var q2 := ObserveSequence(q, Add16(q.expected, i));
            (FrontierOf(q2, r + {i}) && q2 == q.(frontierSet := true, frontier := q2.frontier))
  {
  }

  lemma MarkerMoves(q: Pending, u: seq<Packet>, r: set<nat>, i: uint16)
    requires i < |u| <= MAX_PACKETS && i !in r && (u[i].marker ==> i == |u| - 1) && MarkerOf(q, u, r)
    ensures !(u[i].marker && q.markerSet)
    ensures MarkerOf(if u[i].marker then SetMarker(q, Add16(q.expected, i)) else q, u, r + {i})
  {
    Wraps(q.expected);
  }

  function Joined(q: Pending, p: Packet, generation: nat, at: int): Pending {
    var stored := Store(ObserveSequence(q, p.sequence), p, generation, at);
    if p.marker then SetMarker(stored, p.sequence) else stored
  }

  /** Storing packet `i` of the unit adds `i` to what the pending unit holds. */
  lemma StoreHolds(q: Pending, s: Stream, u: seq<Packet>, r: set<nat>, i: uint16, generation: nat, at: int)
    requires i < |u| && i !in r && i < Prefix(r, 0, |u|) + REORDER_WINDOW
    requires RunShape(s.nextSequence, u) && Holds(q, s, u, r)
    ensures Holds(Joined(q, u[i], generation, at), s, u, r + {i})
    ensures !(u[i].marker && q.markerSet)
  {
    hide Joined;
    var o := Observed(u[i], generation, at);
    NewPacketFits(q, s, u, r, i, o);
    JoinedHolds(q, s, u, r, i, o);
  }

  lemma JoinedHolds(q: Pending, s: Stream, u: seq<Packet>, r: set<nat>, i: uint16, o: Observed)
    requires i < |u| && i !in r && o.packet == u[i]
    requires u[i].sequence == Add16(q.expected, i) && (u[i].marker ==> i == |u| - 1)
    requires Holds(q, s, u, r)
    requires Sub16(u[i].sequence, q.reorderNext) < REORDER_WINDOW && |q.packets| < MAX_PACKETS
    requires Contents(q.(packets := q.packets[u[i].sequence := o]), u, r + {i})
    requires q.payloadBytes + |u[i].payload| == SumPayload(q.packets[u[i].sequence := o])
    ensures Holds(Joined(q, u[i], o.generation, o.observedAt), s, u, r + {i})
    ensures !(u[i].marker && q.markerSet)
  {
    hide Add16, Sub16, SumPayload, Prefix, Contents, FrontierOf, MarkerOf, Advance, WindowInv, Indexed, ObserveSequence;
    var p, n, r' := u[i], |u|, r + {i};
    var packets := q.packets[p.sequence := o];
    var moved := q.(packets := packets);
    StoreWindow(q, packets, p.sequence, o);
    PrefixOfMore(r, i, n);
    ContentsIndexed(moved, u, r');
    AdvanceToPrefix(packets, q.expected, r', n, Prefix(r, 0, n));
    ContentsIndexed(q, u, r);
    FrontierMoves(q, r, i, n);
    MarkerMoves(q, u, r, i);
    var q' := Joined(q, p, o.generation, o.observedAt);
    SameContents(moved, q', u, r');
    SameFrontier(ObserveSequence(q, p.sequence), q', r');
    SameWindow(moved.(reorderNext := Advance(packets, q.reorderNext, |packets|)), q');
    SameMarker(if p.marker then SetMarker(q, p.sequence) else q, q', u, r');
  }

  lemma SameWindow(q: Pending, q': Pending)
    requires WindowInv(q) && q'.packets == q.packets && q'.expected == q.expected && q'.expectedSet == q.expectedSet && q'.reorderNext == q.reorderNext
    ensures WindowInv(q')
  {
  }

  lemma SameMarker(q: Pending, q': Pending, u: seq<Packet>, r: set<nat>)
    requires u != [] && MarkerOf(q, u, r) && q'.markerSet == q.markerSet && q'.markerExplicit == q.markerExplicit && q'.marker == q.marker && q'.expected == q.expected
    ensures MarkerOf(q', u, r)
  {
  }

  lemma ContentsIndexed(q: Pending, u: seq<Packet>, r: set<nat>)
    requires Contents(q, u, r)
    ensures Indexed(q.packets, q.expected, r, |u|) && forall i | i in r :: i < |u|
  {
  }

  lemma SameContents(q: Pending, q': Pending, u: seq<Packet>, r: set<nat>)
    requires Contents(q, u, r) && q'.packets == q.packets && q'.expected == q.expected
    ensures Contents(q', u, r)
  {
  }

  lemma SameFrontier(q: Pending, q': Pending, r: set<nat>)
    requires FrontierOf(q, r) && q'.frontierSet == q.frontierSet && q'.frontier == q.frontier && q'.expected == q.expected
    ensures FrontierOf(q', r)
  {
  }

  /** The unit is ordered exactly when the last hole is filled. */
  lemma OrderedWhenCovered(q: Pending, u: seq<Packet>, r: set<nat>)
    requires RunShape(q.expected, u) && q.expectedSet && Contents(q, u, r) && WindowInv(q) && MarkerAt(q, u, r)
    ensures OrderedPackets(q) == if EndsMarked(u) && Covers(r, |u|) then Ordered(u) else Incomplete
  {
    hide RunShape, Reach, TooFar, WindowInv, SumPayload, Prefix, Add16, Sub16, Contents;
    RunSize(q.expected, u);
    if q.markerSet {
      var n := |u|;
      NotTooFar(q, u, r);
      ContentsBound(q, u, r);
      ReachIsExpected(q);
      if Covers(r, n) {
        AllStored(q, u, r);
      } else {
        var i :| 0 <= i < n && i !in r;
        MissingHole(q, u, r, i);
      }
    }
  }

  lemma RunSize(first: uint16, u: seq<Packet>)
    requires RunShape(first, u)
    ensures 1 <= |u| <= MAX_PACKETS
  {
    hide TotalPayload;
  }

  lemma NotTooFar(q: Pending, u: seq<Packet>, r: set<nat>)
    requires Contents(q, u, r) && 1 <= |u| <= MAX_PACKETS && q.expectedSet && Sub16(q.marker, q.expected) == |u| - 1
    ensures !TooFar(q)
  {
  }

  lemma MissingHole(q: Pending, u: seq<Packet>, r: set<nat>, i: nat)
    requires Contents(q, u, r) && 1 <= |u| <= MAX_PACKETS && Sub16(q.marker, q.expected) == |u| - 1
    requires i < |u| && i !in r
    ensures Sub16(q.marker, |u| - 1 - i) !in q.packets
  {
    BackFromMarker(q.expected, q.marker, |u| - 1 - i);
    Wraps(q.expected);
    hide Add16, Sub16;
  }

  lemma BackFromMarker(first: uint16, marker: uint16, d: uint16)
    requires d <= Sub16(marker, first)
    ensures Sub16(marker, d) == Add16(first, Sub16(marker, first) - d)
  {
  }

  lemma AllStored(q: Pending, u: seq<Packet>, r: set<nat>)
    requires Contents(q, u, r) && 1 <= |u| <= MAX_PACKETS && Sub16(q.marker, q.expected) == |u| - 1 && Covers(r, |u|)
    ensures |q.packets| == |u|
    ensures forall d: uint16 | d <= |u| - 1 :: Sub16(q.marker, d) in q.packets
    ensures Run(q, |u| - 1) == u
  {
    hide Run, SumPayload, TotalPayload;
    var n := |u|;
    Wraps(q.expected);
    ContentsBound(q, u, r);
    hide Add16, Sub16;
    RunIsCounted(q.packets, q.expected, n);
    forall d: uint16 | d <= n - 1
      ensures Sub16(q.marker, d) in q.packets && q.packets[Sub16(q.marker, d)].packet == u[n - 1 - d]
    {
      BackFromMarker(q.expected, q.marker, d);
    }
    var run := Run(q, n - 1);
    forall i | 0 <= i < n
      ensures run[i] == u[i]
    {
      assert run[i] == q.packets[Sub16(q.marker, n - 1 - i)].packet;
    }
  }

  // ---- One arrival ----

  lemma AnchoredShape(s: Stream, u: seq<Packet>)
    requires AnchoredUnit(s, u)
    ensures UnitShape(s.nextSequence, u)
  {
    hide TotalPayload, Depacketized;
  }

  lemma ProcessIsInsert(st: Stream, p: Packet, generation: nat, watermark: nat, at: int, want: bool)
    requires st.draining.None? && p.timestamp !in st.completed && !Malformed(p)
    requires st.pending.Some? ==> st.pending.value.timestamp == p.timestamp && !Gap(st.pending.value.lastObserved, at)
    ensures Process(st, p, generation, watermark, at, want) == Insert(st, p, generation, watermark, at, want)
  {
    hide Insert, FinishAtTimestampTransition, DiscardPending, DrainPacket;
  }

  lemma DuplicateArrival(st: Stream, s: Stream, u: seq<Packet>, q: Pending, r: set<nat>, a: Arrival, watermark: nat, want: bool)
    requires a.index in r && a.index < |u|
    requires RunShape(s.nextSequence, u) && Holds(q, s, u, r)
    requires Touch(st, u[a.index], a.generation, a.at) == s.(pending := Some(q))
    ensures Insert(st, u[a.index], a.generation, watermark, a.at, want) == Emission(s.(pending := Some(q)), None)
  {
    hide Touch, Admit, DiscardPending, SequenceWithinReorderWindow, ObserveSequence, WindowInv, FrontierOf, MarkerOf, SumPayload, TotalPayload, Prefix;
    Wraps(q.expected);
    hide Add16, Sub16;
    assert u[a.index].sequence == Add16(q.expected, a.index);
  }

  lemma NewArrival(st: Stream, s: Stream, u: seq<Packet>, q: Pending, r: set<nat>, a: Arrival, watermark: nat, want: bool)
    requires a.index < |u| && a.index !in r && a.index < Prefix(r, 0, |u|) + REORDER_WINDOW
    requires RunShape(s.nextSequence, u) && Holds(q, s, u, r)
    requires Touch(st, u[a.index], a.generation, a.at) == s.(pending := Some(q))
    ensures Insert(st, u[a.index], a.generation, watermark, a.at, want)
         == TryComplete(s.(pending := Some(Joined(q, u[a.index], a.generation, a.at))), watermark, a.at, want)
  {
    hide Touch, TryComplete, DiscardPending, Contents, WindowInv, FrontierOf, SumPayload, TotalPayload, Prefix, Sub16, Add16, Store;
    var p := u[a.index];
    NewPacketFits(q, s, u, r, a.index, Observed(p, a.generation, a.at));
    StoreHolds(q, s, u, r, a.index, a.generation, a.at);
    hide RunShape, Holds;
    ObserveFrame(q, p.sequence);
    StoreMarker(ObserveSequence(q, p.sequence), p, a.generation, a.at);
  }

  lemma ObserveFrame(q: Pending, sequence: uint16)
    ensures var q2 := ObserveSequence(q, sequence);
            q2 == q.(frontierSet := q2.frontierSet, frontier := q2.frontier)
  {
  }

  lemma StoreMarker(q: Pending, p: Packet, generation: nat, at: int)
    ensures Store(q, p, generation, at).markerSet == q.markerSet
  {
  }

  lemma NotYet(s: Stream, u: seq<Packet>, q: Pending, r: set<nat>, watermark: nat, at: int, want: bool)
    requires RunShape(s.nextSequence, u) && Holds(q, s, u, r) && !(EndsMarked(u) && Covers(r, |u|) && Completable(u))
    ensures TryComplete(s.(pending := Some(q)), watermark, at, want) == Emission(s.(pending := Some(q)), None)
  {
    OrderedWhenCovered(q, u, r);
    hide OrderedPackets;
  }

  lemma CompletionIsFinished(s: Stream, u: seq<Packet>, q: Pending, r: set<nat>, watermark: nat, at: int, want: bool)
    requires s.pending.None? && Completable(u)
    requires UnitShape(s.nextSequence, u) && Holds(q, s, u, r) && Covers(r, |u|)
    ensures TryComplete(s.(pending := Some(q)), watermark, at, want) == Finished(s, u, q.minGeneration, watermark, at, want)
  {
    OrderedWhenCovered(q, u, r);
    EndsTogether(q, s, u, r);
    hide OrderedPackets, Holds, RunShape, Depacketized, Retire, Finished, EndsMarked;
    RetireIsFinished(s, u, q, watermark, at, want);
  }

  lemma RetireIsFinished(s: Stream, u: seq<Packet>, q: Pending, watermark: nat, at: int, want: bool)
    requires u != [] && s.pending.None?
    requires var last := u[|u| - 1];
             q.marker == last.sequence && q.frontier == last.sequence && q.frontierSet && q.timestamp == last.timestamp && q.expectedSet
    ensures Retire(s.(pending := Some(q)), q, Depacketized(u), Next16(q.marker), watermark, at, want)
         == Finished(s, u, q.minGeneration, watermark, at, want)
  {
    assert s.(pending := Some(q)).(pending := None) == s;
    hide Depacketized, Accept, RememberCompleted, SetSequenceAnchor;
    var last := u[|u| - 1];
    RememberCommutes(s, last.timestamp, last.sequence, true, Next16(last.sequence));
  }

  /** The frontier of a complete run, and its marker if it has one, sit on its last packet. */
  lemma EndsTogether(q: Pending, s: Stream, u: seq<Packet>, r: set<nat>)
    requires RunShape(s.nextSequence, u) && Holds(q, s, u, r) && Covers(r, |u|)
    ensures var last := u[|u| - 1];
            (&& q.markerSet == EndsMarked(u) && (q.markerSet ==> q.marker == last.sequence)
             && q.frontier == last.sequence && q.frontierSet && q.timestamp == last.timestamp && q.expectedSet)
  {
    hide WindowInv, SumPayload, TotalPayload, Prefix;
    Wraps(q.expected);
    hide Add16, Sub16;
    assert u[|u| - 1].sequence == Add16(q.expected, |u| - 1);
    assert |u| - 1 in r;
  }

  // ---- All arrivals ----

  /** Between the first arrival and the one that fills the last hole. */
  ghost predicate Waiting(st: Stream, s: Stream, u: seq<Packet>, arrivals: seq<Arrival>)
    requires u != []
  {
    if arrivals == [] then st == s
    else
      && st.pending.Some? && st == s.(pending := st.pending)
      && Holds(st.pending.value, s, u, Received(arrivals))
      && st.pending.value.lastObserved == arrivals[|arrivals| - 1].at
      && st.pending.value.minGeneration == MinGeneration(arrivals)
  }

  lemma FirstTouch(s: Stream, u: seq<Packet>, a: Arrival)
    requires AnchoredRun(s, u) && a.index < |u|
    ensures var held := Touch(s, u[a.index], a.generation, a.at);
            (&& held == s.(pending := held.pending) && Holds(held.pending.value, s, u, {})
             && held.pending.value.lastObserved == a.at && held.pending.value.minGeneration == a.generation)
  {
    hide TotalPayload, Depacketized, HistoryInv;
    assert Add16(s.nextSequence, 0) == s.nextSequence;
  }

  lemma LaterTouch(st: Stream, s: Stream, u: seq<Packet>, r: set<nat>, a: Arrival)
    requires u != [] && a.index < |u| && st.pending.Some? && st == s.(pending := st.pending) && Holds(st.pending.value, s, u, r)
    ensures var held := Touch(st, u[a.index], a.generation, a.at);
            (&& held == s.(pending := held.pending) && Holds(held.pending.value, s, u, r)
             && held.pending.value == st.pending.value.(lastObserved := a.at))
  {
    hide WindowInv, SumPayload, Prefix, Indexed;
    var q := st.pending.value;
    SameContents(q, q.(lastObserved := a.at), u, r);
    SameWindow(q, q.(lastObserved := a.at));
    SameFrontier(q, q.(lastObserved := a.at), r);
    SameMarker(q, q.(lastObserved := a.at), u, r);
  }

  /** What `Touch` makes of the stream before completion, and that `process` gets that far. */
  lemma Touched(s: Stream, u: seq<Packet>, before: seq<Arrival>, a: Arrival, st: Stream, watermark: nat, want: bool)
    requires AnchoredRun(s, u) && a.index < |u| && Waiting(st, s, u, before)
    requires before != [] ==> a.at - before[|before| - 1].at < MAX_GAP
    ensures var held := Touch(st, u[a.index], a.generation, a.at);
            (&& held == s.(pending := held.pending) && Holds(held.pending.value, s, u, Received(before))
             && held.pending.value.lastObserved == a.at
             && held.pending.value.minGeneration == if before == [] then a.generation else MinGeneration(before))
    ensures Process(st, u[a.index], a.generation, watermark, a.at, want) == Insert(st, u[a.index], a.generation, watermark, a.at, want)
  {
    var p := u[a.index];
    assert p.timestamp == u[0].timestamp && !Malformed(p);
    if before == [] {
      FirstTouch(s, u, a);
    } else {
      LaterTouch(st, s, u, Received(before), a);
    }
    hide Touch, Prefix, HistoryInv, Depacketized, RunShape, Process, Insert, WindowInv, Contents, FrontierOf, MarkerOf;
    ProcessIsInsert(st, p, a.generation, watermark, a.at, want);
  }

  /** One admissible arrival before completion. */
  lemma ArrivalStep(s: Stream, u: seq<Packet>, before: seq<Arrival>, a: Arrival, st: Stream, watermark: nat, want: bool)
    requires AnchoredRun(s, u) && a.index < |u| && Waiting(st, s, u, before)
    requires a.index !in Received(before) ==> a.index < Prefix(Received(before), 0, |u|) + REORDER_WINDOW
    requires before != [] ==> a.at - before[|before| - 1].at < MAX_GAP
    requires EndsMarked(u) ==> !Covers(Received(before), |u|)
    ensures var o := Process(st, u[a.index], a.generation, watermark, a.at, want);
            (if EndsMarked(u) && Covers(Received(before + [a]), |u|) && Completable(u)
             then o == Finished(s, u, MinGeneration(before + [a]), watermark, a.at, want)
             else o.data == None && Waiting(o.stream, s, u, before + [a]))
  {
    hide HistoryInv, Completable, Process, Finished, Insert, Touch, Holds, Covers, Prefix, Joined;
    var all := before + [a];
    assert all[..|all| - 1] == before && all[|all| - 1] == a;
    var r := Received(before);
    assert Received(all) == r + {a.index};
    assert a.index in r ==> r + {a.index} == r;
    Touched(s, u, before, a, st, watermark, want);
    var q := Touch(st, u[a.index], a.generation, a.at).pending.value;
    TouchedStep(s, u, r, a, st, q, watermark, want);
    JoinedFields(q, u[a.index], a.generation, a.at);
  }

  /** The arrival of one packet, from the moment the pending unit has been touched. */
  lemma TouchedStep(s: Stream, u: seq<Packet>, r: set<nat>, a: Arrival, st: Stream, q: Pending, watermark: nat, want: bool)
    requires s.pending.None? && RunShape(s.nextSequence, u)
    requires a.index < |u| <= MAX_PACKETS && (a.index !in r ==> a.index < Prefix(r, 0, |u|) + REORDER_WINDOW)
    requires Touch(st, u[a.index], a.generation, a.at) == s.(pending := Some(q)) && Holds(q, s, u, r)
    ensures var o := Insert(st, u[a.index], a.generation, watermark, a.at, want);
            var q' := Joined(q, u[a.index], a.generation, a.at);
            (if a.index in r then o == Emission(s.(pending := Some(q)), None)
             else if EndsMarked(u) && Covers(r + {a.index}, |u|) && Completable(u) then o == Finished(s, u, q'.minGeneration, watermark, a.at, want)
             else o == Emission(s.(pending := Some(q')), None) && Holds(q', s, u, r + {a.index}))
  {
    hide Insert, TryComplete, Finished, RunShape, Holds, Touch, Prefix, Completable, Joined;
    if a.index in r {
      DuplicateArrival(st, s, u, q, r, a, watermark, want);
    } else {
      NewArrival(st, s, u, q, r, a, watermark, want);
      StoreHolds(q, s, u, r, a.index, a.generation, a.at);
      var q' := Joined(q, u[a.index], a.generation, a.at);
      if EndsMarked(u) && Covers(r + {a.index}, |u|) && Completable(u) {
        CompletionIsFinished(s, u, q', r + {a.index}, watermark, a.at, want);
      } else {
        NotYet(s, u, q', r + {a.index}, watermark, a.at, want);
      }
    }
  }

  lemma JoinedFields(q: Pending, p: Packet, generation: nat, at: int)
    ensures var q' := Joined(q, p, generation, at);
            (&& q'.lastObserved == q.lastObserved
             && q'.minGeneration == if generation < q.minGeneration then generation else q.minGeneration)
  {
  }

  lemma CoversGrows(r: set<nat>, i: nat, n: nat)
    ensures Covers(r, n) ==> Covers(r + {i}, n)
  {
  }

  /** Nothing is emitted, and nothing but the pending unit changes, before the last hole is filled. */
  lemma {:induction false} NothingBeforeLastHole(s: Stream, u: seq<Packet>, arrivals: seq<Arrival>, watermark: nat, want: bool)
    requires AnchoredUnit(s, u) && Admissible(arrivals, |u|) && !Covers(Received(arrivals), |u|)
    requires forall a | a in arrivals :: a.index < |u|
    ensures Deliver(s, u, arrivals, watermark, want).data == None
    ensures Waiting(Deliver(s, u, arrivals, watermark, want).stream, s, u, arrivals)
    decreases |arrivals|
  {
    hide AnchoredRun, Process, Finished;
    if arrivals != [] {
      var before, a := arrivals[..|arrivals| - 1], arrivals[|arrivals| - 1];
      assert arrivals == before + [a];
      CoversGrows(Received(before), a.index, |u|);
      NothingBeforeLastHole(s, u, before, watermark, want);
      ArrivalStep(s, u, before, a, Deliver(s, u, before, watermark, want).stream, watermark, want);
    }
  }

  /** The number of arrivals after which every packet is there. */
  ghost function CompletedAt(arrivals: seq<Arrival>, n: nat): (k: nat)
    requires n >= 1 && Covers(Received(arrivals), n)
    ensures 1 <= k <= |arrivals|
    ensures Covers(Received(arrivals[..k]), n)
    ensures !Covers(Received(arrivals[..k - 1]), n)
    decreases |arrivals|
  {
    assert 0 in Received(arrivals);
    var m := |arrivals| - 1;
    assert arrivals[..m + 1] == arrivals;
    if Covers(Received(arrivals[..m]), n) then
      var k := CompletedAt(arrivals[..m], n);
      assert arrivals[..m][..k] == arrivals[..k] && arrivals[..m][..k - 1] == arrivals[..k - 1];
      k
    else |arrivals|
  }

  lemma CompletionArrival(s: Stream, u: seq<Packet>, before: seq<Arrival>, a: Arrival, watermark: nat, want: bool)
    requires AnchoredUnit(s, u) && Completable(u) && Admissible(before + [a], |u|)
    requires !Covers(Received(before), |u|) && Covers(Received(before + [a]), |u|)
    requires forall b | b in before + [a] :: b.index < |u|
    ensures Deliver(s, u, before + [a], watermark, want) == Finished(s, u, MinGeneration(before + [a]), watermark, a.at, want)
  {
    hide AnchoredRun, Process, Finished;
    assert (before + [a])[..|before|] == before;
    NothingBeforeLastHole(s, u, before, watermark, want);
    ArrivalStep(s, u, before, a, Deliver(s, u, before, watermark, want).stream, watermark, want);
  }

  /** A unit the depacketizer finds incomplete stays pending even when all its packets are there. */
  lemma IncompleteStaysPending(s: Stream, u: seq<Packet>, before: seq<Arrival>, a: Arrival, watermark: nat, want: bool)
    requires AnchoredUnit(s, u) && !Completable(u) && Admissible(before + [a], |u|)
    requires !Covers(Received(before), |u|)
    requires forall b | b in before + [a] :: b.index < |u|
    ensures Deliver(s, u, before + [a], watermark, want).data == None
    ensures Deliver(s, u, before + [a], watermark, want).stream.pending.Some?
  {
    hide AnchoredRun, Process, Finished, Holds;
    assert (before + [a])[..|before|] == before;
    NothingBeforeLastHole(s, u, before, watermark, want);
    ArrivalStep(s, u, before, a, Deliver(s, u, before, watermark, want).stream, watermark, want);
  }

  /** After completion every further copy of a packet of the unit is ignored. */
  lemma LateCopyIgnored(s: Stream, u: seq<Packet>, i: uint16, minGeneration: nat, doneAt: int, generation: nat, at: int, watermark: nat, want: bool)
    requires AnchoredUnit(s, u) && i < |u|
    ensures var st := Finished(s, u, minGeneration, watermark, doneAt, want).stream;
            Process(st, u[i], generation, watermark, at, want) == Emission(st, None)
  {
    var st := Finished(s, u, minGeneration, watermark, doneAt, want).stream;
    FinishedShape(s, u, minGeneration, watermark, doneAt, want);
    AnchoredShape(s, u);
    var last := u[|u| - 1];
    assert u[i].sequence == Add16(s.nextSequence, i) && last.sequence == Add16(s.nextSequence, |u| - 1);
    assert u[i].timestamp == last.timestamp && !Malformed(u[i]);
    CopyDistance(s.nextSequence, i, |u| - 1);
    hide Finished, AnchoredUnit, UnitShape, Insert, DrainPacket, FinishDrainUnit, FinishAtTimestampTransition, PoisonPacket, Add16, Sub16;
    assert RejectCompleted(st, u[i]) == (st, true);
  }

  lemma CopyDistance(first: uint16, i: uint16, n: uint16)
    requires i <= n < MAX_PACKETS
    ensures var d := Sub16(Add16(first, i), Add16(first, n));
            d == 0 || d >= HALF_RANGE
  {
  }

  lemma FinishedShape(s: Stream, u: seq<Packet>, minGeneration: nat, watermark: nat, at: int, want: bool)
    requires AnchoredUnit(s, u)
    ensures var st := Finished(s, u, minGeneration, watermark, at, want).stream;
            var last := u[|u| - 1];
            (&& st.pending.None? && st.draining.None?
             && last.timestamp in st.completed && st.completed[last.timestamp] == Done(last.sequence, true))
  {
    hide Depacketized, TotalPayload, FramedSize, Frame, NonParameters, ValidParameters, Distinct;
  }

  /** Reorder confluence. Whatever the admissible order and duplication, once every packet of the
      unit has arrived the stream is `Finished` of the unit: the candidate is emitted by the arrival
      that fills the last hole and by no other, and later copies change nothing. */
  lemma {:induction false} ReorderConfluence(s: Stream, u: seq<Packet>, arrivals: seq<Arrival>, watermark: nat, want: bool)
    requires AnchoredUnit(s, u) && Completable(u) && Admissible(arrivals, |u|) && Covers(Received(arrivals), |u|)
    requires forall a | a in arrivals :: a.index < |u|
    ensures var k := CompletedAt(arrivals, |u|);
            var done := Finished(s, u, MinGeneration(arrivals[..k]), watermark, arrivals[k - 1].at, want);
            (&& Deliver(s, u, arrivals, watermark, want).stream == done.stream
             && Deliver(s, u, arrivals, watermark, want).data == (if k == |arrivals| then done.data else None))
    decreases |arrivals|
  {
    var n := |u|;
    assert 1 <= n <= MAX_PACKETS by {
      AnchoredShape(s, u);
    }
    assert 0 in Received(arrivals);
    var m := |arrivals| - 1;
    var before, a := arrivals[..m], arrivals[m];
    assert arrivals == before + [a];
    CompletedAtStep(arrivals, n);
    hide Process, Finished, AnchoredUnit, Covers, CompletedAt, MinGeneration, Received;
    if Covers(Received(before), n) {
      ReorderConfluence(s, u, before, watermark, want);
      var k := CompletedAt(arrivals, n);
      LateCopyIgnored(s, u, a.index, MinGeneration(arrivals[..k]), arrivals[k - 1].at, a.generation, a.at, watermark, want);
    } else {
      CompletionArrival(s, u, before, a, watermark, want);
    }
  }

  /** The unit was complete before the last arrival, or is complete with it. */
  lemma CompletedAtStep(arrivals: seq<Arrival>, n: nat)
    requires arrivals != [] && Covers(Received(arrivals), n) && n >= 1
    ensures var before, k := arrivals[..|arrivals| - 1], CompletedAt(arrivals, n);
            if Covers(Received(before), n)
            then k == CompletedAt(before, n) && k <= |before| && k >= 1 && before[..k] == arrivals[..k] && before[k - 1] == arrivals[k - 1]
            else k == |arrivals| && arrivals[..k] == arrivals
  {
    var before := arrivals[..|arrivals| - 1];
    if Covers(Received(before), n) {
      assert 0 in Received(before);
      var k := CompletedAt(before, n);
      assert before[..k] == arrivals[..k];
    }
  }

  /** What the two orders are compared on. */
  ghost predicate SameResult(a: Emission, b: Emission) {
    && a.data == b.data
    && a.stream == b.stream.(candidateAt := a.stream.candidateAt, candidateGeneration := a.stream.candidateGeneration)
  }

  /** Two admissible orders of the same unit, both seen wholly after the watermark, complete with the
      same bytes, parameter sets, anchor and history. */
  lemma OrderDoesNotMatter(s: Stream, u: seq<Packet>, a: seq<Arrival>, b: seq<Arrival>, watermark: nat, want: bool)
    requires AnchoredUnit(s, u) && Completable(u)
    requires Admissible(a, |u|) && Covers(Received(a), |u|) && forall x | x in a :: x.index < |u| && x.generation > watermark
    requires Admissible(b, |u|) && Covers(Received(b), |u|) && forall x | x in b :: x.index < |u| && x.generation > watermark
    ensures var i, j := CompletedAt(a, |u|), CompletedAt(b, |u|);
            SameResult(Deliver(s, u, a[..i], watermark, want), Deliver(s, u, b[..j], watermark, want))
    ensures Deliver(s, u, a, watermark, want).stream
         == Deliver(s, u, b, watermark, want).stream.(
              candidateAt := Deliver(s, u, a, watermark, want).stream.candidateAt,
              candidateGeneration := Deliver(s, u, a, watermark, want).stream.candidateGeneration)
  {
    AnchoredShape(s, u);
    hide Process, AnchoredUnit, Finished, Deliver, Admissible;
    var i, j := CompletedAt(a, |u|), CompletedAt(b, |u|);
    ReorderConfluence(s, u, a, watermark, want);
    ReorderConfluence(s, u, b, watermark, want);
    CompletedPrefix(a, |u|);
    CompletedPrefix(b, |u|);
    ReorderConfluence(s, u, a[..i], watermark, want);
    ReorderConfluence(s, u, b[..j], watermark, want);
    LaterGenerations(a[..i], watermark);
    LaterGenerations(b[..j], watermark);
    FinishedAgree(s, u, MinGeneration(a[..i]), a[i - 1].at, MinGeneration(b[..j]), b[j - 1].at, watermark, want);
  }

  lemma FinishedAgree(s: Stream, u: seq<Packet>, g: nat, at: int, h: nat, bt: int, watermark: nat, want: bool)
    requires u != [] && g > watermark && h > watermark
    ensures SameResult(Finished(s, u, g, watermark, at, want), Finished(s, u, h, watermark, bt, want))
  {
    hide Depacketized, Accept, RememberCompleted;
  }

  lemma {:induction false} LaterGenerations(arrivals: seq<Arrival>, watermark: nat)
    requires arrivals != [] && forall a | a in arrivals :: a.generation > watermark
    ensures MinGeneration(arrivals) > watermark
    decreases |arrivals|
  {
    var before := arrivals[..|arrivals| - 1];
    if before != [] {
      LaterGenerations(before, watermark);
    }
  }

  lemma {:induction false} CompletedPrefix(arrivals: seq<Arrival>, n: nat)
    requires n >= 1 && Admissible(arrivals, n) && Covers(Received(arrivals), n)
    ensures var k := CompletedAt(arrivals, n);
            Admissible(arrivals[..k], n) && CompletedAt(arrivals[..k], n) == k && arrivals[..k][..k] == arrivals[..k]
    decreases |arrivals|
  {
    assert 0 in Received(arrivals);
    var m := |arrivals| - 1;
    assert arrivals[..m + 1] == arrivals;
    var k := CompletedAt(arrivals, n);
    if k <= m {
      CompletedPrefix(arrivals[..m], n);
      assert arrivals[..m][..k] == arrivals[..k];
    } else {
      assert arrivals[..k] == arrivals;
    }
  }

  // ---- In-order arrival is one of the admissible orders ----

  function InOrder(n: nat, generation: nat, at: int): seq<Arrival> {
    if n == 0 then [] else InOrder(n - 1, generation, at) + [Arrival(n - 1, generation, at)]
  }

  lemma {:induction false} InOrderReceived(n: nat, generation: nat, at: int)
    ensures |InOrder(n, generation, at)| == n
    ensures forall i: nat :: i in Received(InOrder(n, generation, at)) <==> i < n
    ensures forall a | a in InOrder(n, generation, at) :: a.index < n && a.generation == generation && a.at == at
  {
    if n != 0 {
      InOrderReceived(n - 1, generation, at);
      assert InOrder(n, generation, at)[..n - 1] == InOrder(n - 1, generation, at);
    }
  }

  lemma {:induction false} InOrderIsAdmissible(n: nat, total: nat, generation: nat, at: int)
    requires n <= total
    ensures Admissible(InOrder(n, generation, at), total)
  {
    if n != 0 {
      InOrderIsAdmissible(n - 1, total, generation, at);
      InOrderReceived(n - 1, generation, at);
      var arrivals, before := InOrder(n, generation, at), InOrder(n - 1, generation, at);
      assert arrivals[..|arrivals| - 1] == before && arrivals[|arrivals| - 1] == Arrival(n - 1, generation, at);
      hide Prefix, InOrder, Received, Covers;
      PrefixBelow(Received(before), total, n - 1);
      assert before != [] ==> before[|before| - 1] in before;
    }
  }

  /** Any admissible order gives what in-order arrival gives. */
  lemma SameAsInOrder(s: Stream, u: seq<Packet>, a: seq<Arrival>, watermark: nat, want: bool, at: int)
    requires AnchoredUnit(s, u) && Completable(u)
    requires Admissible(a, |u|) && Covers(Received(a), |u|) && forall x | x in a :: x.index < |u| && x.generation > watermark
    ensures var b := InOrder(|u|, watermark + 1, at);
            (&& |b| == |u| && (forall x | x in b :: x.index < |u|)
             && SameResult(Deliver(s, u, a[..CompletedAt(a, |u|)], watermark, want), Deliver(s, u, b, watermark, want)))
  {
    AnchoredShape(s, u);
    hide Process, AnchoredUnit, UnitShape, Deliver, Admissible, InOrder, Received, SameResult;
    var n := |u|;
    InOrderIsAdmissible(n, n, watermark + 1, at);
    InOrderReceived(n, watermark + 1, at);
    var b := InOrder(n, watermark + 1, at);
    OrderDoesNotMatter(s, u, a, b, watermark, want);
    InOrderNotBefore(n, watermark + 1, at);
    assert CompletedAt(b, n) == n;
    assert b[..n] == b;
  }

  lemma InOrderNotBefore(n: nat, generation: nat, at: int)
    ensures |InOrder(n, generation, at)| == n
    ensures forall j | 0 <= j < n :: !Covers(Received(InOrder(n, generation, at)[..j]), n)
  {
    InOrderPrefix(n, n, generation, at);
    forall j | 0 <= j < n
      ensures !Covers(Received(InOrder(n, generation, at)[..j]), n)
    {
      InOrderPrefix(n, j, generation, at);
      InOrderReceived(j, generation, at);
      assert j !in Received(InOrder(j, generation, at));
    }
  }

  lemma {:induction false} InOrderPrefix(n: nat, j: nat, generation: nat, at: int)
    requires j <= n
    ensures |InOrder(n, generation, at)| == n
    ensures InOrder(n, generation, at)[..j] == InOrder(j, generation, at)
  {
    if n != 0 {
      InOrderPrefix(n - 1, if j < n then j else n - 1, generation, at);
    }
  }
}
