/** What holds of the assembler in every state it can reach, and of every frame it hands out. */
module StreamSafety {
  import opened Options
  import opened Octets
  import opened Rtp
  import opened NalPayload
  import opened Depacketizer
  import opened StreamModel
  import RoundTrip

  // ---- Stored bytes ----

  ghost function SumPayload(packets: map<uint16, Observed>): nat
    decreases |packets|
  {
    if packets == map[] then 0
    else
      var k :| k in packets;
      |packets[k].packet.payload| + SumPayload(packets - {k})
  }

  lemma {:induction false} SumWithout(packets: map<uint16, Observed>, k: uint16)
    requires k in packets
    ensures SumPayload(packets) == |packets[k].packet.payload| + SumPayload(packets - {k})
    decreases |packets|
  {
    var c :| c in packets && SumPayload(packets) == |packets[c].packet.payload| + SumPayload(packets - {c});
    if c != k {
      SumWithout(packets - {c}, k);
      SumWithout(packets - {k}, c);
      assert packets - {c} - {k} == packets - {k} - {c};
    }
  }

  lemma SumStored(packets: map<uint16, Observed>, k: uint16, o: Observed)
    requires k !in packets
    ensures SumPayload(packets[k := o]) == SumPayload(packets) + |o.packet.payload|
  {
    SumWithout(packets[k := o], k);
    assert packets[k := o] - {k} == packets;
  }

  // ---- The invariant ----

  /** A packet together with the observation number it arrived under. */
  datatype Sighting = Sighting(packet: Packet, generation: nat)

  ghost predicate Seen(hist: set<Sighting>, timestamp: uint32, sequence: uint16) {
    exists o | o in hist :: o.packet.timestamp == timestamp && o.packet.sequence == sequence
  }

  ghost predicate HistoryInv(s: Stream) {
    && Distinct(s.completedOrder)
    && (forall t | t in s.completedOrder :: t in s.completed)
    && (forall t | t in s.completed :: t in s.completedOrder)
    && |s.completedOrder| <= MAX_COMPLETED
  }

  ghost predicate AnchorInv(s: Stream, hist: set<Sighting>) {
    && s.haveNext == s.anchorSet
    && (s.haveNext ==> s.anchorTimestamp in s.completed && Seen(hist, s.anchorTimestamp, Prev16(s.nextSequence)))
  }

  ghost predicate ParameterInv(p: Option<Bytes>, t: byte) {
    p.Some? ==> WellFormedNalu(p.value) && NalType(p.value[0]) == t && |p.value| <= MAX_PARAMETER
  }

  ghost predicate ParametersInv(s: Stream) {
    && ParameterInv(s.sps, SPS_TYPE)
    && ParameterInv(s.pps, PPS_TYPE)
    && FramedSize(Present(s.sps) + Present(s.pps)) <= MAX_PARAMETERS
  }

  /** Everything from the expected start up to `reorderNext` has arrived, and nothing reaches
      further than the reorder window beyond it. */
  ghost predicate WindowInv(q: Pending) {
    q.expectedSet ==>
      && (forall j: uint16 | j < Sub16(q.reorderNext, q.expected) :: Add16(q.expected, j) in q.packets)
      && (forall k | k in q.packets :: Sub16(k, q.expected) < Sub16(q.reorderNext, q.expected) + REORDER_WINDOW)
  }

  ghost predicate StoredInv(q: Pending, hist: set<Sighting>) {
    forall k | k in q.packets ::
      var o := q.packets[k];
      && Sighting(o.packet, o.generation) in hist
      && o.packet.sequence == k && o.packet.timestamp == q.timestamp
      && o.packet.version == 2 && |o.packet.payload| != 0
      && o.generation >= q.minGeneration
      && (o.packet.marker ==> q.markerSet && q.marker == k)
  }

  ghost predicate BytesInv(q: Pending) {
    && |q.packets| <= MAX_PACKETS
    && q.payloadBytes == SumPayload(q.packets) <= MAX_ACCESS_UNIT
  }

  ghost predicate FrontierInv(q: Pending, hist: set<Sighting>) {
    q.frontierSet ==> Seen(hist, q.timestamp, q.frontier)
  }

  ghost predicate PendingInv(q: Pending, hist: set<Sighting>) {
    && BytesInv(q)
    && StoredInv(q, hist)
    && WindowInv(q)
    && FrontierInv(q, hist)
    && (q.markerSet ==> q.marker in q.packets)
    && q.markerSet == q.markerExplicit
  }

  ghost predicate DrainingInv(u: Draining, hist: set<Sighting>) {
    && (u.haveSequence ==> Seen(hist, u.timestamp, u.lastSequence))
    && u.packetCount <= MAX_PACKETS && u.payloadBytes <= MAX_ACCESS_UNIT && u.projectedBytes <= MAX_ACCESS_UNIT
    && u.fuZeroRun <= 2 && |u.fuParameter| <= MAX_PARAMETER
    && ParameterInv(u.sps, SPS_TYPE) && ParameterInv(u.pps, PPS_TYPE)
    && (!u.invalid && u.fu.open && (u.fu.typ == SPS_TYPE || u.fu.typ == PPS_TYPE) ==>
          |u.fuParameter| != 0 && !Forbidden(u.fuParameter[0]) && NalType(u.fuParameter[0]) == u.fu.typ)
  }

  ghost predicate CoreInv(s: Stream, hist: set<Sighting>) {
    HistoryInv(s) && AnchorInv(s, hist) && ParametersInv(s)
  }

  ghost predicate Inv(s: Stream, hist: set<Sighting>) {
    && CoreInv(s, hist)
    && !(s.pending.Some? && s.draining.Some?)
    && (s.pending.Some? ==>
          && s.pending.value.timestamp !in s.completed
          && PendingInv(s.pending.value, hist)
          && (s.pending.value.expectedSet ==> s.haveNext && s.pending.value.expected == s.nextSequence))
    && (s.draining.Some? ==>
          && s.draining.value.timestamp !in s.completed
          && DrainingInv(s.draining.value, hist))
  }

  // ---- Retiring a timestamp ----

  lemma RememberKeeps(s: Stream, timestamp: uint32, frontier: uint16, has: bool)
    requires HistoryInv(s)
    ensures var t := RememberCompleted(s, timestamp, frontier, has);
            (HistoryInv(t) && timestamp in t.completed && forall x | x in t.completed :: x in s.completed || x == timestamp)
  {
    if timestamp !in s.completed {
      Appended(s.completedOrder, timestamp);
    }
  }

  ghost predicate Distinct(order: seq<uint32>) {
    forall i, j | 0 <= i < j < |order| :: order[i] != order[j]
  }

  lemma Appended(order: seq<uint32>, timestamp: uint32)
    requires Distinct(order) && timestamp !in order
    ensures var longer := order + [timestamp];
            (&& Distinct(longer) && timestamp in longer
             && (forall x | x in order :: x in longer)
             && (forall x | x in longer :: x in order || x == timestamp)
             && Distinct(longer[1..]) && longer[0] !in longer[1..]
             && (order != [] ==> timestamp in longer[1..])
             && (forall x | x in longer && x != longer[0] :: x in longer[1..])
             && (forall x | x in longer[1..] :: x in longer))
  {
    var longer := order + [timestamp];
    assert longer[|order|] == timestamp;
    forall x | x in order
      ensures x in longer
    {
      var i :| 0 <= i < |order| && order[i] == x;
      assert longer[i] == x;
    }
    forall x | x in longer && x != longer[0]
      ensures x in longer[1..]
    {
      var i :| 0 <= i < |longer| && longer[i] == x;
      assert longer[1..][i - 1] == x;
    }
  }

  /** Remember a timestamp, then set or clear the anchor for it. */
  lemma RetireCore(s: Stream, hist: set<Sighting>, timestamp: uint32, frontier: uint16, has: bool, next: uint16)
    requires CoreInv(s, hist)
    ensures var t := RememberCompleted(s, timestamp, frontier, has);
            (&& CoreInv(ClearSequenceAnchor(t), hist)
             && (Seen(hist, timestamp, Prev16(next)) ==> CoreInv(SetSequenceAnchor(t, timestamp, next), hist)))
  {
    RememberKeeps(s, timestamp, frontier, has);
  }

  lemma DiscardKeeps(s: Stream, hist: set<Sighting>)
    requires CoreInv(s, hist)
    requires s.pending.Some? ==> FrontierInv(s.pending.value, hist)
    ensures CoreInv(DiscardPending(s), hist)
    ensures DiscardPending(s).pending.None? && DiscardPending(s).draining == s.draining
    ensures forall t | t in DiscardPending(s).completed ::
              t in s.completed || (s.pending.Some? && t == s.pending.value.timestamp)
  {
    hide RememberCompleted, HistoryInv, AnchorInv, ParametersInv, SetSequenceAnchor, ClearSequenceAnchor;
    if s.pending.Some? {
      var q := s.pending.value;
      RetireCore(s, hist, q.timestamp, q.frontier, q.frontierSet, Next16(q.marker));
      RememberKeeps(s, q.timestamp, q.frontier, q.frontierSet);
      DiscardedPending(s, hist);
    }
  }

  lemma DiscardedPending(s: Stream, hist: set<Sighting>)
    requires s.pending.Some? && FrontierInv(s.pending.value, hist)
    requires var q := s.pending.value;
             var t := RememberCompleted(s, q.timestamp, q.frontier, q.frontierSet);
             (&& CoreInv(ClearSequenceAnchor(t), hist)
              && (Seen(hist, q.timestamp, q.marker) ==> CoreInv(SetSequenceAnchor(t, q.timestamp, Next16(q.marker)), hist)))
    ensures var q := s.pending.value;
            var t := RememberCompleted(s, q.timestamp, q.frontier, q.frontierSet);
            var r := DiscardPending(s);
            (CoreInv(r, hist) && r.pending.None? && r.draining == s.draining && r.completed == t.completed)
  {
    hide RememberCompleted, CoreInv;
    var q := s.pending.value;
    var t := RememberCompleted(s, q.timestamp, q.frontier, q.frontierSet);
    RememberFrame(s, q.timestamp, q.frontier, q.frontierSet);
    if q.markerExplicit && q.markerSet && q.frontierSet && q.marker == q.frontier {
      CoreOnly(SetSequenceAnchor(t, q.timestamp, Next16(q.marker)), DiscardPending(s), hist);
    } else {
      CoreOnly(ClearSequenceAnchor(t), DiscardPending(s), hist);
    }
  }

  lemma RejectKeeps(s: Stream, p: Packet, hist: set<Sighting>)
    requires Inv(s, hist)
    ensures var (t, rejected) := RejectCompleted(s, p);
            (&& Inv(t, hist)
             && t.pending.None? == s.pending.None?
             && rejected == (p.timestamp in s.completed)
             && (!rejected ==> t == s))
  {
    hide SumPayload, WellFormedNalu, FramedSize;
  }

  // ---- Parameter sets ----

  lemma AcceptKeeps(s: Stream, unit: AccessUnit, want: bool, hist: set<Sighting>)
    requires CoreInv(s, hist)
    requires unit.sps.Some? ==> WellFormedNalu(unit.sps.value)
    requires unit.pps.Some? ==> WellFormedNalu(unit.pps.value)
    ensures var r := Accept(s, unit, want);
            (&& CoreInv(r.stream, hist)
             && r.stream == s.(sps := r.stream.sps, pps := r.stream.pps))
  {
    hide WellFormedNalu, FramedSize, Frame, NonParameters;
  }

  // ---- The draining unit ----

  lemma SetParameterKeeps(u: Draining, t: byte, nalu: Bytes, hist: set<Sighting>)
    requires DrainingInv(u, hist) && (t == SPS_TYPE || t == PPS_TYPE)
    requires |nalu| != 0 && !Forbidden(nalu[0]) && NalType(nalu[0]) == t
    ensures DrainingInv(SetDrainParameter(u, t, nalu), hist)
    ensures SetDrainParameter(u, t, nalu).fuParameter == u.fuParameter && SetDrainParameter(u, t, nalu).fu == u.fu
  {
  }

  lemma {:induction false} CaptureNalusKeeps(u: Draining, nalus: seq<Bytes>, hist: set<Sighting>)
    requires DrainingInv(u, hist) && !u.fu.open
    requires forall n | n in nalus :: |n| != 0 && !Forbidden(n[0])
    ensures DrainingInv(CaptureNalus(u, nalus), hist)
    decreases |nalus|
  {
    if nalus != [] && ValidNalu(nalus[0]) {
      var n := nalus[0];
      assert n in nalus;
      if IsParameter(n) {
        SetParameterKeeps(u, NalType(n[0]), n, hist);
        CaptureNalusKeeps(SetDrainParameter(u, NalType(n[0]), n), nalus[1..], hist);
      } else {
        CaptureNalusKeeps(u, nalus[1..], hist);
      }
    }
  }

  lemma CaptureFragmentKeeps(u: Draining, payload: Bytes, before: Fu, hist: set<Sighting>)
    requires DrainingInv(u.(fu := before), hist) && !u.invalid
    requires |payload| != 0 && NalType(payload[0]) == FU_A && !Forbidden(payload[0])
    requires CheckPayload(payload, before).Good? && CheckPayload(payload, before).fu == u.fu
    ensures DrainingInv(CaptureFragment(u, payload), hist)
  {
    hide WellFormedNalu, ValidNalu;
    ZeroRunSmall(u, payload);
    var t := NalType(payload[1]);
    var v := ScanZeroRun(u, payload);
    if !v.invalid && (t == SPS_TYPE || t == PPS_TYPE) {
      CollectKeeps(v, payload, hist);
    }
  }

  lemma ZeroRunSmall(u: Draining, payload: Bytes)
    requires |payload| >= 2 && u.fuZeroRun <= 2
    ensures ScanZeroRun(u, payload).fuZeroRun <= 2
  {
    RunSmall(ZeroRun.Detector(if FuStart(payload[1]) then 0 else u.fuZeroRun, false), payload[2..]);
  }

  lemma {:induction false} RunSmall(d: ZeroRun.Detector, bytes: Bytes)
    requires d.run <= 2
    ensures ZeroRun.FeedAll(d, bytes).run <= 2
    decreases |bytes|
  {
    if bytes != [] {
      RunSmall(ZeroRun.Feed(d, bytes[0]), bytes[1..]);
    }
  }

  lemma CollectKeeps(u: Draining, payload: Bytes, hist: set<Sighting>)
    requires DrainingInv(u.(fu := FU_CLOSED), hist) && !u.invalid
    requires |payload| >= 2 && !Forbidden(payload[0])
    requires var t := NalType(payload[1]); t == SPS_TYPE || t == PPS_TYPE
    requires FuEnd(payload[1]) <==> !u.fu.open
    requires u.fu.typ == NalType(payload[1])
    requires !FuStart(payload[1]) ==>
               |u.fuParameter| != 0 && !Forbidden(u.fuParameter[0]) && NalType(u.fuParameter[0]) == u.fu.typ
    ensures DrainingInv(CollectParameter(u, payload), hist)
  {
    hide WellFormedNalu, SetDrainParameter;
    var t := NalType(payload[1]);
    assert NalType(DrainHeader(payload)) == t && !Forbidden(DrainHeader(payload));
    var parameter := if FuStart(payload[1]) then [DrainHeader(payload)] else u.fuParameter;
    var fragment := payload[2..];
    if |fragment| <= MAX_PARAMETER - |parameter| {
      var v := u.(fuParameter := parameter + fragment);
      assert v.fuParameter[0] == parameter[0];
      if FuEnd(payload[1]) {
        SetParameterKeeps(v, t, v.fuParameter, hist);
      }
    }
  }

  lemma ValidateKeeps(u: Draining, payload: Bytes, hist: set<Sighting>)
    requires DrainingInv(u, hist) && !u.invalid
    ensures DrainingInv(ValidateDrained(u, payload), hist)
  {
    hide WellFormedNalu, StapNalus, CaptureNalus, FramedSize, CaptureFragment, SetDrainParameter;
    if CheckPayload(payload, u.fu).Good? {
      GoodPayload(payload, u.fu);
      var v := u.(fu := CheckPayload(payload, u.fu).fu);
      var projected := CheckPayload(payload, u.fu).projected;
      if projected <= MAX_ACCESS_UNIT - v.projectedBytes {
        var w := v.(projectedBytes := v.projectedBytes + projected);
        var t := NalType(payload[0]);
        if t == FU_A {
          CaptureFragmentKeeps(w, payload, u.fu, hist);
        } else if t == STAP_A {
          CaptureNalusKeeps(w, StapNalus(payload, 1).value, hist);
        } else {
          CaptureNalusKeeps(w, [payload], hist);
        }
      }
    }
  }

  lemma DrainIntoKeeps(u: Draining, s: Stream, p: Packet, observedAt: int, hist: set<Sighting>)
    requires DrainingInv(u, hist) && Seen(hist, u.timestamp, p.sequence)
    ensures DrainingInv(DrainInto(u, s, p, observedAt), hist)
    ensures DrainInto(u, s, p, observedAt).timestamp == u.timestamp
  {
    hide WellFormedNalu, ValidateDrained;
    var v := CountDrained(TrackSequence(u.(lastObserved := observedAt), s, p.sequence), p.payload);
    assert DrainingInv(v, hist);
    if !v.invalid {
      ValidateKeeps(v, p.payload, hist);
      ValidateKeepsTimestamp(v, p.payload);
    }
  }

  lemma ValidateKeepsTimestamp(u: Draining, payload: Bytes)
    ensures ValidateDrained(u, payload).timestamp == u.timestamp
  {
    hide ValidNalu, StapValid;
    if CheckPayload(payload, u.fu).Good? {
      GoodPayload(payload, u.fu);
      var good := CheckPayload(payload, u.fu);
      var w := u.(fu := good.fu, projectedBytes := u.projectedBytes + good.projected);
      CaptureNalusTimestamp(w, [payload]);
      if NalType(payload[0]) == STAP_A {
        CaptureNalusTimestamp(w, StapNalus(payload, 1).value);
      }
    }
  }

  lemma {:induction false} CaptureNalusTimestamp(u: Draining, nalus: seq<Bytes>)
    ensures CaptureNalus(u, nalus).timestamp == u.timestamp
    decreases |nalus|
  {
    if nalus != [] && ValidNalu(nalus[0]) {
      CaptureNalusTimestamp(if IsParameter(nalus[0]) then SetDrainParameter(u, NalType(nalus[0][0]), nalus[0]) else u, nalus[1..]);
    }
  }

  lemma FinishDrainKeeps(s: Stream, next: uint16, markerObserved: bool, hist: set<Sighting>)
    requires Inv(s, hist)
    ensures var t := FinishDrainUnit(s, next, markerObserved);
            (&& Inv(t, hist) && t.draining.None?
             && (s.draining.None? ==> t == s)
             && (s.draining.Some? ==> t.pending.None?)
             && forall x | x in t.completed :: x in s.completed || (s.draining.Some? && x == s.draining.value.timestamp))
  {
    hide WellFormedNalu, FramedSize, SumPayload, Accept, SetSequenceAnchor, ClearSequenceAnchor;
    if s.draining.Some? {
      var u := s.draining.value;
      var t0 := s.(draining := None);
      RetireCore(t0, hist, u.timestamp, u.lastSequence, u.haveSequence, next);
      RememberKeeps(t0, u.timestamp, u.lastSequence, u.haveSequence);
      FinishedDrain(s, next, markerObserved, hist);
    }
  }

  lemma FinishedDrain(s: Stream, next: uint16, markerObserved: bool, hist: set<Sighting>)
    requires s.draining.Some? && s.pending.None?
    requires DrainingInv(s.draining.value, hist)
    requires var u := s.draining.value;
             var t := RememberCompleted(s.(draining := None), u.timestamp, u.lastSequence, u.haveSequence);
             (&& CoreInv(ClearSequenceAnchor(t), hist)
              && (Seen(hist, u.timestamp, Prev16(next)) ==> CoreInv(SetSequenceAnchor(t, u.timestamp, next), hist)))
    ensures var u := s.draining.value;
            var t := FinishDrainUnit(s, next, markerObserved);
            (&& CoreInv(t, hist) && t.pending.None? && t.draining.None?
             && t.completed == RememberCompleted(s.(draining := None), u.timestamp, u.lastSequence, u.haveSequence).completed)
  {
    hide WellFormedNalu, FramedSize, RememberCompleted, CoreInv, Accept;
    var u := s.draining.value;
    var continuous := u.haveSequence && next == Next16(u.lastSequence);
    var t := RememberCompleted(s.(draining := None), u.timestamp, u.lastSequence, u.haveSequence);
    RememberFrame(s.(draining := None), u.timestamp, u.lastSequence, u.haveSequence);
    var anchored := if continuous && (markerObserved || !u.sequenceGap)
                    then SetSequenceAnchor(t, u.timestamp, next) else ClearSequenceAnchor(t);
    assert CoreInv(anchored, hist);
    AcceptKeeps(anchored, AccessUnit([], false, u.sps, u.pps), false, hist);
  }

  lemma RememberFrame(s: Stream, timestamp: uint32, frontier: uint16, has: bool)
    ensures var t := RememberCompleted(s, timestamp, frontier, has);
            t == s.(completed := t.completed, completedOrder := t.completedOrder)
  {
  }

  lemma SeenBy(p: Packet, generation: nat, hist: set<Sighting>)
    requires Sighting(p, generation) in hist
    ensures Seen(hist, p.timestamp, p.sequence)
  {
  }

  lemma DrainPacketKeeps(s: Stream, p: Packet, generation: nat, observedAt: int, hist: set<Sighting>)
    requires Inv(s, hist) && Sighting(p, generation) in hist && s.pending.None?
    ensures Inv(DrainPacket(s, p, observedAt), hist) && DrainPacket(s, p, observedAt).pending.None?
  {
    hide RejectCompleted, FinishDrainUnit, DrainInto, CoreInv, DrainingInv, PendingInv;
    RejectKeeps(s, p, hist);
    SeenBy(p, generation, hist);
    var (s1, rejected) := RejectCompleted(s, p);
    if !rejected {
      FinishDrainKeeps(s1, p.sequence, false, hist);
      var s2 := if s1.draining.Some? && s1.draining.value.timestamp != p.timestamp
                then FinishDrainUnit(s1, p.sequence, false) else s1;
      var u := if s2.draining.Some? then s2.draining.value else NewDraining(s2, p.timestamp);
      NewDrainingInv(s2, p.timestamp, hist);
      assert Inv(s2, hist) && DrainingInv(u, hist) && u.timestamp == p.timestamp && p.timestamp !in s2.completed;
      DrainIntoKeeps(u, s2, p, observedAt, hist);
      var s3 := s2.(draining := Some(DrainInto(u, s2, p, observedAt)));
      CoreOnly(s2, s3, hist);
      FinishDrainKeeps(s3, Next16(p.sequence), true, hist);
    }
  }

  lemma NewDrainingInv(s: Stream, timestamp: uint32, hist: set<Sighting>)
    ensures DrainingInv(NewDraining(s, timestamp), hist)
  {
  }

  /** The core of the invariant does not look at the two units. */
  lemma CoreOnly(s: Stream, t: Stream, hist: set<Sighting>)
    requires CoreInv(s, hist)
    requires t == s.(pending := t.pending, draining := t.draining, candidateAt := t.candidateAt, candidateGeneration := t.candidateGeneration)
    ensures CoreInv(t, hist)
  {
    hide WellFormedNalu, FramedSize;
  }

  // ---- The pending unit ----

  lemma TouchKeeps(s: Stream, p: Packet, generation: nat, observedAt: int, hist: set<Sighting>)
    requires Inv(s, hist) && s.draining.None? && p.timestamp !in s.completed
    requires s.pending.Some? ==> s.pending.value.timestamp == p.timestamp
    ensures Inv(Touch(s, p, generation, observedAt), hist)
    ensures Touch(s, p, generation, observedAt).pending.value.timestamp == p.timestamp
    ensures Touch(s, p, generation, observedAt) == s.(pending := Touch(s, p, generation, observedAt).pending)
  {
    hide CoreInv;
    var held := Touch(s, p, generation, observedAt);
    CoreOnly(s, held, hist);
    if s.pending.Some? {
      assert held.pending.value.packets == s.pending.value.packets;
    }
  }

  lemma WithinKeeps(q: Pending, sequence: uint16, hist: set<Sighting>)
    requires PendingInv(q, hist) && Seen(hist, q.timestamp, sequence)
    ensures var (q1, within) := SequenceWithinReorderWindow(q, sequence);
            var q2 := ObserveSequence(q1, sequence);
            (&& PendingInv(q2, hist)
             && q2 == q.(reorderNext := q2.reorderNext, reorderBase := q2.reorderBase, frontierSet := q2.frontierSet, frontier := q2.frontier)
             && (within && q.expectedSet ==> Sub16(sequence, q2.reorderNext) < REORDER_WINDOW))
  {
    hide SumPayload;
  }

  lemma {:induction false} AdvanceRuns(packets: map<uint16, Observed>, next: uint16, left: nat)
    requires left < 0x1_0000
    ensures var end := Advance(packets, next, left);
            (&& Sub16(end, next) <= left
             && forall j: uint16 | j < Sub16(end, next) :: Add16(next, j) in packets)
    decreases left
  {
    if left != 0 && next in packets {
      AdvanceRuns(packets, Next16(next), left - 1);
      var end := Advance(packets, next, left);
      forall j: uint16 | j < Sub16(end, next)
        ensures Add16(next, j) in packets
      {
        if j != 0 {
          assert Add16(next, j) == Add16(Next16(next), j - 1);
        }
      }
    }
  }

  lemma StoreWindow(q: Pending, packets: map<uint16, Observed>, sequence: uint16, o: Observed)
    requires WindowInv(q) && q.expectedSet && |q.packets| < MAX_PACKETS
    requires packets == q.packets[sequence := o]
    requires Sub16(sequence, q.reorderNext) < REORDER_WINDOW
    ensures WindowInv(q.(packets := packets, reorderNext := Advance(packets, q.reorderNext, |packets|)))
  {
    var next := Advance(packets, q.reorderNext, |packets|);
    var before, step := Sub16(q.reorderNext, q.expected), Sub16(next, q.reorderNext);
    AdvanceRuns(packets, q.reorderNext, |packets|);
    RunIsCounted(q.packets, q.expected, before);
    assert Sub16(next, q.expected) == before + step;
    forall j: uint16 | j < before + step
      ensures Add16(q.expected, j) in packets
    {
      if j >= before {
        assert Add16(q.expected, j) == Add16(q.reorderNext, j - before);
      }
    }
    assert Sub16(sequence, q.expected) == before + Sub16(sequence, q.reorderNext);
  }

  lemma StoreKeeps(q: Pending, p: Packet, generation: nat, observedAt: int, hist: set<Sighting>)
    requires PendingInv(q, hist) && p.sequence !in q.packets && |q.packets| < MAX_PACKETS
    requires |p.payload| <= MAX_ACCESS_UNIT - q.payloadBytes
    requires p.timestamp == q.timestamp && !Malformed(p) && Sighting(p, generation) in hist
    requires q.expectedSet ==> Sub16(p.sequence, q.reorderNext) < REORDER_WINDOW
    ensures var stored := Store(q, p, generation, observedAt);
            (&& FrontierInv(stored, hist) && stored.markerSet == q.markerSet && stored.marker == q.marker
             && (!(p.marker && stored.markerSet && stored.marker != p.sequence) ==>
                   PendingInv(if p.marker then SetMarker(stored, p.sequence) else stored, hist)))
  {
    hide SumPayload, Advance;
    var o := Observed(p, generation, observedAt);
    var packets := q.packets[p.sequence := o];
    SumStored(q.packets, p.sequence, o);
    if q.expectedSet {
      StoreWindow(q, packets, p.sequence, o);
    }
  }

  // ---- Which packets a completed unit consists of ----

  lemma {:induction false} ReachMeaning(q: Pending, from: uint16)
    ensures var reach := Reach(q, from);
            (&& reach <= from
             && (reach == 0 || Reaches(q, reach))
             && forall d: uint16 | reach < d <= from :: !Reaches(q, d))
    decreases from
  {
    if from != 0 && !Reaches(q, from) {
      ReachMeaning(q, from - 1);
    }
  }

  ghost predicate Keyed(q: Pending) {
    forall k | k in q.packets :: q.packets[k].packet.sequence == k
  }

  lemma ReachIsExpected(q: Pending)
    requires q.expectedSet && WindowInv(q) && |q.packets| <= MAX_PACKETS && !TooFar(q)
    ensures Reach(q, MAX_PACKETS - 1) == Sub16(q.marker, q.expected)
  {
    var reach := Reach(q, MAX_PACKETS - 1);
    ReachMeaning(q, MAX_PACKETS - 1);
    var back, run := Sub16(q.marker, q.expected), Sub16(q.reorderNext, q.expected);
    RunIsCounted(q.packets, q.expected, run);
    hide Reach;
    assert back <= reach by {
      assert Reaches(q, back);
    }
    BehindIsFar(q.marker, q.expected, reach);
  }

  lemma BehindIsFar(marker: uint16, expected: uint16, reach: uint16)
    requires Sub16(marker, expected) <= reach < MAX_PACKETS
    ensures reach == Sub16(marker, expected) || Sub16(Sub16(marker, reach), expected) > 0x1_0000 - MAX_PACKETS
  {
  }

  /** An anchored unit starts exactly at its expected sequence number: nothing stored lies before. */
  lemma OrderedStartsAtExpected(q: Pending)
    requires q.expectedSet && Keyed(q) && WindowInv(q) && |q.packets| <= MAX_PACKETS
    requires OrderedPackets(q).Ordered?
    ensures var packets := OrderedPackets(q).packets;
            (&& |packets| == Sub16(q.marker, q.expected) + 1
             && (forall i: uint16 | i < |packets| ::
                   Add16(q.expected, i) in q.packets && packets[i] == q.packets[Add16(q.expected, i)].packet)
             && packets[0].sequence == q.expected
             && packets[|packets| - 1].sequence == q.marker)
  {
    ReachIsExpected(q);
    hide Reach, TooFar, WindowInv;
    var reach := Sub16(q.marker, q.expected);
    var packets := Run(q, reach);
    hide Run;
    forall i: uint16 | i < |packets|
      ensures Add16(q.expected, i) in q.packets && packets[i] == q.packets[Add16(q.expected, i)].packet
    {
      assert Sub16(q.marker, reach - i) == Add16(q.expected, i);
    }
    assert Add16(q.expected, 0) == q.expected && Add16(q.expected, reach) == q.marker;
  }

  // ---- Frames ----

  ghost predicate Arrived(p: Packet, hist: set<Sighting>, watermark: nat) {
    exists o | o in hist :: o.packet == p && (watermark == 0 || o.generation > watermark)
  }

  /** `p` arrived, but for a marker the assembler may have put on it. */
  ghost predicate ArrivedUnmarked(p: Packet, hist: set<Sighting>, watermark: nat) {
    exists o | o in hist :: o.packet.(marker := true) == p && (watermark == 0 || o.generation > watermark)
  }

  ghost predicate OtherTimestampAt(timestamp: uint32, sequence: uint16, hist: set<Sighting>) {
    exists o | o in hist :: o.packet.timestamp != timestamp && o.packet.sequence == sequence
  }

  /** A frame with neither head nor tail missing: one timestamp, consecutive sequence numbers, every
      packet observed after the watermark, right behind an observed packet of another timestamp, and
      closed by its own marker or by an observed packet of another timestamp. */
  ghost predicate WholeFrame(frame: seq<Packet>, hist: set<Sighting>, watermark: nat) {
    && 0 < |frame| <= MAX_PACKETS
    && (forall i | 0 <= i < |frame| :: frame[i].timestamp == frame[0].timestamp)
    && (forall i | 0 < i < |frame| :: frame[i].sequence == Next16(frame[i - 1].sequence))
    && (forall i | 0 <= i < |frame| - 1 :: Arrived(frame[i], hist, watermark))
    && OtherTimestampAt(frame[0].timestamp, Prev16(frame[0].sequence), hist)
    && var last := frame[|frame| - 1];
       || (Arrived(last, hist, watermark) && last.marker)
       || (ArrivedUnmarked(last, hist, watermark) && OtherTimestampAt(frame[0].timestamp, Next16(last.sequence), hist))
  }

  /** What a candidate was made from: a frame and the parameter sets retained before it. */
  datatype Origin = Origin(frame: seq<Packet>, sps: Option<Bytes>, pps: Option<Bytes>)

  ghost predicate MadeFrom(data: Bytes, o: Origin) {
    && Depacketized(o.frame).Unit?
    && ParameterInv(o.sps, SPS_TYPE) && ParameterInv(o.pps, PPS_TYPE)
    && var unit := Depacketized(o.frame).unit;
    && var sps, pps := Newer(unit.sps, o.sps), Newer(unit.pps, o.pps);
    && unit.hasIdr && sps.Some? && pps.Some?
    && data == Frame([sps.value, pps.value] + NonParameters(unit.nalus))
    && |data| <= MAX_ACCESS_UNIT
  }

  /** The candidate was made from a whole frame and, for parameter sets the frame lacks, these. */
  ghost predicate MadeOf(data: Bytes, sps: Option<Bytes>, pps: Option<Bytes>, hist: set<Sighting>, watermark: nat) {
    exists frame: seq<Packet> :: MadeFrom(data, Origin(frame, sps, pps)) && WholeFrame(frame, hist, watermark)
  }

  ghost predicate Legitimate(data: Bytes, hist: set<Sighting>, watermark: nat) {
    exists sps: Option<Bytes>, pps: Option<Bytes> :: MadeOf(data, sps, pps, hist, watermark)
  }

  lemma {:induction false} FoldHeaders(packets: seq<Packet>, i: nat, d: Depacketizing)
    requires i <= |packets| && Fold(packets, i, d).Unit?
    ensures forall j | i <= j < |packets| :: HeaderOk(packets, j)
    decreases |packets| - i
  {
    if i < |packets| {
      FoldHeaders(packets, i + 1, Step(d, packets[i].payload).d);
    }
  }

  lemma AcceptedFrom(s: Stream, frame: seq<Packet>, want: bool)
    requires Depacketized(frame).Unit? && ParametersInv(s)
    ensures var r := Accept(s, Depacketized(frame).unit, want);
            (r.data.Some? ==> MadeFrom(r.data.value, Origin(frame, s.sps, s.pps)))
  {
    hide Depacketized, WellFormedNalu;
  }

  lemma RetireKeeps(s: Stream, q: Pending, packets: seq<Packet>, next: uint16, watermark: nat, observedAt: int, want: bool, hist: set<Sighting>)
    requires CoreInv(s, hist) && s.draining.None?
    requires Seen(hist, q.timestamp, Prev16(next))
    ensures var r := Retire(s, q, Depacketized(packets), next, watermark, observedAt, want);
            (&& Inv(r.stream, hist) && r.stream.pending.None? && r.stream.draining.None?
             && (forall x | x in r.stream.completed :: x in s.completed || x == q.timestamp)
             && (r.data.Some? ==>
                   && Depacketized(packets).Unit? && q.expectedSet && !Stale(q, watermark)
                   && MadeFrom(r.data.value, Origin(packets, s.sps, s.pps))))
  {
    hide Depacketized, RememberCompleted, Accept, HistoryInv, WellFormedNalu, FramedSize, MadeFrom;
    var s0 := s.(pending := None);
    CoreOnly(s, s0, hist);
    RememberKeeps(s0, q.timestamp, q.frontier, q.frontierSet);
    RetireCore(s0, hist, q.timestamp, q.frontier, q.frontierSet, next);
    RememberCommutes(s0, q.timestamp, q.frontier, q.frontierSet, next);
    RememberFrame(SetSequenceAnchor(s0, q.timestamp, next), q.timestamp, q.frontier, q.frontierSet);
    var t := RememberCompleted(SetSequenceAnchor(s0, q.timestamp, next), q.timestamp, q.frontier, q.frontierSet);
    assert t.sps == s.sps && t.pps == s.pps;
    if Depacketized(packets).Unit? && q.expectedSet && !Stale(q, watermark) {
      RoundTrip.DepacketizedSound(packets);
      AcceptKeeps(t, Depacketized(packets).unit, want, hist);
      AcceptedFrom(t, packets, want);
      var r := Accept(t, Depacketized(packets).unit, want);
      CoreOnly(r.stream, r.stream.(candidateAt := observedAt, candidateGeneration := q.minGeneration), hist);
    }
  }

  lemma RememberCommutes(s: Stream, timestamp: uint32, frontier: uint16, has: bool, next: uint16)
    ensures RememberCompleted(SetSequenceAnchor(s, timestamp, next), timestamp, frontier, has)
         == SetSequenceAnchor(RememberCompleted(s, timestamp, frontier, has), timestamp, next)
  {
  }

  /** A depacketized run is contiguous, has one timestamp and ends with the marker. */
  lemma FrameShape(frame: seq<Packet>)
    requires Depacketized(frame).Unit?
    ensures 0 < |frame| <= MAX_PACKETS && frame[|frame| - 1].marker
    ensures forall i | 0 <= i < |frame| :: frame[i].timestamp == frame[0].timestamp
    ensures forall i | 0 < i < |frame| :: frame[i].sequence == Next16(frame[i - 1].sequence)
  {
    hide Step;
    FoldHeaders(frame, 0, FRESH);
    hide Fold;
    forall i | 0 <= i < |frame|
      ensures frame[i].timestamp == frame[0].timestamp && frame[i].marker == (i == |frame| - 1)
      ensures i > 0 ==> frame[i].sequence == Next16(frame[i - 1].sequence)
    {
      assert HeaderOk(frame, i);
    }
  }

  /** The anchor was set behind an observed packet of a timestamp that is finished. */
  lemma HeadSeen(s: Stream, timestamp: uint32, hist: set<Sighting>)
    requires AnchorInv(s, hist) && s.haveNext && timestamp !in s.completed
    ensures OtherTimestampAt(timestamp, Prev16(s.nextSequence), hist)
  {
    assert Seen(hist, s.anchorTimestamp, Prev16(s.nextSequence));
  }

  /** The packets of a complete anchored unit, all of them observed, make a whole frame. */
  lemma CompleteIsWhole(s: Stream, q: Pending, hist: set<Sighting>, watermark: nat)
    requires AnchorInv(s, hist) && s.haveNext && q.timestamp !in s.completed
    requires q.expectedSet && q.expected == s.nextSequence
    requires PendingInv(q, hist) && !Stale(q, watermark)
    requires OrderedPackets(q).Ordered? && Depacketized(OrderedPackets(q).packets).Unit?
    ensures WholeFrame(OrderedPackets(q).packets, hist, watermark)
  {
    hide SumPayload, Depacketized;
    var frame := OrderedPackets(q).packets;
    OrderedStartsAtExpected(q);
    FrameShape(frame);
    hide OrderedPackets, WindowInv, AnchorInv;
    forall i | 0 <= i < |frame|
      ensures Arrived(frame[i], hist, watermark) && frame[i].timestamp == q.timestamp
    {
      var k := Add16(q.expected, i);
      assert Sighting(q.packets[k].packet, q.packets[k].generation) in hist;
    }
    HeadSeen(s, q.timestamp, hist);
  }

  lemma TryCompleteKeeps(held: Stream, watermark: nat, observedAt: int, want: bool, hist: set<Sighting>)
    requires Inv(held, hist) && held.pending.Some?
    ensures var r := TryComplete(held, watermark, observedAt, want);
            (Inv(r.stream, hist) && (r.data.Some? ==> MadeOf(r.data.value, held.sps, held.pps, hist, watermark)))
  {
    hide OrderedPackets, Depacketized, Retire, DiscardPending, MadeFrom, WholeFrame, CoreInv, PendingInv;
    var q := held.pending.value;
    PendingParts(q, hist);
    DiscardKeeps(held, hist);
    if OrderedPackets(q).Ordered? {
      var packets := OrderedPackets(q).packets;
      OrderedMarker(q);
      MarkerSeen(q, hist);
      RetireKeeps(held, q, packets, Next16(q.marker), watermark, observedAt, want, hist);
      if Depacketized(packets).Unit? && q.expectedSet && !Stale(q, watermark) {
        CoreParts(held, hist);
        CompleteIsWhole(held, q, hist, watermark);
      }
    }
  }

  lemma OrderedMarker(q: Pending)
    requires OrderedPackets(q).Ordered?
    ensures q.markerSet && q.marker in q.packets
  {
    hide TooFar, Reach;
    assert Sub16(q.marker, 0) in q.packets;
  }

  lemma MarkerSeen(q: Pending, hist: set<Sighting>)
    requires PendingInv(q, hist) && q.marker in q.packets
    ensures Seen(hist, q.timestamp, q.marker)
  {
    hide SumPayload;
    assert Sighting(q.packets[q.marker].packet, q.packets[q.marker].generation) in hist;
  }

  lemma PendingParts(q: Pending, hist: set<Sighting>)
    requires PendingInv(q, hist)
    ensures FrontierInv(q, hist)
  {
  }

  lemma CoreParts(s: Stream, hist: set<Sighting>)
    requires CoreInv(s, hist)
    ensures HistoryInv(s) && AnchorInv(s, hist) && ParametersInv(s)
  {
  }

  // ---- One packet on the buffered path ----

  lemma AdmitKeeps(held: Stream, p: Packet, generation: nat, watermark: nat, observedAt: int, want: bool, hist: set<Sighting>)
    requires Inv(held, hist) && held.pending.Some? && p.sequence !in held.pending.value.packets
    requires p.timestamp == held.pending.value.timestamp && !Malformed(p) && Sighting(p, generation) in hist
    requires held.pending.value.expectedSet ==> Sub16(p.sequence, held.pending.value.reorderNext) < REORDER_WINDOW
    ensures var r := Admit(held, p, generation, watermark, observedAt, want);
            (Inv(r.stream, hist) && (r.data.Some? ==> MadeOf(r.data.value, held.sps, held.pps, hist, watermark)))
  {
    hide TryComplete, DiscardPending, Store, SumPayload, CoreInv, MadeOf, WindowInv, StoredInv;
    var q := held.pending.value;
    DiscardKeeps(held, hist);
    if |q.packets| < MAX_PACKETS && |p.payload| <= MAX_ACCESS_UNIT - q.payloadBytes {
      StoreKeeps(q, p, generation, observedAt, hist);
      StoreKeepsFields(q, p, generation, observedAt);
      var stored := Store(q, p, generation, observedAt);
      var discarded := held.(pending := Some(stored));
      CoreOnly(held, discarded, hist);
      DiscardKeeps(discarded, hist);
      if !(p.marker && stored.markerSet && stored.marker != p.sequence) {
        var next := held.(pending := Some(if p.marker then SetMarker(stored, p.sequence) else stored));
        CoreOnly(held, next, hist);
        TryCompleteKeeps(next, watermark, observedAt, want, hist);
      }
    }
  }

  lemma StoreKeepsFields(q: Pending, p: Packet, generation: nat, observedAt: int)
    ensures var t := Store(q, p, generation, observedAt);
            (t.timestamp == q.timestamp && t.expectedSet == q.expectedSet && t.expected == q.expected)
  {
  }

  lemma InsertKeeps(s: Stream, p: Packet, generation: nat, watermark: nat, observedAt: int, want: bool, hist: set<Sighting>)
    requires Inv(s, hist) && s.draining.None? && p.timestamp !in s.completed && !Malformed(p)
    requires s.pending.Some? ==> s.pending.value.timestamp == p.timestamp
    requires Sighting(p, generation) in hist
    ensures var r := Insert(s, p, generation, watermark, observedAt, want);
            (Inv(r.stream, hist) && (r.data.Some? ==> MadeOf(r.data.value, s.sps, s.pps, hist, watermark)))
  {
    hide Touch, Admit, DiscardPending, CoreInv, MadeOf, SequenceWithinReorderWindow, ObserveSequence, PendingInv;
    TouchKeeps(s, p, generation, observedAt, hist);
    SeenBy(p, generation, hist);
    var held := Touch(s, p, generation, observedAt);
    var q := held.pending.value;
    PendingParts(q, hist);
    DiscardKeeps(held, hist);
    if p.sequence !in q.packets {
      WithinKeeps(q, p.sequence, hist);
      var (q1, within) := SequenceWithinReorderWindow(q, p.sequence);
      var q2 := ObserveSequence(q1, p.sequence);
      var next := held.(pending := Some(q2));
      CoreOnly(held, next, hist);
      if within {
        AdmitKeeps(next, p, generation, watermark, observedAt, want, hist);
      } else {
        var dropped := held.(pending := Some(if p.marker then SetMarker(q2, p.sequence) else q2));
        PendingParts(q2, hist);
        CoreOnly(held, dropped, hist);
        DiscardKeeps(dropped, hist);
      }
    }
  }

  // ---- The other ways a unit ends ----

  lemma TransitionKeeps(s: Stream, p: Packet, generation: nat, watermark: nat, observedAt: int, want: bool, hist: set<Sighting>)
    requires Inv(s, hist) && s.draining.None? && Sighting(p, generation) in hist
    requires s.pending.Some? ==> s.pending.value.timestamp != p.timestamp
    ensures var r := FinishAtTimestampTransition(s, p.sequence, watermark, observedAt, want);
            (&& Inv(r.stream, hist) && r.stream.pending.None? && r.stream.draining.None?
             && (r.data.Some? ==> MadeOf(r.data.value, s.sps, s.pps, hist, watermark))
             && (p.timestamp !in s.completed ==> p.timestamp !in r.stream.completed))
  {
    hide OrderedPackets, Depacketized, Retire, DiscardPending, MadeFrom, WholeFrame, CoreInv, PendingInv;
    if s.pending.Some? {
      var q := s.pending.value;
      var last := Prev16(p.sequence);
      PendingParts(q, hist);
      DiscardKeeps(s, hist);
      if !q.markerSet && last in q.packets {
        var marked := MarkLast(q, last);
        var held := s.(pending := Some(marked));
        CoreOnly(s, held, hist);
        PendingParts(q, hist);
        DiscardKeeps(held, hist);
        if OrderedPackets(marked).Ordered? {
          var packets := OrderedPackets(marked).packets;
          LastSeen(q, last, hist);
          RetireKeeps(s, marked, packets, p.sequence, watermark, observedAt, want, hist);
          if Depacketized(packets).Unit? && q.expectedSet && !Stale(q, watermark) {
            CoreParts(s, hist);
            TransitionIsWhole(s, q, p, generation, watermark, hist);
          }
        }
      }
    }
  }

  lemma LastSeen(q: Pending, last: uint16, hist: set<Sighting>)
    requires PendingInv(q, hist) && last in q.packets
    ensures Seen(hist, q.timestamp, last)
  {
    hide SumPayload;
    assert Sighting(q.packets[last].packet, q.packets[last].generation) in hist;
  }

  /** As `CompleteIsWhole`, for a unit closed by the first packet of the next timestamp. */
  lemma TransitionIsWhole(s: Stream, q: Pending, p: Packet, generation: nat, watermark: nat, hist: set<Sighting>)
    requires AnchorInv(s, hist) && s.haveNext && q.timestamp !in s.completed
    requires q.expectedSet && q.expected == s.nextSequence
    requires PendingInv(q, hist) && !Stale(q, watermark) && !q.markerSet && Prev16(p.sequence) in q.packets
    requires p.timestamp != q.timestamp && Sighting(p, generation) in hist
    requires var marked := MarkLast(q, Prev16(p.sequence));
             OrderedPackets(marked).Ordered? && Depacketized(OrderedPackets(marked).packets).Unit?
    ensures WholeFrame(OrderedPackets(MarkLast(q, Prev16(p.sequence))).packets, hist, watermark)
  {
    hide SumPayload, Depacketized;
    var last := Prev16(p.sequence);
    var marked := MarkLast(q, last);
    MarkedSize(q, last);
    var frame := OrderedPackets(marked).packets;
    OrderedStartsAtExpected(marked);
    FrameShape(frame);
    hide OrderedPackets, WindowInv, AnchorInv;
    forall i | 0 <= i < |frame|
      ensures frame[i].timestamp == q.timestamp
      ensures i < |frame| - 1 ==> Arrived(frame[i], hist, watermark)
      ensures i == |frame| - 1 ==> ArrivedUnmarked(frame[i], hist, watermark)
    {
      var k := Add16(q.expected, i);
      assert Sighting(q.packets[k].packet, q.packets[k].generation) in hist;
      assert i == |frame| - 1 <==> k == last;
    }
    HeadSeen(s, q.timestamp, hist);
    assert OtherTimestampAt(q.timestamp, p.sequence, hist);
  }

  lemma MarkedSize(q: Pending, last: uint16)
    requires last in q.packets
    ensures |MarkLast(q, last).packets| == |q.packets| && MarkLast(q, last).packets.Keys == q.packets.Keys
  {
    assert MarkLast(q, last).packets.Keys == q.packets.Keys;
    assert |MarkLast(q, last).packets.Keys| == |MarkLast(q, last).packets|;
    assert |q.packets.Keys| == |q.packets|;
  }

  lemma ExpireKeeps(s: Stream, observedAt: int, hist: set<Sighting>)
    requires Inv(s, hist)
    ensures Inv(Expire(s, observedAt), hist)
    ensures s.pending.None? ==> Expire(s, observedAt).pending.None?
  {
    hide DiscardPending, CoreInv, PendingInv, RememberCompleted, SetSequenceAnchor, ClearSequenceAnchor;
    if s.pending.Some? {
      PendingParts(s.pending.value, hist);
    }
    DiscardKeeps(s, hist);
    if s.draining.Some? {
      var u := s.draining.value;
      var t := s.(draining := None);
      CoreOnly(s, t, hist);
      RetireCore(t, hist, u.timestamp, u.lastSequence, u.haveSequence, Next16(u.lastSequence));
      RememberFrame(t, u.timestamp, u.lastSequence, u.haveSequence);
      AnchorFrame(RememberCompleted(t, u.timestamp, u.lastSequence, u.haveSequence), u.timestamp, Next16(u.lastSequence));
    }
  }

  lemma AnchorFrame(s: Stream, timestamp: uint32, next: uint16)
    ensures var (t, c) := (SetSequenceAnchor(s, timestamp, next), ClearSequenceAnchor(s));
            (t.pending == c.pending == s.pending && t.draining == c.draining == s.draining && t.completed == c.completed == s.completed)
  {
  }

  lemma PoisonKeeps(s: Stream, p: Packet, generation: nat, hist: set<Sighting>)
    requires Inv(s, hist) && Sighting(p, generation) in hist
    ensures Inv(PoisonPacket(s, p), hist)
    ensures s.pending.None? ==> PoisonPacket(s, p).pending.None?
  {
    if p.timestamp !in s.completed {
      SeenBy(p, generation, hist);
      var t := DropDraining(DropPending(s));
      DropsKeep(s, hist);
      hide DropPending, DropDraining, HistoryInv, ParametersInv, RememberCompleted, CoreInv;
      RememberLoose(t, hist, p.timestamp, p.sequence, p.version == 2);
      PoisonedCore(RememberCompleted(t, p.timestamp, p.sequence, p.version == 2), p, hist);
    }
  }

  lemma DropsKeep(s: Stream, hist: set<Sighting>)
    requires CoreInv(s, hist)
    ensures var t := DropDraining(DropPending(s));
            (HistoryInv(t) && ParametersInv(t) && t.pending.None? && t.draining.None?)
  {
    hide WellFormedNalu, FramedSize, RememberCompleted, HistoryInv;
    if s.pending.Some? {
      RememberLoose(s, hist, s.pending.value.timestamp, s.pending.value.frontier, s.pending.value.frontierSet);
      HistoryOnly(RememberCompleted(s, s.pending.value.timestamp, s.pending.value.frontier, s.pending.value.frontierSet), DropPending(s));
    }
    var s1 := DropPending(s);
    if s1.draining.Some? {
      RememberLoose(s1, hist, s1.draining.value.timestamp, s1.draining.value.lastSequence, s1.draining.value.haveSequence);
      HistoryOnly(RememberCompleted(s1, s1.draining.value.timestamp, s1.draining.value.lastSequence, s1.draining.value.haveSequence), DropDraining(s1));
    }
  }

  lemma HistoryOnly(s: Stream, t: Stream)
    requires HistoryInv(s) && t.completed == s.completed && t.completedOrder == s.completedOrder
    ensures HistoryInv(t)
  {
  }

  lemma PoisonedCore(s: Stream, p: Packet, hist: set<Sighting>)
    requires HistoryInv(s) && ParametersInv(s) && p.timestamp in s.completed && Seen(hist, p.timestamp, p.sequence)
    ensures CoreInv(SetSequenceAnchor(s, p.timestamp, Next16(p.sequence)), hist)
    ensures CoreInv(ClearSequenceAnchor(s), hist)
  {
    hide WellFormedNalu, FramedSize;
  }

  /** Remembering a timestamp keeps the history and the parameter sets; the anchor is set anew. */
  lemma RememberLoose(s: Stream, hist: set<Sighting>, timestamp: uint32, frontier: uint16, has: bool)
    requires HistoryInv(s) && ParametersInv(s)
    ensures var t := RememberCompleted(s, timestamp, frontier, has);
            (&& HistoryInv(t) && ParametersInv(t) && timestamp in t.completed
             && t == s.(completed := t.completed, completedOrder := t.completedOrder))
  {
    RememberKeeps(s, timestamp, frontier, has);
    RememberFrame(s, timestamp, frontier, has);
  }

  // ---- The entry points ----

  /** The stream whose parameter sets a candidate falls back on: units given up for their age are gone, the
      streamed unit the packet ends is finished, and so is a pending unit that gave no candidate. */
  function Retaining(s: Stream, p: Packet, watermark: nat, observedAt: int, want: bool): Stream {
    var s3 := FinishDrainUnit(RejectCompleted(Expire(s, observedAt), p).0, p.sequence, false);
    if s3.pending.None? || s3.pending.value.timestamp == p.timestamp then s3
    else
      var r := FinishAtTimestampTransition(s3, p.sequence, watermark, observedAt, want);
      if r.data.Some? then s3 else r.stream
  }

  /** Every operation of the buffered path keeps the invariant, and every candidate it emits was
      made from a whole frame and the parameter sets retained at that moment. */
  lemma {:induction false} ProcessKeeps(s: Stream, p: Packet, generation: nat, watermark: nat, observedAt: int, want: bool, hist: set<Sighting>)
    requires Inv(s, hist) && Sighting(p, generation) in hist
    ensures var r := Process(s, p, generation, watermark, observedAt, want);
            (Inv(r.stream, hist) && (r.data.Some? ==> var t := Retaining(s, p, watermark, observedAt, want); MadeOf(r.data.value, t.sps, t.pps, hist, watermark)))
    decreases want
  {
    hide Expire, PoisonPacket, RejectCompleted, DrainPacket, FinishDrainUnit, FinishAtTimestampTransition, Insert,
         CoreInv, PendingInv, DrainingInv, MadeOf;
    ExpireKeeps(s, observedAt, hist);
    var s1 := Expire(s, observedAt);
    PoisonKeeps(s1, p, generation, hist);
    if !Malformed(p) {
      RejectKeeps(s1, p, hist);
      var (s2, rejected) := RejectCompleted(s1, p);
      if !rejected {
        if s2.draining.Some? && s2.draining.value.timestamp == p.timestamp {
          DrainPacketKeeps(s2, p, generation, observedAt, hist);
        } else {
          FinishDrainKeeps(s2, p.sequence, false, hist);
          var s3 := FinishDrainUnit(s2, p.sequence, false);
          if s3.pending.Some? && s3.pending.value.timestamp != p.timestamp {
            TransitionKeeps(s3, p, generation, watermark, observedAt, want, hist);
            var r := FinishAtTimestampTransition(s3, p.sequence, watermark, observedAt, want);
            if r.data.Some? {
              ProcessKeeps(r.stream, p, generation, watermark, observedAt, false, hist);
            } else {
              InsertKeeps(r.stream, p, generation, watermark, observedAt, want, hist);
            }
          } else {
            InsertKeeps(s3, p, generation, watermark, observedAt, want, hist);
          }
        }
      }
    }
  }

  lemma DrainKeeps(s: Stream, p: Packet, generation: nat, observedAt: int, hist: set<Sighting>)
    requires Inv(s, hist) && Sighting(p, generation) in hist
    ensures Inv(Drain(s, p, observedAt), hist)
    ensures s.pending.None? ==> Drain(s, p, observedAt).pending.None?
  {
    hide Expire, CoreInv, PendingInv, DrainingInv;
    ExpireKeeps(s, observedAt, hist);
    var s1 := Expire(s, observedAt);
    PoisonKeeps(s1, p, generation, hist);
    EndWaitKeeps(s1, hist);
    if !Malformed(p) {
      DrainPacketKeeps(DiscardPending(s1), p, generation, observedAt, hist);
    }
  }

  lemma EndWaitKeeps(s: Stream, hist: set<Sighting>)
    requires Inv(s, hist)
    ensures Inv(EndWait(s), hist) && EndWait(s).pending.None?
  {
    hide DiscardPending, CoreInv, PendingInv, DrainingInv;
    if s.pending.Some? {
      PendingParts(s.pending.value, hist);
    }
    DiscardKeeps(s, hist);
  }

  lemma BeginWaitKeeps(s: Stream, hist: set<Sighting>)
    requires Inv(s, hist)
    ensures Inv(BeginWait(s), hist) && BeginWait(s).pending == s.pending
  {
    hide WellFormedNalu, FramedSize, SumPayload, PendingInv;
  }
}
