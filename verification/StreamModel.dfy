/** The state of the access-unit assembler as a value, and what each of its operations makes of it.
    The class `H264Stream` is proved against these functions; the theorems are about them. */
module StreamModel {
  import opened Options
  import opened Octets
  import opened Rtp
  import opened NalPayload
  import opened Depacketizer
  import opened ZeroRun

  const REORDER_WINDOW: uint16 := 64
  const MAX_COMPLETED := 64
  /** Times are integers in nanoseconds; zero is the zero time. */
  const MAX_GAP := 200_000_000

  datatype Observed = Observed(packet: Packet, generation: nat, observedAt: int)

  datatype Pending = Pending(
    timestamp: uint32, packets: map<uint16, Observed>,
    expectedSet: bool, expected: uint16, reorderNext: uint16, reorderBase: uint16,
    frontierSet: bool, frontier: uint16,
    markerSet: bool, markerExplicit: bool, marker: uint16,
    lastObserved: int, payloadBytes: nat, minGeneration: nat)

  datatype Draining = Draining(
    timestamp: uint32, anchored: bool, lastSequence: uint16, haveSequence: bool, lastObserved: int,
    invalid: bool, sequenceGap: bool, packetCount: nat, payloadBytes: nat, projectedBytes: nat,
    fu: Fu, fuZeroRun: nat, fuParameter: Bytes, sps: Option<Bytes>, pps: Option<Bytes>)

  datatype Done = Done(frontier: uint16, hasFrontier: bool)

  datatype Stream = Stream(
    pending: Option<Pending>, draining: Option<Draining>,
    sps: Option<Bytes>, pps: Option<Bytes>,
    nextSequence: uint16, haveNext: bool, anchorTimestamp: uint32, anchorSet: bool,
    completed: map<uint32, Done>, completedOrder: seq<uint32>,
    candidateAt: int, candidateGeneration: nat)

  /** The stream after an operation and the Annex B candidate it emitted, if any. */
  datatype Emission = Emission(stream: Stream, data: Option<Bytes>)

  const NEW_STREAM := Stream(None, None, None, None, 0, false, 0, false, map[], [], 0, 0)

  // ---- Anchor and history of finished timestamps ----

  function RememberCompleted(s: Stream, timestamp: uint32, frontier: uint16, hasFrontier: bool): Stream {
    if timestamp in s.completed then s
    else
      var order := s.completedOrder + [timestamp];
      var done := s.completed[timestamp := Done(frontier, hasFrontier)];
      if |order| > MAX_COMPLETED then s.(completed := done - {order[0]}, completedOrder := order[1..])
      else s.(completed := done, completedOrder := order)
  }

  function SetSequenceAnchor(s: Stream, timestamp: uint32, next: uint16): Stream {
    s.(nextSequence := next, haveNext := true, anchorTimestamp := timestamp, anchorSet := true)
  }

  function ClearSequenceAnchor(s: Stream): Stream {
    s.(haveNext := false, anchorSet := false)
  }

  /** A packet whose timestamp is already finished only moves that timestamp's frontier; when the
      timestamp is the anchor's, the anchor no longer marks the end of the unit. */
  function RejectCompleted(s: Stream, p: Packet): (Stream, bool) {
    if p.timestamp !in s.completed then (s, false)
    else if p.version != 2 then (s, true)
    else
      var done := s.completed[p.timestamp];
      var moved := s.(completed := s.completed[p.timestamp := Done(p.sequence, true)]);
      if !done.hasFrontier then (moved, true)
      else
        var distance := Sub16(p.sequence, done.frontier);
        if distance == 0 || distance >= HALF_RANGE then (s, true)
        else if s.anchorSet && s.anchorTimestamp == p.timestamp then
          (ClearSequenceAnchor(moved).(
             pending := if moved.pending.Some? then Some(moved.pending.value.(expectedSet := false)) else None,
             draining := if moved.draining.Some? then Some(moved.draining.value.(anchored := false)) else None), true)
        else (moved, true)
  }

  // ---- Parameter sets and candidates ----

  predicate ParameterOk(p: Option<Bytes>, t: byte) {
    p.Some? ==> |p.value| <= MAX_PARAMETER && |p.value| != 0 && NalType(p.value[0]) == t
  }

  function Present(p: Option<Bytes>): seq<Bytes> {
    if p.Some? then [p.value] else []
  }

  predicate ValidParameters(sps: Option<Bytes>, pps: Option<Bytes>) {
    && ParameterOk(sps, SPS_TYPE)
    && ParameterOk(pps, PPS_TYPE)
    && FramedSize(Present(sps) + Present(pps)) <= MAX_PARAMETERS
  }

  function NonParameters(nalus: seq<Bytes>): seq<Bytes> {
    if nalus == [] then []
    else (if IsParameter(nalus[0]) then [] else [nalus[0]]) + NonParameters(nalus[1..])
  }

  function Newer(latest: Option<Bytes>, retained: Option<Bytes>): Option<Bytes> {
    if latest.Some? then latest else retained
  }

  function Accept(s: Stream, unit: AccessUnit, wantCandidate: bool): (r: Emission)
    ensures r.data.Some? ==> wantCandidate
  {
    var sps, pps := Newer(unit.sps, s.sps), Newer(unit.pps, s.pps);
    var kept := s.(sps := sps, pps := pps);
    if !ValidParameters(sps, pps) then Emission(s, None)
    else if !wantCandidate || !unit.hasIdr || sps.None? || pps.None? then Emission(kept, None)
    else
      var nalus := [sps.value, pps.value] + NonParameters(unit.nalus);
      if FramedSize(nalus) > MAX_ACCESS_UNIT then Emission(s, None)
      else Emission(kept, Some(Frame(nalus)))
  }

  // ---- The buffered path ----

  function ObserveSequence(q: Pending, sequence: uint16): Pending {
    if !q.frontierSet then q.(frontierSet := true, frontier := sequence)
    else
      var distance := Sub16(sequence, q.frontier);
      if 0 < distance < HALF_RANGE then q.(frontier := sequence) else q
  }

  function SequenceWithinReorderWindow(q: Pending, sequence: uint16): (Pending, bool) {
    if q.expectedSet then (q, Sub16(sequence, q.reorderNext) < REORDER_WINDOW)
    else if !q.frontierSet then (q.(reorderNext := sequence, reorderBase := sequence), true)
    else
      var forward := Sub16(sequence, q.reorderBase);
      if forward < HALF_RANGE then (q, forward <= REORDER_WINDOW)
      else
        var backward, span := Sub16(q.reorderBase, sequence), Sub16(q.frontier, sequence);
        if backward > REORDER_WINDOW || REORDER_WINDOW < span < HALF_RANGE then (q, false)
        else (q.(reorderNext := sequence), true)
  }

  function NewPending(s: Stream, p: Packet, generation: nat): Pending {
    Pending(p.timestamp, map[], s.haveNext, s.nextSequence, s.nextSequence, 0, false, 0, false, false, 0, 0, 0, generation)
  }

  /** The first sequence number from `next` on that has not arrived. */
  function Advance(packets: map<uint16, Observed>, next: uint16, left: nat): uint16
    decreases left
  {
    if left == 0 || next !in packets then next else Advance(packets, Next16(next), left - 1)
  }

  function Store(q: Pending, p: Packet, generation: nat, observedAt: int): Pending {
    var packets := q.packets[p.sequence := Observed(p, generation, observedAt)];
    var next := Advance(packets, q.reorderNext, |packets|);
    q.(packets := packets, reorderNext := next,
       reorderBase := if q.expectedSet then q.reorderBase else Prev16(next),
       payloadBytes := q.payloadBytes + |p.payload|,
       minGeneration := if generation < q.minGeneration then generation else q.minGeneration)
  }

  function SetMarker(q: Pending, sequence: uint16): Pending {
    q.(markerSet := true, markerExplicit := true, marker := sequence)
  }

  /** Give the unit up. Its end is still known when its own marker was the last packet seen. */
  function DiscardPending(s: Stream): Stream {
    if s.pending.None? then s
    else
      var q := s.pending.value;
      var t := RememberCompleted(s, q.timestamp, q.frontier, q.frontierSet);
      (if q.markerExplicit && q.markerSet && q.frontierSet && q.marker == q.frontier
       then SetSequenceAnchor(t, q.timestamp, Next16(q.marker))
       else ClearSequenceAnchor(t)).(pending := None)
  }

  /** How far before the marker the unit reaches: the largest distance at which a packet was
      stored or the unit must start. */
  function Reach(q: Pending, distance: uint16): uint16 {
    if distance == 0 then 0
    else if Reaches(q, distance) then distance
    else Reach(q, distance - 1)
  }

  predicate Reaches(q: Pending, distance: uint16) {
    Sub16(q.marker, distance) in q.packets || (q.expectedSet && Sub16(q.marker, q.expected) == distance)
  }

  predicate TooFar(q: Pending) {
    || (q.expectedSet && Sub16(q.marker, q.expected) >= MAX_PACKETS)
    || exists k | k in q.packets :: Sub16(q.marker, k) >= MAX_PACKETS
  }

  datatype Ordering = Ordered(packets: seq<Packet>) | Incomplete | Unorderable

  /** The packets at distances `distance` down to zero before the marker. */
  function Run(q: Pending, distance: uint16): (r: seq<Packet>)
    requires forall d: uint16 | d <= distance :: Sub16(q.marker, d) in q.packets
    ensures |r| == distance + 1
    ensures forall i | 0 <= i <= distance :: r[i] == q.packets[Sub16(q.marker, distance - i)].packet
    decreases distance
  {
    var first := q.packets[Sub16(q.marker, distance)].packet;
    if distance == 0 then [first] else [first] + Run(q, distance - 1)
  }

  function OrderedPackets(q: Pending): Ordering {
    if !q.markerSet then Incomplete
    else if TooFar(q) then Unorderable
    else
      var reach := Reach(q, MAX_PACKETS - 1);
      if reach + 1 != |q.packets| || exists d: uint16 | d <= reach :: Sub16(q.marker, d) !in q.packets then Incomplete
      else Ordered(Run(q, reach))
  }

  /** The watermark admits a unit only if every packet of it was observed later. */
  predicate Stale(q: Pending, watermark: nat) {
    watermark != 0 && q.minGeneration <= watermark
  }

  /** Retire the pending unit with the anchor behind it, and hand out the candidate if it is one. */
  function Retire(s: Stream, q: Pending, access: Access, next: uint16, watermark: nat, observedAt: int, wantCandidate: bool): (r: Emission)
    ensures r.data.Some? ==> wantCandidate
  {
    var t := RememberCompleted(SetSequenceAnchor(s.(pending := None), q.timestamp, next), q.timestamp, q.frontier, q.frontierSet);
    if access.Failed? || !q.expectedSet || Stale(q, watermark) then Emission(t, None)
    else
      var r := Accept(t, access.unit, wantCandidate);
      if r.data.Some? then r.(stream := r.stream.(candidateAt := observedAt, candidateGeneration := q.minGeneration)) else r
  }

  /** The last steps of `process`: try to complete the pending unit. */
  function TryComplete(held: Stream, watermark: nat, observedAt: int, wantCandidate: bool): Emission
    requires held.pending.Some?
  {
    var q := held.pending.value;
    match OrderedPackets(q)
    case Unorderable => Emission(DiscardPending(held), None)
    case Incomplete => Emission(held, None)
    case Ordered(packets) =>
      var access := Depacketized(packets);
      if access == Failed(IncompleteUnit) then Emission(held, None)
      else Retire(held, q, access, Next16(q.marker), watermark, observedAt, wantCandidate)
  }

  /** A packet inside the reorder window is stored and may complete the unit. */
  function Admit(held: Stream, p: Packet, generation: nat, watermark: nat, observedAt: int, wantCandidate: bool): Emission
    requires held.pending.Some?
  {
    var q := held.pending.value;
    if |q.packets| >= MAX_PACKETS || |p.payload| > MAX_ACCESS_UNIT - q.payloadBytes then Emission(DiscardPending(held), None)
    else
      var stored := Store(q, p, generation, observedAt);
      if p.marker && stored.markerSet && stored.marker != p.sequence then
        Emission(DiscardPending(held.(pending := Some(stored))), None)
      else
        TryComplete(held.(pending := Some(if p.marker then SetMarker(stored, p.sequence) else stored)),
                    watermark, observedAt, wantCandidate)
  }

  /** The pending unit, opened if there is none, with its time of last observation moved. */
  function Touch(s: Stream, p: Packet, generation: nat, observedAt: int): (held: Stream)
    ensures held.pending.Some?
  {
    var q := if s.pending.Some? then s.pending.value else NewPending(s, p, generation);
    s.(pending := Some(q.(lastObserved := observedAt)))
  }

  /** `process` once the packet belongs to the pending unit (or opens one). */
  function Insert(s: Stream, p: Packet, generation: nat, watermark: nat, observedAt: int, wantCandidate: bool): Emission {
    var held := Touch(s, p, generation, observedAt);
    var q0 := held.pending.value;
    if p.sequence in q0.packets then
      Emission(if q0.packets[p.sequence].packet == p then held else DiscardPending(held), None)
    else
      var (q1, within) := SequenceWithinReorderWindow(q0, p.sequence);
      var q2 := ObserveSequence(q1, p.sequence);
      if within then
        Admit(held.(pending := Some(q2)), p, generation, watermark, observedAt, wantCandidate)
      else
        Emission(DiscardPending(held.(pending := Some(if p.marker then SetMarker(q2, p.sequence) else q2))), None)
  }

  /** A packet with another timestamp ends the pending unit; without a marker of its own the unit
      is complete only if its last packet is the one right before `next`. */
  function FinishAtTimestampTransition(s: Stream, next: uint16, watermark: nat, observedAt: int, wantCandidate: bool): (r: Emission)
    ensures r.data.Some? ==> wantCandidate
  {
    if s.pending.None? then Emission(s, None)
    else
      var q := s.pending.value;
      var last := Prev16(next);
      if q.markerSet || last !in q.packets then Emission(DiscardPending(s), None)
      else
        var marked := MarkLast(q, last);
        match OrderedPackets(marked)
        case Ordered(packets) =>
          Retire(s, marked, Depacketized(packets), next, watermark, observedAt, wantCandidate)
        case _ => Emission(DiscardPending(s.(pending := Some(marked))), None)
  }

  function MarkLast(q: Pending, last: uint16): Pending
    requires last in q.packets
  {
    q.(packets := q.packets[last := q.packets[last].(packet := q.packets[last].packet.(marker := true))],
       markerSet := true, marker := last)
  }

  // ---- The streaming path ----

  function SetDrainParameter(u: Draining, t: byte, nalu: Bytes): Draining {
    if |nalu| > MAX_PARAMETER || !ValidNalu(nalu) then u.(invalid := true)
    else if t == SPS_TYPE then u.(sps := Some(nalu))
    else u.(pps := Some(nalu))
  }

  function CaptureNalus(u: Draining, nalus: seq<Bytes>): Draining
    decreases |nalus|
  {
    if nalus == [] then u
    else if !ValidNalu(nalus[0]) then u.(invalid := true)
    else CaptureNalus(if IsParameter(nalus[0]) then SetDrainParameter(u, NalType(nalus[0][0]), nalus[0]) else u, nalus[1..])
  }

  /** The header the streaming path gives a reassembled parameter set. */
  function DrainHeader(payload: Bytes): byte
    requires |payload| >= 2
  {
    payload[0] / 32 * 32 + NalType(payload[1])
  }

  function ScanZeroRun(u: Draining, payload: Bytes): Draining
    requires |payload| >= 2
  {
    var d := FeedAll(Detector(if FuStart(payload[1]) then 0 else u.fuZeroRun, false), payload[2..]);
    u.(fuZeroRun := if FuEnd(payload[1]) then 0 else d.run, invalid := u.invalid || d.hit)
  }

  function CollectParameter(u: Draining, payload: Bytes): Draining
    requires |payload| >= 2
  {
    var parameter := if FuStart(payload[1]) then [DrainHeader(payload)] else u.fuParameter;
    var fragment := payload[2..];
    if |fragment| > MAX_PARAMETER - |parameter| then u.(invalid := true, fuParameter := [])
    else
      var v := u.(fuParameter := parameter + fragment);
      if FuEnd(payload[1]) then SetDrainParameter(v, NalType(payload[1]), v.fuParameter).(fuParameter := []) else v
  }

  function CaptureFragment(u: Draining, payload: Bytes): Draining
    requires |payload| >= 2
  {
    var v, t := ScanZeroRun(u, payload), NalType(payload[1]);
    if v.invalid || (t != SPS_TYPE && t != PPS_TYPE) then v else CollectParameter(v, payload)
  }

  function CaptureDrainParameters(u: Draining, payload: Bytes): Draining
    requires |payload| != 0
    requires NalType(payload[0]) == STAP_A ==> StapNalus(payload, 1).Some?
    requires NalType(payload[0]) == FU_A ==> |payload| >= 2
  {
    var t := NalType(payload[0]);
    if ValidSingleType(t) then CaptureNalus(u, [payload])
    else if t == STAP_A then CaptureNalus(u, StapNalus(payload, 1).value)
    else if t == FU_A then CaptureFragment(u, payload)
    else u
  }

  function ValidateDrained(u: Draining, payload: Bytes): Draining {
    match CheckPayload(payload, u.fu)
    case Good(projected, fu) =>
      var v := u.(fu := fu);
      if projected > MAX_ACCESS_UNIT - v.projectedBytes then v.(invalid := true)
      else CaptureDrainParameters(v.(projectedBytes := v.projectedBytes + projected), payload)
    case _ => u.(invalid := true)
  }

  function TrackSequence(u: Draining, s: Stream, sequence: uint16): Draining {
    if u.haveSequence then
      var distance := Sub16(sequence, u.lastSequence);
      var v := if distance != 1 then u.(invalid := true, sequenceGap := true) else u;
      if 0 < distance < HALF_RANGE then v.(lastSequence := sequence) else v
    else
      (if s.haveNext && sequence != s.nextSequence then u.(invalid := true, sequenceGap := true) else u)
        .(haveSequence := true, lastSequence := sequence)
  }

  function CountDrained(u: Draining, payload: Bytes): Draining {
    if u.packetCount >= MAX_PACKETS || |payload| > MAX_ACCESS_UNIT - u.payloadBytes then u.(invalid := true)
    else u.(packetCount := u.packetCount + 1, payloadBytes := u.payloadBytes + |payload|)
  }

  function DrainInto(u: Draining, s: Stream, p: Packet, observedAt: int): Draining {
    var v := CountDrained(TrackSequence(u.(lastObserved := observedAt), s, p.sequence), p.payload);
    if v.invalid then v else ValidateDrained(v, p.payload)
  }

  function NewDraining(s: Stream, timestamp: uint32): Draining {
    Draining(timestamp, s.haveNext, 0, false, 0, false, false, 0, 0, 0, FU_CLOSED, 0, [], None, None)
  }

  function FinishDrainUnit(s: Stream, next: uint16, markerObserved: bool): Stream {
    if s.draining.None? then s
    else
      var u := s.draining.value;
      var continuous := u.haveSequence && next == Next16(u.lastSequence);
      var t := RememberCompleted(s.(draining := None), u.timestamp, u.lastSequence, u.haveSequence);
      var anchored := if continuous && (markerObserved || !u.sequenceGap)
                      then SetSequenceAnchor(t, u.timestamp, next) else ClearSequenceAnchor(t);
      if u.invalid || !continuous || u.fu.open || !u.anchored then anchored
      else Accept(anchored, AccessUnit([], false, u.sps, u.pps), false).stream
  }

  function DrainPacket(s0: Stream, p: Packet, observedAt: int): Stream {
    var (s1, rejected) := RejectCompleted(s0, p);
    if rejected then s1
    else
      var s2 := if s1.draining.Some? && s1.draining.value.timestamp != p.timestamp
                then FinishDrainUnit(s1, p.sequence, false) else s1;
      var u := if s2.draining.Some? then s2.draining.value else NewDraining(s2, p.timestamp);
      var s3 := s2.(draining := Some(DrainInto(u, s2, p, observedAt)));
      if p.marker then FinishDrainUnit(s3, Next16(p.sequence), true) else s3
  }

  // ---- The entry points ----

  predicate Gap(last: int, now: int) {
    last != 0 && now - last >= MAX_GAP
  }

  function Expire(s: Stream, observedAt: int): Stream {
    var s1 := if s.pending.Some? && Gap(s.pending.value.lastObserved, observedAt) then DiscardPending(s) else s;
    if s1.draining.Some? && Gap(s1.draining.value.lastObserved, observedAt) then
      var u := s1.draining.value;
      var t := RememberCompleted(s1.(draining := None), u.timestamp, u.lastSequence, u.haveSequence);
      if u.haveSequence && !u.invalid && !u.fu.open && !u.sequenceGap
      then SetSequenceAnchor(t, u.timestamp, Next16(u.lastSequence))
      else ClearSequenceAnchor(t)
    else s1
  }

  predicate Malformed(p: Packet) {
    p.version != 2 || |p.payload| == 0
  }

  function DropPending(s: Stream): Stream {
    if s.pending.None? then s
    else
      var q := s.pending.value;
      RememberCompleted(s, q.timestamp, q.frontier, q.frontierSet).(pending := None)
  }

  function DropDraining(s: Stream): Stream {
    if s.draining.None? then s
    else
      var u := s.draining.value;
      RememberCompleted(s, u.timestamp, u.lastSequence, u.haveSequence).(draining := None)
  }

  function PoisonPacket(s: Stream, p: Packet): Stream {
    if p.timestamp in s.completed then s
    else
      var t := RememberCompleted(DropDraining(DropPending(s)), p.timestamp, p.sequence, p.version == 2);
      if p.version == 2 then SetSequenceAnchor(t, p.timestamp, Next16(p.sequence)) else ClearSequenceAnchor(t)
  }

  function Drain(s: Stream, p: Packet, observedAt: int): Stream {
    var s1 := Expire(s, observedAt);
    if Malformed(p) then PoisonPacket(s1, p)
    else DrainPacket(DiscardPending(s1), p, observedAt)
  }

  function Process(s: Stream, p: Packet, generation: nat, watermark: nat, observedAt: int, wantCandidate: bool): Emission
    decreases wantCandidate
  {
    var s1 := Expire(s, observedAt);
    if Malformed(p) then Emission(PoisonPacket(s1, p), None)
    else
      var (s2, rejected) := RejectCompleted(s1, p);
      if rejected then Emission(s2, None)
      else if s2.draining.Some? && s2.draining.value.timestamp == p.timestamp then
        Emission(DrainPacket(s2, p, observedAt), None)
      else
        var s3 := FinishDrainUnit(s2, p.sequence, false);
        if s3.pending.Some? && s3.pending.value.timestamp != p.timestamp then
          var r := FinishAtTimestampTransition(s3, p.sequence, watermark, observedAt, wantCandidate);
          if r.data.Some? then r.(stream := Process(r.stream, p, generation, watermark, observedAt, false).stream)
          else Insert(r.stream, p, generation, watermark, observedAt, wantCandidate)
        else Insert(s3, p, generation, watermark, observedAt, wantCandidate)
  }

  function BeginWait(s: Stream): Stream {
    if s.draining.None? then s
    else s.(draining := Some(s.draining.value.(invalid := true, fuParameter := [], sps := None, pps := None)))
  }

  function EndWait(s: Stream): Stream {
    DiscardPending(s)
  }
}
