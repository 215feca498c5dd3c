/** The assembler as the objects the program keeps: a stream, its pending unit, its draining unit.
    Every method is proved to make of the objects exactly what `StreamModel` says. */
module H264Assembler {
  import opened Options
  import opened Octets
  import opened Rtp
  import opened NalPayload
  import opened Depacketizer
  import ZeroRun
  import M = StreamModel

  class PendingUnit {
    var timestamp: uint32
    var packets: map<uint16, M.Observed>
    var expectedSet: bool
    var expected: uint16
    var reorderNext: uint16
    var reorderBase: uint16
    var frontierSet: bool
    var frontier: uint16
    var markerSet: bool
    var markerExplicit: bool
    var marker: uint16
    var lastObserved: int
    var payloadBytes: nat
    var minGeneration: nat

    ghost function View(): M.Pending
      reads this
    {
      M.Pending(timestamp, packets, expectedSet, expected, reorderNext, reorderBase, frontierSet, frontier,
                markerSet, markerExplicit, marker, lastObserved, payloadBytes, minGeneration)
    }

    constructor (timestamp: uint32, generation: nat, haveNext: bool, nextSequence: uint16)
      ensures View() == M.Pending(timestamp, map[], haveNext, nextSequence, nextSequence, 0, false, 0, false, false, 0, 0, 0, generation)
    {
      this.timestamp := timestamp;
      packets := map[];
      expectedSet, expected, reorderNext, reorderBase := haveNext, nextSequence, nextSequence, 0;
      frontierSet, frontier, markerSet, markerExplicit, marker := false, 0, false, false, 0;
      lastObserved, payloadBytes, minGeneration := 0, 0, generation;
    }

    method SequenceWithinReorderWindow(sequence: uint16) returns (within: bool)
      modifies this`reorderNext, this`reorderBase
      ensures (View(), within) == M.SequenceWithinReorderWindow(old(View()), sequence)
    {
      if expectedSet {
        return Sub16(sequence, reorderNext) < M.REORDER_WINDOW;
      }
      if !frontierSet {
        reorderNext := sequence;
        reorderBase := sequence;
        return true;
      }
      var forward := Sub16(sequence, reorderBase);
      if forward < HALF_RANGE {
        return forward <= M.REORDER_WINDOW;
      }
      var backward := Sub16(reorderBase, sequence);
      var span := Sub16(frontier, sequence);
      if backward > M.REORDER_WINDOW || (span < HALF_RANGE && span > M.REORDER_WINDOW) {
        return false;
      }
      reorderNext := sequence;
      return true;
    }

    method ObserveSequence(sequence: uint16)
      modifies this`frontierSet, this`frontier
      ensures View() == M.ObserveSequence(old(View()), sequence)
    {
      if !frontierSet {
        frontierSet := true;
        frontier := sequence;
        return;
      }
      var distance := Sub16(sequence, frontier);
      if distance > 0 && distance < HALF_RANGE {
        frontier := sequence;
      }
    }

    /** Move `reorderNext` past everything that has arrived. */
    method AdvanceNext()
      requires |packets| <= MAX_PACKETS
      modifies this`reorderNext
      ensures reorderNext == M.Advance(packets, old(reorderNext), |packets|)
    {
      ghost var start, left, passed: nat := reorderNext, |packets|, 0;
      while reorderNext in packets
        invariant 0 <= passed <= |packets| && left == |packets| - passed
        invariant reorderNext == Add16(start, passed)
        invariant forall j: uint16 :: j < passed ==> Add16(start, j) in packets
        invariant M.Advance(packets, start, |packets|) == M.Advance(packets, reorderNext, left)
        decreases left
      {
        assert passed < |packets| by {
          assert forall j: uint16 :: j < passed + 1 ==> Add16(start, j) in packets;
          RunIsCounted(packets, start, passed + 1);
        }
        reorderNext := Next16(reorderNext);
        passed, left := passed + 1, left - 1;
      }
    }

    method Store(packet: Packet, generation: nat, observedAt: int)
      requires packet.sequence !in packets && |packets| < MAX_PACKETS
      modifies this
      ensures View() == M.Store(old(View()), packet, generation, observedAt)
    {
      hide M.Advance;
      packets := packets[packet.sequence := M.Observed(packet, generation, observedAt)];
      AdvanceNext();
      if !expectedSet {
        reorderBase := Prev16(reorderNext);
      }
      payloadBytes := payloadBytes + |packet.payload|;
      if generation < minGeneration {
        minGeneration := generation;
      }
    }

    /** The largest distance before the marker, over all stored packets and the expected start. */
    method Furthest() returns (tooFar: bool, reach: uint16)
      ensures tooFar <==> M.TooFar(View())
      ensures !tooFar ==> reach == M.Reach(View(), MAX_PACKETS - 1)
    {
      tooFar, reach := false, 0;
      if expectedSet {
        reach := Sub16(marker, expected);
        if reach >= MAX_PACKETS {
          return true, reach;
        }
      }
      var rest := packets.Keys;
      while rest != {}
        invariant rest <= packets.Keys
        invariant reach < MAX_PACKETS && (reach == 0 || M.Reaches(View(), reach))
        invariant expectedSet ==> Sub16(marker, expected) <= reach
        invariant forall k | k in packets.Keys - rest :: Sub16(marker, k) <= reach
        decreases |rest|
      {
        var sequence :| sequence in rest;
        var distance := Sub16(marker, sequence);
        assert Sub16(marker, distance) == sequence;
        if distance >= MAX_PACKETS {
          return true, reach;
        }
        if distance > reach {
          reach := distance;
        }
        rest := rest - {sequence};
      }
      ReachIs(View(), MAX_PACKETS - 1, reach);
    }

    static lemma {:induction false} ReachIs(q: M.Pending, from: uint16, reach: uint16)
      requires reach <= from
      requires reach == 0 || M.Reaches(q, reach)
      requires q.expectedSet ==> Sub16(q.marker, q.expected) <= reach
      requires forall k | k in q.packets :: Sub16(q.marker, k) <= reach
      ensures M.Reach(q, from) == reach
      decreases from
    {
      if reach < from {
        assert Sub16(q.marker, Sub16(q.marker, from)) == from;
        ReachIs(q, from - 1, reach);
      }
    }

    method OrderedPackets() returns (r: M.Ordering)
      ensures r == M.OrderedPackets(View())
    {
      if !markerSet {
        return M.Incomplete;
      }
      var tooFar, reach := Furthest();
      if tooFar {
        return M.Unorderable;
      }
      if reach + 1 != |packets| {
        return M.Incomplete;
      }
      var ordered: seq<Packet> := [];
      var distance: int := reach;
      while distance >= 0
        invariant -1 <= distance <= reach
        invariant |ordered| == reach - distance
        invariant forall d: uint16 | distance < d <= reach :: Sub16(marker, d) in packets
        invariant forall i | 0 <= i < |ordered| :: ordered[i] == packets[Sub16(marker, reach - i)].packet
      {
        var sequence := Sub16(marker, distance);
        if sequence !in packets {
          return M.Incomplete;
        }
        ordered := ordered + [packets[sequence].packet];
        distance := distance - 1;
      }
      assert ordered == M.Run(View(), reach);
      r := M.Ordered(ordered);
    }
  }

  class DrainUnit {
    var timestamp: uint32
    var anchored: bool
    var lastSequence: uint16
    var haveSequence: bool
    var lastObserved: int
    var invalid: bool
    var sequenceGap: bool
    var packetCount: nat
    var payloadBytes: nat
    var projectedBytes: nat
    var fu: Fu
    var fuZeroRun: nat
    var fuParameter: Bytes
    var latestSps: Option<Bytes>
    var latestPps: Option<Bytes>

    ghost function View(): M.Draining
      reads this
    {
      M.Draining(timestamp, anchored, lastSequence, haveSequence, lastObserved, invalid, sequenceGap, packetCount,
                 payloadBytes, projectedBytes, fu, fuZeroRun, fuParameter, latestSps, latestPps)
    }

    constructor (timestamp: uint32, anchored: bool)
      ensures View() == M.Draining(timestamp, anchored, 0, false, 0, false, false, 0, 0, 0, FU_CLOSED, 0, [], None, None)
    {
      this.timestamp, this.anchored := timestamp, anchored;
      lastSequence, haveSequence, lastObserved, invalid, sequenceGap := 0, false, 0, false, false;
      packetCount, payloadBytes, projectedBytes := 0, 0, 0;
      fu, fuZeroRun, fuParameter, latestSps, latestPps := FU_CLOSED, 0, [], None, None;
    }

    method SetDrainParameter(naluType: byte, nalu: Bytes)
      modifies this
      ensures View() == M.SetDrainParameter(old(View()), naluType, nalu)
    {
      if |nalu| > MAX_PARAMETER || !ValidNalu(nalu) {
        invalid := true;
        return;
      }
      if naluType == SPS_TYPE {
        latestSps := Some(nalu);
      } else {
        latestPps := Some(nalu);
      }
    }

    method CaptureAggregated(payload: Bytes)
      requires |payload| >= 1 && StapNalus(payload, 1).Some?
      modifies this
      ensures View() == M.CaptureNalus(old(View()), StapNalus(payload, 1).value)
    {
      var offset := 1;
      while offset < |payload|
        invariant 1 <= offset <= |payload| && StapNalus(payload, offset).Some?
        invariant M.CaptureNalus(old(View()), StapNalus(payload, 1).value)
               == M.CaptureNalus(View(), StapNalus(payload, offset).value)
        decreases |payload| - offset
      {
        var size := U16(payload, offset);
        offset := offset + 2;
        var nalu := payload[offset..offset + size];
        assert StapNalus(payload, offset - 2).value[1..] == StapNalus(payload, offset + size).value;
        if !ValidNalu(nalu) {
          invalid := true;
          return;
        }
        if IsParameter(nalu) {
          SetDrainParameter(NalType(nalu[0]), nalu);
        }
        offset := offset + size;
      }
    }

    method ScanZeroRun(payload: Bytes)
      requires |payload| >= 2
      modifies this
      ensures View() == M.ScanZeroRun(old(View()), payload)
    {
      if FuStart(payload[1]) {
        fuZeroRun := 0;
      }
      var hit;
      fuZeroRun, hit := ZeroRun.ScanFragment(fuZeroRun, payload[2..]);
      if hit {
        invalid := true;
      }
      if FuEnd(payload[1]) {
        fuZeroRun := 0;
      }
    }

    method CaptureFragment(payload: Bytes)
      requires |payload| >= 2
      modifies this
      ensures View() == M.CaptureFragment(old(View()), payload)
    {
      hide M.ScanZeroRun, M.CollectParameter;
      var fragmentType := NalType(payload[1]);
      ScanZeroRun(payload);
      if invalid {
        return;
      }
      if fragmentType != SPS_TYPE && fragmentType != PPS_TYPE {
        return;
      }
      CollectParameter(payload);
    }

    method CollectParameter(payload: Bytes)
      requires |payload| >= 2
      modifies this
      ensures View() == M.CollectParameter(old(View()), payload)
    {
      hide M.SetDrainParameter, FuEnd, FuStart, NalType, M.DrainHeader;
      if FuStart(payload[1]) {
        fuParameter := [M.DrainHeader(payload)];
      }
      var fragment := payload[2..];
      if |fragment| > MAX_PARAMETER - |fuParameter| {
        invalid := true;
        fuParameter := [];
        return;
      }
      fuParameter := fuParameter + fragment;
      if FuEnd(payload[1]) {
        SetDrainParameter(NalType(payload[1]), fuParameter);
        fuParameter := [];
      }
    }

    method CaptureDrainParameters(payload: Bytes)
      requires |payload| != 0
      requires NalType(payload[0]) == STAP_A ==> StapNalus(payload, 1).Some?
      requires NalType(payload[0]) == FU_A ==> |payload| >= 2
      modifies this
      ensures View() == M.CaptureDrainParameters(old(View()), payload)
    {
      var naluType := NalType(payload[0]);
      if ValidSingleType(naluType) {
        hide M.SetDrainParameter, ValidNalu;
        assert [payload][1..] == [];
        if !ValidNalu(payload) {
          invalid := true;
          return;
        }
        if IsParameter(payload) {
          SetDrainParameter(naluType, payload);
        }
        assert M.CaptureNalus(View(), []) == View();
      } else if naluType == STAP_A {
        CaptureAggregated(payload);
      } else if naluType == FU_A {
        CaptureFragment(payload);
      }
    }

    method TrackSequence(sequence: uint16, haveNext: bool, nextSequence: uint16, ghost s: M.Stream)
      requires s.haveNext == haveNext && s.nextSequence == nextSequence
      modifies this
      ensures View() == M.TrackSequence(old(View()), s, sequence)
    {
      if haveSequence {
        var distance := Sub16(sequence, lastSequence);
        if distance != 1 {
          invalid := true;
          sequenceGap := true;
        }
        if distance > 0 && distance < HALF_RANGE {
          lastSequence := sequence;
        }
      } else {
        if haveNext && sequence != nextSequence {
          invalid := true;
          sequenceGap := true;
        }
        haveSequence := true;
        lastSequence := sequence;
      }
    }

    /** One packet of this unit: sequence continuity, bounds, payload check, parameter sets. */
    method DrainInto(packet: Packet, observedAt: int, haveNext: bool, nextSequence: uint16, ghost s: M.Stream)
      requires s.haveNext == haveNext && s.nextSequence == nextSequence
      modifies this
      ensures View() == M.DrainInto(old(View()), s, packet, observedAt)
    {
      hide M.TrackSequence, M.ValidateDrained;
      lastObserved := observedAt;
      TrackSequence(packet.sequence, haveNext, nextSequence, s);
      if packetCount >= MAX_PACKETS || |packet.payload| > MAX_ACCESS_UNIT - payloadBytes {
        invalid := true;
      } else {
        packetCount := packetCount + 1;
        payloadBytes := payloadBytes + |packet.payload|;
      }
      if !invalid {
        ValidateDrained(packet.payload);
      }
    }

    method ValidateDrained(payload: Bytes)
      modifies this
      ensures View() == M.ValidateDrained(old(View()), payload)
    {
      hide CheckPayload, M.CaptureDrainParameters, StapValid;
      var incomplete, projected, failed, next := ValidateH264Payload(payload, fu);
      if failed || incomplete {
        invalid := true;
        return;
      }
      fu := next;
      if projected > MAX_ACCESS_UNIT - projectedBytes {
        invalid := true;
      } else {
        GoodPayload(payload, old(fu));
        projectedBytes := projectedBytes + projected;
        CaptureDrainParameters(payload);
      }
    }
  }

  class H264Stream {
    var pending: PendingUnit?
    var draining: DrainUnit?
    var sps: Option<Bytes>
    var pps: Option<Bytes>
    var nextSequence: uint16
    var haveNext: bool
    var anchorTimestamp: uint32
    var anchorSet: bool
    var completed: map<uint32, M.Done>
    var completedOrder: seq<uint32>
    var candidateAt: int
    var candidateGeneration: nat

    ghost function View(): M.Stream
      reads this, pending, draining
    {
      M.Stream(if pending == null then None else Some(pending.View()),
               if draining == null then None else Some(draining.View()),
               sps, pps, nextSequence, haveNext, anchorTimestamp, anchorSet, completed, completedOrder,
               candidateAt, candidateGeneration)
    }

    /** The units the stream refers to are the ones it had or new ones. */
    twostate predicate OwnsUnits()
      reads this
    {
      && (pending == null || pending == old(pending) || fresh(pending))
      && (draining == null || draining == old(draining) || fresh(draining))
    }

    constructor ()
      ensures View() == M.NEW_STREAM
      ensures pending == null && draining == null
    {
      pending, draining, sps, pps := null, null, None, None;
      nextSequence, haveNext, anchorTimestamp, anchorSet := 0, false, 0, false;
      completed, completedOrder, candidateAt, candidateGeneration := map[], [], 0, 0;
    }

    method RememberCompleted(timestamp: uint32, frontier: uint16, hasFrontier: bool)
      modifies this`completed, this`completedOrder
      ensures View() == M.RememberCompleted(old(View()), timestamp, frontier, hasFrontier)
    {
      if timestamp in completed {
        return;
      }
      completed := completed[timestamp := M.Done(frontier, hasFrontier)];
      completedOrder := completedOrder + [timestamp];
      if |completedOrder| > M.MAX_COMPLETED {
        completed := completed - {completedOrder[0]};
        completedOrder := completedOrder[1..];
      }
    }

    method SetSequenceAnchor(timestamp: uint32, next: uint16)
      modifies this`nextSequence, this`haveNext, this`anchorTimestamp, this`anchorSet
      ensures View() == M.SetSequenceAnchor(old(View()), timestamp, next)
    {
      nextSequence := next;
      haveNext := true;
      anchorTimestamp := timestamp;
      anchorSet := true;
    }

    method ClearSequenceAnchor()
      modifies this`haveNext, this`anchorSet
      ensures View() == M.ClearSequenceAnchor(old(View()))
    {
      haveNext := false;
      anchorSet := false;
    }

    method RejectCompleted(packet: Packet) returns (rejected: bool)
      modifies this`completed, this`haveNext, this`anchorSet, pending, draining
      ensures (View(), rejected) == M.RejectCompleted(old(View()), packet)
    {
      if packet.timestamp !in completed {
        return false;
      }
      if packet.version != 2 {
        return true;
      }
      var done := completed[packet.timestamp];
      if !done.hasFrontier {
        completed := completed[packet.timestamp := M.Done(packet.sequence, true)];
        return true;
      }
      var distance := Sub16(packet.sequence, done.frontier);
      if distance == 0 || distance >= HALF_RANGE {
        return true;
      }
      completed := completed[packet.timestamp := M.Done(packet.sequence, true)];
      if anchorSet && anchorTimestamp == packet.timestamp {
        ClearSequenceAnchor();
        if pending != null {
          pending.expectedSet := false;
        }
        if draining != null {
          draining.anchored := false;
        }
      }
      return true;
    }

    method Accept(unit: AccessUnit, wantCandidate: bool) returns (data: Option<Bytes>)
      modifies this`sps, this`pps
      ensures M.Emission(View(), data) == M.Accept(old(View()), unit, wantCandidate)
    {
      hide M.ValidParameters, M.NonParameters, FramedSize, Frame;
      var newSps := if unit.sps.Some? then unit.sps else sps;
      var newPps := if unit.pps.Some? then unit.pps else pps;
      if !M.ValidParameters(newSps, newPps) {
        return None;
      }
      if !wantCandidate {
        sps, pps := newSps, newPps;
        return None;
      }
      data := None;
      if unit.hasIdr {
        if newSps == None || newPps == None {
          sps, pps := newSps, newPps;
          return None;
        }
        var nalus := WithoutParameters(unit.nalus, [newSps.value, newPps.value]);
        data := FrameWithin(nalus);
        if data == None {
          return None;
        }
      }
      sps, pps := newSps, newPps;
    }

    static method WithoutParameters(units: seq<Bytes>, first: seq<Bytes>) returns (nalus: seq<Bytes>)
      ensures nalus == first + M.NonParameters(units)
    {
      nalus := first;
      var i := 0;
      assert units[0..] == units;
      while i < |units|
        invariant 0 <= i <= |units|
        invariant nalus + M.NonParameters(units[i..]) == first + M.NonParameters(units)
      {
        assert units[i..][1..] == units[i + 1..];
        if !IsParameter(units[i]) {
          assert nalus + M.NonParameters(units[i..]) == (nalus + [units[i]]) + M.NonParameters(units[i + 1..]);
          nalus := nalus + [units[i]];
        }
        i := i + 1;
      }
      assert nalus + [] == nalus;
    }

    /** The framed NAL units, or nothing when they exceed the access-unit bound. */
    static method FrameWithin(nalus: seq<Bytes>) returns (r: Option<Bytes>)
      ensures r == if FramedSize(nalus) > MAX_ACCESS_UNIT then None else Some(Frame(nalus))
    {
      var total, i := 0, 0;
      assert nalus[0..] == nalus;
      while i < |nalus|
        invariant 0 <= i <= |nalus|
        invariant 0 <= total <= MAX_ACCESS_UNIT
        invariant total + FramedSize(nalus[i..]) == FramedSize(nalus)
      {
        assert nalus[i..][1..] == nalus[i + 1..];
        if |nalus[i]| > MAX_ACCESS_UNIT - |START_CODE| - total {
          return None;
        }
        total := total + |START_CODE| + |nalus[i]|;
        i := i + 1;
      }
      var candidate: Bytes := [];
      i := 0;
      while i < |nalus|
        invariant 0 <= i <= |nalus|
        invariant candidate + Frame(nalus[i..]) == Frame(nalus)
      {
        assert nalus[i..][1..] == nalus[i + 1..];
        assert candidate + Frame(nalus[i..]) == (candidate + START_CODE + nalus[i]) + Frame(nalus[i + 1..]);
        candidate := candidate + START_CODE + nalus[i];
        i := i + 1;
      }
      assert candidate + [] == candidate;
      r := Some(candidate);
    }

    method DiscardPending()
      modifies this
      ensures View() == M.DiscardPending(old(View()))
      ensures pending == null && draining == old(draining)
    {
      if pending != null {
        RememberCompleted(pending.timestamp, pending.frontier, pending.frontierSet);
        if pending.markerExplicit && pending.markerSet && pending.frontierSet && pending.marker == pending.frontier {
          SetSequenceAnchor(pending.timestamp, Next16(pending.marker));
        } else {
          ClearSequenceAnchor();
        }
      }
      pending := null;
    }

    method Retire(unit: PendingUnit, access: Access, next: uint16, watermark: nat, observedAt: int, wantCandidate: bool)
      returns (data: Option<Bytes>)
      requires pending == unit
      modifies this
      ensures pending == null && draining == old(draining)
      ensures M.Emission(View(), data)
           == M.Retire(old(View()), old(unit.View()), access, next, watermark, observedAt, wantCandidate)
    {
      hide M.Accept, M.RememberCompleted;
      pending := null;
      SetSequenceAnchor(unit.timestamp, next);
      RememberCompleted(unit.timestamp, unit.frontier, unit.frontierSet);
      if access.Failed? || !unit.expectedSet || (watermark != 0 && unit.minGeneration <= watermark) {
        return None;
      }
      data := Accept(access.unit, wantCandidate);
      if data.Some? {
        candidateAt := observedAt;
        candidateGeneration := unit.minGeneration;
      }
    }

    method FinishAtTimestampTransition(next: uint16, watermark: nat, observedAt: int, wantCandidate: bool)
      returns (data: Option<Bytes>)
      modifies this, pending
      ensures pending == null && draining == old(draining)
      ensures M.Emission(View(), data)
           == M.FinishAtTimestampTransition(old(View()), next, watermark, observedAt, wantCandidate)
    {
      if pending == null {
        return None;
      }
      var unit := pending;
      if unit.markerSet {
        DiscardPending();
        return None;
      }
      var last := Prev16(next);
      if last !in unit.packets {
        DiscardPending();
        return None;
      }
      var observed := unit.packets[last];
      unit.packets := unit.packets[last := observed.(packet := observed.packet.(marker := true))];
      unit.markerSet := true;
      unit.marker := last;
      assert unit.View() == M.MarkLast(old(pending.View()), last);
      var ordering := unit.OrderedPackets();
      if !ordering.Ordered? {
        DiscardPending();
        return None;
      }
      var access := DepacketizeH264AccessUnit(ordering.packets);
      data := Retire(unit, access, next, watermark, observedAt, wantCandidate);
    }

    method Touch(packet: Packet, generation: nat, observedAt: int)
      modifies this, pending
      ensures pending != null && (pending == old(pending) || fresh(pending)) && draining == old(draining)
      ensures View() == M.Touch(old(View()), packet, generation, observedAt)
    {
      if pending == null {
        pending := new PendingUnit(packet.timestamp, generation, haveNext, nextSequence);
      }
      pending.lastObserved := observedAt;
    }

    /** The last part of `process`: the packet joins the pending unit, which may complete it. */
    method Insert(packet: Packet, generation: nat, watermark: nat, observedAt: int, wantCandidate: bool)
      returns (data: Option<Bytes>)
      modifies this, pending
      ensures (pending == null || pending == old(pending) || fresh(pending)) && draining == old(draining)
      ensures M.Emission(View(), data)
           == M.Insert(old(View()), packet, generation, watermark, observedAt, wantCandidate)
    {
      hide M.Touch, M.Admit, M.DiscardPending, M.SequenceWithinReorderWindow, M.ObserveSequence;
      data := None;
      Touch(packet, generation, observedAt);
      var unit := pending;
      if packet.sequence in unit.packets {
        if unit.packets[packet.sequence].packet != packet {
          DiscardPending();
        }
        return;
      }
      var within := unit.SequenceWithinReorderWindow(packet.sequence);
      unit.ObserveSequence(packet.sequence);
      if !within {
        if packet.marker {
          unit.markerSet, unit.markerExplicit, unit.marker := true, true, packet.sequence;
        }
        DiscardPending();
        return;
      }
      data := Admit(packet, generation, watermark, observedAt, wantCandidate);
    }

    method Admit(packet: Packet, generation: nat, watermark: nat, observedAt: int, wantCandidate: bool)
      returns (data: Option<Bytes>)
      requires pending != null && packet.sequence !in pending.packets
      modifies this, pending
      ensures (pending == null || pending == old(pending)) && draining == old(draining)
      ensures M.Emission(View(), data)
           == M.Admit(old(View()), packet, generation, watermark, observedAt, wantCandidate)
    {
      hide M.TryComplete, M.DiscardPending, M.Store;
      data := None;
      var unit := pending;
      if |unit.packets| >= MAX_PACKETS || |packet.payload| > MAX_ACCESS_UNIT - unit.payloadBytes {
        DiscardPending();
        return;
      }
      unit.Store(packet, generation, observedAt);
      if packet.marker {
        if unit.markerSet && unit.marker != packet.sequence {
          DiscardPending();
          return;
        }
        unit.markerSet, unit.markerExplicit, unit.marker := true, true, packet.sequence;
      }
      data := TryComplete(watermark, observedAt, wantCandidate);
    }

    method TryComplete(watermark: nat, observedAt: int, wantCandidate: bool) returns (data: Option<Bytes>)
      requires pending != null
      modifies this
      ensures (pending == null || pending == old(pending)) && draining == old(draining)
      ensures M.Emission(View(), data)
           == M.TryComplete(old(View()), watermark, observedAt, wantCandidate)
    {
      var unit := pending;
      var ordering := unit.OrderedPackets();
      if ordering.Unorderable? {
        DiscardPending();
        return None;
      }
      if ordering.Incomplete? {
        return None;
      }
      var access := DepacketizeH264AccessUnit(ordering.packets);
      if access == Failed(IncompleteUnit) {
        return None;
      }
      data := Retire(unit, access, Next16(unit.marker), watermark, observedAt, wantCandidate);
    }

    method FinishDrainUnit(next: uint16, markerObserved: bool)
      modifies this, draining
      ensures draining == null && pending == old(pending)
      ensures View() == M.FinishDrainUnit(old(View()), next, markerObserved)
    {
      var unit := draining;
      if unit == null {
        return;
      }
      var continuous := unit.haveSequence && next == Next16(unit.lastSequence);
      if !continuous {
        unit.invalid := true;
      }
      draining := null;
      RememberCompleted(unit.timestamp, unit.lastSequence, unit.haveSequence);
      if continuous && (markerObserved || !unit.sequenceGap) {
        SetSequenceAnchor(unit.timestamp, next);
      } else {
        ClearSequenceAnchor();
      }
      if unit.invalid || unit.fu.open || !unit.anchored {
        return;
      }
      var _ := Accept(AccessUnit([], false, unit.latestSps, unit.latestPps), false);
    }

    method DrainPacket(packet: Packet, observedAt: int)
      modifies this, pending, draining
      ensures OwnsUnits() && (pending == null || pending == old(pending))
      ensures View() == M.DrainPacket(old(View()), packet, observedAt)
    {
      var rejected := RejectCompleted(packet);
      if rejected {
        return;
      }
      if draining != null && draining.timestamp != packet.timestamp {
        FinishDrainUnit(packet.sequence, false);
      }
      ghost var s2 := View();
      if draining == null {
        draining := new DrainUnit(packet.timestamp, haveNext);
      }
      draining.DrainInto(packet, observedAt, haveNext, nextSequence, s2);
      if packet.marker {
        FinishDrainUnit(Next16(packet.sequence), true);
      }
    }

    method DropPending()
      modifies this`pending, this`completed, this`completedOrder
      ensures pending == null
      ensures View() == M.DropPending(old(View()))
    {
      if pending != null {
        RememberCompleted(pending.timestamp, pending.frontier, pending.frontierSet);
        pending := null;
      }
    }

    method DropDraining()
      modifies this`draining, this`completed, this`completedOrder
      ensures draining == null
      ensures View() == M.DropDraining(old(View()))
    {
      if draining != null {
        RememberCompleted(draining.timestamp, draining.lastSequence, draining.haveSequence);
        draining := null;
      }
    }

    method PoisonPacket(packet: Packet)
      modifies this
      ensures OwnsUnits()
      ensures View() == M.PoisonPacket(old(View()), packet)
    {
      if packet.timestamp in completed {
        return;
      }
      DropPending();
      DropDraining();
      RememberCompleted(packet.timestamp, packet.sequence, packet.version == 2);
      if packet.version == 2 {
        SetSequenceAnchor(packet.timestamp, Next16(packet.sequence));
      } else {
        ClearSequenceAnchor();
      }
    }

    method Expire(observedAt: int)
      modifies this
      ensures (pending == null || pending == old(pending)) && (draining == null || draining == old(draining))
      ensures View() == M.Expire(old(View()), observedAt)
    {
      if pending != null && pending.lastObserved != 0 && observedAt - pending.lastObserved >= M.MAX_GAP {
        DiscardPending();
      }
      if draining != null && draining.lastObserved != 0 && observedAt - draining.lastObserved >= M.MAX_GAP {
        var unit := draining;
        draining := null;
        RememberCompleted(unit.timestamp, unit.lastSequence, unit.haveSequence);
        if unit.haveSequence && !unit.invalid && !unit.fu.open && !unit.sequenceGap {
          SetSequenceAnchor(unit.timestamp, Next16(unit.lastSequence));
        } else {
          ClearSequenceAnchor();
        }
      }
    }

    method Process(packet: Packet, generation: nat, watermark: nat, observedAt: int, wantCandidate: bool)
      returns (data: Option<Bytes>)
      modifies this, pending, draining
      ensures OwnsUnits()
      ensures M.Emission(View(), data)
           == M.Process(old(View()), packet, generation, watermark, observedAt, wantCandidate)
      decreases wantCandidate
    {
      hide M.Expire, M.PoisonPacket, M.RejectCompleted, M.DrainPacket, M.FinishDrainUnit,
           M.FinishAtTimestampTransition, M.Insert;
      data := None;
      Expire(observedAt);
      if packet.version != 2 || |packet.payload| == 0 {
        PoisonPacket(packet);
        return;
      }
      var rejected := RejectCompleted(packet);
      if rejected {
        return;
      }
      if draining != null {
        if draining.timestamp == packet.timestamp {
          DrainPacket(packet, observedAt);
          return;
        }
      }
      FinishDrainUnit(packet.sequence, false);
      if pending != null && pending.timestamp != packet.timestamp {
        data := FinishAtTimestampTransition(packet.sequence, watermark, observedAt, wantCandidate);
        if data.Some? {
          var _ := Process(packet, generation, watermark, observedAt, false);
          return;
        }
      }
      data := Insert(packet, generation, watermark, observedAt, wantCandidate);
    }

    method Push(packet: Packet, generation: nat, watermark: nat, observedAt: int) returns (data: Option<Bytes>)
      modifies this, pending, draining
      ensures OwnsUnits()
      ensures M.Emission(View(), data) == M.Process(old(View()), packet, generation, watermark, observedAt, true)
    {
      data := Process(packet, generation, watermark, observedAt, true);
    }

    method Drain(packet: Packet, observedAt: int)
      modifies this, pending, draining
      ensures OwnsUnits()
      ensures View() == M.Drain(old(View()), packet, observedAt)
    {
      hide M.Expire, M.PoisonPacket, M.DiscardPending, M.DrainPacket;
      Expire(observedAt);
      if packet.version != 2 || |packet.payload| == 0 {
        PoisonPacket(packet);
        return;
      }
      DiscardPending();
      DrainPacket(packet, observedAt);
    }

    method BeginWait()
      modifies draining
      ensures View() == M.BeginWait(old(View()))
    {
      if draining == null {
        return;
      }
      draining.invalid := true;
      draining.fuParameter := [];
      draining.latestSps := None;
      draining.latestPps := None;
    }

    method EndWait()
      modifies this
      ensures pending == null && draining == old(draining)
      ensures View() == M.EndWait(old(View()))
    {
      if pending != null {
        DiscardPending();
      }
    }
  }
}
