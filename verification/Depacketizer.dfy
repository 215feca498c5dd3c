/** From the ordered packets of one access unit to its NAL units. */
module Depacketizer {
  import opened Options
  import opened Octets
  import opened Rtp
  import opened NalPayload

  datatype Failure = InvalidUnit | IncompleteUnit

  datatype AccessUnit = AccessUnit(nalus: seq<Bytes>, hasIdr: bool, sps: Option<Bytes>, pps: Option<Bytes>)

  datatype Access = Unit(unit: AccessUnit) | Failed(why: Failure)

  /** Everything the loop over the packets carries along. `buffer` is the content of the FU-A
      accumulator of section 5.8 of RFC 6184. */
  datatype Depacketizing = Depacketizing(
    payloadBytes: nat, projectedBytes: nat, outputBytes: nat, fu: Fu, buffer: Bytes, nalus: seq<Bytes>)

  datatype Progress = Running(d: Depacketizing) | Stopped(why: Failure)

  const FRESH := Depacketizing(0, 0, 0, FU_CLOSED, [], [])

  function FuHeader(payload: Bytes): byte
    requires |payload| >= 2
  {
    Nri(payload[0]) * 32 + NalType(payload[1])
  }

  /** The NAL units one accepted payload completes. */
  function Completed(payload: Bytes, buffer: Bytes): (nalus: seq<Bytes>)
    requires |payload| != 0
    requires NalType(payload[0]) == STAP_A ==> StapNalus(payload, 1).Some?
    requires NalType(payload[0]) == FU_A ==> |payload| >= 2
  {
    var t := NalType(payload[0]);
    if ValidSingleType(t) then [payload]
    else if t == STAP_A then StapNalus(payload, 1).value
    else if t == FU_A && FuEnd(payload[1]) then [[FuHeader(payload)] + (buffer + payload[2..])]
    else []
  }

  function NextBuffer(payload: Bytes, buffer: Bytes): Bytes
    requires |payload| != 0
    requires NalType(payload[0]) == FU_A ==> |payload| >= 2
  {
    if NalType(payload[0]) != FU_A then buffer
    else if FuEnd(payload[1]) then []
    else buffer + payload[2..]
  }

  predicate AllValid(nalus: seq<Bytes>) {
    forall n | n in nalus :: ValidNalu(n)
  }

  /** One packet's payload. */
  function Step(d: Depacketizing, payload: Bytes): Progress {
    if |payload| > MAX_ACCESS_UNIT - d.payloadBytes then Stopped(InvalidUnit)
    else
      match CheckPayload(payload, d.fu)
      case Bad => Stopped(InvalidUnit)
      case Orphan => Stopped(IncompleteUnit)
      case Good(projected, fu) =>
        var nalus := Completed(payload, d.buffer);
        if projected > MAX_ACCESS_UNIT - d.projectedBytes
           || FramedSize(nalus) > MAX_ACCESS_UNIT - d.outputBytes
           || !AllValid(nalus)
        then Stopped(InvalidUnit)
        else Running(Depacketizing(d.payloadBytes + |payload|, d.projectedBytes + projected,
                                   d.outputBytes + FramedSize(nalus), fu, NextBuffer(payload, d.buffer), d.nalus + nalus))
  }

  /** The last NAL unit of type `t`. */
  function Latest(nalus: seq<Bytes>, t: byte): (r: Option<Bytes>)
    ensures r.Some? ==> r.value in nalus && |r.value| != 0 && NalType(r.value[0]) == t
    ensures r.None? ==> forall n | n in nalus && |n| != 0 :: NalType(n[0]) != t
  {
    if nalus == [] then None
    else
      var last := nalus[|nalus| - 1];
      if |last| != 0 && NalType(last[0]) == t then Some(last)
      else Latest(nalus[..|nalus| - 1], t)
  }

  predicate HasType(nalus: seq<Bytes>, t: byte) {
    exists n | n in nalus :: |n| != 0 && NalType(n[0]) == t
  }

  predicate ParametersFit(nalus: seq<Bytes>) {
    forall n | n in nalus && IsParameter(n) :: |n| <= MAX_PARAMETER
  }

  function UnitOf(nalus: seq<Bytes>): AccessUnit {
    AccessUnit(nalus, HasType(nalus, 5), Latest(nalus, SPS_TYPE), Latest(nalus, PPS_TYPE))
  }

  function Finish(d: Depacketizing): Access {
    if d.fu.open then Failed(IncompleteUnit)
    else if !ParametersFit(d.nalus) then Failed(InvalidUnit)
    else Unit(UnitOf(d.nalus))
  }

  predicate HeaderOk(packets: seq<Packet>, i: nat)
    requires i < |packets|
  {
    && packets[i].version == 2
    && |packets[i].payload| != 0
    && (i > 0 ==>
          && packets[i].timestamp == packets[i - 1].timestamp
          && packets[i].sequence == Next16(packets[i - 1].sequence)
          && !packets[i - 1].marker)
    && packets[i].timestamp == packets[0].timestamp
    && packets[i].marker == (i == |packets| - 1)
  }

  function Fold(packets: seq<Packet>, i: nat, d: Depacketizing): Access
    requires i <= |packets|
    decreases |packets| - i
  {
    if i == |packets| then Finish(d)
    else if !HeaderOk(packets, i) then Failed(InvalidUnit)
    else
      match Step(d, packets[i].payload)
      case Stopped(why) => Failed(why)
      case Running(next) => Fold(packets, i + 1, next)
  }

  function Depacketized(packets: seq<Packet>): Access {
    if |packets| == 0 || |packets| > MAX_PACKETS then Failed(InvalidUnit)
    else Fold(packets, 0, FRESH)
  }

  // ---- The loop over the packets ----

  method AppendValidatedNalu(nalus: seq<Bytes>, nalu: Bytes) returns (r: seq<Bytes>, valid: bool)
    ensures valid <==> ValidNalu(nalu)
    ensures valid ==> r == nalus + [nalu]
  {
    valid := ValidNalu(nalu);
    r := if valid then nalus + [nalu] else [];
  }

  /** The unchecked walk over an aggregation packet: it takes only slices the checked walk took. */
  method AppendAggregated(nalus: seq<Bytes>, payload: Bytes) returns (r: seq<Bytes>, valid: bool)
    requires |payload| >= 1 && StapNalus(payload, 1).Some?
    ensures valid <==> AllValid(StapNalus(payload, 1).value)
    ensures valid ==> r == nalus + StapNalus(payload, 1).value
  {
    r, valid := nalus, true;
    var offset := 1;
    ghost var all := StapNalus(payload, 1).value;
    ghost var done: seq<Bytes> := [];
    while offset < |payload|
      invariant 1 <= offset <= |payload|
      invariant StapNalus(payload, offset).Some? && all == done + StapNalus(payload, offset).value
      invariant AllValid(done) && r == nalus + done
      decreases |payload| - offset
    {
      var size := U16(payload, offset);
      offset := offset + 2;
      var nalu := payload[offset..offset + size];
      ghost var rest := StapNalus(payload, offset + size).value;
      SplitNext(all, done, nalu, rest);
      r, valid := AppendValidatedNalu(r, nalu);
      if !valid {
        return;
      }
      assert r == nalus + (done + [nalu]);
      done := done + [nalu];
      offset := offset + size;
    }
    assert done + [] == done;
  }

  lemma SplitNext(all: seq<Bytes>, done: seq<Bytes>, nalu: Bytes, rest: seq<Bytes>)
    requires all == done + ([nalu] + rest)
    ensures all == (done + [nalu]) + rest
    ensures nalu in all
  {
    assert all[|done|] == nalu;
  }

  /** What the accumulator hands out for one payload, and what it keeps. */
  method Unmarshal(payload: Bytes, buffer: Bytes) returns (chunk: Bytes, next: Bytes)
    requires |payload| != 0
    requires NalType(payload[0]) == STAP_A ==> StapNalus(payload, 1).Some?
    requires NalType(payload[0]) == FU_A ==> |payload| >= 2
    ensures chunk == Frame(Completed(payload, buffer))
    ensures next == NextBuffer(payload, buffer)
  {
    chunk := Frame(Completed(payload, buffer));
    next := NextBuffer(payload, buffer);
  }

  /** The part of the loop body that works on one payload. */
  method DepacketizePayload(d: Depacketizing, payload: Bytes) returns (r: Progress)
    ensures r == Step(d, payload)
  {
    if |payload| > MAX_ACCESS_UNIT - d.payloadBytes {
      return Stopped(InvalidUnit);
    }
    var incomplete, projected, failed, fu := ValidateH264Payload(payload, d.fu);
    if failed {
      return Stopped(InvalidUnit);
    }
    if incomplete {
      return Stopped(IncompleteUnit);
    }
    if projected > MAX_ACCESS_UNIT - d.projectedBytes {
      return Stopped(InvalidUnit);
    }
    GoodPayload(payload, d.fu);
    var chunk, buffer := Unmarshal(payload, d.buffer);
    if |chunk| > MAX_ACCESS_UNIT - d.outputBytes {
      return Stopped(InvalidUnit);
    }
    var naluType := NalType(payload[0]);
    var nalus, valid := d.nalus, true;
    ghost var completed := Completed(payload, d.buffer);
    if ValidSingleType(naluType) {
      nalus, valid := AppendValidatedNalu(nalus, payload);
      assert completed == [payload];
    } else if naluType == STAP_A {
      nalus, valid := AppendAggregated(nalus, payload);
    } else if naluType == FU_A && |chunk| != 0 {
      FrameOfOne(completed);
      if |chunk| <= |START_CODE| || chunk[..|START_CODE|] != START_CODE {
        return Stopped(InvalidUnit);
      }
      nalus, valid := AppendValidatedNalu(nalus, chunk[|START_CODE|..]);
      assert completed == [chunk[|START_CODE|..]];
    } else {
      FrameOfOne(completed);
      assert completed == [];
    }
    if !valid {
      return Stopped(InvalidUnit);
    }
    r := Running(Depacketizing(d.payloadBytes + |payload|, d.projectedBytes + projected,
                               d.outputBytes + |chunk|, fu, buffer, nalus));
  }

  lemma GoodPayload(payload: Bytes, fu: Fu)
    requires CheckPayload(payload, fu).Good?
    ensures |payload| != 0 && !Forbidden(payload[0])
    ensures NalType(payload[0]) == STAP_A ==> StapValid(payload)
    ensures NalType(payload[0]) == FU_A ==> |payload| > 2
  {
  }

  /** The final pass over the NAL units. */
  method Summarize(nalus: seq<Bytes>) returns (r: Access)
    requires forall n | n in nalus :: |n| != 0
    ensures r == if ParametersFit(nalus) then Unit(UnitOf(nalus)) else Failed(InvalidUnit)
  {
    var hasIdr, sps, pps := false, None, None;
    var k := 0;
    while k < |nalus|
      invariant 0 <= k <= |nalus|
      invariant ParametersFit(nalus[..k])
      invariant hasIdr == HasType(nalus[..k], 5)
      invariant sps == Latest(nalus[..k], SPS_TYPE) && pps == Latest(nalus[..k], PPS_TYPE)
    {
      var nalu := nalus[k];
      assert nalus[..k + 1][..k] == nalus[..k];
      assert nalus[..k + 1] == nalus[..k] + [nalu];
      if IsParameter(nalu) && |nalu| > MAX_PARAMETER {
        return Failed(InvalidUnit);
      }
      match NalType(nalu[0]) {
        case 5 => hasIdr := true;
        case 7 => sps := Some(nalu);
        case 8 => pps := Some(nalu);
        case _ =>
      }
      k := k + 1;
    }
    assert nalus[..k] == nalus;
    r := Unit(AccessUnit(nalus, hasIdr, sps, pps));
  }

  method DepacketizeH264AccessUnit(packets: seq<Packet>) returns (r: Access)
    ensures r == Depacketized(packets)
  {
    if |packets| == 0 || |packets| > MAX_PACKETS {
      return Failed(InvalidUnit);
    }
    var d := FRESH;
    var index := 0;
    while index < |packets|
      invariant 0 <= index <= |packets|
      invariant forall n | n in d.nalus :: |n| != 0
      invariant Fold(packets, 0, FRESH) == Fold(packets, index, d)
    {
      var packet := packets[index];
      if packet.version != 2 || |packet.payload| == 0 {
        return Failed(InvalidUnit);
      }
      if index > 0 {
        var previous := packets[index - 1];
        if packet.timestamp != previous.timestamp || packet.sequence != Next16(previous.sequence) || previous.marker {
          return Failed(InvalidUnit);
        }
      }
      if packet.timestamp != packets[0].timestamp || packet.marker != (index == |packets| - 1) {
        return Failed(InvalidUnit);
      }
      var progress := DepacketizePayload(d, packet.payload);
      if progress.Stopped? {
        return Failed(progress.why);
      }
      StepKeepsNalus(d, packet.payload);
      d := progress.d;
      index := index + 1;
    }
    if d.fu.open {
      return Failed(IncompleteUnit);
    }
    r := Summarize(d.nalus);
  }

  lemma StepKeepsNalus(d: Depacketizing, payload: Bytes)
    requires Step(d, payload).Running?
    ensures |payload| != 0 && Step(d, payload).d.nalus == d.nalus + Completed(payload, d.buffer)
    ensures AllValid(Completed(payload, d.buffer))
  {
  }

  lemma FrameOfOne(nalus: seq<Bytes>)
    requires |nalus| <= 1
    ensures nalus == [] ==> Frame(nalus) == []
    ensures nalus != [] ==> Frame(nalus) == START_CODE + nalus[0]
  {
    if nalus != [] {
      assert nalus[1..] == [];
      assert START_CODE + nalus[0] + [] == START_CODE + nalus[0];
    }
  }
}
