/** Packetization and depacketization are inverse. */
module RoundTrip {
  import opened Options
  import opened Octets
  import opened Rtp
  import opened NalPayload
  import opened Depacketizer

  // ---- A sender that follows RFC 6184 ----

  /** How one or several NAL units travel. `pieces` are the consecutive fragments of a NAL unit
      without its header. */
  datatype Plan =
    | Single(nalu: Bytes)
    | Aggregate(nalus: seq<Bytes>)
    | Fragments(header: byte, pieces: seq<Bytes>)

  function Concatenated(pieces: seq<Bytes>): Bytes {
    if pieces == [] then [] else pieces[0] + Concatenated(pieces[1..])
  }

  function PlanNalus(plan: Plan): seq<Bytes> {
    match plan
    case Single(nalu) => [nalu]
    case Aggregate(nalus) => nalus
    case Fragments(header, pieces) => [[header] + Concatenated(pieces)]
  }

  predicate PlanOk(plan: Plan) {
    && (forall n | n in PlanNalus(plan) :: WellFormedNalu(n))
    && match plan
       case Single(_) => true
       case Aggregate(nalus) => nalus != [] && forall n | n in nalus :: 0 < |n| <= 0xffff
       case Fragments(_, pieces) => |pieces| >= 2 && forall p | p in pieces :: p != []
  }

  function Sized(nalu: Bytes): Bytes
    requires |nalu| <= 0xffff
  {
    [(|nalu| / 256) as byte, (|nalu| % 256) as byte] + nalu
  }

  function Aggregated(nalus: seq<Bytes>): Bytes
    requires forall n | n in nalus :: |n| <= 0xffff
  {
    if nalus == [] then [] else Sized(nalus[0]) + Aggregated(nalus[1..])
  }

  function AggregatePayload(nalus: seq<Bytes>): Bytes
    requires forall n | n in nalus :: 0 < |n| <= 0xffff
  {
    [MaxNri(nalus) * 32 + STAP_A] + Aggregated(nalus)
  }

  function FragmentPayload(header: byte, piece: Bytes, start: bool, end: bool): Bytes {
    [Nri(header) * 32 + FU_A, (if start then 128 else 0) + (if end then 64 else 0) + NalType(header)] + piece
  }

  /** The FU-A payloads of `pieces`; `start` tells whether the first one opens the unit. */
  function FragmentPayloads(header: byte, pieces: seq<Bytes>, start: bool): seq<Bytes> {
    if pieces == [] then []
    else [FragmentPayload(header, pieces[0], start, |pieces| == 1)] + FragmentPayloads(header, pieces[1..], false)
  }

  function PlanPayloads(plan: Plan): seq<Bytes>
    requires PlanOk(plan)
  {
    match plan
    case Single(nalu) => [nalu]
    case Aggregate(nalus) => [AggregatePayload(nalus)]
    case Fragments(header, pieces) => FragmentPayloads(header, pieces, true)
  }

  predicate PlansOk(plans: seq<Plan>) {
    forall p | p in plans :: PlanOk(p)
  }

  function AllNalus(plans: seq<Plan>): seq<Bytes> {
    if plans == [] then [] else PlanNalus(plans[0]) + AllNalus(plans[1..])
  }

  function AllPayloads(plans: seq<Plan>): seq<Bytes>
    requires PlansOk(plans)
  {
    if plans == [] then [] else PlanPayloads(plans[0]) + AllPayloads(plans[1..])
  }

  function TotalSize(payloads: seq<Bytes>): nat {
    if payloads == [] then 0 else |payloads[0]| + TotalSize(payloads[1..])
  }

  /** The packets that carry `payloads`: consecutive sequence numbers, one timestamp, the marker on
      the last one only. */
  ghost predicate Carries(packets: seq<Packet>, payloads: seq<Bytes>) {
    && |packets| == |payloads|
    && forall i | 0 <= i < |packets| ::
         && packets[i].version == 2
         && packets[i].payload == payloads[i]
         && packets[i].timestamp == packets[0].timestamp
         && packets[i].marker == (i == |packets| - 1)
         && (i > 0 ==> packets[i].sequence == Next16(packets[i - 1].sequence))
  }

  // ---- Folding over payloads alone ----

  function FoldPayloads(d: Depacketizing, payloads: seq<Bytes>): Progress
    decreases |payloads|
  {
    if payloads == [] then Running(d)
    else
      match Step(d, payloads[0])
      case Stopped(why) => Stopped(why)
      case Running(next) => FoldPayloads(next, payloads[1..])
  }

  lemma {:induction false} FoldConcat(d: Depacketizing, a: seq<Bytes>, b: seq<Bytes>)
    ensures FoldPayloads(d, a).Running? ==> FoldPayloads(d, a + b) == FoldPayloads(FoldPayloads(d, a).d, b)
    decreases |a|
  {
    if a == [] {
      assert a + b == b;
    } else {
      assert (a + b)[1..] == a[1..] + b;
      if Step(d, a[0]).Running? {
        FoldConcat(Step(d, a[0]).d, a[1..], b);
      }
    }
  }

  lemma {:induction false} FoldIsPayloadFold(packets: seq<Packet>, payloads: seq<Bytes>, i: nat, d: Depacketizing)
    requires Carries(packets, payloads) && i <= |packets|
    requires forall p | p in payloads :: p != []
    ensures Fold(packets, i, d) == match FoldPayloads(d, payloads[i..])
                                   case Stopped(why) => Failed(why)
                                   case Running(e) => Finish(e)
    decreases |packets| - i
  {
    if i < |packets| {
      assert payloads[i] in payloads;
      assert payloads[i..][1..] == payloads[i + 1..];
      if Step(d, payloads[i]).Running? {
        FoldIsPayloadFold(packets, payloads, i + 1, Step(d, payloads[i]).d);
      }
    }
  }

  // ---- One plan at a time ----

  /** Between two plans: nothing is open and the output is exactly the NAL units so far. */
  ghost predicate BetweenPlans(d: Depacketizing) {
    !d.fu.open && d.buffer == [] && d.outputBytes == d.projectedBytes == FramedSize(d.nalus)
  }

  ghost predicate Advanced(d: Depacketizing, e: Depacketizing, payloads: seq<Bytes>, nalus: seq<Bytes>) {
    BetweenPlans(e) && e.nalus == d.nalus + nalus && e.payloadBytes == d.payloadBytes + TotalSize(payloads)
  }

  lemma SingleStep(d: Depacketizing, nalu: Bytes)
    requires BetweenPlans(d) && WellFormedNalu(nalu)
    requires d.payloadBytes + |nalu| <= MAX_ACCESS_UNIT
    requires FramedSize(d.nalus) + 4 + |nalu| <= MAX_ACCESS_UNIT
    ensures Step(d, nalu).Running? && Advanced(d, Step(d, nalu).d, [nalu], [nalu])
  {
    FramedSizeAppend(d.nalus, [nalu]);
    OneSize(nalu);
  }

  lemma OneSize(nalu: Bytes)
    ensures FramedSize([nalu]) == 4 + |nalu| && TotalSize([nalu]) == |nalu|
  {
    assert [nalu][1..] == [];
  }

  lemma {:induction false} AggregatedParses(payload: Bytes, offset: nat, nalus: seq<Bytes>)
    requires forall n | n in nalus :: 0 < |n| <= 0xffff
    requires offset <= |payload| && payload[offset..] == Aggregated(nalus)
    ensures StapNalus(payload, offset) == Some(nalus)
    decreases |nalus|
  {
    hide StapNalus;
    if nalus == [] {
      StapEnd(payload);
    } else {
      var n, rest := nalus[0], nalus[1..];
      assert n in nalus;
      var body := offset + 2;
      SizedParses(payload[..offset], n, Aggregated(rest));
      assert payload == payload[..offset] + payload[offset..];
      assert payload == (payload[..offset] + Sized(n)) + Aggregated(rest);
      AggregatedParses(payload, body + |n|, rest);
      StapNalusFrom(payload, offset, n, rest);
      assert [n] + rest == nalus;
    }
  }

  lemma StapEnd(payload: Bytes)
    ensures StapNalus(payload, |payload|) == Some([])
  {
  }

  lemma StapNalusFrom(payload: Bytes, offset: nat, n: Bytes, rest: seq<Bytes>)
    requires 0 < |n| && offset + 2 + |n| <= |payload|
    requires U16(payload, offset) == |n| && payload[offset + 2..offset + 2 + |n|] == n
    requires StapNalus(payload, offset + 2 + |n|) == Some(rest)
    ensures StapNalus(payload, offset) == Some([n] + rest)
  {
  }

  lemma SizedParses(prefix: Bytes, n: Bytes, tail: Bytes)
    requires 0 < |n| <= 0xffff
    ensures var payload, offset := (prefix + Sized(n)) + tail, |prefix|;
            (&& U16(payload, offset) == |n|
             && offset + 2 + |n| == |prefix + Sized(n)| <= |payload|
             && payload[offset + 2..offset + 2 + |n|] == n)
  {
    var payload := (prefix + Sized(n)) + tail;
    assert payload[|prefix|] == Sized(n)[0] && payload[|prefix| + 1] == Sized(n)[1];
  }

  lemma StapHeader(nri: uint2)
    ensures var header: byte := nri * 32 + STAP_A;
            (NalType(header) == STAP_A && Nri(header) == nri && !Forbidden(header))
  {
  }

  /** `payload` is an aggregation packet that holds exactly `nalus`. */
  ghost predicate IsStap(payload: Bytes, nalus: seq<Bytes>) {
    && payload != [] && NalType(payload[0]) == STAP_A && !Forbidden(payload[0])
    && StapValid(payload) && StapNalus(payload, 1) == Some(nalus)
  }

  lemma AggregateIsStap(nalus: seq<Bytes>)
    requires nalus != [] && forall n | n in nalus :: 0 < |n| <= 0xffff
    requires StapHeadersOk(nalus) && FramedSize(nalus) <= MAX_ACCESS_UNIT
    ensures IsStap(AggregatePayload(nalus), nalus)
  {
    var payload := AggregatePayload(nalus);
    StapHeader(MaxNri(nalus));
    assert payload[1..] == Aggregated(nalus);
    AggregatedParses(payload, 1, nalus);
    assert nalus[0] in nalus;
    assert |Aggregated(nalus)| >= |Sized(nalus[0])| >= 3;
  }

  lemma AggregateStep(d: Depacketizing, payload: Bytes, nalus: seq<Bytes>)
    requires BetweenPlans(d) && IsStap(payload, nalus) && AllValid(nalus)
    requires d.payloadBytes + |payload| <= MAX_ACCESS_UNIT
    requires FramedSize(d.nalus) + FramedSize(nalus) <= MAX_ACCESS_UNIT
    ensures Step(d, payload).Running? && Advanced(d, Step(d, payload).d, [payload], nalus)
  {
    hide StapNalus, StapValid, AllValid, FramedSize, TotalSize;
    FramedSizeAppend(d.nalus, nalus);
    OneSize(payload);
    StepRuns(d, payload, FramedSize(nalus), d.fu);
  }

  lemma PlanNalusOk(plan: Plan)
    requires PlanOk(plan)
    ensures AllValid(PlanNalus(plan)) && StapHeadersOk(PlanNalus(plan))
  {
    forall n | n in PlanNalus(plan)
      ensures WellFormedNalu(n)
    {
    }
  }

  lemma StepRuns(d: Depacketizing, payload: Bytes, projected: nat, fu: Fu)
    requires CheckPayload(payload, d.fu) == Good(projected, fu)
    requires |payload| <= MAX_ACCESS_UNIT - d.payloadBytes
    requires projected <= MAX_ACCESS_UNIT - d.projectedBytes
    requires FramedSize(Completed(payload, d.buffer)) <= MAX_ACCESS_UNIT - d.outputBytes
    requires AllValid(Completed(payload, d.buffer))
    ensures var nalus := Completed(payload, d.buffer);
            (Step(d, payload)
             == Running(Depacketizing(d.payloadBytes + |payload|, d.projectedBytes + projected,
                                      d.outputBytes + FramedSize(nalus), fu, NextBuffer(payload, d.buffer), d.nalus + nalus)))
  {
  }

  /** In the middle of a fragmented NAL unit with header `header`. */
  ghost predicate Mid(d: Depacketizing, header: byte) {
    && d.fu == Fu(true, NalType(header), Nri(header))
    && d.outputBytes == FramedSize(d.nalus)
    && d.projectedBytes == d.outputBytes + 5 + |d.buffer|
  }

  lemma FragmentHeader(header: byte, piece: Bytes, start: bool, end: bool)
    requires !Forbidden(header)
    ensures var payload := FragmentPayload(header, piece, start, end);
            (&& NalType(payload[0]) == FU_A && Nri(payload[0]) == Nri(header) && !Forbidden(payload[0])
             && FuStart(payload[1]) == start && FuEnd(payload[1]) == end && !FuReserved(payload[1])
             && NalType(payload[1]) == NalType(header) && payload[2..] == piece && FuHeader(payload) == header)
  {
  }

  lemma FragmentStep(d: Depacketizing, header: byte, piece: Bytes, start: bool, end: bool)
    requires !Forbidden(header) && ValidSingleType(NalType(header)) && piece != [] && !(start && end)
    requires if start then BetweenPlans(d) else Mid(d, header)
    requires d.payloadBytes + 2 + |piece| <= MAX_ACCESS_UNIT
    requires FramedSize(d.nalus) + 5 + |d.buffer| + |piece| <= MAX_ACCESS_UNIT
    requires end ==> ValidNalu([header] + (d.buffer + piece))
    ensures var r := Step(d, FragmentPayload(header, piece, start, end));
            (&& r.Running?
             && r.d.payloadBytes == d.payloadBytes + 2 + |piece|
             && if end then BetweenPlans(r.d) && r.d.nalus == d.nalus + [[header] + (d.buffer + piece)]
                else Mid(r.d, header) && r.d.nalus == d.nalus && r.d.buffer == d.buffer + piece)
  {
    var payload := FragmentPayload(header, piece, start, end);
    FragmentHeader(header, piece, start, end);
    var fu := if start then Fu(true, NalType(header), Nri(header)) else d.fu;
    assert CheckPayload(payload, d.fu)
        == Good(|piece| + (if start then 5 else 0), if end then fu.(open := false) else fu);
    var whole := [header] + (d.buffer + piece);
    OneSize(whole);
    FramedSizeAppend(d.nalus, [whole]);
    assert Completed(payload, d.buffer) == if end then [whole] else [];
    assert d.nalus + [] == d.nalus;
  }

  lemma {:induction false} FragmentsFold(d: Depacketizing, header: byte, pieces: seq<Bytes>, start: bool)
    requires !Forbidden(header) && ValidSingleType(NalType(header))
    requires pieces != [] && (start ==> |pieces| >= 2) && forall p | p in pieces :: p != []
    requires if start then BetweenPlans(d) else Mid(d, header)
    requires d.payloadBytes + TotalSize(FragmentPayloads(header, pieces, start)) <= MAX_ACCESS_UNIT
    requires FramedSize(d.nalus) + 5 + |d.buffer| + |Concatenated(pieces)| <= MAX_ACCESS_UNIT
    requires ValidNalu([header] + (d.buffer + Concatenated(pieces)))
    ensures var payloads := FragmentPayloads(header, pieces, start);
            (&& FoldPayloads(d, payloads).Running?
             && Advanced(d, FoldPayloads(d, payloads).d, payloads, [[header] + (d.buffer + Concatenated(pieces))]))
    decreases |pieces|
  {
    var end := |pieces| == 1;
    var rest := pieces[1..];
    var payload := FragmentPayload(header, pieces[0], start, end);
    var payloads := FragmentPayloads(header, pieces, start);
    assert payloads[0] == payload && payloads[1..] == FragmentPayloads(header, rest, false);
    assert pieces[0] in pieces && forall p | p in rest :: p in pieces;
    assert d.buffer + Concatenated(pieces) == (d.buffer + pieces[0]) + Concatenated(rest);
    if end {
      assert rest == [] && d.buffer + Concatenated(pieces) == d.buffer + pieces[0];
    }
    FragmentStep(d, header, pieces[0], start, end);
    if !end {
      FragmentsFold(Step(d, payload).d, header, rest, false);
    }
  }

  lemma PlanSteps(d: Depacketizing, plan: Plan)
    requires BetweenPlans(d) && PlanOk(plan)
    requires d.payloadBytes + TotalSize(PlanPayloads(plan)) <= MAX_ACCESS_UNIT
    requires FramedSize(d.nalus + PlanNalus(plan)) <= MAX_ACCESS_UNIT
    ensures FoldPayloads(d, PlanPayloads(plan)).Running?
    ensures Advanced(d, FoldPayloads(d, PlanPayloads(plan)).d, PlanPayloads(plan), PlanNalus(plan))
  {
    FramedSizeAppend(d.nalus, PlanNalus(plan));
    match plan
    case Single(nalu) =>
      OneSize(nalu);
      SingleStep(d, nalu);
      assert PlanPayloads(plan)[1..] == [];
    case Aggregate(nalus) =>
      PlanNalusOk(plan);
      AggregateIsStap(nalus);
      OneSize(AggregatePayload(nalus));
      AggregateStep(d, AggregatePayload(nalus), nalus);
      assert PlanPayloads(plan)[1..] == [];
    case Fragments(header, pieces) =>
      var nalu := [header] + Concatenated(pieces);
      assert nalu in PlanNalus(plan) && nalu[0] == header;
      assert d.buffer + Concatenated(pieces) == Concatenated(pieces);
      OneSize(nalu);
      FragmentsFold(d, header, pieces, true);
  }

  lemma {:induction false} TotalSizeConcat(a: seq<Bytes>, b: seq<Bytes>)
    ensures TotalSize(a + b) == TotalSize(a) + TotalSize(b)
  {
    if a == [] {
      assert a + b == b;
    } else {
      assert (a + b)[1..] == a[1..] + b;
      TotalSizeConcat(a[1..], b);
    }
  }

  lemma {:induction false} PlansSteps(d: Depacketizing, plans: seq<Plan>)
    requires BetweenPlans(d) && PlansOk(plans)
    requires d.payloadBytes + TotalSize(AllPayloads(plans)) <= MAX_ACCESS_UNIT
    requires FramedSize(d.nalus + AllNalus(plans)) <= MAX_ACCESS_UNIT
    ensures FoldPayloads(d, AllPayloads(plans)).Running?
    ensures Advanced(d, FoldPayloads(d, AllPayloads(plans)).d, AllPayloads(plans), AllNalus(plans))
    decreases |plans|
  {
    hide Step, PlanPayloads, PlanNalus, PlanOk;
    if plans == [] {
      assert d.nalus + [] == d.nalus;
    } else {
      var plan, rest := plans[0], plans[1..];
      assert plan in plans;
      var payloads, others := PlanPayloads(plan), AllPayloads(rest);
      TotalSizeConcat(payloads, others);
      assert d.nalus + AllNalus(plans) == (d.nalus + PlanNalus(plan)) + AllNalus(rest);
      FramedSizeAppend(d.nalus + PlanNalus(plan), AllNalus(rest));
      PlanSteps(d, plan);
      FoldConcat(d, payloads, others);
      PlansSteps(FoldPayloads(d, payloads).d, rest);
    }
  }

  lemma {:induction false} PayloadsNonEmpty(plans: seq<Plan>)
    requires PlansOk(plans)
    ensures forall p | p in AllPayloads(plans) :: p != []
  {
    if plans != [] {
      var plan := plans[0];
      assert plan in plans;
      match plan {
        case Single(nalu) => assert nalu in PlanNalus(plan);
        case Aggregate(_) =>
        case Fragments(header, pieces) => FragmentsNonEmpty(header, pieces, true);
      }
      PayloadsNonEmpty(plans[1..]);
    }
  }

  lemma {:induction false} FragmentsNonEmpty(header: byte, pieces: seq<Bytes>, start: bool)
    ensures forall p | p in FragmentPayloads(header, pieces, start) :: p != []
  {
    if pieces != [] {
      FragmentsNonEmpty(header, pieces[1..], false);
    }
  }

  /** Whatever mix of single NAL unit, STAP-A and FU-A packets carries a list of NAL units, the
      depacketizer returns exactly that list, with its IDR flag and its last parameter sets. */
  lemma PacketizationRoundTrip(plans: seq<Plan>, packets: seq<Packet>)
    requires PlansOk(plans) && Carries(packets, AllPayloads(plans))
    requires 1 <= |packets| <= MAX_PACKETS
    requires TotalSize(AllPayloads(plans)) <= MAX_ACCESS_UNIT
    requires FramedSize(AllNalus(plans)) <= MAX_ACCESS_UNIT
    requires ParametersFit(AllNalus(plans))
    ensures Depacketized(packets) == Unit(UnitOf(AllNalus(plans)))
  {
    var payloads := AllPayloads(plans);
    assert FRESH.nalus + AllNalus(plans) == AllNalus(plans);
    PlansSteps(FRESH, plans);
    PayloadsNonEmpty(plans);
    FoldIsPayloadFold(packets, payloads, 0, FRESH);
    assert payloads[0..] == payloads;
  }

  // ---- The other direction: what a returned unit looks like ----

  ghost predicate Sound(d: Depacketizing) {
    && (forall n | n in d.nalus :: WellFormedNalu(n))
    && d.outputBytes == FramedSize(d.nalus)
    && (if d.fu.open
        then ValidSingleType(d.fu.typ) && d.fu.nri <= 3 && d.projectedBytes == d.outputBytes + 5 + |d.buffer|
        else d.buffer == [] && d.projectedBytes == d.outputBytes)
    && d.projectedBytes <= MAX_ACCESS_UNIT
  }

  lemma StepSound(d: Depacketizing, payload: Bytes)
    requires Sound(d) && Step(d, payload).Running?
    ensures Sound(Step(d, payload).d)
  {
    GoodPayload(payload, d.fu);
    var nalus := Completed(payload, d.buffer);
    FramedSizeAppend(d.nalus, nalus);
    var t := NalType(payload[0]);
    if ValidSingleType(t) {
      OneSize(payload);
    } else if t == FU_A {
      var whole := [FuHeader(payload)] + (d.buffer + payload[2..]);
      OneSize(whole);
      assert NalType(whole[0]) == NalType(payload[1]) && !Forbidden(whole[0]);
      assert d.nalus + [] == d.nalus;
    }
  }

  lemma {:induction false} FoldSound(packets: seq<Packet>, i: nat, d: Depacketizing)
    requires i <= |packets| && Sound(d)
    ensures var r := Fold(packets, i, d);
            (r.Unit? ==>
              && (forall n | n in r.unit.nalus :: WellFormedNalu(n))
              && FramedSize(r.unit.nalus) <= MAX_ACCESS_UNIT
              && ParametersFit(r.unit.nalus)
              && r.unit == UnitOf(r.unit.nalus))
    decreases |packets| - i
  {
    if i < |packets| && HeaderOk(packets, i) && Step(d, packets[i].payload).Running? {
      StepSound(d, packets[i].payload);
      FoldSound(packets, i + 1, Step(d, packets[i].payload).d);
    }
  }

  /** Every NAL unit of a returned access unit has a clear forbidden bit, an admitted type and no
      embedded start code, and the whole fits the access-unit bound. */
  lemma DepacketizedSound(packets: seq<Packet>)
    requires Depacketized(packets).Unit?
    ensures var u := Depacketized(packets).unit;
            (&& (forall n | n in u.nalus :: WellFormedNalu(n))
             && FramedSize(u.nalus) <= MAX_ACCESS_UNIT
             && ParametersFit(u.nalus)
             && u == UnitOf(u.nalus))
  {
    FoldSound(packets, 0, FRESH);
  }
}
