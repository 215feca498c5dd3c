/** The theorems over whole runs of the assembler. */
module StreamRuns {
  import opened Options
  import opened Rtp
  import opened NalPayload
  import opened Depacketizer
  import opened StreamModel
  import opened StreamSafety
  import opened AnnexB

  datatype Event =
    | Pushed(packet: Packet, generation: nat, watermark: nat, observedAt: int, wantCandidate: bool)
    | Drained(packet: Packet, generation: nat, observedAt: int)
    | WaitBegun
    | WaitEnded

  function Apply(s: Stream, e: Event): Emission {
    match e
    case Pushed(p, g, w, at, want) => Process(s, p, g, w, at, want)
    case Drained(p, _, at) => Emission(Drain(s, p, at), None)
    case WaitBegun => Emission(BeginWait(s), None)
    case WaitEnded => Emission(EndWait(s), None)
  }

  function RunStream(events: seq<Event>): Stream {
    if events == [] then NEW_STREAM
    else Apply(RunStream(events[..|events| - 1]), events[|events| - 1]).stream
  }

  /** The stream whose parameter sets count when the event retires a unit. */
  function Retained(s: Stream, e: Event): Stream {
    if e.Pushed? then Retaining(s, e.packet, e.watermark, e.observedAt, e.wantCandidate) else s
  }

  /** Everything observed during a run. */
  ghost function Sightings(events: seq<Event>): set<Sighting> {
    set e | e in events && (e.Pushed? || e.Drained?) :: Sighting(e.packet, e.generation)
  }

  lemma InvGrows(s: Stream, small: set<Sighting>, large: set<Sighting>)
    requires Inv(s, small) && small <= large
    ensures Inv(s, large)
  {
    hide WellFormedNalu, FramedSize, SumPayload;
    assert forall t, k :: Seen(small, t, k) ==> Seen(large, t, k);
  }

  lemma NewStreamInv(hist: set<Sighting>)
    ensures Inv(NEW_STREAM, hist)
  {
    assert Present(None) + Present(None) == [];
  }

  lemma ApplyKeeps(s: Stream, e: Event, hist: set<Sighting>)
    requires Inv(s, hist)
    requires e.Pushed? || e.Drained? ==> Sighting(e.packet, e.generation) in hist
    ensures Inv(Apply(s, e).stream, hist)
    ensures Apply(s, e).data.Some? ==> e.Pushed? && MadeOf(Apply(s, e).data.value, Retained(s, e).sps, Retained(s, e).pps, hist, e.watermark)
  {
    hide Process, Drain, BeginWait, EndWait, Inv, MadeOf, Retaining;
    match e
    case Pushed(p, g, w, at, want) => ProcessKeeps(s, p, g, w, at, want, hist);
    case Drained(p, g, at) => DrainKeeps(s, p, g, at, hist);
    case WaitBegun => BeginWaitKeeps(s, hist);
    case WaitEnded => EndWaitKeeps(s, hist);
  }

  /** The invariant holds after every run, whatever arrives in whatever order at whatever time. */
  lemma {:induction false} EveryRunKeepsInvariant(events: seq<Event>)
    ensures Inv(RunStream(events), Sightings(events))
  {
    hide Inv, Apply;
    if events == [] {
      NewStreamInv({});
      assert Sightings(events) == {};
    } else {
      var before, e := events[..|events| - 1], events[|events| - 1];
      EveryRunKeepsInvariant(before);
      assert Sightings(before) <= Sightings(events);
      InvGrows(RunStream(before), Sightings(before), Sightings(events));
      ApplyKeeps(RunStream(before), e, Sightings(events));
    }
  }

  /** No headless or tailless frame: whatever a run emits was made from a whole frame, all of whose
      packets arrived during that run, and the parameter sets retained when the frame was completed. */
  lemma EveryEmittedFrameIsWhole(events: seq<Event>, e: Event)
    requires e.Pushed? && Apply(RunStream(events), e).data.Some?
    ensures var s := RunStream(events);
            MadeOf(Apply(s, e).data.value, Retained(s, e).sps, Retained(s, e).pps, Sightings(events + [e]), e.watermark)
  {
    hide Inv, Apply, MadeOf, Retained;
    EveryRunKeepsInvariant(events);
    assert Sightings(events) <= Sightings(events + [e]);
    InvGrows(RunStream(events), Sightings(events), Sightings(events + [e]));
    assert e in events + [e];
    ApplyKeeps(RunStream(events), e, Sightings(events + [e]));
  }

  /** What the assembler keeps is bounded in every reachable state. */
  lemma BoundedMemory(events: seq<Event>)
    ensures var s := RunStream(events);
            (&& |s.completedOrder| <= MAX_COMPLETED
             && |s.completed| == |s.completedOrder|
             && (forall t :: t in s.completed <==> t in s.completedOrder)
             && FramedSize(Present(s.sps) + Present(s.pps)) <= MAX_PARAMETERS
             && (s.pending.Some? ==>
                   var q := s.pending.value;
                   |q.packets| <= MAX_PACKETS && q.payloadBytes == SumPayload(q.packets) <= MAX_ACCESS_UNIT)
             && (s.draining.Some? ==>
                   var u := s.draining.value;
                   && u.packetCount <= MAX_PACKETS && u.payloadBytes <= MAX_ACCESS_UNIT
                   && u.projectedBytes <= MAX_ACCESS_UNIT && |u.fuParameter| <= MAX_PARAMETER))
  {
    hide Apply, WellFormedNalu, FramedSize, SumPayload;
    EveryRunKeepsInvariant(events);
    var s := RunStream(events);
    DistinctCount(s.completedOrder);
    assert s.completed.Keys == Elements(s.completedOrder);
    assert |s.completed| == |s.completed.Keys|;
  }

  ghost function Elements(order: seq<uint32>): set<uint32> {
    set t | t in order
  }

  lemma {:induction false} DistinctCount(order: seq<uint32>)
    requires Distinct(order)
    ensures |Elements(order)| == |order|
  {
    if order == [] {
      assert Elements(order) == {};
    } else {
      var n := |order| - 1;
      var rest := order[..n];
      assert order == rest + [order[n]];
      DistinctCount(rest);
      assert order[n] !in Elements(rest);
      assert Elements(order) == Elements(rest) + {order[n]};
    }
  }

  /** The candidate taken apart at its start codes is the sequence and the picture parameter set in force,
      followed by the other NAL units of the frame in order. In force is the frame's last set of each kind,
      or else the one given. */
  ghost predicate SplitsInto(data: Bytes, frame: seq<Packet>, sps: Option<Bytes>, pps: Option<Bytes>) {
    && Depacketized(frame).Unit?
    && var unit := Depacketized(frame).unit;
    && Newer(unit.sps, sps).Some? && Newer(unit.pps, pps).Some?
    && Split(data) == [Newer(unit.sps, sps).value, Newer(unit.pps, pps).value] + NonParameters(unit.nalus)
  }

  /** Every candidate of every run splits into the parameter sets of its frame, or else the ones the stream
      had retained, and the frame's other NAL units in order. */
  lemma CandidateSplits(events: seq<Event>, e: Event)
    requires e.Pushed? && Apply(RunStream(events), e).data.Some?
    ensures var s := RunStream(events);
            exists frame :: WholeFrame(frame, Sightings(events + [e]), e.watermark)
                            && SplitsInto(Apply(s, e).data.value, frame, Retained(s, e).sps, Retained(s, e).pps)
  {
    hide Apply, Retained, WholeFrame, MadeFrom, Sightings, SplitsInto;
    var s := RunStream(events);
    var data, sps, pps := Apply(s, e).data.value, Retained(s, e).sps, Retained(s, e).pps;
    EveryEmittedFrameIsWhole(events, e);
    var frame: seq<Packet> :| MadeFrom(data, Origin(frame, sps, pps)) && WholeFrame(frame, Sightings(events + [e]), e.watermark);
    MadeSplits(data, frame, sps, pps);
  }

  lemma MadeSplits(data: Bytes, frame: seq<Packet>, sps: Option<Bytes>, pps: Option<Bytes>)
    requires MadeFrom(data, Origin(frame, sps, pps))
    ensures SplitsInto(data, frame, sps, pps)
  {
    hide Depacketized, Split, Frame;
    RoundTrip.DepacketizedSound(frame);
    var unit := Depacketized(frame).unit;
    LatestWellFormed(unit);
    NonParametersWellFormed(unit.nalus);
    var nalus := [Newer(unit.sps, sps).value, Newer(unit.pps, pps).value] + NonParameters(unit.nalus);
    forall n | n in nalus
      ensures Splittable(n)
    {
      WellFormedIsSplittable(n);
    }
    AnnexBRoundTrip(nalus);
  }

  lemma LatestWellFormed(unit: AccessUnit)
    requires forall n | n in unit.nalus :: WellFormedNalu(n)
    requires unit == UnitOf(unit.nalus)
    ensures unit.sps.Some? ==> WellFormedNalu(unit.sps.value)
    ensures unit.pps.Some? ==> WellFormedNalu(unit.pps.value)
  {
    hide WellFormedNalu, HasType;
  }

  lemma {:induction false} NonParametersWellFormed(nalus: seq<Bytes>)
    requires forall n | n in nalus :: WellFormedNalu(n)
    ensures forall n | n in NonParameters(nalus) :: WellFormedNalu(n) && n in nalus
  {
    hide WellFormedNalu;
    if nalus != [] {
      NonParametersWellFormed(nalus[1..]);
    }
  }
}
