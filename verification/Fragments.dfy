/** Which access units the depacketizer finds incomplete, read off their payloads. */
module Fragments {
  import opened Octets
  import opened Rtp
  import opened NalPayload
  import opened Depacketizer
  import opened StreamModel
  import opened StreamSafety
  import opened Confluence
  import R = RoundTrip

  /** The depacketizer after the first `k` payloads. */
  function Partial(u: seq<Packet>, k: nat): Progress
    requires k <= |u|
  {
    if k == 0 then Running(FRESH)
    else
      match Partial(u, k - 1)
      case Stopped(why) => Stopped(why)
      case Running(d) => Step(d, u[k - 1].payload)
  }

  lemma {:induction false} PartialBytes(u: seq<Packet>, k: nat)
    requires k <= |u| && Partial(u, k).Running?
    ensures Partial(u, k).d.payloadBytes == TotalPayload(u, k) && R.Sound(Partial(u, k).d)
  {
    if k != 0 {
      PartialBytes(u, k - 1);
      R.StepSound(Partial(u, k - 1).d, u[k - 1].payload);
      hide R.Sound, Completed, NextBuffer, FramedSize, AllValid, CheckPayload;
    }
  }

  lemma {:induction false} FoldIsPartial(u: seq<Packet>, k: nat)
    requires k <= |u| && forall i | 0 <= i < k :: HeaderOk(u, i)
    ensures Fold(u, 0, FRESH) == match Partial(u, k)
                                 case Stopped(why) => Failed(why)
                                 case Running(d) => Fold(u, k, d)
  {
    if k != 0 {
      FoldIsPartial(u, k - 1);
      assert HeaderOk(u, k - 1);
      hide Step, HeaderOk, Finish;
    }
  }

  lemma UnitHeaders(first: uint16, u: seq<Packet>)
    requires UnitShape(first, u)
    ensures forall i | 0 <= i < |u| :: HeaderOk(u, i)
  {
    forall i | 0 <= i < |u|
      ensures HeaderOk(u, i)
    {
      if i > 0 {
        assert u[i - 1].sequence == Add16(first, i - 1) && u[i].sequence == Add16(first, i);
      }
    }
  }

  lemma DepacketizedIsPartial(first: uint16, u: seq<Packet>)
    requires UnitShape(first, u)
    ensures Depacketized(u) == match Partial(u, |u|)
                               case Stopped(why) => Failed(why)
                               case Running(d) => Finish(d)
  {
    UnitHeaders(first, u);
    FoldIsPartial(u, |u|);
  }

  lemma {:induction false} TotalGrows(u: seq<Packet>, k: nat)
    requires k <= |u|
    ensures TotalPayload(u, k) <= TotalPayload(u, |u|)
    decreases |u| - k
  {
    if k < |u| {
      TotalGrows(u, k + 1);
    }
  }

  // ---- The payloads by themselves ----

  /** A well-formed fragment, wherever it stands. */
  predicate IsFragment(payload: Bytes) {
    && |payload| > 2 && !Forbidden(payload[0]) && NalType(payload[0]) == FU_A
    && !FuReserved(payload[1]) && ValidSingleType(NalType(payload[1])) && !(FuStart(payload[1]) && FuEnd(payload[1]))
  }

  /** The payload before the `k`-th leaves a fragmented NAL unit open. */
  predicate OpenAt(u: seq<Packet>, k: nat)
    requires k <= |u|
  {
    k > 0 && IsFragment(u[k - 1].payload) && !FuEnd(u[k - 1].payload[1])
  }

  /** The fragment goes on where the one before it left off. */
  predicate Continues(u: seq<Packet>, k: nat)
    requires k < |u|
  {
    && OpenAt(u, k) && IsFragment(u[k].payload) && !FuStart(u[k].payload[1])
    && var before, p := u[k - 1].payload, u[k].payload;
    && NalType(p[1]) == NalType(before[1]) && Nri(p[0]) == Nri(before[0])
  }

  /** What the fragments up to the `k`-th payload carry. */
  function Carried(u: seq<Packet>, k: nat): Bytes
    requires k < |u|
  {
    var p := u[k].payload;
    if !IsFragment(p) then []
    else if FuStart(p[1]) || k == 0 then p[2..] else Carried(u, k - 1) + p[2..]
  }

  /** The framed size the payload adds to the access unit. */
  function Adds(payload: Bytes): nat {
    if |payload| == 0 then 0
    else if NalType(payload[0]) == STAP_A then
      match StapNalus(payload, 1)
      case None => 0
      case Some(nalus) => FramedSize(nalus)
    else if IsFragment(payload) then |payload| - 2 + (if FuStart(payload[1]) then 5 else 0)
    else 4 + |payload|
  }

  function AddsUpTo(u: seq<Packet>, k: nat): nat
    requires k <= |u|
  {
    if k == 0 then 0 else AddsUpTo(u, k - 1) + Adds(u[k - 1].payload)
  }

  /** Nothing is wrong with the `k`-th payload after those before it. */
  predicate Fits(u: seq<Packet>, k: nat)
    requires k < |u|
  {
    var p := u[k].payload;
    && |p| != 0 && !Forbidden(p[0])
    && AddsUpTo(u, k + 1) <= MAX_ACCESS_UNIT
    && var t := NalType(p[0]);
       if ValidSingleType(t) then !OpenAt(u, k) && ValidNalu(p)
       else if t == STAP_A then !OpenAt(u, k) && StapValid(p) && AllValid(StapNalus(p, 1).value)
       else
         && IsFragment(p)
         && (if FuStart(p[1]) then !OpenAt(u, k) else Continues(u, k))
         && (FuEnd(p[1]) ==> !HasStartCode(Carried(u, k)))
  }

  predicate AllFit(u: seq<Packet>, k: nat)
    requires k <= |u|
  {
    forall i | 0 <= i < k :: Fits(u, i)
  }

  /** A fragment in the middle of nothing. */
  predicate OrphanAt(u: seq<Packet>, k: nat)
    requires k < |u|
  {
    IsFragment(u[k].payload) && !FuStart(u[k].payload[1]) && !OpenAt(u, k)
  }

  /** The unit lacks the start of a fragmented NAL unit, at a fragment reached before anything else is
      wrong, or the end of its last one. */
  predicate LacksPart(u: seq<Packet>) {
    || (AllFit(u, |u|) && OpenAt(u, |u|))
    || exists k | 0 <= k < |u| :: AllFit(u, k) && OrphanAt(u, k)
  }

  // ---- The depacketizer agrees ----

  /** The depacketizer's state after `k` payloads, read off the payloads. */
  predicate ReadsAs(d: Depacketizing, u: seq<Packet>, k: nat)
    requires k <= |u|
  {
    && d.projectedBytes == AddsUpTo(u, k) && d.payloadBytes == TotalPayload(u, k)
    && d.fu.open == OpenAt(u, k)
    && (if d.fu.open
        then d.fu.typ == NalType(u[k - 1].payload[1]) && d.fu.nri == Nri(u[k - 1].payload[0]) && d.buffer == Carried(u, k - 1)
        else d.buffer == [])
  }

  lemma WholeHeader(header: byte, content: Bytes)
    ensures ValidNalu([header] + content) <==> !HasStartCode(content)
  {
    assert ([header] + content)[1..] == content;
  }

  /** Payloads of whole NAL units. */
  lemma WholeReads(d: Depacketizing, u: seq<Packet>, k: nat)
    requires k < |u| && R.Sound(d) && ReadsAs(d, u, k) && TotalPayload(u, k + 1) <= MAX_ACCESS_UNIT
    requires |u[k].payload| != 0 && NalType(u[k].payload[0]) != FU_A
    ensures var r := Step(d, u[k].payload);
            (&& (r.Running? <==> Fits(u, k)) && (r.Running? ==> ReadsAs(r.d, u, k + 1)) && r != Stopped(IncompleteUnit))
    ensures !OrphanAt(u, k)
  {
    R.OneSize(u[k].payload);
    hide StapValid, StapNalus, ValidNalu, R.Sound, TotalPayload, AllValid;
    assert AllValid([u[k].payload]) <==> ValidNalu(u[k].payload);
  }

  predicate Follows(u: seq<Packet>, k: nat)
    requires k < |u|
  {
    IsFragment(u[k].payload) && (if FuStart(u[k].payload[1]) then !OpenAt(u, k) else Continues(u, k))
  }

  /** A fragment against the open fragmentation unit. */
  lemma FragmentChecked(d: Depacketizing, u: seq<Packet>, k: nat)
    requires k < |u| && ReadsAs(d, u, k) && |u[k].payload| != 0 && NalType(u[k].payload[0]) == FU_A
    ensures var p := u[k].payload;
            var r := CheckPayload(p, d.fu);
            (&& (r.Orphan? <==> OrphanAt(u, k)) && (r.Good? <==> Follows(u, k))
             && (r.Good? ==> r.projected == Adds(p) && r.fu.open == !FuEnd(p[1]) && r.fu.typ == NalType(p[1]) && r.fu.nri == Nri(p[0])))
  {
    hide TotalPayload, Carried, AddsUpTo, FuReserved, FuStart, FuEnd, Nri, Forbidden;
  }

  lemma FragmentReads(d: Depacketizing, u: seq<Packet>, k: nat)
    requires k < |u| && R.Sound(d) && ReadsAs(d, u, k) && TotalPayload(u, k + 1) <= MAX_ACCESS_UNIT
    requires |u[k].payload| != 0 && NalType(u[k].payload[0]) == FU_A
    ensures var r := Step(d, u[k].payload);
            (&& (r.Running? <==> Fits(u, k)) && (r.Running? ==> ReadsAs(r.d, u, k + 1))
             && (r == Stopped(IncompleteUnit) <==> OrphanAt(u, k)))
  {
    var p := u[k].payload;
    assert |p| <= MAX_ACCESS_UNIT - d.payloadBytes;
    FragmentChecked(d, u, k);
    if Follows(u, k) {
      FragmentCarries(d, u, k);
      FragmentSteps(d, u, k);
    }
    hide OpenAt, Continues, IsFragment, CheckPayload, HasStartCode, TotalPayload, Carried, Nri, FuStart, FuEnd, Forbidden, ReadsAs, AllValid, Completed;
  }

  lemma FragmentCarries(d: Depacketizing, u: seq<Packet>, k: nat)
    requires k < |u| && ReadsAs(d, u, k) && Follows(u, k)
    ensures Carried(u, k) == d.buffer + u[k].payload[2..]
  {
    hide TotalPayload, AddsUpTo, Adds, FuReserved, FuEnd, Nri, NalType, ValidSingleType, Forbidden;
  }

  lemma FragmentSteps(d: Depacketizing, u: seq<Packet>, k: nat)
    requires k < |u| && R.Sound(d) && ReadsAs(d, u, k) && TotalPayload(u, k + 1) <= MAX_ACCESS_UNIT
    requires Follows(u, k) && Carried(u, k) == d.buffer + u[k].payload[2..]
    requires var p, r := u[k].payload, CheckPayload(u[k].payload, d.fu);
             r.Good? && r.projected == Adds(p) && r.fu.open == !FuEnd(p[1]) && r.fu.typ == NalType(p[1]) && r.fu.nri == Nri(p[0])
    ensures var r := Step(d, u[k].payload);
            (&& (r.Running? <==> Fits(u, k)) && (r.Running? ==> ReadsAs(r.d, u, k + 1)) && r != Stopped(IncompleteUnit))
  {
    var p := u[k].payload;
    FragmentCompletes(d, p, Carried(u, k));
    FragmentOutput(d, p);
    hide HasStartCode, CheckPayload, Completed, Carried, FramedSize, AllValid, Nri, FuHeader, FuReserved, FuStart, R.Sound, ValidNalu;
  }

  /** The NAL unit a last fragment completes. */
  lemma FragmentCompletes(d: Depacketizing, p: Bytes, content: Bytes)
    requires IsFragment(p) && content == d.buffer + p[2..]
    ensures var nalus := Completed(p, d.buffer);
            (&& (AllValid(nalus) <==> (FuEnd(p[1]) ==> !HasStartCode(content)))
             && FramedSize(nalus) == (if FuEnd(p[1]) then 5 + |content| else 0)
             && NextBuffer(p, d.buffer) == (if FuEnd(p[1]) then [] else content))
  {
    var whole := [FuHeader(p)] + content;
    WholeHeader(FuHeader(p), content);
    R.OneSize(whole);
    hide HasStartCode, ValidNalu, Nri, FuHeader, FuReserved, FuEnd;
  }

  /** What it adds to the output was counted before. */
  lemma FragmentOutput(d: Depacketizing, p: Bytes)
    requires R.Sound(d) && IsFragment(p) && CheckPayload(p, d.fu).Good?
    ensures FuEnd(p[1]) ==> 5 + |d.buffer + p[2..]| + d.outputBytes == d.projectedBytes + CheckPayload(p, d.fu).projected
  {
    hide FuReserved, Nri, FramedSize, WellFormedNalu;
  }

  lemma {:induction false} PartialReads(u: seq<Packet>, k: nat)
    requires k <= |u| && TotalPayload(u, |u|) <= MAX_ACCESS_UNIT && forall i | 0 <= i < |u| :: |u[i].payload| != 0
    ensures Partial(u, k).Running? <==> AllFit(u, k)
    ensures Partial(u, k).Running? ==> ReadsAs(Partial(u, k).d, u, k)
    ensures Partial(u, k) == Stopped(IncompleteUnit) <==> exists i | 0 <= i < k :: AllFit(u, i) && OrphanAt(u, i)
  {
    hide Fits, OrphanAt, Step, ReadsAs, R.Sound;
    if k == 0 {
      assert ReadsAs(FRESH, u, 0) by {
        FreshReads(u);
      }
    } else {
      PartialReads(u, k - 1);
      TotalGrows(u, k);
      assert AllFit(u, k) <==> AllFit(u, k - 1) && Fits(u, k - 1);
      if Partial(u, k - 1).Running? {
        var d := Partial(u, k - 1).d;
        PartialBytes(u, k - 1);
        if NalType(u[k - 1].payload[0]) == FU_A {
          FragmentReads(d, u, k - 1);
        } else {
          WholeReads(d, u, k - 1);
        }
        OrphansBefore(u, k);
      } else {
        OrphansBefore(u, k);
      }
    }
  }

  lemma FreshReads(u: seq<Packet>)
    ensures ReadsAs(FRESH, u, 0)
  {
  }

  lemma OrphansBefore(u: seq<Packet>, k: nat)
    requires 0 < k <= |u|
    ensures (exists i | 0 <= i < k :: AllFit(u, i) && OrphanAt(u, i))
        <==> (exists i | 0 <= i < k - 1 :: AllFit(u, i) && OrphanAt(u, i)) || (AllFit(u, k - 1) && OrphanAt(u, k - 1))
  {
    hide AllFit, OrphanAt;
  }

  /** The depacketizer finds a unit within the bounds incomplete exactly when it lacks a part. */
  lemma CompletableIff(first: uint16, u: seq<Packet>)
    requires UnitShape(first, u)
    ensures Completable(u) <==> !LacksPart(u)
  {
    DepacketizedIsPartial(first, u);
    UnitPayloads(first, u);
    PartialReads(u, |u|);
    hide Partial, AllFit, OrphanAt, Depacketized, UnitShape, ParametersFit;
  }

  lemma UnitPayloads(first: uint16, u: seq<Packet>)
    requires UnitShape(first, u)
    ensures TotalPayload(u, |u|) <= MAX_ACCESS_UNIT && forall i | 0 <= i < |u| :: |u[i].payload| != 0
  {
    forall i | 0 <= i < |u|
      ensures |u[i].payload| != 0
    {
      assert !Malformed(u[i]);
    }
  }

  // ---- Such units exist ----

  /** The stream has an anchor, nothing under way, and has not finished this timestamp. */
  ghost predicate Awaits(s: Stream, timestamp: uint32) {
    s.haveNext && s.pending.None? && s.draining.None? && HistoryInv(s) && timestamp !in s.completed
  }

  function Sole(s: Stream, timestamp: uint32, payload: Bytes): seq<Packet> {
    [Packet(2, s.nextSequence, timestamp, true, payload, 0)]
  }

  /** A middle fragment alone, and a first fragment alone: units in order and within every bound that the
      depacketizer never completes. */
  lemma LoneFragments(s: Stream, timestamp: uint32)
    requires Awaits(s, timestamp)
    ensures var middle, first := Sole(s, timestamp, [0x7c, 0x05, 0]), Sole(s, timestamp, [0x7c, 0x85, 0]);
            (&& AnchoredUnit(s, middle) && LacksPart(middle) && !Completable(middle)
             && AnchoredUnit(s, first) && LacksPart(first) && !Completable(first))
  {
    hide HistoryInv;
    var middle, first := Sole(s, timestamp, [0x7c, 0x05, 0]), Sole(s, timestamp, [0x7c, 0x85, 0]);
    SoleIsAnchored(s, timestamp, [0x7c, 0x05, 0]);
    SoleIsAnchored(s, timestamp, [0x7c, 0x85, 0]);
    assert AllFit(middle, 0) && OrphanAt(middle, 0);
    assert AddsUpTo(first, 1) == 6;
    assert Fits(first, 0) && OpenAt(first, 1);
    CompletableIff(s.nextSequence, middle);
    CompletableIff(s.nextSequence, first);
    hide AnchoredUnit, UnitShape, Completable;
  }

  lemma SoleIsAnchored(s: Stream, timestamp: uint32, payload: Bytes)
    requires Awaits(s, timestamp) && 0 < |payload| <= 3
    ensures AnchoredUnit(s, Sole(s, timestamp, payload)) && UnitShape(s.nextSequence, Sole(s, timestamp, payload))
  {
    var u := Sole(s, timestamp, payload);
    assert TotalPayload(u, 0) == 0 && TotalPayload(u, 1) == |payload|;
    assert Add16(s.nextSequence, 0) == s.nextSequence;
    hide HistoryInv;
  }

  /** A fragment without its start behind a payload that is invalid anyway: the unit is complete, as a
      failed one. */
  lemma BrokenBeforeOrphan(s: Stream, timestamp: uint32)
    requires Awaits(s, timestamp)
    ensures var u := [Packet(2, s.nextSequence, timestamp, false, [0xff], 0), Packet(2, Next16(s.nextSequence), timestamp, true, [0x7c, 0x05, 0], 0)];
            AnchoredUnit(s, u) && OrphanAt(u, 1) && !LacksPart(u) && Completable(u)
  {
    hide HistoryInv;
    var u := [Packet(2, s.nextSequence, timestamp, false, [0xff], 0), Packet(2, Next16(s.nextSequence), timestamp, true, [0x7c, 0x05, 0], 0)];
    assert TotalPayload(u, 0) == 0 && TotalPayload(u, 1) == 1 && TotalPayload(u, 2) == 4;
    assert Add16(s.nextSequence, 0) == s.nextSequence && Add16(s.nextSequence, 1) == Next16(s.nextSequence);
    assert UnitShape(s.nextSequence, u) && AnchoredUnit(s, u);
    assert OrphanAt(u, 1) && !OrphanAt(u, 0) && !Fits(u, 0);
    CompletableIff(s.nextSequence, u);
    hide AnchoredUnit, UnitShape, Completable, OrphanAt, Fits;
  }
}
