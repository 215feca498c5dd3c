/** H.264 RTP payload structures: single NAL units, STAP-A and FU-A
    (sections 5.6, 5.7.1 and 5.8 of RFC 6184). */
module NalPayload {
  import opened Options
  import opened Octets
  import opened Rtp

  const MAX_ACCESS_UNIT := 4194304
  const MAX_PARAMETER := 32768
  const MAX_PARAMETERS := 65536
  const MAX_PACKETS := 4096
  const START_CODE: Bytes := [0, 0, 0, 1]

  const SPS_TYPE: byte := 7
  const PPS_TYPE: byte := 8
  const STAP_A: byte := 24
  const FU_A: byte := 28

  function NalType(header: byte): byte { header % 32 }

  function Nri(header: byte): uint2 { header / 32 % 4 }

  predicate Forbidden(header: byte) { header >= 128 }

  predicate FuStart(header: byte) { header >= 128 }

  predicate FuEnd(header: byte) { header / 64 % 2 == 1 }

  predicate FuReserved(header: byte) { header / 32 % 2 == 1 }

  predicate ValidSingleType(t: byte) { 1 <= t <= 16 || 19 <= t <= 21 }

  predicate StartCodeAt(s: Bytes, i: int)
  {
    0 <= i <= |s| - 3 && s[i] == 0 && s[i + 1] == 0 && s[i + 2] == 1
  }

  predicate HasStartCode(s: Bytes) {
    exists i | 0 <= i < |s| :: StartCodeAt(s, i)
  }

  predicate ValidNalu(nalu: Bytes) {
    |nalu| != 0 && !HasStartCode(nalu[1..])
  }

  /** What every NAL unit delivered by the depacketizer satisfies. */
  predicate WellFormedNalu(nalu: Bytes) {
    && ValidNalu(nalu)
    && !Forbidden(nalu[0])
    && ValidSingleType(NalType(nalu[0]))
  }

  predicate IsParameter(nalu: Bytes) {
    |nalu| != 0 && (NalType(nalu[0]) == SPS_TYPE || NalType(nalu[0]) == PPS_TYPE)
  }

  function U16(payload: Bytes, offset: nat): nat
    requires offset + 2 <= |payload|
  {
    (payload[offset] as int) * 256 + payload[offset + 1]
  }

  /** The size of the NAL units once each is preceded by a four-byte start code. */
  function FramedSize(nalus: seq<Bytes>): nat {
    if nalus == [] then 0 else 4 + |nalus[0]| + FramedSize(nalus[1..])
  }

  lemma {:induction false} FramedSizeAppend(a: seq<Bytes>, b: seq<Bytes>)
    ensures FramedSize(a + b) == FramedSize(a) + FramedSize(b)
  {
    if a == [] {
      assert a + b == b;
    } else {
      assert (a + b)[1..] == a[1..] + b;
      FramedSizeAppend(a[1..], b);
    }
  }

  /** An Annex B byte stream: every NAL unit behind a four-byte start code
      (section B.1 of ITU-T H.264). */
  function Frame(nalus: seq<Bytes>): (stream: Bytes)
    ensures |stream| == FramedSize(nalus)
  {
    if nalus == [] then [] else START_CODE + nalus[0] + Frame(nalus[1..])
  }

  // ---- STAP-A ----

  /** The NAL units of a STAP-A payload from `offset` on; None when a size field is missing, zero
      or runs past the end. */
  function StapNalus(payload: Bytes, offset: nat): (r: Option<seq<Bytes>>)
    requires offset <= |payload|
    ensures r.Some? ==> forall n | n in r.value :: |n| != 0
    decreases |payload| - offset
  {
    if offset == |payload| then Some([])
    else if |payload| - offset < 2 then None
    else
      var size := U16(payload, offset);
      if size == 0 || size > |payload| - offset - 2 then None
      else
        match StapNalus(payload, offset + 2 + size)
        case None => None
        case Some(rest) => Some([payload[offset + 2..offset + 2 + size]] + rest)
  }

  function Max(a: uint2, b: uint2): uint2 { if a > b then a else b }

  function MaxNri(nalus: seq<Bytes>): uint2
    requires forall n | n in nalus :: |n| != 0
  {
    if nalus == [] then 0 else Max(Nri(nalus[0][0]), MaxNri(nalus[1..]))
  }

  predicate StapHeadersOk(nalus: seq<Bytes>) {
    forall n | n in nalus :: |n| != 0 && !Forbidden(n[0]) && ValidSingleType(NalType(n[0]))
  }

  predicate StapValid(payload: Bytes) {
    && |payload| >= 4
    && var nalus := StapNalus(payload, 1);
    && nalus.Some?
    && StapHeadersOk(nalus.value)
    && FramedSize(nalus.value) <= MAX_ACCESS_UNIT
    && Nri(payload[0]) == MaxNri(nalus.value)
  }

  /** The checked walk over an aggregation packet. Every slice it takes is in bounds. */
  method StapAAnnexBSize(payload: Bytes) returns (projected: nat, valid: bool)
    ensures valid <==> StapValid(payload)
    ensures valid ==> projected == FramedSize(StapNalus(payload, 1).value)
  {
    if |payload| < 4 {
      return 0, false;
    }
    var maxNri: uint2 := 0;
    projected := 0;
    var offset := 1;
    ghost var seen: seq<Bytes> := [];
    PrefixedByNothing(StapNalus(payload, 1));
    while offset < |payload|
      invariant 1 <= offset <= |payload|
      invariant StapHeadersOk(seen)
      invariant projected == FramedSize(seen) <= MAX_ACCESS_UNIT
      invariant maxNri == MaxNri(seen)
      invariant StapNalus(payload, 1) == Prefixed(seen, StapNalus(payload, offset))
      decreases |payload| - offset
    {
      if |payload| - offset < 2 {
        return 0, false;
      }
      var size := U16(payload, offset);
      var body := offset + 2;
      if size == 0 || size > |payload| - body {
        return 0, false;
      }
      var nalu := payload[body..body + size];
      StapStep(payload, offset, seen);
      if Forbidden(nalu[0]) || !ValidSingleType(NalType(nalu[0])) {
        return 0, false;
      }
      if Nri(nalu[0]) > maxNri {
        maxNri := Nri(nalu[0]);
      }
      if size > MAX_ACCESS_UNIT - |START_CODE| - projected {
        return 0, false;
      }
      projected := projected + |START_CODE| + size;
      offset := body + size;
      seen := seen + [nalu];
    }
    assert StapNalus(payload, 1) == Some(seen) by { assert seen + [] == seen; }
    valid := Nri(payload[0]) == maxNri;
  }

  /** One NAL unit of the walk: it is taken over, or makes the payload invalid. */
  lemma StapStep(payload: Bytes, offset: nat, seen: seq<Bytes>)
    requires |payload| >= 4 && 1 <= offset && offset + 2 < |payload| && 0 < U16(payload, offset) <= |payload| - offset - 2
    requires StapNalus(payload, 1) == Prefixed(seen, StapNalus(payload, offset)) && forall n | n in seen :: |n| != 0
    ensures var size := U16(payload, offset);
            var nalu := payload[offset + 2..offset + 2 + size];
            (&& StapNalus(payload, 1) == Prefixed(seen + [nalu], StapNalus(payload, offset + 2 + size))
             && FramedSize(seen + [nalu]) == FramedSize(seen) + |START_CODE| + size
             && MaxNri(seen + [nalu]) == Max(MaxNri(seen), Nri(nalu[0]))
             && (Forbidden(nalu[0]) || !ValidSingleType(NalType(nalu[0])) || FramedSize(seen + [nalu]) > MAX_ACCESS_UNIT ==> !StapValid(payload)))
  {
    var size := U16(payload, offset);
    var nalu := payload[offset + 2..offset + 2 + size];
    var rest := StapNalus(payload, offset + 2 + size);
    assert StapNalus(payload, offset) == Prefixed([nalu], rest);
    PrefixedTwice(seen, [nalu], rest);
    FramedSizeAppend(seen, [nalu]);
    MaxNriAppend(seen, nalu);
    if rest.Some? {
      FramedSizeAppend(seen + [nalu], rest.value);
      assert (seen + [nalu] + rest.value)[|seen|] == nalu;
      assert nalu in StapNalus(payload, 1).value;
    }
  }

  ghost function Prefixed(a: seq<Bytes>, r: Option<seq<Bytes>>): Option<seq<Bytes>> {
    if r.None? then None else Some(a + r.value)
  }

  lemma PrefixedByNothing(r: Option<seq<Bytes>>)
    ensures Prefixed([], r) == r
  {
    if r.Some? {
      assert [] + r.value == r.value;
    }
  }

  lemma PrefixedTwice(a: seq<Bytes>, b: seq<Bytes>, r: Option<seq<Bytes>>)
    ensures Prefixed(a, Prefixed(b, r)) == Prefixed(a + b, r)
  {
    if r.Some? {
      assert a + (b + r.value) == (a + b) + r.value;
    }
  }

  lemma {:induction false} MaxNriAppend(a: seq<Bytes>, n: Bytes)
    requires forall m | m in a :: |m| != 0
    requires |n| != 0
    ensures MaxNri(a + [n]) == Max(MaxNri(a), Nri(n[0]))
  {
    if a == [] {
      assert a + [n] == [n];
      assert [n][1..] == [];
    } else {
      assert (a + [n])[1..] == a[1..] + [n];
      MaxNriAppend(a[1..], n);
    }
  }

  // ---- Per-packet payload check ----

  /** The open fragmentation unit carried from packet to packet. */
  datatype Fu = Fu(open: bool, typ: byte, nri: uint2)

  const FU_CLOSED := Fu(false, 0, 0)

  /** `Orphan` is a fragment whose start was never seen. */
  datatype Checked = Bad | Orphan | Good(projected: nat, fu: Fu)

  function CheckPayload(payload: Bytes, fu: Fu): (r: Checked) {
    if |payload| == 0 || Forbidden(payload[0]) then Bad
    else
      var t := NalType(payload[0]);
      if ValidSingleType(t) then
        if fu.open then Bad else Good(|START_CODE| + |payload|, fu)
      else if t == STAP_A then
        if fu.open || !StapValid(payload) then Bad
        else Good(FramedSize(StapNalus(payload, 1).value), fu)
      else if t == FU_A then
        CheckFragment(payload, fu)
      else Bad
  }

  function CheckFragment(payload: Bytes, fu: Fu): (r: Checked)
    requires |payload| != 0
  {
    if |payload| <= 2 || FuReserved(payload[1]) then Bad
    else
      var start, end := FuStart(payload[1]), FuEnd(payload[1]);
      var typ, nri := NalType(payload[1]), Nri(payload[0]);
      if !ValidSingleType(typ) || (start && end) then Bad
      else if start && fu.open then Bad
      else if !start && !fu.open then Orphan
      else if !start && (typ != fu.typ || nri != fu.nri) then Bad
      else
        var unit := if start then Fu(true, typ, nri) else fu;
        Good(|payload| - 2 + (if start then |START_CODE| + 1 else 0),
             if end then unit.(open := false) else unit)
  }

  method ValidateH264Payload(payload: Bytes, fu: Fu) returns (incomplete: bool, projected: nat, failed: bool, next: Fu)
    ensures match CheckPayload(payload, fu)
            case Bad => failed
            case Orphan => !failed && incomplete
            case Good(p, f) => !failed && !incomplete && projected == p && next == f
  {
    incomplete, projected, failed, next := false, 0, false, fu;
    if |payload| == 0 || Forbidden(payload[0]) {
      failed := true;
      return;
    }
    var t := NalType(payload[0]);
    if ValidSingleType(t) {
      failed := fu.open;
      projected := |START_CODE| + |payload|;
    } else if t == STAP_A {
      var valid;
      projected, valid := StapAAnnexBSize(payload);
      failed := fu.open || !valid;
    } else if t == FU_A {
      if |payload| <= 2 || FuReserved(payload[1]) {
        failed := true;
        return;
      }
      var start, end := FuStart(payload[1]), FuEnd(payload[1]);
      var fragmentType, fragmentNri := NalType(payload[1]), Nri(payload[0]);
      if !ValidSingleType(fragmentType) || (start && end) {
        failed := true;
        return;
      }
      if start {
        if fu.open {
          failed := true;
          return;
        }
        next := Fu(true, fragmentType, fragmentNri);
      } else if !fu.open {
        incomplete := true;
        return;
      } else if fragmentType != fu.typ || fragmentNri != fu.nri {
        failed := true;
        return;
      }
      projected := |payload| - 2;
      if start {
        projected := projected + |START_CODE| + 1;
      }
      if end {
        next := next.(open := false);
      }
    } else {
      failed := true;
    }
  }
}
