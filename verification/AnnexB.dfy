/** The Annex B byte stream of section B.1 of ITU-T H.264 can be taken apart again. */
module AnnexB {
  import opened Rtp
  import opened NalPayload

  /** A four-byte start code begins at `i`. */
  predicate Boundary(s: Bytes, i: int) {
    0 <= i <= |s| - 4 && s[i] == 0 && s[i + 1] == 0 && s[i + 2] == 0 && s[i + 3] == 1
  }

  /** The first boundary at or after `i`, or the end of the stream. */
  function NextBoundary(s: Bytes, i: nat): (b: nat)
    requires i <= |s|
    ensures i <= b <= |s|
    ensures b == |s| || Boundary(s, b)
    ensures forall j | i <= j < b :: !Boundary(s, j)
    decreases |s| - i
  {
    if i == |s| || Boundary(s, i) then i else NextBoundary(s, i + 1)
  }

  /** The byte runs between the start codes, scanning left to right from `i`. */
  function SplitFrom(s: Bytes, i: nat): seq<Bytes>
    requires i <= |s|
    decreases |s| - i
  {
    if i == |s| then []
    else if Boundary(s, i) then
      var end := NextBoundary(s, i + 4);
      [s[i + 4..end]] + SplitFrom(s, end)
    else SplitFrom(s, i + 1)
  }

  function Split(s: Bytes): seq<Bytes> {
    SplitFrom(s, 0)
  }

  predicate Splittable(nalu: Bytes) {
    ValidNalu(nalu) && nalu[0] != 0
  }

  /** No start code begins inside a NAL unit that is followed by the end of the stream or by
      another start code, not even across its trailing zero bytes. */
  lemma NoBoundaryInside(s: Bytes, i: nat, nalu: Bytes, j: nat)
    requires Splittable(nalu)
    requires i + 4 + |nalu| <= |s| && Boundary(s, i) && s[i + 4..i + 4 + |nalu|] == nalu
    requires i + 4 + |nalu| == |s| || Boundary(s, i + 4 + |nalu|)
    requires i + 4 <= j < i + 4 + |nalu|
    ensures !Boundary(s, j)
  {
    var end := i + 4 + |nalu|;
    assert forall k | 0 <= k < |nalu| :: s[i + 4 + k] == nalu[k];
    if Boundary(s, j) {
      if j + 4 <= end {
        var k := j - i - 4;
        assert nalu[k] == 0 && nalu[k + 1] == 0 && nalu[k + 2] == 0 && nalu[k + 3] == 1;
        assert StartCodeAt(nalu[1..], k);
      }
    }
  }

  /** Scanning from a start code yields the NAL unit behind it and goes on where that ends. */
  lemma SplitOne(s: Bytes, i: nat, nalu: Bytes)
    requires Splittable(nalu)
    requires i + 4 + |nalu| <= |s| && Boundary(s, i) && s[i + 4..i + 4 + |nalu|] == nalu
    requires i + 4 + |nalu| == |s| || Boundary(s, i + 4 + |nalu|)
    ensures SplitFrom(s, i) == [nalu] + SplitFrom(s, i + 4 + |nalu|)
  {
    hide Boundary, Splittable;
    NextIsEnd(s, i, nalu);
    hide NextBoundary;
  }

  lemma NextIsEnd(s: Bytes, i: nat, nalu: Bytes)
    requires Splittable(nalu)
    requires i + 4 + |nalu| <= |s| && Boundary(s, i) && s[i + 4..i + 4 + |nalu|] == nalu
    requires i + 4 + |nalu| == |s| || Boundary(s, i + 4 + |nalu|)
    ensures NextBoundary(s, i + 4) == i + 4 + |nalu|
  {
    forall j | i + 4 <= j < i + 4 + |nalu|
      ensures !Boundary(s, j)
    {
      NoBoundaryInside(s, i, nalu, j);
    }
    hide Boundary, Splittable;
  }

  lemma Regroup(prefix: Bytes, start: Bytes, nalu: Bytes, rest: Bytes)
    ensures prefix + (start + nalu + rest) == (prefix + (start + nalu)) + rest
    ensures (prefix + (start + nalu + rest))[|prefix| + |start|..|prefix| + |start| + |nalu|] == nalu
  {
  }

  lemma {:induction false} SplitFrame(prefix: Bytes, nalus: seq<Bytes>)
    requires forall n | n in nalus :: Splittable(n)
    ensures SplitFrom(prefix + Frame(nalus), |prefix|) == nalus
    decreases |nalus|
  {
    if nalus == [] {
      assert prefix + Frame(nalus) == prefix;
    } else {
      assert nalus == [nalus[0]] + nalus[1..];
      SplitFrame(prefix + (START_CODE + nalus[0]), nalus[1..]);
      SplitCons(prefix, nalus[0], nalus[1..]);
    }
  }

  lemma SplitCons(prefix: Bytes, n: Bytes, rest: seq<Bytes>)
    requires Splittable(n)
    ensures |START_CODE| == 4
    ensures SplitFrom(prefix + Frame([n] + rest), |prefix|)
         == [n] + SplitFrom(prefix + (START_CODE + n) + Frame(rest), |prefix + (START_CODE + n)|)
  {
    var longer := prefix + (START_CODE + n);
    assert Frame([n] + rest) == START_CODE + n + Frame(rest);
    hide Splittable, Frame, FramedSize, SplitFrom;
    Regroup(prefix, START_CODE, n, Frame(rest));
    FrameStarts(prefix, [n] + rest);
    FrameStarts(longer, rest);
    assert prefix + Frame([n] + rest) == longer + Frame(rest);
    SplitOne(longer + Frame(rest), |prefix|, n);
  }

  lemma FrameStarts(prefix: Bytes, nalus: seq<Bytes>)
    ensures nalus == [] ==> |prefix + Frame(nalus)| == |prefix|
    ensures nalus != [] ==> Boundary(prefix + Frame(nalus), |prefix|)
  {
    if nalus != [] {
      var s := prefix + Frame(nalus);
      assert forall k | 0 <= k < 4 :: s[|prefix| + k] == START_CODE[k];
    }
  }

  /** Framing loses nothing: splitting at the start codes gives the NAL units back. */
  lemma AnnexBRoundTrip(nalus: seq<Bytes>)
    requires forall n | n in nalus :: Splittable(n)
    ensures Split(Frame(nalus)) == nalus
  {
    SplitFrame([], nalus);
    assert [] + Frame(nalus) == Frame(nalus);
  }

  /** A NAL unit of an admitted type never starts with a zero byte. */
  lemma WellFormedIsSplittable(nalu: Bytes)
    requires WellFormedNalu(nalu)
    ensures Splittable(nalu)
  {
  }
}
