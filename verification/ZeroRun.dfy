/** The start-code detector the streaming path runs over FU-A fragments without reassembling them. */
module ZeroRun {
  import opened Octets
  import opened Rtp
  import opened NalPayload

  /** `run` is the number of zero bytes just seen, saturating at two. */
  datatype Detector = Detector(run: nat, hit: bool)

  const IDLE := Detector(0, false)

  function Feed(d: Detector, value: byte): Detector {
    if value == 0 then d.(run := if d.run < 2 then d.run + 1 else d.run)
    else Detector(0, d.hit || (value == 1 && d.run == 2))
  }

  function FeedAll(d: Detector, bytes: Bytes): Detector
    decreases |bytes|
  {
    if bytes == [] then d else FeedAll(Feed(d, bytes[0]), bytes[1..])
  }

  /** The detector fed fragment after fragment. */
  function FeedFragments(d: Detector, fragments: seq<Bytes>): Detector
    decreases |fragments|
  {
    if fragments == [] then d else FeedFragments(FeedAll(d, fragments[0]), fragments[1..])
  }

  function Concat(fragments: seq<Bytes>): Bytes {
    if fragments == [] then [] else fragments[0] + Concat(fragments[1..])
  }

  method ScanFragment(run: nat, fragment: Bytes) returns (next: nat, hit: bool)
    ensures Detector(next, hit) == FeedAll(Detector(run, false), fragment)
  {
    next, hit := run, false;
    var i := 0;
    while i < |fragment|
      invariant 0 <= i <= |fragment|
      invariant FeedAll(Detector(run, false), fragment) == FeedAll(Detector(next, hit), fragment[i..])
    {
      var value := fragment[i];
      assert fragment[i..][1..] == fragment[i + 1..];
      if value == 0 {
        if next < 2 {
          next := next + 1;
        }
      } else {
        if value == 1 && next == 2 {
          hit := true;
        }
        next := 0;
      }
      i := i + 1;
    }
  }

  lemma {:induction false} FeedAllConcat(d: Detector, a: Bytes, b: Bytes)
    ensures FeedAll(d, a + b) == FeedAll(FeedAll(d, a), b)
    decreases |a|
  {
    if a == [] {
      assert a + b == b;
    } else {
      assert (a + b)[1..] == a[1..] + b;
      FeedAllConcat(Feed(d, a[0]), a[1..], b);
    }
  }

  lemma {:induction false} FeedOneMore(d: Detector, a: Bytes, value: byte)
    ensures FeedAll(d, a + [value]) == Feed(FeedAll(d, a), value)
  {
    FeedAllConcat(d, a, [value]);
    assert [value][1..] == [];
  }

  /** The detector after `seen` remembers exactly how many zero bytes `seen` ends with (up to two)
      and whether a start code occurred in it. */
  lemma {:induction false} DetectorMeaning(seen: Bytes)
    ensures var d := FeedAll(IDLE, seen);
            (&& d.run <= 2
             && (d.run >= 1 <==> |seen| >= 1 && seen[|seen| - 1] == 0)
             && (d.run == 2 <==> |seen| >= 2 && seen[|seen| - 1] == 0 && seen[|seen| - 2] == 0)
             && (d.hit <==> HasStartCode(seen)))
    decreases |seen|
  {
    if seen != [] {
      var n := |seen| - 1;
      var before, value := seen[..n], seen[n];
      assert seen == before + [value];
      DetectorMeaning(before);
      FeedOneMore(IDLE, before, value);
      forall i
        ensures StartCodeAt(before, i) <==> StartCodeAt(seen, i) && i < |seen| - 3
      {
      }
      if HasStartCode(before) {
        var i :| 0 <= i < |before| && StartCodeAt(before, i);
        assert StartCodeAt(seen, i);
      }
      if n >= 2 && StartCodeAt(seen, n - 2) {
        assert HasStartCode(seen);
      }
    }
  }

  lemma {:induction false} FeedFragmentsIsFeedAll(d: Detector, fragments: seq<Bytes>)
    ensures FeedFragments(d, fragments) == FeedAll(d, Concat(fragments))
    decreases |fragments|
  {
    if fragments != [] {
      FeedAllConcat(d, fragments[0], Concat(fragments[1..]));
      FeedFragmentsIsFeedAll(FeedAll(d, fragments[0]), fragments[1..]);
    }
  }

  /** However a NAL unit is cut into fragments, the detector fires exactly when the reassembled
      unit would be rejected for an embedded start code. */
  lemma DetectorAgreesWithValidation(header: byte, fragments: seq<Bytes>)
    ensures FeedFragments(IDLE, fragments).hit <==> !ValidNalu([header] + Concat(fragments))
  {
    FeedFragmentsIsFeedAll(IDLE, fragments);
    DetectorMeaning(Concat(fragments));
    assert ([header] + Concat(fragments))[1..] == Concat(fragments);
  }
}
