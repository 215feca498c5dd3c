/** RTP packets and the wrapping 16-bit sequence arithmetic of section 5.1 of RFC 3550. */
module Rtp {
  import opened Octets

  type uint2 = x: int | 0 <= x < 4
  type uint16 = x: int | 0 <= x < 0x1_0000
  type uint32 = x: int | 0 <= x < 0x1_0000_0000
  type Bytes = seq<byte>

  /** `header` stands for every header field the assembler never looks at; it only takes part in
      the comparison of two packets. */
  datatype Packet = Packet(version: byte, sequence: uint16, timestamp: uint32, marker: bool, payload: Bytes, header: nat)

  /** `a - b` on 16-bit unsigned integers: the forward distance from `b` to `a`. */
  function Sub16(a: uint16, b: uint16): uint16 {
    if a >= b then a - b else a - b + 0x1_0000
  }

  function Add16(a: uint16, n: uint16): uint16 {
    if a + n >= 0x1_0000 then a + n - 0x1_0000 else a + n
  }

  function Next16(a: uint16): uint16 {
    if a == 0xffff then 0 else a + 1
  }

  function Prev16(a: uint16): uint16 {
    if a == 0 then 0xffff else a - 1
  }

  const HALF_RANGE: uint16 := 0x8000

  /** A run of `n` consecutive sequence numbers from `first`, wrapping, has `n` members, so a map
      that holds them all has at least `n` entries. */
  lemma {:induction false} RunIsCounted<T>(m: map<uint16, T>, first: uint16, n: nat)
    requires n <= 0x1_0000
    requires forall j: uint16 :: j < n ==> Add16(first, j) in m
    ensures n <= |m|
  {
    var run := RunKeys(first, n);
    forall k | k in run
      ensures k in m
    {
      assert k == Add16(first, Sub16(k, first));
    }
    SubsetIsSmaller(run, m.Keys);
    assert |m.Keys| == |m|;
  }

  ghost function RunKeys(first: uint16, n: nat): (run: set<uint16>)
    requires n <= 0x1_0000
    ensures |run| == n
    ensures forall k :: k in run <==> Sub16(k, first) < n
  {
    if n == 0 then {}
    else
      var rest := RunKeys(first, n - 1);
      var last: uint16 := Add16(first, n - 1);
      assert Sub16(last, first) == n - 1;
      assert forall k: uint16 :: Sub16(k, first) == n - 1 ==> k == last;
      rest + {last}
  }

  lemma {:induction false} SubsetIsSmaller<T>(a: set<T>, b: set<T>)
    requires a <= b
    ensures |a| <= |b|
    ensures |a| == |b| ==> a == b
  {
    var rest := b - a;
    assert b == a + rest && a !! rest;
    assert |b| == |a| + |rest|;
  }
}
