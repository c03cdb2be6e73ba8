/** 32-bit TCP sequence arithmetic (relay.js:1714-1727, tcp_retransmission.js:3-7).
    Absolute stream positions are naturals; a position `p` of a stream whose
    initial sequence number is `iss` travels as `Wrap(iss + p)`. */
module SequenceNumbers {

  const SPACE: int := 0x1_0000_0000
  const HALF: int := 0x8000_0000

  type U32 = x: int | 0 <= x < 0x1_0000_0000

  /** JavaScript's `x >>> 0` on an integer. */
  function Wrap(x: int): U32 { x % SPACE }

  /** JavaScript's `x | 0` on an integer. */
  function Signed(x: int): int {
    var u := Wrap(x);
    if u >= HALF then u - SPACE else u
  }

  function SequenceDistance(later: U32, earlier: U32): U32 { Wrap(later - earlier) }

  predicate SeqLessThan(a: U32, b: U32) { Wrap(a - b) > 0x7FFF_FFFF }

  function SeqDiff(a: U32, b: U32): U32 {
    var diff := Wrap(a - b);
    if diff > 0x7FFF_FFFF then 0 else diff
  }

  lemma AlreadyWrapped(x: U32)
    ensures Wrap(x) == x
  {
  }

  lemma Shift(x: int, k: int)
    ensures Wrap(x + k * SPACE) == Wrap(x)
  {
  }

  lemma WrapAdd(x: int, y: int)
    ensures Wrap(Wrap(x) + y) == Wrap(x + y)
    ensures Wrap(y + Wrap(x)) == Wrap(x + y)
    ensures Wrap(Wrap(x) - y) == Wrap(x - y)
    ensures Wrap(y - Wrap(x)) == Wrap(y - x)
  {
    var k := x / SPACE;
    assert x == Wrap(x) + k * SPACE;
    Shift(Wrap(x) + y, k);
    Shift(Wrap(x) - y, k);
    Shift(y - Wrap(x), -k);
    hide Wrap;
  }

  lemma DistanceOfPositions(iss: int, p: int, q: int)
    ensures SequenceDistance(Wrap(iss + p), Wrap(iss + q)) == Wrap(p - q)
    ensures 0 <= p - q < SPACE ==> SequenceDistance(Wrap(iss + p), Wrap(iss + q)) == p - q
  {
  }

  /** The comparison of relay.js answers `p < q` exactly when `p - q` fits in a
      signed 32-bit integer; one step beyond, at `p == q + 2^31`, it is wrong. */
  lemma SeqLessThanIsLess(iss: int, p: int, q: int)
    requires -SPACE < p - q < SPACE
    ensures (SeqLessThan(Wrap(iss + p), Wrap(iss + q)) <==> p < q) <==> -HALF <= p - q < HALF
  {
    DistanceOfPositions(iss, p, q);
  }

  /** `seqDiff` recovers the true distance exactly below 2^31. */
  lemma SeqDiffIsDistance(iss: int, p: int, q: int)
    requires 0 <= p - q < SPACE
    ensures SeqDiff(Wrap(iss + p), Wrap(iss + q)) == p - q <==> p - q < HALF
  {
    DistanceOfPositions(iss, p, q);
  }

  /** Two positions less than 2^32 apart with equal sequence numbers are equal. */
  lemma WrapInjective(iss: int, p: int, q: int)
    requires Wrap(iss + p) == Wrap(iss + q)
    requires -SPACE < p - q < SPACE
    ensures p == q
  {
    DistanceOfPositions(iss, p, q);
    DistanceOfPositions(iss, q, p);
  }

  lemma DistanceNames(ack: U32, una: U32)
    ensures Wrap(una + SequenceDistance(ack, una)) == ack
  {
  }

  lemma DistanceAhead(una: U32, n: int)
    requires 0 <= n < SPACE
    ensures SequenceDistance(Wrap(una + n), una) == n
  {
    DistanceOfPositions(una, n, 0);
  }
}
