/** The receiving half of a relay connection (relay.js:1098-1181 and
    1629-1711), and the proof that whatever arrives, the sink gets exactly a
    prefix of the peer's stream. */
module ReceivePath {
  import opened Bytes
  import opened SequenceNumbers
  import opened Reassembly
  import opened ReassemblyProofs

  /** `sink` is what was written to the real socket; `base` the position of the
      stream's first byte. Both are history. */
  datatype Receiver = Receiver(
    buf: Buffer,
    backpressured: bool,
    peerFin: bool,
    sink: seq<byte>,
    base: int)

  const MAX_SEGMENT := 0xffff

  function NewReceiver(first: U32): Receiver { Receiver(Buffer(first, map[], 0), false, false, [], first) }

  /** `tcpReceiveWindow`. */
  function ReceiveWindow(r: Receiver, windowSize: int): int {
    if r.backpressured then 0 else Max(0, Min(0xffff, windowSize - r.buf.bytes))
  }

  /** What becomes of a write: taken, taken with the buffer full, or dropped by a
      sink that is no longer writable. */
  datatype SinkAnswer = Took | Filled | Gone

  /** `writeTCPReceiveData`. */
  function Write(r: Receiver, data: seq<byte>, answer: SinkAnswer): Receiver {
    match answer
    case Took => r.(sink := r.sink + data)
    case Filled => r.(sink := r.sink + data, backpressured := true)
    case Gone => r
  }

  datatype Arrival = Stale | InOrder(payload: seq<byte>) | Ahead

  /** How a data segment is taken: nothing new, new bytes to deliver after
      trimming, or out of order. */
  function Classify(vmSeq: U32, seqNo: U32, payload: seq<byte>): Arrival {
    if seqNo == vmSeq then InOrder(payload)
    else if SeqLessThan(seqNo, vmSeq) then
      var alreadyHave := SeqDiff(vmSeq, seqNo);
      if alreadyHave >= |payload| then Stale else InOrder(payload[alreadyHave..])
    else Ahead
  }

  /** New in-order bytes, then everything they made deliverable; the number is
      how many segments the ACK accounts for. */
  ghost function Deliver(r: Receiver, payload: seq<byte>, answer: SinkAnswer): (Receiver, nat) {
    var (buf, chunks) := DrainOutOfOrder(r.buf.(vmSeq := Wrap(r.buf.vmSeq + |payload|)));
    var w := Write(r.(buf := buf), payload + Concat(chunks), answer);
    (w, 1 + |chunks|)
  }

  ghost function ReceiveData(r: Receiver, capacity: int, seqNo: U32, payload: seq<byte>, answer: SinkAnswer)
    : (Receiver, Arrival, nat)
  {
    var arrival := Classify(r.buf.vmSeq, seqNo, payload);
    match arrival
    case Stale => (r, arrival, 0)
    case InOrder(news) => var (d, n) := Deliver(r, news, answer); (d, arrival, n)
    case Ahead =>
      (if r.backpressured then r else r.(buf := BufferOutOfOrder(r.buf, seqNo, payload, capacity)), arrival, 0)
  }

  /** New bytes in order, and no sink to take them. */
  predicate Loses(r: Receiver, seqNo: U32, payload: seq<byte>, answer: SinkAnswer) {
    answer.Gone? && payload != [] && Classify(r.buf.vmSeq, seqNo, payload).InOrder?
  }

  predicate TakesFin(r: Receiver, seqNo: U32, payload: seq<byte>) { Wrap(seqNo + |payload|) == r.buf.vmSeq }

  function ReceiveFin(r: Receiver): Receiver {
    r.(buf := r.buf.(vmSeq := Wrap(r.buf.vmSeq + 1)), peerFin := true)
  }

  /** The data and FIN part of a packet handler. Stale and early data return
      before the FIN is looked at. */
  ghost function ReceiveSegment(r: Receiver, capacity: int, seqNo: U32, payload: seq<byte>, fin: bool, answer: SinkAnswer): Receiver {
    var (d, arrival, n) := if payload == [] then (r, InOrder([]), 0) else ReceiveData(r, capacity, seqNo, payload, answer);
    if !arrival.InOrder? || !fin || !TakesFin(d, seqNo, payload) then d else ReceiveFin(d)
  }

  // ----- what a consistent peer sends -----

  /** The next position expected from the peer: its bytes, then its FIN. */
  function NextPosition(r: Receiver): nat { |r.sink| + (if r.peerFin then 1 else 0) }

  /** The segment carries the peer's bytes at position `p`, and a FIN only at
      the end of its stream. */
  predicate FromPeer(peer: seq<byte>, base: int, p: nat, seqNo: U32, payload: seq<byte>, fin: bool) {
    && seqNo == Wrap(base + p)
    && p + |payload| <= |peer| && payload == peer[p..p + |payload|] && |payload| <= MAX_SEGMENT
    && (fin ==> p + |payload| == |peer|)
  }

  /** Everything buffered is the peer's bytes, seen from stream position `at`. */
  ghost predicate HoldsPeer(b: Buffer, at: int, peer: seq<byte>) {
    forall o, x :: Held(b, o, x) ==> 0 <= at + o < |peer| && x == peer[at + o]
  }

  /** The sink holds exactly a prefix of the peer's stream, everything buffered
      is the peer's bytes ahead of it, and the next expected sequence number is
      that of the next position. */
  ghost predicate Prefix(r: Receiver, peer: seq<byte>, capacity: int) {
    // `true ==` makes the conjunction one fact, which a caller proves at once and not clause by clause.
    true == (
    && r.sink <= peer
    && r.buf.vmSeq == Wrap(r.base + NextPosition(r))
    && Ok(r.buf, 1, capacity)
    && HoldsPeer(r.buf, |r.sink|, peer)
    && (r.peerFin ==> r.sink == peer && r.buf.ranges == map[]))
  }

  // ----- the 32-bit classification -----

  /** The position at which a handler takes a segment's first byte to be. */
  function AssignedPosition(vmSeq: U32, seqNo: U32, next: int): int {
    if seqNo == vmSeq then next
    else if SeqLessThan(seqNo, vmSeq) then next - SeqDiff(vmSeq, seqNo)
    else next + Wrap(seqNo - vmSeq)
  }

  /** A segment within 2^32 of the next position is taken at its true position
      exactly when it is less than 2^31 away. */
  lemma AssignedPositionIsTrue(base: int, next: int, p: int)
    requires -SPACE < p - next < SPACE
    ensures AssignedPosition(Wrap(base + next), Wrap(base + p), next) == p <==> -HALF < p - next < HALF
  {
    DistanceOfPositions(base, p, next);
    DistanceOfPositions(base, next, p);
    if Wrap(base + p) == Wrap(base + next) { WrapInjective(base, p, next); }
  }

  /** One step beyond, the bytes of a segment exactly 2^31 behind (or ahead of)
      the next position are delivered as if they came next. */
  lemma HalfSpaceMisdelivers(r: Receiver, capacity: int, p: int, payload: seq<byte>, answer: SinkAnswer)
    requires r.buf.vmSeq == Wrap(r.base + NextPosition(r)) && payload != []
    requires p - NextPosition(r) == HALF || p - NextPosition(r) == -HALF
    requires !answer.Gone?
    ensures r.sink + payload <= ReceiveData(r, capacity, Wrap(r.base + p), payload, answer).0.sink
  {
    DistanceOfPositions(r.base, p, NextPosition(r));
    DistanceOfPositions(r.base, NextPosition(r), p);
    var seqNo := Wrap(r.base + p);
    assert Classify(r.buf.vmSeq, seqNo, payload) == InOrder(payload) by { assert payload[0..] == payload; }
    var (buf, chunks) := DrainOutOfOrder(r.buf.(vmSeq := Wrap(r.buf.vmSeq + |payload|)));
    ConcatAssociative(r.sink, payload, Concat(chunks));
    hide Wrap, DrainOutOfOrder, Classify, Concat;
  }

  lemma ClassifiesPosition(base: int, next: nat, p: nat, payload: seq<byte>)
    requires -HALF < p - next < HALF && payload != []
    ensures Classify(Wrap(base + next), Wrap(base + p), payload) ==
            (if p > next then Ahead else if p + |payload| <= next then Stale else InOrder(payload[next - p..]))
    ensures p > next ==> Wrap(Wrap(base + p) - Wrap(base + next)) == p - next
  {
    DistanceOfPositions(base, p, next);
    DistanceOfPositions(base, next, p);
    if Wrap(base + p) == Wrap(base + next) { WrapInjective(base, p, next); }
    hide Wrap;
  }

  // ----- one segment -----

  lemma SliceOfPeer(peer: seq<byte>, p: nat, n: nat, payload: seq<byte>)
    requires p <= n <= p + |payload| <= |peer| && payload == peer[p..p + |payload|]
    ensures payload[n - p..] == peer[n..p + |payload|]
  {
  }

  /** Delivering the peer's next bytes delivers the peer's stream, as far as it
      is now held without a gap. */
  lemma DeliverKeeps(r: Receiver, peer: seq<byte>, capacity: int, news: seq<byte>, answer: SinkAnswer)
    requires !answer.Gone?
    requires Prefix(r, peer, capacity) && !r.peerFin && 0 < |news| <= MAX_SEGMENT && 1 <= capacity <= MAX_SEGMENT
    requires r.sink + news <= peer
    ensures var d := Deliver(r, news, answer).0;
      Prefix(d, peer, capacity) && r.sink + news <= d.sink && !d.peerFin && d.base == r.base
  {
    hide Ok, Held, Wrap, DrainOutOfOrder, Shifted, Delivers, HoldsPeer, Prefix, Concat;
    PrefixParts(r, peer, capacity);
    var n := |news|;
    var moved := r.buf.(vmSeq := Wrap(r.buf.vmSeq + n));
    var (buf, chunks) := DrainOutOfOrder(moved);
    WrapAdd(r.base + |r.sink|, n);
    ShiftKeepsOk(r.buf, n, 1, capacity);
    Opened(r.buf, 1, capacity);
    AdvanceShifts(r.buf, n);
    DrainIsMaximal(moved, 1 - n, capacity - n);
    Widen(buf, 1, Max(1, capacity - n), 1, capacity);
    DeliveredPrefix(r, peer, capacity, news, moved, buf, Concat(chunks), answer);
  }

  lemma PrefixParts(r: Receiver, peer: seq<byte>, capacity: int)
    requires Prefix(r, peer, capacity)
    ensures r.sink <= peer && r.buf.vmSeq == Wrap(r.base + NextPosition(r)) && Ok(r.buf, 1, capacity)
    ensures HoldsPeer(r.buf, |r.sink|, peer)
    ensures r.peerFin ==> r.sink == peer && r.buf.ranges == map[]
  {
  }

  lemma DeliveredPrefix(r: Receiver, peer: seq<byte>, capacity: int, news: seq<byte>, moved: Buffer, buf: Buffer,
                        run: seq<byte>, answer: SinkAnswer)
    requires !answer.Gone?
    requires HoldsPeer(r.buf, |r.sink|, peer) && !r.peerFin && r.sink + news <= peer
    requires moved.vmSeq == Wrap(r.base + |r.sink| + |news|)
    requires Shifted(r.buf, moved, |news|) && Delivers(moved, buf, run) && Ok(buf, 1, capacity)
    ensures var d := Write(r.(buf := buf), news + run, answer);
      Prefix(d, peer, capacity) && r.sink + news <= d.sink
  {
    hide Ok, Held, Wrap, Shifted, Delivers, HoldsPeer;
    var n := |news|;
    DeliveredIsPeer(r.buf, moved, buf, |r.sink|, n, run, peer, capacity);
    WrapAdd(r.base + |r.sink| + n, |run|);
    assert r.sink + news + run <= peer;
    ConcatAssociative(r.sink, news, run);
  }

  lemma DeliveredIsPeer(a: Buffer, moved: Buffer, buf: Buffer, at: nat, n: nat, run: seq<byte>, peer: seq<byte>, capacity: int)
    requires at + n <= |peer|
    requires HoldsPeer(a, at, peer)
    requires Shifted(a, moved, n) && Delivers(moved, buf, run) && Ok(buf, 1, capacity)
    ensures at + n + |run| <= |peer| && run == peer[at + n..at + n + |run|]
    ensures buf.vmSeq == Wrap(moved.vmSeq + |run|)
    ensures HoldsPeer(buf, at + n + |run|, peer)
  {
    hide Wrap, Offset;
    forall i | 0 <= i < |run| ensures 0 <= at + n + i < |peer| && run[i] == peer[at + n + i] {
      assert Held(moved, i, run[i]);
      assert Held(moved, (i + n) - n, run[i]) <==> Held(a, i + n, run[i]);
    }
    forall o, x | Held(buf, o, x) ensures 0 <= at + n + |run| + o < |peer| && x == peer[at + n + |run| + o] {
      HeldIsAhead(buf, o, x, capacity);
      assert Held(moved, (o + |run| + n) - n, x) <==> Held(a, o + |run| + n, x);
    }
    assert run != [] ==> Held(moved, |run| - 1, run[|run| - 1]);
  }

  lemma HeldIsAhead(b: Buffer, o: int, x: byte, capacity: int)
    requires Ok(b, 1, capacity) && Held(b, o, x)
    ensures o >= 1
  {
  }

  /** What a data segment at position `p` does to the receiver, by where it lies. */
  ghost predicate Received(r: Receiver, peer: seq<byte>, capacity: int, p: nat, payload: seq<byte>, d: Receiver, arrival: Arrival) {
    && Prefix(d, peer, capacity) && r.sink <= d.sink && d.peerFin == r.peerFin && d.base == r.base
    && (if p > NextPosition(r) then arrival.Ahead? && d.sink == r.sink
        else if p + |payload| <= NextPosition(r) then arrival.Stale? && d == r
        else arrival.InOrder? && p + |payload| <= |d.sink|)
  }

  /** Any data segment of the peer keeps the prefix; a segment that reaches
      beyond it extends the sink through its last byte. */
  lemma ReceiveDataKeeps(r: Receiver, peer: seq<byte>, capacity: int, p: nat, seqNo: U32, payload: seq<byte>, fin: bool, answer: SinkAnswer)
    requires !Loses(r, seqNo, payload, answer)
    requires Prefix(r, peer, capacity) && 1 <= capacity <= MAX_SEGMENT
    requires FromPeer(peer, r.base, p, seqNo, payload, fin) && payload != []
    requires -HALF < p - NextPosition(r) < HALF
    ensures var (d, arrival, n) := ReceiveData(r, capacity, seqNo, payload, answer);
      Received(r, peer, capacity, p, payload, d, arrival)
  {
    hide Received, Prefix, ReceiveData;
    if p > NextPosition(r) {
      AheadIsBuffered(r, peer, capacity, p, seqNo, payload, fin, answer);
    } else if p + |payload| <= NextPosition(r) {
      StaleIsIgnored(r, peer, capacity, p, seqNo, payload, fin, answer);
    } else {
      InOrderIsDelivered(r, peer, capacity, p, seqNo, payload, fin, answer);
    }
  }

  /** Position `n` of the peer's stream is the next one to be acknowledged. */
  predicate Expects(r: Receiver, n: nat) { r.buf.vmSeq == Wrap(r.base + n) }

  /** Without a sink the new bytes are lost and nevertheless acknowledged. */
  lemma LossIsAcknowledged(r: Receiver, peer: seq<byte>, capacity: int, p: nat, seqNo: U32, payload: seq<byte>, fin: bool)
    requires Prefix(r, peer, capacity) && 1 <= capacity <= MAX_SEGMENT
    requires FromPeer(peer, r.base, p, seqNo, payload, fin) && -HALF < p - NextPosition(r) < HALF
    requires Loses(r, seqNo, payload, Gone)
    ensures var d := ReceiveData(r, capacity, seqNo, payload, Gone).0;
      && d.sink == r.sink && |r.sink| < p + |payload|
      && exists n: nat :: p + |payload| <= n <= |peer| && Expects(d, n)
  {
    hide Prefix, FromPeer, Wrap;
    PrefixParts(r, peer, capacity);
    ReceiveDataKeeps(r, peer, capacity, p, seqNo, payload, fin, Took);
    WritesAlike(r, capacity, seqNo, payload);
    LossPosition(r, peer, p, seqNo, payload, fin);
    var t := ReceiveData(r, capacity, seqNo, payload, Took).0;
    PrefixParts(t, peer, capacity);
    hide ReceiveData;
    assert p + |payload| <= |t.sink| <= |peer| && Expects(t.(sink := r.sink), |t.sink|);
  }

  /** The answer of the sink changes nothing but the sink and the backpressure. */
  lemma WritesAlike(r: Receiver, capacity: int, seqNo: U32, payload: seq<byte>)
    ensures var (d, arrival, n) := ReceiveData(r, capacity, seqNo, payload, Took);
      ReceiveData(r, capacity, seqNo, payload, Gone) == (d.(sink := r.sink), arrival, n)
  {
    hide Classify, DrainOutOfOrder, BufferOutOfOrder, Wrap, Concat;
  }

  lemma LossPosition(r: Receiver, peer: seq<byte>, p: nat, seqNo: U32, payload: seq<byte>, fin: bool)
    requires r.buf.vmSeq == Wrap(r.base + NextPosition(r)) && r.sink <= peer && (r.peerFin ==> r.sink == peer)
    requires FromPeer(peer, r.base, p, seqNo, payload, fin) && -HALF < p - NextPosition(r) < HALF
    requires Loses(r, seqNo, payload, Gone)
    ensures p <= NextPosition(r) < p + |payload| && !r.peerFin
  {
    ClassifiesPosition(r.base, NextPosition(r), p, payload);
    hide Wrap;
  }

  lemma AheadIsBuffered(r: Receiver, peer: seq<byte>, capacity: int, p: nat, seqNo: U32, payload: seq<byte>, fin: bool, answer: SinkAnswer)
    requires Prefix(r, peer, capacity) && 1 <= capacity <= MAX_SEGMENT
    requires FromPeer(peer, r.base, p, seqNo, payload, fin) && payload != []
    requires 0 < p - NextPosition(r) < HALF
    ensures var (d, arrival, n) := ReceiveData(r, capacity, seqNo, payload, answer);
      Received(r, peer, capacity, p, payload, d, arrival)
  {
    ClassifiesPosition(r.base, NextPosition(r), p, payload);
    hide Wrap, Deliver, BufferOutOfOrder;
    assert r.peerFin ==> p <= |peer| == |r.sink|;
    AheadKeeps(r, peer, capacity, p, seqNo, payload);
  }

  /** Early data is kept, as far as the capacity allows: every byte of it that was
      missing is held at its place afterwards. Under backpressure it is dropped. */
  lemma EarlyIsHeld(r: Receiver, capacity: int, seqNo: U32, payload: seq<byte>, answer: SinkAnswer, i: nat)
    requires Ok(r.buf, 1, capacity) && ReceiveData(r, capacity, seqNo, payload, answer).1.Ahead?
    requires i < |payload| && Wrap(seqNo - r.buf.vmSeq) + i < capacity
    ensures var d := ReceiveData(r, capacity, seqNo, payload, answer).0;
      var o := Wrap(seqNo - r.buf.vmSeq) + i;
      if r.backpressured then d == r else Occupied(r.buf, o) || Held(d.buf, o, payload[i])
    ensures var d := ReceiveData(r, capacity, seqNo, payload, answer).0;
      forall o, x :: Held(r.buf, o, x) ==> Held(d.buf, o, x)
  {
    hide Ok, Held, Occupied, BufferOutOfOrder;
    BufferRefinesMap(r.buf, seqNo, payload, capacity);
    AheadIsLater(r.buf.vmSeq, seqNo, payload);
    hide Wrap;
  }

  /** Data in order counts once, and once more for each range it made deliverable;
      what the sink answered is noted. */
  lemma SegmentsAreCounted(r: Receiver, capacity: int, seqNo: U32, payload: seq<byte>, answer: SinkAnswer)
    requires ReceiveData(r, capacity, seqNo, payload, answer).1.InOrder?
    ensures var (d, arrival, n) := ReceiveData(r, capacity, seqNo, payload, answer);
      && 1 <= n <= 1 + |r.buf.ranges| - |d.buf.ranges|
      && (!answer.Gone? ==> (n > 1 <==> |d.sink| > |r.sink| + |arrival.payload|))
      && (d.backpressured <==> r.backpressured || answer.Filled?)
  {
    hide Deliver, BufferOutOfOrder;
    DeliveryCounts(r, Classify(r.buf.vmSeq, seqNo, payload).payload, answer);
    hide Classify;
  }

  lemma DeliveryCounts(r: Receiver, news: seq<byte>, answer: SinkAnswer)
    ensures var (d, n) := Deliver(r, news, answer);
      && 1 <= n <= 1 + |r.buf.ranges| - |d.buf.ranges|
      && (!answer.Gone? ==> (n > 1 <==> |d.sink| > |r.sink| + |news|))
      && (d.backpressured <==> r.backpressured || answer.Filled?)
  {
    hide Wrap, Drain, Concat, SortedKeys;
    var moved := r.buf.(vmSeq := Wrap(r.buf.vmSeq + |news|));
    DrainCounts(moved, SortedKeys(moved.ranges.Keys, moved.vmSeq, true));
  }

  lemma {:induction false} DrainCounts(b: Buffer, keys: seq<U32>)
    ensures var (r, chunks) := Drain(b, keys);
      |chunks| <= |b.ranges| - |r.ranges| && (chunks == [] <==> Concat(chunks) == [])
    decreases |keys|
  {
    if keys != [] && keys[0] in b.ranges && Signed(keys[0] - b.vmSeq) <= 0 {
      var k := keys[0];
      var held := b.ranges[k];
      var b' := b.(ranges := b.ranges - {k}, bytes := b.bytes - |held|);
      assert |b'.ranges| == |b.ranges| - 1 by { OneKeyLess(b.ranges, k); }
      var consumed := Wrap(b.vmSeq - k);
      DrainCounts(b', keys[1..]);
      if consumed < |held| { DrainCounts(b'.(vmSeq := Wrap(b.vmSeq + (|held| - consumed))), keys[1..]); }
      hide Wrap;
    }
  }

  lemma OneKeyLess(m: Ranges, k: U32)
    requires k in m
    ensures |m - {k}| == |m| - 1
  {
    assert m == (m - {k})[k := m[k]];
  }

  lemma AheadIsLater(vmSeq: U32, seqNo: U32, payload: seq<byte>)
    requires Classify(vmSeq, seqNo, payload).Ahead?
    ensures Wrap(seqNo - vmSeq) > 0
  {
  }

  lemma StaleIsIgnored(r: Receiver, peer: seq<byte>, capacity: int, p: nat, seqNo: U32, payload: seq<byte>, fin: bool, answer: SinkAnswer)
    requires Prefix(r, peer, capacity) && FromPeer(peer, r.base, p, seqNo, payload, fin) && payload != []
    requires -HALF < p - NextPosition(r) && p + |payload| <= NextPosition(r)
    ensures var (d, arrival, n) := ReceiveData(r, capacity, seqNo, payload, answer);
      Received(r, peer, capacity, p, payload, d, arrival)
  {
    ClassifiesPosition(r.base, NextPosition(r), p, payload);
    hide Wrap, Deliver, BufferOutOfOrder;
  }

  lemma InOrderIsDelivered(r: Receiver, peer: seq<byte>, capacity: int, p: nat, seqNo: U32, payload: seq<byte>, fin: bool, answer: SinkAnswer)
    requires !Loses(r, seqNo, payload, answer)
    requires Prefix(r, peer, capacity) && 1 <= capacity <= MAX_SEGMENT
    requires FromPeer(peer, r.base, p, seqNo, payload, fin) && payload != []
    requires -HALF < p - NextPosition(r) <= 0 < p + |payload| - NextPosition(r)
    ensures var (d, arrival, n) := ReceiveData(r, capacity, seqNo, payload, answer);
      Received(r, peer, capacity, p, payload, d, arrival)
  {
    hide Wrap, Deliver, Prefix, Classify, Received, BufferOutOfOrder;
    PrefixParts(r, peer, capacity);
    ClassifiesPosition(r.base, NextPosition(r), p, payload);
    var news := payload[NextPosition(r) - p..];
    SliceOfPeer(peer, p, NextPosition(r), payload);
    InOrderIsNext(r, peer, capacity, p, payload);
    DeliverKeeps(r, peer, capacity, news, answer);
    var d := Deliver(r, news, answer).0;
    DeliveredThrough(r, peer, capacity, p, payload, news, d);
  }

  lemma DeliveredThrough(r: Receiver, peer: seq<byte>, capacity: int, p: nat, payload: seq<byte>, news: seq<byte>, d: Receiver)
    requires p <= NextPosition(r) < p + |payload| && !r.peerFin && |r.sink| + |news| == p + |payload|
    requires Prefix(d, peer, capacity) && r.sink + news <= d.sink && !d.peerFin && d.base == r.base
    ensures Received(r, peer, capacity, p, payload, d, InOrder(news))
  {
    hide Prefix;
    assert r.sink <= r.sink + news;
  }

  lemma InOrderIsNext(r: Receiver, peer: seq<byte>, capacity: int, p: nat, payload: seq<byte>)
    requires Prefix(r, peer, capacity) && p <= NextPosition(r) < p + |payload| <= |peer|
    requires payload[NextPosition(r) - p..] == peer[NextPosition(r)..p + |payload|]
    ensures !r.peerFin && r.sink + payload[NextPosition(r) - p..] <= peer
    ensures |r.sink| + |payload[NextPosition(r) - p..]| == p + |payload|
  {
    assert r.sink == peer[..|r.sink|];
    hide Ok, Held, Wrap;
  }

  lemma AheadKeeps(r: Receiver, peer: seq<byte>, capacity: int, p: nat, seqNo: U32, payload: seq<byte>)
    requires Prefix(r, peer, capacity) && 1 <= capacity <= MAX_SEGMENT && !r.peerFin
    requires seqNo == Wrap(r.base + p) && p + |payload| <= |peer| && payload == peer[p..p + |payload|]
    requires |r.sink| < p && Wrap(seqNo - r.buf.vmSeq) == p - |r.sink|
    ensures Prefix(r.(buf := BufferOutOfOrder(r.buf, seqNo, payload, capacity)), peer, capacity)
  {
    var start := p - |r.sink|;
    var b' := BufferOutOfOrder(r.buf, seqNo, payload, capacity);
    hide Ok, Held, Wrap, BufferOutOfOrder, Occupied;
    BufferRefinesMap(r.buf, seqNo, payload, capacity);
    BufferKeepsSeq(r.buf, seqNo, payload, capacity);
    forall o, x | Held(b', o, x) ensures 0 <= |r.sink| + o < |peer| && x == peer[|r.sink| + o] {
      if !Held(r.buf, o, x) { assert start <= o < start + |payload| && x == payload[o - start]; }
    }
  }

  lemma BufferKeepsSeq(b: Buffer, seqNo: U32, payload: seq<byte>, capacity: int)
    requires Ok(b, 1, capacity)
    ensures BufferOutOfOrder(b, seqNo, payload, capacity).vmSeq == b.vmSeq
  {
    hide Ok;
    BufferRefinesMap(b, seqNo, payload, capacity);
  }

  /** The FIN is taken exactly when every byte before it was delivered, and once. */
  lemma TakesFinExactly(r: Receiver, peer: seq<byte>, capacity: int, p: nat, seqNo: U32, payload: seq<byte>)
    requires Prefix(r, peer, capacity) && FromPeer(peer, r.base, p, seqNo, payload, true)
    requires |peer| < NextPosition(r) + SPACE
    ensures TakesFin(r, seqNo, payload) <==> !r.peerFin && r.sink == peer
    ensures TakesFin(r, seqNo, payload) ==> Prefix(ReceiveFin(r), peer, capacity)
  {
    WrapAdd(r.base + p, |payload|);
    assert r.buf.vmSeq == Wrap(r.base + NextPosition(r));
    WrapAdd(r.base + NextPosition(r), 1);
    if TakesFin(r, seqNo, payload) {
      WrapInjective(r.base, |peer|, NextPosition(r));
      NothingAhead(r, peer, capacity);
      EmptyOk(r.buf.vmSeq, capacity);
      EmptyOk(Wrap(r.buf.vmSeq + 1), capacity);
      var f := ReceiveFin(r);
      assert f.buf == Buffer(Wrap(r.buf.vmSeq + 1), map[], 0);
      assert forall o, x :: !Held(f.buf, o, x);
    }
    hide Ok, Held, Wrap;
  }

  lemma NothingAhead(r: Receiver, peer: seq<byte>, capacity: int)
    requires Prefix(r, peer, capacity) && r.sink == peer
    ensures r.buf.ranges == map[] && r.buf.bytes == 0
  {
    if r.buf.ranges != map[] {
      var k :| k in r.buf.ranges;
      assert Inside(r.buf, 1, capacity);
      var o := Offset(k, r.buf.vmSeq);
      assert Covers(r.buf, k, o);
      assert Held(r.buf, o, r.buf.ranges[k][0]);
      assert false;
    }
    TotalEmpty();
  }

  lemma EmptyOk(vmSeq: U32, capacity: int)
    requires 1 <= capacity <= QUARTER
    ensures Ok(Buffer(vmSeq, map[], 0), 1, capacity)
  {
    TotalEmpty();
  }

  // ----- whole runs -----

  datatype ReceiverEvent =
    | Segment(p: nat, seqNo: U32, payload: seq<byte>, fin: bool, answer: SinkAnswer)
    | SinkDrained

  /** The peer sends only its own stream, and nothing 2^31 or more away from
      what is expected; the sink is there for what is new. */
  predicate Sends(r: Receiver, peer: seq<byte>, e: ReceiverEvent) {
    e.Segment? ==> FromPeer(peer, r.base, e.p, e.seqNo, e.payload, e.fin) && -HALF < e.p - NextPosition(r) < HALF && !Loses(r, e.seqNo, e.payload, e.answer)
  }

  ghost function ReceiverStep(r: Receiver, capacity: int, e: ReceiverEvent): Receiver {
    match e
    case Segment(_, seqNo, payload, fin, answer) => ReceiveSegment(r, capacity, seqNo, payload, fin, answer)
    case SinkDrained => r.(backpressured := false)
  }

  ghost function ReceiverRun(r: Receiver, capacity: int, events: seq<ReceiverEvent>): Receiver
    decreases |events|
  {
    if events == [] then r else ReceiverRun(ReceiverStep(r, capacity, events[0]), capacity, events[1..])
  }

  ghost predicate Arrivals(r: Receiver, peer: seq<byte>, capacity: int, events: seq<ReceiverEvent>)
    decreases |events|
  {
    events == [] || (Sends(r, peer, events[0]) && Arrivals(ReceiverStep(r, capacity, events[0]), peer, capacity, events[1..]))
  }

  /** What every segment of a consistent peer does: the prefix stays one, never
      shrinks, and the FIN is taken exactly when it closes a complete stream. */
  lemma ReceiveSegmentKeeps(r: Receiver, peer: seq<byte>, capacity: int, p: nat, seqNo: U32, payload: seq<byte>, fin: bool, answer: SinkAnswer)
    requires !Loses(r, seqNo, payload, answer)
    requires Prefix(r, peer, capacity) && 1 <= capacity <= MAX_SEGMENT
    requires FromPeer(peer, r.base, p, seqNo, payload, fin) && -HALF < p - NextPosition(r) < HALF
    ensures var d := ReceiveSegment(r, capacity, seqNo, payload, fin, answer);
      && Prefix(d, peer, capacity) && r.sink <= d.sink && d.base == r.base
      && (r.peerFin ==> d.peerFin) && (d.peerFin && !r.peerFin ==> fin)
      && (p <= NextPosition(r) < p + |payload| ==> p + |payload| <= |d.sink|)
  {
    hide Wrap, Prefix, ReceiveData, ReceiveFin;
    PrefixParts(r, peer, capacity);
    if payload != [] {
      ReceiveDataKeeps(r, peer, capacity, p, seqNo, payload, fin, answer);
      var (d, arrival, n) := ReceiveData(r, capacity, seqNo, payload, answer);
      PrefixParts(d, peer, capacity);
      if arrival.InOrder? && fin { FinKeeps(d, peer, capacity, p, seqNo, payload); }
    } else if fin {
      FinKeeps(r, peer, capacity, p, seqNo, payload);
    }
  }

  lemma FinKeeps(d: Receiver, peer: seq<byte>, capacity: int, p: nat, seqNo: U32, payload: seq<byte>)
    requires Prefix(d, peer, capacity) && FromPeer(peer, d.base, p, seqNo, payload, true)
    requires |peer| < NextPosition(d) + SPACE
    ensures TakesFin(d, seqNo, payload) ==>
      var f := ReceiveFin(d); Prefix(f, peer, capacity) && f.sink == d.sink && f.base == d.base && f.peerFin
  {
    hide Prefix, Wrap;
    TakesFinExactly(d, peer, capacity, p, seqNo, payload);
  }

  lemma DrainedKeeps(r: Receiver, peer: seq<byte>, capacity: int)
    requires Prefix(r, peer, capacity)
    ensures Prefix(r.(backpressured := false), peer, capacity)
  {
    hide Ok, HoldsPeer, Wrap;
  }

  /** For any finite arrival order of a consistent peer's segments, lost,
      duplicated, reordered or re-segmented, across the 32-bit wrap and with
      backpressure coming and going: the sink holds exactly the first bytes of
      the peer's stream, and the next expected sequence number, which every
      outgoing frame acknowledges, is the base plus their number, plus one once
      the FIN was taken. */
  lemma {:induction false} SinkIsPrefix(first: U32, peer: seq<byte>, capacity: int, events: seq<ReceiverEvent>)
    requires 1 <= capacity <= MAX_SEGMENT && Arrivals(NewReceiver(first), peer, capacity, events)
    ensures var r := ReceiverRun(NewReceiver(first), capacity, events);
      && r.sink <= peer
      && r.buf.vmSeq == Wrap(first + |r.sink| + (if r.peerFin then 1 else 0))
      && (r.peerFin ==> r.sink == peer)
      && 0 <= r.buf.bytes < capacity
  {
    NewReceiverPrefix(first, peer, capacity);
    RunKeepsPrefix(NewReceiver(first), peer, capacity, events);
    var r := ReceiverRun(NewReceiver(first), capacity, events);
    hide ReceiverRun, Prefix, Ok, Arrivals;
    PrefixParts(r, peer, capacity);
    TotalBelow(r.buf, 1, capacity);
    Opened(r.buf, 1, capacity);
  }

  lemma NewReceiverPrefix(first: U32, peer: seq<byte>, capacity: int)
    requires 1 <= capacity <= MAX_SEGMENT
    ensures Prefix(NewReceiver(first), peer, capacity)
  {
    EmptyOk(first, capacity);
    hide Ok;
    assert forall o, x :: !Held(Buffer(first, map[], 0), o, x);
    assert Wrap(first + 0) == first;
    hide Held;
  }

  lemma {:induction false} RunKeepsPrefix(r: Receiver, peer: seq<byte>, capacity: int, events: seq<ReceiverEvent>)
    requires Prefix(r, peer, capacity) && 1 <= capacity <= MAX_SEGMENT && Arrivals(r, peer, capacity, events)
    ensures Prefix(ReceiverRun(r, capacity, events), peer, capacity) && ReceiverRun(r, capacity, events).base == r.base
    decreases |events|
  {
    hide Prefix, ReceiveSegment, FromPeer;
    if events != [] {
      match events[0] {
        case Segment(p, seqNo, payload, fin, answer) =>
          ReceiveSegmentKeeps(r, peer, capacity, p, seqNo, payload, fin, answer);
        case SinkDrained => DrainedKeeps(r, peer, capacity);
      }
      RunKeepsPrefix(ReceiverStep(r, capacity, events[0]), peer, capacity, events[1..]);
    }
  }
}
