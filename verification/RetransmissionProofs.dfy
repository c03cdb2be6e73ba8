/** What the retransmission queue keeps: a cumulative acknowledgement is a drop
    of sequence items, the segments stay contiguous, and exactly one timer is
    live whenever one is needed. */
module RetransmissionProofs {
  import opened Bytes
  import opened SequenceNumbers
  import opened Retransmission

  // ----- segments as sequence items -----

  function PayloadItems(payload: seq<byte>): (r: seq<Item>)
    ensures |r| == |payload|
  {
    seq(|payload|, i requires 0 <= i < |payload| => Data(payload[i]))
  }

  function Items(payload: seq<byte>, syn: bool, fin: bool): seq<Item> {
    (if syn then [Syn] else []) + PayloadItems(payload) + (if fin then [Fin] else [])
  }

  function SegmentItems(s: Segment): (r: seq<Item>)
    ensures |r| == SequenceLength(s.payload, s.flags)
  {
    Items(s.payload, s.flags.syn, s.flags.fin)
  }

  function Flatten(segments: seq<Segment>): seq<Item> {
    if segments == [] then [] else SegmentItems(segments[0]) + Flatten(segments[1..])
  }

  /** The payload bytes among a run of items. */
  function BytesOf(items: seq<Item>): seq<byte> {
    if items == [] then []
    else (if items[0].Data? then [items[0].b] else []) + BytesOf(items[1..])
  }

  lemma {:induction false} BytesOfAppend(a: seq<Item>, b: seq<Item>)
    ensures BytesOf(a + b) == BytesOf(a) + BytesOf(b)
  {
    if a == [] {
      assert a + b == b;
    } else {
      BytesOfAppend(a[1..], b);
      assert (a + b)[1..] == a[1..] + b;
      ConcatAssociative(if a[0].Data? then [a[0].b] else [], BytesOf(a[1..]), BytesOf(b));
    }
  }

  lemma {:induction false} BytesOfPayload(payload: seq<byte>)
    ensures BytesOf(PayloadItems(payload)) == payload
  {
    if payload != [] {
      BytesOfPayload(payload[1..]);
      assert PayloadItems(payload)[1..] == PayloadItems(payload[1..]);
    }
  }

  lemma BytesOfOne(x: Item)
    ensures BytesOf([x]) == if x.Data? then [x.b] else []
  {
    assert BytesOf([x][1..]) == [];
  }

  lemma BytesOfItems(payload: seq<byte>, syn: bool, fin: bool)
    ensures BytesOf(Items(payload, syn, fin)) == payload
  {
    BytesOfPayload(payload);
    BytesOfOne(Syn);
    BytesOfOne(Fin);
    var head := if syn then [Syn] else [];
    BytesOfAppend(head, PayloadItems(payload));
    BytesOfAppend(head + PayloadItems(payload), if fin then [Fin] else []);
  }

  lemma {:induction false} FlattenAppend(a: seq<Segment>, b: seq<Segment>)
    ensures Flatten(a + b) == Flatten(a) + Flatten(b)
    ensures TotalPayload(a + b) == TotalPayload(a) + TotalPayload(b)
  {
    hide SegmentItems;
    if a == [] {
      assert a + b == b;
    } else {
      FlattenAppend(a[1..], b);
      assert (a + b)[1..] == a[1..] + b;
      ConcatAssociative(SegmentItems(a[0]), Flatten(a[1..]), Flatten(b));
    }
  }

  lemma FlattenOne(s: Segment)
    ensures Flatten([s]) == SegmentItems(s) && TotalPayload([s]) == |s.payload|
  {
    assert Flatten([s][1..]) == [] && TotalPayload([s][1..]) == 0;
  }

  lemma {:induction false} FlattenLength(segments: seq<Segment>)
    requires AllWellFormed(segments)
    ensures |Flatten(segments)| == TotalLength(segments)
    ensures |BytesOf(Flatten(segments))| == TotalPayload(segments)
    ensures segments != [] ==> |Flatten(segments)| > 0
  {
    if segments != [] {
      var s := segments[0];
      FlattenLength(segments[1..]);
      BytesOfAppend(SegmentItems(s), Flatten(segments[1..]));
      BytesOfItems(s.payload, s.flags.syn, s.flags.fin);
    }
  }

  // ----- contiguity -----

  /** The segments occupy `una`, `una+1`, ... without gap or overlap, ending at `nxt`. */
  predicate Contiguous(segments: seq<Segment>, una: int, nxt: U32) {
    if segments == [] then nxt == Wrap(una)
    else segments[0].seqNo == Wrap(una) && Contiguous(segments[1..], una + segments[0].sequenceLength, nxt)
  }

  lemma {:induction false} ContiguousEnd(segments: seq<Segment>, una: int, nxt: U32)
    requires Contiguous(segments, una, nxt)
    ensures nxt == Wrap(una + TotalLength(segments))
  {
    if segments != [] {
      ContiguousEnd(segments[1..], una + segments[0].sequenceLength, nxt);
    }
  }

  lemma {:induction false} ContiguousAppend(segments: seq<Segment>, una: int, nxt: U32, s: Segment)
    requires Contiguous(segments, una, nxt)
    requires s.seqNo == nxt
    ensures Contiguous(segments + [s], una, Wrap(nxt + s.sequenceLength))
  {
    if segments == [] {
      assert [s][1..] == [];
      WrapAdd(una, s.sequenceLength);
    } else {
      ContiguousAppend(segments[1..], una + segments[0].sequenceLength, nxt, s);
      assert (segments + [s])[1..] == segments[1..] + [s];
    }
  }

  lemma {:induction false} ContiguousRebase(segments: seq<Segment>, una: int, una': int, nxt: U32)
    requires Contiguous(segments, una, nxt)
    requires Wrap(una) == Wrap(una')
    ensures Contiguous(segments, una', nxt)
  {
    if segments != [] {
      var n := segments[0].sequenceLength;
      WrapAdd(una, n);
      WrapAdd(una', n);
      ContiguousRebase(segments[1..], una + n, una' + n, nxt);
    }
  }

  // ----- a cumulative acknowledgement is a drop -----

  lemma CutPayload(payload: seq<byte>, syn: bool, fin: bool, n: nat)
    requires n <= |payload|
    ensures Items(payload, syn, fin) == Items(payload[..n], syn, false) + Items(payload[n..], false, fin)
    ensures |Items(payload[..n], syn, false)| == n + if syn then 1 else 0
  {
    assert PayloadItems(payload) == PayloadItems(payload[..n]) + PayloadItems(payload[n..]);
  }

  lemma ConsumePrefixDrops(s: Segment, count: nat)
    requires WellFormed(s) && 0 < count < s.sequenceLength
    ensures WellFormed(ConsumePrefix(s, count))
    ensures SegmentItems(ConsumePrefix(s, count)) == SegmentItems(s)[count..]
    ensures BytesOf(SegmentItems(s)[..count]) == s.payload[..ConsumedBytes(s, count)]
  {
    var n := ConsumedBytes(s, count);
    assert n == count - (if s.flags.syn then 1 else 0) <= |s.payload|;
    CutPayload(s.payload, s.flags.syn, s.flags.fin, n);
    BytesOfItems(s.payload[..n], s.flags.syn, false);
    hide BytesOf, Items;
    assert |Items(s.payload[..n], s.flags.syn, false)| == count;
  }

  /** Dropping `count` items from the segments is dropping them from the flat
      sequence, and the reported bytes are the payload bytes among them. */
  lemma {:induction false} DropItemsDrops(segments: seq<Segment>, count: nat)
    requires AllWellFormed(segments) && count <= TotalLength(segments)
    ensures |Flatten(segments)| == TotalLength(segments)
    ensures Flatten(DropItems(segments, count)) == Flatten(segments)[count..]
    ensures DroppedBytes(segments, count) == |BytesOf(Flatten(segments)[..count])|
  {
    FlattenLength(segments);
    if count == 0 || segments == [] {
    } else {
      var s, rest := segments[0], segments[1..];
      var items := SegmentItems(s);
      if count >= s.sequenceLength {
        DropItemsDrops(rest, count - s.sequenceLength);
        CutInSecond(items, Flatten(rest), count);
        BytesOfAppend(items, Flatten(rest)[..count - s.sequenceLength]);
        BytesOfItems(s.payload, s.flags.syn, s.flags.fin);
      } else {
        ConsumePrefixDrops(s, count);
        CutInFirst(items, Flatten(rest), count);
        FlattenCons(ConsumePrefix(s, count), rest);
      }
    }
  }

  lemma FlattenCons(s: Segment, rest: seq<Segment>)
    ensures Flatten([s] + rest) == SegmentItems(s) + Flatten(rest)
    ensures TotalPayload([s] + rest) == |s.payload| + TotalPayload(rest)
  {
    assert ([s] + rest)[1..] == rest;
  }

  /** A cumulative acknowledgement keeps the segments well formed and contiguous
      and lowers the payload in flight by the bytes it reports. */
  lemma {:induction false} DropItemsKeeps(segments: seq<Segment>, count: nat, una: int, nxt: U32)
    requires AllWellFormed(segments) && Contiguous(segments, una, nxt)
    requires count <= TotalLength(segments)
    ensures AllWellFormed(DropItems(segments, count))
    ensures TotalPayload(DropItems(segments, count)) == TotalPayload(segments) - DroppedBytes(segments, count)
    ensures Contiguous(DropItems(segments, count), una + count, nxt)
  {
    if count == 0 || segments == [] {
    } else {
      var s, rest := segments[0], segments[1..];
      if count >= s.sequenceLength {
        DropItemsKeeps(rest, count - s.sequenceLength, una + s.sequenceLength, nxt);
      } else {
        var s' := ConsumePrefix(s, count);
        FlattenCons(s', rest);
        assert ([s'] + rest)[1..] == rest;
        WrapAdd(una, count);
        assert una + count + s'.sequenceLength == una + s.sequenceLength;
      }
    }
  }

  // ----- the queue invariant -----

  /** One live timer when one is needed, none otherwise; its id is the current
      generation and its delay the current RTO. */
  predicate TimerMachine(q: Queue) {
    // `true ==` makes the conjunction one fact, which a caller proves at once and not clause by clause.
    true == (
    && (q.timer.Some? <==> NeedsTimer(q))
    && (q.timer.Some? ==> q.timer.value == q.timerGeneration)
    && q.live == (if q.timer.Some? then map[q.timer.value := q.currentRtoMs] else map[]))
  }

  function Exhaustions(calls: seq<Callback>): nat {
    if calls == [] then 0
    else Exhaustions(calls[..|calls| - 1]) + (if calls[|calls| - 1].OnExhausted? then 1 else 0)
  }

  lemma ExhaustionsAppend(calls: seq<Callback>, c: Callback)
    ensures Exhaustions(calls + [c]) == Exhaustions(calls) + (if c.OnExhausted? then 1 else 0)
  {
    assert (calls + [c])[..|calls|] == calls;
  }

  predicate Books(q: Queue) {
    true == (
    && q.cfg.Valid()
    && q.cfg.initialRtoMs <= q.currentRtoMs <= q.cfg.maxRtoMs
    && 0 <= q.timeoutRetransmissions <= q.cfg.maxRetransmissions
    && AllWellFormed(q.segments)
    && q.payloadBytesInFlight == TotalPayload(q.segments)
    && (if q.closed then q.segments == [] && !q.persist
        else Contiguous(q.segments, q.sndUna, q.sndNxt))
    && Exhaustions(q.calls) == (if q.exhausted then 1 else 0))
  }

  predicate Valid(q: Queue) { true == (Books(q) && TimerMachine(q)) }

  lemma NewQueueValid(cfg: Config, initialSequence: int)
    requires cfg.Valid()
    ensures Valid(NewQueue(cfg, initialSequence))
    ensures Flatten(NewQueue(cfg, initialSequence).segments) == []
  {
  }

  /** A state between a timer's disappearance and its replacement. */
  predicate Unarmed(q: Queue) {
    true == (
    Books(q) && q.timer.None? && q.live == map[])
  }

  lemma ArmsTimer(q: Queue)
    requires Unarmed(q)
    ensures Valid(ArmTimer(q))
  {
  }

  lemma ClearsTimer(q: Queue)
    requires Books(q)
    requires q.timer.Some? ==> q.live == map[q.timer.value := q.currentRtoMs]
    requires q.timer.None? ==> q.live == map[]
    ensures Unarmed(ClearTimer(q))
  {
    if q.timer.Some? {
      assert q.live - {q.timer.value} == map[];
    }
  }

  /** Appending a segment at the next sequence number appends its items. */
  lemma AppendKeepsBooks(q: Queue, s: Segment)
    requires Books(q) && !q.closed && WellFormed(s) && s.seqNo == q.sndNxt
    ensures var q' := q.(segments := q.segments + [s], payloadBytesInFlight := q.payloadBytesInFlight + |s.payload|,
                         sndNxt := Wrap(q.sndNxt + s.sequenceLength));
      Books(q') && Flatten(q'.segments) == Flatten(q.segments) + SegmentItems(s)
  {
    hide Flatten, TotalPayload, Contiguous, Exhaustions, Wrap;
    FlattenAppend(q.segments, [s]);
    FlattenOne(s);
    ContiguousAppend(q.segments, q.sndUna, q.sndNxt, s);
    hide SegmentItems;
  }

  lemma TrackKeepsValid(q: Queue, seqNo: int, payload: seq<byte>, flags: Flags)
    requires Valid(q) || (Unarmed(q) && !q.closed && !q.exhausted && (q.persist || q.segments == []))
    ensures var (q', status) := Track(q, seqNo, payload, flags);
      && (status.Tracked? ==>
            && Flatten(q'.segments) == Flatten(q.segments) + Items(payload, flags.syn, flags.fin)
            && q'.sndNxt == Wrap(q.sndNxt + SequenceLength(payload, flags))
            && q'.segments != [] && Books(q'))
      && (!status.Tracked? ==> q' == q)
      && (Valid(q) ==> Valid(q'))
      && (q'.timer.Some? ==> q'.live == map[q'.timer.value := q'.currentRtoMs])
      && (q'.timer.None? ==> q'.live == map[])
    ensures Track(q, seqNo, payload, flags).1.TrackThrewNonContiguous? <==>
              !q.closed && !q.exhausted && SequenceLength(payload, flags) > 0 && Wrap(seqNo) != q.sndNxt
  {
    var length := SequenceLength(payload, flags);
    if !q.closed && !q.exhausted && length > 0 && Wrap(seqNo) == q.sndNxt {
      var s := Segment(Wrap(seqNo), payload, flags, length, 0);
      assert SegmentItems(s) == Items(payload, flags.syn, flags.fin);
      AppendKeepsBooks(q, s);
      hide Books, Flatten, SegmentItems, Items, Wrap;
      assert q.segments + [s] != [];
    }
  }

  /** What an accepted acknowledgement does to the queue: it removes exactly the
      first `n` items and reports exactly the payload bytes among them. */
  ghost predicate AckDropped(q: Queue, q': Queue, bytes: int, n: int) {
    true == (
    && 0 < n <= |Flatten(q.segments)|
    && Flatten(q'.segments) == Flatten(q.segments)[n..]
    && bytes == |BytesOf(Flatten(q.segments)[..n])|
    && q'.payloadBytesInFlight == q.payloadBytesInFlight - bytes
    && q'.sndUna == Wrap(q.sndUna + n) && q'.sndNxt == q.sndNxt
    && q'.timeoutRetransmissions == 0 && q'.persist == q.persist && q'.cfg == q.cfg
    && q'.closed == q.closed && q'.exhausted == q.exhausted && q'.calls == q.calls)
  }

  /** The sequence distance of an accepted acknowledgement counts items. */
  lemma AcceptedDistance(q: Queue, ack: U32)
    requires Valid(q) && ClassifyAck(q, ack).Advanced?
    ensures var n := SequenceDistance(ack, q.sndUna); 0 < n <= TotalLength(q.segments) && Wrap(q.sndUna + n) == ack
    ensures !q.closed && AllWellFormed(q.segments)
  {
    hide SequenceDistance, Wrap, Contiguous, AllWellFormed, TimerMachine;
    OutstandingIsWrapped(q);
    DistanceNames(ack, q.sndUna);
  }

  lemma DropAcknowledgedBooks(q: Queue, ack: U32)
    requires Valid(q) && ClassifyAck(q, ack).Advanced?
    ensures Books(DropAcknowledged(q, ack))
  {
    hide Flatten, TotalPayload, TotalLength, DropItems, DroppedBytes, SequenceDistance, Exhaustions, Wrap, Contiguous, AllWellFormed,
         TimerMachine, ClassifyAck, Config.Valid;
    var n := SequenceDistance(ack, q.sndUna);
    AcceptedDistance(q, ack);
    DropItemsKeeps(q.segments, n, q.sndUna, q.sndNxt);
    ContiguousRebase(DropItems(q.segments, n), q.sndUna + n, ack, q.sndNxt) by { AlreadyWrapped(ack); }
  }

  lemma DropAcknowledgedDrops(q: Queue, ack: U32)
    requires Valid(q) && ClassifyAck(q, ack).Advanced?
    ensures AckDropped(q, DropAcknowledged(q, ack), DroppedBytes(q.segments, SequenceDistance(ack, q.sndUna)),
                       SequenceDistance(ack, q.sndUna))
  {
    hide Flatten, TotalPayload, TotalLength, DropItems, DroppedBytes, BytesOf, SequenceDistance, Wrap, Contiguous, AllWellFormed,
         ClassifyAck, TimerMachine;
    var n := SequenceDistance(ack, q.sndUna);
    AcceptedDistance(q, ack);
    DropItemsDrops(q.segments, n);
  }

  /** Restarting the timer touches nothing but the timer. */
  lemma RestartsTimer(q: Queue)
    requires Books(q)
    requires q.timer.Some? ==> q.live.Keys == {q.timer.value}
    requires q.timer.None? ==> q.live == map[]
    ensures Valid(ArmTimer(ClearTimer(q)))
    ensures ArmTimer(ClearTimer(q)) == q.(timer := ArmTimer(ClearTimer(q)).timer, live := ArmTimer(ClearTimer(q)).live,
                                          timerGeneration := ArmTimer(ClearTimer(q)).timerGeneration)
  {
    if q.timer.Some? {
      assert q.live - {q.timer.value} == map[];
    }
  }

  lemma AcknowledgeAdvances(q: Queue, ack: U32)
    requires Valid(q) && ClassifyAck(q, ack).Advanced?
    ensures Valid(Acknowledge(q, ack).0)
    ensures AckDropped(q, Acknowledge(q, ack).0, Acknowledge(q, ack).2, SequenceDistance(ack, q.sndUna))
  {
    assert Wrap(ack) == ack;
    DropAcknowledgedBooks(q, ack);
    DropAcknowledgedDrops(q, ack);
    hide Flatten, TotalPayload, DropItems, DroppedBytes, Contiguous, BytesOf, SequenceDistance, Exhaustions, Wrap;
    RestartsTimer(DropAcknowledged(q, ack));
  }

  /** An acknowledgement either drops exactly the items it names, or changes
      nothing but, when it is a duplicate in persist mode, the probe budget. */
  lemma AcknowledgeDrops(q: Queue, ackNumber: int)
    requires Valid(q)
    ensures var (q', status, bytes) := Acknowledge(q, ackNumber);
      && Valid(q')
      && (status.Advanced? ==> AckDropped(q, q', bytes, SequenceDistance(Wrap(ackNumber), q.sndUna)))
      && (status.Duplicate? ==>
            && Wrap(ackNumber) == q.sndUna
            && q' == q.(timeoutRetransmissions := if q.persist then 0 else q.timeoutRetransmissions))
      && (!status.Advanced? && !status.Duplicate? ==> q' == q)
      && (!status.Advanced? ==> bytes == 0)
  {
    hide Valid, AckDropped, DropAcknowledged, DroppedBytes, ArmTimer, ClearTimer;
    var ack := Wrap(ackNumber);
    assert Acknowledge(q, ackNumber) == Acknowledge(q, ack);
    if ClassifyAck(q, ack).Advanced? {
      AcknowledgeAdvances(q, ack);
    } else {
      BudgetKeepsValid(q);
    }
  }

  lemma BudgetKeepsValid(q: Queue)
    requires Valid(q)
    ensures Valid(q.(timeoutRetransmissions := 0))
  {
    hide AllWellFormed, TotalPayload, Contiguous, Exhaustions;
  }

  lemma OutstandingIsWrapped(q: Queue)
    requires Books(q) && !q.closed
    ensures SequenceDistance(q.sndNxt, q.sndUna) == Wrap(TotalLength(q.segments)) == Wrap(|Flatten(q.segments)|)
    ensures SequenceDistance(q.sndNxt, q.sndUna) <= TotalLength(q.segments) == |Flatten(q.segments)|
  {
    FlattenLength(q.segments);
    ContiguousEnd(q.segments, q.sndUna, q.sndNxt);
    DistanceOfPositions(0, q.sndUna + TotalLength(q.segments), q.sndUna);
    assert Wrap(0 + q.sndUna) == q.sndUna;
  }

  /** The internal throw of `acknowledge` (tcp_retransmission.js:118) is reached
      exactly on a queue closed while sequence space was outstanding. */
  lemma AcknowledgeThrowsIff(q: Queue, ackNumber: int)
    requires Valid(q)
    ensures Acknowledge(q, ackNumber).1.AckThrew? <==>
              && q.closed
              && 0 < SequenceDistance(Wrap(ackNumber), q.sndUna) < HALF
              && SequenceDistance(Wrap(ackNumber), q.sndUna) <= SequenceDistance(q.sndNxt, q.sndUna)
  {
    if !q.closed {
      OutstandingIsWrapped(q);
    }
  }

  /** `ack` names the position `n` items beyond the oldest unacknowledged one. */
  predicate Names(q: Queue, ack: U32, n: int) {
    0 < n <= |Flatten(q.segments)| && ack == Wrap(q.sndUna + n)
  }

  /** With less than 2^31 outstanding, an acknowledgement number is accepted
      exactly when it names one of the outstanding positions. */
  lemma AcknowledgeAcceptsExactly(q: Queue, ackNumber: int)
    requires Valid(q) && !q.closed
    requires |Flatten(q.segments)| < HALF
    ensures Acknowledge(q, ackNumber).1.Advanced? <==> exists n :: Names(q, Wrap(ackNumber), n)
  {
    OutstandingIsWrapped(q);
    var ack := Wrap(ackNumber);
    var a := SequenceDistance(ack, q.sndUna);
    DistanceNames(ack, q.sndUna);
    assert Wrap(|Flatten(q.segments)|) == |Flatten(q.segments)|;
    assert q.segments == [] ==> |Flatten(q.segments)| == 0;
    forall n | Names(q, ack, n) ensures a == n {
      DistanceAhead(q.sndUna, n);
    }
    hide Flatten, Wrap, SequenceDistance, DropAcknowledged, ArmTimer, ClearTimer, DroppedBytes, Books;
    if Acknowledge(q, ackNumber).1.Advanced? {
      assert Names(q, ack, a);
    }
  }

  lemma EmitKeepsBooks(q: Queue, reason: Reason, reply: Reply)
    requires Unarmed(q) && q.segments != [] && !q.exhausted && !q.closed
    ensures Unarmed(Emit(q, reason, reply).0)
    ensures Emit(q, reason, reply).1 <==> !reply.Threw?
    ensures Emit(q, reason, reply).1 ==> Emit(q, reason, reply).0.exhausted == q.exhausted
    ensures !Emit(q, reason, reply).1 ==> Emit(q, reason, reply).0.exhausted
  {
    hide Unarmed, Close, Exhaust;
    var c := OnRetransmit(q.segments[0], reason);
    CallKeepsUnarmed(q, c);
    match reply {
      case Returned =>
      case ClosedQueue => CloseKeepsUnarmed(q.(calls := q.calls + [c]));
      case Threw => ExhaustKeepsUnarmed(q.(calls := q.calls + [c]));
    }
  }

  lemma CallKeepsUnarmed(q: Queue, c: Callback)
    requires Unarmed(q) && !c.OnExhausted?
    ensures Unarmed(q.(calls := q.calls + [c]))
  {
    hide AllWellFormed, TotalPayload, Contiguous, Exhaustions;
    ExhaustionsAppend(q.calls, c);
  }

  lemma CloseKeepsUnarmed(q: Queue)
    requires Unarmed(q)
    ensures Unarmed(Close(q)) && Close(q).exhausted == q.exhausted
  {
    hide Exhaustions, Contiguous;
  }

  lemma ExhaustKeepsUnarmed(q: Queue)
    requires Unarmed(q) && !q.exhausted
    ensures Unarmed(Exhaust(q)) && Exhaust(q).exhausted
  {
    hide AllWellFormed, TotalPayload, Contiguous, Exhaustions;
    ExhaustionsAppend(q.calls, OnExhausted);
  }

  lemma ExhaustKeepsBooks(q: Queue)
    requires Books(q) && !q.exhausted
    requires q.timer.Some? ==> q.live == map[q.timer.value := q.currentRtoMs]
    requires q.timer.None? ==> q.live == map[]
    ensures Valid(Exhaust(q))
  {
    ExhaustionsAppend(q.calls, OnExhausted);
    if q.timer.Some? {
      assert q.live - {q.timer.value} == map[];
    }
  }

  lemma CloseKeepsValid(q: Queue)
    requires Books(q)
    requires q.timer.Some? ==> q.live == map[q.timer.value := q.currentRtoMs]
    requires q.timer.None? ==> q.live == map[]
    requires q.closed ==> q.timer.None?
    ensures Valid(Close(q)) && Close(q).closed
  {
    if q.timer.Some? {
      assert q.live - {q.timer.value} == map[];
    }
  }

  lemma FastRetransmitKeepsValid(q: Queue, reply: Reply)
    requires Valid(q)
    ensures Valid(FastRetransmit(q, reply).0)
    ensures reply.Returned? ==> Flatten(FastRetransmit(q, reply).0.segments) == Flatten(q.segments)
  {
    if CanFastRetransmit(q) {
      ClearsTimer(q);
      var c := ClearTimer(q.(currentRtoMs := q.cfg.initialRtoMs));
      EmitKeepsBooks(c, Fast, reply);
      var e := Emit(c, Fast, reply).0;
      ArmsTimer(e);
    }
  }

  lemma SetPersistKeepsValid(q: Queue, enabled: bool, reply: Reply)
    requires Valid(q)
    ensures Valid(SetPersist(q, enabled, reply))
    ensures reply.Returned? ==> SetPersist(q, enabled, reply).segments == q.segments
  {
    if !q.closed && !q.exhausted && q.persist != enabled {
      ClearsTimer(q);
      var q' := ClearTimer(q.(persist := enabled))
                .(currentRtoMs := q.cfg.initialRtoMs, timeoutRetransmissions := 0);
      if ReopensWindow(q, enabled) {
        EmitKeepsBooks(q', WindowOpen, reply);
        ArmsTimer(Emit(q', WindowOpen, reply).0);
      } else {
        ArmsTimer(q');
      }
    }
  }

  lemma BumpOldestSame(segments: seq<Segment>, una: int, nxt: U32)
    requires segments != [] && AllWellFormed(segments) && Contiguous(segments, una, nxt)
    ensures AllWellFormed(BumpOldest(segments)) && Contiguous(BumpOldest(segments), una, nxt)
    ensures Flatten(BumpOldest(segments)) == Flatten(segments)
    ensures TotalPayload(BumpOldest(segments)) == TotalPayload(segments)
  {
    assert BumpOldest(segments)[1..] == segments[1..];
    forall i | 0 <= i < |segments| ensures WellFormed(BumpOldest(segments)[i]) {
      if i > 0 { assert BumpOldest(segments)[i] == segments[i]; }
    }
  }

  /** The state a probe callback sees is unarmed; what it leaves can be restarted. */
  lemma ProbeKeepsBooks(q: Queue, probe: ProbeReply)
    requires Unarmed(q) && !q.closed && !q.exhausted && q.persist && q.timeoutRetransmissions > 0
    ensures var p := Probe(q, probe);
      p.Some? ==>
        && Books(p.value)
        && (p.value.timer.Some? ==> p.value.live.Keys == {p.value.timer.value})
        && (p.value.timer.None? ==> p.value.live == map[])
  {
    match probe {
      case SentTracked(seqNo, payload, flags) => TrackKeepsValid(q, seqNo, payload, flags);
      case ProbeClosedQueue => CloseKeepsValid(q);
      case _ =>
    }
  }

  lemma SendProbeKeepsValid(q: Queue, probe: ProbeReply)
    requires Unarmed(q) && !q.closed && !q.exhausted && q.persist
    requires q.timeoutRetransmissions < q.cfg.maxRetransmissions
    ensures Valid(SendProbe(q, probe))
  {
    var c := OnPersistProbe(Oldest(q));
    var q' := q.(timeoutRetransmissions := q.timeoutRetransmissions + 1, calls := q.calls + [c]);
    ExhaustionsAppend(q.calls, c);
    assert Books(q');
    hide Books;
    ProbeKeepsBooks(q', probe);
    hide Probe, Exhaust, ArmTimer, Valid;
    match Probe(q', probe) {
      case None => ExhaustKeepsBooks(q');
      case Some(p) => RestartsBackedOff(p);
    }
  }

  lemma RestartsBackedOff(q: Queue)
    requires Books(q)
    requires q.timer.Some? ==> q.live.Keys == {q.timer.value}
    requires q.timer.None? ==> q.live == map[]
    ensures Valid(ArmTimer(BackOff(ClearTimer(q))))
  {
    RestartsTimer(BackOff(q));
    assert BackOff(ClearTimer(q)) == ClearTimer(BackOff(q));
  }

  lemma ResendOldestKeepsValid(q: Queue, reply: Reply)
    requires Unarmed(q) && !q.closed && !q.exhausted && !q.persist && q.segments != []
    requires q.timeoutRetransmissions < q.cfg.maxRetransmissions
    ensures Valid(ResendOldest(q, reply))
  {
    hide Unarmed, Emit, ArmTimer, BumpOldest, Valid;
    BumpKeepsUnarmed(q);
    var q' := q.(timeoutRetransmissions := q.timeoutRetransmissions + 1, segments := BumpOldest(q.segments));
    EmitKeepsBooks(q', Timeout, reply);
    var (e, ok) := Emit(q', Timeout, reply);
    if ok {
      BackOffKeepsUnarmed(e);
      ArmsTimer(BackOff(e));
    } else {
      ExhaustedIsValid(e);
    }
  }

  lemma BumpKeepsUnarmed(q: Queue)
    requires Unarmed(q) && !q.closed && q.segments != [] && q.timeoutRetransmissions < q.cfg.maxRetransmissions
    ensures var q' := q.(timeoutRetransmissions := q.timeoutRetransmissions + 1, segments := BumpOldest(q.segments));
      Unarmed(q') && q'.segments != []
  {
    hide Exhaustions, Flatten;
    BumpOldestSame(q.segments, q.sndUna, q.sndNxt);
    hide AllWellFormed, TotalPayload, Contiguous;
  }

  lemma BackOffKeepsUnarmed(q: Queue)
    requires Unarmed(q)
    ensures Unarmed(BackOff(q))
  {
    hide AllWellFormed, TotalPayload, Contiguous, Exhaustions;
  }

  lemma ExhaustedIsValid(q: Queue)
    requires Unarmed(q) && q.exhausted
    ensures Valid(q)
  {
    hide AllWellFormed, TotalPayload, Contiguous, Exhaustions;
  }

  lemma HandleTimeoutKeepsValid(q: Queue, reply: Reply, probe: ProbeReply)
    requires Unarmed(q) && NeedsTimer(q)
    ensures Valid(HandleTimeout(q, reply, probe))
  {
    if q.timeoutRetransmissions >= q.cfg.maxRetransmissions {
      ExhaustKeepsBooks(q);
    } else if q.persist {
      SendProbeKeepsValid(q, probe);
    } else {
      ResendOldestKeepsValid(q, reply);
    }
    hide Valid, SendProbe, ResendOldest, Exhaust;
  }

  lemma FireKeepsValid(q: Queue, id: nat, reply: Reply, probe: ProbeReply)
    requires Valid(q) && id in q.live
    ensures Valid(Fire(q, id, reply, probe))
  {
    assert q.live - {id} == map[];
    HandleTimeoutKeepsValid(q.(live := q.live - {id}, timer := None), reply, probe);
  }

  /** Progress restarts the clock: with an accepted acknowledgement, a fast
      retransmission, or the VM's window closing or opening, the RTO is the initial
      one again (an acknowledgement leaves the probes' backoff alone), and so is the
      delay of the timer that is live from then on. Acknowledgements and window
      changes also renew the budget of retransmissions. */
  lemma ProgressRestarts(q: Queue, ack: U32, enabled: bool)
    requires Valid(q) && !q.closed && !q.exhausted
    ensures var p := Acknowledge(q, ack).0;
      Acknowledge(q, ack).1.Advanced? ==>
        Restarted(p, if q.persist then q.currentRtoMs else q.cfg.initialRtoMs) && p.timeoutRetransmissions == 0
    ensures var p := Retransmission.FastRetransmit(q, Returned).0;
      CanFastRetransmit(q) ==> Restarted(p, q.cfg.initialRtoMs) && p.timeoutRetransmissions == q.timeoutRetransmissions
    ensures var p := Retransmission.SetPersist(q, enabled, Returned);
      q.persist != enabled ==> Restarted(p, q.cfg.initialRtoMs) && p.timeoutRetransmissions == 0
  {
    hide DropItems, DroppedBytes, Flatten, Contiguous, Wrap;
  }

  predicate Restarted(q: Queue, rto: int) {
    q.currentRtoMs == rto && q.live == if NeedsTimer(q) then map[q.timerGeneration := rto] else map[]
  }
}
