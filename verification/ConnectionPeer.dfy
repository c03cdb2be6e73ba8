/** What a connection additionally guarantees when the VM is a consistent TCP
    peer: the sink holds a prefix of its stream, and no frame acknowledges a
    byte that was not delivered. */
module ConnectionPeer {
  import opened Bytes
  import opened SequenceNumbers
  import opened Retransmission
  import opened SendPath
  import opened SendInvariant
  import opened SendProgress
  import opened SendEvents
  import opened SendHeaders
  import opened ReassemblyProofs
  import opened ReceivePath
  import opened Connection
  import opened ConnectionProofs
  import P = Pacing

  /** `at[i]` is the position that frame `i` acknowledges: never less than the
      position before it, and between the two bounds. */
  predicate Positions(at: seq<nat>, frames: seq<Emission>, base: int, lo: nat, hi: nat) {
    && |at| == |frames|
    && (forall i :: 0 <= i < |at| ==> lo <= at[i] <= hi && frames[i].frame.header.ack == Wrap(base + at[i]))
    && (forall i, j :: 0 <= i < j < |at| ==> at[i] <= at[j])
  }

  /** Frame by frame, the acknowledged positions climb from `lo` to at most `hi`. */
  ghost predicate Climbs(frames: seq<Emission>, base: int, lo: nat, hi: nat) {
    lo <= hi && exists at: seq<nat> :: Positions(at, frames, base, lo, hi)
  }

  /** The frames to account for: those from index `from` on, which start at
      position `lo`; the peer's first number was learned after `learned` frames. */
  datatype Mark = Mark(learned: nat, from: nat, lo: nat)

  /** All frames since the peer's first sequence number was learned. */
  function SinceOpened(c: Conn): Mark { Mark(c.openedAt, c.openedAt, 0) }

  /** The frames still to come. */
  function FromNow(c: Conn): Mark { Mark(c.openedAt, |c.snd.trace|, NextPosition(c.rcv)) }

  /** The mark after a step: learning the peer's first sequence number changes
      the base, so that only the step's own frames are left to account for. */
  function After(c: Conn, d: Conn, g: Mark): Mark {
    if d.openedAt == c.openedAt then g else Mark(|c.snd.trace|, |c.snd.trace|, NextPosition(c.rcv))
  }

  ghost predicate AcksClimb(c: Conn, g: Mark) {
    && c.openedAt == g.learned && g.from <= |c.snd.trace|
    && Climbs(c.snd.trace[g.from..], c.rcv.base, g.lo, NextPosition(c.rcv))
  }

  ghost predicate PeerOk(c: Conn, peer: seq<byte>, g: Mark) {
    // `true ==` makes the conjunction one fact, which a caller proves at once and not clause by clause.
    true == (
    && Prefix(c.rcv, peer, Capacity(c))
    && AcksClimb(c, g)
    && (c.snd.cfg.reverse && c.snd.life.state.SynSent? ==>
          && c.rcv.sink == [] && !c.rcv.peerFin && c.rcv.buf.ranges == map[] && c.rcv.buf.bytes == 0
          && c.openedAt < |c.snd.trace|))
  }

  lemma ClimbAgain(a: seq<Emission>, b: seq<Emission>, base: int, lo: nat, hi: nat, more: nat)
    requires Climbs(a, base, lo, hi) && Climbs(b, base, hi, more)
    ensures Climbs(a + b, base, lo, more)
  {
    hide Wrap;
    var at: seq<nat> :| Positions(at, a, base, lo, hi);
    var next: seq<nat> :| Positions(next, b, base, hi, more);
    assert Positions(at + next, a + b, base, lo, more);
  }

  lemma AllAtOnce(frames: seq<Emission>, base: int, n: nat)
    requires forall i :: 0 <= i < |frames| ==> frames[i].frame.header.ack == Wrap(base + n)
    ensures Climbs(frames, base, n, n)
  {
    hide Wrap;
    assert Positions(seq(|frames|, _ => n), frames, base, n, n);
  }

  /** The VM's segments come from one stream, less than 2^31 away from what
      is expected, and the sink is there for what is new in them. Before a reverse
      connection is established nothing is taken. */
  ghost predicate PeerSends(c: Conn, peer: seq<byte>, e: Event) {
    e.Arrives? && !(c.snd.cfg.reverse && c.snd.life.state.SynSent?) ==> Honest(c.rcv, peer, e.p, e.answer)
  }

  predicate Located(r: Receiver, peer: seq<byte>, pos: nat, p: Packet) {
    FromPeer(peer, r.base, pos, p.seqNo, p.payload, p.hasFin) && -HALF < pos - NextPosition(r) < HALF
  }

  /** The packet's data or FIN, if any, lies where the peer's stream has it. */
  ghost predicate Honest(r: Receiver, peer: seq<byte>, p: Packet, answer: SinkAnswer) {
    && (p.payload != [] || p.hasFin ==> exists pos: nat :: Located(r, peer, pos, p))
    && !Loses(r, p.seqNo, p.payload, answer)
  }

  // ----- steps that deliver nothing -----

  /** `d` follows `c` with the same receiving half, and its new frames carry
      that half's acknowledgement number. */
  predicate Quiet(c: Conn, d: Conn) {
    && d.rcv == c.rcv && d.openedAt == c.openedAt
    && Continues(c.snd, d.snd, HeaderOf(c))
    && (d.snd.life.state.SynSent? ==> c.snd.life.state.SynSent?)
  }

  lemma QuietKeeps(c: Conn, d: Conn, peer: seq<byte>, g: Mark)
    requires PeerOk(c, peer, g) && Quiet(c, d)
    ensures PeerOk(d, peer, g)
  {
    PrefixParts(c.rcv, peer, Capacity(c));
    var before, frames, n := c.snd.trace[g.from..], d.snd.trace[|c.snd.trace|..], NextPosition(c.rcv);
    AllAtOnce(frames, c.rcv.base, n);
    ClimbAgain(before, frames, c.rcv.base, g.lo, n, n);
    assert d.snd.trace[g.from..] == before + frames;
    hide Prefix, Climbs, Wrap;
  }

  lemma SendAckQuiet(c: Conn)
    ensures Quiet(c, SendAck(c))
  {
    BareAppends(c.snd, HeaderOf(c), ACK);
    hide Frames, Stamp;
  }

  lemma ScheduleAckQuiet(c: Conn, segments: nat, immediate: bool)
    ensures Quiet(c, ScheduleAck(c, segments, immediate))
  {
    SendAckQuiet(c.(ackPending := c.ackPending + segments));
    hide SendAck;
  }

  lemma AbortQuiet(c: Conn, reset: bool)
    ensures Quiet(c, AbortConn(c, reset))
  {
    AbortAppends(c.snd, HeaderOf(c), reset);
    hide TransmitBare, Close;
  }

  lemma FinishQuiet(c: Conn)
    ensures Quiet(c, FinishConn(c))
  {
  }

  lemma TrySendQuiet(c: Conn, turns: nat -> Turn)
    requires Mid(c)
    ensures Quiet(c, TrySendConn(c, turns))
  {
    TrySendAppends(c.snd, HeaderOf(c), turns);
    hide TrySend, Core;
    TrySendConnOk(c, turns);
    TrySendKeeps(c.snd, HeaderOf(c), turns);
    if !c.snd.life.state.SynSent? { StaysOpen(c, turns); }
  }

  lemma StaysOpen(c: Conn, turns: nat -> Turn)
    requires Mid(c) && !c.snd.life.state.SynSent?
    ensures !TrySendConn(c, turns).snd.life.state.SynSent?
  {
    TrySendConnOk(c, turns);
    hide TrySend, Core;
    TrySendKeeps(c.snd, HeaderOf(c), turns);
    OpenFacts(c.snd);
  }

  // ----- a packet's data and FIN -----

  /** Delivery only moves forward, so what was acknowledged stays delivered. */
  lemma DeliveryKeeps(c: Conn, r: Receiver, peer: seq<byte>, g: Mark)
    requires PeerOk(c, peer, g) && Prefix(r, peer, Capacity(c)) && r.base == c.rcv.base
    requires NextPosition(c.rcv) <= NextPosition(r)
    requires !(c.snd.cfg.reverse && c.snd.life.state.SynSent?)
    ensures PeerOk(c.(rcv := r), peer, g)
  {
    hide Prefix, Wrap;
    ClimbAgain(c.snd.trace[g.from..], [], c.rcv.base, g.lo, NextPosition(c.rcv), NextPosition(r)) by {
      assert Positions([], [], c.rcv.base, NextPosition(c.rcv), NextPosition(r));
    }
    assert c.snd.trace[g.from..] + [] == c.snd.trace[g.from..];
    hide Climbs;
  }

  lemma StateKeeps(c: Conn, state: TcpState, peer: seq<byte>, g: Mark)
    requires PeerOk(c, peer, g) && !state.SynSent?
    ensures PeerOk(c.(snd := WithState(c.snd, state)), peer, g)
  {
    hide Prefix;
  }

  lemma FinPartKeeps(c: Conn, p: Packet, peer: seq<byte>, g: Mark)
    requires PeerOk(c, peer, g) && InDataState(c.snd)
    requires p.hasFin ==> exists pos: nat :: FromPeer(peer, c.rcv.base, pos, p.seqNo, p.payload, true) && |peer| < NextPosition(c.rcv) + SPACE
    ensures PeerOk(FinPart(c, p), peer, g)
  {
    hide Prefix, FromPeer, Wrap, PeerOk;
    ScheduleAckQuiet(c, 0, true);
    QuietKeeps(c, ScheduleAck(c, 0, true), peer, g);
    if p.hasFin && TakesFin(c.rcv, p.seqNo, p.payload) {
      var pos: nat :| FromPeer(peer, c.rcv.base, pos, p.seqNo, p.payload, true) && |peer| < NextPosition(c.rcv) + SPACE;
      FinTaken(c, p, peer, pos, g);
    }
    hide ScheduleAck, TakeFin;
  }

  lemma FinTaken(c: Conn, p: Packet, peer: seq<byte>, pos: nat, g: Mark)
    requires PeerOk(c, peer, g) && InDataState(c.snd) && TakesFin(c.rcv, p.seqNo, p.payload)
    requires FromPeer(peer, c.rcv.base, pos, p.seqNo, p.payload, true) && |peer| < NextPosition(c.rcv) + SPACE
    ensures PeerOk(TakeFin(c), peer, g)
  {
    PeerPrefix(c, peer, g);
    hide Prefix, FromPeer, Wrap, PeerOk, TakesFin;
    TakesFinExactly(c.rcv, peer, Capacity(c), pos, p.seqNo, p.payload);
    StateKeeps(c, Closing, peer, g);
    var d := c.(snd := WithState(c.snd, Closing));
    DeliveryKeeps(d, ReceiveFin(c.rcv), peer, g);
    var e := d.(rcv := ReceiveFin(c.rcv));
    ScheduleAckQuiet(e, 0, true);
    QuietKeeps(e, ScheduleAck(e, 0, true), peer, g);
    FinishQuiet(ScheduleAck(e, 0, true));
    QuietKeeps(ScheduleAck(e, 0, true), FinishConn(ScheduleAck(e, 0, true)), peer, g);
    hide ScheduleAck, FinishConn, BothDone;
  }

  lemma PeerPrefix(c: Conn, peer: seq<byte>, g: Mark)
    requires PeerOk(c, peer, g)
    ensures Prefix(c.rcv, peer, Capacity(c)) && c.rcv.sink <= peer
  {
  }

  lemma DataPartKeeps(c: Conn, p: Packet, answer: SinkAnswer, peer: seq<byte>, g: Mark)
    requires PeerOk(c, peer, g) && ConnOk(c) && InDataState(c.snd)
    requires p.payload != [] || p.hasFin ==> exists pos: nat :: Located(c.rcv, peer, pos, p)
    requires !Loses(c.rcv, p.seqNo, p.payload, answer)
    ensures PeerOk(DataPart(c, p, answer), peer, g)
  {
    hide Prefix, FromPeer, Wrap, PeerOk, ReceiveData, ConnOk, FinPart, ScheduleAck, Located, Classify;
    PeerPrefix(c, peer, g);
    CapacityInRange(c);
    if p.payload == [] {
      if p.hasFin { var pos: nat :| Located(c.rcv, peer, pos, p); LocatedFin(c.rcv, peer, pos, p, c.rcv); }
      FinPartKeeps(c, p, peer, g);
    } else {
      var pos: nat :| Located(c.rcv, peer, pos, p);
      LocatedIs(c.rcv, peer, pos, p);
      ReceiveDataKeeps(c.rcv, peer, Capacity(c), pos, p.seqNo, p.payload, p.hasFin, answer);
      var (r, arrival, n) := ReceiveData(c.rcv, Capacity(c), p.seqNo, p.payload, answer);
      DeliveryKeeps(c, r, peer, g);
      var d := c.(rcv := r);
      ScheduleAckQuiet(d, n, false);
      ScheduleAckQuiet(d, 0, true);
      QuietKeeps(d, ScheduleAck(d, n, false), peer, g);
      QuietKeeps(d, ScheduleAck(d, 0, true), peer, g);
      if arrival.InOrder? {
        if p.hasFin { LocatedFin(c.rcv, peer, pos, p, r); }
        ScheduleAckLife(d, n);
        FinPartKeeps(ScheduleAck(d, n, false), p, peer, g);
      }
    }
  }

  lemma LocatedIs(r: Receiver, peer: seq<byte>, pos: nat, p: Packet)
    requires Located(r, peer, pos, p)
    ensures FromPeer(peer, r.base, pos, p.seqNo, p.payload, p.hasFin) && -HALF < pos - NextPosition(r) < HALF
  {
  }

  lemma CapacityInRange(c: Conn)
    requires ConnOk(c)
    ensures 1 <= Capacity(c) <= MAX_SEGMENT
  {
  }

  /** A segment with a FIN near the next position puts the stream's end near it. */
  lemma LocatedFin(r: Receiver, peer: seq<byte>, pos: nat, p: Packet, d: Receiver)
    requires Located(r, peer, pos, p) && p.hasFin && d.base == r.base && NextPosition(r) <= NextPosition(d)
    ensures FromPeer(peer, d.base, pos, p.seqNo, p.payload, true) && |peer| < NextPosition(d) + SPACE
  {
  }

  // ----- the packet handlers -----

  lemma DuplicatesQuiet(c: Conn, n: int)
    ensures Quiet(c, c.(snd := SetDuplicates(c.snd, n)))
  {
  }

  lemma AckQuiet(c: Conn, p: Packet)
    requires ConnOk(c) && TakesWindows(c.snd) && c.snd.life.current && 0 <= p.window <= MAX_WINDOW
    ensures Quiet(c, c.(snd := ProcessAck(c.snd, HeaderOf(c), p).0))
  {
    ProcessAckAppends(c.snd, HeaderOf(c), p);
    AckedConn(c, p);
    hide ProcessAck, ConnOk, Base, Core;
  }

  lemma AfterAckKeeps(c: Conn, p: Packet, acted: bool, changed: bool, turns: nat -> Turn, answer: SinkAnswer, peer: seq<byte>, g: Mark)
    requires PeerOk(c, peer, g) && Honest(c.rcv, peer, p, answer)
    requires Mid(c) && (!acted ==> ConnOk(c)) && (changed ==> acted)
    ensures PeerOk(AfterAck(c, p, acted, changed, turns, answer), peer, g)
  {
    hide PeerOk, Located, ConnOk, Mid, DataPart, FinishConn, TrySendConn, BothDone;
    if InDataState(c.snd) {
      FinishQuiet(c);
      QuietKeeps(c, FinishConn(c), peer, g);
      DuplicatesQuiet(c, 0);
      QuietKeeps(c, c.(snd := SetDuplicates(c.snd, 0)), peer, g);
      SetDuplicatesOk(c, 0);
      var d := if changed then c.(snd := SetDuplicates(c.snd, 0)) else c;
      if acted && !BothDone(c) {
        SentThenData(d, p, turns, answer, peer, g);
      } else if !acted {
        DataPartKeeps(d, p, answer, peer, g);
      }
    }
  }

  lemma SentThenData(c: Conn, p: Packet, turns: nat -> Turn, answer: SinkAnswer, peer: seq<byte>, g: Mark)
    requires PeerOk(c, peer, g) && Honest(c.rcv, peer, p, answer) && Mid(c) && InDataState(c.snd)
    ensures PeerOk(DataPart(TrySendConn(c, turns), p, answer), peer, g)
  {
    hide PeerOk, Located, ConnOk, Mid, DataPart, TrySendConn;
    TrySendConnOk(c, turns);
    TrySendQuiet(c, turns);
    QuietKeeps(c, TrySendConn(c, turns), peer, g);
    DataPartKeeps(TrySendConn(c, turns), p, answer, peer, g);
  }

  lemma HandleOutboundKeeps(c: Conn, p: Packet, turns: nat -> Turn, answer: SinkAnswer, peer: seq<byte>, g: Mark)
    requires PeerOk(c, peer, g) && Honest(c.rcv, peer, p, answer)
    requires ConnOk(c) && !c.snd.cfg.reverse && 0 <= p.window <= MAX_WINDOW
    ensures PeerOk(HandleOutbound(c, p, turns, answer), peer, g)
  {
    MidOf(c);
    hide PeerOk, Located, ConnOk, Mid, AbortConn, AfterAck, ProcessAck, SendPath.FastRetransmit;
    if c.snd.life.current {
      if p.hasSyn && !p.hasAck {
        ResendQuiet(c);
        QuietKeeps(c, c.(snd := SendPath.FastRetransmit(c.snd, HeaderOf(c))), peer, g);
      } else if p.hasRst {
        AbortQuiet(c, false);
        QuietKeeps(c, AbortConn(c, false), peer, g);
      } else if !p.hasAck {
        AfterAckKeeps(c, p, false, false, turns, answer, peer, g);
      } else {
        OutboundAckKeeps(c, p, turns, answer, peer, g);
      }
    }
  }

  lemma ResendQuiet(c: Conn)
    requires ConnOk(c)
    ensures Quiet(c, c.(snd := SendPath.FastRetransmit(c.snd, HeaderOf(c))))
  {
    FastRetransmitAppends(c.snd, HeaderOf(c));
    hide Frames, Stamp, P.NoteLoss, Retransmission.FastRetransmit;
  }

  lemma OutboundAckKeeps(c: Conn, p: Packet, turns: nat -> Turn, answer: SinkAnswer, peer: seq<byte>, g: Mark)
    requires PeerOk(c, peer, g) && Honest(c.rcv, peer, p, answer) && ConnOk(c) && !c.snd.cfg.reverse && c.snd.life.current
    requires 0 <= p.window <= MAX_WINDOW && p.hasAck && !p.hasRst
    ensures PeerOk(HandleOutbound(c, p, turns, answer), peer, g)
  {
    AckQuiet(c, p);
    AckedConn(c, p);
    MidOf(c);
    var (s, status, changed) := ProcessAck(c.snd, HeaderOf(c), p);
    var a := c.(snd := s);
    AckedMid(c, a, status.Advanced?);
    hide PeerOk, Located, ConnOk, Mid, AfterAck, ProcessAck, Base, Core, RecoveryHasData, FinishedOk, SendAck;
    QuietKeeps(c, a, peer, g);
    if status.Advanced? && s.life.state.SynSent? {
      if s.rtx.segments == [] { EstablishedKeeps(a, p, changed, turns, answer, peer, g); }
    } else if (status.Advanced? || status.Duplicate?) && !s.life.state.SynSent? {
      AfterAckKeeps(a, p, status.Advanced? || changed, changed, turns, answer, peer, g);
    }
  }

  lemma EstablishedKeeps(a: Conn, p: Packet, changed: bool, turns: nat -> Turn, answer: SinkAnswer, peer: seq<byte>, g: Mark)
    requires PeerOk(a, peer, g) && Honest(a.rcv, peer, p, answer) && !a.snd.cfg.reverse && !a.snd.wake.sending && FinishedOk(a)
    requires Base(a.snd) && RecoveryHasData(a.snd) && a.snd.life.state.SynSent? && a.snd.log.acked == 1
    ensures PeerOk(AfterAck(SendAck(a.(snd := WithState(a.snd, Established))), p, true, changed, turns, answer), peer, g)
  {
    var e := a.(snd := WithState(a.snd, Established));
    Establishes(a.snd, 0, 0);
    hide PeerOk, Located, AfterAck, Base, Core, SendAck;
    StateKeeps(a, Established, peer, g);
    SendAckOk(e);
    SendAckQuiet(e);
    QuietKeeps(e, SendAck(e), peer, g);
    AfterAckKeeps(SendAck(e), p, true, changed, turns, answer, peer, g);
  }

  lemma ReverseAckKeeps(c: Conn, p: Packet, turns: nat -> Turn, answer: SinkAnswer, peer: seq<byte>, g: Mark)
    requires PeerOk(c, peer, g) && Honest(c.rcv, peer, p, answer) && ConnOk(c) && c.snd.life.current && InDataState(c.snd)
    requires 0 <= p.window <= MAX_WINDOW
    ensures PeerOk(ReverseAckPart(c, p, turns, answer), peer, g)
  {
    if !p.hasAck {
      DataPartKeeps(c, p, answer, peer, g);
    } else {
      AckQuiet(c, p);
      AckedConn(c, p);
      var (s, status, changed) := ProcessAck(c.snd, HeaderOf(c), p);
      var a := c.(snd := s);
      AckedMid(c, a, status.Advanced?);
      hide PeerOk, Located, ConnOk, Mid, ProcessAck, Base, Core, RecoveryHasData, FinishedOk, FinishConn, BothDone,
        DataPart, DrainTwice;
      QuietKeeps(c, a, peer, g);
      if status.Advanced? && BothDone(a) {
        FinishQuiet(a);
        QuietKeeps(a, FinishConn(a), peer, g);
      } else if status.Advanced? || status.Duplicate? {
        SendTwice(a, p, status.Advanced?, changed, turns, answer, peer, g);
      }
    }
  }

  lemma SendTwice(a: Conn, p: Packet, advanced: bool, changed: bool, turns: nat -> Turn, answer: SinkAnswer, peer: seq<byte>, g: Mark)
    requires PeerOk(a, peer, g) && Honest(a.rcv, peer, p, answer) && Mid(a) && InDataState(a.snd) && (!advanced && !changed ==> ConnOk(a))
    ensures PeerOk(DataPart(DrainTwice(a, advanced, changed, turns), p, answer), peer, g)
  {
    hide PeerOk, Located, ConnOk, Mid, DataPart, TrySendConn;
    TrySendConnOk(a, FirstDrain(turns));
    TrySendQuiet(a, FirstDrain(turns));
    QuietKeeps(a, TrySendConn(a, FirstDrain(turns)), peer, g);
    var d := if advanced then TrySendConn(a, FirstDrain(turns)) else a;
    if advanced { MidOf(d); }
    DuplicatesQuiet(d, 0);
    QuietKeeps(d, d.(snd := SetDuplicates(d.snd, 0)), peer, g);
    SetDuplicatesOk(d, 0);
    if changed {
      SentThenData(d.(snd := SetDuplicates(d.snd, 0)), p, SecondDrain(turns), answer, peer, g);
    } else {
      DataPartKeeps(d, p, answer, peer, g);
    }
  }

  lemma SynchronizeKeeps(c: Conn, s: Sender, p: Packet, mss: nat, peer: seq<byte>, g: Mark)
    requires PeerOk(c, peer, g) && c.snd.cfg.reverse && c.snd.life.state.SynSent? && s.cfg == c.snd.cfg
    requires 1 <= Capacity(c) <= MAX_SEGMENT
    requires s.trace == c.snd.trace
    ensures var d := Synchronize(c, s, p, mss); d.openedAt != c.openedAt && PeerOk(d, peer, After(c, d, g))
  {
    var first := Wrap(p.seqNo + 1);
    NewReceiverPrefix(first, peer, Capacity(c));
    AllAtOnce([], first, 0);
    assert s.trace[|s.trace|..] == [];
    hide HoldsPeer, Ok, Wrap, Climbs;
  }

  lemma EstablishReverseKeeps(c: Conn, p: Packet, mss: nat, turns: nat -> Turn, peer: seq<byte>, g: Mark)
    requires PeerOk(c, peer, g) && ConnOk(c) && c.snd.cfg.reverse && c.snd.life.state.SynSent? && 0 <= p.window <= MAX_WINDOW
    ensures var d := EstablishReverse(c, p, mss, turns); PeerOk(d, peer, After(c, d, g))
  {
    SynAcknowledged(c, p.ack);
    CapacityInRange(c);
    MidOf(c);
    QueueQuiet(c, p.ack);
    var (s, status, bytes) := AcknowledgeQueue(c.snd, p.ack);
    hide PeerOk, Base, ConnOk, AcknowledgeQueue, TrySendConn, SendAck, Synchronize, RecoveryHasData;
    if !status.Advanced? || s.rtx.segments != [] {
      QuietKeeps(c, c.(snd := s), peer, g);
    } else {
      var d := Synchronize(c, s, p, mss);
      SynchronizeKeeps(c, s, p, mss, peer, g);
      SynchronizeOk(c, s, p, mss);
      SendAckOk(d);
      SendAckQuiet(d);
      var after := After(c, d, g);
      QuietKeeps(d, SendAck(d), peer, after);
      TrySendQuiet(SendAck(d), turns);
      QuietKeeps(SendAck(d), TrySendConn(SendAck(d), turns), peer, after);
    }
  }

  lemma QueueQuiet(c: Conn, ack: U32)
    ensures Quiet(c, c.(snd := AcknowledgeQueue(c.snd, ack).0)) && AcknowledgeQueue(c.snd, ack).0.trace == c.snd.trace
  {
    hide Acknowledge;
  }

  lemma SameOpening(c: Conn, d: Conn, peer: seq<byte>, g: Mark)
    requires PeerOk(c, peer, g)
    ensures PeerOk(d, peer, g) ==> PeerOk(d, peer, After(c, d, g))
  {
    hide Prefix, Climbs;
  }

  lemma HandleReverseKeeps(c: Conn, p: Packet, mss: nat, turns: nat -> Turn, answer: SinkAnswer, peer: seq<byte>, g: Mark)
    requires PeerOk(c, peer, g) && (c.snd.life.state.SynSent? || Honest(c.rcv, peer, p, answer))
    requires ConnOk(c) && c.snd.cfg.reverse && 0 <= p.window <= MAX_WINDOW
    ensures var d := HandleReverse(c, p, mss, turns, answer); PeerOk(d, peer, After(c, d, g))
  {
    SameOpening(c, HandleReverse(c, p, mss, turns, answer), peer, g);
    hide PeerOk, Located, ConnOk, AbortConn, EstablishReverse, ReverseAckPart, SendAck, Honest;
    AbortQuiet(c, false);
    QuietKeeps(c, AbortConn(c, false), peer, g);
    SendAckQuiet(c);
    QuietKeeps(c, SendAck(c), peer, g);
    if c.snd.life.state.SynSent? { EstablishReverseKeeps(c, p, mss, turns, peer, g); }
    if InDataState(c.snd) && c.snd.life.current { ReverseAckKeeps(c, p, turns, answer, peer, g); }
  }

  // ----- every event -----

  lemma PauseKeeps(c: Conn, backpressured: bool, peer: seq<byte>, g: Mark)
    requires PeerOk(c, peer, g)
    ensures PeerOk(c.(rcv := c.rcv.(backpressured := backpressured)), peer, g)
  {
    hide HoldsPeer, Ok, Wrap;
  }

  /** A change of the sending half alone, with no new frame. */
  lemma SilentKeeps(c: Conn, s: Sender, peer: seq<byte>, g: Mark)
    requires PeerOk(c, peer, g) && s.cfg == c.snd.cfg && s.trace == c.snd.trace
    requires s.life.state.SynSent? ==> c.snd.life.state.SynSent?
    ensures PeerOk(c.(snd := s), peer, g)
  {
    QuietKeeps(c, c.(snd := s), peer, g);
    hide PeerOk;
  }

  lemma TrySendKeepsPeer(c: Conn, turns: nat -> Turn, peer: seq<byte>, g: Mark)
    requires PeerOk(c, peer, g) && Mid(c)
    ensures PeerOk(TrySendConn(c, turns), peer, g)
  {
    hide PeerOk, Mid, TrySendConn;
    TrySendQuiet(c, turns);
    QuietKeeps(c, TrySendConn(c, turns), peer, g);
  }

  lemma SourceKeeps(c: Conn, e: Event, peer: seq<byte>, g: Mark)
    requires ConnOk(c) && PeerOk(c, peer, g) && Enabled(c, e) && !DataAfterFin(c, e) && (e.SourceData? || e.SourceEnd?)
    ensures PeerOk(Step(c, e), peer, g)
  {
    if (e.SourceData? && c.snd.life.current) || !c.snd.life.state.Closed? { NotFinished(c); }
    hide PeerOk, TrySendConn, Core, SenderOk;
    match e {
      case SourceData(data, turns) =>
        if c.snd.life.current {
          EnqueueKeeps(c.snd, data);
          SilentKeeps(c, Enqueue(c.snd, data), peer, g);
          TrySendKeepsPeer(c.(snd := Enqueue(c.snd, data)), turns, peer, g);
        }
      case SourceEnd(turns) =>
        if c.snd.life.current && !c.snd.life.state.Closed? {
          EndSourceKeeps(c.snd);
          SilentKeeps(c, EndSource(c.snd), peer, g);
          TrySendKeepsPeer(c.(snd := EndSource(c.snd)), turns, peer, g);
        }
    }
  }

  lemma WakeKeepsPeer(c: Conn, e: Event, peer: seq<byte>, g: Mark)
    requires ConnOk(c) && PeerOk(c, peer, g) && Enabled(c, e) && Wakes(e)
    ensures PeerOk(Step(c, e), peer, g)
  {
    hide ConnOk, Mid, PeerOk, Step, Woken, TrySendConn;
    StepOfWake(c, e);
    WokenMid(c, e);
    SilentKeeps(c, Woken(c.snd, e), peer, g);
    if !e.TransportFlushed? { TrySendKeepsPeer(c.(snd := Woken(c.snd, e)), e.turns, peer, g); }
  }

  lemma TimerKeepsPeer(c: Conn, id: nat, congested: bool, open: bool, peer: seq<byte>, g: Mark)
    requires ConnOk(c) && PeerOk(c, peer, g) && id in c.snd.rtx.live
    ensures PeerOk(Step(c, RetransmissionTimerFires(id, congested, open)), peer, g)
  {
    LiveTimer(c.snd, id);
    var t := RetransmissionTimer(c.snd, HeaderOf(c), id, congested, open);
    TimerAppends(c.snd, HeaderOf(c), id, congested, open);
    TimerStaysOpen(c.snd, HeaderOf(c), id, congested, open);
    hide PeerOk, RetransmissionTimer;
    QuietKeeps(c, c.(snd := t), peer, g);
    QuietKeeps(c, ClearAck(c).(snd := t), peer, g);
  }

  lemma TimerStaysOpen(s: Sender, header: Header, id: nat, congested: bool, open: bool)
    ensures var t := RetransmissionTimer(s, header, id, congested, open);
      && (t.life.state.SynSent? ==> s.life.state.SynSent?)
      && (s.life.current && !t.life.current ==> t.life.state.Closed?)
  {
    hide Frames, Stamp, Fire, Close, P.NoteLoss, TimerBranch, ProbeTimer;
    ProbeStaysOpen(s, header, id, congested);
  }

  /** Every event, as long as the VM sends one consistent stream, keeps the
      sink a prefix of it, and the frames it sends acknowledge positions that
      climb from what was delivered before it to what is delivered after it. */
  lemma StepKeepsPeer(c: Conn, e: Event, peer: seq<byte>, g: Mark)
    requires ConnOk(c) && PeerOk(c, peer, g) && Enabled(c, e) && !DataAfterFin(c, e) && PeerSends(c, peer, e)
    ensures PeerOk(Step(c, e), peer, After(c, Step(c, e), g))
  {
    hide ConnOk, PeerOk, Located, TrySendConn, ScheduleAck, SendAck, AbortConn, HandleReverse, HandleOutbound, RetransmissionTimer;
    SameOpening(c, Step(c, e), peer, g);
    match e {
      case SourceData(_, _) => SourceKeeps(c, e, peer, g);
      case SourceEnd(_) => SourceKeeps(c, e, peer, g);
      case Arrives(p, mss, turns, answer) =>
        if c.snd.cfg.reverse {
          HandleReverseKeeps(c, p, mss, turns, answer, peer, g);
        } else {
          HandleOutboundKeeps(c, p, turns, answer, peer, g);
        }
      case RetransmissionTimerFires(id, congested, open) => TimerKeepsPeer(c, id, congested, open, peer, g);
      case SinkDrains =>
        PauseKeeps(c, false, peer, g);
        var d := c.(rcv := c.rcv.(backpressured := false));
        ScheduleAckQuiet(d, 0, true);
        QuietKeeps(d, ScheduleAck(d, 0, true), peer, g);
      case AckTimerFires =>
        var d := c.(ackTimer := false);
        SilentConn(c, d, peer, g);
        SendAckQuiet(d);
        QuietKeeps(d, SendAck(d), peer, g);
      case Fails(open) =>
        AbortQuiet(c, open);
        QuietKeeps(c, AbortConn(c, open), peer, g);
      case Expires => SilentKeeps(c, c.snd.(life := c.snd.life.(current := false)), peer, g);
      case _ => WakeKeepsPeer(c, e, peer, g);
    }
  }

  lemma SilentConn(c: Conn, d: Conn, peer: seq<byte>, g: Mark)
    requires PeerOk(c, peer, g) && d.snd == c.snd && d.rcv == c.rcv && d.openedAt == c.openedAt
    ensures PeerOk(d, peer, g)
  {
    hide Prefix;
  }
}
