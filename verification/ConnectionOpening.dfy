/** How a connection opens, from either side: which packets end the handshake,
    what is learned from them, and what is answered or resent otherwise. */
module ConnectionOpening {
  import opened Bytes
  import opened SequenceNumbers
  import opened Retransmission
  import opened RetransmissionProofs
  import opened SendPath
  import opened SendInvariant
  import opened SendOperations
  import opened SendProgress
  import opened SendHeaders
  import opened SendHistory
  import opened ReceivePath
  import opened Connection
  import opened ConnectionProofs
  import opened ConnectionTheorems
  import opened ConnectionPackets
  import opened ConnectionLoss
  import P = Pacing

  /** A connection begins with one frame: the SYN, or the SYN-ACK that acknowledges
      the VM's SYN and advertises the configured window. An outbound one starts
      with the window and the segment size the VM's SYN announced. */
  lemma BeginsWithSyn(h: Handshake)
    requires h.Valid()
    ensures var c := h.Begin();
      && |c.snd.trace| == 1 && InOpening(c)
      && var f := c.snd.trace[0].frame;
      && f.seqNo == h.isn && f.payload == [] && f.flags == Flags(true, !h.cfg.reverse, false, false, false)
      && if h.cfg.reverse then
           && f.header.window == Min(0xffff, h.cfg.windowSize) && c.snd.win.size == h.cfg.windowSize && TcpMss(c.snd) == h.cfg.tcpMss
         else
           && f.header == Header(h.vmFirst, h.cfg.windowSize) && c.rcv.buf.vmSeq == h.vmFirst
           && c.snd.win.size == Min(h.window, h.cfg.windowSize)
           && TcpMss(c.snd) == Min(h.cfg.tcpMss, Max(1, if h.mss == 0 then FALLBACK_MSS else h.mss))
  {
    var first := if h.cfg.reverse then 0 else h.vmFirst;
    var header := Header(first, ReceiveWindow(NewReceiver(first), h.cfg.windowSize));
    var peerMss := if h.mss == 0 then FALLBACK_MSS else h.mss;
    OneSyn(h.cfg, h.isn, h.cfg.windowSize, h.cfg.tcpMss, header);
    OneSyn(h.cfg, h.isn, Min(h.window, h.cfg.windowSize), Min(h.cfg.tcpMss, peerMss), header);
    hide OpenSender;
  }

  predicate InOpening(c: Conn) {
    c.snd.life.state.SynSent? && c.snd.life.current && c.snd.out.queue == [] && c.rcv.sink == [] && !c.rcv.peerFin && !c.finished
  }

  lemma OneSyn(cfg: Setup, isn: U32, window: int, mss: int, header: Header)
    ensures var s := OpenSender(cfg, isn, window, mss, header);
      && s.cfg == cfg && s.win.size == window && s.sendMss == mss && s.life.state.SynSent? && s.life.current && s.out.queue == []
      && |s.trace| == 1
      && s.trace[0].frame == Frame(isn, if cfg.reverse then header else header.(window := cfg.windowSize),
                                   Flags(true, !cfg.reverse, false, false, false), [])
  {
    var f := Frame(isn, if cfg.reverse then header else header.(window := cfg.windowSize), Flags(true, !cfg.reverse, false, false, false), []);
    assert Stamp(0, [f]) == [Emission(0, f)] by { StampNothing(FrameLength(f)); }
    hide TrackFrames, Stamp;
  }

  /** The number that acknowledges the SYN, right behind it. */
  function SynEnd(s: Sender): U32 { Wrap(s.log.iss + 1) }

  lemma OpeningBooksOf(c: Conn)
    requires ConnOk(c) && c.snd.life.state.SynSent?
    ensures c.snd.log.acked == 0 && |c.snd.log.tracked| == 1 && !c.snd.rtx.closed && !c.snd.rtx.exhausted
    ensures c.snd.life.current && !c.snd.life.finSent && c.snd.rtx.segments != []
    ensures c.snd.rtx.sndUna == Wrap(c.snd.log.iss) && c.snd.rtx.payloadBytesInFlight == 0 && !c.snd.rtx.persist
  {
    hide Core, Base;
    OkIsSenderOk(c);
    SenderIsCore(c.snd);
    OpenFacts(c.snd);
    OpeningOf(c.snd);
    Facts(c.snd) by { CoreIsBase(c.snd); }
    OutstandingSyn(c.snd);
  }

  lemma OpeningOf(s: Sender)
    requires Core(s) && s.life.state.SynSent?
    ensures s.log.acked == 0 && |s.log.tracked| == 1 && !s.life.finSent && !s.rtx.persist
  {
    WireFacts(BytesOf(s.log.tracked), s.life.finSent);
    hide Wire, BytesOf, Sequenced, Consistent;
  }

  lemma OutstandingSyn(s: Sender)
    requires Base(s) && !s.rtx.closed && s.log.acked == 0 && |s.log.tracked| == 1
    ensures s.rtx.segments != [] && s.rtx.payloadBytesInFlight == 0
  {
    Facts(s);
    FlattenLength(s.rtx.segments);
    WireFacts(BytesOf(s.log.tracked), s.life.finSent);
    assert s.log.tracked[0..] == s.log.tracked;
    hide Wire, Sequenced, Consistent;
  }

  /** An acknowledgement that reaches the queue ends the handshake exactly when it
      is the number right behind the SYN. */
  lemma SynStatus(c: Conn, ack: U32)
    requires ConnOk(c) && c.snd.life.state.SynSent?
    ensures Acknowledge(c.snd.rtx, ack).1.Advanced? <==> ack == SynEnd(c.snd)
    ensures Acknowledge(c.snd.rtx, ack).1.Duplicate? <==> ack == Wrap(c.snd.log.iss)
    ensures Acknowledge(c.snd.rtx, ack).1.Advanced? ==> Acknowledge(c.snd.rtx, ack).0.segments == []
  {
    OpeningBooksOf(c);
    OkIsSenderOk(c);
    SenderIsCore(c.snd) by { hide SenderOk; }
    hide Core, ConnOk, Acknowledge, Flatten;
    AlreadyWrapped(ack);
    Facts(c.snd) by { CoreIsBase(c.snd); }
    OutstandingBound(c.snd);
    AcknowledgeAcceptsExactly(c.snd.rtx, ack);
    NamesOutstanding(c.snd, c.snd.log.iss, ack);
    assert Outstanding(c.snd, c.snd.log.iss, 1, ack) <==> ack == SynEnd(c.snd);
    SynAcknowledged(c, ack);
    QueueStatus(c.snd, ack);
  }

  lemma QueueStatus(s: Sender, ack: U32)
    ensures AcknowledgeQueue(s, ack).1 == Acknowledge(s.rtx, ack).1 && AcknowledgeQueue(s, ack).0.rtx == Acknowledge(s.rtx, ack).0
    ensures Acknowledge(s.rtx, ack).1.Duplicate? <==> ack == s.rtx.sndUna
    ensures !AcknowledgeQueue(s, ack).1.Advanced? && !AcknowledgeQueue(s, ack).1.AckThrew? ==>
              AcknowledgeQueue(s, ack).0 == s.(rtx := Acknowledge(s.rtx, ack).0)
  {
    AlreadyWrapped(ack);
    hide DropItems, DroppedBytes;
  }

  // ----- connections towards the VM -----

  /** What the SYN-ACK of a reverse connection settles: the VM's first number, its
      window and the segment size both sides can take; the first frame after it
      acknowledges it. */
  predicate LearnedFrom(c: Conn, d: Conn, p: Packet, mss: nat) {
    && InDataState(d.snd) && d.snd.life.current && d.snd.log.acked == 1
    && d.rcv.base == d.rcv.buf.vmSeq == Wrap(p.seqNo + 1) && d.rcv.sink == c.rcv.sink
    && d.snd.win.size == p.window && d.snd.win.reports == []
    && TcpMss(d.snd) == Min(c.snd.cfg.tcpMss, Max(1, if mss == 0 then FALLBACK_MSS else mss))
    && |c.snd.trace| < |d.snd.trace| && c.snd.trace <= d.snd.trace
    && var f := d.snd.trace[|c.snd.trace|].frame; f.payload == [] && f.flags == ACK && f.header.ack == Wrap(p.seqNo + 1)
  }

  /** A reverse connection opens exactly by a SYN-ACK that acknowledges its SYN.
      Nothing but that and a reset has an effect before: no data is taken, no
      frame is sent. */
  lemma ReverseOpens(h: Handshake, events: seq<Event>, c: Conn, p: Packet, mss: nat, turns: nat -> Turn, answer: SinkAnswer)
    requires Reaches(h, events, c) && c.snd.cfg.reverse && c.snd.life.state.SynSent? && 0 <= p.window <= MAX_WINDOW && !p.hasRst
    ensures var d := Step(c, Arrives(p, mss, turns, answer));
      if p.hasSyn && p.hasAck && p.ack == SynEnd(c.snd) then LearnedFrom(c, d, p, mss) else d == c
  {
    hide Reaches, ConnOk, Core, LearnedFrom, EstablishReverse;
    ReachedOk(h, events, c);
    OpeningBooksOf(c);
    if p.hasSyn && p.hasAck {
      SynStatus(c, p.ack);
      if p.ack == SynEnd(c.snd) { EstablishLearns(c, p, mss, turns); } else { EstablishWaits(c, p, mss, turns); }
    }
  }

  lemma EstablishWaits(c: Conn, p: Packet, mss: nat, turns: nat -> Turn)
    requires ConnOk(c) && c.snd.life.state.SynSent? && !Acknowledge(c.snd.rtx, p.ack).1.Advanced?
    ensures EstablishReverse(c, p, mss, turns) == c
  {
    OpeningBooksOf(c);
    QueueStatus(c.snd, p.ack);
    SynAcknowledged(c, p.ack);
    hide ConnOk, TrySendConn, SendAck, Synchronize, DropItems, DroppedBytes;
    NothingThrown(c, p.ack);
  }

  lemma NothingThrown(c: Conn, ack: U32)
    requires ConnOk(c) && c.snd.life.state.SynSent?
    ensures !AcknowledgeQueue(c.snd, ack).1.AckThrew?
  {
    OpeningBooksOf(c);
    hide ConnOk, DropItems, DroppedBytes, SequenceDistance;
  }

  lemma EstablishLearns(c: Conn, p: Packet, mss: nat, turns: nat -> Turn)
    requires ConnOk(c) && c.snd.cfg.reverse && c.snd.life.state.SynSent? && 0 <= p.window <= MAX_WINDOW
    requires Acknowledge(c.snd.rtx, p.ack).1.Advanced? && Acknowledge(c.snd.rtx, p.ack).0.segments == []
    ensures LearnedFrom(c, EstablishReverse(c, p, mss, turns), p, mss)
  {
    QueueStatus(c.snd, p.ack);
    OpeningBooksOf(c);
    SynAcknowledged(c, p.ack);
    QueueLeavesRest(c.snd, p.ack);
    var s := AcknowledgeQueue(c.snd, p.ack).0;
    var m := Synchronize(c, s, p, mss);
    SynchronizeOk(c, s, p, mss);
    hide ConnOk, TrySendConn, SendAck, AcknowledgeQueue, Core, Base, Mid, RecoveryHasData;
    SendAckOk(m);
    BareIsOneFrame(m.snd, HeaderOf(m), ACK);
    SendAckIs(m);
    TrySendCarries(SendAck(m), turns);
    DrainsAppend(SendAck(m), SendAck(m), turns);
    HandshakeOfConn(TrySendConn(SendAck(m), turns));
    SegmentSize(m, c, mss);
  }

  lemma SendAckIs(m: Conn)
    ensures SendAck(m) == ClearAck(m).(snd := TransmitBare(m.snd, HeaderOf(m), ACK))
  {
    hide TransmitBare;
  }

  lemma QueueLeavesRest(s: Sender, ack: U32)
    ensures var t := AcknowledgeQueue(s, ack).0;
      t.trace == s.trace && t.cfg == s.cfg && t.win == s.win
  {
    hide Acknowledge;
  }

  lemma SegmentSize(m: Conn, c: Conn, mss: nat)
    requires 536 <= m.snd.cfg.tcpMss == c.snd.cfg.tcpMss
    requires m.snd.sendMss == Min(m.snd.cfg.tcpMss, if mss == 0 then FALLBACK_MSS else mss)
    ensures TcpMss(m.snd) == Min(c.snd.cfg.tcpMss, Max(1, if mss == 0 then FALLBACK_MSS else mss))
  {
  }

  /** Once it is open, a repeated SYN-ACK is only acknowledged again. */
  lemma RepeatedSynAckIsAnswered(h: Handshake, events: seq<Event>, c: Conn, p: Packet, mss: nat, turns: nat -> Turn, answer: SinkAnswer)
    requires Reaches(h, events, c) && c.snd.cfg.reverse && c.snd.life.current && InDataState(c.snd)
    requires p.hasSyn && p.hasAck && !p.hasRst
    ensures var d := Step(c, Arrives(p, mss, turns, answer));
      Answered(c, d) && d.rcv == c.rcv && d.snd == c.snd.(trace := d.snd.trace)
  {
    hide Reaches, SendAck, Answered;
    SendAckAnswers(c);
    SendAckIs(c);
    BareIsOneFrame(c.snd, HeaderOf(c), ACK);
    hide TransmitBare;
  }

  // ----- connections the VM opens -----

  /** The VM's repeated SYN gets the SYN-ACK again, and only while it is not
      acknowledged. */
  lemma RepeatedSynIsAnswered(h: Handshake, events: seq<Event>, c: Conn, p: Packet, mss: nat, turns: nat -> Turn, answer: SinkAnswer)
    requires Reaches(h, events, c) && !c.snd.cfg.reverse && c.snd.life.current && p.hasSyn && !p.hasAck
    ensures var d := Step(c, Arrives(p, mss, turns, answer));
      && d.rcv == c.rcv && d.snd.log == c.snd.log && d.snd.life == c.snd.life
      && if c.snd.life.state.SynSent? then ResentOldest(d.snd, c.snd.trace, HeaderOf(c), c.snd.rtx.sndUna) else d == c
  {
    hide Reaches, ConnOk, Core, ResentOldest, SendPath.FastRetransmit;
    ReachedOk(h, events, c);
    if c.snd.life.state.SynSent? {
      OpeningBooksOf(c);
      FastResends(c.snd, HeaderOf(c));
      FastRetransmitLife(c.snd, HeaderOf(c));
      ResentWithCount(SendPath.FastRetransmit(c.snd, HeaderOf(c)), c.snd.trace, HeaderOf(c), c.snd.rtx.sndUna);
    }
  }

  lemma FastRetransmitLife(s: Sender, header: Header)
    ensures SendPath.FastRetransmit(s, header).life == s.life
  {
    hide Frames, Stamp, Retransmission.FastRetransmit;
  }

  lemma ResentWithCount(t: Sender, trace: seq<Emission>, header: Header, ack: U32)
    requires ResentOldest(SetDuplicates(t, 0), trace, header, ack)
    ensures ResentOldest(t, trace, header, ack)
  {
    hide Frames, Stamp, SegmentItems, Wrap;
  }

  lemma FastKeepsLog(s: Sender, header: Header)
    ensures SendPath.FastRetransmit(s, header).log == s.log
  {
    hide Frames, Stamp, Retransmission.FastRetransmit;
  }

  /** The acknowledgement of the SYN-ACK, before its data part. */
  lemma OpensWith(c: Conn, p: Packet, turns: nat -> Turn, answer: SinkAnswer)
    requires ConnOk(c) && !c.snd.cfg.reverse && c.snd.life.state.SynSent? && 0 <= p.window <= MAX_WINDOW
    requires Status(c, p).Advanced?
    ensures var (s, status, changed) := ProcessAck(c.snd, HeaderOf(c), p);
      var m := SendAck(c.(snd := WithState(s, Established)));
      var d := AfterAck(m, p, true, changed, turns, answer);
      && !d.snd.life.state.SynSent? && d.snd.log.acked == s.log.acked
      && d.rcv == ReceiveSegment(c.rcv, Capacity(c), p.seqNo, p.payload, p.hasFin, answer)
      && c.snd.trace <= d.snd.trace && |c.snd.trace| < |d.snd.trace|
      && var f := d.snd.trace[|c.snd.trace|].frame; f.payload == [] && f.flags == ACK && f.header == HeaderOf(c)
  {
    hide ConnOk, Core, Base, ProcessAck, TrySendConn, SendAck, DataPart, RecoveryHasData, ReceiveSegment;
    OpeningBooksOf(c);
    AckedConn(c, p);
    var (s, status, changed) := ProcessAck(c.snd, HeaderOf(c), p);
    NothingResent(c, p);
    var e := c.(snd := WithState(s, Established));
    Establishes(s, 0, 0);
    SendAckOk(e);
    hide Mid;
    SendAckIs(e);
    BareIsOneFrame(e.snd, HeaderOf(e), ACK);
    var m := SendAck(e);
    SetDuplicatesOk(m, 0);
    var d := if changed then m.(snd := SetDuplicates(m.snd, 0)) else m;
    TrySendCarries(d, turns);
    DrainsAppend(m, d, turns);
    DataPartOk(TrySendConn(d, turns), p, answer);
    DataPartOnlyAnswers(TrySendConn(d, turns), p, answer);
    StaysOpenAfter(TrySendConn(d, turns), p, answer);
    hide TransmitBare;
  }

  /** The acknowledgement of a SYN puts no frame on the wire. */
  lemma NothingResent(c: Conn, p: Packet)
    requires ConnOk(c) && c.snd.life.state.SynSent? && Status(c, p).Advanced?
    ensures ProcessAck(c.snd, HeaderOf(c), p).0.trace == c.snd.trace
    ensures ProcessAck(c.snd, HeaderOf(c), p).0.life.finSent == false
  {
    OpeningBooksOf(c);
    OkIsSenderOk(c);
    SenderIsCore(c.snd);
    NoRecoveryYet(c.snd);
    hide Core, ConnOk, TransmitOldest, GrowWindow, P.NoteAck, DropItems, DroppedBytes, CountDuplicate, NextWindow;
    StatusOfAck(c.snd, HeaderOf(c), p);
    AcknowledgeQueueKeeps(c.snd, p.ack);
  }

  lemma NoRecoveryYet(s: Sender)
    requires Core(s) && s.life.state.SynSent?
    ensures s.cong.recoveryUntil.None?
  {
    CoreIsBase(s);
    OpenBounds(s);
    hide Core;
  }

  lemma StaysOpenAfter(c: Conn, p: Packet, answer: SinkAnswer)
    requires ConnOk(c) && InDataState(c.snd)
    ensures !DataPart(c, p, answer).snd.life.state.SynSent?
  {
    OkIsSenderOk(c);
    SenderIsCore(c.snd) by { hide SenderOk; }
    HandshakeDone(c.snd);
    DataPartOnlyAnswers(c, p, answer);
    DataPartOk(c, p, answer);
    var d := DataPart(c, p, answer);
    hide DataPart, ConnOk, Core;
    OkIsSenderOk(d);
    SenderIsCore(d.snd) by { hide SenderOk; }
    NotSynSent(d.snd);
  }

  lemma AckKeepsLife(c: Conn, p: Packet)
    requires ConnOk(c) && !c.snd.cfg.reverse && c.snd.life.state.SynSent? && !Status(c, p).Advanced? && 0 <= p.window <= MAX_WINDOW
    ensures var s := ProcessAck(c.snd, HeaderOf(c), p).0; s.life == c.snd.life && s.log == c.snd.log
  {
    OpeningBooksOf(c);
    AckedConn(c, p);
    AckReports(c.snd, HeaderOf(c), p);
    IgnoredOrRepeated(c, p);
    hide ConnOk, ProcessAck;
  }

  lemma IgnoredOrRepeated(c: Conn, p: Packet)
    requires !Status(c, p).Advanced?
    ensures ProcessAck(c.snd, HeaderOf(c), p).0.log.acked == c.snd.log.acked
  {
    hide Frames, Stamp, GrowWindow, RecoveryComplete, DropItems, DroppedBytes, NextWindow, Retransmission.FastRetransmit;
  }

  /** An outbound connection opens exactly by the acknowledgement of its SYN-ACK:
      it is acknowledged at once, and the data and FIN of that packet are taken.
      Before, no packet delivers anything. */
  lemma OutboundOpens(h: Handshake, events: seq<Event>, c: Conn, p: Packet, mss: nat, turns: nat -> Turn, answer: SinkAnswer)
    requires Reaches(h, events, c) && !c.snd.cfg.reverse && c.snd.life.state.SynSent? && 0 <= p.window <= MAX_WINDOW && !p.hasRst
    ensures var d := Step(c, Arrives(p, mss, turns, answer));
      if p.hasAck && p.ack == SynEnd(c.snd) then
        && !d.snd.life.state.SynSent? && d.snd.log.acked == 1
        && d.rcv == ReceiveSegment(c.rcv, Capacity(c), p.seqNo, p.payload, p.hasFin, answer)
        && c.snd.trace <= d.snd.trace && |c.snd.trace| < |d.snd.trace|
        && var f := d.snd.trace[|c.snd.trace|].frame; f.payload == [] && f.flags == ACK && f.header == HeaderOf(c)
      else d.snd.life == c.snd.life && d.rcv == c.rcv && d.snd.log == c.snd.log
  {
    hide Reaches, ConnOk, Core, AfterAck, ProcessAck, SendPath.FastRetransmit, SendAck;
    ReachedOk(h, events, c);
    OpeningBooksOf(c);
    FastRetransmitLife(c.snd, HeaderOf(c));
    FastResends(c.snd, HeaderOf(c)) by { hide ConnOk; }
    FastKeepsLog(c.snd, HeaderOf(c));
    if p.hasAck {
      SynStatus(c, p.ack);
      StatusOfAck(c.snd, HeaderOf(c), p);
      AckedConn(c, p);
      AckReports(c.snd, HeaderOf(c), p);
      if p.ack == SynEnd(c.snd) {
        OpensWith(c, p, turns, answer);
      } else {
        AckKeepsLife(c, p);
      }
    }
  }
}
