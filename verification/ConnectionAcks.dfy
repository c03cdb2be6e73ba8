/** No acknowledgement is ever lost: whatever an open connection has received
    is acknowledged by the last frame it sent, or the delayed-ACK timer is live
    and will acknowledge it. */
module ConnectionAcks {
  import opened Bytes
  import opened SequenceNumbers
  import opened Retransmission
  import opened SendPath
  import opened SendInvariant
  import opened SendEvents
  import opened SendHeaders
  import opened SendHistory
  import opened Reassembly
  import opened ReceivePath
  import opened Connection
  import opened ConnectionProofs
  import opened ConnectionPeer
  import opened ConnectionHistory
  import P = Pacing

  predicate LastAcks(trace: seq<Emission>, ack: U32) { trace != [] && trace[|trace| - 1].frame.header.ack == ack }

  predicate AckOk(c: Conn) {
    !c.snd.life.state.Closed? ==>
      LastAcks(c.snd.trace, c.rcv.buf.vmSeq) || (0 < c.ackPending < c.snd.cfg.ackEvery && c.ackTimer)
  }

  // ----- pieces that acknowledge -----

  lemma SendAckAcks(c: Conn)
    ensures AckOk(SendAck(c)) && LastAcks(SendAck(c).snd.trace, c.rcv.buf.vmSeq)
  {
    BareFrame(c.snd, HeaderOf(c), ACK);
    hide Transmit;
  }

  lemma BareFrame(s: Sender, header: Header, flags: Flags)
    requires !flags.syn
    ensures LastAcks(TransmitBare(s, header, flags).trace, header.ack)
  {
    var frames := Frames([], TcpMss(s), flags, s.relaySeq, HeaderFor(s, flags, header));
    StampOne(|s.log.tracked|, frames[0]);
    assert frames == [frames[0]];
  }

  /** Asking for an acknowledgement, now or for at least one segment, gets one
      sent or its timer armed. */
  lemma ScheduleAckAcks(c: Conn, segments: nat, immediate: bool)
    requires immediate || segments > 0
    ensures AckOk(ScheduleAck(c, segments, immediate))
  {
    SendAckAcks(c.(ackPending := c.ackPending + segments));
    hide SendAck;
  }

  // ----- pieces that leave it as it is -----

  /** A frame sent meanwhile acknowledges everything received. */
  lemma QuietAcks(c: Conn, d: Conn)
    requires AckOk(c) && Quiet(c, d) && (c.snd.life.state.Closed? ==> d.snd.life.state.Closed?)
    requires d.snd.life.state.Closed? || (d.ackPending == c.ackPending && d.ackTimer == c.ackTimer)
    ensures AckOk(d)
  {
    if !d.snd.life.state.Closed? && |d.snd.trace| == |c.snd.trace| { assert d.snd.trace == c.snd.trace; }
  }

  lemma TrySendAcks(c: Conn, turns: nat -> Turn)
    requires Mid(c) && AckOk(c)
    ensures AckOk(TrySendConn(c, turns))
  {
    TrySendQuiet(c, turns);
    TrySendAdvances(c, turns);
    SameAckFields(c, turns);
    hide TrySendConn, Mid, AckOk, Grows;
    QuietAcks(c, TrySendConn(c, turns));
  }

  lemma SameAckFields(c: Conn, turns: nat -> Turn)
    ensures TrySendConn(c, turns).ackPending == c.ackPending && TrySendConn(c, turns).ackTimer == c.ackTimer
  {
    hide TrySend;
  }

  /** Only the sending half changes, without a new frame. */
  lemma SilentAcks(c: Conn, s: Sender)
    requires AckOk(c) && s.trace == c.snd.trace && s.cfg == c.snd.cfg
    requires c.snd.life.state.Closed? ==> s.life.state.Closed?
    ensures AckOk(c.(snd := s))
  {
  }

  /** Ending closes the connection, or leaves a forgotten one alone. */
  lemma EndingAcks(c: Conn, reset: bool)
    requires AckOk(c)
    ensures AckOk(AbortConn(c, reset)) && AckOk(FinishConn(c))
  {
    hide TransmitBare, Close, P.ClosePacer;
  }

  // ----- a packet's data and FIN -----

  lemma FinPartAcks(c: Conn, p: Packet)
    requires AckOk(c)
    ensures AckOk(FinPart(c, p))
  {
    hide ScheduleAck, FinishConn, BothDone, TakesFin, AckOk;
    ScheduleAckAcks(c, 0, true);
    var d := c.(rcv := ReceiveFin(c.rcv), snd := WithState(c.snd, Closing));
    ScheduleAckAcks(d, 0, true);
    EndingAcks(ScheduleAck(d, 0, true), false);
  }

  lemma DataPartAcks(c: Conn, p: Packet, answer: SinkAnswer)
    requires AckOk(c)
    ensures AckOk(DataPart(c, p, answer))
  {
    hide ScheduleAck, FinPart, AckOk, Deliver, Classify, BufferOutOfOrder;
    if p.payload == [] {
      FinPartAcks(c, p);
    } else {
      var (r, arrival, n) := ReceiveData(c.rcv, Capacity(c), p.seqNo, p.payload, answer);
      if arrival.InOrder? {
        DeliverCounts(c.rcv, arrival.payload, answer);
        ScheduleAckAcks(c.(rcv := r), n, false);
        FinPartAcks(ScheduleAck(c.(rcv := r), n, false), p);
      } else {
        ScheduleAckAcks(c.(rcv := r), 0, true);
      }
    }
  }

  lemma DeliverCounts(r: Receiver, payload: seq<byte>, answer: SinkAnswer)
    ensures Deliver(r, payload, answer).1 >= 1
  {
    hide DrainOutOfOrder;
  }

  // ----- the packet handlers -----

  lemma AckPartAcks(c: Conn, p: Packet)
    requires ConnOk(c) && AckOk(c) && TakesWindows(c.snd) && c.snd.life.current && 0 <= p.window <= MAX_WINDOW
    ensures AckOk(c.(snd := ProcessAck(c.snd, HeaderOf(c), p).0))
  {
    AckQuiet(c, p);
    AckAdvances(c, p);
    hide ProcessAck, ConnOk, AckOk, Grows;
    QuietAcks(c, c.(snd := ProcessAck(c.snd, HeaderOf(c), p).0));
  }

  lemma AfterAckAcks(c: Conn, p: Packet, acted: bool, changed: bool, turns: nat -> Turn, answer: SinkAnswer)
    requires AckOk(c) && Mid(c) && (changed ==> acted)
    ensures AckOk(AfterAck(c, p, acted, changed, turns, answer))
  {
    SilentAcks(c, SetDuplicates(c.snd, 0));
    SetDuplicatesOk(c, 0);
    hide Mid, AckOk, DataPart, FinishConn, TrySendConn, BothDone;
    EndingAcks(c, false);
    var d := if changed then c.(snd := SetDuplicates(c.snd, 0)) else c;
    TrySendAcks(d, turns);
    DataPartAcks(TrySendConn(d, turns), p, answer);
    DataPartAcks(d, p, answer);
  }

  lemma HandleOutboundAcks(c: Conn, p: Packet, turns: nat -> Turn, answer: SinkAnswer)
    requires ConnOk(c) && AckOk(c) && !c.snd.cfg.reverse && 0 <= p.window <= MAX_WINDOW
    ensures AckOk(HandleOutbound(c, p, turns, answer))
  {
    MidOf(c);
    ResendQuiet(c);
    FastRetransmitEvolves(c.snd, HeaderOf(c));
    hide ConnOk, Mid, AckOk, AbortConn, AfterAck, ProcessAck, SendPath.FastRetransmit, Grows;
    EndingAcks(c, false);
    QuietAcks(c, c.(snd := SendPath.FastRetransmit(c.snd, HeaderOf(c))));
    AfterAckAcks(c, p, false, false, turns, answer);
    if c.snd.life.current && p.hasAck && !p.hasRst { OutboundAckAcks(c, p, turns, answer); }
  }

  lemma OutboundAckAcks(c: Conn, p: Packet, turns: nat -> Turn, answer: SinkAnswer)
    requires ConnOk(c) && AckOk(c) && !c.snd.cfg.reverse && c.snd.life.current
    requires 0 <= p.window <= MAX_WINDOW && p.hasAck && !p.hasRst
    ensures AckOk(HandleOutbound(c, p, turns, answer))
  {
    AckedConn(c, p);
    var (s, status, changed) := ProcessAck(c.snd, HeaderOf(c), p);
    var a := c.(snd := s);
    AckedMid(c, a, status.Advanced?);
    hide ConnOk, Mid, AckOk, AfterAck, ProcessAck, Base, Core, RecoveryHasData, FinishedOk, SendAck;
    AckPartAcks(c, p);
    if status.Advanced? && s.life.state.SynSent? {
      if s.rtx.segments == [] {
        EstablishedMidOk(a);
        SendAckAcks(a.(snd := WithState(s, Established)));
        AfterAckAcks(SendAck(a.(snd := WithState(s, Established))), p, true, changed, turns, answer);
      }
    } else if (status.Advanced? || status.Duplicate?) && !s.life.state.SynSent? {
      AfterAckAcks(a, p, status.Advanced? || changed, changed, turns, answer);
    }
  }

  lemma EstablishedMidOk(a: Conn)
    requires !a.snd.cfg.reverse && !a.snd.wake.sending && FinishedOk(a)
    requires Base(a.snd) && RecoveryHasData(a.snd) && a.snd.life.state.SynSent? && a.snd.log.acked == 1
    ensures Mid(SendAck(a.(snd := WithState(a.snd, Established))))
  {
    hide Core, Base, SendAck;
    Establishes(a.snd, 0, 0);
    SendAckOk(a.(snd := WithState(a.snd, Established)));
  }

  lemma ReverseAckAcks(c: Conn, p: Packet, turns: nat -> Turn, answer: SinkAnswer)
    requires ConnOk(c) && AckOk(c) && c.snd.life.current && InDataState(c.snd) && 0 <= p.window <= MAX_WINDOW
    ensures AckOk(ReverseAckPart(c, p, turns, answer))
  {
    DataPartAcks(c, p, answer);
    if p.hasAck {
      AckedConn(c, p);
      var (s, status, changed) := ProcessAck(c.snd, HeaderOf(c), p);
      var a := c.(snd := s);
      AckedMid(c, a, status.Advanced?);
      hide ConnOk, Mid, AckOk, ProcessAck, Base, Core, RecoveryHasData, FinishedOk, FinishConn, BothDone, DataPart, DrainTwice;
      AckPartAcks(c, p);
      EndingAcks(a, false);
      if (status.Advanced? && !BothDone(a)) || status.Duplicate? {
        SendTwiceAcks(a, p, status.Advanced?, changed, turns, answer);
      }
    }
  }

  lemma SendTwiceAcks(a: Conn, p: Packet, advanced: bool, changed: bool, turns: nat -> Turn, answer: SinkAnswer)
    requires Mid(a) && AckOk(a)
    ensures AckOk(DataPart(DrainTwice(a, advanced, changed, turns), p, answer))
  {
    hide ConnOk, Mid, DataPart, TrySendConn;
    TrySendConnOk(a, FirstDrain(turns));
    TrySendAcks(a, FirstDrain(turns));
    var d := if advanced then TrySendConn(a, FirstDrain(turns)) else a;
    if advanced { MidOf(d); }
    SilentAcks(d, SetDuplicates(d.snd, 0));
    SetDuplicatesOk(d, 0);
    hide AckOk;
    TrySendAcks(d.(snd := SetDuplicates(d.snd, 0)), SecondDrain(turns));
    DataPartAcks(DrainTwice(a, advanced, changed, turns), p, answer);
  }

  lemma EstablishReverseAcks(c: Conn, p: Packet, mss: nat, turns: nat -> Turn)
    requires ConnOk(c) && AckOk(c) && c.snd.cfg.reverse && c.snd.life.state.SynSent? && 0 <= p.window <= MAX_WINDOW
    ensures AckOk(EstablishReverse(c, p, mss, turns))
  {
    SynAcknowledged(c, p.ack);
    SenderIsCore(c.snd);
    QueueQuiet(c, p.ack);
    var (s, status, bytes) := AcknowledgeQueue(c.snd, p.ack);
    SilentQueue(c, p.ack);
    hide AckOk, Core, Base, ConnOk, AcknowledgeQueue, TrySendConn, SendAck, Synchronize, RecoveryHasData;
    if status.Advanced? {
      var d := Synchronize(c, s, p, mss);
      SynchronizeOk(c, s, p, mss);
      SendAckOk(d);
      SendAckAcks(d);
      TrySendAcks(SendAck(d), turns);
    }
  }

  lemma SilentQueue(c: Conn, ack: U32)
    requires AckOk(c)
    ensures AckOk(c.(snd := AcknowledgeQueue(c.snd, ack).0))
  {
    hide Acknowledge;
  }

  lemma HandleReverseAcks(c: Conn, p: Packet, mss: nat, turns: nat -> Turn, answer: SinkAnswer)
    requires ConnOk(c) && AckOk(c) && c.snd.cfg.reverse && 0 <= p.window <= MAX_WINDOW
    ensures AckOk(HandleReverse(c, p, mss, turns, answer))
  {
    hide ConnOk, AckOk, AbortConn, EstablishReverse, ReverseAckPart, SendAck;
    EndingAcks(c, false);
    SendAckAcks(c);
    if c.snd.life.state.SynSent? { EstablishReverseAcks(c, p, mss, turns); }
    if InDataState(c.snd) && c.snd.life.current { ReverseAckAcks(c, p, turns, answer); }
  }

  // ----- every event -----

  lemma ThenTrySendAcks(c: Conn, s: Sender, turns: nat -> Turn)
    requires AckOk(c) && s.trace == c.snd.trace && s.cfg == c.snd.cfg && Mid(c.(snd := s))
    requires c.snd.life.state.Closed? ==> s.life.state.Closed?
    ensures AckOk(TrySendConn(c.(snd := s), turns))
  {
    SilentAcks(c, s);
    hide TrySendConn, Mid, AckOk;
    TrySendAcks(c.(snd := s), turns);
  }

  lemma SourceAcks(c: Conn, e: Event)
    requires ConnOk(c) && AckOk(c) && Enabled(c, e) && !DataAfterFin(c, e) && (e.SourceData? || e.SourceEnd?)
    ensures AckOk(Step(c, e))
  {
    if (e.SourceData? && c.snd.life.current) || !c.snd.life.state.Closed? { NotFinished(c); }
    hide TrySendConn, Core, SenderOk, AckOk;
    match e {
      case SourceData(data, turns) =>
        if c.snd.life.current {
          EnqueueKeeps(c.snd, data);
          ThenTrySendAcks(c, Enqueue(c.snd, data), turns);
        }
      case SourceEnd(turns) =>
        if c.snd.life.current && !c.snd.life.state.Closed? {
          EndSourceKeeps(c.snd);
          ThenTrySendAcks(c, EndSource(c.snd), turns);
        }
    }
  }

  lemma WakeAcks(c: Conn, e: Event)
    requires ConnOk(c) && AckOk(c) && Enabled(c, e) && Wakes(e)
    ensures AckOk(Step(c, e))
  {
    hide ConnOk, Mid, AckOk, Step, Woken, TrySendConn;
    StepOfWake(c, e);
    WokenMid(c, e);
    SilentAcks(c, Woken(c.snd, e));
    if !e.TransportFlushed? { ThenTrySendAcks(c, Woken(c.snd, e), e.turns); }
  }

  lemma TimerAcks(c: Conn, id: nat, congested: bool, open: bool)
    requires ConnOk(c) && AckOk(c) && id in c.snd.rtx.live
    ensures AckOk(TimeOut(c, id, congested, open))
  {
    SenderIsCore(c.snd);
    LiveTimer(c.snd, id);
    TimerAppends(c.snd, HeaderOf(c), id, congested, open);
    TimerStaysOpen(c.snd, HeaderOf(c), id, congested, open);
    var t := RetransmissionTimer(c.snd, HeaderOf(c), id, congested, open);
    hide RetransmissionTimer, Core, AckOk;
    QuietAcks(c, c.(snd := t));
    if !t.life.current { QuietAcks(c, ClearAck(c).(snd := t)); }
  }

  /** Every event, whatever the VM sends, leaves nothing received without an
      acknowledgement sent or due. */
  lemma StepKeepsAcks(c: Conn, e: Event)
    requires ConnOk(c) && AckOk(c) && Enabled(c, e) && !DataAfterFin(c, e)
    ensures AckOk(Step(c, e))
  {
    hide ConnOk, AckOk, TrySendConn, ScheduleAck, SendAck, AbortConn, HandleReverse, HandleOutbound, TimeOut, TakeData, TakeEnd;
    match e {
      case SourceData(_, _) => SourceAcks(c, e);
      case SourceEnd(_) => SourceAcks(c, e);
      case Arrives(p, mss, turns, answer) =>
        if c.snd.cfg.reverse { HandleReverseAcks(c, p, mss, turns, answer); } else { HandleOutboundAcks(c, p, turns, answer); }
      case RetransmissionTimerFires(id, congested, open) => TimerAcks(c, id, congested, open);
      case SinkDrains => ScheduleAckAcks(c.(rcv := c.rcv.(backpressured := false)), 0, true);
      case AckTimerFires => AckDueAcks(c);
      case Fails(open) => EndingAcks(c, open);
      case Expires =>
        FinishedIsClosed(c);
        SilentAcks(c, c.snd.(life := c.snd.life.(current := false)));
      case _ => WakeAcks(c, e);
    }
  }

  lemma AckDueAcks(c: Conn)
    requires AckOk(c)
    ensures AckOk(AckDue(c))
  {
    hide SendAck;
    SendAckAcks(c.(ackTimer := false));
  }
}
