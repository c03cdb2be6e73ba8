/** Every event of a connection moves its history forward, whatever the VM
    sends: what was given sequence space or written to the sink stays, closed
    stays closed, and recovery sends nothing new. */
module ConnectionHistory {
  import opened Bytes
  import opened SequenceNumbers
  import opened Retransmission
  import opened SendPath
  import opened SendInvariant
  import opened SendProgress
  import opened SendEvents
  import opened SendHistory
  import opened Reassembly
  import opened ReceivePath
  import opened Connection
  import opened ConnectionProofs
  import P = Pacing

  predicate Receives(c: Conn, d: Conn) {
    c.rcv.sink <= d.rcv.sink && (c.rcv.peerFin ==> d.rcv.peerFin) && (c.finished ==> d.finished)
  }

  /** How any run moves the history. */
  predicate Progresses(c: Conn, d: Conn) { Follows(c.snd, d.snd) && Receives(c, d) }

  /** How any step moves it that does not come from the source. */
  predicate Advances(c: Conn, d: Conn) { Evolves(c.snd, d.snd) && Receives(c, d) }

  lemma ProgressesTrans(c: Conn, d: Conn, e: Conn)
    requires Progresses(c, d) && Progresses(d, e)
    ensures Progresses(c, e)
  {
    FollowsTrans(c.snd, d.snd, e.snd);
    hide Follows;
  }

  lemma AdvancesTrans(c: Conn, d: Conn, e: Conn)
    requires Advances(c, d) && Advances(d, e)
    ensures Advances(c, e)
  {
    EvolvesTrans(c.snd, d.snd, e.snd);
    hide Evolves;
  }

  // ----- the pieces of a handler -----

  lemma SendAckAdvances(c: Conn)
    ensures Advances(c, SendAck(c))
  {
    hide Frames, Stamp;
  }

  lemma ScheduleAckAdvances(c: Conn, segments: nat, immediate: bool)
    ensures Advances(c, ScheduleAck(c, segments, immediate))
  {
    SendAckAdvances(c.(ackPending := c.ackPending + segments));
    hide SendAck;
  }

  lemma AbortAdvances(c: Conn, reset: bool)
    ensures Advances(c, AbortConn(c, reset))
  {
    AbortEvolves(c.snd, HeaderOf(c), reset);
    hide Abort;
  }

  lemma FinishAdvances(c: Conn)
    ensures Advances(c, FinishConn(c))
  {
    hide Close, P.ClosePacer;
  }

  lemma TrySendAdvances(c: Conn, turns: nat -> Turn)
    requires Mid(c)
    ensures Advances(c, TrySendConn(c, turns))
  {
    TrySendEvolves(c.snd, HeaderOf(c), turns);
    hide TrySend;
  }

  /** Only the receiving half changes, and it only delivers. */
  lemma DeliversMore(c: Conn, r: Receiver)
    requires c.rcv.sink <= r.sink && (c.rcv.peerFin ==> r.peerFin)
    ensures Advances(c, c.(rcv := r))
  {
  }

  lemma ReceiveDataDelivers(r: Receiver, capacity: int, seqNo: U32, payload: seq<byte>, answer: SinkAnswer)
    ensures var d := ReceiveData(r, capacity, seqNo, payload, answer).0; r.sink <= d.sink && d.peerFin == r.peerFin
  {
    hide DrainOutOfOrder, BufferOutOfOrder, Classify, Concat;
  }

  lemma StateAdvances(c: Conn, state: TcpState)
    requires !c.snd.life.state.Closed?
    ensures Advances(c, c.(snd := WithState(c.snd, state)))
  {
  }

  lemma TakeFinAdvances(c: Conn)
    requires InDataState(c.snd)
    ensures Advances(c, TakeFin(c))
  {
    hide ScheduleAck, FinishConn, BothDone;
    StateAdvances(c, Closing);
    var a := c.(snd := WithState(c.snd, Closing));
    DeliversMore(a, ReceiveFin(c.rcv));
    var b := a.(rcv := ReceiveFin(c.rcv));
    AdvancesTrans(c, a, b);
    ScheduleAckAdvances(b, 0, true);
    var d := ScheduleAck(b, 0, true);
    AdvancesTrans(c, b, d);
    FinishAdvances(d);
    AdvancesTrans(c, d, FinishConn(d));
    assert b == c.(rcv := ReceiveFin(c.rcv), snd := WithState(c.snd, Closing));
    hide Advances, WithState;
  }

  lemma FinPartAdvances(c: Conn, p: Packet)
    requires InDataState(c.snd)
    ensures Advances(c, FinPart(c, p))
  {
    TakeFinAdvances(c);
    ScheduleAckAdvances(c, 0, true);
    hide TakeFin, ScheduleAck, TakesFin;
  }

  lemma DataPartAdvances(c: Conn, p: Packet, answer: SinkAnswer)
    requires InDataState(c.snd)
    ensures Advances(c, DataPart(c, p, answer))
  {
    hide ReceiveData, ScheduleAck, FinPart, Advances;
    if p.payload == [] {
      FinPartAdvances(c, p);
    } else {
      var (r, arrival, n) := ReceiveData(c.rcv, Capacity(c), p.seqNo, p.payload, answer);
      ReceiveDataDelivers(c.rcv, Capacity(c), p.seqNo, p.payload, answer);
      var d := c.(rcv := r);
      DeliversMore(c, r);
      ScheduleAckAdvances(d, n, false);
      ScheduleAckAdvances(d, 0, true);
      AdvancesTrans(c, d, ScheduleAck(d, n, false));
      AdvancesTrans(c, d, ScheduleAck(d, 0, true));
      if arrival.InOrder? {
        ScheduleAckLife(d, n);
        FinPartAdvances(ScheduleAck(d, n, false), p);
        AdvancesTrans(c, ScheduleAck(d, n, false), FinPart(ScheduleAck(d, n, false), p));
      }
    }
  }

  // ----- the packet handlers -----

  lemma DuplicatesAdvance(c: Conn, n: int)
    ensures Advances(c, c.(snd := SetDuplicates(c.snd, n)))
  {
  }

  lemma AckAdvances(c: Conn, p: Packet)
    requires ConnOk(c) && TakesWindows(c.snd) && c.snd.life.current && 0 <= p.window <= MAX_WINDOW
    ensures Advances(c, c.(snd := ProcessAck(c.snd, HeaderOf(c), p).0))
  {
    ProcessAckEvolves(c.snd, HeaderOf(c), p);
    hide ProcessAck, Evolves;
  }

  lemma SentThenDataAdvances(c: Conn, p: Packet, turns: nat -> Turn, answer: SinkAnswer)
    requires Mid(c) && InDataState(c.snd)
    ensures Advances(c, DataPart(TrySendConn(c, turns), p, answer))
  {
    TrySendConnOk(c, turns);
    TrySendAdvances(c, turns);
    hide DataPart, TrySendConn, Mid, ConnOk, Advances;
    var d := TrySendConn(c, turns);
    DataPartAdvances(d, p, answer);
    AdvancesTrans(c, d, DataPart(d, p, answer));
  }

  lemma AfterAckAdvances(c: Conn, p: Packet, acted: bool, changed: bool, turns: nat -> Turn, answer: SinkAnswer)
    requires Mid(c) && (changed ==> acted)
    ensures Advances(c, AfterAck(c, p, acted, changed, turns, answer))
  {
    hide Mid, DataPart, FinishConn, TrySendConn, BothDone, Advances;
    if InDataState(c.snd) {
      SetDuplicatesOk(c, 0);
      DuplicatesAdvance(c, 0);
      FinishAdvances(c);
      DataPartAdvances(c, p, answer);
      var d := if changed then c.(snd := SetDuplicates(c.snd, 0)) else c;
      if acted {
        SentThenDataAdvances(d, p, turns, answer);
        if changed { AdvancesTrans(c, d, DataPart(TrySendConn(d, turns), p, answer)); }
      }
    } else {
      Unmoved(c);
    }
  }

  lemma Unmoved(c: Conn)
    ensures Advances(c, c) && Progresses(c, c)
  {
  }

  lemma EstablishedAdvances(a: Conn, p: Packet, changed: bool, turns: nat -> Turn, answer: SinkAnswer)
    requires !a.snd.cfg.reverse && !a.snd.wake.sending && FinishedOk(a)
    requires Base(a.snd) && RecoveryHasData(a.snd) && a.snd.life.state.SynSent? && a.snd.log.acked == 1
    ensures Advances(a, AfterAck(SendAck(a.(snd := WithState(a.snd, Established))), p, true, changed, turns, answer))
  {
    var e := a.(snd := WithState(a.snd, Established));
    Establishes(a.snd, 0, 0);
    StateAdvances(a, Established);
    hide AfterAck, Base, Core, SendAck, Advances;
    SendAckOk(e);
    SendAckAdvances(e);
    AdvancesTrans(a, e, SendAck(e));
    AfterAckAdvances(SendAck(e), p, true, changed, turns, answer);
    AdvancesTrans(a, SendAck(e), AfterAck(SendAck(e), p, true, changed, turns, answer));
  }

  lemma OutboundAckAdvances(c: Conn, p: Packet, turns: nat -> Turn, answer: SinkAnswer)
    requires ConnOk(c) && !c.snd.cfg.reverse && c.snd.life.current
    requires 0 <= p.window <= MAX_WINDOW && p.hasAck && !p.hasRst
    ensures Advances(c, HandleOutbound(c, p, turns, answer))
  {
    AckAdvances(c, p);
    AckedConn(c, p);
    Unmoved(c);
    var (s, status, changed) := ProcessAck(c.snd, HeaderOf(c), p);
    var a := c.(snd := s);
    AckedMid(c, a, status.Advanced?);
    hide ConnOk, Mid, AfterAck, ProcessAck, Base, Core, RecoveryHasData, FinishedOk, SendAck, Advances;
    if status.Advanced? && s.life.state.SynSent? {
      if s.rtx.segments == [] {
        EstablishedAdvances(a, p, changed, turns, answer);
        AdvancesTrans(c, a, HandleOutbound(c, p, turns, answer));
      }
    } else if (status.Advanced? || status.Duplicate?) && !s.life.state.SynSent? {
      AfterAckAdvances(a, p, status.Advanced? || changed, changed, turns, answer);
      AdvancesTrans(c, a, HandleOutbound(c, p, turns, answer));
    }
  }

  lemma HandleOutboundAdvances(c: Conn, p: Packet, turns: nat -> Turn, answer: SinkAnswer)
    requires ConnOk(c) && !c.snd.cfg.reverse && 0 <= p.window <= MAX_WINDOW
    ensures Advances(c, HandleOutbound(c, p, turns, answer))
  {
    MidOf(c);
    Unmoved(c);
    FastRetransmitEvolves(c.snd, HeaderOf(c));
    AbortAdvances(c, false);
    hide ConnOk, Mid, AbortConn, AfterAck, ProcessAck, SendPath.FastRetransmit, Evolves;
    if c.snd.life.current {
      if p.hasAck {
        if !p.hasRst { OutboundAckAdvances(c, p, turns, answer); }
      } else {
        AfterAckAdvances(c, p, false, false, turns, answer);
      }
    }
  }

  lemma ReverseAckAdvances(c: Conn, p: Packet, turns: nat -> Turn, answer: SinkAnswer)
    requires ConnOk(c) && c.snd.life.current && InDataState(c.snd) && 0 <= p.window <= MAX_WINDOW
    ensures Advances(c, ReverseAckPart(c, p, turns, answer))
  {
    if !p.hasAck {
      DataPartAdvances(c, p, answer);
    } else {
      AckAdvances(c, p);
      AckedConn(c, p);
      var (s, status, changed) := ProcessAck(c.snd, HeaderOf(c), p);
      var a := c.(snd := s);
      AckedMid(c, a, status.Advanced?);
      hide ConnOk, Mid, ProcessAck, Base, Core, RecoveryHasData, FinishedOk, FinishConn, BothDone, DataPart, DrainTwice, Advances;
      FinishAdvances(a);
      AdvancesTrans(c, a, FinishConn(a));
      if (status.Advanced? && !BothDone(a)) || status.Duplicate? {
        SendTwiceAdvances(a, p, status.Advanced?, changed, turns, answer);
        AdvancesTrans(c, a, ReverseAckPart(c, p, turns, answer));
      }
    }
  }

  lemma SendTwiceAdvances(a: Conn, p: Packet, advanced: bool, changed: bool, turns: nat -> Turn, answer: SinkAnswer)
    requires Mid(a) && InDataState(a.snd)
    ensures Advances(a, DataPart(DrainTwice(a, advanced, changed, turns), p, answer))
  {
    hide ConnOk, Mid, DataPart, TrySendConn, Advances;
    TrySendConnOk(a, FirstDrain(turns));
    TrySendAdvances(a, FirstDrain(turns));
    Unmoved(a);
    var d := if advanced then TrySendConn(a, FirstDrain(turns)) else a;
    if advanced { MidOf(d); }
    DuplicatesAdvance(d, 0);
    SetDuplicatesOk(d, 0);
    var e := d.(snd := SetDuplicates(d.snd, 0));
    AdvancesTrans(a, d, e);
    if changed {
      SentThenDataAdvances(e, p, SecondDrain(turns), answer);
      AdvancesTrans(a, e, DataPart(TrySendConn(e, SecondDrain(turns)), p, answer));
    } else {
      DataPartAdvances(d, p, answer);
      AdvancesTrans(a, d, DataPart(d, p, answer));
    }
  }

  lemma EstablishReverseAdvances(c: Conn, p: Packet, mss: nat, turns: nat -> Turn)
    requires ConnOk(c) && c.snd.cfg.reverse && c.snd.life.state.SynSent? && 0 <= p.window <= MAX_WINDOW
    ensures Advances(c, EstablishReverse(c, p, mss, turns))
  {
    SynAcknowledged(c, p.ack);
    SynAckEvolves(c.snd, p.ack);
    OpenFacts(c.snd);
    var (s, status, bytes) := AcknowledgeQueue(c.snd, p.ack);
    var d := Synchronize(c, s, p, mss);
    SynchronizeAdvances(c, s, p, mss);
    hide Base, ConnOk, AcknowledgeQueue, TrySendConn, SendAck, Synchronize, RecoveryHasData, Evolves;
    if status.Advanced? {
      SynchronizeOk(c, s, p, mss);
      SendAckOk(d);
      hide Advances;
      SendAckAdvances(d);
      AdvancesTrans(c, d, SendAck(d));
      TrySendAdvances(SendAck(d), turns);
      AdvancesTrans(c, SendAck(d), TrySendConn(SendAck(d), turns));
    }
  }

  lemma SynAckEvolves(s: Sender, ack: U32)
    requires SenderOk(s) && s.life.state.SynSent?
    ensures Evolves(s, AcknowledgeQueue(s, ack).0)
  {
    SenderIsCore(s);
    RecoveryOff(s);
    hide Acknowledge, SenderOk;
  }

  lemma RecoveryOff(s: Sender)
    requires Core(s) && s.life.state.SynSent?
    ensures s.cong.recoveryUntil.None?
  {
  }

  lemma SynchronizeAdvances(c: Conn, s: Sender, p: Packet, mss: nat)
    requires Evolves(c.snd, s) && !c.snd.life.state.Closed? && !InRecovery(c.snd)
    ensures Advances(c, Synchronize(c, s, p, mss))
  {
    hide Wrap;
  }

  lemma HandleReverseAdvances(c: Conn, p: Packet, mss: nat, turns: nat -> Turn, answer: SinkAnswer)
    requires ConnOk(c) && c.snd.cfg.reverse && 0 <= p.window <= MAX_WINDOW
    ensures Advances(c, HandleReverse(c, p, mss, turns, answer))
  {
    hide ConnOk, AbortConn, EstablishReverse, ReverseAckPart, SendAck, Advances;
    Unmoved(c);
    AbortAdvances(c, false);
    SendAckAdvances(c);
    if c.snd.life.state.SynSent? { EstablishReverseAdvances(c, p, mss, turns); }
    if InDataState(c.snd) && c.snd.life.current { ReverseAckAdvances(c, p, turns, answer); }
  }

  // ----- every event -----

  /** An event that changes the sending half and then drains it. */
  lemma ThenTrySend(c: Conn, s: Sender, turns: nat -> Turn)
    requires Evolves(c.snd, s) && Mid(c.(snd := s))
    ensures Advances(c, TrySendConn(c.(snd := s), turns))
  {
    TrySendAdvances(c.(snd := s), turns);
    hide TrySendConn, Evolves, Mid;
    AdvancesTrans(c, c.(snd := s), TrySendConn(c.(snd := s), turns));
  }

  /** The bytes an event adds to the stream: those of data from the source. */
  function Brings(c: Conn, e: Event): seq<byte> {
    if e.SourceData? && c.snd.life.current then e.data else []
  }

  /** Whether an event reports the end of the source. */
  predicate Ends(c: Conn, e: Event) { e.SourceEnd? && c.snd.life.current && !c.snd.life.state.Closed? }

  /** What an event of the source does: it adds exactly its bytes to the stream,
      or its end. */
  predicate Sources(c: Conn, d: Conn, e: Event) {
    d.snd.log.stream == c.snd.log.stream + Brings(c, e) && d.snd.log.ended == (c.snd.log.ended || Ends(c, e))
  }

  lemma DataAdvances(c: Conn, data: seq<byte>, turns: nat -> Turn)
    requires ConnOk(c) && c.snd.life.current && data != [] && !c.snd.life.finSent
    ensures var d := TakeData(c, data, turns); Progresses(c, d) && Sources(c, d, SourceData(data, turns))
  {
    NotFinished(c);
    hide TrySendConn, Core, SenderOk;
    EnqueueKeeps(c.snd, data);
    var s := Enqueue(c.snd, data);
    assert Follows(c.snd, s);
    TrySendAdvances(c.(snd := s), turns);
    FollowsTrans(c.snd, s, TakeData(c, data, turns).snd);
  }

  lemma EndAdvances(c: Conn, turns: nat -> Turn)
    requires ConnOk(c) && c.snd.life.current && !c.snd.life.state.Closed?
    ensures var d := TakeEnd(c, turns); Progresses(c, d) && Sources(c, d, SourceEnd(turns))
  {
    NotFinished(c);
    hide TrySendConn, Core, SenderOk;
    EndSourceKeeps(c.snd);
    var s := EndSource(c.snd);
    assert Follows(c.snd, s);
    TrySendAdvances(c.(snd := s), turns);
    FollowsTrans(c.snd, s, TakeEnd(c, turns).snd);
  }

  lemma SourceAdvances(c: Conn, e: Event)
    requires ConnOk(c) && Enabled(c, e) && !DataAfterFin(c, e) && (e.SourceData? || e.SourceEnd?)
    ensures Progresses(c, Step(c, e)) && Sources(c, Step(c, e), e)
  {
    hide ConnOk, Follows;
    Unmoved(c);
    if e.SourceData? && c.snd.life.current {
      DataAdvances(c, e.data, e.turns);
    } else if Ends(c, e) {
      EndAdvances(c, e.turns);
    }
    hide TakeData, TakeEnd;
  }

  lemma WakeAdvances(c: Conn, e: Event)
    requires ConnOk(c) && Enabled(c, e) && Wakes(e)
    ensures Advances(c, Step(c, e))
  {
    hide ConnOk, Mid, Step, Woken, TrySendConn;
    StepOfWake(c, e);
    WokenMid(c, e);
    var s := Woken(c.snd, e);
    StillEvolves(c.snd, s);
    if !e.TransportFlushed? { ThenTrySend(c, s, e.turns); }
  }

  lemma RetransmissionAdvances(c: Conn, id: nat, congested: bool, open: bool)
    requires ConnOk(c) && id in c.snd.rtx.live
    ensures Advances(c, Step(c, RetransmissionTimerFires(id, congested, open)))
  {
    hide RetransmissionTimer, Evolves, Core, Wakeful;
    SenderIsCore(c.snd);
    TimerEvolves(c.snd, HeaderOf(c), id, congested, open);
  }

  lemma OtherAdvances(c: Conn, e: Event)
    requires ConnOk(c) && Enabled(c, e) && !e.SourceData? && !e.SourceEnd?
    ensures Advances(c, Step(c, e))
  {
    hide ConnOk, TrySendConn, ScheduleAck, SendAck, AbortConn, HandleReverse, HandleOutbound, RetransmissionTimer;
    match e {
      case Arrives(p, mss, turns, answer) =>
        if c.snd.cfg.reverse { HandleReverseAdvances(c, p, mss, turns, answer); } else { HandleOutboundAdvances(c, p, turns, answer); }
      case RetransmissionTimerFires(id, congested, open) => RetransmissionAdvances(c, id, congested, open);
      case SinkDrains => ScheduleAckAdvances(c.(rcv := c.rcv.(backpressured := false)), 0, true);
      case AckTimerFires => SendAckAdvances(c.(ackTimer := false));
      case Fails(open) => AbortAdvances(c, open);
      case Expires => FinishedIsClosed(c);
      case _ => WakeAdvances(c, e);
    }
  }

  /** Every event moves the history forward: sequence space, the sink and the
      acknowledged part only grow, recovery and closing are respected. The
      stream grows by exactly the data of the source, and by nothing else. */
  lemma StepAdvances(c: Conn, e: Event)
    requires ConnOk(c) && Enabled(c, e) && !DataAfterFin(c, e)
    ensures Progresses(c, Step(c, e)) && Sources(c, Step(c, e), e)
  {
    hide ConnOk, Step, Follows;
    if e.SourceData? || e.SourceEnd? { SourceAdvances(c, e); } else { OtherAdvances(c, e); }
  }

  lemma FinishedIsClosed(c: Conn)
    requires ConnOk(c) && c.finished
    ensures c.snd.life.state.Closed?
  {
  }
}
