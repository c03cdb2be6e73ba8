/** A connection whose two FINs are out of the way does not linger: it is finished
    by the very packet that settles the second of them. */
module ConnectionDone {
  import opened Bytes
  import opened Retransmission
  import opened RetransmissionProofs
  import opened SendPath
  import opened SendInvariant
  import opened SendOperations
  import opened SendProgress
  import opened SendEvents
  import opened ReceivePath
  import opened Connection
  import opened ConnectionProofs
  import opened ConnectionPeer
  import opened ConnectionHistory
  import opened ConnectionTheorems
  import opened ConnectionPackets
  import opened ConnectionLoss
  import opened ConnectionOpening
  import P = Pacing

  /** Both FINs done means closed. */
  predicate DoneOk(c: Conn) { BothDone(c) ==> c.snd.life.state.Closed? }

  /** A step of the sending half that finishes nothing by itself. */
  predicate NotDone(s: Sender, t: Sender) {
    || t.life.state.Closed?
    || ((t.life.finSent && t.rtx.segments == [] ==> s.life.finSent && s.rtx.segments == []) && !s.life.state.Closed?)
  }

  lemma TrySendDone(c: Conn, turns: nat -> Turn)
    requires Mid(c) && DoneOk(c)
    ensures DoneOk(TrySendConn(c, turns))
  {
    hide Core, TrySend;
    TrySendConnOk(c, turns);
    TrySendKeeps(c.snd, HeaderOf(c), turns);
  }

  lemma FinishDone(c: Conn)
    requires c.snd.life.current
    ensures DoneOk(FinishConn(c))
  {
  }

  lemma FinPartDone(c: Conn, p: Packet)
    requires DoneOk(c) && c.snd.life.current
    ensures DoneOk(FinPart(c, p))
  {
    hide ScheduleAck, TakesFin;
    ScheduleOnlySends(c, 0, true);
    var m := c.(rcv := ReceiveFin(c.rcv), snd := WithState(c.snd, Closing));
    ScheduleOnlySends(m, 0, true);
    FinishDone(ScheduleAck(m, 0, true));
    hide FinishConn;
  }

  lemma DataPartDone(c: Conn, p: Packet, answer: SinkAnswer)
    requires DoneOk(c) && c.snd.life.current
    ensures DoneOk(DataPart(c, p, answer))
  {
    hide ScheduleAck, FinPart, ReceiveData;
    FinPartDone(c, p);
    if p.payload != [] {
      var (r, arrival, n) := ReceiveData(c.rcv, Capacity(c), p.seqNo, p.payload, answer);
      DataKeepsFin(c.rcv, Capacity(c), p.seqNo, p.payload, answer);
      var m := c.(rcv := r);
      ScheduleOnlySends(m, n, false);
      ScheduleOnlySends(m, 0, true);
      FinPartDone(ScheduleAck(m, n, false), p);
    }
  }

  // ----- packets -----

  lemma RepetitionKeepsSegments(s: Sender, header: Header, p: Packet)
    requires !ProcessAck(s, header, p).1.Advanced?
    ensures ProcessAck(s, header, p).0.rtx.segments == s.rtx.segments
  {
    hide Frames, Stamp, GrowWindow, RecoveryComplete, DropItems, DroppedBytes, NextWindow, P.NoteLoss;
  }

  /** What a packet leaves open after its acknowledgement is not done. */
  lemma AckedDone(c: Conn, p: Packet)
    requires ConnOk(c) && DoneOk(c) && c.snd.life.current && InDataState(c.snd) && 0 <= p.window <= MAX_WINDOW
    requires !Finishes(c, p)
    ensures DoneOk(Acked(c, p))
  {
    if p.hasAck {
      AckedConn(c, p);
      if !Status(c, p).Advanced? { RepetitionKeepsSegments(c.snd, HeaderOf(c), p); }
      hide ConnOk, ProcessAck, Core, Base;
    }
  }

  lemma DrainedDone(c: Conn, p: Packet, turns: nat -> Turn)
    requires ConnOk(c) && DoneOk(c) && c.snd.life.current && InDataState(c.snd) && 0 <= p.window <= MAX_WINDOW
    requires !Finishes(c, p) && (p.hasAck ==> Status(c, p).Advanced? || Status(c, p).Duplicate?)
    ensures DoneOk(Drained(c, p, turns)) && Drained(c, p, turns).snd.life.current
  {
    AckedDone(c, p);
    DrainedIsReady(c, p, turns);
    HandshakeOfConn(Drained(c, p, turns));
    if p.hasAck {
      AckedConn(c, p);
      var (s, status, changed) := ProcessAck(c.snd, HeaderOf(c), p);
      var a := c.(snd := s);
      AckedMid(c, a, status.Advanced?);
      hide ConnOk, Mid, Core, Base, ProcessAck, RecoveryHasData, FinishedOk, TrySendConn, DoneOk, Finishes;
      OnceDone(a, status.Advanced?, changed, turns);
      TwiceDone(a, status.Advanced?, changed, turns);
    }
  }

  lemma OnceDone(a: Conn, advanced: bool, changed: bool, turns: nat -> Turn)
    requires Mid(a) && DoneOk(a)
    ensures var d := if changed then a.(snd := SetDuplicates(a.snd, 0)) else a;
      DoneOk(if advanced || changed then TrySendConn(d, turns) else d)
  {
    hide ConnOk, Mid, TrySendConn;
    SetDuplicatesOk(a, 0);
    TrySendDone(if changed then a.(snd := SetDuplicates(a.snd, 0)) else a, turns);
  }

  lemma TwiceDone(a: Conn, advanced: bool, changed: bool, turns: nat -> Turn)
    requires Mid(a) && DoneOk(a)
    ensures DoneOk(DrainTwice(a, advanced, changed, turns))
  {
    hide ConnOk, Mid, TrySendConn;
    TrySendDone(a, FirstDrain(turns));
    TrySendConnOk(a, FirstDrain(turns));
    var d := if advanced then TrySendConn(a, FirstDrain(turns)) else a;
    if advanced { MidOf(d); }
    SetDuplicatesOk(d, 0);
    TrySendDone(d.(snd := SetDuplicates(d.snd, 0)), SecondDrain(turns));
  }

  lemma PlainDone(c: Conn, p: Packet, mss: nat, turns: nat -> Turn, answer: SinkAnswer)
    requires ConnOk(c) && DoneOk(c) && c.snd.life.current && InDataState(c.snd) && Plain(c, p) && 0 <= p.window <= MAX_WINDOW
    ensures DoneOk(Step(c, Arrives(p, mss, turns, answer)))
  {
    hide ConnOk, Step, DataPart, Drained, DoneOk, FinishConn, Finishes, ProcessAck;
    HandledInParts(c, p, mss, turns, answer);
    if p.hasAck && !Status(c, p).Advanced? && !Status(c, p).Duplicate? {
      NotFinishing(c, p);
      AckedDone(c, p);
    } else if Finishes(c, p) {
      StillCurrent(c, p);
      FinishDone(Acked(c, p));
    } else {
      DrainedDone(c, p, turns);
      DataPartDone(Drained(c, p, turns), p, answer);
    }
  }

  lemma NotFinishing(c: Conn, p: Packet)
    requires ConnOk(c) && c.snd.life.current && InDataState(c.snd) && 0 <= p.window <= MAX_WINDOW
    requires p.hasAck && !Status(c, p).Advanced? && !Status(c, p).Duplicate?
    ensures !Finishes(c, p)
  {
    AckedConn(c, p);
    hide ConnOk, ProcessAck, Core, Base;
  }

  lemma StillCurrent(c: Conn, p: Packet)
    requires ConnOk(c) && c.snd.life.current && InDataState(c.snd) && 0 <= p.window <= MAX_WINDOW
    ensures Acked(c, p).snd.life.current
  {
    if p.hasAck { AckedConn(c, p); }
    hide ConnOk, ProcessAck, Core, Base;
  }

  /** During the handshake no FIN was sent, so nothing can be done. */
  lemma OpeningDone(c: Conn, p: Packet, mss: nat, turns: nat -> Turn, answer: SinkAnswer)
    requires ConnOk(c) && c.snd.life.state.SynSent? && 0 <= p.window <= MAX_WINDOW && !p.hasRst
    ensures DoneOk(Step(c, Arrives(p, mss, turns, answer)))
  {
    hide ConnOk, AfterAck, EstablishReverse, ProcessAck, SendPath.FastRetransmit, SendAck, AbortConn, Core, Base, FinishedOk;
    OpeningBooksOf(c);
    FastRetransmitLife(c.snd, HeaderOf(c));
    if c.snd.cfg.reverse {
      if p.hasSyn && p.hasAck { EstablishDone(c, p, mss, turns); }
    } else if p.hasAck {
      AckedConn(c, p);
      if Status(c, p).Advanced? { OutboundOpensDone(c, p, turns, answer); }
    }
  }

  lemma EstablishDone(c: Conn, p: Packet, mss: nat, turns: nat -> Turn)
    requires ConnOk(c) && c.snd.cfg.reverse && c.snd.life.state.SynSent? && 0 <= p.window <= MAX_WINDOW
    ensures DoneOk(EstablishReverse(c, p, mss, turns))
  {
    OpeningBooksOf(c);
    SynAcknowledged(c, p.ack);
    var (s, status, bytes) := AcknowledgeQueue(c.snd, p.ack);
    var m := Synchronize(c, s, p, mss);
    hide ConnOk, TrySendConn, SendAck, AcknowledgeQueue, Core, Base, Mid, RecoveryHasData;
    if status.Advanced? {
      SynchronizeOk(c, s, p, mss);
      SendAckOk(m);
      SendAckIs(m);
      BareIsOneFrame(m.snd, HeaderOf(m), ACK);
      TrySendDone(SendAck(m), turns) by { hide TransmitBare; }
    }
  }

  lemma OutboundOpensDone(c: Conn, p: Packet, turns: nat -> Turn, answer: SinkAnswer)
    requires ConnOk(c) && !c.snd.cfg.reverse && c.snd.life.state.SynSent? && 0 <= p.window <= MAX_WINDOW
    requires Status(c, p).Advanced?
    ensures var (s, status, changed) := ProcessAck(c.snd, HeaderOf(c), p);
      DoneOk(AfterAck(SendAck(c.(snd := WithState(s, Established))), p, true, changed, turns, answer))
  {
    OpeningBooksOf(c);
    AckedConn(c, p);
    var (s, status, changed) := ProcessAck(c.snd, HeaderOf(c), p);
    hide ConnOk, Core, Base, Mid, ProcessAck, TrySendConn, SendAck, DataPart, RecoveryHasData;
    var e := c.(snd := WithState(s, Established));
    Establishes(s, 0, 0);
    SendAckOk(e);
    SendAckIs(e);
    BareIsOneFrame(e.snd, HeaderOf(e), ACK);
    var m := SendAck(e);
    hide TransmitBare;
    SetDuplicatesOk(m, 0);
    var d := if changed then m.(snd := SetDuplicates(m.snd, 0)) else m;
    TrySendDone(d, turns);
    TrySendCarries(d, turns);
    HandshakeOfConn(TrySendConn(d, turns));
    DataPartDone(TrySendConn(d, turns), p, answer);
  }

  // ----- every event, and runs -----

  lemma ProbeLeavesSomething(s: Sender, header: Header, id: nat, congested: bool)
    requires Core(s) && id in s.rtx.live && TimerBranch(s.rtx, id).SendsProbe?
    ensures var t := ProbeTimer(s, header, id, congested); t.life.finSent && t.rtx.segments == [] ==> s.life.finSent && s.rtx.segments == []
  {
    LiveTimer(s, id);
    OpenFacts(s);
    CoreParts(s);
    BooksOfSender(s);
    hide Core, Base, Sequenced, Consistent, Fire, TimerBranch, TakeQueued, Concat, Transmit;
    FireKeepsCore(s, id, Sent);
    FireKeepsCore(s, id, Backpressured);
    if s.rtx.segments == [] && !congested {
      if s.out.bytes > 0 {
        FirstTaken(s.out.queue);
        var (chunk, left) := TakeQueued(s.out.queue, 1);
        ProbeTrackedBooks(s.(out := s.out.(queue := left)), header, id, chunk, ACK);
      } else {
        ProbeTrackedBooks(SendingFin(s), header, id, [], ACK_FIN);
      }
    }
    hide ProbeTracked;
  }

  lemma BooksOfSender(s: Sender)
    requires Base(s)
    ensures Sequenced(s.rtx, s.log, s.relaySeq) && Consistent(s.log, s.trace)
  {
    hide Sequenced, Consistent;
  }

  lemma TimerDone(c: Conn, id: nat, congested: bool, open: bool)
    requires ConnOk(c) && DoneOk(c) && id in c.snd.rtx.live
    ensures DoneOk(TimeOut(c, id, congested, open))
  {
    hide ConnOk, Core, SenderOk, RetransmissionTimer;
    OkIsSenderOk(c);
    SenderIsCore(c.snd);
    TimerLeavesSomething(c.snd, HeaderOf(c), id, congested, open);
  }

  lemma TimerLeavesSomething(s: Sender, header: Header, id: nat, congested: bool, open: bool)
    requires Core(s) && id in s.rtx.live
    ensures NotDone(s, RetransmissionTimer(s, header, id, congested, open))
  {
    LiveTimer(s, id);
    hide Core, Fire, TransmitBare, ProbeTimer, TransmitOldest, CongestionLoss, TimerBranch;
    match TimerBranch(s.rtx, id) {
      case SendsProbe => ProbeLeavesSomething(s, header, id, congested);
      case Resends =>
        FireKeepsCore(s, id, Sent);
        ResendLeaves(FireQueue(s, id, Sent), header);
      case GiveUp =>
    }
  }

  lemma ResendLeaves(s: Sender, header: Header)
    ensures var t := TransmitOldest(CongestionLoss(s, true), header); t.rtx == s.rtx && t.life == s.life
  {
    hide Frames, Stamp, P.NoteLoss;
  }

  lemma SourceDone(c: Conn, e: Event)
    requires ConnOk(c) && DoneOk(c) && Enabled(c, e) && !AddsAfterFin(c, e) && (e.SourceData? || e.SourceEnd?)
    ensures DoneOk(Step(c, e))
  {
    hide ConnOk, DoneOk, TrySendConn, Core, SenderOk;
    OkIsSenderOk(c);
    if e.SourceData? && c.snd.life.current {
      NotFinished(c);
      EnqueueKeeps(c.snd, e.data);
      EntersDone(c, Enqueue(c.snd, e.data), e.turns);
    } else if e.SourceEnd? && c.snd.life.current && !c.snd.life.state.Closed? {
      NotFinished(c);
      EndSourceKeeps(c.snd);
      EntersDone(c, EndSource(c.snd), e.turns);
    }
  }

  lemma EntersDone(c: Conn, s: Sender, turns: nat -> Turn)
    requires DoneOk(c) && Core(s) && !s.wake.sending && !c.finished
    requires s.rtx == c.snd.rtx && s.life.finSent == c.snd.life.finSent && s.life.state == c.snd.life.state
    ensures DoneOk(TrySendConn(c.(snd := s), turns))
  {
    hide Core, TrySendConn;
    TrySendDone(c.(snd := s), turns);
  }

  lemma WakeDone(c: Conn, e: Event)
    requires ConnOk(c) && DoneOk(c) && Enabled(c, e) && Wakes(e)
    ensures DoneOk(Step(c, e))
  {
    hide ConnOk, Mid, TrySendConn, Step;
    StepOfWake(c, e);
    WokenMid(c, e);
    var m := c.(snd := Woken(c.snd, e));
    hide Woken;
    if !e.TransportFlushed? { TrySendDone(m, e.turns); }
  }

  lemma PacketDone(c: Conn, p: Packet, mss: nat, turns: nat -> Turn, answer: SinkAnswer)
    requires ConnOk(c) && DoneOk(c) && 0 <= p.window <= MAX_WINDOW && !c.snd.life.state.Closed?
    ensures DoneOk(Step(c, Arrives(p, mss, turns, answer)))
  {
    OkIsSenderOk(c);
    SenderIsCore(c.snd) by { hide SenderOk; }
    OpenFacts(c.snd);
    hide ConnOk, Core, DoneOk, AbortConn, HandleOutbound, HandleReverse, SendAck;
    if p.hasRst && (c.snd.cfg.reverse || !p.hasSyn || p.hasAck) {
      AbortDone(c, p, mss, turns, answer);
    } else if c.snd.life.state.SynSent? {
      OpeningPacketDone(c, p, mss, turns, answer);
    } else if Plain(c, p) {
      PlainDone(c, p, mss, turns, answer);
    } else {
      RepeatedDone(c, p, mss, turns, answer);
    }
  }

  lemma OpeningPacketDone(c: Conn, p: Packet, mss: nat, turns: nat -> Turn, answer: SinkAnswer)
    requires ConnOk(c) && c.snd.life.state.SynSent? && 0 <= p.window <= MAX_WINDOW
    requires p.hasRst ==> !c.snd.cfg.reverse && p.hasSyn && !p.hasAck
    ensures DoneOk(Step(c, Arrives(p, mss, turns, answer)))
  {
    OpeningBooksOf(c);
    hide ConnOk;
    if p.hasRst {
      FastRetransmitLife(c.snd, HeaderOf(c));
      hide SendPath.FastRetransmit;
    } else {
      OpeningDone(c, p, mss, turns, answer);
    }
  }

  lemma AbortDone(c: Conn, p: Packet, mss: nat, turns: nat -> Turn, answer: SinkAnswer)
    requires c.snd.life.current && p.hasRst && (c.snd.cfg.reverse || !p.hasSyn || p.hasAck)
    ensures DoneOk(Step(c, Arrives(p, mss, turns, answer)))
  {
  }

  lemma RepeatedDone(c: Conn, p: Packet, mss: nat, turns: nat -> Turn, answer: SinkAnswer)
    requires DoneOk(c) && c.snd.life.current && InDataState(c.snd) && !Plain(c, p)
    requires !(p.hasRst && (c.snd.cfg.reverse || !p.hasSyn || p.hasAck))
    ensures DoneOk(Step(c, Arrives(p, mss, turns, answer)))
  {
    BareIsOneFrame(c.snd, HeaderOf(c), ACK);
    hide TransmitBare;
  }

  lemma StepKeepsDone(c: Conn, e: Event)
    requires ConnOk(c) && DoneOk(c) && Enabled(c, e) && !AddsAfterFin(c, e)
    ensures DoneOk(Step(c, e))
  {
    hide ConnOk, Core, DoneOk, Step, Progresses;
    if c.snd.life.state.Closed? {
      StepAdvances(c, e);
      ClosedStaysDone(c, Step(c, e));
    } else {
      match e {
        case SourceData(_, _) => SourceDone(c, e);
        case SourceEnd(_) => SourceDone(c, e);
        case Arrives(p, mss, turns, answer) => PacketDone(c, p, mss, turns, answer);
        case RetransmissionTimerFires(id, congested, open) => RetransmissionDone(c, id, congested, open);
        case PacerTimerFires(_) => WakeDone(c, e);
        case TransportFlushed => WakeDone(c, e);
        case ImmediateRuns(_) => WakeDone(c, e);
        case RetryTimerFires(_) => WakeDone(c, e);
        case _ => AnswerDone(c, e);
      }
    }
  }

  lemma ClosedStaysDone(c: Conn, d: Conn)
    requires c.snd.life.state.Closed? && Progresses(c, d)
    ensures DoneOk(d)
  {
  }

  lemma RetransmissionDone(c: Conn, id: nat, congested: bool, open: bool)
    requires ConnOk(c) && DoneOk(c) && id in c.snd.rtx.live
    ensures DoneOk(Step(c, RetransmissionTimerFires(id, congested, open)))
  {
    hide ConnOk, TimeOut, DoneOk;
    TimerDone(c, id, congested, open);
  }

  lemma AnswerDone(c: Conn, e: Event)
    requires ConnOk(c) && DoneOk(c) && Enabled(c, e) && (e.SinkDrains? || e.AckTimerFires? || e.Fails? || e.Expires?)
    ensures DoneOk(Step(c, e))
  {
    hide ConnOk, ScheduleAck;
    ScheduleOnlySends(c.(rcv := c.rcv.(backpressured := false)), 0, true);
    BareIsOneFrame(c.snd, HeaderOf(c.(ackTimer := false)), ACK);
    hide TransmitBare;
  }

  lemma {:induction false} RunKeepsDone(c: Conn, events: seq<Event>)
    requires ConnOk(c) && DoneOk(c) && FinLast(c, events)
    ensures DoneOk(Run(c, events))
    decreases |events|
  {
    hide ConnOk, DoneOk, Step, Enabled;
    if events != [] {
      StepKeepsOk(c, events[0]);
      StepKeepsDone(c, events[0]);
      RunKeepsDone(Step(c, events[0]), events[1..]);
    }
  }

  /** A connection is closed as soon as it is done: in no reachable state is one
      open whose peer's FIN was taken and whose own FIN, and with it everything
      else, was acknowledged. */
  lemma DoneIsClosed(h: Handshake, events: seq<Event>, c: Conn)
    requires Reaches(h, events, c) && c.rcv.peerFin && c.snd.life.finSent && c.snd.log.acked == |c.snd.log.tracked|
    ensures c.snd.life.state.Closed?
  {
    hide Handshake.Begin, ConnOk, PeerOk, Run, FinLast, DoneOk, Core, Base;
    ReachedOk(h, events, c);
    BeginOk(h, []);
    BeginNotDone(h);
    RunKeepsDone(h.Begin(), events);
    NothingLeft(c.snd);
    DoneOr(c);
  }

  // ----- what finishing leaves -----

  /** Nothing of a finished connection is armed any more; an outbound one stays in
      its table for a while. */
  predicate Quiet(c: Conn) {
    && c.snd.life.state.Closed? && c.snd.life.current == !c.snd.cfg.reverse
    && !c.ackTimer && c.ackPending == 0 && c.snd.pacer.timer.None? && !c.snd.wake.waiting
  }

  predicate FinishesQuietly(c: Conn, d: Conn) { d.finished && !c.finished ==> Quiet(d) }

  lemma FinishIsQuiet(c: Conn)
    requires c.snd.life.current
    ensures Quiet(FinishConn(c))
  {
    hide Close;
  }

  lemma ScheduleFinishesNothing(c: Conn, n: nat, immediate: bool)
    ensures ScheduleAck(c, n, immediate).finished == c.finished
  {
    hide TransmitBare;
  }

  lemma DataPartQuiet(c: Conn, p: Packet, answer: SinkAnswer)
    requires c.snd.life.current
    ensures FinishesQuietly(c, DataPart(c, p, answer))
  {
    hide ScheduleAck, ReceiveData, TakesFin, FinishConn, Quiet;
    var (r, arrival, n) := ReceiveData(c.rcv, Capacity(c), p.seqNo, p.payload, answer);
    var e := c.(rcv := r);
    ScheduleOnlySends(e, n, false);
    ScheduleFinishesNothing(e, n, false);
    ScheduleFinishesNothing(e, 0, true);
    FinPartQuiet(c, p);
    FinPartQuiet(ScheduleAck(e, n, false), p);
    hide FinPart;
  }

  lemma FinPartQuiet(c: Conn, p: Packet)
    requires c.snd.life.current
    ensures FinishesQuietly(c, FinPart(c, p))
  {
    hide ScheduleAck, TakesFin, FinishConn, Quiet;
    var m := c.(rcv := ReceiveFin(c.rcv), snd := WithState(c.snd, Closing));
    ScheduleFinishesNothing(c, 0, true);
    ScheduleFinishesNothing(m, 0, true);
    ScheduleOnlySends(m, 0, true);
    FinishIsQuiet(ScheduleAck(m, 0, true));
  }

  lemma PlainQuiet(c: Conn, p: Packet, mss: nat, turns: nat -> Turn, answer: SinkAnswer)
    requires ConnOk(c) && c.snd.life.current && InDataState(c.snd) && Plain(c, p) && 0 <= p.window <= MAX_WINDOW
    ensures FinishesQuietly(c, Step(c, Arrives(p, mss, turns, answer)))
  {
    hide ConnOk, Step, DataPart, Drained, FinishConn, Finishes, ProcessAck, Quiet;
    HandledInParts(c, p, mss, turns, answer);
    StillCurrent(c, p);
    FinishIsQuiet(Acked(c, p));
    if p.hasAck ==> Status(c, p).Advanced? || Status(c, p).Duplicate? {
      DrainedIsReady(c, p, turns);
      HandshakeOfConn(Drained(c, p, turns));
      DataPartQuiet(Drained(c, p, turns), p, answer);
    }
  }

  lemma AfterAckQuiet(c: Conn, p: Packet, acted: bool, changed: bool, turns: nat -> Turn, answer: SinkAnswer)
    requires Mid(c) && c.snd.life.current
    ensures FinishesQuietly(c, AfterAck(c, p, acted, changed, turns, answer))
  {
    hide ConnOk, Mid, DataPart, FinishConn, TrySendConn, BothDone, Quiet, DrainFrame;
    FinishIsQuiet(c);
    SetDuplicatesOk(c, 0);
    var d := if changed then c.(snd := SetDuplicates(c.snd, 0)) else c;
    TrySendConnOk(d, turns);
    if InDataState(c.snd) {
      HandshakeOfConn(TrySendConn(d, turns));
      DataPartQuiet(TrySendConn(d, turns), p, answer);
      DataPartQuiet(d, p, answer);
    }
  }

  lemma OpeningQuiet(c: Conn, p: Packet, mss: nat, turns: nat -> Turn, answer: SinkAnswer)
    requires ConnOk(c) && c.snd.life.state.SynSent? && 0 <= p.window <= MAX_WINDOW
    ensures FinishesQuietly(c, Step(c, Arrives(p, mss, turns, answer)))
  {
    hide ConnOk, AfterAck, EstablishReverse, ProcessAck, SendPath.FastRetransmit, SendAck, Quiet, AbortConn;
    AbortFinishesNothing(c, false);
    if c.snd.cfg.reverse {
      EstablishFinishesNothing(c, p, mss, turns);
    } else if p.hasAck {
      OpeningAckKeepsLife(c, p);
      OutboundOpensQuiet(c, p, turns, answer);
    }
  }

  lemma OpeningAckKeepsLife(c: Conn, p: Packet)
    requires ConnOk(c) && !c.snd.cfg.reverse && c.snd.life.state.SynSent? && 0 <= p.window <= MAX_WINDOW
    ensures ProcessAck(c.snd, HeaderOf(c), p).0.life == c.snd.life
  {
    hide ConnOk, Core, Base, ProcessAck;
    OpeningBooksOf(c);
    AckedConn(c, p);
  }

  lemma EstablishFinishesNothing(c: Conn, p: Packet, mss: nat, turns: nat -> Turn)
    ensures EstablishReverse(c, p, mss, turns).finished == c.finished
  {
    hide AcknowledgeQueue, Synchronize, SendAck, TrySend;
    var m := Synchronize(c, AcknowledgeQueue(c.snd, p.ack).0, p, mss);
    SendAckFinishesNothing(m);
    SynchronizeFinishesNothing(c, AcknowledgeQueue(c.snd, p.ack).0, p, mss);
  }

  lemma SynchronizeFinishesNothing(c: Conn, s: Sender, p: Packet, mss: nat)
    ensures Synchronize(c, s, p, mss).finished == c.finished
  {
  }

  lemma OutboundOpensQuiet(c: Conn, p: Packet, turns: nat -> Turn, answer: SinkAnswer)
    requires ConnOk(c) && !c.snd.cfg.reverse && c.snd.life.state.SynSent? && 0 <= p.window <= MAX_WINDOW
    ensures var (s, status, changed) := ProcessAck(c.snd, HeaderOf(c), p);
      status.Advanced? ==>
        FinishesQuietly(c, AfterAck(SendAck(c.(snd := WithState(s, Established))), p, true, changed, turns, answer))
  {
    hide ConnOk, Core, Base, Mid, RecoveryHasData, AfterAck, ProcessAck, SendAck, Quiet;
    OpeningBooksOf(c);
    AckedConn(c, p);
    var (s, status, changed) := ProcessAck(c.snd, HeaderOf(c), p);
    if status.Advanced? {
      var e := c.(snd := WithState(s, Established));
      Establishes(s, 0, 0);
      SendAckFinishesNothing(e);
      MakeMid(e);
      SendAckOk(e);
      AfterAckQuiet(SendAck(e), p, true, changed, turns, answer);
    }
  }

  lemma MakeMid(c: Conn)
    requires Core(c.snd) && !c.snd.wake.sending && FinishedOk(c)
    ensures Mid(c)
  {
  }

  lemma AbortFinishesNothing(c: Conn, reset: bool)
    ensures AbortConn(c, reset).finished == c.finished
  {
    hide Abort;
  }

  lemma SendAckFinishesNothing(c: Conn)
    ensures SendAck(c).finished == c.finished && SendAck(c).snd.life == c.snd.life
  {
    BareIsOneFrame(c.snd, HeaderOf(c), ACK);
    hide TransmitBare;
  }

  /** The event that finishes a connection disarms all of it: the delayed
      acknowledgement, the pacer, the transport waiter and every retransmission
      timer; a reverse one is forgotten, an outbound one stays for a while. */
  lemma FinishingDisarms(h: Handshake, events: seq<Event>, c: Conn, e: Event)
    requires Reaches(h, events, c) && Enabled(c, e) && !AddsAfterFin(c, e) && !c.finished && Step(c, e).finished
    ensures Quiet(Step(c, e)) && Step(c, e).snd.rtx.live == map[]
  {
    hide Reaches, ConnOk, Core, Quiet, Step;
    ReachedOk(h, events, c);
    StepKeepsOk(c, e);
    if e.Arrives? { ArrivalQuiet(c, e.p, e.mss, e.turns, e.answer); } else { OthersFinishNothing(c, e); }
    QuietIsClosed(Step(c, e));
    ClosedIsIdle(Step(c, e));
  }

  lemma OthersFinishNothing(c: Conn, e: Event)
    requires !e.Arrives?
    ensures Step(c, e).finished == c.finished
  {
    hide TrySend, Abort, RetransmissionTimer, TransmitBare, Enqueue, ReceiveWindow;
  }

  lemma QuietIsClosed(c: Conn)
    requires Quiet(c)
    ensures c.snd.life.state.Closed?
  {
  }

  lemma ArrivalQuiet(c: Conn, p: Packet, mss: nat, turns: nat -> Turn, answer: SinkAnswer)
    requires ConnOk(c) && 0 <= p.window <= MAX_WINDOW
    ensures FinishesQuietly(c, Step(c, Arrives(p, mss, turns, answer)))
  {
    hide ConnOk, Quiet, AbortConn, SendAck, ProcessAck, EstablishReverse, ReverseAckPart, AfterAck;
    if c.snd.life.state.SynSent? {
      OpeningQuiet(c, p, mss, turns, answer);
    } else if c.snd.life.current && InDataState(c.snd) && Plain(c, p) {
      PlainQuiet(c, p, mss, turns, answer);
    } else {
      AbortFinishesNothing(c, false);
      SendAckFinishesNothing(c);
      if c.snd.life.current && c.snd.life.state.Closed? { ClosedAckFinishesNothing(c, p, turns, answer); }
    }
  }

  lemma ClosedAckFinishesNothing(c: Conn, p: Packet, turns: nat -> Turn, answer: SinkAnswer)
    requires ConnOk(c) && c.snd.life.current && c.snd.life.state.Closed? && 0 <= p.window <= MAX_WINDOW
    ensures HandleOutbound(c, p, turns, answer).finished == c.finished
  {
    hide ConnOk, ProcessAck, Abort;
    AckKeepsLife(c, p);
  }

  lemma AckKeepsLife(c: Conn, p: Packet)
    requires ConnOk(c) && c.snd.life.current && !c.snd.life.state.SynSent? && 0 <= p.window <= MAX_WINDOW
    ensures ProcessAck(c.snd, HeaderOf(c), p).0.life == c.snd.life
  {
    hide ProcessAck, Core, Base;
    AckedConn(c, p);
  }

  /** An outbound one is forgotten when its time is up, and nothing of it is left. */
  lemma FinishedIsForgotten(h: Handshake, events: seq<Event>, c: Conn)
    requires Reaches(h, events, c) && c.finished
    ensures var d := Step(c, Expires);
      && d.snd.life.state.Closed? && !d.snd.life.current && d.snd.rtx.live == map[] && d.snd.rtx.segments == []
      && d.snd.trace == c.snd.trace && d.snd.log == c.snd.log && d.rcv == c.rcv && d.finished
  {
    hide Reaches, ConnOk;
    ReachedOk(h, events, c);
    FinishedIsComplete(h, events, c);
    StepKeepsOk(c, Expires);
    ClosedIsIdle(Step(c, Expires));
  }

  lemma DoneOr(c: Conn)
    requires DoneOk(c) && c.rcv.peerFin && c.snd.life.finSent && (!c.snd.life.state.Closed? ==> c.snd.rtx.segments == [])
    ensures c.snd.life.state.Closed?
  {
  }

  lemma BeginNotDone(h: Handshake)
    ensures DoneOk(h.Begin())
  {
    OpeningFrame(h);
    hide Frames, Stamp, TrackFrames, ReceiveWindow;
  }

  lemma NothingLeft(s: Sender)
    requires Base(s) && s.log.acked == |s.log.tracked|
    ensures !s.life.state.Closed? ==> s.rtx.segments == []
  {
    if !s.life.state.Closed? {
      Facts(s);
      FlattenLength(s.rtx.segments);
    }
    hide BytesOf, Wire, AllCarry;
  }
}
