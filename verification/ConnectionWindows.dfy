/** The receive window a connection advertises: what it is, and that every frame
    carries it. */
module ConnectionWindows {
  import opened Bytes
  import opened SequenceNumbers
  import opened RetransmissionProofs
  import opened SendPath
  import opened SendInvariant
  import opened SendOperations
  import opened SendEvents
  import opened SendHeaders
  import opened Reassembly
  import opened ReassemblyProofs
  import opened ReceivePath
  import opened Connection
  import opened ConnectionProofs
  import opened ConnectionPeer
  import opened ConnectionTheorems
  import opened ConnectionPackets
  import opened ConnectionLoss

  function Window(c: Conn): int { ReceiveWindow(c.rcv, c.snd.cfg.windowSize) }

  /** The window is closed under backpressure. Otherwise it and the buffered bytes
      make the configured size, as far as 16 bits can say; it is never negative. */
  lemma WindowIsWhatIsLeft(r: Receiver, windowSize: int)
    ensures var w := ReceiveWindow(r, windowSize);
      && 0 <= w <= 0xffff
      && (r.backpressured ==> w == 0)
      && (!r.backpressured && r.buf.bytes <= windowSize ==> w + r.buf.bytes == Min(0xffff + r.buf.bytes, windowSize))
      && (!r.backpressured && r.buf.bytes > windowSize ==> w == 0)
  {
  }

  /** What was advertised is kept: with a consistent peer, every byte of early data
      that lies within the window of the moment is held after the packet, at its
      place, if it was not before. */
  lemma AdvertisedIsKept(h: Handshake, events: seq<Event>, c: Conn, peer: seq<byte>, p: Packet, mss: nat, turns: nat -> Turn,
                         answer: SinkAnswer, i: nat)
    requires Reaches(h, events, c) && PeerSchedule(h.Begin(), peer, events)
    requires c.snd.life.current && InDataState(c.snd) && Plain(c, p) && 0 <= p.window <= MAX_WINDOW && Accepted(c, p)
    requires i < |p.payload| && Classify(c.rcv.buf.vmSeq, p.seqNo, p.payload).Ahead?
    requires Wrap(p.seqNo - c.rcv.buf.vmSeq) + i < Window(c)
    ensures var d := Step(c, Arrives(p, mss, turns, answer));
      var o := Wrap(p.seqNo - c.rcv.buf.vmSeq) + i;
      Occupied(c.rcv.buf, o) || Held(d.rcv.buf, o, p.payload[i]) || (d.finished && c.rcv.peerFin)
  {
    hide Handshake.Begin, Handshake.Valid, ConnOk, PeerOk, Run, FinLast, PeerSchedule, Step, Accepted, Held, Occupied, Ok, Wrap,
         BufferOutOfOrder, Deliver, Outstanding;
    BeginOk(h, peer);
    RunKeepsPeer(h.Begin(), events, peer);
    BufferIsOk(c, peer, SinceOpened(c));
    DataIsTaken(h, events, c, p, mss, turns, answer);
    EarlyIsHeld(c.rcv, Capacity(c), p.seqNo, p.payload, answer, i);
  }

  lemma BufferIsOk(c: Conn, peer: seq<byte>, g: Mark)
    requires PeerOk(c, peer, g)
    ensures Ok(c.rcv.buf, 1, Capacity(c)) && c.rcv.buf.bytes >= 0
  {
    hide Inside, Apart, AcksClimb, HoldsPeer;
  }

  /** New frames that advertise one of two windows. */
  predicate Shows(before: seq<Emission>, after: seq<Emission>, u: int, w: int) {
    before <= after
    && forall i :: |before| <= i < |after| ==> after[i].frame.header.window == u || after[i].frame.header.window == w
  }

  lemma ShowsTrans(a: seq<Emission>, b: seq<Emission>, c: seq<Emission>, u: int, w: int)
    requires Shows(a, b, u, w) && Shows(b, c, u, w)
    ensures Shows(a, c, u, w)
  {
  }

  lemma AdvertisesShows(s: Sender, t: Sender, header: Header, u: int, w: int)
    requires Advertises(s, t, header) && (header.window == u || header.window == w)
    ensures Shows(s.trace, t.trace, u, w)
  {
  }

  /** The SYN is acknowledged in a data state. */
  lemma DataStateNoSyn(s: Sender)
    requires Base(s) && s.log.acked >= 1
    ensures NoSyn(s.rtx)
  {
    if s.rtx.segments != [] && s.rtx.segments[0].flags.syn { SynIsOutstanding(s); }
    hide Base;
  }

  // ----- the pieces of a step -----

  lemma SendAckShows(c: Conn, u: int)
    ensures Shows(c.snd.trace, SendAck(c).snd.trace, u, Window(c))
  {
    BareIsOneFrame(c.snd, HeaderOf(c), ACK);
    hide TransmitBare;
  }

  lemma ScheduleShows(c: Conn, n: nat, immediate: bool, u: int)
    ensures Shows(c.snd.trace, ScheduleAck(c, n, immediate).snd.trace, u, Window(c)) && ScheduleAck(c, n, immediate).rcv == c.rcv
  {
    SendAckShows(c.(ackPending := c.ackPending + n), u);
    hide SendAck;
    SendAckKeepsRest(c.(ackPending := c.ackPending + n));
  }

  lemma SendAckKeepsRest(c: Conn)
    ensures SendAck(c).rcv == c.rcv && SendAck(c).snd.cfg == c.snd.cfg
  {
    BareIsOneFrame(c.snd, HeaderOf(c), ACK);
    hide TransmitBare;
  }

  lemma FinShows(c: Conn, p: Packet, u: int)
    ensures Shows(c.snd.trace, FinPart(c, p).snd.trace, u, Window(c))
    ensures FinPart(c, p).rcv.buf.bytes == c.rcv.buf.bytes && FinPart(c, p).rcv.backpressured == c.rcv.backpressured
  {
    hide ScheduleAck, TakesFin, Wrap;
    ScheduleShows(c, 0, true, u);
    var m := c.(rcv := ReceiveFin(c.rcv), snd := WithState(c.snd, Closing));
    ScheduleShows(m, 0, true, u);
    FinishKeepsFrames(ScheduleAck(m, 0, true));
    hide FinishConn;
  }

  lemma ScheduleKeepsSetup(c: Conn, n: nat, immediate: bool)
    ensures ScheduleAck(c, n, immediate).snd.cfg == c.snd.cfg
  {
    SendAckKeepsRest(c.(ackPending := c.ackPending + n));
    hide SendAck;
  }

  /** The data part's frames advertise the window that holds after it. */
  lemma DataPartShows(c: Conn, p: Packet, answer: SinkAnswer, u: int)
    ensures var d := DataPart(c, p, answer);
      Shows(c.snd.trace, d.snd.trace, u, ReceiveWindow(d.rcv, c.snd.cfg.windowSize))
  {
    hide ScheduleAck, FinPart, ReceiveData, Shows;
    if p.payload == [] {
      FinShows(c, p, u);
    } else {
      var (r, arrival, n) := ReceiveData(c.rcv, Capacity(c), p.seqNo, p.payload, answer);
      var m := c.(rcv := r);
      ScheduleShows(m, n, false, u);
      ScheduleShows(m, 0, true, u);
      ScheduleKeepsSetup(m, n, false);
      FinShows(ScheduleAck(m, n, false), p, u);
      if arrival.InOrder? {
        ShowsTrans(c.snd.trace, ScheduleAck(m, n, false).snd.trace, FinPart(ScheduleAck(m, n, false), p).snd.trace, u, Window(m));
      }
    }
  }

  lemma TrySendShows(c: Conn, turns: nat -> Turn, w: int)
    requires Mid(c) && InDataState(c.snd)
    ensures Shows(c.snd.trace, TrySendConn(c, turns).snd.trace, Window(c), w)
  {
    HandshakeDone(c.snd);
    DataStateNoSyn(c.snd) by { CoreIsBase(c.snd); }
    TrySendAppends(c.snd, HeaderOf(c), turns);
    hide TrySend, Core;
    AdvertisesShows(c.snd, TrySend(c.snd, HeaderOf(c), turns), HeaderOf(c), Window(c), w);
  }

  lemma AckShows(c: Conn, p: Packet, w: int)
    requires ConnOk(c) && c.snd.life.current && InDataState(c.snd) && 0 <= p.window <= MAX_WINDOW
    ensures Shows(c.snd.trace, ProcessAck(c.snd, HeaderOf(c), p).0.trace, Window(c), w)
  {
    AckedStaysNoSyn(c.snd, p) by { OkIsSenderOk(c); SenderIsCore(c.snd); }
    ProcessAckAppends(c.snd, HeaderOf(c), p);
    hide ConnOk, ProcessAck;
    AdvertisesShows(c.snd, ProcessAck(c.snd, HeaderOf(c), p).0, HeaderOf(c), Window(c), w);
  }

  lemma AckedStaysNoSyn(s: Sender, p: Packet)
    requires Core(s) && s.life.current && InDataState(s)
    ensures NoSyn(AcknowledgeQueue(s, p.ack).0.rtx)
  {
    HandshakeDone(s);
    hide Core, Base, AcknowledgeQueue, SameBooks, BytesOf;
    AcknowledgeQueueKeeps(s, p.ack);
    DataStateNoSyn(AcknowledgeQueue(s, p.ack).0);
  }

  lemma OnceShows(a: Conn, advanced: bool, changed: bool, turns: nat -> Turn, w: int)
    requires Mid(a) && InDataState(a.snd)
    ensures var d := if changed then a.(snd := SetDuplicates(a.snd, 0)) else a;
      Shows(a.snd.trace, (if advanced || changed then TrySendConn(d, turns) else d).snd.trace, Window(a), w)
  {
    hide ConnOk, Mid, TrySendConn;
    SetDuplicatesOk(a, 0);
    TrySendShows(if changed then a.(snd := SetDuplicates(a.snd, 0)) else a, turns, w);
  }

  lemma TwiceShows(a: Conn, advanced: bool, changed: bool, turns: nat -> Turn, w: int)
    requires Mid(a) && InDataState(a.snd)
    ensures Shows(a.snd.trace, DrainTwice(a, advanced, changed, turns).snd.trace, Window(a), w)
  {
    hide ConnOk, Mid, TrySendConn, Shows;
    ShowsNothing(a.snd.trace, Window(a), w);
    TrySendShows(a, FirstDrain(turns), w);
    TrySendCarries(a, FirstDrain(turns));
    var d := if advanced then TrySendConn(a, FirstDrain(turns)) else a;
    if advanced { MidOf(d); }
    SetDuplicatesOk(d, 0);
    var e := d.(snd := SetDuplicates(d.snd, 0));
    TrySendShows(e, SecondDrain(turns), w);
    if changed { ShowsTrans(a.snd.trace, d.snd.trace, TrySendConn(e, SecondDrain(turns)).snd.trace, Window(a), w); }
  }

  lemma ShowsNothing(trace: seq<Emission>, u: int, w: int)
    ensures Shows(trace, trace, u, w)
  {
  }

  lemma DrainedShows(c: Conn, p: Packet, turns: nat -> Turn, w: int)
    requires ConnOk(c) && c.snd.life.current && InDataState(c.snd) && 0 <= p.window <= MAX_WINDOW
    requires p.hasAck ==> Status(c, p).Advanced? || Status(c, p).Duplicate?
    ensures Shows(c.snd.trace, Drained(c, p, turns).snd.trace, Window(c), w)
  {
    ShowsNothing(c.snd.trace, Window(c), w);
    if p.hasAck {
      AckedConn(c, p);
      AckShows(c, p, w);
      var (s, status, changed) := ProcessAck(c.snd, HeaderOf(c), p);
      var a := c.(snd := s);
      AckedMid(c, a, status.Advanced?);
      hide ConnOk, Mid, Core, Base, ProcessAck, RecoveryHasData, FinishedOk, TrySendConn, DrainTwice, Shows;
      OnceShows(a, status.Advanced?, changed, turns, w);
      TwiceShows(a, status.Advanced?, changed, turns, w);
      ShowsTrans(c.snd.trace, s.trace, Drained(c, p, turns).snd.trace, Window(c), w);
    }
  }

  lemma PlainShows(c: Conn, p: Packet, mss: nat, turns: nat -> Turn, answer: SinkAnswer)
    requires ConnOk(c) && c.snd.life.current && InDataState(c.snd) && Plain(c, p) && 0 <= p.window <= MAX_WINDOW
    ensures var d := Step(c, Arrives(p, mss, turns, answer)); Shows(c.snd.trace, d.snd.trace, Window(c), Window(d))
  {
    hide ConnOk, Step, DataPart, Drained, ProcessAck, BothDone, Shows, FinishConn;
    var d := Step(c, Arrives(p, mss, turns, answer));
    HandledInParts(c, p, mss, turns, answer);
    if p.hasAck { AckShows(c, p, Window(d)); }
    FinishKeepsFrames(Acked(c, p));
    if !p.hasAck || Status(c, p).Advanced? || Status(c, p).Duplicate? {
      DrainedIsReady(c, p, turns);
      var m := Drained(c, p, turns);
      SameCapacity(c, p, m);
      DrainedShows(c, p, turns, Window(d));
      DataPartShows(m, p, answer, Window(c));
      DataPartOnlyAnswers(m, p, answer);
      if !Finishes(c, p) { ShowsTrans(c.snd.trace, m.snd.trace, d.snd.trace, Window(c), Window(d)); }
    }
  }

  lemma AbortShows(c: Conn, reset: bool)
    ensures var d := AbortConn(c, reset); Shows(c.snd.trace, d.snd.trace, Window(c), Window(d))
  {
    ShowsNothing(c.snd.trace, Window(c), Window(c));
    AbortAppends(c.snd, HeaderOf(c), reset);
    AdvertisesShows(c.snd, Abort(c.snd, HeaderOf(c), reset), HeaderOf(c), Window(c), Window(c));
    AbortKeepsRest(c, reset);
    hide AbortConn, Abort, Shows;
    AbortIsAbort(c, reset);
  }

  lemma AbortKeepsRest(c: Conn, reset: bool)
    ensures Window(AbortConn(c, reset)) == Window(c)
  {
    AbortAppends(c.snd, HeaderOf(c), reset);
    hide Abort;
  }

  lemma AbortIsAbort(c: Conn, reset: bool)
    ensures AbortConn(c, reset).snd == Abort(c.snd, HeaderOf(c), reset)
  {
    hide TransmitBare;
  }

  lemma TimerShows(c: Conn, id: nat, congested: bool, open: bool)
    requires ConnOk(c) && InDataState(c.snd)
    ensures var d := TimeOut(c, id, congested, open); Shows(c.snd.trace, d.snd.trace, Window(c), Window(d))
  {
    var t := RetransmissionTimer(c.snd, HeaderOf(c), id, congested, open);
    ConnNoSyn(c);
    TimerAppends(c.snd, HeaderOf(c), id, congested, open);
    hide ConnOk, RetransmissionTimer;
    AdvertisesShows(c.snd, t, HeaderOf(c), Window(c), Window(c));
  }

  lemma ConnNoSyn(c: Conn)
    requires ConnOk(c) && InDataState(c.snd)
    ensures NoSyn(c.snd.rtx)
  {
    OkIsSenderOk(c);
    SenderIsCore(c.snd);
    HandshakeDone(c.snd);
    hide Core, Base;
    CoreIsBase(c.snd);
    DataStateNoSyn(c.snd);
  }

  /** The events that do not drain. */
  lemma AnswerShows(c: Conn, e: Event)
    requires ConnOk(c) && c.snd.life.current && InDataState(c.snd) && (e.Arrives? ==> !Plain(c, e.p))
    requires e.Arrives? || e.Fails? || e.RetransmissionTimerFires? || e.AckTimerFires? || e.SinkDrains? || e.Expires?
    ensures var d := Step(c, e); Shows(c.snd.trace, d.snd.trace, Window(c), Window(d))
  {
    hide ConnOk, Shows, AbortConn, TimeOut, SendAck, ScheduleAck;
    ShowsNothing(c.snd.trace, Window(c), Window(c));
    AbortShows(c, false);
    SendAckShows(c, Window(c));
    SendAckKeepsRest(c);
    if e.Fails? { AbortShows(c, e.open); }
    if e.RetransmissionTimerFires? { TimerShows(c, e.id, e.congested, e.open); }
    SendAckShows(c.(ackTimer := false), Window(c));
    SendAckKeepsRest(c.(ackTimer := false));
    var m := c.(rcv := c.rcv.(backpressured := false));
    ScheduleShows(m, 0, true, Window(c));
    ScheduleKeepsSetup(m, 0, true);
  }

  /** The events of the source and the wake-ups. */
  lemma DrainShows(c: Conn, e: Event)
    requires ConnOk(c) && Enabled(c, e) && !AddsAfterFin(c, e) && c.snd.life.current && InDataState(c.snd)
    requires e.SourceData? || e.SourceEnd? || Wakes(e)
    ensures var d := Step(c, e); Shows(c.snd.trace, d.snd.trace, Window(c), Window(d))
  {
    hide ConnOk, Mid, Shows, TrySendConn, Enqueue, SenderOk, Core;
    ShowsNothing(c.snd.trace, Window(c), Window(c));
    var s := if e.SourceData? then Enqueue(c.snd, e.data) else if e.SourceEnd? then EndSource(c.snd) else Woken(c.snd, e);
    Entered(c, e, s);
    var m := c.(snd := s);
    if Wakes(e) { StepOfWake(c, e); }
    if !e.TransportFlushed? {
      TrySendShows(m, e.turns, Window(c));
      TrySendCarries(m, e.turns);
    }
  }

  lemma Entered(c: Conn, e: Event, s: Sender)
    requires ConnOk(c) && Enabled(c, e) && !AddsAfterFin(c, e) && c.snd.life.current && InDataState(c.snd)
    requires e.SourceData? || e.SourceEnd? || Wakes(e)
    requires s == if e.SourceData? then Enqueue(c.snd, e.data) else if e.SourceEnd? then EndSource(c.snd) else Woken(c.snd, e)
    ensures Mid(c.(snd := s)) && s.trace == c.snd.trace && s.life.state == c.snd.life.state && s.cfg == c.snd.cfg
  {
    hide Core, SenderOk;
    OkIsSenderOk(c);
    NotFinished(c);
    if e.SourceData? {
      EnqueueKeeps(c.snd, e.data);
    } else if e.SourceEnd? {
      EndSourceKeeps(c.snd);
    } else {
      WokenMid(c, e);
    }
  }

  /** Every frame of a connection in a data state advertises the window that holds
      when it is sent: in every reachable state, the frames of the next event carry
      the window before or the window after it. */
  lemma FramesAdvertiseWindow(h: Handshake, events: seq<Event>, c: Conn, e: Event)
    requires Reaches(h, events, c) && Enabled(c, e) && !AddsAfterFin(c, e) && c.snd.life.current && InDataState(c.snd)
    ensures var d := Step(c, e); Shows(c.snd.trace, d.snd.trace, Window(c), Window(d))
  {
    hide Reaches, ConnOk, Core, Mid, Shows, Window, TrySendConn, AbortConn, HandleReverse, HandleOutbound, RetransmissionTimer, SendAck;
    ReachedOk(h, events, c);
    MidOf(c);
    var d := Step(c, e);
    ShowsNothing(c.snd.trace, Window(c), Window(d));
    if e.Arrives? && Plain(c, e.p) {
      PlainShows(c, e.p, e.mss, e.turns, e.answer);
    } else if e.Arrives? || e.Fails? || e.RetransmissionTimerFires? || e.AckTimerFires? || e.SinkDrains? || e.Expires? {
      AnswerShows(c, e);
    } else {
      DrainShows(c, e);
    }
  }
}
