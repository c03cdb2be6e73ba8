/** What a packet does to a connection, whichever way it was opened: resets,
    acknowledgements, data, FINs, and the answers they get. */
module ConnectionPackets {
  import opened Bytes
  import opened SequenceNumbers
  import opened Retransmission
  import opened RetransmissionProofs
  import opened SendPath
  import opened SendInvariant
  import opened SendOperations
  import opened SendProgress
  import opened SendHeaders
  import opened Reassembly
  import opened ReceivePath
  import opened Connection
  import opened ConnectionProofs
  import opened ConnectionTheorems
  import P = Pacing

  // ----- resets -----

  /** Closed at once: forgotten, with no timer left. */
  predicate ShutDown(c: Conn) {
    && c.snd.life.state.Closed? && !c.snd.life.current && !c.ackTimer
    && c.snd.rtx.live == map[] && c.snd.rtx.segments == [] && c.snd.pacer.timer.None? && !c.snd.wake.waiting
  }

  /** `trace` continues `before` with one frame without payload. */
  predicate OneBareFrame(before: seq<Emission>, trace: seq<Emission>, header: Header, flags: Flags) {
    && |trace| == |before| + 1 && before <= trace
    && var f := trace[|before|].frame; f.payload == [] && f.flags == flags && f.header == header
  }

  lemma BareIsOneFrame(s: Sender, header: Header, flags: Flags)
    requires !flags.syn
    ensures var t := TransmitBare(s, header, flags);
      t == s.(trace := t.trace) && OneBareFrame(s.trace, t.trace, header, flags)
  {
    var f := Frame(s.relaySeq, header, flags, []);
    assert Stamp(|s.log.tracked|, [f]) == [Emission(|s.log.tracked|, f)] by { StampNothing(|s.log.tracked| + FrameLength(f)); }
  }

  /** Aborting closes at once and sends a reset only when asked. */
  lemma AbortShutsDown(c: Conn, reset: bool)
    requires ConnOk(c) && c.snd.life.current
    ensures var d := AbortConn(c, reset);
      && ShutDown(d) && d.snd.log == c.snd.log && d.rcv == c.rcv && d.finished == c.finished
      && (if reset then OneBareFrame(c.snd.trace, d.snd.trace, HeaderOf(c), ACK_RST) else d.snd.trace == c.snd.trace)
  {
    var d := AbortConn(c, reset);
    hide ConnOk, Mid;
    MidOf(c);
    AbortConnOk(c, reset);
    ClosedIsIdle(d) by { AbortCloses(c.snd, HeaderOf(c), reset); }
    BareIsOneFrame(c.snd, HeaderOf(c), ACK_RST);
    hide TransmitBare, Close, OneBareFrame;
  }

  lemma AbortCloses(s: Sender, header: Header, reset: bool)
    requires s.life.current
    ensures Abort(s, header, reset).life.state.Closed?
  {
  }

  lemma ClosedIsIdle(c: Conn)
    requires ConnOk(c) && c.snd.life.state.Closed?
    ensures c.snd.rtx.live == map[] && c.snd.rtx.segments == []
  {
    hide Core;
    OpenFacts(c.snd);
    Facts(c.snd) by { CoreIsBase(c.snd); }
    OneTimer(c.snd.rtx);
    ClosedHoldsNothing(c.snd.rtx);
  }

  lemma ClosedHoldsNothing(q: Queue)
    requires RetransmissionProofs.Valid(q) && q.closed
    ensures q.segments == []
  {
  }

  /** A reset is obeyed: whatever is outstanding or queued, the connection is
      closed and forgotten, its timers are gone, and nothing is sent in reply. The
      handler of outbound connections looks at a SYN without ACK first. */
  lemma ResetShutsDown(h: Handshake, events: seq<Event>, c: Conn, p: Packet, mss: nat, turns: nat -> Turn, answer: SinkAnswer)
    requires Reaches(h, events, c) && c.snd.life.current && p.hasRst
    requires c.snd.cfg.reverse || !p.hasSyn || p.hasAck
    ensures var d := Step(c, Arrives(p, mss, turns, answer));
      ShutDown(d) && d.snd.trace == c.snd.trace && d.snd.log == c.snd.log && d.rcv == c.rcv && d.finished == c.finished
  {
    hide Reaches, ConnOk, AbortConn, ShutDown;
    ReachedOk(h, events, c);
    AbortShutsDown(c, false);
  }

  /** So is a failure of the other side, with a reset to the VM when it can be sent. */
  lemma FailureShutsDown(h: Handshake, events: seq<Event>, c: Conn, open: bool)
    requires Reaches(h, events, c) && c.snd.life.current
    ensures var d := Step(c, Fails(open));
      && ShutDown(d) && d.snd.log == c.snd.log && d.rcv == c.rcv && d.finished == c.finished
      && (if open then OneBareFrame(c.snd.trace, d.snd.trace, HeaderOf(c), ACK_RST) else d.snd.trace == c.snd.trace)
  {
    hide Reaches, ConnOk, AbortConn, ShutDown, OneBareFrame;
    ReachedOk(h, events, c);
    AbortShutsDown(c, open);
  }

  /** A connection no longer in its table is not touched by packets or data. */
  lemma ForgottenIsLeftAlone(c: Conn, e: Event)
    requires !c.snd.life.current && (e.Arrives? || e.SourceData? || e.SourceEnd? || e.SinkDrains? || e.Fails?)
    ensures Step(c, e) == c
  {
  }

  // ----- data and FINs -----

  /** An acknowledgement of all that was received went out last. */
  predicate Answered(c: Conn, d: Conn) {
    && |c.snd.trace| < |d.snd.trace| && c.snd.trace <= d.snd.trace
    && var f := d.snd.trace[|d.snd.trace| - 1].frame; f.payload == [] && f.flags == ACK && f.header == HeaderOf(d)
  }

  lemma SendAckAnswers(c: Conn)
    ensures Answered(c, SendAck(c)) && SendAck(c).rcv == c.rcv
  {
    BareIsOneFrame(c.snd, HeaderOf(c), ACK);
    hide TransmitBare;
  }

  lemma ImmediateAnswers(c: Conn)
    ensures Answered(c, ScheduleAck(c, 0, true)) && ScheduleAck(c, 0, true).rcv == c.rcv
  {
    SendAckAnswers(c.(ackPending := c.ackPending + 0));
    hide SendAck, Answered;
    AnsweredFrom(c, c.(ackPending := c.ackPending + 0), ScheduleAck(c, 0, true));
  }

  lemma AnsweredFrom(c: Conn, m: Conn, d: Conn)
    requires Answered(m, d) && c.snd.trace <= m.snd.trace
    ensures Answered(c, d)
  {
  }

  lemma ScheduleOnlySends(c: Conn, n: nat, immediate: bool)
    ensures var d := ScheduleAck(c, n, immediate); c.snd.trace <= d.snd.trace && d.rcv == c.rcv && d.snd == c.snd.(trace := d.snd.trace)
  {
    BareIsOneFrame(c.snd, HeaderOf(c), ACK);
    BareIsOneFrame(c.snd, HeaderOf(c.(ackPending := c.ackPending + n)), ACK);
    hide TransmitBare;
  }

  lemma FinAnswers(c: Conn, p: Packet)
    requires p.hasFin
    ensures Answered(c, FinPart(c, p))
  {
    hide ScheduleAck;
    ImmediateAnswers(c);
    var m := c.(rcv := ReceiveFin(c.rcv), snd := WithState(c.snd, Closing));
    ImmediateAnswers(m);
    FinishKeepsFrames(ScheduleAck(m, 0, true));
    hide Answered, FinishConn, TakesFin;
    if TakesFin(c.rcv, p.seqNo, p.payload) {
      AnsweredFrom(c, m, ScheduleAck(m, 0, true));
      FinishKeepsAnswer(c, ScheduleAck(m, 0, true));
    }
  }

  lemma FinishKeepsFrames(c: Conn)
    ensures FinishConn(c).snd.trace == c.snd.trace && FinishConn(c).rcv == c.rcv && FinishConn(c).snd.cfg == c.snd.cfg
  {
  }

  lemma FinishKeepsAnswer(c: Conn, d: Conn)
    requires Answered(c, d)
    ensures Answered(c, FinishConn(d))
  {
    FinishKeepsFrames(d);
    hide FinishConn;
  }

  /** A FIN, taken or not, and data that is stale or early are answered at once. */
  lemma DataPartAnswers(c: Conn, p: Packet, answer: SinkAnswer)
    requires p.hasFin || (p.payload != [] && !ReceiveData(c.rcv, Capacity(c), p.seqNo, p.payload, answer).1.InOrder?)
    ensures Answered(c, DataPart(c, p, answer))
  {
    hide FinPart, ScheduleAck, ReceiveData, Answered;
    if p.payload == [] {
      FinAnswers(c, p);
    } else {
      var (r, arrival, n) := ReceiveData(c.rcv, Capacity(c), p.seqNo, p.payload, answer);
      var m := c.(rcv := r);
      if arrival.InOrder? {
        ScheduleOnlySends(m, n, false);
        FinAnswers(ScheduleAck(m, n, false), p);
        AnsweredFrom(c, ScheduleAck(m, n, false), FinPart(ScheduleAck(m, n, false), p));
      } else {
        ImmediateAnswers(m);
        AnsweredFrom(c, m, ScheduleAck(m, 0, true));
      }
    }
  }

  /** When the sink takes data again after having been full, the VM is told at
      once, with the window that is open again. */
  lemma SinkIsResumed(c: Conn)
    ensures var d := Step(c, SinkDrains);
      if c.snd.life.current && c.rcv.backpressured then Answered(c, d) && d.rcv == c.rcv.(backpressured := false) else d == c
  {
    hide ScheduleAck;
    var m := c.(rcv := c.rcv.(backpressured := false));
    ImmediateAnswers(m);
    hide Answered;
    AnsweredFrom(c, m, ScheduleAck(m, 0, true));
  }

  /** Delivering in order makes the sink grow, unless the sink is gone. */
  lemma NothingDelivered(r: Receiver, capacity: int, seqNo: U32, payload: seq<byte>, answer: SinkAnswer)
    requires payload != [] && !answer.Gone? && ReceiveData(r, capacity, seqNo, payload, answer).0.sink == r.sink
    ensures !ReceiveData(r, capacity, seqNo, payload, answer).1.InOrder?
  {
    hide DrainOutOfOrder, BufferOutOfOrder, Concat, Wrap;
  }

  // ----- the parts of a packet handler -----

  /** A packet whose data and FIN are looked at if its acknowledgement is good. */
  predicate Plain(c: Conn, p: Packet) {
    !p.hasRst && (if c.snd.cfg.reverse then !(p.hasSyn && p.hasAck) else !(p.hasSyn && !p.hasAck))
  }

  /** The acknowledgement, if there is one, names something outstanding or
      repeats the last one. */
  ghost predicate Accepted(c: Conn, p: Packet) {
    p.hasAck ==> p.ack == c.snd.rtx.sndUna || exists n: nat :: Outstanding(c.snd, c.snd.log.iss, n, p.ack)
  }

  ghost function Status(c: Conn, p: Packet): AckStatus { ProcessAck(c.snd, HeaderOf(c), p).1 }

  lemma AcceptedStatus(c: Conn, p: Packet)
    requires ConnOk(c) && !c.snd.life.state.Closed? && p.hasAck
    ensures Status(c, p).Advanced? <==> exists n: nat :: Outstanding(c.snd, c.snd.log.iss, n, p.ack)
    ensures Status(c, p).Duplicate? <==> p.ack == c.snd.rtx.sndUna
  {
    var s := c.snd;
    SenderIsCore(s) by { hide SenderOk; OkIsSenderOk(c); }
    StatusOfAck(s, HeaderOf(c), p);
    hide Core, ConnOk, Flatten, Acknowledge, ProcessAck;
    OpenFacts(s);
    OutstandingBound(s);
    Facts(s) by { CoreIsBase(s); }
    AcknowledgeAcceptsExactly(s.rtx, p.ack);
    NamesOutstanding(s, s.log.iss, p.ack);
    AlreadyWrapped(p.ack);
  }

  lemma StatusOfAck(s: Sender, header: Header, p: Packet)
    ensures ProcessAck(s, header, p).1 == Acknowledge(s.rtx, p.ack).1
    ensures Acknowledge(s.rtx, p.ack).1.Duplicate? <==> p.ack == s.rtx.sndUna
  {
    AlreadyWrapped(p.ack);
    hide CongestionAck, CountDuplicate, UpdateWindow, DropItems, DroppedBytes;
  }

  /** The connection after the acknowledgement part, and after the drains. */
  ghost function Acked(c: Conn, p: Packet): Conn {
    if p.hasAck then c.(snd := ProcessAck(c.snd, HeaderOf(c), p).0) else c
  }

  ghost function Drained(c: Conn, p: Packet, turns: nat -> Turn): Conn {
    if !p.hasAck then c
    else
      var (s, status, changed) := ProcessAck(c.snd, HeaderOf(c), p);
      var a := c.(snd := s);
      if c.snd.cfg.reverse then DrainTwice(a, status.Advanced?, changed, turns)
      else
        var d := if changed then a.(snd := SetDuplicates(a.snd, 0)) else a;
        if status.Advanced? || changed then TrySendConn(d, turns) else d
  }

  /** Both FINs are done and the packet was more than a repetition. */
  ghost predicate Finishes(c: Conn, p: Packet) {
    && p.hasAck && BothDone(Acked(c, p))
    && (Status(c, p).Advanced? || (!c.snd.cfg.reverse && ProcessAck(c.snd, HeaderOf(c), p).2))
  }

  /** A packet in a data state: acknowledgement, drains, data and FIN, or the end. */
  lemma HandledInParts(c: Conn, p: Packet, mss: nat, turns: nat -> Turn, answer: SinkAnswer)
    requires ConnOk(c) && c.snd.life.current && InDataState(c.snd) && Plain(c, p) && 0 <= p.window <= MAX_WINDOW
    ensures var d := Step(c, Arrives(p, mss, turns, answer));
      d == if p.hasAck && !Status(c, p).Advanced? && !Status(c, p).Duplicate? then Acked(c, p)
           else if Finishes(c, p) then FinishConn(Acked(c, p))
           else DataPart(Drained(c, p, turns), p, answer)
  {
    if p.hasAck {
      AckedConn(c, p);
      hide ProcessAck, ConnOk, Base, Core, RecoveryHasData, FinishedOk, FinishConn, BothDone, DataPart, TrySendConn, DrainTwice;
    }
  }

  lemma IgnoredAckChanges(c: Conn, p: Packet)
    requires p.hasAck && !Status(c, p).Advanced? && !Status(c, p).Duplicate? && !Status(c, p).AckThrew?
    ensures Acked(c, p) == c
  {
    hide CongestionAck, CountDuplicate, UpdateWindow, DropItems, DroppedBytes;
  }

  // ----- what the parts do -----

  lemma AckReports(s: Sender, header: Header, p: Packet)
    ensures var (t, status, changed) := ProcessAck(s, header, p);
      && t.log == s.log.(acked := t.log.acked)
      && (status.Advanced? || status.Duplicate? ==> t.win == Heard(s.win, Report(p.seqNo, p.ack, p.window)))
      && (status.Advanced? ==> t.log.acked == AcknowledgeQueue(s, p.ack).0.log.acked)
      && (status.Duplicate? ==> t.log.acked == s.log.acked)
  {
    hide Frames, Stamp, GrowWindow, RecoveryComplete, DropItems, DroppedBytes, NextWindow, Retransmission.FastRetransmit, P.NoteAck,
      P.NoteLoss;
  }

  /** The acknowledged prefix ends where the packet's number says. */
  lemma AckReaches(s: Sender, header: Header, p: Packet, n: nat)
    requires Core(s) && s.life.current && !s.rtx.closed && Outstanding(s, s.log.iss, n, p.ack)
    requires Acknowledge(s.rtx, p.ack).1.Advanced?
    ensures AcknowledgeQueue(s, p.ack).0.log.acked == n
    ensures AcknowledgeQueue(s, p.ack).2 == |BytesOf(s.log.tracked[s.log.acked..n])|
  {
    hide Core, Base, BytesOf, SameBooks, Wrap;
    AcknowledgeQueueKeeps(s, p.ack);
    var a := AcknowledgeQueue(s, p.ack).0;
    OutstandingBound(s);
    Facts(a);
    WrapInjective(s.log.iss, a.log.acked, n);
  }

  /** What acknowledging and draining leave to the data part. */
  predicate ReadyForData(c: Conn, p: Packet, m: Conn) {
    // `true ==` makes the conjunction one fact, which a caller proves at once and not clause by clause.
    true == (
    && ConnOk(m) && InDataState(m.snd) && m.rcv == c.rcv && m.finished == c.finished
    && (p.hasAck ==>
          var (s, status, changed) := ProcessAck(c.snd, HeaderOf(c), p);
          && m.snd.cfg == s.cfg && m.snd.win == s.win && m.snd.sendMss == s.sendMss && m.snd.log.acked == s.log.acked
          && SameCongestion(s.cong, m.snd.cong, changed)
          && m.snd.pacer.burstSegments == s.pacer.burstSegments && m.snd.pacer.ackedBytes == s.pacer.ackedBytes)
    && (!p.hasAck ==> m == c))
  }

  lemma DrainedIsReady(c: Conn, p: Packet, turns: nat -> Turn)
    requires ConnOk(c) && c.snd.life.current && InDataState(c.snd) && 0 <= p.window <= MAX_WINDOW
    requires p.hasAck ==> Status(c, p).Advanced? || Status(c, p).Duplicate?
    ensures ReadyForData(c, p, Drained(c, p, turns))
  {
    if p.hasAck {
      AckedConn(c, p);
      var (s, status, changed) := ProcessAck(c.snd, HeaderOf(c), p);
      var a := c.(snd := s);
      AckedMid(c, a, status.Advanced?);
      hide ConnOk, Mid, Core, Base, ProcessAck, RecoveryHasData, FinishedOk, TrySendConn;
      if c.snd.cfg.reverse {
        TwiceIsReady(a, status.Advanced?, changed, turns);
      } else {
        OnceIsReady(a, status.Advanced?, changed, turns);
      }
    }
  }

  /** A drain may end a recovery; a changed window starts the count of duplicates anew. */
  predicate SameCongestion(a: Congestion, b: Congestion, changed: bool) {
    b == a.(recoveryUntil := b.recoveryUntil, dupAckCount := if changed then 0 else a.dupAckCount)
  }

  predicate Carried(a: Conn, m: Conn, changed: bool) {
    && ConnOk(m) && InDataState(m.snd) && m.rcv == a.rcv && m.finished == a.finished
    && m.snd.cfg == a.snd.cfg && m.snd.win == a.snd.win && m.snd.sendMss == a.snd.sendMss && m.snd.log.acked == a.snd.log.acked
    && SameCongestion(a.snd.cong, m.snd.cong, changed)
    && m.snd.pacer.burstSegments == a.snd.pacer.burstSegments && m.snd.pacer.ackedBytes == a.snd.pacer.ackedBytes
  }

  lemma TrySendCarries(a: Conn, turns: nat -> Turn)
    requires Mid(a) && InDataState(a.snd)
    ensures Carried(a, TrySendConn(a, turns), false)
  {
    hide Core, TrySend, ConnOk;
    TrySendConnOk(a, turns);
    TrySendKeeps(a.snd, HeaderOf(a), turns);
  }

  lemma OnceIsReady(a: Conn, advanced: bool, changed: bool, turns: nat -> Turn)
    requires Mid(a) && InDataState(a.snd) && (!advanced && !changed ==> ConnOk(a))
    ensures var d := if changed then a.(snd := SetDuplicates(a.snd, 0)) else a;
      Carried(a, if advanced || changed then TrySendConn(d, turns) else d, changed)
  {
    hide ConnOk, Mid, TrySendConn;
    SetDuplicatesOk(a, 0);
    var d := if changed then a.(snd := SetDuplicates(a.snd, 0)) else a;
    TrySendCarries(d, turns);
  }

  lemma TwiceIsReady(a: Conn, advanced: bool, changed: bool, turns: nat -> Turn)
    requires Mid(a) && InDataState(a.snd) && (!advanced && !changed ==> ConnOk(a))
    ensures Carried(a, DrainTwice(a, advanced, changed, turns), changed)
  {
    hide ConnOk, Mid, TrySendConn;
    TrySendCarries(a, FirstDrain(turns));
    var d := if advanced then TrySendConn(a, FirstDrain(turns)) else a;
    if advanced { MidOf(d); }
    SetDuplicatesOk(d, 0);
    TrySendCarries(d.(snd := SetDuplicates(d.snd, 0)), SecondDrain(turns));
  }

  /** The data part touches the sending half only to answer or to end. */
  predicate OnlyAnswers(m: Conn, d: Conn) {
    && d.snd.log == m.snd.log && d.snd.win == m.snd.win && d.snd.cong == m.snd.cong && d.snd.sendMss == m.snd.sendMss
    && d.snd.out == m.snd.out && d.snd.pacer.burstSegments == m.snd.pacer.burstSegments
    && d.snd.pacer.ackedBytes == m.snd.pacer.ackedBytes && d.snd.pacer.past.sent == m.snd.pacer.past.sent
    && m.snd.trace <= d.snd.trace && d.snd.life.thrown == m.snd.life.thrown
    && (m.finished ==> d.finished) && d.snd.cfg == m.snd.cfg && d.snd.pacer.cfg == m.snd.pacer.cfg
    && (d.snd.wake == m.snd.wake || d.snd.wake == m.snd.wake.(waiting := false))
  }

  lemma ScheduleOnlyAnswers(c: Conn, n: nat, immediate: bool)
    ensures OnlyAnswers(c, ScheduleAck(c, n, immediate))
  {
    BareIsOneFrame(c.snd, HeaderOf(c), ACK);
    hide TransmitBare;
  }

  lemma FinishOnlyAnswers(c: Conn)
    ensures OnlyAnswers(c, FinishConn(c))
  {
  }

  lemma FinOnlyAnswers(c: Conn, p: Packet)
    ensures OnlyAnswers(c, FinPart(c, p))
  {
    hide ScheduleAck, FinishConn, TakesFin;
    ScheduleOnlyAnswers(c, 0, true);
    var m := c.(rcv := ReceiveFin(c.rcv), snd := WithState(c.snd, Closing));
    ScheduleOnlyAnswers(m, 0, true);
    FinishOnlyAnswers(ScheduleAck(m, 0, true));
  }

  lemma DataPartOnlyAnswers(c: Conn, p: Packet, answer: SinkAnswer)
    ensures OnlyAnswers(c, DataPart(c, p, answer))
  {
    hide ScheduleAck, FinPart, ReceiveData;
    FinOnlyAnswers(c, p);
    if p.payload != [] {
      var (r, arrival, n) := ReceiveData(c.rcv, Capacity(c), p.seqNo, p.payload, answer);
      var m := c.(rcv := r);
      ScheduleOnlyAnswers(m, n, false);
      ScheduleOnlyAnswers(m, 0, true);
      FinOnlyAnswers(ScheduleAck(m, n, false), p);
    }
  }

  lemma SameCapacity(c: Conn, p: Packet, m: Conn)
    requires ConnOk(c) && c.snd.life.current && InDataState(c.snd) && 0 <= p.window <= MAX_WINDOW
    requires ReadyForData(c, p, m)
    ensures Capacity(m) == Capacity(c)
  {
    AckedConn(c, p);
    hide ConnOk, ProcessAck, Base, Core;
  }

  lemma EndIsFinished(c: Conn, p: Packet)
    requires ConnOk(c) && c.snd.life.current && InDataState(c.snd) && 0 <= p.window <= MAX_WINDOW && Finishes(c, p)
    ensures FinishConn(Acked(c, p)).finished && FinishConn(Acked(c, p)).rcv == c.rcv && c.rcv.peerFin
  {
    AckedConn(c, p);
    hide ConnOk, ProcessAck, Base, Core;
  }

  // ----- the theorems -----

  /** An acknowledgement that neither names something outstanding nor repeats the
      last one makes the packet be ignored as a whole. */
  lemma BadAckIsIgnored(h: Handshake, events: seq<Event>, c: Conn, p: Packet, mss: nat, turns: nat -> Turn, answer: SinkAnswer)
    requires Reaches(h, events, c) && c.snd.life.current && InDataState(c.snd) && Plain(c, p) && 0 <= p.window <= MAX_WINDOW
    requires !Accepted(c, p)
    ensures Step(c, Arrives(p, mss, turns, answer)) == c
  {
    hide Reaches, ConnOk, Step, Core, Base, Acked, Outstanding;
    ReachedOk(h, events, c);
    AcceptedStatus(c, p);
    NothingThrows(c, p);
    HandledInParts(c, p, mss, turns, answer);
    IgnoredAckChanges(c, p);
  }

  lemma NothingThrows(c: Conn, p: Packet)
    requires ConnOk(c) && TakesWindows(c.snd) && c.snd.life.current && 0 <= p.window <= MAX_WINDOW
    ensures !Status(c, p).AckThrew?
  {
    SenderIsCore(c.snd) by { hide SenderOk; OkIsSenderOk(c); }
    ProcessAckKeeps(c.snd, HeaderOf(c), p);
    hide Core, Base, ProcessAck;
  }

  /** An acknowledgement that names an outstanding item moves the acknowledged
      prefix right behind it. */
  lemma AckIsTaken(h: Handshake, events: seq<Event>, c: Conn, p: Packet, mss: nat, turns: nat -> Turn, answer: SinkAnswer, n: nat)
    requires Reaches(h, events, c) && c.snd.life.current && InDataState(c.snd) && Plain(c, p) && 0 <= p.window <= MAX_WINDOW
    requires p.hasAck && Outstanding(c.snd, c.snd.log.iss, n, p.ack)
    ensures Step(c, Arrives(p, mss, turns, answer)).snd.log.acked == n
  {
    hide Reaches, ConnOk, Step, Core, Base, DataPart, FinishConn, Drained, ProcessAck, BothDone, AcknowledgeQueue;
    ReachedOk(h, events, c);
    AcceptedStatus(c, p);
    HandledInParts(c, p, mss, turns, answer);
    OpenFacts(c.snd);
    StatusOfAck(c.snd, HeaderOf(c), p);
    AckReaches(c.snd, HeaderOf(c), p, n);
    AckReports(c.snd, HeaderOf(c), p);
    DrainedIsReady(c, p, turns);
    DataPartOnlyAnswers(Drained(c, p, turns), p, answer);
    FinishOnlyAnswers(Acked(c, p));
  }

  /** What an accepted acknowledgement says about the window is heard. */
  lemma AckIsHeard(h: Handshake, events: seq<Event>, c: Conn, p: Packet, mss: nat, turns: nat -> Turn, answer: SinkAnswer)
    requires Reaches(h, events, c) && c.snd.life.current && InDataState(c.snd) && Plain(c, p) && 0 <= p.window <= MAX_WINDOW
    requires p.hasAck && Accepted(c, p)
    ensures Step(c, Arrives(p, mss, turns, answer)).snd.win.reports == c.snd.win.reports + [Report(p.seqNo, p.ack, p.window)]
  {
    hide Reaches, ConnOk, Step, Core, Base, DataPart, FinishConn, Drained, ProcessAck, BothDone, Outstanding;
    ReachedOk(h, events, c);
    AcceptedStatus(c, p);
    HandledInParts(c, p, mss, turns, answer);
    AckReports(c.snd, HeaderOf(c), p);
    DrainedIsReady(c, p, turns);
    DataPartOnlyAnswers(Drained(c, p, turns), p, answer);
    FinishOnlyAnswers(Acked(c, p));
  }

  /** Data and FIN of an accepted packet reach the receiving half, unless the
      acknowledgement ended the connection, whose peer was done already. */
  lemma DataIsTaken(h: Handshake, events: seq<Event>, c: Conn, p: Packet, mss: nat, turns: nat -> Turn, answer: SinkAnswer)
    requires Reaches(h, events, c) && c.snd.life.current && InDataState(c.snd) && Plain(c, p) && 0 <= p.window <= MAX_WINDOW
    requires Accepted(c, p)
    ensures var d := Step(c, Arrives(p, mss, turns, answer));
      || d.rcv == ReceiveSegment(c.rcv, Capacity(c), p.seqNo, p.payload, p.hasFin, answer)
      || (d.finished && c.rcv.peerFin && d.rcv == c.rcv)
  {
    hide Reaches, ConnOk, Step, Core, Base, DataPart, Drained, ProcessAck, BothDone, Outstanding, ReceiveSegment;
    ReachedOk(h, events, c);
    if p.hasAck { AcceptedStatus(c, p); }
    HandledInParts(c, p, mss, turns, answer);
    DrainedIsReady(c, p, turns);
    var m := Drained(c, p, turns);
    DataPartOk(m, p, answer);
    SameCapacity(c, p, m);
    if Finishes(c, p) { EndIsFinished(c, p); }
  }

  /** The data is stale or early, or at least none of it got to the sink. */
  predicate Undelivered(c: Conn, d: Conn, p: Packet, answer: SinkAnswer) {
    !Classify(c.rcv.buf.vmSeq, p.seqNo, p.payload).InOrder? || (!answer.Gone? && d.rcv.sink == c.rcv.sink)
  }

  lemma NotInOrder(c: Conn, m: Conn, d: Conn, p: Packet, answer: SinkAnswer)
    requires m.rcv == c.rcv && p.payload != [] && Undelivered(c, d, p, answer)
    requires d.rcv.sink == ReceiveData(m.rcv, Capacity(m), p.seqNo, p.payload, answer).0.sink
    ensures !ReceiveData(m.rcv, Capacity(m), p.seqNo, p.payload, answer).1.InOrder?
  {
    hide Deliver, BufferOutOfOrder, Wrap, SeqLessThan, SeqDiff;
    if !answer.Gone? && d.rcv.sink == c.rcv.sink { NothingDelivered(m.rcv, Capacity(m), p.seqNo, p.payload, answer); }
  }

  /** No data and no FIN of an accepted packet goes unanswered: what is stale,
      early, or a FIN, taken or out of place, gets a pure acknowledgement at once,
      with the number and window that hold after the packet, unless the packet
      ended the connection. So a lost acknowledgement is repeated and a gap makes
      duplicates. */
  lemma PacketIsAnswered(h: Handshake, events: seq<Event>, c: Conn, p: Packet, mss: nat, turns: nat -> Turn, answer: SinkAnswer)
    requires Reaches(h, events, c) && c.snd.life.current && InDataState(c.snd) && Plain(c, p) && 0 <= p.window <= MAX_WINDOW
    requires Accepted(c, p)
    ensures var d := Step(c, Arrives(p, mss, turns, answer));
      p.hasFin || (p.payload != [] && Undelivered(c, d, p, answer)) ==>
        Answered(c, d) || (d.finished && c.rcv.peerFin)
  {
    hide Reaches, ConnOk, Step, Core, Base, DataPart, Drained, ProcessAck, BothDone, Outstanding, ReceiveSegment, Answered, ReceiveData;
    ReachedOk(h, events, c);
    if p.hasAck { AcceptedStatus(c, p); }
    HandledInParts(c, p, mss, turns, answer);
    DrainedIsReady(c, p, turns);
    var m := Drained(c, p, turns);
    SameCapacity(c, p, m);
    DataPartOk(m, p, answer);
    FramesKept(c, p, turns);
    if Finishes(c, p) {
      EndIsFinished(c, p);
    } else {
      PartAnswers(c, m, p, answer);
    }
  }

  /** Is an acknowledgement of `n` more segments to go out at once? */
  predicate AckIsDue(c: Conn, r: Receiver, n: nat) {
    || c.snd.cfg.ackDelayMs == 0 || c.ackPending + n >= c.snd.cfg.ackEvery || ReceiveWindow(r, c.snd.cfg.windowSize) == 0
  }

  /** Data in order is acknowledged at once only if an acknowledgement is due: when
      enough segments wait for one, when the window has closed, or when delaying is
      switched off. Otherwise it is left to the timer. */
  lemma AckIsDelayed(h: Handshake, events: seq<Event>, c: Conn, p: Packet, mss: nat, turns: nat -> Turn, answer: SinkAnswer)
    requires Reaches(h, events, c) && c.snd.life.current && InDataState(c.snd) && Plain(c, p) && 0 <= p.window <= MAX_WINDOW
    requires Accepted(c, p) && p.payload != [] && !p.hasFin
    requires ReceiveData(c.rcv, Capacity(c), p.seqNo, p.payload, answer).1.InOrder?
    ensures var d := Step(c, Arrives(p, mss, turns, answer));
      var (r, arrival, n) := ReceiveData(c.rcv, Capacity(c), p.seqNo, p.payload, answer);
      || (d.finished && c.rcv.peerFin)
      || (if AckIsDue(c, r, n) then Answered(c, d) && d.ackPending == 0 && !d.ackTimer
          else d.ackTimer && d.ackPending == c.ackPending + n)
  {
    hide Reaches, ConnOk, Step, Core, Base, DataPart, Drained, ProcessAck, BothDone, Outstanding, Answered, ReceiveData;
    ReachedOk(h, events, c);
    if p.hasAck { AcceptedStatus(c, p); }
    HandledInParts(c, p, mss, turns, answer);
    DrainedIsReady(c, p, turns);
    var m := Drained(c, p, turns);
    SameCapacity(c, p, m);
    SameSetup(c, p, m);
    DrainKeepsAcks(c, p, turns);
    FramesKept(c, p, turns);
    if Finishes(c, p) { EndIsFinished(c, p); } else { DelayedPart(c, m, p, answer); }
  }

  lemma SameSetup(c: Conn, p: Packet, m: Conn)
    requires ConnOk(c) && c.snd.life.current && InDataState(c.snd) && 0 <= p.window <= MAX_WINDOW && ReadyForData(c, p, m)
    ensures m.snd.cfg == c.snd.cfg
  {
    AckedConn(c, p);
    hide ConnOk, ProcessAck, Base, Core;
  }

  lemma DrainKeepsAcks(c: Conn, p: Packet, turns: nat -> Turn)
    ensures var m := Drained(c, p, turns); m.ackPending == c.ackPending && m.ackTimer == c.ackTimer
  {
    hide ProcessAck, TrySend;
  }

  lemma DelayedPart(c: Conn, m: Conn, p: Packet, answer: SinkAnswer)
    requires p.payload != [] && !p.hasFin && m.rcv == c.rcv && m.snd.cfg == c.snd.cfg && c.snd.trace <= m.snd.trace
    requires m.ackPending == c.ackPending && m.ackTimer == c.ackTimer
    requires ReceiveData(c.rcv, Capacity(c), p.seqNo, p.payload, answer).1.InOrder?
    ensures var d := DataPart(m, p, answer);
      var (r, arrival, n) := ReceiveData(c.rcv, Capacity(c), p.seqNo, p.payload, answer);
      if AckIsDue(c, r, n) then Answered(c, d) && d.ackPending == 0 && !d.ackTimer
      else d.ackTimer && d.ackPending == c.ackPending + n
  {
    hide ReceiveData, Answered, SendAck;
    var (r, arrival, n) := ReceiveData(c.rcv, Capacity(c), p.seqNo, p.payload, answer);
    var e := m.(rcv := r, ackPending := m.ackPending + n);
    SendAckAnswers(e);
    AnsweredFrom(c, e, SendAck(e));
    SendAckClears(e);
  }

  lemma SendAckClears(c: Conn)
    ensures SendAck(c).ackPending == 0 && !SendAck(c).ackTimer
  {
    hide TransmitBare;
  }

  /** The peer's FIN, when it is taken, moves the connection on. */
  lemma FinIsNoticed(h: Handshake, events: seq<Event>, c: Conn, p: Packet, mss: nat, turns: nat -> Turn, answer: SinkAnswer)
    requires Reaches(h, events, c) && c.snd.life.current && InDataState(c.snd) && Plain(c, p) && 0 <= p.window <= MAX_WINDOW
    requires Accepted(c, p)
    ensures var d := Step(c, Arrives(p, mss, turns, answer));
      d.rcv.peerFin && !c.rcv.peerFin ==> d.snd.life.state.Closing? || d.snd.life.state.Closed?
  {
    hide Reaches, ConnOk, Step, Core, Base, DataPart, Drained, ProcessAck, BothDone, Outstanding;
    ReachedOk(h, events, c);
    if p.hasAck { AcceptedStatus(c, p); }
    HandledInParts(c, p, mss, turns, answer);
    DrainedIsReady(c, p, turns);
    HandshakeOfConn(Drained(c, p, turns));
    if Finishes(c, p) { EndIsFinished(c, p); } else { FinMovesOn(Drained(c, p, turns), p, answer); }
  }

  lemma HandshakeOfConn(c: Conn)
    requires ConnOk(c) && InDataState(c.snd)
    ensures c.snd.life.current
  {
    OkIsSenderOk(c);
    SenderIsCore(c.snd);
    hide Core;
    HandshakeDone(c.snd);
  }

  lemma FinMovesOn(m: Conn, p: Packet, answer: SinkAnswer)
    requires m.snd.life.current
    ensures var d := DataPart(m, p, answer);
      d.rcv.peerFin && !m.rcv.peerFin ==> d.snd.life.state.Closing? || d.snd.life.state.Closed?
  {
    hide ScheduleAck, TakesFin, ReceiveData;
    var (r, arrival, n) := ReceiveData(m.rcv, Capacity(m), p.seqNo, p.payload, answer);
    DataKeepsFin(m.rcv, Capacity(m), p.seqNo, p.payload, answer);
    var e := m.(rcv := r);
    ScheduleOnlySends(m, 0, true);
    ScheduleOnlySends(e, n, false);
    ScheduleOnlySends(e, 0, true);
    var f := if p.payload == [] then m else ScheduleAck(e, n, false);
    ScheduleOnlySends(f, 0, true);
    ScheduleOnlySends(f.(rcv := ReceiveFin(f.rcv), snd := WithState(f.snd, Closing)), 0, true);
  }

  lemma DataKeepsFin(r: Receiver, capacity: int, seqNo: U32, payload: seq<byte>, answer: SinkAnswer)
    ensures ReceiveData(r, capacity, seqNo, payload, answer).0.peerFin == r.peerFin
  {
  }

  lemma PartAnswers(c: Conn, m: Conn, p: Packet, answer: SinkAnswer)
    requires ConnOk(m) && InDataState(m.snd) && m.rcv == c.rcv && c.snd.trace <= m.snd.trace
    ensures var d := DataPart(m, p, answer);
      p.hasFin || (p.payload != [] && Undelivered(c, d, p, answer)) ==> Answered(c, d)
  {
    hide ConnOk, Answered, ReceiveData;
    DataPartOk(m, p, answer);
    if p.payload != [] { SinkOfSegment(m, p, answer); }
    var d := DataPart(m, p, answer);
    hide DataPart;
    if p.hasFin || (p.payload != [] && Undelivered(c, d, p, answer)) {
      if !p.hasFin { NotInOrder(c, m, d, p, answer); }
      DataPartAnswers(m, p, answer);
      AnsweredFrom(c, m, d);
    }
  }

  lemma SinkOfSegment(m: Conn, p: Packet, answer: SinkAnswer)
    requires p.payload != []
    ensures ReceiveSegment(m.rcv, Capacity(m), p.seqNo, p.payload, p.hasFin, answer).sink
         == ReceiveData(m.rcv, Capacity(m), p.seqNo, p.payload, answer).0.sink
  {
    hide ReceiveData;
  }

  lemma FramesKept(c: Conn, p: Packet, turns: nat -> Turn)
    requires ConnOk(c) && c.snd.life.current && InDataState(c.snd) && 0 <= p.window <= MAX_WINDOW
    requires p.hasAck ==> Status(c, p).Advanced? || Status(c, p).Duplicate?
    ensures c.snd.trace <= Drained(c, p, turns).snd.trace
  {
    hide ConnOk, ProcessAck, DrainTwice, TrySendConn, Mid;
    if p.hasAck {
      ProcessAckAppends(c.snd, HeaderOf(c), p);
      var (s, status, changed) := ProcessAck(c.snd, HeaderOf(c), p);
      var a := c.(snd := s);
      DrainsAppend(a, if changed then a.(snd := SetDuplicates(a.snd, 0)) else a, turns);
      TwiceAppends(a, status.Advanced?, changed, turns);
    }
  }

  lemma DrainsAppend(a: Conn, d: Conn, turns: nat -> Turn)
    requires d.snd.trace == a.snd.trace
    ensures a.snd.trace <= TrySendConn(d, turns).snd.trace
  {
    TrySendAppends(d.snd, HeaderOf(d), turns);
    hide TrySend;
  }

  lemma TwiceAppends(a: Conn, advanced: bool, changed: bool, turns: nat -> Turn)
    ensures a.snd.trace <= DrainTwice(a, advanced, changed, turns).snd.trace
  {
    hide TrySendConn;
    DrainsAppend(a, a, FirstDrain(turns));
    var d := if advanced then TrySendConn(a, FirstDrain(turns)) else a;
    DrainsAppend(d, d.(snd := SetDuplicates(d.snd, 0)), SecondDrain(turns));
  }
}
