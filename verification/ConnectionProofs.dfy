/** What every reachable connection satisfies, whatever the VM sends. */
module ConnectionProofs {
  import opened Bytes
  import opened SequenceNumbers
  import opened Retransmission
  import opened RetransmissionProofs
  import opened SendPath
  import opened SendInvariant
  import opened SendOperations
  import opened SendProgress
  import opened SendEvents
  import opened ReceivePath
  import opened Connection
  import P = Pacing

  /** `finish*Connection` closes only a connection whose every enqueued byte and
      one FIN are acknowledged and whose peer's FIN was received; it forgets a
      reverse one at once. */
  predicate FinishedOk(c: Conn) {
    c.finished ==>
      && c.snd.life.state.Closed? && c.rcv.peerFin && c.snd.life.finSent
      && c.snd.log.acked == |c.snd.log.tracked| && c.snd.out.queue == []
      && (c.snd.cfg.reverse ==> !c.snd.life.current)
  }

  predicate ConnOk(c: Conn) { SenderOk(c.snd) && FinishedOk(c) }

  /** Inside a handler: the books are right, but a wake-up may be owed. */
  predicate Mid(c: Conn) { Core(c.snd) && !c.snd.wake.sending && FinishedOk(c) }

  lemma MidOf(c: Conn)
    requires ConnOk(c)
    ensures Mid(c)
  {
  }

  // ----- acknowledging -----

  lemma SendAckOk(c: Conn)
    requires Mid(c)
    ensures var d := SendAck(c);
      && Mid(d) && d.rcv == c.rcv && d.snd == c.snd.(trace := d.snd.trace) && d.finished == c.finished
      && (ConnOk(c) ==> ConnOk(d))
  {
    CoreParts(c.snd);
    hide Core, Base, TransmitBare;
    TransmitBareKeeps(c.snd, HeaderOf(c), ACK);
    MakeCore(TransmitBare(c.snd, HeaderOf(c), ACK));
  }

  lemma ScheduleAckOk(c: Conn, segments: nat, immediate: bool)
    requires Mid(c)
    ensures var d := ScheduleAck(c, segments, immediate);
      && Mid(d) && d.rcv == c.rcv && d.snd == c.snd.(trace := d.snd.trace) && d.finished == c.finished
      && (ConnOk(c) ==> ConnOk(d))
  {
    hide Core, SendAck;
    SendAckOk(c.(ackPending := c.ackPending + segments));
  }

  // ----- ending -----

  lemma AbortConnOk(c: Conn, reset: bool)
    requires Mid(c) && (!c.snd.life.current ==> ConnOk(c))
    ensures ConnOk(AbortConn(c, reset)) && AbortConn(c, reset).rcv == c.rcv
    ensures c.snd.life.current ==> AbortConn(c, reset).snd.life.state.Closed?
  {
    if c.snd.life.current {
      SequencedOf(c.snd) by { CoreIsBase(c.snd); }
      hide Core, Abort, SenderOk, Sequenced;
      AbortKeeps(c.snd, c.snd.rtx, HeaderOf(c), reset);
      assert c.snd.(rtx := c.snd.rtx) == c.snd;
      AbortKeepsQueue(c.snd, HeaderOf(c), reset);
    }
  }

  lemma AbortKeepsQueue(s: Sender, header: Header, reset: bool)
    ensures var t := Abort(s, header, reset); t.out == s.out && t.life.finSent == s.life.finSent && t.log == s.log
  {
  }

  lemma FinishConnOk(c: Conn)
    requires Mid(c) && InDataState(c.snd) && BothDone(c)
    ensures ConnOk(FinishConn(c)) && FinishConn(c).finished && FinishConn(c).rcv == c.rcv
  {
    OpenFacts(c.snd);
    hide Core, SendPath.Finish, SenderOk;
    FinishKeeps(c.snd);
    FinFacts(c.snd);
  }

  lemma FinFacts(s: Sender)
    requires Core(s) && s.life.finSent
    ensures s.out.queue == []
  {
  }

  lemma TrySendConnOk(c: Conn, turns: nat -> Turn)
    requires Mid(c)
    ensures var d := TrySendConn(c, turns);
      && ConnOk(d) && d.rcv == c.rcv && d.finished == c.finished
      && (InDataState(c.snd) ==> InDataState(d.snd)) && (c.snd.life.state.SynSent? ==> d == c)
      && DrainFrame(c.snd, d.snd)
  {
    hide Core, TrySend;
    TrySendKeeps(c.snd, HeaderOf(c), turns);
    var d := TrySendConn(c, turns);
    if c.finished { ClosedTrySend(c.snd, HeaderOf(c), turns); }
    OpenFacts(c.snd);
    OpenFacts(d.snd);
    if InDataState(c.snd) {
      HandshakeDone(c.snd);
      NotSynSent(d.snd);
    }
  }

  /** Draining a closed connection changes nothing that is finished. */
  lemma ClosedTrySend(s: Sender, header: Header, turns: nat -> Turn)
    requires Core(s) && s.life.state.Closed? && s.life.finSent && s.out.queue == []
    ensures var t := TrySend(s, header, turns); t.log == s.log && t.out == s.out && t.life == s.life
  {
    OpenFacts(s);
    hide Core;
    if CanDrain(s) {
      var u := SendPath.SetPersist(s.(wake := s.wake.(sending := true)), header, WantsPersist(s));
      assert DrainPass(u, header, turns(0), 0) == (Idle(u), false);
    }
  }

  lemma HandshakeDone(s: Sender)
    requires Core(s) && InDataState(s)
    ensures s.log.acked >= 1 && s.life.current
  {
  }

  lemma NotSynSent(s: Sender)
    requires Core(s) && s.log.acked >= 1
    ensures !s.life.state.SynSent?
  {
  }

  // ----- the data and FIN part -----

  lemma WithStateKeeps(s: Sender, state: TcpState)
    requires Core(s) && InDataState(s) && (state.Closing? || state.Established?)
    ensures Core(WithState(s, state))
  {
    CoreParts(s);
    hide Core, Base, QueueCounted, Conserved, Sequenced, Consistent, P.PacerOk;
    Unpack(s);
    ConservedState(s.log, s.out.queue, s.life, state);
    Pack(WithState(s, state));
    MakeCore(WithState(s, state));
  }

  lemma ConservedState(log: History, queue: seq<seq<byte>>, life: Life, state: TcpState)
    requires Conserved(log, queue, life) && !life.state.Closed?
    ensures Conserved(log, queue, life.(state := state))
  {
    hide Concat, Wire, BytesOf;
  }

  lemma TakeFinOk(c: Conn)
    requires ConnOk(c) && InDataState(c.snd)
    ensures ConnOk(TakeFin(c))
    ensures TakeFin(c).rcv == ReceiveFin(c.rcv)
  {
    var d := c.(rcv := ReceiveFin(c.rcv), snd := WithState(c.snd, Closing));
    hide Core, ScheduleAck, FinishConn;
    WithStateKeeps(c.snd, Closing);
    ScheduleAckOk(d, 0, true);
    var e := ScheduleAck(d, 0, true);
    if BothDone(e) { FinishConnOk(e); }
  }

  lemma FinPartOk(c: Conn, p: Packet)
    requires ConnOk(c) && InDataState(c.snd)
    ensures ConnOk(FinPart(c, p))
    ensures FinPart(c, p).rcv == (if p.hasFin && TakesFin(c.rcv, p.seqNo, p.payload) then ReceiveFin(c.rcv) else c.rcv)
  {
    hide Core, TakeFin, ScheduleAck;
    ScheduleAckOk(c, 0, true);
    TakeFinOk(c);
  }

  lemma DataPartOk(c: Conn, p: Packet, answer: SinkAnswer)
    requires ConnOk(c) && InDataState(c.snd)
    ensures ConnOk(DataPart(c, p, answer))
    ensures DataPart(c, p, answer).rcv == ReceiveSegment(c.rcv, Capacity(c), p.seqNo, p.payload, p.hasFin, answer)
  {
    hide Core, ScheduleAck, FinPart, ReceiveData, TakesFin;
    if p.payload == [] {
      FinPartOk(c, p);
    } else {
      var (r, arrival, n) := ReceiveData(c.rcv, Capacity(c), p.seqNo, p.payload, answer);
      var d := c.(rcv := r);
      ScheduleAckOk(d, n, false);
      ScheduleAckOk(d, 0, true);
      if arrival.InOrder? { FinPartOk(ScheduleAck(d, n, false), p); }
    }
  }

  // ----- the packet handlers -----

  lemma SetDuplicatesOk(c: Conn, n: int)
    requires Mid(c)
    ensures Mid(c.(snd := SetDuplicates(c.snd, n)))
    ensures ConnOk(c) ==> ConnOk(c.(snd := SetDuplicates(c.snd, n)))
  {
    CoreParts(c.snd);
    hide Core, Base;
    DupCountKeeps(c.snd, n);
    MakeCore(SetDuplicates(c.snd, n));
  }

  lemma AfterAckOk(c: Conn, p: Packet, acted: bool, changed: bool, turns: nat -> Turn, answer: SinkAnswer)
    requires Mid(c) && (!acted ==> ConnOk(c)) && (c.snd.life.state.Closed? || InDataState(c.snd)) && (changed ==> acted)
    ensures ConnOk(AfterAck(c, p, acted, changed, turns, answer))
  {
    hide Core, DataPart, FinishConn, TrySendConn, BothDone;
    if InDataState(c.snd) {
      SetDuplicatesOk(c, 0);
      var d := if changed then c.(snd := SetDuplicates(c.snd, 0)) else c;
      if acted {
        if BothDone(c) {
          FinishConnOk(c);
        } else {
          TrySendConnOk(d, turns);
          DataPartOk(TrySendConn(d, turns), p, answer);
        }
      } else {
        DataPartOk(d, p, answer);
      }
    }
  }

  /** The state after the ACK part: the invariant holds, and a wake-up is owed
      only when something was acknowledged or the window changed. */
  lemma AckedConn(c: Conn, p: Packet)
    requires ConnOk(c) && TakesWindows(c.snd) && c.snd.life.current && 0 <= p.window <= MAX_WINDOW
    ensures var (s, status, changed) := ProcessAck(c.snd, HeaderOf(c), p);
      var a := c.(snd := s);
      && s.life == c.snd.life && s.cfg == c.snd.cfg && Base(s) && RecoveryHasData(s) && !s.wake.sending && FinishedOk(a)
      && (!status.Advanced? ==> Core(s) && (!changed ==> ConnOk(a)))
      && (status.Advanced? && !c.snd.life.state.SynSent? ==> Core(s) && InDataState(s))
      && (status.Advanced? && c.snd.life.state.SynSent? ==> s.rtx.segments == [] && s.log.acked == 1)
      && (changed ==> status.Advanced? || status.Duplicate?)
  {
    hide Core, Base, ProcessAck, SenderOk, AckOutcome;
    SenderIsCore(c.snd);
    ProcessAckKeeps(c.snd, HeaderOf(c), p);
    var (s, status, changed) := ProcessAck(c.snd, HeaderOf(c), p);
    OutcomeFacts(c.snd, s, status, changed);
    if status.Advanced? {
      if c.snd.life.state.SynSent? { SynAcked(s); }
      AdvancedCore(c.snd, s);
    } else if !changed {
      QuietWakeful(c.snd, s);
    }
    if c.finished { FinishedAck(c.snd, s, status); }
  }

  /** In the middle of a handler, after an ACK that did not end the handshake. */
  lemma AckedMid(c: Conn, a: Conn, advanced: bool)
    requires !a.snd.wake.sending && FinishedOk(a)
    requires !advanced ==> Core(a.snd)
    requires advanced && !c.snd.life.state.SynSent? ==> Core(a.snd)
    ensures !advanced || !c.snd.life.state.SynSent? ==> Mid(a)
  {
    hide Core;
  }

  lemma ScheduleAckLife(c: Conn, n: nat)
    ensures ScheduleAck(c, n, false).snd.life == c.snd.life
  {
    hide Frames, Stamp;
  }

  lemma SenderIsCore(s: Sender)
    requires SenderOk(s)
    ensures Core(s) && Wakeful(s)
  {
  }

  lemma OutcomeFacts(s: Sender, t: Sender, status: AckStatus, changed: bool)
    requires AckOutcome(s, t, status, changed)
    ensures Base(t) && RecoveryHasData(t) && AckFrame(s, t) && t.life == s.life && t.wake == s.wake && t.out == s.out && t.cfg == s.cfg
    ensures status.Advanced? ==> !s.rtx.closed && t.log.acked > s.log.acked && t.log.tracked == s.log.tracked
    ensures !status.Advanced? ==> Core(t) && t.log.acked == s.log.acked && t.log.tracked == s.log.tracked
    ensures !status.Advanced? ==> (s.rtx.timer.Some? ==> t.rtx.timer.Some?) && t.pacer.timer == s.pacer.timer
    ensures !status.Advanced? && !status.Duplicate? ==> !changed
    ensures !status.Advanced? && !changed && Full(s) ==> Full(t)
    ensures t.pacer.blocked == s.pacer.blocked
  {
    hide Base, Core;
  }

  lemma SynAcked(s: Sender)
    requires Base(s) && s.life.state.SynSent? && s.log.acked > 0
    ensures s.rtx.segments == [] && s.log.acked == 1
  {
    Facts(s);
  }

  lemma AdvancedCore(s: Sender, t: Sender)
    requires Core(s) && Base(t) && RecoveryHasData(t) && t.life == s.life && t.log.acked > s.log.acked && !s.rtx.closed
    ensures !s.life.state.SynSent? ==> Core(t) && InDataState(t)
  {
    hide Base;
    OpenFacts(s);
  }

  lemma QuietWakeful(s: Sender, t: Sender)
    requires SenderOk(s) && Core(t) && t.life == s.life && t.wake == s.wake && t.out == s.out
    requires (s.rtx.timer.Some? ==> t.rtx.timer.Some?) && t.pacer.timer == s.pacer.timer && t.pacer.blocked == s.pacer.blocked
    requires Full(s) ==> s.life.state.SynSent? || Full(t)
    ensures SenderOk(t)
  {
    hide Core;
  }

  lemma FinishedAck(s: Sender, t: Sender, status: AckStatus)
    requires Core(s) && s.life.state.Closed? && AckFrame(s, t)
    requires status.Advanced? ==> !s.rtx.closed
    requires !status.Advanced? ==> t.log.acked == s.log.acked
    ensures t.log.acked == s.log.acked && t.log.tracked == s.log.tracked
  {
    OpenFacts(s);
  }

  /** The handshake ends: the SYN is acknowledged and the state follows. */
  lemma Establishes(s: Sender, mss: int, window: int)
    requires Base(s) && RecoveryHasData(s) && s.life.state.SynSent? && s.log.acked == 1
    requires 0 <= window <= MAX_WINDOW
    ensures s.cfg.reverse ==> Core(WithState(s, Established).(win := OpeningWindow(s.win, window), sendMss := mss))
    ensures !s.cfg.reverse ==> Core(WithState(s, Established))
  {
    hide Base, QueueCounted, Conserved, Sequenced, Consistent, P.PacerOk;
    Unpack(s);
    ConservedState(s.log, s.out.queue, s.life, Established);
    var t := WithState(s, Established).(win := OpeningWindow(s.win, window), sendMss := mss);
    if s.cfg.reverse { Pack(t); } else { Pack(WithState(s, Established)); }
    if s.cfg.reverse { MakeCoreIfBase(t); } else { MakeCoreIfBase(WithState(s, Established)); }
  }

  lemma MakeCoreIfBase(s: Sender)
    requires Base(s) && s.life.state.Established? && s.log.acked == 1 && s.cong.recoveryUntil.None?
    ensures Core(s)
  {
    hide Base;
  }

  /** Any packet whatever keeps an outbound connection's invariant. */
  lemma HandleOutboundOk(c: Conn, p: Packet, turns: nat -> Turn, answer: SinkAnswer)
    requires ConnOk(c) && !c.snd.cfg.reverse && 0 <= p.window <= MAX_WINDOW
    ensures ConnOk(HandleOutbound(c, p, turns, answer))
  {
    hide Core, Base, SenderOk, ProcessAck, AfterAck, SendPath.FastRetransmit, AbortConn, SendAck;
    SenderIsCore(c.snd);
    OpenFacts(c.snd);
    if c.snd.life.current {
      if p.hasSyn && !p.hasAck {
        FastRetransmitOk(c);
      } else if p.hasRst {
        AbortConnOk(c, false);
      } else if !p.hasAck {
        if !c.snd.life.state.SynSent? { AfterAckOk(c, p, false, false, turns, answer); }
      } else {
        AckedConn(c, p);
        var (s, status, changed) := ProcessAck(c.snd, HeaderOf(c), p);
        if status.Advanced? && s.life.state.SynSent? {
          OpenedOutboundOk(c, p, turns, answer);
        } else if (status.Advanced? || status.Duplicate?) && !s.life.state.SynSent? {
          AfterAckOk(c.(snd := s), p, status.Advanced? || changed, changed, turns, answer);
        } else if s.life.state.SynSent? {
          OpeningWakeful(s);
        }
      }
    }
  }

  lemma OpeningWakeful(s: Sender)
    requires Core(s) && s.life.state.SynSent? && !s.wake.sending
    ensures SenderOk(s)
  {
    hide Core;
    OpenFacts(s);
  }

  lemma OpenedOutboundOk(c: Conn, p: Packet, turns: nat -> Turn, answer: SinkAnswer)
    requires ConnOk(c) && !c.snd.cfg.reverse && c.snd.life.state.SynSent? && c.snd.life.current && 0 <= p.window <= MAX_WINDOW
    ensures var (s, status, changed) := ProcessAck(c.snd, HeaderOf(c), p);
      status.Advanced? ==> ConnOk(AfterAck(SendAck(c.(snd := WithState(s, Established))), p, true, changed, turns, answer))
  {
    hide Core, Base, SenderOk, ProcessAck, AfterAck, SendAck;
    SenderIsCore(c.snd);
    AckedConn(c, p);
    var (s, status, changed) := ProcessAck(c.snd, HeaderOf(c), p);
    var e := c.(snd := WithState(s, Established));
    if status.Advanced? {
      Establishes(s, 0, 0);
      SendAckOk(e);
      AfterAckOk(SendAck(e), p, true, changed, turns, answer);
    }
  }

  /** A repeated SYN resends the SYN-ACK at once. */
  lemma FastRetransmitOk(c: Conn)
    requires ConnOk(c)
    ensures c.snd.life.state.SynSent? ==> ConnOk(c.(snd := SendPath.FastRetransmit(c.snd, HeaderOf(c))))
  {
    hide Core, SendPath.FastRetransmit;
    FastRetransmitKeeps(c.snd, HeaderOf(c));
    FastRetransmitFrame(c.snd, HeaderOf(c));
    var t := SendPath.FastRetransmit(c.snd, HeaderOf(c));
    if c.snd.life.state.SynSent? { QuietWakeful(c.snd, t); }
  }

  lemma EstablishReverseOk(c: Conn, p: Packet, mss: nat, turns: nat -> Turn)
    requires ConnOk(c) && c.snd.cfg.reverse && c.snd.life.state.SynSent? && 0 <= p.window <= MAX_WINDOW
    ensures ConnOk(EstablishReverse(c, p, mss, turns))
  {
    SenderIsCore(c.snd);
    SynAcknowledged(c, p.ack);
    hide Core, Base, SenderOk, AcknowledgeQueue, TrySendConn, SendAck, Synchronize;
    var (s, status, bytes) := AcknowledgeQueue(c.snd, p.ack);
    if status.Advanced? {
      SynchronizeOk(c, s, p, mss);
      SendAckOk(Synchronize(c, s, p, mss));
      TrySendConnOk(SendAck(Synchronize(c, s, p, mss)), turns);
    }
  }

  lemma SynchronizeOk(c: Conn, s: Sender, p: Packet, mss: nat)
    requires FinishedOk(c) && s.life == c.snd.life && !s.wake.sending && s.life.state.SynSent? && 0 <= p.window <= MAX_WINDOW
    requires Base(s) && RecoveryHasData(s) && s.log.acked == 1 && s.cfg.reverse
    ensures Mid(Synchronize(c, s, p, mss))
  {
    hide Core, Base;
    Establishes(s, Min(s.cfg.tcpMss, if mss == 0 then FALLBACK_MSS else mss), p.window);
  }

  lemma SynAcknowledged(c: Conn, ack: U32)
    requires ConnOk(c) && c.snd.life.state.SynSent?
    ensures var (s, status, bytes) := AcknowledgeQueue(c.snd, ack);
      && s.life == c.snd.life && s.wake == c.snd.wake && s.cfg == c.snd.cfg
      && (status.Advanced? ==> Base(s) && RecoveryHasData(s) && s.rtx.segments == [] && s.log.acked == 1)
      && (!status.Advanced? ==> SenderOk(s))
  {
    OpenFacts(c.snd);
    SenderIsCore(c.snd);
    CoreParts(c.snd);
    hide Core, Base, SenderOk, AcknowledgeQueue, SameBooks;
    AcknowledgeQueueKeeps(c.snd, ack);
    var (s, status, bytes) := AcknowledgeQueue(c.snd, ack);
    if status.Advanced? {
      SynAcked(s);
      SynBytes(c.snd, s, bytes);
    } else {
      QuietWakeful(c.snd, s);
    }
  }

  lemma SynBytes(s: Sender, t: Sender, bytes: int)
    requires Base(s) && s.life.state.SynSent? && t == s.(rtx := t.rtx, log := s.log.(acked := t.log.acked))
    ensures RecoveryHasData(t)
  {
  }

  lemma DrainTwiceOk(a: Conn, advanced: bool, changed: bool, turns: nat -> Turn)
    requires Mid(a) && InDataState(a.snd) && (!advanced && !changed ==> ConnOk(a))
    ensures var d := DrainTwice(a, advanced, changed, turns); ConnOk(d) && InDataState(d.snd)
  {
    hide ConnOk, Mid, TrySendConn;
    TrySendConnOk(a, FirstDrain(turns));
    var d := if advanced then TrySendConn(a, FirstDrain(turns)) else a;
    if advanced { MidOf(d); }
    SetDuplicatesOk(d, 0);
    TrySendConnOk(d.(snd := SetDuplicates(d.snd, 0)), SecondDrain(turns));
  }

  lemma ReverseAckPartOk(c: Conn, p: Packet, turns: nat -> Turn, answer: SinkAnswer)
    requires ConnOk(c) && InDataState(c.snd) && c.snd.life.current && 0 <= p.window <= MAX_WINDOW
    ensures ConnOk(ReverseAckPart(c, p, turns, answer))
  {
    if !p.hasAck {
      DataPartOk(c, p, answer);
    } else {
      AckedConn(c, p);
      var (s, status, changed) := ProcessAck(c.snd, HeaderOf(c), p);
      var a := c.(snd := s);
      AckedMid(c, a, status.Advanced?);
      hide Core, Base, ConnOk, Mid, ProcessAck, DataPart, DrainTwice, FinishConn, BothDone;
      if status.Advanced? && BothDone(a) {
        FinishConnOk(a);
      } else if status.Advanced? || status.Duplicate? {
        DrainTwiceOk(a, status.Advanced?, changed, turns);
        DataPartOk(DrainTwice(a, status.Advanced?, changed, turns), p, answer);
      }
    }
  }

  /** Any packet whatever keeps a reverse connection's invariant. */
  lemma HandleReverseOk(c: Conn, p: Packet, mss: nat, turns: nat -> Turn, answer: SinkAnswer)
    requires ConnOk(c) && c.snd.cfg.reverse && 0 <= p.window <= MAX_WINDOW
    ensures ConnOk(HandleReverse(c, p, mss, turns, answer))
  {
    hide Core, Base, SenderOk, EstablishReverse, ReverseAckPart, AbortConn, SendAck;
    SenderIsCore(c.snd);
    OpenFacts(c.snd);
    if c.snd.life.current {
      AbortConnOk(c, false);
      SendAckOk(c);
      if c.snd.life.state.SynSent? { EstablishReverseOk(c, p, mss, turns); }
      if InDataState(c.snd) { ReverseAckPartOk(c, p, turns, answer); }
    }
  }

  // ----- every event -----

  lemma PacerResumes(s: Sender)
    requires Core(s)
    ensures Core(s.(pacer := P.TimerFires(s.pacer)))
  {
    CoreParts(s);
    hide Core, Base, QueueCounted, Conserved, Sequenced, Consistent;
    Unpack(s);
    P.OperationsKeepPacerOk(s.pacer, 0, 0);
    Pack(s.(pacer := P.TimerFires(s.pacer)));
    MakeCore(s.(pacer := P.TimerFires(s.pacer)));
  }

  lemma ExpiresOk(c: Conn)
    requires ConnOk(c) && c.finished
    ensures ConnOk(Step(c, Expires))
  {
    CoreParts(c.snd);
    hide Core, Base, QueueCounted, Conserved, Sequenced, Consistent, P.PacerOk;
    Unpack(c.snd);
    var t := Step(c, Expires).snd;
    ConservedClosed(c.snd.log, c.snd.out.queue, c.snd.life, false);
    Pack(t);
    MakeCore(t);
  }

  lemma RetransmissionEventOk(c: Conn, id: nat, congested: bool, open: bool)
    requires ConnOk(c) && id in c.snd.rtx.live && !ProbesAnotherFin(c.snd, id, congested)
    ensures ConnOk(Step(c, RetransmissionTimerFires(id, congested, open)))
  {
    LiveTimer(c.snd, id);
    hide Core, SenderOk, RetransmissionTimer;
    RetransmissionTimerKeeps(c.snd, HeaderOf(c), id, congested, open);
  }

  /** The events that run the drain loop later on. */
  predicate Wakes(e: Event) { e.PacerTimerFires? || e.TransportFlushed? || e.ImmediateRuns? || e.RetryTimerFires? }

  /** The sending half after such an event, before the drain loop runs. */
  function Woken(s: Sender, e: Event): Sender
    requires Wakes(e)
  {
    match e
    case PacerTimerFires(_) => s.(pacer := P.TimerFires(s.pacer))
    case TransportFlushed => WithWake(s, s.wake.(waiting := false, immediates := s.wake.immediates + 1))
    case ImmediateRuns(_) => WithWake(s, s.wake.(immediates := Max(0, s.wake.immediates - 1)))
    case RetryTimerFires(_) => WithWake(s, s.wake.(retries := Max(0, s.wake.retries - 1)))
  }

  lemma StepOfWake(c: Conn, e: Event)
    requires Wakes(e)
    ensures var d := c.(snd := Woken(c.snd, e));
      Step(c, e) == if e.TransportFlushed? then d else TrySendConn(d, e.turns)
  {
    hide TrySendConn;
  }

  lemma PacerWakes(c: Conn, turns: nat -> Turn)
    requires ConnOk(c)
    ensures Mid(c.(snd := Woken(c.snd, PacerTimerFires(turns))))
  {
    hide Core;
    PacerResumes(c.snd);
  }

  lemma WakersWake(c: Conn, wake: Wakers)
    requires ConnOk(c) && !wake.sending
    ensures Mid(c.(snd := WithWake(c.snd, wake)))
  {
    hide Core;
    WakersKeep(c.snd, wake);
  }

  lemma FlushKeeps(c: Conn)
    requires ConnOk(c)
    ensures ConnOk(c.(snd := Woken(c.snd, TransportFlushed)))
  {
    hide Core;
    WakersKeep(c.snd, c.snd.wake.(waiting := false, immediates := c.snd.wake.immediates + 1));
  }

  /** Such an event touches only what wakes the drain loop. */
  lemma WokenMid(c: Conn, e: Event)
    requires ConnOk(c) && Wakes(e)
    ensures var s := Woken(c.snd, e); s == c.snd.(pacer := s.pacer, wake := s.wake) && Mid(c.(snd := s))
  {
    NotSending(c);
    hide ConnOk, Mid;
    if e.PacerTimerFires? { PacerWakes(c, e.turns); } else { WakersWake(c, Woken(c.snd, e).wake); }
  }

  lemma NotSending(c: Conn)
    requires ConnOk(c)
    ensures !c.snd.wake.sending
  {
  }

  lemma WakeEventOk(c: Conn, e: Event)
    requires ConnOk(c) && Enabled(c, e) && Wakes(e)
    ensures ConnOk(Step(c, e))
  {
    hide ConnOk, Mid, Step, Woken, TrySendConn;
    StepOfWake(c, e);
    FlushKeeps(c);
    WokenMid(c, e);
    if !e.TransportFlushed? { TrySendConnOk(c.(snd := Woken(c.snd, e)), e.turns); }
  }

  /** Every event, whatever the VM, the source, the sink or the clock does,
      keeps the invariant: no exception, conservation, consistent frames,
      bounded flight, one timer, no lost wake-up. */
  lemma StepKeepsOk(c: Conn, e: Event)
    requires ConnOk(c) && Enabled(c, e) && !AddsAfterFin(c, e)
    ensures ConnOk(Step(c, e))
  {
    hide ProbesAnotherFin, ConnOk, TrySendConn, ScheduleAck, SendAck, AbortConn, HandleReverse, HandleOutbound, RetransmissionTimer;
    match e {
      case SourceData(data, turns) =>
        if c.snd.life.current { SourceDataOk(c, data, turns); }
      case SourceEnd(turns) => SourceEndOk(c, turns);
      case Arrives(p, mss, turns, answer) =>
        if c.snd.cfg.reverse { HandleReverseOk(c, p, mss, turns, answer); } else { HandleOutboundOk(c, p, turns, answer); }
      case RetransmissionTimerFires(id, congested, open) => RetransmissionEventOk(c, id, congested, open);
      case SinkDrains => SinkDrainsOk(c);
      case AckTimerFires => AckTimerOk(c);
      case Fails(open) =>
        MidOf(c);
        AbortConnOk(c, open);
      case Expires => ExpiresOk(c);
      case _ => WakeEventOk(c, e);
    }
  }

  lemma SinkDrainsOk(c: Conn)
    requires ConnOk(c)
    ensures ConnOk(Step(c, SinkDrains))
  {
    hide SenderOk, ScheduleAck;
    var d := c.(rcv := c.rcv.(backpressured := false));
    MidOf(d);
    ScheduleAckOk(d, 0, true);
  }

  lemma AckTimerOk(c: Conn)
    requires ConnOk(c)
    ensures ConnOk(Step(c, AckTimerFires))
  {
    hide SenderOk, SendAck;
    MidOf(c.(ackTimer := false));
    SendAckOk(c.(ackTimer := false));
  }

  lemma SourceDataOk(c: Conn, data: seq<byte>, turns: nat -> Turn)
    requires ConnOk(c) && c.snd.life.current && data != [] && !c.snd.life.finSent
    ensures ConnOk(Step(c, SourceData(data, turns)))
  {
    hide Core, SenderOk, TrySendConn, Enqueue;
    EnqueueKeeps(c.snd, data);
    NotFinished(c);
    TrySendConnOk(c.(snd := Enqueue(c.snd, data)), turns);
  }

  lemma NotFinished(c: Conn)
    requires ConnOk(c) && (!c.snd.life.finSent || !c.snd.life.state.Closed?)
    ensures !c.finished
  {
  }

  lemma SourceEndOk(c: Conn, turns: nat -> Turn)
    requires ConnOk(c)
    ensures ConnOk(Step(c, SourceEnd(turns)))
  {
    if !c.snd.life.state.Closed? { NotFinished(c); }
    hide Core, SenderOk, TrySendConn;
    EndSourceKeeps(c.snd);
    if c.snd.life.current && !c.snd.life.state.Closed? { TrySendConnOk(c.(snd := EndSource(c.snd)), turns); }
  }
}
