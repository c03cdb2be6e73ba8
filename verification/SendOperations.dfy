/** Each primitive operation of the sending half keeps its invariant. */
module SendOperations {
  import opened Bytes
  import opened SequenceNumbers
  import opened Retransmission
  import opened RetransmissionProofs
  import opened SendPath
  import opened SendInvariant
  import P = Pacing

  // ----- the wire -----

  lemma WireFacts(bytes: seq<byte>, fin: bool)
    ensures |Wire(bytes, fin)| == 1 + |bytes| + (if fin then 1 else 0)
    ensures Wire(bytes, fin)[0] == Syn
    ensures forall i :: 1 <= i <= |bytes| ==> Wire(bytes, fin)[i] == Data(bytes[i - 1])
    ensures fin ==> Wire(bytes, fin)[|bytes| + 1] == Fin
    ensures BytesOf(Wire(bytes, fin)) == bytes
  {
    BytesOfItems(bytes, true, fin);
  }

  lemma WireGrows(bytes: seq<byte>, more: seq<byte>)
    ensures Wire(bytes, false) + Items(more, false, false) == Wire(bytes + more, false)
    ensures Wire(bytes, false) + Items([], false, true) == Wire(bytes, true)
  {
    assert PayloadItems(bytes + more) == PayloadItems(bytes) + PayloadItems(more);
  }

  lemma {:induction false} BytesOfTail(items: seq<Item>)
    requires forall i :: 0 <= i < |items| ==> items[i].Data? || (items[i].Fin? && i == |items| - 1)
    ensures |BytesOf(items)| <= |items| <= |BytesOf(items)| + 1
    ensures items != [] && items[|items| - 1].Data? ==> |items| == |BytesOf(items)|
  {
    if items != [] {
      assert forall i :: 0 <= i < |items[1..]| ==> items[1..][i] == items[i + 1];
      BytesOfTail(items[1..]);
    }
  }

  /** Once the SYN is acknowledged, a run of items is its payload bytes and at
      most the FIN. */
  lemma RunOfWire(s: Sender, from: nat, to: nat)
    requires Base(s) && 1 <= from <= to <= |s.log.tracked|
    ensures |BytesOf(s.log.tracked[from..to])| <= to - from <= |BytesOf(s.log.tracked[from..to])| + 1
    ensures to - from > |BytesOf(s.log.tracked[from..to])| ==> s.life.finSent && to == |s.log.tracked|
  {
    var bytes := BytesOf(s.log.tracked);
    WireFacts(bytes, s.life.finSent);
    var run := s.log.tracked[from..to];
    assert s.log.tracked == Wire(bytes, s.life.finSent);
    hide Wire, BytesOf, Base;
    assert forall i :: 0 <= i < |run| ==> run[i] == s.log.tracked[from + i];
    BytesOfTail(run);
  }

  /** The flow bound on sequence space: the payload in flight and at most one FIN,
      never more than 2^16, so every outstanding position is well inside the
      half space that 32-bit comparison needs. */
  lemma OutstandingBound(s: Sender)
    requires Core(s)
    ensures !s.rtx.closed ==> |s.log.tracked| - s.log.acked <= s.rtx.payloadBytesInFlight + 1
    ensures !s.rtx.closed ==> |s.log.tracked| - s.log.acked <= MAX_WINDOW + 1 < HALF
    ensures !s.rtx.closed && !s.life.finSent && s.log.acked >= 1 ==> |s.log.tracked| - s.log.acked == s.rtx.payloadBytesInFlight
  {
    if !s.rtx.closed {
      FlattenLength(s.rtx.segments);
      if s.log.acked >= 1 { RunOfWire(s, s.log.acked, |s.log.tracked|); assert s.log.tracked[s.log.acked..] == s.log.tracked[s.log.acked..|s.log.tracked|]; }
    }
  }

  // Most proofs below hide the invariant, take it apart and put it together
  // again, so that the parts an operation does not touch stay closed.

  lemma Unpack(s: Sender)
    requires Base(s)
    ensures s.cfg.Valid() && LifeCycle(s) && Bounded(s) && P.PacerOk(s.pacer)
    ensures QueueCounted(s.out)
    ensures Conserved(s.log, s.out.queue, s.life)
    ensures Sequenced(s.rtx, s.log, s.relaySeq)
    ensures Consistent(s.log, s.trace)
  {
  }

  lemma Pack(s: Sender)
    requires s.cfg.Valid() && LifeCycle(s) && Bounded(s) && P.PacerOk(s.pacer)
    requires QueueCounted(s.out)
    requires Conserved(s.log, s.out.queue, s.life)
    requires Sequenced(s.rtx, s.log, s.relaySeq)
    requires Consistent(s.log, s.trace)
    ensures Base(s)
  {
  }

  /** The scalar facts of the invariant that most proofs need. */
  lemma Facts(s: Sender)
    requires Base(s)
    ensures Valid(s.rtx) && s.log.acked <= |s.log.tracked|
    ensures s.rtx.sndUna == Wrap(s.log.iss + s.log.acked) && s.rtx.sndNxt == s.relaySeq == Wrap(s.log.iss + |s.log.tracked|)
    ensures s.rtx.payloadBytesInFlight >= 0
    ensures s.rtx.segments == [] ==> s.rtx.payloadBytesInFlight == 0
    ensures !s.rtx.closed ==> Flatten(s.rtx.segments) == s.log.tracked[s.log.acked..]
    ensures !s.rtx.closed && s.rtx.segments == [] ==> s.log.acked == |s.log.tracked| && s.rtx.sndUna == s.rtx.sndNxt
    ensures s.rtx.segments != [] ==> !s.rtx.closed && s.log.acked < |s.log.tracked|
    ensures s.rtx.closed ==> s.rtx.segments == []
  {
    FlattenLength(s.rtx.segments);
    if !s.rtx.closed && s.rtx.segments == [] { assert |s.log.tracked[s.log.acked..]| == 0; }
    hide QueueCounted, Conserved, AllCarry, BytesOf, Contiguous;
  }

  // ----- frames -----

  lemma TransmitKeeps(s: Sender, header: Header, payload: seq<byte>, flags: Flags, pos: nat)
    requires Base(s)
    requires pos + SequenceLength(payload, flags) <= |s.log.tracked|
    requires s.log.tracked[pos..pos + SequenceLength(payload, flags)] == Items(payload, flags.syn, flags.fin)
    ensures var t := Transmit(s, header, payload, flags, Wrap(s.log.iss + pos), pos);
      Base(t) && t == s.(trace := t.trace)
  {
    assert AllCarry(s.log.iss, s.log.tracked, s.trace);
    SegmentationCarries(payload, TcpMss(s), flags, HeaderFor(s, flags, header), s.log.iss, pos, s.log.tracked);
    AllCarryAppend(s.log.iss, s.log.tracked, s.trace,
      Stamp(pos, Frames(payload, TcpMss(s), flags, Wrap(s.log.iss + pos), HeaderFor(s, flags, header))));
    hide AllCarry, Frames, Stamp, QueueCounted, Conserved, Sequenced, P.PacerOk, Setup.Valid;
  }

  lemma TransmitBareKeeps(s: Sender, header: Header, flags: Flags)
    requires Base(s) && !flags.syn && !flags.fin
    ensures var t := TransmitBare(s, header, flags); Base(t) && t == s.(trace := t.trace)
  {
    assert s.relaySeq == Wrap(s.log.iss + |s.log.tracked|);
    assert s.log.tracked[|s.log.tracked|..|s.log.tracked|] == Items([], false, false);
    hide Base;
    TransmitKeeps(s, header, [], flags, |s.log.tracked|);
  }

  lemma OldestIsFirst(q: Queue)
    requires Valid(q) && q.segments != []
    ensures var g := q.segments[0];
      && WellFormed(g) && g.seqNo == q.sndUna
      && Flatten(q.segments) == SegmentItems(g) + Flatten(q.segments[1..])
      && |SegmentItems(g)| <= |Flatten(q.segments)|
  {
    assert Contiguous(q.segments, q.sndUna, q.sndNxt);
    assert Wrap(q.sndUna) == q.sndUna;
    hide SegmentItems, Books, TimerMachine;
  }

  /** The oldest segment is the stream from the first unacknowledged position. */
  lemma OldestIsStream(s: Sender)
    requires Base(s) && s.rtx.segments != []
    ensures var g := s.rtx.segments[0];
      && g.seqNo == Wrap(s.log.iss + s.log.acked) && WellFormed(g)
      && s.log.acked + |SegmentItems(g)| <= |s.log.tracked|
      && s.log.tracked[s.log.acked..s.log.acked + |SegmentItems(g)|] == SegmentItems(g)
  {
    hide Base, Valid, SegmentItems, Wrap;
    Facts(s);
    OldestIsFirst(s.rtx);
    var g := s.rtx.segments[0];
    assert s.log.tracked[s.log.acked..s.log.acked + |SegmentItems(g)|] == s.log.tracked[s.log.acked..][..|SegmentItems(g)|];
  }

  lemma TransmitOldestKeeps(s: Sender, header: Header)
    requires Base(s)
    ensures var t := TransmitOldest(s, header); Base(t) && t == s.(trace := t.trace)
  {
    if s.rtx.segments != [] {
      OldestIsStream(s);
      hide Base, Items;
      var g := s.rtx.segments[0];
      TransmitKeeps(s, header, g.payload, g.flags, s.log.acked);
    }
  }

  // ----- operations of the retransmission queue that move no sequence space -----

  predicate SameBooks(q: Queue, q': Queue) {
    // `true ==` makes the conjunction one fact, which a caller proves at once and not clause by clause.
    true == (
    && Valid(q') && Flatten(q'.segments) == Flatten(q.segments)
    && (q'.segments == [] <==> q.segments == [])
    && q'.sndUna == q.sndUna && q'.sndNxt == q.sndNxt && q'.payloadBytesInFlight == q.payloadBytesInFlight
    && q'.closed == q.closed && q'.exhausted == q.exhausted)
  }

  lemma SameBooksKeeps(s: Sender, q: Queue)
    requires Base(s) && SameBooks(s.rtx, q) && (s.life.state.SynSent? && q.persist ==> s.rtx.persist)
    ensures Base(s.(rtx := q))
  {
    hide Valid, Flatten, Consistent, P.PacerOk, QueueCounted, Conserved, Wrap, Setup.Valid;
  }

  lemma SetPersistSame(q: Queue, enabled: bool)
    requires Valid(q)
    ensures SameBooks(q, Retransmission.SetPersist(q, enabled, Returned))
    ensures !enabled && Retransmission.SetPersist(q, enabled, Returned).persist ==> q.persist
  {
    SetPersistKeepsValid(q, enabled, Returned);
    hide Valid, Flatten;
  }

  lemma FastRetransmitSame(q: Queue)
    requires Valid(q)
    ensures SameBooks(q, Retransmission.FastRetransmit(q, Returned).0)
    ensures Retransmission.FastRetransmit(q, Returned).0.persist == q.persist
  {
    FastRetransmitKeepsValid(q, Returned);
    hide Valid, Flatten;
  }

  /** Probing, resending and outdated timers move no sequence space. */
  lemma FireSame(q: Queue, id: nat, probe: ProbeReply)
    requires Valid(q) && id in q.live
    requires probe.Sent? || probe.Backpressured?
    requires !TimerBranch(q, id).GiveUp?
    ensures SameBooks(q, Fire(q, id, Returned, probe))
    ensures Fire(q, id, Returned, probe).timer.Some? && Fire(q, id, Returned, probe).persist == q.persist
  {
    FireKeepsValid(q, id, Returned, probe);
    if TimerBranch(q, id).Resends? { BumpOldestSame(q.segments, q.sndUna, q.sndNxt); }
    hide Valid, Flatten;
  }

  lemma SetPersistKeeps(s: Sender, header: Header, enabled: bool)
    requires Base(s) && (s.life.state.SynSent? ==> !enabled)
    ensures var t := SendPath.SetPersist(s, header, enabled);
      && Base(t) && t == s.(trace := t.trace, rtx := Retransmission.SetPersist(s.rtx, enabled, Returned))
      && SameBooks(s.rtx, t.rtx)
  {
    assert Valid(s.rtx);
    hide Base, Valid, Flatten;
    SetPersistSame(s.rtx, enabled);
    var s' := s.(rtx := Retransmission.SetPersist(s.rtx, enabled, Returned));
    SameBooksKeeps(s, s'.rtx);
    TransmitOldestKeeps(s', header);
    hide SameBooks, Retransmission.SetPersist;
  }

  // ----- congestion control -----

  /** Congestion control touches only its own fields. */
  lemma CongestionFieldsKeep(s: Sender, cong: Congestion, pacer: P.Pacer)
    requires Base(s)
    requires 1 <= cong.window <= CwndCap(s)
    requires s.life.state.SynSent? ==> cong.window <= s.cfg.windowSize && cong.recoveryUntil.None?
    requires cong.recoveryUntil.Some? ==> cong.recoveryUntil.value == s.rtx.sndNxt
    requires P.PacerOk(pacer) && pacer.past == s.pacer.past
    ensures Base(s.(cong := cong, pacer := pacer))
  {
    hide Base, QueueCounted, Conserved, Sequenced, Consistent, P.PacerOk;
    Unpack(s);
    Pack(s.(cong := cong, pacer := pacer));
  }

  lemma CongestionLossKeeps(s: Sender, timeout: bool)
    requires Base(s) && (!s.life.state.SynSent? || s.rtx.payloadBytesInFlight == 0)
    ensures var t := CongestionLoss(s, timeout);
      && Base(t)
      && t == s.(cong := t.cong, pacer := t.pacer)
      && (RecoveryHasData(s) ==> RecoveryHasData(t))
  {
    hide Base, QueueCounted, Conserved, Sequenced, Consistent, P.PacerOk, P.NoteLoss, Valid, Flatten, Wrap;
    if s.rtx.payloadBytesInFlight != 0 {
      Unpack(s);
      Facts(s);
      P.OperationsKeepPacerOk(s.pacer, 0, 0);
      var t := CongestionLoss(s, timeout);
      CongestionFieldsKeep(s, t.cong, t.pacer);
    }
  }

  lemma GrowWindowInRange(s: Sender, bytes: int)
    requires s.cfg.Valid()
    ensures 1 <= GrowWindow(s, bytes) <= s.cfg.windowSize
  {
  }

  lemma CongestionAckKeeps(s: Sender, header: Header, bytes: int, ack: U32)
    requires Base(s) && !s.rtx.closed && s.rtx.sndUna == ack
    requires bytes <= 0 ==> RecoveryHasData(s)
    ensures var t := CongestionAck(s, header, bytes, ack);
      && Base(t) && RecoveryHasData(t)
      && t == s.(cong := t.cong, pacer := t.pacer, trace := t.trace)
  {
    if bytes > 0 {
      if s.cong.recoveryUntil.Some? {
        RecoveryAckKeeps(s, header, bytes, ack);
      } else {
        GrowthKeeps(s, header, bytes, ack);
      }
    }
    hide Base, CongestionAck;
  }

  lemma GrowthKeeps(s: Sender, header: Header, bytes: int, ack: U32)
    requires Base(s) && s.cong.recoveryUntil.None?
    ensures var t := CongestionAck(s, header, bytes, ack);
      && Base(t) && t == s.(cong := t.cong, pacer := t.pacer)
  {
    hide Base, P.PacerOk, P.NoteAck, GrowWindow;
    Unpack(s);
    if bytes > 0 {
      GrowWindowInRange(s, bytes);
      var w := GrowWindow(s, bytes);
      P.OperationsKeepPacerOk(s.pacer, bytes, w);
      CongestionFieldsKeep(s, s.cong.(window := w), P.NoteAck(s.pacer, bytes, w));
    }
  }

  /** During recovery an ACK that falls short resends exactly the oldest segment. */
  lemma RecoveryAckKeeps(s: Sender, header: Header, bytes: int, ack: U32)
    requires Base(s) && !s.rtx.closed && s.rtx.sndUna == ack && s.cong.recoveryUntil.Some? && bytes > 0
    ensures var t := CongestionAck(s, header, bytes, ack);
      && Base(t) && RecoveryHasData(t)
      && (if RecoveryComplete(s.cong.recoveryUntil.value, ack) then t == s.(cong := s.cong.(recoveryUntil := None))
          else t == TransmitOldest(s.(cong := s.cong.(fastRetransmitAck := Some(ack))), header) && s.rtx.segments != [])
      && t == s.(cong := t.cong, trace := t.trace)
  {
    hide Base, P.PacerOk, TransmitOldest, SeqLessThan, Valid, Flatten, Wrap;
    Unpack(s);
    Facts(s);
    CongestionFieldsKeep(s, s.cong.(recoveryUntil := None), s.pacer);
    CongestionFieldsKeep(s, s.cong.(fastRetransmitAck := Some(ack)), s.pacer);
    TransmitOldestKeeps(s.(cong := s.cong.(fastRetransmitAck := Some(ack))), header);
  }

  lemma FastRetransmitKeeps(s: Sender, header: Header)
    requires Core(s)
    ensures var t := SendPath.FastRetransmit(s, header);
      && Core(t) && SameBooks(s.rtx, t.rtx)
      && t == s.(rtx := t.rtx, cong := t.cong, pacer := t.pacer, trace := t.trace)
  {
    hide Base, Retransmission.FastRetransmit, SameBooks, Flatten, Valid, CongestionLoss, TransmitOldest;
    Facts(s);
    FastRetransmitSame(s.rtx);
    var s' := s.(rtx := Retransmission.FastRetransmit(s.rtx, Returned).0);
    SameBooksKeeps(s, s'.rtx);
    SameBooksFacts(s.rtx, s'.rtx);
    if CanFastRetransmit(s.rtx) {
      SynHasNoPayload(s);
      CongestionLossKeeps(s', false);
      TransmitOldestKeeps(CongestionLoss(s', false), header);
    }
  }

  lemma SameBooksFacts(q: Queue, q': Queue)
    requires SameBooks(q, q')
    ensures q'.payloadBytesInFlight == q.payloadBytesInFlight && (q'.segments == [] <==> q.segments == [])
    ensures q'.closed == q.closed && q'.sndNxt == q.sndNxt && q'.sndUna == q.sndUna && q'.exhausted == q.exhausted
    ensures Valid(q')
  {
  }

  lemma SynHasNoPayload(s: Sender)
    requires Base(s)
    ensures s.life.state.SynSent? ==> s.rtx.payloadBytesInFlight == 0
  {
    if s.life.state.SynSent? {
      FlattenLength(s.rtx.segments);
      WireFacts(BytesOf(s.log.tracked), s.life.finSent);
      assert s.log.tracked[0..] == s.log.tracked;
    }
  }

  // ----- acknowledgements -----

  lemma DropFromStream(items: seq<Item>, acked: nat, n: nat)
    requires acked + n <= |items|
    ensures items[acked..][n..] == items[acked + n..]
    ensures items[acked..][..n] == items[acked..acked + n]
  {
  }

  lemma AdvanceNames(s: Sender, ack: U32)
    requires Base(s) && Acknowledge(s.rtx, ack).1.Advanced?
    ensures var (q, status, bytes) := Acknowledge(s.rtx, ack);
      var n := SequenceDistance(ack, s.rtx.sndUna);
      && Valid(q) && AckDropped(s.rtx, q, bytes, n)
      && q.sndUna == ack && !s.rtx.closed && Flatten(s.rtx.segments) == s.log.tracked[s.log.acked..]
  {
    hide Base, Valid, Acknowledge, SequenceDistance, Wrap, Flatten, BytesOf;
    AlreadyWrapped(ack);
    Facts(s);
    AcknowledgeDrops(s.rtx, ack);
    DistanceNames(ack, s.rtx.sndUna);
    AdvancedIsOpen(s.rtx, ack);
  }

  /** An accepted acknowledgement moves `acked` forward over exactly the items
      it names, and the queue keeps holding the rest of the stream. */
  lemma AdvanceKeepsSequenced(s: Sender, ack: U32)
    requires Base(s) && Acknowledge(s.rtx, ack).1.Advanced?
    ensures var (q, status, bytes) := Acknowledge(s.rtx, ack);
      var n := SequenceDistance(ack, s.rtx.sndUna);
      && AckDropped(s.rtx, q, bytes, n) && q.sndUna == ack && !s.rtx.closed
      && s.log.acked + n <= |s.log.tracked| && bytes == |BytesOf(s.log.tracked[s.log.acked..s.log.acked + n])|
      && Sequenced(q, s.log.(acked := s.log.acked + n), s.relaySeq)
  {
    hide Base, Valid, Acknowledge, SequenceDistance, Wrap, Flatten, BytesOf, Sequenced;
    AdvanceNames(s, ack);
    Facts(s);
    var n := SequenceDistance(ack, s.rtx.sndUna);
    AdvancesSequenced(s.rtx, Acknowledge(s.rtx, ack).0, Acknowledge(s.rtx, ack).2, n, s.log, s.relaySeq);
  }

  lemma AdvancesSequenced(q: Queue, q': Queue, bytes: int, n: nat, log: History, relaySeq: U32)
    requires Valid(q') && AckDropped(q, q', bytes, n) && !q.closed
    requires log.acked <= |log.tracked| && Flatten(q.segments) == log.tracked[log.acked..]
    requires q.sndUna == Wrap(log.iss + log.acked) && q.sndNxt == relaySeq == Wrap(log.iss + |log.tracked|)
    ensures log.acked + n <= |log.tracked| && bytes == |BytesOf(log.tracked[log.acked..log.acked + n])|
    ensures Sequenced(q', log.(acked := log.acked + n), relaySeq)
  {
    hide Valid, Flatten, BytesOf;
    WrapAdd(log.iss + log.acked, n);
    DropFromStream(log.tracked, log.acked, n);
    hide Wrap;
  }

  lemma AdvancedIsOpen(q: Queue, ack: U32)
    requires Valid(q) && Acknowledge(q, ack).1.Advanced?
    ensures !q.closed
  {
  }

  /** What an ACK does to the connection's books: exactly the named items leave,
      and no exception is thrown. */
  lemma AcknowledgeQueueKeeps(s: Sender, ack: U32)
    requires Core(s) && s.life.current
    ensures var (t, status, bytes) := AcknowledgeQueue(s, ack);
      && Base(t) && !status.AckThrew?
      && t == s.(rtx := t.rtx, log := s.log.(acked := t.log.acked))
      && (status.Advanced? ==>
            && !s.rtx.closed
            && t.rtx.sndUna == ack
            && s.log.acked < t.log.acked <= |s.log.tracked|
            && bytes == |BytesOf(s.log.tracked[s.log.acked..t.log.acked])|
            && (bytes <= 0 ==> RecoveryHasData(t)))
      && (!status.Advanced? ==> t.log.acked == s.log.acked && SameBooks(s.rtx, t.rtx) && Core(t) && t.rtx.timer == s.rtx.timer)
  {
    hide Base, QueueCounted, Conserved, Sequenced, Consistent, P.PacerOk, Acknowledge, SequenceDistance, Flatten, BytesOf, Valid,
         SameBooks;
    Unpack(s);
    Facts(s);
    if Acknowledge(s.rtx, ack).1.Advanced? {
      AdvanceKeepsSequenced(s, ack);
      AdvanceKeepsRecovery(s, SequenceDistance(ack, s.rtx.sndUna));
      Pack(AcknowledgeQueue(s, ack).0);
    } else {
      NotAdvancedSame(s, ack);
      SameBooksKeeps(s, Acknowledge(s.rtx, ack).0);
    }
  }

  lemma NotAdvancedSame(s: Sender, ack: U32)
    requires Base(s) && s.life.current && !Acknowledge(s.rtx, ack).1.Advanced?
    ensures var q := Acknowledge(s.rtx, ack).0;
      && SameBooks(s.rtx, q) && q.segments == s.rtx.segments && q.timer == s.rtx.timer && !Acknowledge(s.rtx, ack).1.AckThrew?
      && q.persist == s.rtx.persist
  {
    assert Wrap(ack) == ack;
    hide Base, Valid, Acknowledge, SequenceDistance, Wrap, Flatten;
    Facts(s);
    FinishedIsAcked(s);
    AcknowledgeDrops(s.rtx, ack);
    AcknowledgeThrowsIff(s.rtx, ack);
  }

  /** A connection that is closed but still in its table has nothing unacknowledged. */
  lemma FinishedIsAcked(s: Sender)
    requires Base(s) && s.life.current
    ensures s.rtx.closed ==> SequenceDistance(s.rtx.sndNxt, s.rtx.sndUna) == 0
  {
  }

  /** An advance without payload bytes is the SYN or the FIN. */
  lemma AdvanceKeepsRecovery(s: Sender, n: nat)
    requires Core(s) && !s.rtx.closed && 0 < n && s.log.acked + n <= |s.log.tracked|
    ensures |BytesOf(s.log.tracked[s.log.acked..s.log.acked + n])| == 0 ==> s.cong.recoveryUntil.None? || s.life.finSent
  {
    if s.log.acked >= 1 { RunOfWire(s, s.log.acked, s.log.acked + n); }
  }

  lemma HeardIsTold(win: PeerWindow, report: Report)
    requires WindowTold(win)
    ensures WindowTold(Heard(win, report))
  {
    assert (win.reports + [report])[..|win.reports|] == win.reports;
    hide NextWindow;
  }

  lemma UpdateWindowKeeps(s: Sender, sequence: U32, ack: U32, window: int)
    requires Base(s) && TakesWindows(s) && 0 <= window <= MAX_WINDOW
    ensures var t := UpdateWindow(s, sequence, ack, window);
      && Base(t) && t == s.(win := t.win)
  {
    hide Base, QueueCounted, Conserved, Sequenced, Consistent, P.PacerOk, SeqLessThan;
    Unpack(s);
    HeardIsTold(s.win, Report(sequence, ack, window));
    var t := UpdateWindow(s, sequence, ack, window);
    Pack(t);
  }

  /** What a processed ACK may change: nothing on the sending side but the books
      it acknowledges, the window, congestion state, and retransmitted frames. */
  predicate AckFrame(s: Sender, t: Sender) {
    true == (
    && t == s.(rtx := t.rtx, pacer := t.pacer, win := t.win, cong := t.cong, trace := t.trace,
               log := s.log.(acked := t.log.acked))
    && t.log.acked >= s.log.acked
    && t.pacer.timer == s.pacer.timer && t.pacer.blocked == s.pacer.blocked && t.pacer.cfg == s.pacer.cfg
    && t.rtx.closed == s.rtx.closed && t.rtx.exhausted == s.rtx.exhausted
    && s.trace <= t.trace)
  }

  lemma CountDuplicateKeeps(s: Sender, header: Header, ack: U32)
    requires Core(s)
    ensures var t := CountDuplicate(s, header, ack);
      && Core(t) && AckFrame(s, t) && t.log == s.log && t.win == s.win && (s.rtx.timer.Some? ==> t.rtx.timer.Some?)
      && SameBooks(s.rtx, t.rtx)
  {
    hide Base, SameBooks, Valid, Flatten;
    FastRetransmitKeeps(s, header);
    SameBooksReflexive(s);
    var t := SendPath.FastRetransmit(s, header);
    DupCountKeeps(s, s.cong.dupAckCount + 1);
    DupCountKeeps(s, 0);
    DupCountKeeps(t, 0);
    FastRetransmitFrame(s, header);
    hide SendPath.FastRetransmit;
  }

  lemma DupCountKeeps(s: Sender, n: int)
    requires Base(s)
    ensures Base(SetDuplicates(s, n))
  {
    hide QueueCounted, Conserved, Sequenced, Consistent, P.PacerOk;
  }

  lemma SameBooksReflexive(s: Sender)
    requires Core(s)
    ensures SameBooks(s.rtx, s.rtx)
  {
  }

  lemma FastRetransmitFrame(s: Sender, header: Header)
    requires Core(s)
    ensures var t := SendPath.FastRetransmit(s, header);
      AckFrame(s, t) && (s.rtx.timer.Some? ==> t.rtx.timer.Some?)
  {
    hide Base, Frames, Stamp;
  }

  lemma CongestionAckFrame(s: Sender, header: Header, bytes: int, ack: U32)
    ensures AckFrame(s, CongestionAck(s, header, bytes, ack))
  {
    hide Frames, Stamp, GrowWindow, SeqLessThan, TcpMss;
  }

  /** The outcome of the ACK part of a packet handler. */
  predicate AckOutcome(s: Sender, t: Sender, status: AckStatus, changed: bool) {
    true == (
    && Base(t) && RecoveryHasData(t) && AckFrame(s, t) && !status.AckThrew?
    && (changed <==> t.win.size != s.win.size)
    && (status.Advanced? ==> !s.rtx.closed && t.log.acked > s.log.acked)
    && (!status.Advanced? ==> Core(t) && t.log.acked == s.log.acked && (s.rtx.timer.Some? ==> t.rtx.timer.Some?))
    && (!status.Advanced? && !changed && Full(s) ==> Full(t))
    && (!status.Advanced? && !status.Duplicate? ==> !changed))
  }

  lemma AdvancedAckKeeps(a: Sender, header: Header, bytes: int, p: Packet)
    requires Base(a) && TakesWindows(a) && !a.rtx.closed && a.rtx.sndUna == p.ack && 0 <= p.window <= MAX_WINDOW
    requires bytes <= 0 ==> RecoveryHasData(a)
    ensures var w := UpdateWindow(a, p.seqNo, p.ack, p.window);
      var t := CongestionAck(w.(cong := w.cong.(dupAckCount := 0, fastRetransmitAck := None)), header, bytes, p.ack);
      && Base(t) && RecoveryHasData(t) && t.win == w.win
      && AckFrame(a, t) && t.log == a.log
  {
    hide Base, UpdateWindow, CongestionAck;
    UpdateWindowKeeps(a, p.seqNo, p.ack, p.window);
    var w := UpdateWindow(a, p.seqNo, p.ack, p.window);
    var r := w.(cong := w.cong.(dupAckCount := 0, fastRetransmitAck := None));
    OpenBounds(w);
    CongestionFieldsKeep(w, r.cong, w.pacer);
    CongestionAckKeeps(r, header, bytes, p.ack);
    CongestionAckFrame(r, header, bytes, p.ack);
  }

  lemma AdvancedOutcome(s: Sender, header: Header, p: Packet)
    requires Core(s) && TakesWindows(s) && s.life.current && 0 <= p.window <= MAX_WINDOW && AcknowledgeQueue(s, p.ack).1.Advanced?
    ensures var (t, status, changed) := ProcessAck(s, header, p); AckOutcome(s, t, status, changed)
  {
    hide Base, RecoveryHasData, AcknowledgeQueue, UpdateWindow, CongestionAck, SameBooks, BytesOf;
    AcknowledgeQueueKeeps(s, p.ack);
    AcknowledgeQueueFrame(s, p.ack) by { CoreIsBase(s); }
    var (a, status, bytes) := AcknowledgeQueue(s, p.ack);
    AdvancedAckKeeps(a, header, bytes, p);
  }

  lemma DuplicateOutcome(s: Sender, header: Header, p: Packet)
    requires Core(s) && TakesWindows(s) && s.life.current && 0 <= p.window <= MAX_WINDOW && AcknowledgeQueue(s, p.ack).1.Duplicate?
    ensures var (t, status, changed) := ProcessAck(s, header, p); AckOutcome(s, t, status, changed)
  {
    hide Base, AcknowledgeQueue, UpdateWindow, CountDuplicate, CountsAsDuplicate, SameBooks, BytesOf;
    AcknowledgeQueueKeeps(s, p.ack);
    AcknowledgeQueueFrame(s, p.ack) by { CoreIsBase(s); }
    var a := AcknowledgeQueue(s, p.ack).0;
    UpdateWindowKeeps(a, p.seqNo, p.ack, p.window);
    var w := UpdateWindow(a, p.seqNo, p.ack, p.window);
    CountDuplicateKeeps(w, header, p.ack);
    QuietKeepsFull(s, w);
    if Full(w) { CountDuplicateKeepsFull(w, header, p.ack); }
  }

  /** A queue with the same books and a window of the same size leave no room. */
  lemma QuietKeepsFull(s: Sender, t: Sender)
    requires SameBooks(s.rtx, t.rtx) && t == s.(rtx := t.rtx, win := t.win)
    ensures t.win.size == s.win.size && Full(s) ==> Full(t)
  {
    hide Valid, Flatten;
  }

  lemma SomethingOutstanding(s: Sender)
    requires Core(s) && s.rtx.payloadBytesInFlight != 0
    ensures s.log.acked < |s.log.tracked|
  {
    Facts(s);
    hide Wrap, Contiguous, AllCarry, Wire, BytesOf;
    if s.rtx.segments != [] { FlattenLength(s.rtx.segments); }
  }

  /** The response to a loss leaves no room for anything new. */
  lemma LossKeepsFull(s: Sender, timeout: bool)
    requires Core(s) && Full(s)
    ensures Full(CongestionLoss(s, timeout))
  {
    if s.rtx.payloadBytesInFlight != 0 { SomethingOutstanding(s); }
    hide Core, P.NoteLoss;
  }

  lemma CountDuplicateKeepsFull(s: Sender, header: Header, ack: U32)
    requires Core(s) && Full(s)
    ensures Full(CountDuplicate(s, header, ack))
  {
    hide Valid, Flatten, Frames, Stamp, CongestionLoss, Retransmission.FastRetransmit;
    var u := s.(rtx := Retransmission.FastRetransmit(s.rtx, Returned).0);
    FastQueueKeeps(s);
    LossKeepsFull(u, false);
    hide Core;
  }

  lemma FastQueueKeeps(s: Sender)
    requires Core(s) && Full(s)
    ensures var u := s.(rtx := Retransmission.FastRetransmit(s.rtx, Returned).0); Core(u) && Full(u)
  {
    hide Base, Retransmission.FastRetransmit, SameBooks, Flatten, Valid;
    CoreIsBase(s);
    Facts(s);
    FastRetransmitSame(s.rtx);
    SameBooksKeeps(s, Retransmission.FastRetransmit(s.rtx, Returned).0);
    SameBooksFacts(s.rtx, Retransmission.FastRetransmit(s.rtx, Returned).0);
  }

  /** Processing any acknowledgement keeps the invariant. */
  lemma ProcessAckKeeps(s: Sender, header: Header, p: Packet)
    requires Core(s) && TakesWindows(s) && s.life.current && 0 <= p.window <= MAX_WINDOW
    ensures var (t, status, changed) := ProcessAck(s, header, p); AckOutcome(s, t, status, changed)
  {
    var status := AcknowledgeQueue(s, p.ack).1;
    if status.Advanced? {
      AdvancedOutcome(s, header, p);
    } else if status.Duplicate? {
      DuplicateOutcome(s, header, p);
    } else {
      AcknowledgeQueueKeeps(s, p.ack);
      AcknowledgeQueueFrame(s, p.ack) by { CoreIsBase(s); }
    }
    hide Base, RecoveryHasData, AcknowledgeQueue, UpdateWindow, CongestionAck, CountDuplicate, CountsAsDuplicate, SameBooks, BytesOf;
  }

  lemma CoreIsBase(s: Sender)
    requires Core(s)
    ensures Base(s)
  {
  }

  lemma OpenBounds(s: Sender)
    requires Base(s)
    ensures 1 <= s.cong.window <= CwndCap(s) && P.PacerOk(s.pacer) && WindowTold(s.win)
    ensures s.life.state.SynSent? ==> s.cong.window <= s.cfg.windowSize && s.cong.recoveryUntil.None?
    ensures s.cong.recoveryUntil.Some? ==> s.cong.recoveryUntil.value == s.rtx.sndNxt
  {
  }

  lemma AcknowledgeQueueFrame(s: Sender, ack: U32)
    requires Base(s)
    ensures var (a, status, bytes) := AcknowledgeQueue(s, ack);
      a.rtx.closed == s.rtx.closed && a.rtx.exhausted == s.rtx.exhausted
  {
    hide DropItems, DroppedBytes, Base;
  }

  // ----- new sequence space -----

  /** `takeQueuedBytes` splits the queue's bytes after `length` and loses none. */
  lemma {:induction false} TakeQueuedSplits(queue: seq<seq<byte>>, length: nat)
    requires length <= |Concat(queue)|
    ensures var (chunk, left) := TakeQueued(queue, length);
      && |chunk| == length
      && chunk + Concat(left) == Concat(queue)
  {
    if length == 0 || queue == [] {
    } else if |queue[0]| > length {
      assert ([queue[0][length..]] + queue[1..])[1..] == queue[1..];
    } else {
      TakeQueuedSplits(queue[1..], length - |queue[0]|);
      var (rest, left) := TakeQueued(queue[1..], length - |queue[0]|);
      ConcatAssociative(queue[0], rest, Concat(left));
    }
  }

  lemma {:induction false} TakeQueuedKeepsChunks(queue: seq<seq<byte>>, length: nat)
    requires length <= |Concat(queue)| && forall c <- queue :: c != []
    ensures forall c <- TakeQueued(queue, length).1 :: c != []
  {
    if length > 0 && queue != [] {
      assert Concat(queue) == queue[0] + Concat(queue[1..]);
      assert forall c <- queue[1..] :: c in queue;
      if |queue[0]| <= length {
        TakeQueuedKeepsChunks(queue[1..], length - |queue[0]|);
      } else {
        assert forall c <- [queue[0][length..]] + queue[1..] :: c == queue[0][length..] || c in queue;
      }
    }
  }

  lemma TrackOneFrame(q: Queue, f: Frame)
    ensures var (q', status) := Track(q, f.seqNo, f.payload, f.flags);
      TrackFrames(q, [f]) == (q', status.TrackThrewClosed? || status.TrackThrewNonContiguous?)
  {
    assert [f][1..] == [];
    hide Track;
  }

  /** Giving sequence space to one segment's worth of payload: it is tracked,
      never rejected, and sent under its own position. */
  lemma SendTrackedBooks(s: Sender, header: Header, payload: seq<byte>, flags: Flags)
    requires Sequenced(s.rtx, s.log, s.relaySeq) && Consistent(s.log, s.trace)
    requires !s.rtx.closed && !s.rtx.exhausted
    requires SequenceLength(payload, flags) > 0 && |payload| <= TcpMss(s)
    ensures var t := SendTracked(s, header, payload, flags);
      && Sequenced(t.rtx, t.log, t.relaySeq) && Consistent(t.log, t.trace)
      && t == s.(rtx := t.rtx, relaySeq := t.relaySeq, trace := t.trace, log := GrowLog(s.log, payload, flags))
      && t.rtx.segments != [] && t.rtx.timer.Some?
      && t.rtx.payloadBytesInFlight == s.rtx.payloadBytesInFlight + |payload|
      && !t.rtx.closed && !t.rtx.exhausted && t.rtx.persist == s.rtx.persist
  {
    var f := Frame(s.relaySeq, HeaderFor(s, flags, header), flags, payload);
    TrackOneFrame(s.rtx, f);
    SendTrackedQueue(s.rtx, s.log, s.relaySeq, payload, flags);
    SendTrackedTrace(s, header, payload, flags);
    hide Sequenced, Consistent, Track, TrackFrames, Stamp, HeaderFor;
  }

  lemma SendTrackedQueue(q: Queue, log: History, relaySeq: U32, payload: seq<byte>, flags: Flags)
    requires Sequenced(q, log, relaySeq) && !q.closed && !q.exhausted && SequenceLength(payload, flags) > 0
    ensures var (q', status) := Track(q, relaySeq, payload, flags);
      && status.Tracked?
      && Sequenced(q', GrowLog(log, payload, flags), Wrap(relaySeq + SequenceLength(payload, flags)))
      && q'.segments != [] && q'.timer.Some? && q'.payloadBytesInFlight == q.payloadBytesInFlight + |payload|
      && !q'.closed && !q'.exhausted && q'.persist == q.persist
  {
    hide Valid, Flatten, Wrap, Items;
    AlreadyWrapped(relaySeq);
    TrackKeepsValid(q, relaySeq, payload, flags);
    TrackedIsArmed(q, relaySeq, payload, flags);
    var n := SequenceLength(payload, flags);
    WrapAdd(log.iss + |log.tracked|, n);
    var items := Items(payload, flags.syn, flags.fin);
    ItemsLength(payload, flags);
    assert (log.tracked + items)[log.acked..] == log.tracked[log.acked..] + items;
    hide Track;
  }

  lemma ItemsLength(payload: seq<byte>, flags: Flags)
    ensures |Items(payload, flags.syn, flags.fin)| == SequenceLength(payload, flags)
  {
  }

  lemma TrackedIsArmed(q: Queue, seqNo: int, payload: seq<byte>, flags: Flags)
    requires Valid(q) && Track(q, seqNo, payload, flags).1.Tracked?
    ensures var q' := Track(q, seqNo, payload, flags).0;
      && q'.timer.Some? && q'.sndUna == q.sndUna && q'.persist == q.persist && !q'.closed && !q'.exhausted
      && q'.payloadBytesInFlight == q.payloadBytesInFlight + |payload|
  {
    hide Books, Wrap;
  }

  lemma SendTrackedTrace(s: Sender, header: Header, payload: seq<byte>, flags: Flags)
    requires Sequenced(s.rtx, s.log, s.relaySeq) && Consistent(s.log, s.trace)
    ensures var t := Transmit(s, header, payload, flags, s.relaySeq, |s.log.tracked|);
      Consistent(GrowLog(s.log, payload, flags), t.trace)
  {
    var items := Items(payload, flags.syn, flags.fin);
    var pos := |s.log.tracked|;
    assert |items| == SequenceLength(payload, flags);
    assert (s.log.tracked + items)[pos..pos + |items|] == items;
    assert s.relaySeq == Wrap(s.log.iss + pos);
    hide Items, Sequenced, Wrap, Frames, Stamp;
    AllCarryGrows(s.log.iss, s.log.tracked, items, s.trace);
    SegmentationCarries(payload, TcpMss(s), flags, HeaderFor(s, flags, header), s.log.iss, pos, s.log.tracked + items);
    AllCarryAppend(s.log.iss, s.log.tracked + items, s.trace,
      Stamp(pos, Frames(payload, TcpMss(s), flags, s.relaySeq, HeaderFor(s, flags, header))));
  }

  lemma ConservedChunk(log: History, queue: seq<seq<byte>>, life: Life, length: nat, flags: Flags)
    requires Conserved(log, queue, life) && !life.finSent && length <= |Concat(queue)| && !flags.syn && !flags.fin
    ensures var (chunk, left) := TakeQueued(queue, length); Conserved(GrowLog(log, chunk, flags), left, life)
  {
    TakeQueuedSplits(queue, length);
    var (chunk, left) := TakeQueued(queue, length);
    var b := BytesOf(log.tracked);
    WireGrows(b, chunk);
    WireFacts(b + chunk, false);
    ConcatAssociative(b, chunk, Concat(left));
    hide Wire, BytesOf, Concat, TakeQueued;
  }

  lemma ConservedFin(log: History, life: Life, flags: Flags)
    requires Conserved(log, [], life) && !life.finSent && life.pendingFin && !flags.syn && flags.fin
    ensures Conserved(GrowLog(log, [], flags), [], life.(pendingFin := false, finSent := true, state := FinWait))
  {
    var b := BytesOf(log.tracked);
    WireGrows(b, []);
    WireFacts(b, true);
    hide Wire, BytesOf;
  }
}
