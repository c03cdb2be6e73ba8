/** Every frame an operation of the sending half puts on the wire carries the
    acknowledgement number and, unless it is a SYN-ACK, the window it was given,
    and earlier frames stay as they were. */
module SendHeaders {
  import opened Bytes
  import opened SequenceNumbers
  import opened Retransmission
  import opened SendPath
  import opened SendInvariant
  import P = Pacing

  /** `b` continues the trace `a` with frames that acknowledge `ack`. */
  predicate Appends(a: seq<Emission>, b: seq<Emission>, ack: U32) {
    a <= b && forall i :: |a| <= i < |b| ==> b[i].frame.header.ack == ack
  }

  /** `t` follows `s` under the same setup, its new frames acknowledging `header`. */
  predicate Continues(s: Sender, t: Sender, header: Header) {
    t.cfg == s.cfg && Appends(s.trace, t.trace, header.ack)
  }

  /** The new frames advertise the given window, too. */
  predicate Advertises(s: Sender, t: Sender, header: Header) {
    s.trace <= t.trace && forall i :: |s.trace| <= i < |t.trace| ==> t.trace[i].frame.header == header
  }

  /** Nothing to resend that advertises a window of its own, as the SYN-ACK does. */
  predicate NoSyn(q: Queue) { q.segments != [] ==> !q.segments[0].flags.syn }

  lemma {:induction false} StampHeaders(pos: nat, frames: seq<Frame>, header: Header)
    requires forall f <- frames :: f.header == header
    ensures forall e <- Stamp(pos, frames) :: e.frame.header == header
    decreases |frames|
  {
    if frames != [] { StampHeaders(pos + FrameLength(frames[0]), frames[1..], header); }
  }

  lemma StampNothing(pos: nat)
    ensures Stamp(pos, []) == []
  {
  }

  lemma TransmitAppends(s: Sender, header: Header, payload: seq<byte>, flags: Flags, seqNo: U32, pos: nat)
    ensures Continues(s, Transmit(s, header, payload, flags, seqNo, pos), header)
    ensures !flags.syn ==> Advertises(s, Transmit(s, header, payload, flags, seqNo, pos), header)
  {
    var h := HeaderFor(s, flags, header);
    var frames := Frames(payload, TcpMss(s), flags, seqNo, h);
    FramesRespectMss(payload, TcpMss(s), flags, seqNo, h);
    StampHeaders(pos, frames, h);
    var more := Stamp(pos, frames);
    forall i | |s.trace| <= i < |s.trace + more| ensures (s.trace + more)[i].frame.header == h {
      assert (s.trace + more)[i] in more;
    }
    hide Frames, Stamp, TcpMss;
  }

  lemma OldestAppends(s: Sender, header: Header)
    ensures Continues(s, TransmitOldest(s, header), header)
    ensures NoSyn(s.rtx) ==> Advertises(s, TransmitOldest(s, header), header)
  {
    hide Transmit;
    if s.rtx.segments != [] {
      var g := s.rtx.segments[0];
      TransmitAppends(s, header, g.payload, g.flags, g.seqNo, s.log.acked);
    }
  }

  lemma TrackedAppends(s: Sender, header: Header, payload: seq<byte>, flags: Flags)
    ensures Continues(s, SendTracked(s, header, payload, flags), header)
    ensures !flags.syn ==> Advertises(s, SendTracked(s, header, payload, flags), header)
  {
    TransmitAppends(s, header, payload, flags, s.relaySeq, |s.log.tracked|);
    hide Frames, Stamp, TrackFrames;
  }

  lemma BareAppends(s: Sender, header: Header, flags: Flags)
    ensures Continues(s, TransmitBare(s, header, flags), header)
    ensures !flags.syn ==> Advertises(s, TransmitBare(s, header, flags), header)
  {
    TransmitAppends(s, header, [], flags, s.relaySeq, |s.log.tracked|);
    hide Transmit;
  }

  /** Resending and probing leave the kind of the oldest segment as it is. */
  lemma OldestKeepsKind(q: Queue, enabled: bool, id: nat)
    requires NoSyn(q)
    ensures NoSyn(Retransmission.FastRetransmit(q, Returned).0) && NoSyn(Retransmission.SetPersist(q, enabled, Returned))
    ensures NoSyn(Fire(q, id, Returned, Sent))
  {
  }

  lemma CongestionAckAppends(s: Sender, header: Header, bytes: int, ack: U32)
    ensures Continues(s, CongestionAck(s, header, bytes, ack), header)
    ensures NoSyn(s.rtx) ==> Advertises(s, CongestionAck(s, header, bytes, ack), header)
  {
    hide TransmitOldest, GrowWindow, RecoveryComplete, P.NoteAck;
    OldestAppends(s.(cong := s.cong.(fastRetransmitAck := Some(s.rtx.sndUna))), header);
  }

  lemma CountDuplicateAppends(s: Sender, header: Header, ack: U32)
    ensures Continues(s, CountDuplicate(s, header, ack), header)
    ensures NoSyn(s.rtx) ==> Advertises(s, CountDuplicate(s, header, ack), header)
  {
    hide SendPath.FastRetransmit;
    FastRetransmitAppends(s, header);
  }

  lemma ProcessAckAppends(s: Sender, header: Header, p: Packet)
    ensures Continues(s, ProcessAck(s, header, p).0, header)
    ensures NoSyn(AcknowledgeQueue(s, p.ack).0.rtx) ==> Advertises(s, ProcessAck(s, header, p).0, header)
  {
    hide Acknowledge, CongestionAck, CountDuplicate, CountsAsDuplicate, NextWindow, NoSyn;
    var (a, status, bytes) := AcknowledgeQueue(s, p.ack);
    var w := UpdateWindow(a, p.seqNo, p.ack, p.window);
    CongestionAckAppends(w.(cong := w.cong.(dupAckCount := 0, fastRetransmitAck := None)), header, bytes, p.ack);
    CountDuplicateAppends(w, header, p.ack);
  }

  lemma FastRetransmitAppends(s: Sender, header: Header)
    ensures Continues(s, SendPath.FastRetransmit(s, header), header)
    ensures NoSyn(s.rtx) ==> Advertises(s, SendPath.FastRetransmit(s, header), header)
  {
    if NoSyn(s.rtx) { OldestKeepsKind(s.rtx, false, 0); }
    hide TransmitOldest, P.NoteLoss, Retransmission.FastRetransmit;
    OldestAppends(CongestionLoss(s.(rtx := Retransmission.FastRetransmit(s.rtx, Returned).0), false), header);
  }

  lemma MaybeFinAppends(s: Sender, header: Header)
    ensures Continues(s, MaybeFin(s, header), header)
    ensures Advertises(s, MaybeFin(s, header), header)
  {
    hide SendTracked, SeqLessThan;
    TrackedAppends(SendingFin(EndFinishedRecovery(s)), header, [], ACK_FIN);
  }

  lemma SendQueuedAppends(s: Sender, header: Header, length: nat, flags: Flags)
    ensures Continues(s, SendQueued(s, header, length, flags), header)
    ensures !flags.syn ==> Advertises(s, SendQueued(s, header, length, flags), header)
  {
    if length <= |Concat(s.out.queue)| {
      var (chunk, left) := TakeQueued(s.out.queue, length);
      TrackedAppends(s.(out := s.out.(queue := left)), header, chunk, flags);
    }
    hide SendTracked, TakeQueued;
  }

  lemma DrainPassAppends(s: Sender, header: Header, turn: Turn, sentBefore: nat)
    ensures Continues(s, DrainPass(s, header, turn, sentBefore).0, header)
    ensures Advertises(s, DrainPass(s, header, turn, sentBefore).0, header)
  {
    hide MaybeFin, SendQueued, ChunkSize, P.NoteSegment, SeqLessThan;
    var r := EndFinishedRecovery(s);
    MaybeFinAppends(Idle(s), header);
    if ChunkSize(r) > 0 {
      SendQueuedAppends(r, header, ChunkSize(r), ACK_PSH);
      var c := SendQueued(r, header, ChunkSize(r), ACK_PSH);
      MaybeFinAppends(Idle(c.(pacer := P.NoteSegment(c.pacer, turn.now))), header);
    }
  }

  lemma {:induction false} DrainLoopAppends(s: Sender, header: Header, turns: nat -> Turn, pass: nat)
    ensures Continues(s, DrainLoop(s, header, turns, pass), header)
    ensures Advertises(s, DrainLoop(s, header, turns, pass), header)
    decreases s.out.bytes
  {
    DrainPassAppends(s, header, turns(pass), pass);
    var (t, again) := DrainPass(s, header, turns(pass), pass);
    hide DrainPass;
    if again { DrainLoopAppends(t, header, turns, pass + 1); }
  }

  lemma TrySendAppends(s: Sender, header: Header, turns: nat -> Turn)
    ensures Continues(s, TrySend(s, header, turns), header)
    ensures NoSyn(s.rtx) ==> Advertises(s, TrySend(s, header, turns), header)
  {
    if NoSyn(s.rtx) { OldestKeepsKind(s.rtx, WantsPersist(s), 0); }
    hide DrainLoop, TransmitOldest, Retransmission.SetPersist;
    var u := s.(wake := s.wake.(sending := true));
    var v := SendPath.SetPersist(u, header, WantsPersist(u));
    OldestAppends(u.(rtx := Retransmission.SetPersist(u.rtx, WantsPersist(u), Returned)), header);
    DrainLoopAppends(v, header, turns, 0);
  }

  lemma AbortAppends(s: Sender, header: Header, reset: bool)
    ensures Continues(s, Abort(s, header, reset), header)
    ensures Advertises(s, Abort(s, header, reset), header)
  {
    hide TransmitBare, Close;
    BareAppends(s, header, ACK_RST);
  }

  lemma ProbeTimerAppends(s: Sender, header: Header, id: nat, congested: bool)
    ensures Continues(s, ProbeTimer(s, header, id, congested), header)
    ensures Advertises(s, ProbeTimer(s, header, id, congested), header)
  {
    hide Transmit, Fire, TakeQueued, Concat;
    if s.rtx.segments != [] {
      var g := s.rtx.segments[0];
      var flags := Flags(false, true, g.payload == [] && g.flags.fin, false, false);
      TransmitAppends(FireQueue(s, id, Sent), header, g.payload[..Min(1, |g.payload|)], flags, g.seqNo, s.log.acked);
    } else if s.out.bytes > 0 {
      if |Concat(s.out.queue)| > 0 {
        var (chunk, left) := TakeQueued(s.out.queue, 1);
        TransmitAppends(s.(out := s.out.(queue := left)), header, chunk, ACK, s.relaySeq, |s.log.tracked|);
      }
    } else {
      TransmitAppends(SendingFin(s), header, [], ACK_FIN, s.relaySeq, |s.log.tracked|);
    }
  }

  lemma ResendAppends(s: Sender, header: Header, id: nat)
    ensures Continues(s, TransmitOldest(CongestionLoss(FireQueue(s, id, Sent), true), header), header)
    ensures NoSyn(s.rtx) ==> Advertises(s, TransmitOldest(CongestionLoss(FireQueue(s, id, Sent), true), header), header)
  {
    hide TransmitOldest, Fire, P.NoteLoss;
    if NoSyn(s.rtx) { OldestKeepsKind(s.rtx, false, id); }
    OldestAppends(CongestionLoss(FireQueue(s, id, Sent), true), header);
  }

  lemma TimerAppends(s: Sender, header: Header, id: nat, congested: bool, open: bool)
    ensures Continues(s, RetransmissionTimer(s, header, id, congested, open), header)
    ensures NoSyn(s.rtx) ==> Advertises(s, RetransmissionTimer(s, header, id, congested, open), header)
  {
    hide TransmitOldest, CongestionLoss, Fire, ProbeTimer, Abort, TimerBranch, NoSyn;
    ProbeTimerAppends(s, header, id, congested);
    AbortAppends(FireQueue(s, id, Sent), header, open);
    AbortAppends(ProbeTimer(s, header, id, congested), header, open);
    ResendAppends(s, header, id);
  }
}
