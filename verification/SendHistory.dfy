/** How the history of a sending half moves: sequence space is handed out once
    and for good, acknowledgement never goes back, a closed connection stays
    closed, and during loss recovery no new sequence space is used. */
module SendHistory {
  import opened Bytes
  import opened SequenceNumbers
  import opened Retransmission
  import opened RetransmissionProofs
  import opened SendPath
  import opened SendInvariant
  import opened SendOperations
  import opened SendProgress
  import opened SendEvents
  import P = Pacing

  predicate Grows(h: History, k: History) {
    k.iss == h.iss && h.tracked <= k.tracked && h.stream <= k.stream && h.acked <= k.acked
  }

  predicate Same(s: Sender, t: Sender) { t.log.tracked == s.log.tracked }

  /** Recovery ends only by acknowledging all that was outstanding, or by closing;
      until then nothing new is sent. Closing is final. */
  predicate Frozen(s: Sender, t: Sender) {
    && (s.life.state.Closed? ==> t.life.state.Closed? && Same(s, t))
    && (InRecovery(s) ==>
          |s.log.tracked| <= t.log.acked || (Same(s, t) && (t.life.state.Closed? || InRecovery(t))))
  }

  /** A paused source has more than the low-water mark queued, so something is
      waiting to be sent that will resume it; one that is not paused has less
      than the high-water mark. */
  predicate PauseOk(s: Sender) {
    && (s.out.sourcePaused ==> s.out.bytes > s.cfg.highWater / 2)
    && (s.out.bytes >= s.cfg.highWater > 0 ==> s.out.sourcePaused)
  }

  /** How any event moves the history. */
  predicate Follows(s: Sender, t: Sender) {
    Grows(s.log, t.log) && Frozen(s, t) && t.cfg == s.cfg && (PauseOk(s) ==> PauseOk(t))
  }

  /** How any event moves it that does not come from the source. */
  predicate Evolves(s: Sender, t: Sender) {
    Follows(s, t) && t.log.stream == s.log.stream && t.log.ended == s.log.ended
  }

  lemma FollowsTrans(s: Sender, t: Sender, u: Sender)
    requires Follows(s, t) && Follows(t, u)
    ensures Follows(s, u)
  {
  }

  lemma EvolvesTrans(s: Sender, t: Sender, u: Sender)
    requires Evolves(s, t) && Evolves(t, u)
    ensures Evolves(s, u)
  {
  }

  /** Frames, timers, wake-ups and the like do not touch the history. */
  lemma StillEvolves(s: Sender, t: Sender)
    requires t.log == s.log && t.cong.recoveryUntil == s.cong.recoveryUntil && t.out == s.out && t.cfg == s.cfg
    requires s.life.state.Closed? ==> t.life.state.Closed?
    ensures Evolves(s, t)
  {
  }

  // ----- the end of recovery -----

  /** The 32-bit test for the end of recovery is right: it succeeds exactly when
      everything that was outstanding is acknowledged. */
  lemma CompleteMeansAcked(log: History)
    requires log.acked <= |log.tracked| && |log.tracked| - log.acked < HALF
    ensures RecoveryComplete(Wrap(log.iss + |log.tracked|), Wrap(log.iss + log.acked)) <==> log.acked == |log.tracked|
  {
    DistanceOfPositions(log.iss, |log.tracked|, log.acked);
    DistanceOfPositions(log.iss, log.acked, |log.tracked|);
    if Wrap(log.iss + |log.tracked|) == Wrap(log.iss + log.acked) { WrapInjective(log.iss, |log.tracked|, log.acked); }
  }

  lemma RecoveryBooks(s: Sender)
    requires Core(s) && !s.life.state.Closed?
    ensures s.log.acked <= |s.log.tracked| && |s.log.tracked| - s.log.acked < HALF
    ensures s.rtx.sndUna == Wrap(s.log.iss + s.log.acked) && s.rtx.sndNxt == Wrap(s.log.iss + |s.log.tracked|)
    ensures s.cong.recoveryUntil.Some? ==> s.cong.recoveryUntil.value == s.rtx.sndNxt
    ensures s.rtx.segments == [] ==> !InRecovery(s)
  {
    OpenFacts(s);
    OutstandingBound(s);
    CoreIsBase(s);
    Facts(s);
    OpenBounds(s);
    hide Core, Base, Wrap;
  }

  lemma EndRecoveryEvolves(s: Sender)
    requires Core(s)
    ensures Evolves(s, EndFinishedRecovery(s)) && EndFinishedRecovery(s).log == s.log
    ensures EndFinishedRecovery(s).cong.recoveryUntil.None? ==> s.life.state.Closed? || !InRecovery(s)
  {
    hide Core, Wrap, SeqLessThan;
    if !s.life.state.Closed? {
      RecoveryBooks(s);
      CompleteMeansAcked(s.log);
    }
  }

  // ----- new sequence space -----

  lemma SendTrackedEvolves(s: Sender, header: Header, payload: seq<byte>, flags: Flags)
    requires !s.life.state.Closed? && !InRecovery(s)
    ensures Evolves(s, SendTracked(s, header, payload, flags))
  {
    hide Frames, Stamp, TrackFrames, Items;
  }

  lemma MaybeFinEvolves(s: Sender, header: Header)
    requires Core(s)
    ensures Evolves(s, MaybeFin(s, header))
  {
    hide Core, SendTracked, EndFinishedRecovery, Evolves;
    OpenFacts(s);
    EndRecoveryEvolves(s);
    var r := EndFinishedRecovery(s);
    EndRecoveryFrame(s);
    StillEvolves(s, s);
    if s.life.current && FinWaits(s) && r.cong.recoveryUntil.None? {
      SendTrackedEvolves(SendingFin(r), header, [], ACK_FIN);
      var t := SendTracked(SendingFin(r), header, [], ACK_FIN);
      StillEvolves(r, SendingFin(r));
      EvolvesTrans(r, SendingFin(r), t);
      EvolvesTrans(s, r, t);
    }
  }

  lemma SendQueuedEvolves(s: Sender, header: Header, length: nat)
    requires !s.life.state.Closed? && s.cong.recoveryUntil.None?
    ensures Evolves(s, SendQueued(s, header, length, ACK_PSH))
  {
    if length <= |Concat(s.out.queue)| {
      var (chunk, left) := TakeQueued(s.out.queue, length);
      SendTrackedEvolves(s.(out := s.out.(queue := left)), header, chunk, ACK_PSH);
    }
    hide SendTracked, TakeQueued, Concat;
  }

  // ----- the drain loop -----

  lemma AfterChunkEvolves(s: Sender, header: Header, available: int, length: nat, now: int, sentBefore: nat)
    requires Core(s) && Open(s) && s.rtx.timer.Some? && !s.pacer.blocked
    ensures Evolves(s, AfterChunk(s, header, available, length, now, sentBefore).0)
  {
    hide Core, P.NoteSegment, MaybeFin;
    PacerKeeps(s, now);
    var p := s.(pacer := P.NoteSegment(s.pacer, now));
    WakersKeep(p, p.wake.(sending := false));
    MaybeFinEvolves(Idle(p), header);
    StillEvolves(s, Idle(p));
    EvolvesTrans(s, Idle(p), MaybeFin(Idle(p), header));
  }

  lemma DrainPassEvolves(s: Sender, header: Header, turn: Turn, sentBefore: nat)
    requires Draining(s)
    ensures Evolves(s, DrainPass(s, header, turn, sentBefore).0)
  {
    hide Core, MaybeFin, SendQueued, AfterChunk, ChunkSize, EndFinishedRecovery;
    OpenFacts(s);
    WakersKeep(s, s.wake.(sending := false));
    if s.out.queue == [] {
      MaybeFinEvolves(Idle(s), header);
      StillEvolves(s, Idle(s));
      EvolvesTrans(s, Idle(s), MaybeFin(Idle(s), header));
    } else {
      EndRecoveryEvolves(s);
      EndFinishedRecoveryKeeps(s);
      var r := EndFinishedRecovery(s);
      if ChunkSize(r) > 0 && r.cong.recoveryUntil.None? {
        ChunkEvolves(r, header, turn.now, sentBefore);
        EvolvesTrans(s, r, AfterChunk(SendQueued(r, header, ChunkSize(r), ACK_PSH), header, Available(r), ChunkSize(r),
                                      turn.now, sentBefore).0);
        ChunkNotThrown(r, header);
      } else if ChunkSize(r) > 0 {
        RecoverySendsNothing(r);
      }
    }
  }

  lemma ChunkNotThrown(s: Sender, header: Header)
    requires Core(s) && Open(s) && s.cong.recoveryUntil.None? && s.out.queue != [] && ChunkSize(s) > 0
    ensures !SendQueued(s, header, ChunkSize(s), ACK_PSH).life.thrown
  {
    hide Core, SendQueued, ChunkSize;
    SendQueuedKeeps(s, header, ChunkSize(s));
    OpenFacts(SendQueued(s, header, ChunkSize(s), ACK_PSH));
  }

  lemma ChunkEvolves(s: Sender, header: Header, now: int, sentBefore: nat)
    requires Core(s) && Open(s) && s.cong.recoveryUntil.None? && s.out.queue != [] && ChunkSize(s) > 0 && !s.pacer.blocked
    ensures Evolves(s, AfterChunk(SendQueued(s, header, ChunkSize(s), ACK_PSH), header, Available(s), ChunkSize(s), now, sentBefore).0)
  {
    hide Core, SendQueued, ChunkSize, AfterChunk, Available;
    SendQueuedKeeps(s, header, ChunkSize(s));
    SendQueuedEvolves(s, header, ChunkSize(s));
    var c := SendQueued(s, header, ChunkSize(s), ACK_PSH);
    AfterChunkEvolves(c, header, Available(s), ChunkSize(s), now, sentBefore);
    EvolvesTrans(s, c, AfterChunk(c, header, Available(s), ChunkSize(s), now, sentBefore).0);
  }

  lemma {:induction false} DrainLoopEvolves(s: Sender, header: Header, turns: nat -> Turn, pass: nat)
    requires Draining(s)
    ensures Evolves(s, DrainLoop(s, header, turns, pass))
    decreases s.out.bytes
  {
    DrainPassKeeps(s, header, turns(pass), pass);
    DrainPassEvolves(s, header, turns(pass), pass);
    var (t, again) := DrainPass(s, header, turns(pass), pass);
    hide Core, DrainPass, Draining, Wakeful;
    if again {
      DrainLoopEvolves(t, header, turns, pass + 1);
      EvolvesTrans(s, t, DrainLoop(t, header, turns, pass + 1));
    }
  }

  lemma TrySendEvolves(s: Sender, header: Header, turns: nat -> Turn)
    requires Core(s) && !s.wake.sending
    ensures Evolves(s, TrySend(s, header, turns))
  {
    hide Core, SendPath.SetPersist, DrainLoop;
    if CanDrain(s) {
      OpenFacts(s);
      var u := s.(wake := s.wake.(sending := true));
      WakersKeep(s, u.wake);
      PersistArms(u, header);
      var v := SendPath.SetPersist(u, header, WantsPersist(u));
      DrainLoopEvolves(v, header, turns, 0);
      StillEvolves(s, v);
      EvolvesTrans(s, v, DrainLoop(v, header, turns, 0));
    }
  }

  // ----- acknowledgements -----

  /** The oldest outstanding segment starts at `ack`, holds the stream's items
      there, and is all that was put on the wire since `trace`. */
  predicate ResentOldest(t: Sender, trace: seq<Emission>, header: Header, ack: U32) {
    && t.rtx.segments != []
    && var g := t.rtx.segments[0];
       && g.seqNo == ack == Wrap(t.log.iss + t.log.acked)
       && t.log.acked + |SegmentItems(g)| <= |t.log.tracked|
       && SegmentItems(g) == t.log.tracked[t.log.acked..t.log.acked + |SegmentItems(g)|]
       && t.trace == trace + Stamp(t.log.acked, Frames(g.payload, TcpMss(t), g.flags, ack, HeaderFor(t, g.flags, header)))
  }

  /** A partial acknowledgement of data leaves recovery active and resends
      exactly the oldest outstanding segment, which now starts at its number;
      duplicates of that number do not resend it once more. */
  lemma PartialAckResendsOldest(s: Sender, header: Header, p: Packet)
    requires Core(s) && s.life.current && InRecovery(s) && 0 <= p.window <= MAX_WINDOW
    ensures var (t, status, changed) := ProcessAck(s, header, p);
      status.Advanced? && t.log.acked < |s.log.tracked| && AcknowledgeQueue(s, p.ack).2 > 0 ==>
        InRecovery(t) && ResentOldest(t, s.trace, header, p.ack) && t.cong.fastRetransmitAck == Some(p.ack)
  {
    var (a, status, bytes) := AcknowledgeQueue(s, p.ack);
    hide Core, Base, AcknowledgeQueue, SameBooks, BytesOf, SeqLessThan, Wrap, ResentOldest, TransmitOldest, RecoveryComplete,
      CongestionAck, InRecovery;
    AcknowledgeQueueKeeps(s, p.ack);
    AcknowledgeQueueFrame(s, p.ack) by { CoreIsBase(s); }
    if status.Advanced? {
      var w := UpdateWindow(a, p.seqNo, p.ack, p.window);
      var r := w.(cong := w.cong.(dupAckCount := 0, fastRetransmitAck := None));
      RecoveryIsOpen(s);
      UpdateWindowKeeps(a, p.seqNo, p.ack, p.window);
      CongestionAckFrame(r, header, bytes, p.ack);
      if CongestionAck(r, header, bytes, p.ack).log.acked < |s.log.tracked| && bytes > 0 {
        PartialResends(s, w, r, header, bytes, p.ack);
      }
    }
  }

  lemma RecoveryIsOpen(s: Sender)
    requires Core(s) && InRecovery(s)
    ensures TakesWindows(s)
  {
    CoreIsBase(s);
    OpenBounds(s);
    hide Core, Base;
  }

  lemma PartialResends(s: Sender, w: Sender, r: Sender, header: Header, bytes: int, ack: U32)
    requires Core(s) && InRecovery(s) && !s.rtx.closed && Base(w) && !w.rtx.closed && w.cong == s.cong && bytes > 0
    requires w.log == s.log.(acked := w.log.acked) && s.log.acked <= w.log.acked < |s.log.tracked|
    requires w.rtx.sndUna == ack && r == w.(cong := w.cong.(dupAckCount := 0, fastRetransmitAck := None))
    ensures var t := CongestionAck(r, header, bytes, ack);
      InRecovery(t) && ResentOldest(t, w.trace, header, ack) && t.cong.fastRetransmitAck == Some(ack)
  {
    hide Core, Base, TransmitOldest, RecoveryComplete, CongestionAck, ResentOldest, Wrap, TcpMss;
    OpenBounds(w);
    CongestionFieldsKeep(w, r.cong, w.pacer);
    NotComplete(s, r);
    RecoveryAckKeeps(r, header, bytes, ack);
    var u := r.(cong := r.cong.(fastRetransmitAck := Some(ack)));
    CongestionFieldsKeep(w, u.cong, w.pacer);
    OldestResent(u, header, ack);
  }

  lemma OldestResent(s: Sender, header: Header, ack: U32)
    requires Base(s) && s.rtx.segments != [] && s.rtx.sndUna == ack
    ensures var t := TransmitOldest(s, header);
      ResentOldest(t, s.trace, header, ack) && t == s.(trace := t.trace)
  {
    OldestIsStream(s);
    Facts(s);
    hide Base, Frames, Stamp, SegmentItems, Wrap;
  }

  lemma NotComplete(s: Sender, r: Sender)
    requires Core(s) && !s.rtx.closed && Base(r) && r.cong.recoveryUntil.Some?
    requires r.log == s.log.(acked := r.log.acked) && s.log.acked <= r.log.acked < |s.log.tracked|
    ensures !RecoveryComplete(r.cong.recoveryUntil.value, r.rtx.sndUna)
  {
    OutstandingBound(s);
    Facts(r);
    OpenBounds(r);
    CompleteMeansAcked(r.log);
    hide Core, Base;
  }

  lemma ProcessAckEvolves(s: Sender, header: Header, p: Packet)
    requires Core(s) && s.life.current && 0 <= p.window <= MAX_WINDOW
    ensures Evolves(s, ProcessAck(s, header, p).0)
  {
    hide Core, Base, AcknowledgeQueue, CongestionAck, CountDuplicate, CountsAsDuplicate, SameBooks, BytesOf, SeqLessThan, Wrap,
      RecoveryComplete;
    AcknowledgeQueueKeeps(s, p.ack);
    var (a, status, bytes) := AcknowledgeQueue(s, p.ack);
    var w := UpdateWindow(a, p.seqNo, p.ack, p.window);
    if status.Advanced? {
      var r := w.(cong := w.cong.(dupAckCount := 0, fastRetransmitAck := None));
      CongestionAckRecovery(r, header, bytes, p.ack);
      CongestionAckFrame(r, header, bytes, p.ack);
      if InRecovery(s) && a.log.acked < |s.log.tracked| {
        RecoveryIsOpen(s);
      UpdateWindowKeeps(a, p.seqNo, p.ack, p.window);
        OpenBounds(w);
        CongestionFieldsKeep(w, r.cong, w.pacer);
        NotComplete(s, r);
      }
    } else {
      DuplicateRecovery(w, header, p.ack);
    }
  }

  lemma CongestionAckRecovery(s: Sender, header: Header, bytes: int, ack: U32)
    ensures var t := CongestionAck(s, header, bytes, ack);
      s.cong.recoveryUntil.Some? && !RecoveryComplete(s.cong.recoveryUntil.value, ack) ==> t.cong.recoveryUntil.Some?
  {
    hide Frames, Stamp, GrowWindow, SeqLessThan;
  }

  lemma DuplicateRecovery(s: Sender, header: Header, ack: U32)
    ensures var t := CountDuplicate(s, header, ack);
      && t.log == s.log && t.life == s.life && t.out == s.out && t.cfg == s.cfg
      && (s.cong.recoveryUntil.Some? ==> t.cong.recoveryUntil.Some?)
  {
    hide Frames, Stamp, Retransmission.FastRetransmit, P.NoteLoss;
  }

  lemma FastRetransmitEvolves(s: Sender, header: Header)
    ensures Evolves(s, SendPath.FastRetransmit(s, header))
  {
    hide Frames, Stamp, Retransmission.FastRetransmit, P.NoteLoss;
  }

  // ----- the timer -----

  /** A zero-window probe uses new sequence space only when nothing is
      outstanding, so never during recovery. */
  lemma ProbeTimerEvolves(s: Sender, header: Header, id: nat, congested: bool)
    requires Core(s) && id in s.rtx.live
    ensures Evolves(s, ProbeTimer(s, header, id, congested))
  {
    hide Core, Fire, TakeQueued, Concat, Frames, Stamp, Items, Wrap, TimerBranch;
    LiveTimer(s, id);
    RecoveryBooks(s);
  }

  lemma TimerEvolves(s: Sender, header: Header, id: nat, congested: bool, open: bool)
    requires Core(s) && id in s.rtx.live
    ensures Evolves(s, RetransmissionTimer(s, header, id, congested, open))
  {
    LiveTimer(s, id);
    ProbeTimerEvolves(s, header, id, congested);
    hide Core, Fire, ProbeTimer, TimerBranch, Transmit, Close, P.ClosePacer, P.NoteLoss;
    match TimerBranch(s.rtx, id) {
      case SendsProbe =>
        var t := ProbeTimer(s, header, id, congested);
        AbortEvolves(t, header, open);
        EvolvesTrans(s, t, Abort(t, header, open));
      case GiveUp => AbortEvolves(FireQueue(s, id, Sent), header, open);
      case Resends => ResendEvolves(FireQueue(s, id, Sent), header);
      case Outdated =>
    }
  }

  lemma AbortEvolves(s: Sender, header: Header, reset: bool)
    ensures Evolves(s, Abort(s, header, reset))
  {
    hide Frames, Stamp, Close, P.ClosePacer;
  }

  lemma ResendEvolves(s: Sender, header: Header)
    ensures Evolves(s, TransmitOldest(CongestionLoss(s, true), header))
  {
    hide Frames, Stamp, P.NoteLoss;
  }
}
