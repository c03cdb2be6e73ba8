/** The drain loop keeps the invariant, respects the windows, and never leaves
    queued bytes or a pending FIN without something armed to send them. */
module SendProgress {
  import opened Bytes
  import opened SequenceNumbers
  import opened Retransmission
  import opened RetransmissionProofs
  import opened SendPath
  import opened SendInvariant
  import opened SendOperations
  import P = Pacing

  /** The handshake is over and nothing has closed the connection. */
  predicate Open(s: Sender) { s.life.current && !s.life.state.SynSent? && !s.life.state.Closed? }

  lemma OpenFacts(s: Sender)
    requires Core(s)
    ensures Open(s) ==> !s.rtx.closed && !s.rtx.exhausted
    ensures s.rtx.closed <==> s.life.state.Closed?
    ensures !s.rtx.closed ==> (s.rtx.timer.Some? <==> s.rtx.segments != [] || s.rtx.persist)
    ensures s.life.state.Closed? && s.life.current ==> s.out.queue == [] && s.life.finSent
    ensures s.out.queue != [] ==> s.out.bytes > 0 && !s.life.finSent
    ensures s.out.bytes == |Concat(s.out.queue)|
    ensures s.pacer.blocked <==> s.pacer.timer.Some?
    ensures s.life.state.SynSent? ==> s.rtx.timer.Some? && !s.rtx.closed
    ensures !s.life.current ==> s.life.state.Closed?
    ensures !s.life.thrown && TcpMss(s) >= 1 && s.cong.window >= 1
  {
    if s.out.queue != [] { assert s.out.queue[0] in s.out.queue; }
    Facts(s);
    hide Contiguous, Flatten, BytesOf, Wrap, Wire, Exhaustions, AllCarry;
  }

  // ----- one chunk -----

  /** A chunk sent by the drain loop leaves the payload in flight within both
      the VM's window and the congestion window. */
  lemma SendQueuedKeeps(s: Sender, header: Header, length: nat)
    requires Core(s) && Open(s) && s.cong.recoveryUntil.None? && s.out.queue != []
    requires 0 < length <= ChunkSize(s)
    ensures var t := SendQueued(s, header, length, ACK_PSH);
      && Core(t) && Open(t)
      && t == s.(rtx := t.rtx, relaySeq := t.relaySeq, out := t.out, log := t.log, trace := t.trace)
      && t.rtx.segments != [] && t.rtx.timer.Some?
      && t.rtx.payloadBytesInFlight == s.rtx.payloadBytesInFlight + length <= Min(s.win.size, s.cong.window)
      && t.log.acked == s.log.acked && t.log.stream == s.log.stream && t.log.ended == s.log.ended
      && t.out.bytes == s.out.bytes - length
  {
    OpenFacts(s);
    ChunkFits(s, length);
    hide Core, Base, QueueCounted, Conserved, Sequenced, Consistent, P.PacerOk, Concat, TakeQueued, SendTracked;
    CoreIsBase(s);
    Unpack(s);
    TakeQueuedSplits(s.out.queue, length);
    var (chunk, left) := TakeQueued(s.out.queue, length);
    var u := s.(out := s.out.(queue := left));
    SendTrackedBooks(u, header, chunk, ACK_PSH);
    ConservedChunk(s.log, s.out.queue, s.life, length, ACK_PSH);
    var t := SendQueued(s, header, length, ACK_PSH);
    CountedChunk(s.out, length, t.out.sourcePaused);
    Pack(t);
    CoreFromBase(s, t);
  }

  lemma ChunkFits(s: Sender, length: nat)
    requires Core(s) && s.cong.recoveryUntil.None? && 0 < length <= ChunkSize(s)
    ensures length <= |Concat(s.out.queue)| && length <= TcpMss(s)
    ensures s.rtx.payloadBytesInFlight + length <= Min(s.win.size, s.cong.window)
  {
  }

  lemma CountedChunk(out: Outbox, length: nat, paused: bool)
    requires QueueCounted(out) && length <= |Concat(out.queue)|
    ensures QueueCounted(Outbox(TakeQueued(out.queue, length).1, Max(0, out.bytes - length), paused))
  {
    TakeQueuedSplits(out.queue, length);
    TakeQueuedKeepsChunks(out.queue, length);
    hide TakeQueued, Concat;
  }

  lemma CoreFromBase(s: Sender, t: Sender)
    requires Core(s) && Base(t) && t.life.state == s.life.state && t.log.acked == s.log.acked
    requires t.cong.recoveryUntil.None?
    ensures Core(t)
  {
    hide Base;
  }

  // ----- the end of recovery, and the FIN -----

  /** Recovery counts as finished exactly when everything outstanding at the
      loss is acknowledged; until then something is outstanding. */
  lemma EndFinishedRecoveryKeeps(s: Sender)
    requires Core(s)
    ensures var r := EndFinishedRecovery(s);
      && Core(r) && r == s.(cong := r.cong) && r.cong.window == s.cong.window
      && r.cong == s.cong.(recoveryUntil := r.cong.recoveryUntil)
      && (r.cong.recoveryUntil.Some? ==> r.cong == s.cong && s.rtx.sndUna != s.rtx.sndNxt)
  {
    hide Base;
    CoreIsBase(s);
    OpenBounds(s);
    CongestionFieldsKeep(s, s.cong.(recoveryUntil := None), s.pacer);
  }

  lemma ActiveRecoveryIsArmed(s: Sender)
    requires Core(s) && s.rtx.sndUna != s.rtx.sndNxt && !s.rtx.closed && !s.rtx.exhausted
    ensures s.rtx.timer.Some?
  {
    Facts(s);
  }

  lemma StillOutstanding(s: Sender)
    requires Core(s) && s.rtx.sndUna != s.rtx.sndNxt
    ensures s.log.acked < |s.log.tracked|
  {
    Facts(s);
  }

  /** Everything waiting behind a closed window has the persist timer. */
  predicate ZeroWindowArmed(s: Sender) {
    s.win.size == 0 && (s.out.queue != [] || FinWaits(s)) ==> s.rtx.timer.Some?
  }

  /** A FIN is sent when nothing is before it, the windows allow it and no
      recovery is active; when it is held back, a timer is live. */
  lemma MaybeFinKeeps(s: Sender, header: Header)
    requires Core(s) && (Open(s) || s.life.state.Closed?)
    ensures var t := MaybeFin(s, header);
      && Core(t) && t.out == s.out && t.wake == s.wake && t.pacer == s.pacer && t.win == s.win
      && (t.life.state.Closed? <==> s.life.state.Closed?) && t.life.current == s.life.current
      && t.log.acked == s.log.acked && t.log.stream == s.log.stream && t.log.ended == s.log.ended
      && (s.rtx.timer.Some? ==> t.rtx.timer.Some?)
      && (Open(s) && ZeroWindowArmed(s) && s.out.queue == [] && FinWaits(t) ==> t.rtx.timer.Some?)
      && (Open(s) && s.out.queue == [] ==> Full(t)) && (s.out.queue != [] ==> t == s) && DrainFrame(s, t)
  {
    hide Core, Base, SendTracked;
    OpenFacts(s);
    EndFinishedRecoveryKeeps(s);
    var r := EndFinishedRecovery(s);
    if Open(s) {
      if r.cong.recoveryUntil.Some? {
        ActiveRecoveryIsArmed(s);
        StillOutstanding(s);
      } else if FinWaits(s) && s.out.queue == [] {
        NothingInFlight(s);
        SendFinKeeps(r, header);
      }
    }
  }

  lemma NothingInFlight(s: Sender)
    requires Core(s) && Open(s)
    ensures s.rtx.payloadBytesInFlight > 0 ==> s.rtx.timer.Some?
    ensures s.rtx.payloadBytesInFlight >= 0 && s.win.size >= 0
  {
    OpenFacts(s);
    hide Core;
    Facts(s) by { CoreIsBase(s); }
  }

  lemma SendFinKeeps(r: Sender, header: Header)
    requires Core(r) && Open(r) && r.cong.recoveryUntil.None? && FinWaits(r) && r.out.queue == []
    ensures var t := SendTracked(SendingFin(r), header, [], ACK_FIN);
      && Core(t) && Open(t) && t.rtx.timer.Some? && t.rtx.segments != [] && t.life == SendingFin(r).life
      && t == r.(rtx := t.rtx, relaySeq := t.relaySeq, life := t.life, log := t.log, trace := t.trace)
      && t.log.acked == r.log.acked && t.log.stream == r.log.stream && t.log.ended == r.log.ended
  {
    OpenFacts(r);
    CoreIsBase(r);
    hide Base, QueueCounted, Conserved, Sequenced, Consistent, P.PacerOk, SendTracked;
    Unpack(r);
    SendTrackedBooks(SendingFin(r), header, [], ACK_FIN);
    ConservedFin(r.log, r.life, ACK_FIN);
    Pack(SendTracked(SendingFin(r), header, [], ACK_FIN));
  }

  // ----- the loop -----

  predicate Draining(s: Sender) {
    Core(s) && s.life.current && !s.life.state.SynSent? && !s.pacer.blocked && ZeroWindowArmed(s)
  }

  /** What draining leaves alone; and it finishes nothing by itself. */
  predicate DrainFrame(s: Sender, t: Sender) {
    && t.cfg == s.cfg && t.win == s.win && t.sendMss == s.sendMss
    && t.cong == s.cong.(recoveryUntil := t.cong.recoveryUntil)
    && t.pacer.burstSegments == s.pacer.burstSegments && t.pacer.ackedBytes == s.pacer.ackedBytes
    && (t.life.finSent && t.rtx.segments == [] ==> s.life.finSent && s.rtx.segments == [])
  }

  predicate PassOutcome(s: Sender, t: Sender, again: bool) {
    && DrainFrame(s, t)
    && Core(t) && t.life.current == s.life.current
    && (t.life.state.Closed? <==> s.life.state.Closed?)
    && t.log.acked == s.log.acked && t.log.stream == s.log.stream && t.log.ended == s.log.ended
    && (if again then Draining(t) else Wakeful(t))
  }

  lemma EndRecoveryFrame(s: Sender)
    ensures var r := EndFinishedRecovery(s); r == s.(cong := r.cong)
  {
    hide SeqLessThan;
  }

  lemma WakersKeep(s: Sender, wake: Wakers)
    requires Core(s)
    ensures Core(s.(wake := wake))
  {
    hide QueueCounted, Conserved, Sequenced, Consistent, P.PacerOk;
  }

  lemma AfterChunkKeeps(s: Sender, header: Header, available: int, length: nat, now: int, sentBefore: nat)
    requires Core(s) && Open(s) && s.rtx.timer.Some? && !s.pacer.blocked
    requires available <= length ==> SendLimit(s) <= s.rtx.payloadBytesInFlight
    ensures var (t, again) := AfterChunk(s, header, available, length, now, sentBefore); PassOutcome(s, t, again)
  {
    hide Core, Base, P.NoteSegment, MaybeFin;
    PacerKeeps(s, now);
    var p := s.(pacer := P.NoteSegment(s.pacer, now));
    WakersKeep(p, p.wake.(sending := false));
    WakersKeep(p, p.wake.(immediates := p.wake.immediates + 1, sending := false));
    MaybeFinKeeps(Idle(p), header);
  }

  lemma PacerKeeps(s: Sender, now: int)
    requires Core(s) && Open(s) && !s.pacer.blocked
    ensures Core(s.(pacer := P.NoteSegment(s.pacer, now)))
    ensures P.NoteSegment(s.pacer, now).blocked <==> P.NoteSegment(s.pacer, now).timer.Some?
    ensures P.NoteSegment(s.pacer, now).blocked ==> PacerStops(P.NoteSegment(s.pacer, now))
    ensures var q := P.NoteSegment(s.pacer, now); q.burstSegments == s.pacer.burstSegments && q.ackedBytes == s.pacer.ackedBytes
  {
    CoreIsBase(s);
    hide Base, QueueCounted, Conserved, Sequenced, Consistent;
    Unpack(s);
    P.SegmentKeepsPacerOk(s.pacer, now);
    Pack(s.(pacer := P.NoteSegment(s.pacer, now)));
  }

  /** With chunks queued and nothing sendable, a timer is live. */
  lemma StuckIsArmed(s: Sender)
    requires Core(s) && Open(s) && ZeroWindowArmed(s) && s.out.queue != []
    requires s.cong.recoveryUntil.Some? ==> s.rtx.sndUna != s.rtx.sndNxt
    requires ChunkSize(s) <= 0
    ensures s.rtx.timer.Some?
  {
    hide Core;
    OpenFacts(s);
    NothingInFlight(s);
    if s.cong.recoveryUntil.Some? { ActiveRecoveryIsArmed(s); }
  }

  lemma StuckIsFull(s: Sender)
    requires Core(s) && Open(s) && s.out.queue != [] && ChunkSize(s) <= 0
    requires s.cong.recoveryUntil.Some? ==> s.rtx.sndUna != s.rtx.sndNxt
    ensures Full(s)
  {
    hide Core;
    OpenFacts(s);
    if s.cong.recoveryUntil.Some? { StillOutstanding(s); }
  }

  /** One pass of the loop keeps the invariant; the last one leaves a wake-up. */
  lemma DrainPassKeeps(s: Sender, header: Header, turn: Turn, sentBefore: nat)
    requires Draining(s)
    ensures var (t, again) := DrainPass(s, header, turn, sentBefore); PassOutcome(s, t, again)
  {
    hide Core, MaybeFin, SendQueued, AfterChunk, ChunkSize;
    OpenFacts(s);
    WakersKeep(s, s.wake.(sending := false));
    if s.out.queue == [] {
      MaybeFinKeeps(Idle(s), header);
    } else {
      WakersKeep(s, s.wake.(waiting := true, sending := false));
      EndFinishedRecoveryKeeps(s);
      var r := EndFinishedRecovery(s);
      WakersKeep(r, r.wake.(sending := false));
      WakersKeep(r, r.wake.(retries := r.wake.retries + 1, sending := false));
      var length := ChunkSize(r);
      if length <= 0 {
        StuckIsArmed(r);
        StuckIsFull(r);
      } else if r.cong.recoveryUntil.None? {
        SendQueuedKeeps(r, header, length);
        WindowUsedUp(r, header, length);
        AfterChunkKeeps(SendQueued(r, header, length, ACK_PSH), header, Available(r), length, turn.now, sentBefore);
        OpenFacts(SendQueued(r, header, length, ACK_PSH));
      } else {
        RecoverySendsNothing(r);
      }
    }
  }

  /** A chunk as large as what is available uses the windows up. */
  lemma WindowUsedUp(s: Sender, header: Header, length: nat)
    requires Core(s) && Open(s) && s.cong.recoveryUntil.None? && s.out.queue != [] && 0 < length == ChunkSize(s)
    ensures var t := SendQueued(s, header, length, ACK_PSH);
      Available(s) <= length ==> SendLimit(t) <= t.rtx.payloadBytesInFlight
  {
    hide Core, SendQueued;
    SendQueuedKeeps(s, header, length);
  }

  /** During recovery the drain loop has no window for new data. */
  lemma RecoverySendsNothing(s: Sender)
    requires s.cong.recoveryUntil.Some?
    ensures ChunkSize(s) <= 0
  {
  }

  lemma WindowNotNegative(s: Sender)
    requires Base(s)
    ensures s.win.size >= 0
  {
  }

  lemma {:induction false} DrainLoopKeeps(s: Sender, header: Header, turns: nat -> Turn, pass: nat)
    requires Draining(s)
    ensures PassOutcome(s, DrainLoop(s, header, turns, pass), false)
    decreases s.out.bytes
  {
    DrainPassKeeps(s, header, turns(pass), pass);
    var (s', again) := DrainPass(s, header, turns(pass), pass);
    hide Core, DrainPass, Draining, Wakeful;
    if again { DrainLoopKeeps(s', header, turns, pass + 1); }
  }

  lemma PersistArms(s: Sender, header: Header)
    requires Core(s) && s.life.current && !s.life.state.SynSent? && !s.pacer.blocked
    ensures var t := SendPath.SetPersist(s, header, WantsPersist(s));
      && Draining(t) && t == s.(rtx := t.rtx, trace := t.trace) && (t.rtx.segments == [] <==> s.rtx.segments == [])
      && (t.life.state.Closed? <==> s.life.state.Closed?)
  {
    CoreIsBase(s);
    OpenFacts(s);
    SetPersistSets(s.rtx, WantsPersist(s));
    hide Base, Retransmission.SetPersist;
    SetPersistKeeps(s, header, WantsPersist(s));
    var t := SendPath.SetPersist(s, header, WantsPersist(s));
    SameBooksFacts(s.rtx, t.rtx);
    hide SendPath.SetPersist, SameBooks;
    assert Core(t);
    hide Core;
    OpenFacts(t);
  }

  lemma SetPersistSets(q: Queue, enabled: bool)
    ensures !q.closed && !q.exhausted ==> Retransmission.SetPersist(q, enabled, Returned).persist == enabled
  {
  }

  /** No lost wake-up: whatever called it, `trySend` leaves the connection idle
      and, if anything waits to be sent, with something armed to send it. */
  lemma TrySendKeeps(s: Sender, header: Header, turns: nat -> Turn)
    requires Core(s) && !s.wake.sending
    ensures var t := TrySend(s, header, turns);
      && SenderOk(t) && t.life.current == s.life.current && (t.life.state.Closed? <==> s.life.state.Closed?)
      && t.log.acked == s.log.acked && t.log.stream == s.log.stream && t.log.ended == s.log.ended
      && (s.life.state.SynSent? ==> t == s) && DrainFrame(s, t)
  {
    hide Core, SendPath.SetPersist, DrainLoop;
    OpenFacts(s);
    if CanDrain(s) {
      var u := s.(wake := s.wake.(sending := true));
      WakersKeep(s, u.wake);
      PersistArms(u, header);
      DrainLoopKeeps(SendPath.SetPersist(u, header, WantsPersist(u)), header, turns, 0);
    }
  }
}
