/** What a drain puts on the wire and what it leaves behind: one frame per chunk,
    a FIN only into an open window, and probing exactly while the window is closed. */
module SendDrain {
  import opened Bytes
  import opened SequenceNumbers
  import opened Retransmission
  import opened RetransmissionProofs
  import opened SendPath
  import opened SendInvariant
  import opened SendOperations
  import opened SendProgress
  import opened SendHeaders
  import P = Pacing

  // ----- chunks -----

  /** `t` continues `s` with a frame of the first `length` queued bytes, marked to
      be passed on at once. */
  predicate PushesChunk(s: Sender, t: Sender, header: Header, length: int) {
    && |s.trace| < |t.trace| && s.trace <= t.trace
    && var e := t.trace[|s.trace|];
    && e.pos == |s.log.tracked|
    && 0 < length <= |Concat(s.out.queue)| && e.frame == Frame(s.relaySeq, header, ACK_PSH, Concat(s.out.queue)[..length])
  }

  /** As much as fits: a full segment, unless less is queued or the smaller window
      has less room. */
  function FullChunk(s: Sender): int {
    Min(Min(TcpMss(s), |Concat(s.out.queue)|), Min(s.win.size, s.cong.window) - s.rtx.payloadBytesInFlight)
  }

  lemma ChunkIsFull(s: Sender)
    requires Core(s) && ChunkSize(EndFinishedRecovery(s)) > 0
    ensures ChunkSize(EndFinishedRecovery(s)) == FullChunk(s)
  {
    OpenFacts(s);
    hide Core, RecoveryComplete, Concat, TcpMss;
  }

  lemma ChunkIsPushed(s: Sender, header: Header, length: nat)
    requires 0 < length <= TcpMss(s)
    ensures var t := SendQueued(s, header, length, ACK_PSH);
      !t.life.thrown ==> PushesChunk(s, t, header, length) && t.life == s.life
  {
    hide TrackFrames, Concat, BytesOf;
    if length <= |Concat(s.out.queue)| {
      TakeQueuedSplits(s.out.queue, length);
      var (chunk, left) := TakeQueued(s.out.queue, length);
      assert (chunk + Concat(left))[..length] == chunk;
      var f := Frame(s.relaySeq, header, ACK_PSH, chunk);
      assert Stamp(|s.log.tracked|, [f]) == [Emission(|s.log.tracked|, f)] by { StampNothing(|s.log.tracked| + FrameLength(f)); }
      hide TakeQueued, Stamp;
    }
  }

  // ----- passes -----

  /** A pass that gives sequence space to data sends as much as fits, in one frame. */
  lemma PassPushesChunk(s: Sender, header: Header, turn: Turn, pass: nat)
    requires Core(s)
    ensures var t := DrainPass(s, header, turn, pass).0;
      !t.life.thrown && BytesOf(t.log.tracked) != BytesOf(s.log.tracked) ==> PushesChunk(s, t, header, FullChunk(s))
  {
    hide Core, MaybeFin, SendQueued, RecoveryComplete, Available, BytesOf, PushesChunk, FullChunk;
    var r := EndFinishedRecovery(s);
    FinFollows(Idle(s), header);
    if ChunkSize(r) > 0 {
      var c := SendQueued(r, header, ChunkSize(r), ACK_PSH);
      ChunkIsFull(s);
      ChunkIsPushed(r, header, ChunkSize(r));
      FinFollows(Idle(c.(pacer := P.NoteSegment(c.pacer, turn.now))), header);
      var t := DrainPass(s, header, turn, pass).0;
      if !c.life.thrown && c.trace <= t.trace { StillPushed(s, r, c, t, header, ChunkSize(r)); }
    }
  }

  lemma StillPushed(s: Sender, r: Sender, c: Sender, t: Sender, header: Header, length: int)
    requires PushesChunk(r, c, header, length) && r == s.(cong := r.cong) && c.trace <= t.trace
    ensures PushesChunk(s, t, header, length)
  {
  }

  lemma FinFollows(s: Sender, header: Header)
    ensures var t := MaybeFin(s, header);
      && s.trace <= t.trace && BytesOf(t.log.tracked) == BytesOf(s.log.tracked) && (s.life.thrown ==> t.life.thrown)
      && t.wake == s.wake && t.cfg == s.cfg && t.pacer == s.pacer
  {
    hide Frames, Stamp, TrackFrames, RecoveryComplete;
    BytesOfAppend(s.log.tracked, Items([], false, true));
    BytesOfItems([], false, true);
  }

  // ----- the FIN -----

  /** A FIN that is new follows everything queued, into a window that is open and
      with no loss to recover from. */
  predicate FinFits(s: Sender, t: Sender) {
    t.life.finSent && !s.life.finSent ==>
      t.out.queue == [] && t.rtx.payloadBytesInFlight < t.win.size && t.cong.recoveryUntil.None?
  }

  lemma MaybeFinFits(s: Sender, header: Header)
    ensures var t := MaybeFin(s, header);
      FinFits(s, t) && t.win == s.win && t.out == s.out && t.rtx.persist == s.rtx.persist
      && (s.rtx.payloadBytesInFlight >= s.win.size ==> t == s)
  {
    TrackFin(s.rtx, Frame(s.relaySeq, header, ACK_FIN, []));
    hide Stamp, RecoveryComplete, Wrap, TrackFrames;
  }

  lemma TrackFin(q: Queue, f: Frame)
    requires f.payload == []
    ensures var (p, threw) := TrackFrames(q, [f]); p.persist == q.persist && p.payloadBytesInFlight == q.payloadBytesInFlight
  {
    hide Wrap;
    assert TrackFrames(Track(q, f.seqNo, f.payload, f.flags).0, []).0 == Track(q, f.seqNo, f.payload, f.flags).0;
  }

  lemma ChunkKeepsLife(s: Sender, header: Header, length: nat)
    ensures var t := SendQueued(s, header, length, ACK_PSH);
      t.life.finSent == s.life.finSent && t.win == s.win && t.rtx.persist == s.rtx.persist
  {
    hide Stamp, TakeQueued, Concat;
    if length <= |Concat(s.out.queue)| {
      var (chunk, left) := TakeQueued(s.out.queue, length);
      TrackKeepsPersist(s.rtx, Frames(chunk, TcpMss(s), ACK_PSH, s.relaySeq, HeaderFor(s, ACK_PSH, header)));
      hide Frames;
    }
  }

  lemma {:induction false} TrackKeepsPersist(q: Queue, frames: seq<Frame>)
    ensures TrackFrames(q, frames).0.persist == q.persist
    decreases |frames|
  {
    if frames != [] { TrackKeepsPersist(Track(q, frames[0].seqNo, frames[0].payload, frames[0].flags).0, frames[1..]); }
    hide Wrap;
  }

  /** What every pass keeps: a FIN only where it fits, and nothing at all into a
      closed window. */
  predicate PassFits(s: Sender, t: Sender) {
    && FinFits(s, t) && t.win == s.win && t.rtx.persist == s.rtx.persist
    && (s.win.size == 0 ==> t.rtx == s.rtx && t.out == s.out && t.life == s.life && t.log == s.log)
  }

  lemma PassIsFit(s: Sender, header: Header, turn: Turn, pass: nat)
    requires s.rtx.payloadBytesInFlight >= 0
    ensures var (t, again) := DrainPass(s, header, turn, pass);
      PassFits(s, t) && (again ==> t.life.finSent == s.life.finSent && s.win.size > 0)
  {
    hide MaybeFin, SendQueued, RecoveryComplete;
    MaybeFinFits(Idle(s), header);
    var r := EndFinishedRecovery(s);
    if ChunkSize(r) > 0 {
      ChunkKeepsLife(r, header, ChunkSize(r));
      var c := SendQueued(r, header, ChunkSize(r), ACK_PSH);
      MaybeFinFits(Idle(c.(pacer := P.NoteSegment(c.pacer, turn.now))), header);
    }
  }

  // ----- drains -----

  lemma {:induction false} LoopIsFit(s: Sender, header: Header, turns: nat -> Turn, pass: nat)
    requires Draining(s)
    ensures PassFits(s, DrainLoop(s, header, turns, pass))
    decreases s.out.bytes
  {
    hide Draining, DrainPass, Wakeful, PassFits;
    FlightOf(s);
    PassIsFit(s, header, turns(pass), pass);
    DrainPassKeeps(s, header, turns(pass), pass);
    var (t, again) := DrainPass(s, header, turns(pass), pass);
    if again {
      LoopIsFit(t, header, turns, pass + 1);
      FitsOnwards(s, t, DrainLoop(t, header, turns, pass + 1));
    }
  }

  lemma FlightOf(s: Sender)
    requires Draining(s)
    ensures s.rtx.payloadBytesInFlight >= 0
  {
    CoreIsBase(s);
    Facts(s);
  }

  lemma FitsOnwards(s: Sender, t: Sender, u: Sender)
    requires PassFits(s, t) && PassFits(t, u) && t.life.finSent == s.life.finSent && s.win.size > 0
    ensures PassFits(s, u)
  {
  }

  /** Whatever called it, a drain of an open connection sends the FIN only where it
      fits, and leaves the connection probing exactly when the VM's window is
      closed and something is outstanding or waiting; into a closed window it
      sends nothing new. */
  lemma DrainFits(s: Sender, header: Header, turns: nat -> Turn)
    requires Core(s) && !s.wake.sending && !s.life.state.Closed? && CanDrain(s)
    ensures var t := TrySend(s, header, turns);
      && FinFits(s, t)
      && (t.rtx.persist <==> t.win.size == 0 && (t.rtx.segments != [] || t.out.queue != [] || t.life.pendingFin))
      && (t.win.size == 0 ==> t.out == s.out && t.log.tracked == s.log.tracked)
  {
    hide Core, SendPath.SetPersist, DrainLoop, PassFits, Draining;
    OpenFacts(s);
    WindowNotNegative(s) by { CoreIsBase(s); }
    var u := s.(wake := s.wake.(sending := true));
    WakersKeep(s, u.wake);
    PersistArms(u, header);
    var v := SendPath.SetPersist(u, header, WantsPersist(u));
    SetPersistSets(u.rtx, WantsPersist(u));
    PersistIs(u, header);
    LoopIsFit(v, header, turns, 0);
    Wanted(s, v, DrainLoop(v, header, turns, 0));
  }

  lemma Wanted(s: Sender, v: Sender, t: Sender)
    requires v == s.(wake := v.wake, rtx := v.rtx, trace := v.trace) && (v.rtx.segments == [] <==> s.rtx.segments == [])
    requires v.rtx.persist == WantsPersist(s) && PassFits(v, t) && s.out.bytes == |Concat(s.out.queue)| && s.win.size >= 0
    requires s.out.queue != [] ==> s.out.bytes > 0
    ensures FinFits(s, t)
    ensures t.rtx.persist <==> t.win.size == 0 && (t.rtx.segments != [] || t.out.queue != [] || t.life.pendingFin)
    ensures t.win.size == 0 ==> t.out == s.out && t.log.tracked == s.log.tracked
  {
  }

  lemma PersistIs(s: Sender, header: Header)
    ensures SendPath.SetPersist(s, header, WantsPersist(s)).rtx == Retransmission.SetPersist(s.rtx, WantsPersist(s), Returned)
  {
    hide Frames, Stamp, Retransmission.SetPersist;
  }
}
