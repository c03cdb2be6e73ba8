/** The remaining events of the sending half: timers, probes, data from the
    source, its end, aborting and finishing. */
module SendEvents {
  import opened Bytes
  import opened SequenceNumbers
  import opened Retransmission
  import opened RetransmissionProofs
  import opened SendPath
  import opened SendInvariant
  import opened SendOperations
  import opened SendProgress
  import P = Pacing

  // ----- the source -----

  lemma EnqueueKeeps(s: Sender, data: seq<byte>)
    requires SenderOk(s) && s.life.current && data != [] && !s.life.finSent
    ensures var t := Enqueue(s, data);
      && Core(t) && !t.wake.sending && t.life == s.life && t.log == s.log.(stream := s.log.stream + data)
  {
    CoreIsBase(s);
    ConcatAppend(s.out.queue, [data]);
    ConcatOne(data);
    ConcatAssociative(BytesOf(s.log.tracked), Concat(s.out.queue), data);
    var t := Enqueue(s, data);
    EnqueueParts(s, data);
    hide QueueCounted, Conserved, Sequenced, Consistent, P.PacerOk, Concat, BytesOf;
  }

  lemma EnqueueParts(s: Sender, data: seq<byte>)
    requires Core(s) && data != [] && !s.life.finSent
    requires BytesOf(s.log.tracked) + Concat(s.out.queue + [data]) == s.log.stream + data
    requires |Concat(s.out.queue + [data])| == |Concat(s.out.queue)| + |data|
    ensures var t := Enqueue(s, data);
      && QueueCounted(t.out) && Conserved(t.log, t.out.queue, t.life) && Sequenced(t.rtx, t.log, t.relaySeq)
      && Consistent(t.log, t.trace)
  {
    hide Concat, BytesOf, Valid, Flatten, Wire, AllCarry, Wrap;
  }

  /** `socket.on("end")` and `upstream.on("close")`: a FIN becomes pending. */
  function EndSource(s: Sender): Sender {
    if s.life.state.Closed? || !s.life.current then s
    else s.(life := s.life.(pendingFin := true), log := s.log.(ended := true))
  }

  lemma EndSourceKeeps(s: Sender)
    requires SenderOk(s)
    ensures var t := EndSource(s);
      && Core(t) && !t.wake.sending && t.life == s.life.(pendingFin := t.life.pendingFin) && t.log == s.log.(ended := t.log.ended)
  {
    CoreIsBase(s);
    if !s.life.state.Closed? { EndSourceParts(s); }
    hide QueueCounted, Conserved, Sequenced, Consistent, P.PacerOk;
  }

  lemma EndSourceParts(s: Sender)
    requires Core(s) && !s.life.state.Closed?
    ensures Conserved(s.log.(ended := true), s.out.queue, s.life.(pendingFin := true))
    ensures Sequenced(s.rtx, s.log.(ended := true), s.relaySeq) && Consistent(s.log.(ended := true), s.trace)
  {
    hide Concat, BytesOf, Valid, Flatten, Wire, AllCarry, Wrap;
  }

  // ----- closing -----

  lemma CloseSequenced(q: Queue, log: History, relaySeq: U32)
    requires Sequenced(q, log, relaySeq)
    ensures Sequenced(Close(q), log, relaySeq) && Close(q).closed
    ensures Close(q).payloadBytesInFlight == 0 || q.closed
    ensures Close(q).sndNxt == q.sndNxt && Close(q).segments == []
  {
    assert q.closed ==> q.timer.None?;
    assert Books(q) && TimerMachine(q);
    CloseKeepsValid(q);
    hide Valid, Flatten, Wrap;
  }

  /** A sending half whose retransmission queue `q` is closed for good. */
  function Shut(s: Sender, q: Queue, current: bool): Sender {
    s.(life := s.life.(state := Closed, current := current), wake := Wakers(false, false, s.wake.immediates, s.wake.retries),
       pacer := P.ClosePacer(s.pacer), rtx := Close(q))
  }

  lemma ShutKeeps(s: Sender, q: Queue, current: bool)
    requires Base(s) && Sequenced(q, s.log, s.relaySeq)
    requires current ==> s.log.acked == |s.log.tracked| && s.life.finSent
    ensures SenderOk(Shut(s, q, current))
  {
    hide Base, QueueCounted, Conserved, Sequenced, Consistent, P.PacerOk, Close, P.ClosePacer;
    Unpack(s);
    CloseSequenced(q, s.log, s.relaySeq);
    P.OperationsKeepPacerOk(s.pacer, 0, 0);
    SameNext(s, q);
    ConservedClosed(s.log, s.out.queue, s.life, current);
    ClosedBounds(s, Close(q));
    Pack(Shut(s, q, current));
  }

  /** Aborting, whether on a reset, an error or exhaustion, keeps the invariant. */
  lemma AbortKeeps(s: Sender, q: Queue, header: Header, reset: bool)
    requires Core(s) && Sequenced(q, s.log, s.relaySeq) && s.life.current && !s.wake.sending
    ensures var t := Abort(s.(rtx := q), header, reset);
      && SenderOk(t) && t.life.state.Closed? && !t.life.current && t.log == s.log
  {
    hide Core, Base, Sequenced, Close, P.ClosePacer, SenderOk;
    CoreIsBase(s);
    TransmitBareKeeps(s, header, ACK_RST);
    var u := if reset then TransmitBare(s, header, ACK_RST) else s;
    ShutKeeps(u, q, false);
    assert Abort(s.(rtx := q), header, reset) == Shut(u, q, false) by { BareIgnoresQueue(s, q, header); hide TransmitBare; }
  }

  lemma SameNext(s: Sender, q: Queue)
    requires Sequenced(q, s.log, s.relaySeq) && Sequenced(s.rtx, s.log, s.relaySeq)
    ensures q.sndNxt == s.rtx.sndNxt && Close(q).sndNxt == s.rtx.sndNxt
    ensures Close(q).payloadBytesInFlight <= 0
  {
    hide Flatten, Wrap, Contiguous;
  }

  lemma ClosedBounds(s: Sender, q: Queue)
    requires Base(s) && q.sndNxt == s.rtx.sndNxt && q.payloadBytesInFlight <= 0
    requires s.cong.recoveryUntil.Some? ==> s.cong.recoveryUntil.value == s.rtx.sndNxt
    ensures s.win.size >= 0 && 1 <= s.cong.window <= CwndCap(s)
  {
  }

  lemma ConservedClosed(log: History, queue: seq<seq<byte>>, life: Life, current: bool)
    requires Conserved(log, queue, life)
    ensures Conserved(log, queue, life.(state := Closed, current := current))
  {
    hide Concat, Wire, BytesOf;
  }

  lemma BareIgnoresQueue(s: Sender, q: Queue, header: Header)
    ensures TransmitBare(s.(rtx := q), header, ACK_RST) == TransmitBare(s, header, ACK_RST).(rtx := q)
  {
  }

  /** Finishing needs an acknowledged FIN, and leaves nothing unacknowledged. */
  lemma FinishKeeps(s: Sender)
    requires Core(s) && Open(s) && s.life.finSent && s.rtx.segments == [] && !s.wake.sending
    ensures var t := Finish(s);
      && SenderOk(t) && t.life.state.Closed? && t.life.finSent
      && t.log == s.log && t.log.acked == |t.log.tracked| && t.out == s.out
  {
    OpenFacts(s);
    CoreIsBase(s);
    hide Core, Base, Close, P.ClosePacer, SenderOk, Flatten, Wrap;
    Facts(s);
    SequencedOf(s);
    ShutKeeps(s, s.rtx, !s.cfg.reverse);
  }

  lemma SequencedOf(s: Sender)
    requires Base(s)
    ensures Sequenced(s.rtx, s.log, s.relaySeq)
  {
  }

  // ----- the retransmission timer -----

  lemma LiveTimer(s: Sender, id: nat)
    requires Core(s) && id in s.rtx.live
    ensures !TimerBranch(s.rtx, id).Outdated? && !s.rtx.closed && !s.rtx.exhausted
    ensures !s.life.state.Closed? && s.life.current
  {
    hide Contiguous, Flatten, Wrap, BytesOf, Concat;
  }

  lemma FireKeepsCore(s: Sender, id: nat, probe: ProbeReply)
    requires Core(s) && id in s.rtx.live && (probe.Sent? || probe.Backpressured?) && !TimerBranch(s.rtx, id).GiveUp?
    ensures var t := FireQueue(s, id, probe);
      && Core(t) && t.rtx.timer.Some? && (t.rtx.segments == [] <==> s.rtx.segments == [])
      && t.rtx.payloadBytesInFlight == s.rtx.payloadBytesInFlight && !t.rtx.exhausted
  {
    LiveTimer(s, id);
    CoreIsBase(s);
    hide Base, SameBooks, Fire, TimerBranch, Valid, Flatten, Wrap;
    Facts(s);
    FireSame(s.rtx, id, probe);
    SameBooksKeeps(s, Fire(s.rtx, id, Returned, probe));
    SameBooksFacts(s.rtx, Fire(s.rtx, id, Returned, probe));
  }

  /** A timeout resends the oldest segment after the congestion response. */
  lemma ResendsKeeps(s: Sender, header: Header, id: nat)
    requires Core(s) && id in s.rtx.live && TimerBranch(s.rtx, id).Resends?
    ensures var t := TransmitOldest(CongestionLoss(FireQueue(s, id, Sent), true), header);
      && Core(t) && t.rtx.timer.Some? && t.life == s.life && t.wake == s.wake && t.log == s.log && t.out == s.out && !t.rtx.exhausted
      && (NoIdleWindow(s) ==> NoIdleWindow(t))
  {
    hide Core, Base, TransmitOldest, CongestionLoss, Fire, TimerBranch;
    FireKeepsCore(s, id, Sent);
    var f := FireQueue(s, id, Sent);
    SynHasNoPayload(f) by { CoreIsBase(f); }
    CoreIsBase(f);
    CongestionLossKeeps(f, true);
    TransmitOldestKeeps(CongestionLoss(f, true), header);
    CoreParts(f);
    var t := TransmitOldest(CongestionLoss(f, true), header);
    MakeCore(t);
    ResendKeepsFull(s, header, id);
  }

  lemma ResendKeepsFull(s: Sender, header: Header, id: nat)
    requires Core(s) && id in s.rtx.live && TimerBranch(s.rtx, id).Resends?
    ensures var t := TransmitOldest(CongestionLoss(FireQueue(s, id, Sent), true), header);
      && (Full(s) ==> Full(t)) && t.pacer.blocked == s.pacer.blocked && t.wake == s.wake && t.life == s.life
  {
    hide Core, Fire, TimerBranch, Frames, Stamp, CongestionLoss;
    FireKeepsCore(s, id, Sent);
    var f := FireQueue(s, id, Sent);
    if Full(s) { LossKeepsFull(f, true); }
    LossKeepsGate(f);
  }

  lemma LossKeepsGate(s: Sender)
    ensures var t := CongestionLoss(s, true); t.pacer.blocked == s.pacer.blocked && t.wake == s.wake && t.life == s.life
  {
  }

  lemma CoreParts(s: Sender)
    requires Core(s)
    ensures Base(s) && Handshaken(s) && RecoveryHasData(s)
  {
  }

  lemma MakeCore(s: Sender)
    requires Base(s) && Handshaken(s) && RecoveryHasData(s)
    ensures Core(s)
  {
  }

  /** The state the probe callback runs in: no timer, one more probe counted. */
  function Probing(q: Queue, id: nat): Queue {
    q.(live := q.live - {id}, timer := None, timeoutRetransmissions := q.timeoutRetransmissions + 1,
       calls := q.calls + [OnPersistProbe(Oldest(q))])
  }

  lemma ProbingIsUnarmed(q: Queue, id: nat)
    requires Valid(q) && id in q.live && TimerBranch(q, id).SendsProbe?
    ensures Unarmed(Probing(q, id))
  {
    assert q.live - {id} == map[];
    ExhaustionsAppend(q.calls, OnPersistProbe(Oldest(q)));
    hide Contiguous, Exhaustions;
  }

  lemma TracksWhileProbing(q: Queue, log: History, relaySeq: U32, id: nat, payload: seq<byte>, flags: Flags)
    requires Sequenced(q, log, relaySeq) && id in q.live && TimerBranch(q, id).SendsProbe?
    requires SequenceLength(payload, flags) > 0
    ensures var (p, status) := Track(Probing(q, id), relaySeq, payload, flags);
      && status.Tracked?
      && Flatten(p.segments) == GrowLog(log, payload, flags).tracked[log.acked..]
      && p.sndUna == q.sndUna && p.sndNxt == Wrap(relaySeq + SequenceLength(payload, flags))
      && p.sndNxt == Wrap(log.iss + |GrowLog(log, payload, flags).tracked|)
      && !p.closed && !p.exhausted && p.segments != [] && p.payloadBytesInFlight == q.payloadBytesInFlight + |payload|
  {
    assert q.sndNxt == relaySeq == Wrap(relaySeq);
    ProbingIsUnarmed(q, id);
    var u := Probing(q, id);
    var n := SequenceLength(payload, flags);
    var items := Items(payload, flags.syn, flags.fin);
    assert |items| == n;
    assert (log.tracked + items)[log.acked..] == log.tracked[log.acked..] + items;
    WrapAdd(log.iss + |log.tracked|, n);
    hide Valid, Flatten, Items, Wrap, Track, Unarmed;
    TrackKeepsValid(u, relaySeq, payload, flags);
    TrackedIsOpen(u, relaySeq, payload, flags);
  }

  /** A probe that takes sequence space is tracked like any segment and leaves
      exactly one timer live. */
  lemma FireTracked(q: Queue, log: History, relaySeq: U32, id: nat, payload: seq<byte>, flags: Flags)
    requires Sequenced(q, log, relaySeq) && id in q.live && TimerBranch(q, id).SendsProbe?
    requires SequenceLength(payload, flags) > 0
    ensures var q' := Fire(q, id, Returned, SentTracked(relaySeq, payload, flags));
      && Sequenced(q', GrowLog(log, payload, flags), Wrap(relaySeq + SequenceLength(payload, flags)))
      && !q'.closed && !q'.exhausted && q'.segments != [] && q'.timer.Some?
      && q'.payloadBytesInFlight == q.payloadBytesInFlight + |payload|
  {
    hide Valid, Flatten, Items, Wrap, Track;
    TracksWhileProbing(q, log, relaySeq, id, payload, flags);
    FireKeepsValid(q, id, Returned, SentTracked(relaySeq, payload, flags));
    var p := Track(Probing(q, id), relaySeq, payload, flags).0;
    assert Fire(q, id, Returned, SentTracked(relaySeq, payload, flags)) == ArmTimer(BackOff(ClearTimer(p)));
    hide Fire;
  }

  lemma TrackedIsOpen(q: Queue, seqNo: U32, payload: seq<byte>, flags: Flags)
    requires !q.closed && !q.exhausted && SequenceLength(payload, flags) > 0 && q.sndNxt == seqNo == Wrap(seqNo)
    ensures var (p, status) := Track(q, seqNo, payload, flags);
      && status.Tracked? && !p.closed && !p.exhausted && p.segments != [] && p.sndUna == q.sndUna
      && p.payloadBytesInFlight == q.payloadBytesInFlight + |payload|
  {
  }

  lemma ProbeTrackedBooks(s: Sender, header: Header, id: nat, payload: seq<byte>, flags: Flags)
    requires Sequenced(s.rtx, s.log, s.relaySeq) && Consistent(s.log, s.trace)
    requires id in s.rtx.live && TimerBranch(s.rtx, id).SendsProbe? && SequenceLength(payload, flags) > 0
    ensures var t := ProbeTracked(s, header, id, payload, flags);
      && Sequenced(t.rtx, t.log, t.relaySeq) && Consistent(t.log, t.trace)
      && t == s.(rtx := t.rtx, relaySeq := t.relaySeq, trace := t.trace, log := GrowLog(s.log, payload, flags))
      && !t.rtx.closed && !t.rtx.exhausted && t.rtx.segments != [] && t.rtx.timer.Some?
      && t.rtx.payloadBytesInFlight == s.rtx.payloadBytesInFlight + |payload|
  {
    hide Sequenced, Consistent, Fire, Frames, Stamp;
    FireTracked(s.rtx, s.log, s.relaySeq, id, payload, flags);
    SendTrackedTrace(s, header, payload, flags);
  }

  /** A SYN is only ever outstanding alone. */
  lemma SynIsAlone(s: Sender)
    requires Core(s) && s.rtx.segments != [] && s.rtx.segments[0].flags.syn
    ensures |SegmentItems(s.rtx.segments[0])| == 1
  {
    var g := s.rtx.segments[0];
    CoreIsBase(s);
    OldestIsStream(s) by { hide Base; }
    WireFacts(BytesOf(s.log.tracked), s.life.finSent);
    assert s.log.tracked == Wire(BytesOf(s.log.tracked), s.life.finSent);
    assert SegmentItems(g)[0] == Syn;
    assert s.log.tracked[s.log.acked] == Syn by {
      assert s.log.tracked[s.log.acked..s.log.acked + |SegmentItems(g)|][0] == Syn;
      hide Wire, SegmentItems, BytesOf;
    }
    hide Wire, SegmentItems, BytesOf, Flatten, Contiguous, Concat;
  }

  lemma ProbeIsPrefix(g: Segment)
    requires g.flags.syn ==> |SegmentItems(g)| == 1
    ensures var payload, fin := g.payload[..Min(1, |g.payload|)], g.payload == [] && g.flags.fin;
      var n := |payload| + (if fin then 1 else 0);
      n <= |SegmentItems(g)| && SegmentItems(g)[..n] == Items(payload, false, fin)
  {
    if g.payload != [] {
      assert SegmentItems(g)[..1] == [Data(g.payload[0])] == Items(g.payload[..1], false, false);
    } else if g.flags.fin {
      assert SegmentItems(g)[..1] == [Fin] == Items([], false, true);
    } else {
      assert SegmentItems(g)[..0] == [] == Items([], false, false);
    }
  }

  /** A zero-window probe carries the first item of the oldest segment, or nothing. */
  lemma ProbeOfOldest(s: Sender)
    requires Core(s) && s.rtx.segments != []
    ensures var g := s.rtx.segments[0];
      var payload, fin := g.payload[..Min(1, |g.payload|)], g.payload == [] && g.flags.fin;
      var n := |payload| + (if fin then 1 else 0);
      && g.seqNo == Wrap(s.log.iss + s.log.acked)
      && s.log.acked + n <= |s.log.tracked|
      && s.log.tracked[s.log.acked..s.log.acked + n] == Items(payload, false, fin)
  {
    var g := s.rtx.segments[0];
    CoreIsBase(s);
    OldestIsStream(s) by { hide Base; }
    if g.flags.syn { SynIsAlone(s) by { hide Core; } }
    ProbeIsPrefix(g);
    hide Core, Base, Wrap, SegmentItems, Items;
    var payload, fin := g.payload[..Min(1, |g.payload|)], g.payload == [] && g.flags.fin;
    var n := |payload| + (if fin then 1 else 0);
    assert s.log.tracked[s.log.acked..s.log.acked + n] == s.log.tracked[s.log.acked..s.log.acked + |SegmentItems(g)|][..n];
  }

  /** What every outcome of a zero-window probe has in common. */
  predicate ProbeOutcome(s: Sender, t: Sender) {
    // `true ==` makes the conjunction one fact, which a caller proves at once and not clause by clause.
    true == (
    && Core(t) && t.rtx.timer.Some? && !t.rtx.exhausted && !t.life.state.Closed? && t.life.current && t.wake == s.wake
    && (NoIdleWindow(s) && !s.life.state.SynSent? ==> NoIdleWindow(t))
    && t.log.acked == s.log.acked && t.log.stream == s.log.stream && t.log.ended == s.log.ended)
  }

  lemma ProbeOldestKeeps(s: Sender, header: Header, id: nat)
    requires Core(s) && id in s.rtx.live && TimerBranch(s.rtx, id).SendsProbe? && s.rtx.segments != []
    ensures var g := s.rtx.segments[0];
      var flags := Flags(false, true, g.payload == [] && g.flags.fin, false, false);
      ProbeOutcome(s, Transmit(FireQueue(s, id, Sent), header, g.payload[..Min(1, |g.payload|)], flags, g.seqNo, s.log.acked))
  {
    hide Core, Fire, Items, Base, Wrap, Frames, Stamp, TimerBranch;
    var g := s.rtx.segments[0];
    var flags := Flags(false, true, g.payload == [] && g.flags.fin, false, false);
    LiveTimer(s, id);
    ProbeOfOldest(s);
    FireKeepsCore(s, id, Sent);
    var f := FireQueue(s, id, Sent);
    CoreParts(f);
    TransmitKeeps(f, header, g.payload[..Min(1, |g.payload|)], flags, s.log.acked);
    MakeCore(Transmit(f, header, g.payload[..Min(1, |g.payload|)], flags, g.seqNo, s.log.acked));
  }

  /** The only data that ignores the windows: one byte, when nothing is outstanding. */
  lemma ProbeByteKeeps(s: Sender, header: Header, id: nat)
    requires Core(s) && id in s.rtx.live && TimerBranch(s.rtx, id).SendsProbe? && s.rtx.segments == [] && s.out.queue != []
    ensures |Concat(s.out.queue)| > 0
    ensures var (chunk, left) := TakeQueued(s.out.queue, 1);
      var t := ConsumeQueued(ProbeTracked(s.(out := s.out.(queue := left)), header, id, chunk, ACK), 1);
      ProbeOutcome(s, t) && t.rtx.payloadBytesInFlight == 1
  {
    hide Core, Base, QueueCounted, Conserved, Sequenced, Consistent, P.PacerOk, Concat, TakeQueued, ProbeTracked, TimerBranch,
         Flatten, Wrap;
    LiveTimer(s, id);
    OpenFacts(s);
    CoreParts(s);
    Facts(s);
    Unpack(s);
    TakeQueuedSplits(s.out.queue, 1);
    var (chunk, left) := TakeQueued(s.out.queue, 1);
    ProbeTrackedBooks(s.(out := s.out.(queue := left)), header, id, chunk, ACK);
    ConservedChunk(s.log, s.out.queue, s.life, 1, ACK);
    var t := ConsumeQueued(ProbeTracked(s.(out := s.out.(queue := left)), header, id, chunk, ACK), 1);
    CountedChunk(s.out, 1, t.out.sourcePaused);
    Pack(t);
    MakeCore(t);
  }

  lemma ProbeFinKeeps(s: Sender, header: Header, id: nat)
    requires Core(s) && id in s.rtx.live && TimerBranch(s.rtx, id).SendsProbe? && s.rtx.segments == []
    requires s.out.queue == [] && FinWaits(s)
    ensures ProbeOutcome(s, ProbeTracked(SendingFin(s), header, id, [], ACK_FIN))
  {
    hide Core, Base, QueueCounted, Conserved, Sequenced, Consistent, P.PacerOk, ProbeTracked, TimerBranch, Flatten, Wrap;
    LiveTimer(s, id);
    OpenFacts(s);
    CoreParts(s);
    Facts(s);
    Unpack(s);
    ProbeTrackedBooks(SendingFin(s), header, id, [], ACK_FIN);
    ConservedFin(s.log, s.life, ACK_FIN);
    var t := ProbeTracked(SendingFin(s), header, id, [], ACK_FIN);
    Pack(t);
    MakeCore(t);
  }

  /** The probe that sends a FIN although one was sent before: the FIN was
      requested again, nothing is outstanding and the transport is free. */
  predicate ProbesAnotherFin(s: Sender, id: nat, congested: bool) {
    && TimerBranch(s.rtx, id).SendsProbe? && !congested && s.rtx.segments == []
    && s.life.pendingFin && s.life.finSent
  }

  /** A probe that is put off, or has nothing to carry. */
  lemma ProbeOfNothing(s: Sender, id: nat, probe: ProbeReply)
    requires Core(s) && id in s.rtx.live && TimerBranch(s.rtx, id).SendsProbe? && (probe.Sent? || probe.Backpressured?)
    ensures ProbeOutcome(s, FireQueue(s, id, probe))
  {
    hide Core, Fire, TimerBranch;
    LiveTimer(s, id);
    FireKeepsCore(s, id, probe);
  }

  lemma ProbeTimerKeeps(s: Sender, header: Header, id: nat, congested: bool)
    requires Core(s) && id in s.rtx.live && TimerBranch(s.rtx, id).SendsProbe?
    requires !ProbesAnotherFin(s, id, congested)
    ensures ProbeOutcome(s, ProbeTimer(s, header, id, congested))
  {
    hide Core, TimerBranch, ProbeTracked, FireQueue, TakeQueued, ConsumeQueued, Concat, ProbeOutcome, Transmit;
    LiveTimer(s, id);
    OpenFacts(s);
    ProbeOfNothing(s, id, Sent);
    ProbeOfNothing(s, id, Backpressured);
    if !congested {
      if s.rtx.segments != [] {
        ProbeOldestKeeps(s, header, id);
      } else if s.out.queue != [] {
        ProbeByteKeeps(s, header, id);
      } else {
        EmptyQueue(s);
        if s.life.pendingFin { ProbeFinKeeps(s, header, id); }
      }
    }
  }

  lemma EmptyQueue(s: Sender)
    requires Core(s) && s.out.queue == []
    ensures s.out.bytes == 0
  {
  }

  /** The retransmission timer: a resend, a probe, or giving up, and in each
      case the invariant and the wake-up survive. */
  lemma RetransmissionTimerKeeps(s: Sender, header: Header, id: nat, congested: bool, open: bool)
    requires SenderOk(s) && id in s.rtx.live && !ProbesAnotherFin(s, id, congested)
    ensures var t := RetransmissionTimer(s, header, id, congested, open);
      && SenderOk(t)
      && t.log.acked == s.log.acked && t.log.stream == s.log.stream && t.log.ended == s.log.ended
      && (TimerBranch(s.rtx, id).GiveUp? ==> t.life.state.Closed? && t.log == s.log)
      && (!TimerBranch(s.rtx, id).GiveUp? ==> !t.life.state.Closed? && t.life.current)
  {
    LiveTimer(s, id);
    match TimerBranch(s.rtx, id) {
      case GiveUp =>
        GivesUpSequenced(s, id);
        hide Core, Fire, Abort;
        AbortKeeps(s, Fire(s.rtx, id, Returned, Sent), header, open);
      case SendsProbe =>
        hide Core, Fire, TimerBranch, ProbeTimer, Abort;
        ProbeTimerKeeps(s, header, id, congested);
      case Resends =>
        hide Core, Fire, TimerBranch, TransmitOldest, CongestionLoss, Abort;
        ResendsKeeps(s, header, id);
    }
  }

  lemma GivesUpSequenced(s: Sender, id: nat)
    requires Core(s) && id in s.rtx.live && TimerBranch(s.rtx, id).GiveUp?
    ensures Sequenced(Fire(s.rtx, id, Returned, Sent), s.log, s.relaySeq)
  {
    FireKeepsValid(s.rtx, id, Returned, Sent);
    hide Valid, Flatten, Wrap, Conserved, QueueCounted;
  }

  lemma ProbeStaysOpen(s: Sender, header: Header, id: nat, congested: bool)
    ensures var t := ProbeTimer(s, header, id, congested);
      (t.life.state.SynSent? ==> s.life.state.SynSent?) && t.life.current == s.life.current
  {
    hide Frames, Stamp, Fire, TakeQueued, Concat;
  }
}
