/** How a connection reacts to loss and to acknowledged data: what is resent or
    probed, and what becomes of the congestion window and the pacer's burst. */
module ConnectionLoss {
  import opened Bytes
  import opened SequenceNumbers
  import opened Retransmission
  import opened RetransmissionProofs
  import opened SendPath
  import opened SendInvariant
  import opened SendOperations
  import opened SendProgress
  import opened SendEvents
  import opened SendHeaders
  import opened SendHistory
  import opened ReceivePath
  import opened Connection
  import opened ConnectionProofs
  import opened ConnectionTheorems
  import opened ConnectionPackets
  import P = Pacing

  // ----- the loss response -----

  /** After a loss with payload in flight: recovery until everything outstanding
      is acknowledged, one segment per round after a timeout, half of what was in
      flight (two segments at least) otherwise; the pacer's burst narrows, and
      duplicates of the present number start no further resend. Without payload in
      flight nothing changes. */
  predicate BacksOff(s: Sender, t: Sender, timeout: bool) {
    var flight, mss := s.rtx.payloadBytesInFlight, TcpMss(s);
    if flight == 0 then t.cong == s.cong.(dupAckCount := t.cong.dupAckCount) && t.pacer == s.pacer
    else
      && InRecovery(t) && t.cong.fastRetransmitAck == Some(s.rtx.sndUna) && P.Narrows(s.pacer, t.pacer)
      && (if timeout then t.cong.window == mss else HalfOf(flight, mss, t.cong.window)) && HalfOf(flight, mss, t.cong.threshold)
  }

  /** The larger of two segments and half the flight, rounded down. */
  predicate HalfOf(flight: int, mss: int, w: int) {
    w >= 2 * mss && 2 * w >= flight - 1 && (w == 2 * mss || 2 * w <= flight)
  }

  lemma LossBacksOff(s: Sender, timeout: bool)
    requires Core(s)
    ensures BacksOff(s, CongestionLoss(s, timeout), timeout)
  {
    PacerNarrows(s);
    if s.rtx.payloadBytesInFlight != 0 {
      SomethingOutstanding(s);
      FlightIsNat(s);
    }
    hide Core, P.NoteLoss, P.Narrows, TcpMss;
  }

  lemma PacerNarrows(s: Sender)
    requires Core(s)
    ensures P.Narrows(s.pacer, P.NoteLoss(s.pacer))
  {
    P.LossNarrows(s.pacer);
  }

  lemma FlightIsNat(s: Sender)
    requires Core(s)
    ensures s.rtx.payloadBytesInFlight >= 0
  {
    Facts(s);
  }

  // ----- timeouts -----

  /** A timeout with retries left resends exactly the oldest outstanding segment,
      backs off the timer and shrinks the congestion window to one segment. */
  lemma TimeoutResends(h: Handshake, events: seq<Event>, c: Conn, id: nat, congested: bool, open: bool)
    requires Reaches(h, events, c) && id in c.snd.rtx.live && !c.snd.rtx.persist
    requires c.snd.rtx.timeoutRetransmissions < c.snd.rtx.cfg.maxRetransmissions
    ensures var d := Step(c, RetransmissionTimerFires(id, congested, open));
      && ResentOldest(d.snd, c.snd.trace, HeaderOf(c), c.snd.rtx.sndUna) && BacksOff(c.snd, d.snd, true)
      && d.snd.log == c.snd.log && d.snd.out == c.snd.out && d.snd.life == c.snd.life && d.rcv == c.rcv
      && d.snd.rtx.timeoutRetransmissions == c.snd.rtx.timeoutRetransmissions + 1
      && d.snd.rtx.currentRtoMs == Min(c.snd.rtx.currentRtoMs * 2, c.snd.rtx.cfg.maxRtoMs)
  {
    hide Reaches, ConnOk, Core;
    ReachedOk(h, events, c);
    ResendEffect(c.snd, HeaderOf(c), id);
    LiveResend(c.snd, id);
    hide RetransmissionTimer;
    ResendIsStep(c.snd, HeaderOf(c), id, congested, open);
  }

  lemma LiveResend(s: Sender, id: nat)
    requires Core(s) && id in s.rtx.live
    ensures TimerBranch(s.rtx, id) ==
      if s.rtx.timeoutRetransmissions >= s.rtx.cfg.maxRetransmissions then GiveUp
      else if s.rtx.persist then SendsProbe else Resends
  {
    LiveTimer(s, id);
  }

  lemma ResendIsStep(s: Sender, header: Header, id: nat, congested: bool, open: bool)
    requires TimerBranch(s.rtx, id).Resends?
    ensures RetransmissionTimer(s, header, id, congested, open)
         == TransmitOldest(CongestionLoss(FireQueue(s, id, Sent), true), header)
  {
    hide TransmitOldest, CongestionLoss, FireQueue;
  }

  lemma ResendEffect(s: Sender, header: Header, id: nat)
    requires Core(s) && id in s.rtx.live && !s.rtx.persist && s.rtx.timeoutRetransmissions < s.rtx.cfg.maxRetransmissions
    ensures var t := TransmitOldest(CongestionLoss(FireQueue(s, id, Sent), true), header);
      && ResentOldest(t, s.trace, header, s.rtx.sndUna) && BacksOff(s, t, true)
      && t.log == s.log && t.out == s.out && t.life == s.life
      && t.rtx.timeoutRetransmissions == s.rtx.timeoutRetransmissions + 1
      && t.rtx.currentRtoMs == Min(s.rtx.currentRtoMs * 2, s.rtx.cfg.maxRtoMs)
  {
    hide Core, ResentOldest, HalfOf, CongestionLoss, Fire;
    LiveResend(s, id);
    FireKeepsCore(s, id, Sent);
    FireCounts(s.rtx, id);
    var f := FireQueue(s, id, Sent);
    LossBacksOff(f, true);
    SynHasNoPayload(f) by { CoreIsBase(f); }
    CongestionLossKeeps(f, true) by { CoreIsBase(f); }
    var l := CongestionLoss(f, true);
    LossKeepsQueue(f);
    LiveHasSegments(s, id);
    OldestResent(l, header, s.rtx.sndUna);
  }

  lemma LossKeepsQueue(s: Sender)
    ensures CongestionLoss(s, true).rtx == s.rtx
  {
  }

  lemma FireCounts(q: Queue, id: nat)
    requires TimerBranch(q, id).Resends?
    ensures var p := Fire(q, id, Returned, Sent);
      && p.timeoutRetransmissions == q.timeoutRetransmissions + 1 && p.currentRtoMs == Min(q.currentRtoMs * 2, q.cfg.maxRtoMs)
      && p.sndUna == q.sndUna
  {
  }

  lemma LiveHasSegments(s: Sender, id: nat)
    requires Core(s) && id in s.rtx.live && !s.rtx.persist
    ensures s.rtx.segments != []
  {
    OpenFacts(s);
    LiveTimer(s, id);
  }

  /** With the retries used up the connection is given up on: it is closed, with a
      reset to the VM when it can be sent. */
  lemma TimeoutGivesUp(h: Handshake, events: seq<Event>, c: Conn, id: nat, congested: bool, open: bool)
    requires Reaches(h, events, c) && id in c.snd.rtx.live
    requires c.snd.rtx.timeoutRetransmissions >= c.snd.rtx.cfg.maxRetransmissions
    ensures var d := Step(c, RetransmissionTimerFires(id, congested, open));
      && ShutDown(d) && d.snd.log == c.snd.log && d.rcv == c.rcv && d.finished == c.finished
      && (if open then OneBareFrame(c.snd.trace, d.snd.trace, HeaderOf(c), ACK_RST) else d.snd.trace == c.snd.trace)
  {
    var e := RetransmissionTimerFires(id, congested, open);
    hide Reaches, ConnOk, Core, Fire, Close, P.ClosePacer, OneBareFrame;
    ReachedOk(h, events, c);
    LiveResend(c.snd, id);
    LiveTimer(c.snd, id);
    GiveUpIsAbort(c, id, congested, open);
    StepKeepsOk(c, e);
    BareIsOneFrame(FireQueue(c.snd, id, Sent), HeaderOf(c), ACK_RST);
    hide TransmitBare, RetransmissionTimer, TimerBranch;
    ClosedIsIdle(Step(c, e));
  }

  lemma GiveUpIsAbort(c: Conn, id: nat, congested: bool, open: bool)
    requires TimerBranch(c.snd.rtx, id).GiveUp? && c.snd.life.current
    ensures RetransmissionTimer(c.snd, HeaderOf(c), id, congested, open) == Abort(FireQueue(c.snd, id, Sent), HeaderOf(c), open)
    ensures var d := Abort(FireQueue(c.snd, id, Sent), HeaderOf(c), open);
      d.life.state.Closed? && !d.life.current && d.pacer.timer.None? && !d.wake.waiting && d.log == c.snd.log
    ensures !SendsAnotherFin(c, RetransmissionTimerFires(id, congested, open))
  {
    hide Fire, TransmitBare;
    BareIsOneFrame(FireQueue(c.snd, id, Sent), HeaderOf(c), ACK_RST);
  }

  // ----- zero-window probes -----

  /** A probe is due: the VM's window was closed at the last drain. */
  predicate Probes(s: Sender, id: nat) {
    id in s.rtx.live && s.rtx.persist && s.rtx.timeoutRetransmissions < s.rtx.cfg.maxRetransmissions
  }

  /** `t` continues `s` with one frame of one item, at stream position `pos`. */
  predicate OneItemSent(s: Sender, t: Sender, header: Header, pos: nat) {
    && |t.trace| == |s.trace| + 1 && s.trace <= t.trace
    && var e := t.trace[|s.trace|]; e.pos == pos && FrameLength(e.frame) == 1 && !e.frame.flags.syn && e.frame.header == header
  }

  lemma OneFrame(s: Sender, header: Header, payload: seq<byte>, flags: Flags, seqNo: U32, pos: nat)
    requires |payload| <= 1 && !flags.syn && SequenceLength(payload, flags) == 1
    ensures var t := Transmit(s, header, payload, flags, seqNo, pos);
      t == s.(trace := t.trace) && OneItemSent(s, t, header, pos)
  {
    var f := Frame(seqNo, header, flags, payload);
    assert Frames(payload, TcpMss(s), flags, seqNo, HeaderFor(s, flags, header)) == [f];
    assert Stamp(pos, [f]) == [Emission(pos, f)] by { StampNothing(pos + FrameLength(f)); }
  }

  lemma ProbeIsStep(c: Conn, id: nat, congested: bool, open: bool)
    requires ConnOk(c) && Probes(c.snd, id) && TimerBranch(c.snd.rtx, id).SendsProbe?
    ensures Step(c, RetransmissionTimerFires(id, congested, open)).snd
         == if ProbeTimer(c.snd, HeaderOf(c), id, congested).rtx.exhausted
            then Abort(ProbeTimer(c.snd, HeaderOf(c), id, congested), HeaderOf(c), open)
            else ProbeTimer(c.snd, HeaderOf(c), id, congested)
  {
    hide ProbeTimer, Abort;
  }

  /** A probe that goes out is counted, one put off is not. */
  lemma FiredProbeCounts(q: Queue, id: nat, probe: ProbeReply)
    requires TimerBranch(q, id).SendsProbe? && !probe.ProbeThrew? && !probe.ProbeClosedQueue?
    requires probe.SentTracked? ==> Wrap(probe.seqNo) == q.sndNxt
    ensures var p := Fire(q, id, Returned, probe);
      && !p.exhausted && p.timeoutRetransmissions == q.timeoutRetransmissions + (if probe.Backpressured? then 0 else 1)
  {
    hide Wrap;
  }

  lemma ProbeCounts(s: Sender, header: Header, id: nat, congested: bool)
    requires Core(s) && s.life.current && !s.life.state.Closed? && TimerBranch(s.rtx, id).SendsProbe?
    ensures var t := ProbeTimer(s, header, id, congested);
      && !t.rtx.exhausted
      && t.rtx.timeoutRetransmissions == s.rtx.timeoutRetransmissions + (if congested then 0 else 1)
  {
    hide Core, Fire, TimerBranch, Frames, Stamp, TakeQueued, Concat, Wrap;
    OpenFacts(s);
    Facts(s) by { CoreIsBase(s); }
    AlreadyWrapped(s.relaySeq);
    FiredProbeCounts(s.rtx, id, Sent);
    FiredProbeCounts(s.rtx, id, Backpressured);
    FiredProbeCounts(s.rtx, id, SentTracked(s.relaySeq, [], ACK_FIN));
    FiredProbeCounts(s.rtx, id, SentTracked(s.relaySeq, if |Concat(s.out.queue)| > 0 then TakeQueued(s.out.queue, 1).0 else [], ACK));
    QueueNotEmpty(s);
  }

  lemma QueueNotEmpty(s: Sender)
    requires Core(s)
    ensures s.out.bytes > 0 <==> |Concat(s.out.queue)| > 0
  {
    OpenFacts(s);
  }

  lemma CongestedProbe(s: Sender, header: Header, id: nat)
    requires s.life.current && !s.life.state.Closed?
    ensures var t := ProbeTimer(s, header, id, true); t == s.(rtx := t.rtx)
  {
    hide Fire;
  }

  /** In a data state the oldest segment begins with a byte or is the FIN. */
  lemma OldestHasAnItem(s: Sender)
    requires Core(s) && InDataState(s) && s.rtx.segments != []
    ensures var g := s.rtx.segments[0]; g.payload != [] || g.flags.fin
  {
    var g := s.rtx.segments[0];
    HandshakeDone(s);
    if g.flags.syn { SynIsOutstanding(s) by { CoreIsBase(s); } }
    OldestIsLong(s);
    hide Core;
  }

  lemma SynIsOutstanding(s: Sender)
    requires Base(s) && s.rtx.segments != [] && s.rtx.segments[0].flags.syn
    ensures s.log.acked == 0
  {
    OldestIsStream(s) by { hide Base; }
    assert SegmentItems(s.rtx.segments[0])[0] == Syn;
    WireFacts(BytesOf(s.log.tracked), s.life.finSent);
    hide Wire, BytesOf, Sequenced, Consistent, SegmentItems;
  }

  lemma OldestIsLong(s: Sender)
    requires Core(s) && s.rtx.segments != []
    ensures var g := s.rtx.segments[0]; SequenceLength(g.payload, g.flags) > 0
  {
  }

  lemma ProbeOldestSends(s: Sender, header: Header, id: nat)
    requires Core(s) && InDataState(s) && s.life.current && s.rtx.segments != []
    ensures var t := ProbeTimer(s, header, id, false);
      t == s.(rtx := t.rtx, trace := t.trace) && OneItemSent(s, t, header, s.log.acked)
  {
    OldestHasAnItem(s);
    var g := s.rtx.segments[0];
    var flags := Flags(false, true, g.payload == [] && g.flags.fin, false, false);
    OneFrame(FireQueue(s, id, Sent), header, g.payload[..Min(1, |g.payload|)], flags, g.seqNo, s.log.acked);
    hide Core, Fire, Transmit;
  }

  lemma FirstTaken(queue: seq<seq<byte>>)
    requires |Concat(queue)| > 0
    ensures var (chunk, left) := TakeQueued(queue, 1); chunk == [Concat(queue)[0]] && Concat(left) == Concat(queue)[1..]
  {
    TakeQueuedSplits(queue, 1);
    var (chunk, left) := TakeQueued(queue, 1);
    assert (chunk + Concat(left))[0] == chunk[0] && (chunk + Concat(left))[1..] == Concat(left);
    hide TakeQueued, Concat;
  }

  lemma ProbeByteSends(s: Sender, header: Header, id: nat)
    requires Core(s) && s.life.current && !s.life.state.Closed? && s.rtx.segments == [] && s.out.queue != []
    ensures var t := ProbeTimer(s, header, id, false);
      && |Concat(s.out.queue)| > 0 && OneItemSent(s, t, header, |s.log.tracked|) && Concat(t.out.queue) == Concat(s.out.queue)[1..]
      && t.log == s.log.(tracked := s.log.tracked + [Data(Concat(s.out.queue)[0])])
  {
    OpenFacts(s);
    FirstTaken(s.out.queue);
    var (chunk, left) := TakeQueued(s.out.queue, 1);
    assert Items(chunk, false, false) == [Data(chunk[0])];
    var u := s.(out := s.out.(queue := left));
    OneFrame(u, header, chunk, ACK, s.relaySeq, |s.log.tracked|);
    hide Core, Fire, Transmit, TakeQueued, Concat, Items;
  }

  lemma ProbeFinSends(s: Sender, header: Header, id: nat)
    requires s.life.current && !s.life.state.Closed? && s.rtx.segments == [] && s.out.bytes == 0
    ensures var t := ProbeTimer(s, header, id, false);
      if s.life.pendingFin then
        && OneItemSent(s, t, header, |s.log.tracked|) && t.out == s.out && t.life.finSent
        && t.log == s.log.(tracked := s.log.tracked + [Fin])
      else t == s.(rtx := t.rtx)
  {
    assert Items([], false, true) == [Fin];
    OneFrame(SendingFin(s), header, [], ACK_FIN, s.relaySeq, |s.log.tracked|);
    hide Fire, Transmit, Items;
  }

  /** A zero-window probe carries one item. If something is outstanding it is the
      first of that, and the books do not change. Otherwise it is the first queued
      byte, or the FIN that waits, and takes new sequence space; or there is
      nothing to send. A congested transport puts the probe off at no charge. */
  lemma ProbeSendsOneItem(h: Handshake, events: seq<Event>, c: Conn, id: nat, congested: bool, open: bool)
    requires Reaches(h, events, c) && InDataState(c.snd) && Probes(c.snd, id)
    ensures var (s, t) := (c.snd, Step(c, RetransmissionTimerFires(id, congested, open)).snd);
      && t.rtx.timeoutRetransmissions == s.rtx.timeoutRetransmissions + (if congested then 0 else 1)
      && (if congested || (s.rtx.segments == [] && s.out.queue == [] && !s.life.pendingFin) then
            t.trace == s.trace && t.log == s.log && t.out == s.out
          else if s.rtx.segments != [] then OneItemSent(s, t, HeaderOf(c), s.log.acked) && t.log == s.log && t.out == s.out
          else
            && OneItemSent(s, t, HeaderOf(c), |s.log.tracked|)
            && if s.out.queue != [] then
                 && |Concat(s.out.queue)| > 0 && Concat(t.out.queue) == Concat(s.out.queue)[1..]
                 && t.log == s.log.(tracked := s.log.tracked + [Data(Concat(s.out.queue)[0])])
               else t.log == s.log.(tracked := s.log.tracked + [Fin]) && t.out == s.out && t.life.finSent)
  {
    hide Reaches, ConnOk, Core;
    ReachedOk(h, events, c);
    var s := c.snd;
    LiveResend(s, id);
    LiveTimer(s, id);
    OpenFacts(s);
    ProbeIsStep(c, id, congested, open);
    ProbeCounts(s, HeaderOf(c), id, congested);
    if congested {
      CongestedProbe(s, HeaderOf(c), id);
    } else if s.rtx.segments != [] {
      ProbeOldestSends(s, HeaderOf(c), id);
    } else if s.out.queue != [] {
      ProbeByteSends(s, HeaderOf(c), id);
    } else {
      EmptyQueue(s);
      ProbeFinSends(s, HeaderOf(c), id);
    }
    hide ProbeTimer, Step;
  }

  // ----- duplicate acknowledgements -----

  /** A pure duplicate: it repeats the last number and says nothing new. */
  predicate PureDuplicate(c: Conn, p: Packet) {
    && Plain(c, p) && p.hasAck && p.ack == c.snd.rtx.sndUna && p.payload == [] && !p.hasFin && !p.hasSyn
    && 0 <= p.window <= MAX_WINDOW
    && c.snd.win.size == Heard(c.snd.win, Report(p.seqNo, p.ack, p.window)).size > 0
  }

  /** The first two duplicates are counted. The third resends exactly the oldest
      outstanding segment and halves the congestion window, unless the VM's window
      is being probed or that segment was resent at this number before. */
  lemma ThirdDuplicateResends(h: Handshake, events: seq<Event>, c: Conn, p: Packet, mss: nat, turns: nat -> Turn, answer: SinkAnswer)
    requires Reaches(h, events, c) && InDataState(c.snd) && c.snd.life.current && c.snd.rtx.segments != [] && PureDuplicate(c, p)
    ensures var (s, d) := (c.snd, Step(c, Arrives(p, mss, turns, answer)));
      && d.snd.log == s.log && d.snd.out == s.out && d.rcv == c.rcv
      && (if s.cong.dupAckCount != 2 then
            d.snd.cong == s.cong.(dupAckCount := s.cong.dupAckCount + 1) && d.snd.trace == s.trace
          else if s.rtx.persist || s.cong.fastRetransmitAck == Some(p.ack) then
            d.snd.cong == s.cong.(dupAckCount := 0) && d.snd.trace == s.trace
          else
            && ResentOldest(d.snd, s.trace, HeaderOf(c), p.ack) && d.snd.cong.dupAckCount == 0
            && BacksOff(s, d.snd, false))
  {
    hide Reaches, ConnOk, Core, Step, ResentOldest, BacksOff;
    ReachedOk(h, events, c);
    AcceptedStatus(c, p);
    OpenFacts(c.snd);
    DuplicateIsCounted(c, p);
    HandledInParts(c, p, mss, turns, answer);
    NothingFollows(c, p, turns, answer);
    CountedDuplicate(c.snd, HeaderOf(c), p);
    hide Drained, DataPart, ProcessAck, CountDuplicate;
  }

  /** Only pure duplicates are counted, and only while something is outstanding: a
      repetition with data, a FIN or a SYN, or with a window that is closed, or new,
      resends nothing; a new window starts the count anew. */
  lemma OtherRepetitionsDoNotCount(h: Handshake, events: seq<Event>, c: Conn, p: Packet, mss: nat, turns: nat -> Turn,
                                   answer: SinkAnswer)
    requires Reaches(h, events, c) && c.snd.life.current && InDataState(c.snd) && Plain(c, p) && 0 <= p.window <= MAX_WINDOW
    requires p.hasAck && p.ack == c.snd.rtx.sndUna && !(PureDuplicate(c, p) && c.snd.rtx.segments != [])
    ensures var (s, d) := (c.snd, Step(c, Arrives(p, mss, turns, answer)));
      || (d.finished && c.rcv.peerFin)
      || SameCongestion(s.cong, d.snd.cong, s.win.size != Heard(s.win, Report(p.seqNo, p.ack, p.window)).size)
  {
    hide Reaches, ConnOk, Core, Step, Drained, DataPart, ProcessAck, BothDone;
    ReachedOk(h, events, c);
    AcceptedStatus(c, p);
    NotCounted(c, p);
    HandledInParts(c, p, mss, turns, answer);
    DrainedIsReady(c, p, turns);
    DataPartOnlyAnswers(Drained(c, p, turns), p, answer);
    if Finishes(c, p) { EndIsFinished(c, p); }
  }

  lemma NotCounted(c: Conn, p: Packet)
    requires Status(c, p).Duplicate? && Plain(c, p) && p.hasAck && p.ack == c.snd.rtx.sndUna && 0 <= p.window <= MAX_WINDOW
    requires !(PureDuplicate(c, p) && c.snd.rtx.segments != [])
    ensures var (s, status, changed) := ProcessAck(c.snd, HeaderOf(c), p);
      s.cong == c.snd.cong && (changed <==> c.snd.win.size != Heard(c.snd.win, Report(p.seqNo, p.ack, p.window)).size)
  {
    hide CountDuplicate, CongestionAck, DropItems, DroppedBytes, NextWindow;
  }

  /** What processing a pure duplicate amounts to. */
  lemma DuplicateIsCounted(c: Conn, p: Packet)
    requires Status(c, p).Duplicate? && PureDuplicate(c, p) && c.snd.rtx.segments != []
    ensures var a := AcknowledgeQueue(c.snd, p.ack).0;
      var w := UpdateWindow(a, p.seqNo, p.ack, p.window);
      ProcessAck(c.snd, HeaderOf(c), p) == (CountDuplicate(w, HeaderOf(c), p.ack), Duplicate, false)
      && w == c.snd.(rtx := a.rtx, win := w.win) && a.rtx == c.snd.rtx.(timeoutRetransmissions := a.rtx.timeoutRetransmissions)
  {
    hide CountDuplicate, CongestionAck, DropItems, DroppedBytes, NextWindow;
  }

  lemma NothingFollows(c: Conn, p: Packet, turns: nat -> Turn, answer: SinkAnswer)
    requires p.hasAck && p.payload == [] && !p.hasFin && Status(c, p).Duplicate? && !ProcessAck(c.snd, HeaderOf(c), p).2
    ensures DataPart(Drained(c, p, turns), p, answer) == Acked(c, p) && !Finishes(c, p)
  {
    hide ProcessAck;
  }

  lemma CountedDuplicate(s: Sender, header: Header, p: Packet)
    requires Core(s) && InDataState(s) && s.life.current && s.rtx.segments != [] && !s.rtx.closed && !s.rtx.exhausted && p.ack == s.rtx.sndUna
    requires 0 <= p.window <= MAX_WINDOW
    ensures var a := AcknowledgeQueue(s, p.ack).0;
      var w := UpdateWindow(a, p.seqNo, p.ack, p.window);
      var t := CountDuplicate(w, header, p.ack);
      w == s.(rtx := a.rtx, win := w.win) && a.rtx == s.rtx.(timeoutRetransmissions := a.rtx.timeoutRetransmissions) ==>
      && t.log == s.log && t.out == s.out
      && (if s.cong.dupAckCount != 2 then
            t.cong == s.cong.(dupAckCount := s.cong.dupAckCount + 1) && t.trace == s.trace
          else if s.rtx.persist || s.cong.fastRetransmitAck == Some(p.ack) then
            t.cong == s.cong.(dupAckCount := 0) && t.trace == s.trace
          else
            && ResentOldest(t, s.trace, header, p.ack) && t.cong.dupAckCount == 0
            && BacksOff(s, t, false))
  {
    var a := AcknowledgeQueue(s, p.ack).0;
    var w := UpdateWindow(a, p.seqNo, p.ack, p.window);
    hide Core, ResentOldest, BacksOff, AcknowledgeQueue, UpdateWindow, Retransmission.FastRetransmit;
    AcknowledgeQueueKeeps(s, p.ack);
    StatusOfAck(s, header, p);
    UpdateWindowKeeps(a, p.seqNo, p.ack, p.window);
    if w == s.(rtx := a.rtx, win := w.win) && a.rtx == s.rtx.(timeoutRetransmissions := a.rtx.timeoutRetransmissions) {
      if s.cong.dupAckCount == 2 && !s.rtx.persist && s.cong.fastRetransmitAck != Some(p.ack) {
        WindowKeepsCore(a, w);
        FastResends(w, header);
        BacksOffFrom(s, w, SetDuplicates(SendPath.FastRetransmit(w, header), 0));
      }
    }
  }

  lemma BacksOffFrom(s: Sender, w: Sender, t: Sender)
    requires BacksOff(w, t, false) && w == s.(rtx := w.rtx, win := w.win)
    requires w.rtx.payloadBytesInFlight == s.rtx.payloadBytesInFlight && w.rtx.sndUna == s.rtx.sndUna
    ensures BacksOff(s, t, false)
  {
    hide P.Narrows, HalfOf;
  }

  lemma WindowKeepsCore(s: Sender, t: Sender)
    requires Core(s) && Base(t) && t == s.(win := t.win)
    ensures Core(t)
  {
    hide Base;
  }

  /** A fast retransmission: the oldest segment again, and the loss response. */
  lemma FastResends(s: Sender, header: Header)
    requires Core(s) && CanFastRetransmit(s.rtx)
    ensures var t := SetDuplicates(SendPath.FastRetransmit(s, header), 0);
      && ResentOldest(t, s.trace, header, s.rtx.sndUna) && t.log == s.log && t.out == s.out
      && BacksOff(s, t, false)
  {
    hide Core, CongestionLoss, Retransmission.FastRetransmit, TransmitOldest, HalfOf;
    var u := s.(rtx := Retransmission.FastRetransmit(s.rtx, Returned).0);
    FastQueue(s);
    LossBacksOff(u, false);
    SynHasNoPayload(u) by { CoreIsBase(u); }
    CongestionLossKeeps(u, false) by { CoreIsBase(u); }
    var l := CongestionLoss(u, false);
    LossKeepsDuplicates(u);
    OldestResent(l, header, s.rtx.sndUna);
  }

  lemma LossKeepsDuplicates(s: Sender)
    ensures CongestionLoss(s, false).cong.dupAckCount == s.cong.dupAckCount && CongestionLoss(s, false).rtx == s.rtx
  {
  }

  lemma FastQueue(s: Sender)
    requires Core(s) && CanFastRetransmit(s.rtx)
    ensures var u := s.(rtx := Retransmission.FastRetransmit(s.rtx, Returned).0);
      && Core(u) && u.rtx.segments == s.rtx.segments && u.rtx.sndUna == s.rtx.sndUna
      && u.rtx.payloadBytesInFlight == s.rtx.payloadBytesInFlight
  {
  }

  // ----- a window that opens again -----

  /** `trace` goes on from the oldest outstanding segment, sent again. */
  predicate ResendsFirst(c: Conn, trace: seq<Emission>) {
    && c.snd.rtx.segments != []
    && var g := c.snd.rtx.segments[0];
       c.snd.trace + Stamp(c.snd.log.acked, Frames(g.payload, TcpMss(c.snd), g.flags, g.seqNo, HeaderFor(c.snd, g.flags, HeaderOf(c)))) <= trace
  }

  /** When the VM opens a window that was being probed, the oldest outstanding
      segment, of which only a first byte may have got through, is sent again
      before anything else. */
  lemma ReopeningResends(h: Handshake, events: seq<Event>, c: Conn, p: Packet, mss: nat, turns: nat -> Turn, answer: SinkAnswer)
    requires Reaches(h, events, c) && InDataState(c.snd) && c.snd.life.current && Plain(c, p) && 0 <= p.window <= MAX_WINDOW
    requires p.hasAck && p.ack == c.snd.rtx.sndUna && c.snd.rtx.persist && c.snd.rtx.segments != [] && !c.snd.pacer.blocked
    requires c.snd.win.size != Heard(c.snd.win, Report(p.seqNo, p.ack, p.window)).size > 0
    ensures ResendsFirst(c, Step(c, Arrives(p, mss, turns, answer)).snd.trace)
  {
    hide Reaches, ConnOk, Core, Step, ResendsFirst;
    ReachedOk(h, events, c);
    AcceptedStatus(c, p);
    OpenFacts(c.snd);
    OkIsSenderOk(c);
    WindowChanges(c, p);
    HandledInParts(c, p, mss, turns, answer);
    NotDoneWhileOutstanding(c, p);
    var a := Acked(c, p);
    var d := a.(snd := SetDuplicates(a.snd, 0));
    ReopenedDrain(c, d, if c.snd.cfg.reverse then SecondDrain(turns) else turns);
    DrainedOnce(c, p, turns);
    DataPartOnlyAnswers(Drained(c, p, turns), p, answer);
    hide ProcessAck, Drained, DataPart, TrySendConn;
    StillFirst(c, Drained(c, p, turns).snd.trace, DataPart(Drained(c, p, turns), p, answer).snd.trace);
  }

  lemma StillFirst(c: Conn, a: seq<Emission>, b: seq<Emission>)
    requires ResendsFirst(c, a) && a <= b
    ensures ResendsFirst(c, b)
  {
    hide Frames, Stamp;
  }

  lemma WindowChanges(c: Conn, p: Packet)
    requires Status(c, p).Duplicate? && c.snd.win.size != Heard(c.snd.win, Report(p.seqNo, p.ack, p.window)).size
    ensures var (s, status, changed) := ProcessAck(c.snd, HeaderOf(c), p);
      && changed && s == c.snd.(rtx := s.rtx, win := Heard(c.snd.win, Report(p.seqNo, p.ack, p.window)))
      && s.rtx == c.snd.rtx.(timeoutRetransmissions := s.rtx.timeoutRetransmissions)
  {
    hide DropItems, DroppedBytes, NextWindow, CongestionAck, CountDuplicate;
  }

  lemma NotDoneWhileOutstanding(c: Conn, p: Packet)
    requires p.hasAck && c.snd.rtx.segments != [] && ProcessAck(c.snd, HeaderOf(c), p).0.rtx.segments == c.snd.rtx.segments
    ensures !Finishes(c, p)
  {
    hide ProcessAck;
  }

  lemma DrainedOnce(c: Conn, p: Packet, turns: nat -> Turn)
    requires p.hasAck && Status(c, p).Duplicate? && ProcessAck(c.snd, HeaderOf(c), p).2
    ensures var a := Acked(c, p);
      Drained(c, p, turns)
      == TrySendConn(a.(snd := SetDuplicates(a.snd, 0)), if c.snd.cfg.reverse then SecondDrain(turns) else turns)
  {
    hide ProcessAck, TrySendConn;
  }

  lemma ReopenedDrain(c: Conn, d: Conn, turns: nat -> Turn)
    requires InDataState(d.snd) && d.snd.life.current && !d.snd.wake.sending && !d.snd.pacer.blocked && d.snd.win.size > 0
    requires d.snd.rtx == c.snd.rtx.(timeoutRetransmissions := d.snd.rtx.timeoutRetransmissions) && d.rcv == c.rcv
    requires d.snd.trace == c.snd.trace && d.snd.log == c.snd.log && d.snd.cfg == c.snd.cfg && d.snd.sendMss == c.snd.sendMss
    requires c.snd.rtx.persist && c.snd.rtx.segments != [] && !c.snd.rtx.closed && !c.snd.rtx.exhausted
    ensures ResendsFirst(c, TrySendConn(d, turns).snd.trace)
  {
    var u := d.snd.(wake := d.snd.wake.(sending := true));
    var v := SendPath.SetPersist(u, HeaderOf(d), false);
    ReopenedTrace(u, HeaderOf(d));
    DrainLoopAppends(v, HeaderOf(d), turns, 0);
    hide SendPath.SetPersist, DrainLoop, Frames, Stamp;
  }

  lemma ReopenedTrace(s: Sender, header: Header)
    requires s.rtx.persist && s.rtx.segments != [] && !s.rtx.closed && !s.rtx.exhausted
    ensures var g := s.rtx.segments[0];
      SendPath.SetPersist(s, header, false).trace
      == s.trace + Stamp(s.log.acked, Frames(g.payload, TcpMss(s), g.flags, g.seqNo, HeaderFor(s, g.flags, header)))
  {
    hide Frames, Stamp;
  }

  // ----- acknowledged data -----

  /** The congestion window after `acked` new bytes, outside recovery: one more
      segment per window acknowledged, one byte at least, up to the cap. */
  ghost predicate Grown(mss: int, acked: int, current: int, cap: int, w: int) {
    exists step :: Growth(mss, acked, current, step) && w == Min(cap, current + step)
  }

  predicate Growth(mss: int, acked: int, current: int, step: int) {
    step >= 1 && (if step == 1 then mss * acked < 2 * current else step * current <= mss * acked < (step + 1) * current)
  }

  lemma GrowthOfWindow(s: Sender, acked: int)
    requires acked > 0 && s.cong.window >= 1
    ensures Grown(TcpMss(s), acked, Max(TcpMss(s), s.cong.window), s.cfg.windowSize, GrowWindow(s, acked))
  {
    var current := Max(TcpMss(s), s.cong.window);
    var product := TcpMss(s) * acked;
    var step := Max(1, product / current);
    assert current >= 1 && product == current * (product / current) + product % current;
    assert Growth(TcpMss(s), acked, current, step);
  }

  /** What `n` newly acknowledged items do to the congestion window: a recovery
      leaves it alone, whether it goes on or is over; otherwise it grows with the
      payload bytes among them, and the pacer's burst widens with it. */
  ghost predicate Rewarded(s: Sender, t: Sender, acked: int) {
    if acked == 0 || s.cong.recoveryUntil.Some? then
      t.cong.window == s.cong.window && t.pacer.burstSegments == s.pacer.burstSegments && t.pacer.ackedBytes == s.pacer.ackedBytes
    else
      && Grown(TcpMss(s), acked, Max(TcpMss(s), s.cong.window), s.cfg.windowSize, t.cong.window)
      && P.Widens(s.pacer, t.pacer, acked, t.cong.window)
  }

  lemma CongestionAckRewards(s: Sender, header: Header, acked: int, ack: U32)
    requires acked >= 0 && s.cong.window >= 1
    ensures Rewarded(s, CongestionAck(s, header, acked, ack), acked)
    ensures CongestionAck(s, header, acked, ack).cong.dupAckCount == s.cong.dupAckCount
    ensures CongestionAck(s, header, acked, ack).cong.fastRetransmitAck in {s.cong.fastRetransmitAck, Some(s.rtx.sndUna)}
  {
    if acked > 0 {
      GrowthOfWindow(s, acked);
      P.AckWidens(s.pacer, acked, GrowWindow(s, acked));
    }
    hide Grown, P.Widens, P.NoteAck, GrowWindow, TransmitOldest, RecoveryComplete;
    TransmitsOnly(s.(cong := s.cong.(fastRetransmitAck := Some(s.rtx.sndUna))), header);
  }

  lemma TransmitsOnly(s: Sender, header: Header)
    ensures var t := TransmitOldest(s, header); t == s.(trace := t.trace)
  {
    hide Frames, Stamp;
  }

  lemma AckRewards(s: Sender, header: Header, p: Packet, n: nat)
    requires Core(s) && s.life.current && !s.rtx.closed && Outstanding(s, s.log.iss, n, p.ack)
    requires Acknowledge(s.rtx, p.ack).1.Advanced? && TakesWindows(s) && 0 <= p.window <= MAX_WINDOW
    ensures var t := ProcessAck(s, header, p).0;
      && Rewarded(s, t, |BytesOf(s.log.tracked[s.log.acked..n])|)
      && t.cong.dupAckCount == 0 && (t.cong.fastRetransmitAck == None || t.cong.fastRetransmitAck == Some(p.ack))
  {
    hide Core, Base, BytesOf, AcknowledgeQueue, UpdateWindow, CongestionAck, SameBooks, Rewarded, CountDuplicate;
    AcknowledgeQueueKeeps(s, p.ack);
    StatusOfAck(s, header, p);
    AckReaches(s, header, p, n);
    OpenFacts(s);
    var (a, status, bytes) := AcknowledgeQueue(s, p.ack);
    var w := UpdateWindow(a, p.seqNo, p.ack, p.window);
    var r := w.(cong := w.cong.(dupAckCount := 0, fastRetransmitAck := None));
    WindowOnly(a, p);
    CongestionAckRewards(r, header, bytes, p.ack);
    RewardedFrom(s, r, CongestionAck(r, header, bytes, p.ack), bytes);
  }

  lemma WindowOnly(a: Sender, p: Packet)
    ensures var w := UpdateWindow(a, p.seqNo, p.ack, p.window); w == a.(win := w.win)
  {
    hide Heard;
  }

  lemma RewardedFrom(s: Sender, r: Sender, t: Sender, acked: int)
    requires Rewarded(r, t, acked) && r.cfg == s.cfg && r.sendMss == s.sendMss && r.pacer == s.pacer
    requires r.cong.window == s.cong.window && r.cong.recoveryUntil == s.cong.recoveryUntil
    ensures Rewarded(s, t, acked)
  {
    hide Grown, P.Widens;
  }

  /** Acknowledged data is rewarded: see `Rewarded`. It also starts the count of
      duplicates anew, and forgets about resends at earlier numbers. */
  lemma AckGrowsWindow(h: Handshake, events: seq<Event>, c: Conn, p: Packet, mss: nat, turns: nat -> Turn, answer: SinkAnswer, n: nat)
    requires Reaches(h, events, c) && c.snd.life.current && InDataState(c.snd) && Plain(c, p) && 0 <= p.window <= MAX_WINDOW
    requires p.hasAck && Outstanding(c.snd, c.snd.log.iss, n, p.ack)
    ensures c.snd.log.acked <= n <= |c.snd.log.tracked|
    ensures var d := Step(c, Arrives(p, mss, turns, answer));
      && Rewarded(c.snd, d.snd, |BytesOf(c.snd.log.tracked[c.snd.log.acked..n])|)
      && d.snd.cong.dupAckCount == 0 && (d.snd.cong.fastRetransmitAck == None || d.snd.cong.fastRetransmitAck == Some(p.ack))
  {
    hide Reaches, ConnOk, Step, Core, Base, DataPart, FinishConn, Drained, ProcessAck, BothDone, AcknowledgeQueue, Rewarded, BytesOf;
    ReachedOk(h, events, c);
    AcceptedStatus(c, p);
    HandledInParts(c, p, mss, turns, answer);
    OpenFacts(c.snd);
    StatusOfAck(c.snd, HeaderOf(c), p);
    AckRewards(c.snd, HeaderOf(c), p, n);
    DrainedIsReady(c, p, turns);
    var m := Drained(c, p, turns);
    DataPartOnlyAnswers(m, p, answer);
    FinishOnlyAnswers(Acked(c, p));
    var k := |BytesOf(c.snd.log.tracked[c.snd.log.acked..n])|;
    SameRewards(c.snd, ProcessAck(c.snd, HeaderOf(c), p).0, m.snd, k);
    SameRewards(c.snd, m.snd, DataPart(m, p, answer).snd, k);
    SameRewards(c.snd, Acked(c, p).snd, FinishConn(Acked(c, p)).snd, k);
  }

  lemma SameRewards(s: Sender, t: Sender, u: Sender, acked: int)
    requires Rewarded(s, t, acked) && u.cong.window == t.cong.window
    requires u.pacer.burstSegments == t.pacer.burstSegments && u.pacer.ackedBytes == t.pacer.ackedBytes
    ensures Rewarded(s, u, acked)
  {
  }
}
