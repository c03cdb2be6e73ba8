/** The theorems about whole runs of a connection, from its first frame on. */
module ConnectionTheorems {
  import opened Bytes
  import opened SequenceNumbers
  import opened Retransmission
  import opened RetransmissionProofs
  import opened SendPath
  import opened SendInvariant
  import opened SendOperations
  import opened SendProgress
  import opened SendHeaders
  import opened SendHistory
  import opened ReceivePath
  import opened Connection
  import opened ConnectionProofs
  import opened ConnectionPeer
  import opened ConnectionHistory
  import opened ConnectionAcks
  import P = Pacing
  import W = WindowUpdate

  // ----- the beginning -----

  /** What a connection starts from: the setup, the relay's initial sequence
      number and, for an outbound one, what the VM's SYN said. */
  datatype Handshake = Handshake(cfg: Setup, isn: U32, vmFirst: U32, window: int, mss: nat)
  {
    predicate Valid() { cfg.Valid() && 0 <= window <= MAX_WINDOW }

    function Begin(): Conn { Connection.Open(cfg, isn, vmFirst, window, mss) }
  }

  lemma OpenSenderOk(cfg: Setup, isn: U32, window: int, mss: int, header: Header)
    requires cfg.Valid() && 0 <= window && (window <= MAX_WINDOW || cfg.reverse)
    ensures SenderOk(OpenSender(cfg, isn, window, mss, header)) && OpenSender(cfg, isn, window, mss, header).log.iss == isn
  {
    hide Sequenced, SendTracked, NewSender, Wire, BytesOf, RetransmissionProofs.Valid, Flatten, Contiguous, P.PacerOk;
    var s := NewSender(cfg, isn, window, mss);
    var syn := Flags(true, !cfg.reverse, false, false, false);
    NewSenderBooks(cfg, isn, window, mss);
    FirstItems();
    SendTrackedBooks(s, header, [], syn);
    var t := SendTracked(s, header, [], syn);
    assert t.log.tracked == [Syn];
    OpeningBooks(s, t);
  }

  lemma NewSenderBooks(cfg: Setup, isn: U32, window: int, mss: int)
    requires cfg.Valid()
    ensures var s := NewSender(cfg, isn, window, mss);
      && Sequenced(s.rtx, s.log, s.relaySeq) && P.PacerOk(s.pacer) && !s.pacer.past.closed
      && s == Sender(cfg, s.rtx, s.pacer, isn, mss, NewWindow(window), Outbox([], 0, false),
                     Congestion(Min(cfg.initialCwnd, cfg.windowSize), cfg.windowSize, None, None, 0), Wakers(false, false, 0, 0),
                     Life(SynSent, true, false, false, false), History(isn, 0, [], [], false), [])
      && !s.rtx.closed && !s.rtx.exhausted && s.rtx.payloadBytesInFlight == 0 && !s.rtx.persist
  {
    NewQueueValid(cfg.rto, isn);
    P.NewPacerOk(cfg.pacing);
    AlreadyWrapped(isn);
    hide RetransmissionProofs.Valid, Wrap, P.PacerOk;
  }

  /** The state right after the SYN, from its parts. */
  lemma OpeningBooks(s: Sender, t: Sender)
    requires s.cfg.Valid() && WindowTold(s.win) && s.win.reports == [] && 0 <= s.win.size && (s.win.size <= MAX_WINDOW || s.cfg.reverse)
    requires s.life == Life(SynSent, true, false, false, false) && s.out == Outbox([], 0, false) && !s.wake.sending
    requires s.cong == Congestion(Min(s.cfg.initialCwnd, s.cfg.windowSize), s.cfg.windowSize, None, None, 0)
    requires P.PacerOk(s.pacer) && !s.pacer.past.closed
    requires t == s.(rtx := t.rtx, relaySeq := t.relaySeq, trace := t.trace, log := t.log)
    requires t.log == History(t.log.iss, 0, [Syn], [], false)
    requires Sequenced(t.rtx, t.log, t.relaySeq) && Consistent(t.log, t.trace)
    requires !t.rtx.closed && !t.rtx.exhausted && t.rtx.payloadBytesInFlight == 0 && t.rtx.timer.Some? && !t.rtx.persist
    ensures SenderOk(t)
  {
    hide Sequenced, Consistent, Wire, BytesOf, P.PacerOk;
    FirstItems();
    Pack(t);
  }

  lemma FirstItems()
    ensures Items([], true, false) == [Syn] && Wire([], false) == [Syn] && BytesOf([Syn]) == []
  {
    BytesOfOne(Syn);
  }

  lemma BeginOk(h: Handshake, peer: seq<byte>)
    requires h.Valid()
    ensures ConnOk(h.Begin()) && PeerOk(h.Begin(), peer, SinceOpened(h.Begin())) && h.Begin().snd.log.iss == h.isn
  {
    var c := h.Begin();
    var first := if h.cfg.reverse then 0 else h.vmFirst;
    var header := Header(first, ReceiveWindow(NewReceiver(first), h.cfg.windowSize));
    var peerMss := if h.mss == 0 then FALLBACK_MSS else h.mss;
    if h.cfg.reverse { OpenSenderOk(h.cfg, h.isn, h.cfg.windowSize, h.cfg.tcpMss, header); }
    OpenSenderOk(h.cfg, h.isn, Min(h.window, h.cfg.windowSize), Min(h.cfg.tcpMss, peerMss), header);
    hide SenderOk, OpenSender, PeerOk;
    BeginPeerOk(h, peer);
  }

  lemma BeginPeerOk(h: Handshake, peer: seq<byte>)
    requires h.Valid()
    ensures PeerOk(h.Begin(), peer, SinceOpened(h.Begin()))
  {
    var c := h.Begin();
    OpeningFrame(h);
    OpeningFrameIsSent(h);
    assert c.rcv == NewReceiver(if h.cfg.reverse then 0 else h.vmFirst) && c.openedAt == 0;
    hide Handshake.Begin, Prefix;
    NewReceiverPrefix(c.rcv.base, peer, Capacity(c));
    forall i | 0 <= i < |c.snd.trace| ensures c.snd.trace[i].frame.header.ack == Wrap(c.rcv.base + 0) {
      assert c.snd.trace[i] in c.snd.trace;
    }
    AllAtOnce(c.snd.trace, c.rcv.base, 0);
    assert c.snd.trace[0..] == c.snd.trace;
    hide Climbs;
  }

  /** The first frame, a SYN or SYN-ACK, acknowledges the VM's first byte. */
  lemma OpeningFrame(h: Handshake)
    ensures var c := h.Begin(); c.snd.cfg == h.cfg
    ensures var c := h.Begin(); forall e <- c.snd.trace :: e.frame.header.ack == Wrap(c.rcv.base + 0)
  {
    var c := h.Begin();
    var first := if h.cfg.reverse then 0 else h.vmFirst;
    var header := Header(first, ReceiveWindow(NewReceiver(first), h.cfg.windowSize));
    var peerMss := if h.mss == 0 then FALLBACK_MSS else h.mss;
    OpenSenderHeader(h.cfg, h.isn, h.cfg.windowSize, h.cfg.tcpMss, header);
    OpenSenderHeader(h.cfg, h.isn, Min(h.window, h.cfg.windowSize), Min(h.cfg.tcpMss, peerMss), header);
    hide OpenSender;
  }

  lemma OpenSenderHeader(cfg: Setup, isn: U32, window: int, mss: int, header: Header)
    ensures var s := OpenSender(cfg, isn, window, mss, header);
      s.cfg == cfg && forall e <- s.trace :: e.frame.header.ack == header.ack
  {
    TrackedAppends(NewSender(cfg, isn, window, mss), header, [], Flags(true, !cfg.reverse, false, false, false));
    hide SendTracked;
  }

  // ----- runs -----

  /** The VM keeps sending one consistent stream, throughout the run. */
  ghost predicate PeerSchedule(c: Conn, peer: seq<byte>, events: seq<Event>)
    decreases |events|
  {
    events == [] || (PeerSends(c, peer, events[0]) && PeerSchedule(Step(c, events[0]), peer, events[1..]))
  }

  lemma {:induction false} RunKeepsOk(c: Conn, events: seq<Event>)
    requires ConnOk(c) && FinLast(c, events)
    ensures ConnOk(Run(c, events)) && Progresses(c, Run(c, events))
    decreases |events|
  {
    hide ConnOk, Advances, Progresses, Step, Enabled;
    Unmoved(c);
    if events != [] {
      var d := Step(c, events[0]);
      StepKeepsOk(c, events[0]);
      StepAdvances(c, events[0]);
      RunKeepsOk(d, events[1..]);
      ProgressesTrans(c, d, Run(d, events[1..]));
    }
  }

  lemma {:induction false} RunKeepsPeer(c: Conn, events: seq<Event>, peer: seq<byte>)
    requires ConnOk(c) && PeerOk(c, peer, SinceOpened(c)) && FinLast(c, events) && PeerSchedule(c, peer, events)
    ensures PeerOk(Run(c, events), peer, SinceOpened(Run(c, events)))
    decreases |events|
  {
    hide ConnOk, PeerOk, Step, Enabled, PeerSends;
    if events != [] {
      var d := Step(c, events[0]);
      StepKeepsOk(c, events[0]);
      StepKeepsPeer(c, events[0], peer, SinceOpened(c));
      SinceTheOpening(c, d, peer);
      RunKeepsPeer(d, events[1..], peer);
    }
  }

  lemma SinceTheOpening(c: Conn, d: Conn, peer: seq<byte>)
    requires PeerOk(d, peer, After(c, d, SinceOpened(c)))
    ensures PeerOk(d, peer, SinceOpened(d))
  {
    var g := After(c, d, SinceOpened(c));
    ClimbFrom(d.snd.trace[g.from..], d.rcv.base, g.lo, 0, NextPosition(d.rcv));
    hide Prefix, Climbs;
  }

  lemma ClimbFrom(frames: seq<Emission>, base: int, lo: nat, lower: nat, hi: nat)
    requires Climbs(frames, base, lo, hi) && lower <= lo
    ensures Climbs(frames, base, lower, hi)
  {
    hide Wrap;
    var at: seq<nat> :| Positions(at, frames, base, lo, hi);
    assert Positions(at, frames, base, lower, hi);
  }

  /** A state some run leads to in which no step puts anything behind the FIN;
      when a step does is `AfterFin.AddsAfterFinIff`. */
  ghost predicate Reaches(h: Handshake, events: seq<Event>, c: Conn) {
    h.Valid() && FinLast(h.Begin(), events) && c == Run(h.Begin(), events)
  }

  lemma ReachedOk(h: Handshake, events: seq<Event>, c: Conn)
    requires Reaches(h, events, c)
    ensures ConnOk(c) && Core(c.snd) && Base(c.snd) && c.snd.log.iss == h.isn
  {
    BeginOk(h, []);
    hide Handshake.Begin, ConnOk, PeerOk, Frozen, Core;
    RunKeepsOk(h.Begin(), events);
    assert SenderOk(c.snd) by { OkIsSenderOk(c); hide SenderOk; }
    SenderIsCore(c.snd) by { hide SenderOk; }
    CoreIsBase(c.snd);
  }

  lemma OkIsSenderOk(c: Conn)
    requires ConnOk(c)
    ensures SenderOk(c.snd) && FinishedOk(c)
  {
  }

  // ----- the sending half, whatever the VM sends -----

  /** The payload bytes of the segments, in order. */
  function Payloads(segments: seq<Segment>): seq<byte> {
    if segments == [] then [] else segments[0].payload + Payloads(segments[1..])
  }

  lemma {:induction false} PayloadsAreBytes(segments: seq<Segment>)
    ensures Payloads(segments) == BytesOf(Flatten(segments))
  {
    if segments != [] {
      var g := segments[0];
      PayloadsAreBytes(segments[1..]);
      BytesOfItems(g.payload, g.flags.syn, g.flags.fin);
      BytesOfAppend(SegmentItems(g), Flatten(segments[1..]));
      hide Items;
    }
  }

  /** Conservation: in every reachable state no exception was thrown, new data
      continues where the queue ends, and on an open connection the acknowledged
      bytes, the payloads of the outstanding segments and the queued chunks are,
      end to end, exactly the bytes the source enqueued. */
  lemma SenderConserves(h: Handshake, events: seq<Event>, c: Conn)
    requires Reaches(h, events, c)
    ensures var s := c.snd;
      && !s.life.thrown && s.relaySeq == s.rtx.sndNxt == Wrap(h.isn + |s.log.tracked|)
      && s.log.acked <= |s.log.tracked| && s.rtx.sndUna == Wrap(h.isn + s.log.acked)
      && s.log.tracked == Wire(BytesOf(s.log.tracked), s.life.finSent)
      && (!s.life.state.Closed? ==>
            BytesOf(s.log.tracked[..s.log.acked]) + Payloads(s.rtx.segments) + Concat(s.out.queue) == s.log.stream)
  {
    hide Core, Base, ConnOk, Sequenced, Flatten, BytesOf, Wire, Wrap, Concat, Reaches;
    ReachedOk(h, events, c);
    OpenFacts(c.snd);
    Unpack(c.snd);
    Facts(c.snd);
    if !c.snd.life.state.Closed? { SplitStream(c.snd); }
  }

  lemma SplitStream(s: Sender)
    requires Conserved(s.log, s.out.queue, s.life) && s.log.acked <= |s.log.tracked|
    requires Flatten(s.rtx.segments) == s.log.tracked[s.log.acked..]
    ensures BytesOf(s.log.tracked[..s.log.acked]) + Payloads(s.rtx.segments) + Concat(s.out.queue) == s.log.stream
  {
    PayloadsAreBytes(s.rtx.segments);
    BytesOfAppend(s.log.tracked[..s.log.acked], s.log.tracked[s.log.acked..]);
    assert s.log.tracked[..s.log.acked] + s.log.tracked[s.log.acked..] == s.log.tracked;
    hide Flatten, BytesOf, Wire, Concat;
  }

  /** The byte at offset `j` of an emission's payload sits at this index of the
      enqueued stream; position 0 is the SYN. */
  function StreamIndex(e: Emission, j: nat): int { e.pos + (if e.frame.flags.syn then 1 else 0) + j - 1 }

  /** Every frame ever emitted, whether first sent, resent on a timeout or a
      duplicate ACK, at the head of a recovery, on a window opening, or as a
      probe, carries the enqueued stream's bytes at its sequence number. */
  lemma FramesCarryStream(h: Handshake, events: seq<Event>, c: Conn, i: nat, j: nat)
    requires Reaches(h, events, c) && i < |c.snd.trace| && j < |c.snd.trace[i].frame.payload|
    ensures var e := c.snd.trace[i];
      && e.frame.seqNo == Wrap(h.isn + e.pos)
      && 0 <= StreamIndex(e, j) < |c.snd.log.stream| && e.frame.payload[j] == c.snd.log.stream[StreamIndex(e, j)]
  {
    hide Core, Base, ConnOk, Reaches, Conserved, Wrap;
    ReachedOk(h, events, c);
    Unpack(c.snd);
    var e := c.snd.trace[i];
    CarriedByte(c.snd, e, j) by { hide Wire, BytesOf, Concat, Items, Core, Base; }
  }

  lemma CarriedByte(s: Sender, e: Emission, j: nat)
    requires Conserved(s.log, s.out.queue, s.life) && Carries(s.log.iss, s.log.tracked, e) && j < |e.frame.payload|
    ensures 0 <= StreamIndex(e, j) < |s.log.stream| && e.frame.payload[j] == s.log.stream[StreamIndex(e, j)]
  {
    var bytes := BytesOf(s.log.tracked);
    WireFacts(bytes, s.life.finSent);
    assert s.log.tracked == Wire(bytes, s.life.finSent) && bytes + Concat(s.out.queue) == s.log.stream;
    hide Wire, BytesOf, Concat, Wrap, Conserved;
    var k := (if e.frame.flags.syn then 1 else 0) + j;
    assert FrameItems(e.frame)[k] == Data(e.frame.payload[j]);
    assert s.log.tracked[e.pos..e.pos + FrameLength(e.frame)][k] == s.log.tracked[e.pos + k];
    assert s.log.tracked[e.pos + k].Data?;
    assert s.log.stream[e.pos + k - 1] == bytes[e.pos + k - 1];
  }

  /** No sequence number is ever sent with two different items: two frames that
      use the same number for positions less than 2^32 apart agree on what it is. */
  lemma NoNumberCarriesTwoItems(h: Handshake, events: seq<Event>, c: Conn, i: nat, a: nat, k: nat, b: nat)
    requires Reaches(h, events, c) && i < |c.snd.trace| && k < |c.snd.trace|
    requires a < FrameLength(c.snd.trace[i].frame) && b < FrameLength(c.snd.trace[k].frame)
    requires Wrap(c.snd.trace[i].frame.seqNo + a) == Wrap(c.snd.trace[k].frame.seqNo + b)
    requires -SPACE < (c.snd.trace[i].pos + a) - (c.snd.trace[k].pos + b) < SPACE
    ensures |FrameItems(c.snd.trace[i].frame)| == FrameLength(c.snd.trace[i].frame)
    ensures |FrameItems(c.snd.trace[k].frame)| == FrameLength(c.snd.trace[k].frame)
    ensures FrameItems(c.snd.trace[i].frame)[a] == FrameItems(c.snd.trace[k].frame)[b]
  {
    hide Core, Base, ConnOk, Reaches, Conserved, Sequenced, QueueCounted, LifeCycle, Bounded, Carries, FrameItems, FrameLength, Wrap;
    ReachedOk(h, events, c);
    Unpack(c.snd);
    var s := c.snd;
    assert Carries(s.log.iss, s.log.tracked, s.trace[i]) && Carries(s.log.iss, s.log.tracked, s.trace[k]);
    ItemOfFrame(s.log.iss, s.log.tracked, s.trace[i], a);
    ItemOfFrame(s.log.iss, s.log.tracked, s.trace[k], b);
    WrapInjective(s.log.iss, s.trace[i].pos + a, s.trace[k].pos + b);
  }

  lemma ItemOfFrame(iss: int, tracked: seq<Item>, e: Emission, a: nat)
    requires Carries(iss, tracked, e) && a < FrameLength(e.frame)
    ensures |FrameItems(e.frame)| == FrameLength(e.frame) && e.pos + a < |tracked| && FrameItems(e.frame)[a] == tracked[e.pos + a]
    ensures Wrap(e.frame.seqNo + a) == Wrap(iss + (e.pos + a))
  {
    WrapAdd(iss + e.pos, a);
    assert tracked[e.pos..e.pos + FrameLength(e.frame)][a] == tracked[e.pos + a];
    hide Items, Wrap;
  }

  /** The flow bound closes the 32-bit arithmetic: at most 65535 payload bytes
      and one FIN are ever outstanding, so an ACK is accepted exactly when it
      names an outstanding item, with no half-space assumption. */
  lemma AcksAcceptedExactly(h: Handshake, events: seq<Event>, c: Conn, ack: U32)
    requires Reaches(h, events, c) && !c.snd.life.state.Closed?
    ensures 0 <= c.snd.rtx.payloadBytesInFlight <= MAX_WINDOW
    ensures 0 <= |c.snd.log.tracked| - c.snd.log.acked <= MAX_WINDOW + 1
    ensures Acknowledge(c.snd.rtx, ack).1.Advanced? <==>
              exists n: nat :: Outstanding(c.snd, h.isn, n, ack)
  {
    hide Core, Base, ConnOk, Reaches, Flatten, Acknowledge;
    ReachedOk(h, events, c);
    OpenFacts(c.snd);
    OutstandingBound(c.snd);
    Facts(c.snd);
    AcknowledgeAcceptsExactly(c.snd.rtx, ack);
    BoundedFlight(c.snd);
    NamesOutstanding(c.snd, h.isn, ack);
  }

  /** `ack` is the number right after the outstanding item at position `n - 1`. */
  predicate Outstanding(s: Sender, isn: int, n: nat, ack: U32) {
    s.log.acked < n <= |s.log.tracked| && ack == Wrap(isn + n)
  }

  lemma BoundedFlight(s: Sender)
    requires Base(s)
    ensures s.rtx.payloadBytesInFlight <= MAX_WINDOW
  {
  }

  lemma NamesOutstanding(s: Sender, isn: int, ack: U32)
    requires s.log.acked <= |s.log.tracked| && Flatten(s.rtx.segments) == s.log.tracked[s.log.acked..]
    requires s.rtx.sndUna == Wrap(isn + s.log.acked)
    ensures (exists n :: Names(s.rtx, Wrap(ack), n)) <==> (exists n: nat :: Outstanding(s, isn, n, ack))
  {
    hide Flatten;
    assert Wrap(ack) == ack;
    forall n | Names(s.rtx, ack, n) ensures Outstanding(s, isn, s.log.acked + n, ack) {
      WrapAdd(isn + s.log.acked, n);
    }
    forall n: nat | Outstanding(s, isn, n, ack) ensures Names(s.rtx, ack, n - s.log.acked) {
      WrapAdd(isn + s.log.acked, n - s.log.acked);
    }
    hide Wrap;
    if n :| Names(s.rtx, Wrap(ack), n) { assert Outstanding(s, isn, s.log.acked + n, ack); }
    if n: nat :| Outstanding(s, isn, n, ack) { assert Names(s.rtx, Wrap(ack), n - s.log.acked); }
  }

  /** No lost wake-up, over all runs: between events no drain is under way, and
      if chunks or a FIN wait on an open connection, a retransmission or persist
      timer, the pacer timer, a transport waiter, an immediate resume or a
      rate-limit timeout is armed. */
  lemma NoLostWakeup(h: Handshake, events: seq<Event>, c: Conn)
    requires Reaches(h, events, c)
    ensures !c.snd.wake.sending
    ensures !c.snd.life.state.Closed? && (c.snd.out.queue != [] || (c.snd.life.pendingFin && !c.snd.life.finSent)) ==>
              || c.snd.rtx.live != map[] || c.snd.pacer.timer.Some? || c.snd.wake.waiting
              || c.snd.wake.retries > 0 || c.snd.wake.immediates > 0
    ensures c.snd.pacer.blocked <==> c.snd.pacer.timer.Some?
  {
    hide Core, Base, ConnOk, Reaches;
    ReachedOk(h, events, c);
    OkIsSenderOk(c);
    OpenFacts(c.snd);
    Facts(c.snd);
    OneTimer(c.snd.rtx);
  }

  /** No window is left unused, over all runs: between events, with nothing else
      about to call the drain loop, an open connection that has data queued has a
      loss to recover from or as much payload in flight as the smaller of the two
      windows; and a FIN that is next waits only for a recovery or the VM's window. */
  lemma WindowsAreUsed(h: Handshake, events: seq<Event>, c: Conn)
    requires Reaches(h, events, c) && !c.snd.life.state.SynSent? && !c.snd.life.state.Closed?
    ensures Resuming(c.snd) || InRecovery(c.snd) ||
            (if c.snd.out.queue != [] then c.snd.rtx.payloadBytesInFlight >= Min(c.snd.win.size, c.snd.cong.window)
             else c.snd.life.pendingFin && !c.snd.life.finSent ==> c.snd.rtx.payloadBytesInFlight >= c.snd.win.size)
  {
    hide Core, Base, ConnOk, Reaches;
    ReachedOk(h, events, c);
    OkIsSenderOk(c);
    OpenBounds(c.snd);
    WindowNotNegative(c.snd);
  }

  /** Backpressure, over all runs: a source that is not paused has less than the
      high-water mark queued. While it is paused more than the low-water mark is,
      and on an open connection a wake-up is armed that goes on draining the queue
      towards resuming it, so that it never deadlocks. */
  lemma PausedSourceResumes(h: Handshake, events: seq<Event>, c: Conn)
    requires Reaches(h, events, c)
    ensures c.snd.out.bytes == |Concat(c.snd.out.queue)|
    ensures !c.snd.out.sourcePaused ==> c.snd.out.bytes < c.snd.cfg.highWater
    ensures c.snd.out.sourcePaused ==> c.snd.out.bytes > c.snd.cfg.highWater / 2 > 0
    ensures c.snd.out.sourcePaused ==> c.snd.life.state.Closed? || Armed(c.snd)
  {
    hide Core, Base, ConnOk, Reaches, Concat;
    ReachedOk(h, events, c);
    OkIsSenderOk(c);
    OpenFacts(c.snd);
    SetupIsValid(c.snd);
    PauseKept(h, events, c);
    if c.snd.out.queue == [] { NoChunks(); }
  }

  lemma SetupIsValid(s: Sender)
    requires Base(s)
    ensures s.cfg.Valid()
  {
  }

  lemma NoChunks()
    ensures |Concat<byte>([])| == 0
  {
  }

  lemma PauseKept(h: Handshake, events: seq<Event>, c: Conn)
    requires Reaches(h, events, c)
    ensures PauseOk(c.snd)
  {
    hide Handshake.Begin, ConnOk, PeerOk, Frozen, Grows, Run, FinLast;
    BeginOk(h, []);
    NotPaused(h);
    RunKeepsOk(h.Begin(), events);
  }

  lemma NotPaused(h: Handshake)
    ensures h.Begin().snd.out == Outbox([], 0, false)
  {
    hide Frames, Stamp, TrackFrames, ReceiveWindow;
  }

  /** At most one retransmission timer is live: one when segments are outstanding
      or the connection probes a closed window, none once closed. */
  lemma OneTimerOverRuns(h: Handshake, events: seq<Event>, c: Conn)
    requires Reaches(h, events, c)
    ensures |c.snd.rtx.live| == (if !c.snd.life.state.Closed? && (c.snd.rtx.segments != [] || c.snd.rtx.persist) then 1 else 0)
  {
    hide Core, Base, ConnOk, Reaches;
    ReachedOk(h, events, c);
    OpenFacts(c.snd);
    Facts(c.snd);
    OneTimer(c.snd.rtx);
  }

  lemma OneTimer(q: Queue)
    requires RetransmissionProofs.Valid(q)
    ensures q.timer.Some? <==> q.live != map[]
    ensures |q.live| == if q.timer.Some? then 1 else 0
    ensures q.closed ==> q.timer.None?
  {
    hide Contiguous, Exhaustions;
  }

  /** The congestion window stays between one byte and its cap, and a recovery
      under way ends at exactly the next new sequence number. */
  lemma CongestionBounds(h: Handshake, events: seq<Event>, c: Conn)
    requires Reaches(h, events, c)
    ensures 1 <= c.snd.cong.window <= Max(Max(c.snd.cfg.windowSize, 2 * TcpMss(c.snd)), MAX_WINDOW / 2)
    ensures c.snd.cong.recoveryUntil.Some? ==> c.snd.cong.recoveryUntil.value == c.snd.rtx.sndNxt
  {
    hide Core, Base, ConnOk, Reaches;
    ReachedOk(h, events, c);
    OpenBounds(c.snd);
  }

  /** The VM's window, over all runs: read the accepted acknowledgements since the
      opening (for a reverse connection, since the SYN-ACK) as stream positions in
      any way that puts none 2^31 or more from the latest before it; then the
      window is the one of the latest of them, whatever order they arrived in. */
  lemma WindowIsLatest(h: Handshake, events: seq<Event>, c: Conn, bases: W.Bases, updates: seq<W.Update>, i: nat)
    requires Reaches(h, events, c)
    requires W.Stands(bases, updates, c.snd.win.reports) && W.Comparable(updates) && W.Latest(updates, i)
    ensures Shown(c.snd.win.size, c.snd.win.update) == W.Carried(bases, updates[i])
    ensures c.snd.win.size == updates[i].window
  {
    hide Core, Base, ConnOk, Reaches, W.Comparable, W.Latest, W.Stands, Told, Wrap;
    ReachedOk(h, events, c);
    OpenBounds(c.snd);
    var win := c.snd.win;
    W.ToldApplies(bases, win.start, updates, win.reports);
    W.WindowOfLatest(bases, win.start.size, updates, i);
  }

  /** The paced segments of a connection, over all runs: as long as the clock
      never goes back and no resume timer fires early, every half-open interval
      of length `intervalMs` contains at most `maxBurstSegments` of them, and none
      was sent while the pacer was blocked or after it was closed. */
  lemma PacedOverRuns(h: Handshake, events: seq<Event>, c: Conn, from: int)
    requires Reaches(h, events, c)
    ensures c.snd.pacer.past.gated
    ensures c.snd.pacer.past.onTime ==>
              P.CountIn(c.snd.pacer.past.sent, from, from + c.snd.pacer.cfg.intervalMs) <= c.snd.pacer.cfg.maxBurst
  {
    hide Core, Base, ConnOk, Reaches, P.CountIn, P.BurstOk;
    ReachedOk(h, events, c);
    OpenBounds(c.snd);
    if c.snd.pacer.past.onTime { P.SlidingBound(c.snd.pacer, from); }
  }

  /** What the source delivers to a run: the data of every event that found the
      connection in its table, in order. */
  ghost function Arrived(c: Conn, events: seq<Event>): seq<byte>
    decreases |events|
  {
    if events == [] then [] else Brings(c, events[0]) + Arrived(Step(c, events[0]), events[1..])
  }

  ghost predicate Ended(c: Conn, events: seq<Event>)
    decreases |events|
  {
    events != [] && (Ends(c, events[0]) || Ended(Step(c, events[0]), events[1..]))
  }

  lemma {:induction false} RunSources(c: Conn, events: seq<Event>)
    requires ConnOk(c) && FinLast(c, events)
    ensures Run(c, events).snd.log.stream == c.snd.log.stream + Arrived(c, events)
    ensures Run(c, events).snd.log.ended == (c.snd.log.ended || Ended(c, events))
    decreases |events|
  {
    hide ConnOk, Step, Enabled, Brings, Ends, Progresses;
    if events == [] {
      assert c.snd.log.stream + [] == c.snd.log.stream;
    } else {
      var d := Step(c, events[0]);
      StepKeepsOk(c, events[0]);
      StepAdvances(c, events[0]);
      RunSources(d, events[1..]);
      ConcatAssociative(c.snd.log.stream, Brings(c, events[0]), Arrived(d, events[1..]));
    }
  }

  /** Nothing the source delivers is lost, and nothing else gets in: over all
      runs the stream is exactly the data of its events, and a FIN is waiting or
      was sent exactly when an open connection was told of the source's end. */
  lemma StreamIsWhatArrived(h: Handshake, events: seq<Event>, c: Conn)
    requires Reaches(h, events, c)
    ensures c.snd.log.stream == Arrived(h.Begin(), events)
    ensures !c.snd.life.state.Closed? ==> (c.snd.life.pendingFin || c.snd.life.finSent <==> Ended(h.Begin(), events))
  {
    hide Handshake.Begin, ConnOk, PeerOk, Run, FinLast, Arrived, Ended, Core, Base;
    ReachedOk(h, events, c);
    BeginOk(h, []);
    RunSources(h.Begin(), events);
    NothingYet(h);
    assert [] + Arrived(h.Begin(), events) == Arrived(h.Begin(), events);
    EndMeansFin(c.snd);
  }

  lemma NothingYet(h: Handshake)
    ensures h.Begin().snd.log.stream == [] && !h.Begin().snd.log.ended
  {
    hide Frames, Stamp, TrackFrames, ReceiveWindow;
  }

  lemma EndMeansFin(s: Sender)
    requires Base(s)
    ensures s.life.pendingFin || s.life.finSent ==> s.log.ended
    ensures s.log.ended && !s.life.state.Closed? ==> s.life.pendingFin || s.life.finSent
  {
  }

  /** The recovery freeze, over any further run: until everything outstanding
      when the loss was noticed is acknowledged, no data, FIN or probe uses new
      sequence space; the connection stays in recovery, or closes. */
  lemma RecoveryFreezes(h: Handshake, events: seq<Event>, c: Conn, more: seq<Event>)
    requires Reaches(h, events, c) && FinLast(c, more) && InRecovery(c.snd)
    ensures var d := Run(c, more);
      d.snd.log.acked < |c.snd.log.tracked| ==>
        d.snd.log.tracked == c.snd.log.tracked && (d.snd.life.state.Closed? || InRecovery(d.snd))
  {
    hide Core, Base, ConnOk, Reaches, FinLast, Run;
    ReachedOk(h, events, c);
    RunKeepsOk(c, more);
  }

  /** Closed is never left, and nothing new is sent afterwards; what was given
      sequence space, acknowledged or delivered is never taken back. */
  lemma ClosedForever(h: Handshake, events: seq<Event>, c: Conn, more: seq<Event>)
    requires Reaches(h, events, c) && FinLast(c, more)
    ensures var d := Run(c, more);
      && (c.snd.life.state.Closed? ==> d.snd.life.state.Closed? && d.snd.log.tracked == c.snd.log.tracked)
      && c.snd.log.tracked <= d.snd.log.tracked && c.snd.log.acked <= d.snd.log.acked
      && c.snd.log.stream <= d.snd.log.stream && c.rcv.sink <= d.rcv.sink
  {
    hide Core, Base, ConnOk, Reaches, FinLast, Run;
    ReachedOk(h, events, c);
    RunKeepsOk(c, more);
  }

  /** Graceful close is complete: `finish*Connection` is reached only after
      every enqueued byte and then exactly one FIN were acknowledged, and the
      peer's FIN was taken. A reverse connection is forgotten at once. */
  lemma FinishedIsComplete(h: Handshake, events: seq<Event>, c: Conn)
    requires Reaches(h, events, c) && c.finished
    ensures c.snd.cfg.reverse ==> !c.snd.life.current
    ensures c.snd.life.state.Closed? && c.rcv.peerFin
    ensures c.snd.log.tracked == Wire(c.snd.log.stream, true) && c.snd.log.acked == |c.snd.log.tracked|
  {
    hide Core, Base, SenderOk, ConnOk, Reaches, Sequenced, Consistent, LifeCycle, Bounded, Conserved, QueueCounted;
    ReachedOk(h, events, c);
    OkIsSenderOk(c);
    Unpack(c.snd);
    WholeStream(c.snd);
  }

  lemma WholeStream(s: Sender)
    requires Conserved(s.log, s.out.queue, s.life) && s.life.finSent && s.out.queue == []
    ensures s.log.tracked == Wire(s.log.stream, true)
  {
    hide Wire, BytesOf;
    assert BytesOf(s.log.tracked) + Concat(s.out.queue) == BytesOf(s.log.tracked);
  }

  // ----- acknowledging -----

  lemma BeginAcks(h: Handshake)
    ensures AckOk(h.Begin())
  {
    OpeningFrame(h);
    OpeningFrameIsSent(h);
    var c := h.Begin();
    assert Wrap(c.rcv.base + 0) == c.rcv.buf.vmSeq;
    hide Handshake.Begin, Wrap;
    assert c.snd.trace[|c.snd.trace| - 1] in c.snd.trace;
  }

  lemma OpeningFrameIsSent(h: Handshake)
    ensures h.Begin().snd.trace != []
  {
    hide TcpMss, HeaderFor, TrackFrames, ReceiveWindow;
  }

  lemma {:induction false} RunKeepsAcks(c: Conn, events: seq<Event>)
    requires ConnOk(c) && AckOk(c) && FinLast(c, events)
    ensures AckOk(Run(c, events))
    decreases |events|
  {
    hide ConnOk, AckOk, Step, Enabled;
    if events != [] {
      StepKeepsOk(c, events[0]);
      StepKeepsAcks(c, events[0]);
      RunKeepsAcks(Step(c, events[0]), events[1..]);
    }
  }

  /** No acknowledgement is ever lost, over all runs and whatever the VM sends:
      on an open connection the last frame sent acknowledges everything received,
      or the delayed-ACK timer is live, with fewer segments pending than the
      number that would have forced an acknowledgement. */
  lemma NoLostAck(h: Handshake, events: seq<Event>, c: Conn)
    requires Reaches(h, events, c) && !c.snd.life.state.Closed?
    ensures
      || (c.snd.trace != [] && c.snd.trace[|c.snd.trace| - 1].frame.header.ack == c.rcv.buf.vmSeq)
      || (c.ackTimer && 0 < c.ackPending < c.snd.cfg.ackEvery)
  {
    hide Handshake.Begin, Handshake.Valid, ConnOk, PeerOk, Run, FinLast;
    BeginOk(h, []);
    BeginAcks(h);
    RunKeepsAcks(h.Begin(), events);
  }

  // ----- both halves, when the VM sends one consistent stream -----

  /** Over every run with a consistent peer: the sink holds a prefix of the
      peer's stream and the whole of it once its FIN was taken; the next expected
      number counts exactly what was delivered; and the frames sent since the
      peer's first number was learned acknowledge, one after another, positions
      that never decrease and never exceed what was delivered. */
  lemma DeliveryOverRuns(h: Handshake, events: seq<Event>, c: Conn, peer: seq<byte>)
    requires Reaches(h, events, c) && PeerSchedule(h.Begin(), peer, events)
    ensures c.rcv.sink <= peer && (c.rcv.peerFin ==> c.rcv.sink == peer)
    ensures c.rcv.buf.vmSeq == Wrap(c.rcv.base + |c.rcv.sink| + (if c.rcv.peerFin then 1 else 0))
    ensures c.openedAt <= |c.snd.trace| && Climbs(c.snd.trace[c.openedAt..], c.rcv.base, 0, NextPosition(c.rcv))
  {
    hide Handshake.Begin, Handshake.Valid, ConnOk, PeerOk, Prefix, Climbs, Run, FinLast, PeerSchedule, Wrap;
    BeginOk(h, peer);
    RunKeepsPeer(h.Begin(), events, peer);
    PeerFacts(c, peer, SinceOpened(c));
  }

  lemma PeerFacts(c: Conn, peer: seq<byte>, g: Mark)
    requires PeerOk(c, peer, g)
    ensures AcksClimb(c, g)
    ensures c.rcv.sink <= peer && (c.rcv.peerFin ==> c.rcv.sink == peer)
    ensures c.rcv.buf.vmSeq == Wrap(c.rcv.base + NextPosition(c.rcv))
  {
  }

  /** Acknowledgement numbers are exact when they are sent: in every reachable
      state, the frames of the next event, in order, acknowledge positions from
      what was delivered before the event to what is delivered after it. Where
      the event delivers nothing, they all carry the one exact number. */
  lemma AcksAreExact(h: Handshake, events: seq<Event>, c: Conn, e: Event, peer: seq<byte>)
    requires Reaches(h, events, c) && PeerSchedule(h.Begin(), peer, events)
    requires Enabled(c, e) && !DataAfterFin(c, e) && PeerSends(c, peer, e)
    ensures var d := Step(c, e);
      && |c.snd.trace| <= |d.snd.trace|
      && Climbs(d.snd.trace[|c.snd.trace|..], d.rcv.base, NextPosition(c.rcv), NextPosition(d.rcv))
      && (NextPosition(d.rcv) == NextPosition(c.rcv) ==>
            forall i :: |c.snd.trace| <= i < |d.snd.trace| ==>
              d.snd.trace[i].frame.header.ack == Wrap(d.rcv.base + NextPosition(c.rcv)))
  {
    hide Handshake.Begin, Handshake.Valid, ConnOk, PeerOk, Prefix, Climbs, Run, FinLast, PeerSchedule, Wrap, Step, PeerSends, Enabled;
    BeginOk(h, peer);
    RunKeepsPeer(h.Begin(), events, peer);
    RunKeepsOk(h.Begin(), events);
    StartNow(c, peer);
    StepKeepsPeer(c, e, peer, FromNow(c));
    var d := Step(c, e);
    PeerFacts(d, peer, After(c, d, FromNow(c)));
    var frames := d.snd.trace[|c.snd.trace|..];
    if NextPosition(d.rcv) == NextPosition(c.rcv) {
      LevelClimb(frames, d.rcv.base, NextPosition(c.rcv));
      forall i | |c.snd.trace| <= i < |d.snd.trace|
        ensures d.snd.trace[i].frame.header.ack == Wrap(d.rcv.base + NextPosition(c.rcv))
      {
        assert d.snd.trace[i] == frames[i - |c.snd.trace|];
      }
    }
  }

  /** Nothing is left to account for before the next event. */
  lemma StartNow(c: Conn, peer: seq<byte>)
    requires PeerOk(c, peer, SinceOpened(c))
    ensures PeerOk(c, peer, FromNow(c))
  {
    AllAtOnce([], c.rcv.base, NextPosition(c.rcv));
    assert c.snd.trace[|c.snd.trace|..] == [];
    hide Prefix, Climbs;
  }

  lemma LevelClimb(frames: seq<Emission>, base: int, n: nat)
    requires Climbs(frames, base, n, n)
    ensures forall i :: 0 <= i < |frames| ==> frames[i].frame.header.ack == Wrap(base + n)
  {
    hide Wrap;
  }

  /** After a graceful close both directions are complete: the VM acknowledged
      the source's whole stream and its FIN, the sink holds the VM's whole
      stream, and the final number is the one right after the VM's FIN. */
  lemma FinishedDeliversBoth(h: Handshake, events: seq<Event>, c: Conn, peer: seq<byte>)
    requires Reaches(h, events, c) && PeerSchedule(h.Begin(), peer, events) && c.finished
    ensures c.rcv.sink == peer && c.rcv.buf.vmSeq == Wrap(c.rcv.base + |peer| + 1)
    ensures c.snd.log.acked == |Wire(c.snd.log.stream, true)| == |c.snd.log.stream| + 2
  {
    hide Reaches, PeerSchedule, Wire, Wrap, Climbs;
    FinishedIsComplete(h, events, c);
    DeliveryOverRuns(h, events, c, peer);
    WireFacts(c.snd.log.stream, true);
  }
}
