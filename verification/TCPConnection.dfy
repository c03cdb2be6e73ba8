/** The connection object of relay.js and the functions of tcp_utils.js that
    edit it, step by step. Each method is proved to compute
    its function of modules SendPath, Reassembly, ReceivePath and Connection,
    about which the theorems are. */
module ConnectionClass {
  import opened Bytes
  import opened SequenceNumbers
  import opened Retransmission
  import opened SendPath
  import opened SendInvariant
  import opened SendOperations
  import opened SendProgress
  import opened SendEvents
  import opened Reassembly
  import opened ReceivePath
  import opened Connection
  import opened ConnectionProofs
  import opened RetransmissionQueue
  import opened PacerClass
  import P = Pacing
  import RP = RetransmissionProofs

  /** Where `relaySeq` stands after a send at `sequence`. */
  function NextSequence(relaySeq: U32, sequence: U32, payload: seq<byte>, flags: Flags): U32 {
    if SequenceLength(payload, flags) == 0 then relaySeq else Wrap(sequence + SequenceLength(payload, flags))
  }

  /** The first frame of a segmentation, and what remains. */
  lemma FramesStep(payload: seq<byte>, mss: int, flags: Flags, seqNo: U32, header: Header)
    requires mss > 0
    ensures var n := Min(mss, |payload|);
      var last := n == |payload|;
      var f := Flags(flags.syn, flags.ack, flags.fin && last, flags.rst, flags.psh && last);
      var frames := Frames(payload, mss, flags, seqNo, header);
      && frames != [] && frames[0] == Frame(seqNo, header, f, payload[..n])
      && frames[1..] == (if last then []
           else Frames(payload[n..], mss, flags.(syn := false), Wrap(seqNo + SequenceLength(payload[..n], f)), header))
  {
    if |payload| <= mss { assert payload[..|payload|] == payload; }
    hide Wrap;
  }

  /** The sending half before its SYN. */
  function Unsent(cfg: Setup, isn: U32, window: int, mss: nat): Sender {
    if cfg.reverse then NewSender(cfg, isn, cfg.windowSize, cfg.tcpMss)
    else NewSender(cfg, isn, Min(window, cfg.windowSize), Min(cfg.tcpMss, if mss == 0 then FALLBACK_MSS else mss))
  }

  lemma OpensBySyn(cfg: Setup, isn: U32, vmFirst: U32, window: int, mss: nat)
    ensures var first := if cfg.reverse then 0 else vmFirst;
      var header := Header(first, ReceiveWindow(NewReceiver(first), cfg.windowSize));
      Connection.Open(cfg, isn, vmFirst, window, mss)
      == Conn(SendTracked(Unsent(cfg, isn, window, mss), header, [], Flags(true, !cfg.reverse, false, false, false)),
              NewReceiver(first), 0, false, false, 0)
  {
    hide SendTracked, ReceiveWindow, P.NewPacer, NewQueue;
  }

  /** The frames still to be cut once `offset` bytes of the payload are. */
  function Remaining(payload: seq<byte>, offset: nat, mss: int, flags: Flags, seqNo: U32, header: Header): seq<Frame>
    requires mss > 0 && offset <= |payload|
  {
    if offset == |payload| > 0 then []
    else Frames(payload[offset..], mss, flags.(syn := flags.syn && offset == 0), seqNo, header)
  }

  /** The frame that one pass of the loop of `sendTCP` cuts. */
  function NextFrame(payload: seq<byte>, offset: nat, mss: int, flags: Flags, seqNo: U32, header: Header): Frame
    requires mss > 0 && offset <= |payload|
  {
    var n := Min(offset + mss, |payload|);
    Frame(seqNo, header,
          Flags(flags.syn && offset == 0, flags.ack, flags.fin && n == |payload|, flags.rst, flags.psh && n == |payload|),
          payload[offset..n])
  }

  lemma CutStep(payload: seq<byte>, offset: nat, mss: int, flags: Flags, seqNo: U32, header: Header)
    requires mss > 0 && offset < |payload|
    ensures var f := NextFrame(payload, offset, mss, flags, seqNo, header);
      Remaining(payload, offset, mss, flags, seqNo, header)
      == [f] + Remaining(payload, offset + |f.payload|, mss, flags, Wrap(seqNo + FrameLength(f)), header)
  {
    hide Frames, Wrap;
    var left := flags.(syn := flags.syn && offset == 0);
    var frames := Frames(payload[offset..], mss, left, seqNo, header);
    FramesStep(payload[offset..], mss, left, seqNo, header);
    var n := Min(offset + mss, |payload|);
    assert payload[offset..][..n - offset] == payload[offset..n] && payload[offset..][n - offset..] == payload[n..];
    assert frames == [frames[0]] + frames[1..];
  }

  /** An empty payload makes one frame, with every flag. */
  lemma EmptyPayload(mss: int, flags: Flags, seqNo: U32, header: Header)
    requires mss > 0
    ensures Frames([], mss, flags, seqNo, header) == [NextFrame([], 0, mss, flags, seqNo, header)]
  {
    hide Wrap;
  }

  lemma WholePayload(payload: seq<byte>, mss: int, flags: Flags, seqNo: U32, header: Header)
    requires mss > 0
    ensures Remaining(payload, 0, mss, flags, seqNo, header) == Frames(payload, mss, flags, seqNo, header)
    ensures payload != [] ==> Remaining(payload, |payload|, mss, flags, seqNo, header) == []
  {
    assert payload[0..] == payload && flags.(syn := flags.syn && true) == flags;
    hide Frames, Wrap;
  }

  lemma TrackedParts(s: Sender, header: Header, payload: seq<byte>, flags: Flags)
    ensures var frames := Frames(payload, TcpMss(s), flags, s.relaySeq, HeaderFor(s, flags, header));
      var (q, threw) := TrackFrames(s.rtx, frames);
      SendTracked(s, header, payload, flags) ==
        s.(trace := s.trace + Stamp(|s.log.tracked|, frames), relaySeq := Wrap(s.relaySeq + SequenceLength(payload, flags)), rtx := q,
           life := s.life.(thrown := s.life.thrown || threw), log := if threw then s.log else GrowLog(s.log, payload, flags))
  {
    hide Frames, Stamp, Wrap, TrackFrames, GrowLog, HeaderFor;
  }

  lemma StampNone(pos: nat)
    ensures Stamp(pos, []) == []
  {
  }

  /** The loop of `bufferTCPOutOfOrder`, one range at a time. */
  lemma FillStep(b: Buffer, held: Ranges, keys: seq<U32>, start: int, payload: seq<byte>, cursor: int, end: int)
    requires keys != [] ==> keys[0] in held
    ensures Fill(b, held, keys, start, payload, cursor, end) ==
      if keys == [] || Wrap(keys[0] - b.vmSeq) >= end then Add(b, start, payload, cursor, end)
      else
        var offset := Wrap(keys[0] - b.vmSeq);
        var stop := offset + |held[keys[0]]|;
        if stop <= cursor then Fill(b, held, keys[1..], start, payload, cursor, end)
        else
          var added := Add(b, start, payload, cursor, Min(offset, end));
          if Max(cursor, stop) >= end then added
          else Fill(added, held, keys[1..], start, payload, Max(cursor, stop), end)
  {
    hide Wrap, Add;
  }

  /** The loop of `drainTCPOutOfOrder`, one range at a time. */
  lemma DrainStep(b: Buffer, keys: seq<U32>)
    requires keys != [] && keys[0] in b.ranges
    ensures Reassembly.Drain(b, keys) ==
      if Signed(keys[0] - b.vmSeq) > 0 then (b, [])
      else
        var held := b.ranges[keys[0]];
        var consumed := Wrap(b.vmSeq - keys[0]);
        var removed := b.(ranges := b.ranges - {keys[0]}, bytes := b.bytes - |held|);
        if consumed >= |held| then Reassembly.Drain(removed, keys[1..])
        else
          var (r, chunks) := Reassembly.Drain(removed.(vmSeq := Wrap(b.vmSeq + (|held| - consumed))), keys[1..]);
          (r, [held[consumed..]] + chunks)
  {
    hide Wrap, Signed;
  }

  lemma FastRetransmitReports(q: Queue)
    ensures Retransmission.FastRetransmit(q, Returned).1 <==> CanFastRetransmit(q)
  {
  }

  lemma TakeStep(queue: seq<seq<byte>>, length: nat)
    requires 0 < length <= |Concat(queue)|
    ensures queue != []
    ensures var bytes := Min(|queue[0]|, length);
      var left := if bytes == |queue[0]| then queue[1..] else [queue[0][bytes..]] + queue[1..];
      && length - bytes <= |Concat(left)|
      && TakeQueued(queue, length) == (queue[0][..bytes] + TakeQueued(left, length - bytes).0, TakeQueued(left, length - bytes).1)
  {
    if |queue[0]| > length {
      ConcatHead(queue[0][length..], queue[1..]);
      assert queue[0][..length] + [] == queue[0][..length];
    } else {
      assert queue[0][..|queue[0]|] == queue[0];
    }
  }

  lemma FirstEntry(queue: seq<seq<byte>>)
    requires queue != []
    ensures |Concat(queue)| == |queue[0]| + |Concat(queue[1..])|
  {
  }

  lemma TakeNone(queue: seq<seq<byte>>)
    ensures TakeQueued(queue, 0) == ([], queue)
  {
  }

  lemma TakenLength(queue: seq<seq<byte>>, length: nat)
    requires length <= |Concat(queue)|
    ensures |TakeQueued(queue, length).0| == length
  {
    TakeQueuedSplits(queue, length);
  }

  /** With window left, the queue holds the bytes, and sending them never throws. */
  lemma ReadyToSend(s: Sender, header: Header)
    requires Draining(s) && s.out.queue != []
    ensures var r := EndFinishedRecovery(s);
      ChunkSize(r) > 0 ==>
        ChunkSize(r) <= |Concat(r.out.queue)| && !SendQueued(r, header, ChunkSize(r), ACK_PSH).life.thrown
  {
    hide Core, SendQueued, ChunkSize, EndFinishedRecovery;
    OpenFacts(s);
    EndFinishedRecoveryKeeps(s);
    var r := EndFinishedRecovery(s);
    if ChunkSize(r) > 0 {
      if r.cong.recoveryUntil.Some? { RecoverySendsNothing(r); }
      ChunkFits(r, ChunkSize(r));
      SendQueuedKeeps(r, header, ChunkSize(r));
      OpenFacts(SendQueued(r, header, ChunkSize(r), ACK_PSH));
    }
  }

  lemma DrainLoopStep(s: Sender, header: Header, turns: nat -> Turn, pass: nat)
    ensures DrainLoop(s, header, turns, pass) ==
      var (t, again) := DrainPass(s, header, turns(pass), pass);
      if again then DrainLoop(t, header, turns, pass + 1) else t
  {
    hide DrainPass;
  }

  /** The duplicate counter plays no part in a fast retransmission. */
  lemma DuplicatesIgnored(s: Sender, n: int, header: Header)
    ensures SetDuplicates(SendPath.FastRetransmit(SetDuplicates(s, n), header), 0)
         == SetDuplicates(SendPath.FastRetransmit(s, header), 0)
  {
    hide Frames, Stamp, Retransmission.FastRetransmit, P.NoteLoss;
  }

  lemma QueueIsValid(c: Conn)
    requires ConnOk(c)
    ensures RP.Valid(c.snd.rtx)
  {
    hide Core;
    CoreIsBase(c.snd);
    Facts(c.snd);
  }

  lemma EstablishedMid(a: Conn)
    requires !a.snd.cfg.reverse && !a.snd.wake.sending && FinishedOk(a)
    requires Base(a.snd) && RecoveryHasData(a.snd) && a.snd.life.state.SynSent? && a.snd.log.acked == 1
    ensures Mid(a.(snd := WithState(a.snd, Established)))
  {
    hide Core, Base;
    Establishes(a.snd, 0, 0);
  }

  /** A live timer belongs to an open connection and has something to do: give
      up, probe, or resend. */
  lemma TimeOutCases(c: Conn, id: nat, congested: bool, open: bool)
    requires ConnOk(c) && id in c.snd.rtx.live
    ensures c.snd.life.current && SendPath.ProbeTimer(c.snd, HeaderOf(c), id, congested).life.current
    ensures var fired := FireQueue(c.snd, id, Sent);
      var probed := SendPath.ProbeTimer(c.snd, HeaderOf(c), id, congested);
      TimeOut(c, id, congested, open) ==
        if c.snd.rtx.timeoutRetransmissions >= c.snd.rtx.cfg.maxRetransmissions then
          ClearAck(c).(snd := Abort(fired, HeaderOf(c), open))
        else if c.snd.rtx.persist then
          if probed.rtx.exhausted then ClearAck(c).(snd := Abort(probed, HeaderOf(c), open)) else c.(snd := probed)
        else c.(snd := TransmitOldest(CongestionLoss(fired, true), HeaderOf(c)))
  {
    hide Core, Fire, CongestionLoss, TransmitOldest, SendPath.ProbeTimer, Abort;
    LiveTimer(c.snd, id);
    AbortEnds(FireQueue(c.snd, id, Sent), HeaderOf(c), open);
    ProbeStaysOpen(c.snd, HeaderOf(c), id, congested);
    AbortEnds(SendPath.ProbeTimer(c.snd, HeaderOf(c), id, congested), HeaderOf(c), open);
    ResendLeavesLife(c.snd, HeaderOf(c), id);
  }

  lemma AbortEnds(s: Sender, header: Header, reset: bool)
    ensures !Abort(s, header, reset).life.current
  {
  }

  lemma SynchronizeIgnores(c: Conn, s: Sender, p: Packet, mss: nat)
    ensures Connection.Synchronize(c.(snd := s), s, p, mss) == Connection.Synchronize(c, s, p, mss)
  {
  }

  function Resumed(c: Conn, s: Sender, turns: nat -> Turn): Conn { TrySendConn(c.(snd := s), turns) }

  lemma ResendLeavesLife(s: Sender, header: Header, id: nat)
    ensures TransmitOldest(CongestionLoss(FireQueue(s, id, Sent), true), header).life == s.life
  {
    hide Frames, Stamp, Fire, P.NoteLoss;
  }

  lemma NothingToDrain(b: Buffer)
    ensures Reassembly.Drain(b, []) == (b, [])
  {
  }

  lemma ConcatNone()
    ensures Concat<byte>([]) == []
  {
  }

  lemma ConcatHead(first: seq<byte>, rest: seq<seq<byte>>)
    ensures Concat([first] + rest) == first + Concat(rest)
  {
    assert ([first] + rest)[1..] == rest;
  }

  lemma InsertedAscends(keys: seq<U32>, k: U32, i: nat, vmSeq: U32, signed: bool)
    requires Ascending(keys, vmSeq, signed) && k !in keys && i <= |keys|
    requires forall j :: 0 <= j < i ==> SortKey(keys[j], vmSeq, signed) < SortKey(k, vmSeq, signed)
    requires i < |keys| ==> SortKey(k, vmSeq, signed) <= SortKey(keys[i], vmSeq, signed)
    ensures Ascending(keys[..i] + [k] + keys[i..], vmSeq, signed)
  {
    if i < |keys| && SortKey(keys[i], vmSeq, signed) == SortKey(k, vmSeq, signed) {
      SortKeyInjective(keys[i], k, vmSeq, signed);
    }
    hide SortKey;
  }

  class TCPConnection {
    const cfg: Setup
    const retransmission: TCPRetransmissionQueue
    const pacer: TCPPacer

    // sending: sequence space, the VM's window, the send queue, congestion
    var relaySeq: U32
    var sendMss: int
    var win: PeerWindow
    var out: Outbox
    var cong: Congestion

    // what will call the drain loop again besides the two timers, and the state
    var wake: Wakers
    var life: Life

    // receiving
    var vmSeq: U32
    var vmOutOfOrder: Ranges
    var vmOutOfOrderBytes: int
    var receiveBackpressured: bool
    var peerFin: bool
    var receiveAckPendingSegments: nat
    var receiveAckTimer: bool

    // what went out on either side, and the history the theorems are about
    var sink: seq<byte>
    var trace: seq<Emission>
    var log: History
    var base: int
    var finished: bool
    var openedAt: nat

    ghost function Out(): (s: Sender)
      reads this`relaySeq, this`sendMss, this`win, this`out, this`cong, this`wake, this`life, this`log, this`trace
      reads retransmission, pacer
      ensures s.cfg == cfg && s.out == out && s.life == life && s.rtx == retransmission.State() && s.win == win && s.trace == trace && s.wake == wake
    {
      Sender(cfg, retransmission.State(), pacer.State(), relaySeq, sendMss, win, out, cong, wake, life, log, trace)
    }

    function Buf(): Buffer
      reads this`vmSeq, this`vmOutOfOrder, this`vmOutOfOrderBytes
    {
      Buffer(vmSeq, vmOutOfOrder, vmOutOfOrderBytes)
    }

    function In(): (r: Receiver)
      reads this`vmSeq, this`vmOutOfOrder, this`vmOutOfOrderBytes, this`receiveBackpressured, this`peerFin, this`sink, this`base
      ensures r.buf == Buf() && r.buf.vmSeq == vmSeq && r.peerFin == peerFin && r.backpressured == receiveBackpressured
    {
      Receiver(Buf(), receiveBackpressured, peerFin, sink, base)
    }

    ghost function Snapshot(): Conn
      reads this, retransmission, pacer
    {
      Conn(Out(), In(), receiveAckPendingSegments, receiveAckTimer, finished, openedAt)
    }

    /** The constant part of a sound object. */
    predicate Configured() { pacer.Configured() }

    function Mss(): (r: int)
      reads this
      ensures r >= 1
    {
      Max(1, Min(cfg.tcpMss, if sendMss == 0 then FALLBACK_MSS else sendMss))
    }

    function TcpReceiveWindow(): int
      reads this
    {
      ReceiveWindow(In(), cfg.windowSize)
    }

    function Hdr(): Header
      reads this
    {
      Header(vmSeq, TcpReceiveWindow())
    }

    function FrameHeader(flags: Flags): Header
      reads this
    {
      if flags.syn && flags.ack then Header(vmSeq, cfg.windowSize) else Hdr()
    }

    /** `createTCPConnection`: a connection towards the VM, opened by a SYN. */
    constructor Reverse(cfg: Setup, isn: U32)
      requires cfg.reverse
      ensures Snapshot() == Connection.Open(cfg, isn, 0, 0, 0) && Configured()
      ensures fresh(retransmission) && fresh(pacer)
    {
      this.cfg := cfg;
      retransmission := new TCPRetransmissionQueue(cfg.rto, isn);
      pacer := new TCPPacer(cfg.pacing);
      relaySeq, sendMss := isn, cfg.tcpMss;
      win, out := NewWindow(cfg.windowSize), Outbox([], 0, false);
      cong := Congestion(Min(cfg.initialCwnd, cfg.windowSize), cfg.windowSize, None, None, 0);
      wake, life := Wakers(false, false, 0, 0), Life(SynSent, true, false, false, false);
      vmSeq, base := 0, 0;
      vmOutOfOrder, vmOutOfOrderBytes, receiveBackpressured, peerFin := map[], 0, false, false;
      receiveAckPendingSegments, receiveAckTimer := 0, false;
      sink, trace, log := [], [], History(isn, 0, [], [], false);
      finished, openedAt := false, 0;
      new;
      hide Connection.Open, P.NewPacer, NewQueue, TCPRetransmissionQueue.State, TCPPacer.State;
      SendSyn(isn, 0, 0, 0);
    }

    /** A connection the VM opened with a SYN, answered by a SYN-ACK. */
    constructor Outbound(cfg: Setup, isn: U32, vmFirst: U32, window: int, mss: nat)
      requires !cfg.reverse
      ensures Snapshot() == Connection.Open(cfg, isn, vmFirst, window, mss) && Configured()
      ensures fresh(retransmission) && fresh(pacer)
    {
      this.cfg := cfg;
      retransmission := new TCPRetransmissionQueue(cfg.rto, isn);
      pacer := new TCPPacer(cfg.pacing);
      relaySeq, sendMss := isn, Min(cfg.tcpMss, if mss == 0 then FALLBACK_MSS else mss);
      win, out := NewWindow(Min(window, cfg.windowSize)), Outbox([], 0, false);
      cong := Congestion(Min(cfg.initialCwnd, cfg.windowSize), cfg.windowSize, None, None, 0);
      wake, life := Wakers(false, false, 0, 0), Life(SynSent, true, false, false, false);
      vmSeq, base := vmFirst, vmFirst;
      vmOutOfOrder, vmOutOfOrderBytes, receiveBackpressured, peerFin := map[], 0, false, false;
      receiveAckPendingSegments, receiveAckTimer := 0, false;
      sink, trace, log := [], [], History(isn, 0, [], [], false);
      finished, openedAt := false, 0;
      new;
      hide Connection.Open, P.NewPacer, NewQueue, TCPRetransmissionQueue.State, TCPPacer.State;
      SendSyn(isn, vmFirst, window, mss);
    }

    /** The opening frame of either constructor. */
    method SendSyn(isn: U32, vmFirst: U32, window: int, mss: nat)
      requires Out() == Unsent(cfg, isn, window, mss) && In() == NewReceiver(if cfg.reverse then 0 else vmFirst)
      requires receiveAckPendingSegments == 0 && !receiveAckTimer && !finished && openedAt == 0
      modifies this`trace, this`relaySeq, this`life, this`log, retransmission
      ensures Snapshot() == Connection.Open(cfg, isn, vmFirst, window, mss)
    {
      hide TCPConnection.Out, TCPConnection.In, Connection.Open, SendTracked, ReceiveWindow, Unsent;
      OpensBySyn(cfg, isn, vmFirst, window, mss);
      SendTrackedTCP([], Flags(true, !cfg.reverse, false, false, false));
    }

    // ----- frames -----

    /** The loop of `sendTCP`, which cuts the payload into frames; `position` is
        the stream position of the first item. */
    static method CutFrames(payload: seq<byte>, mss: int, flags: Flags, sequence: U32, header: Header, position: nat)
      returns (frames: seq<Frame>, emissions: seq<Emission>)
      requires mss > 0
      ensures frames == Frames(payload, mss, flags, sequence, header)
      ensures emissions == Stamp(position, frames)
    {
      hide Frames, Stamp, Wrap, Remaining, NextFrame, FrameLength;
      WholePayload(payload, mss, flags, sequence, header);
      ghost var whole := Frames(payload, mss, flags, sequence, header);
      frames, emissions := [], [];
      if payload == [] {
        EmptyPayload(mss, flags, sequence, header);
        StampCons(position, NextFrame([], 0, mss, flags, sequence, header), []);
        StampNone(position + FrameLength(NextFrame([], 0, mss, flags, sequence, header)));
        frames := [NextFrame(payload, 0, mss, flags, sequence, header)];
        emissions := [Emission(position, frames[0])];
        assert frames + [] == frames;
        return;
      }
      var offset: nat, seqNo: U32, at: nat := 0, sequence, position;
      while offset < |payload|
        invariant offset <= |payload|
        invariant frames + Remaining(payload, offset, mss, flags, seqNo, header) == whole
        invariant emissions + Stamp(at, Remaining(payload, offset, mss, flags, seqNo, header)) == Stamp(position, whole)
      {
        CutStep(payload, offset, mss, flags, seqNo, header);
        var frame := CutFrame(payload, offset, mss, flags, seqNo, header);
        offset := offset + |frame.payload|;
        seqNo := Wrap(seqNo + FrameLength(frame));
        ghost var rest := Remaining(payload, offset, mss, flags, seqNo, header);
        StampCons(at, frame, rest);
        ConcatAssociative(emissions, [Emission(at, frame)], Stamp(at + FrameLength(frame), rest));
        ConcatAssociative(frames, [frame], rest);
        frames := frames + [frame];
        emissions := emissions + [Emission(at, frame)];
        at := at + FrameLength(frame);
      }
      WholePayload(payload, mss, flags, seqNo, header);
      StampNone(at);
    }

    /** The body of that loop: SYN on the first frame only, PSH and FIN on the last. */
    static method CutFrame(payload: seq<byte>, offset: nat, mss: int, flags: Flags, seqNo: U32, header: Header)
      returns (frame: Frame)
      requires mss > 0 && offset < |payload|
      ensures frame == NextFrame(payload, offset, mss, flags, seqNo, header) && 0 < |frame.payload| <= |payload| - offset
    {
      var chunk := payload[offset..Min(offset + mss, |payload|)];
      var end := offset + |chunk|;
      var isLastSegment := end >= |payload|;
      var isFirst := end <= |chunk|;
      frame := Frame(seqNo, header,
                     Flags(flags.syn && isFirst, flags.ack, flags.fin && isLastSegment, flags.rst, flags.psh && isLastSegment),
                     chunk);
    }

    /** `sendTCP`: the frames go out; the result is what they take of the
        sequence space, and `relaySeq` moves past it when `advance` is set. */
    method SendTCP(payload: seq<byte>, flags: Flags, sequence: U32, position: nat, advance: bool)
      returns (sentSegments: seq<Frame>)
      modifies this`trace, this`relaySeq
      ensures var frames := Frames(payload, Mss(), flags, sequence, FrameHeader(flags));
        && trace == old(trace) + Stamp(position, frames)
        && sentSegments == (if flags.rst || SequenceLength(payload, flags) == 0 then [] else frames)
      ensures relaySeq == if advance && !flags.rst then NextSequence(old(relaySeq), sequence, payload, flags) else old(relaySeq)
    {
      hide Frames, Stamp, Wrap;
      var frames, emissions := CutFrames(payload, Mss(), flags, sequence, FrameHeader(flags), position);
      trace := trace + emissions;
      var length := SequenceLength(payload, flags);
      if length == 0 || flags.rst { return []; }
      if advance { relaySeq := Wrap(sequence + length); }
      return frames;
    }

    /** A resend or a bare frame: `advanceSequence` is off, or nothing advances. */
    method SendFrames(payload: seq<byte>, flags: Flags, sequence: U32, position: nat) returns (sentSegments: seq<Frame>)
      modifies this`trace, this`relaySeq
      ensures Out() == Transmit(old(Out()), Hdr(), payload, flags, sequence, position)
    {
      hide Frames, Stamp, Wrap, TCPPacer.State, TCPRetransmissionQueue.State;
      sentSegments := SendTCP(payload, flags, sequence, position, false);
    }

    /** Hands the frames to the retransmission queue, one by one. */
    method TrackSegments(segments: seq<Frame>) returns (threw: bool)
      modifies retransmission
      ensures (retransmission.State(), threw) == TrackFrames(old(retransmission.State()), segments)
    {
      hide Track;
      var i := 0;
      while i < |segments|
        invariant 0 <= i <= |segments|
        invariant TrackFrames(retransmission.State(), segments[i..]) == TrackFrames(old(retransmission.State()), segments)
      {
        assert segments[i..][0] == segments[i] && segments[i..][1..] == segments[i + 1..];
        var status := retransmission.Track(segments[i].seqNo, segments[i].payload, segments[i].flags);
        if status.TrackThrewClosed? || status.TrackThrewNonContiguous? { return true; }
        i := i + 1;
      }
      threw := false;
    }

    /** `sendTrackedTCP` at the next sequence number. */
    method SendTrackedTCP(payload: seq<byte>, flags: Flags)
      requires !flags.rst && SequenceLength(payload, flags) > 0
      modifies this`trace, this`relaySeq, this`life, this`log, retransmission
      ensures Out() == SendTracked(old(Out()), Hdr(), payload, flags)
    {
      hide Frames, Stamp, Wrap, TrackFrames, GrowLog, SendTracked, TCPRetransmissionQueue.State, TCPPacer.State;
      TrackedParts(Out(), Hdr(), payload, flags);
      var segments := SendTCP(payload, flags, relaySeq, |log.tracked|, true);
      TrackNew(segments, payload, flags);
    }

    /** What was sent is tracked; an exception is remembered. */
    method TrackNew(segments: seq<Frame>, payload: seq<byte>, flags: Flags)
      modifies this`life, this`log, retransmission
      ensures var (q, threw) := TrackFrames(old(retransmission.State()), segments);
        && retransmission.State() == q
        && life == old(life).(thrown := old(life).thrown || threw)
        && log == if threw then old(log) else GrowLog(old(log), payload, flags)
    {
      hide GrowLog, TrackFrames;
      var threw := TrackSegments(segments);
      if threw {
        life := life.(thrown := true);
      } else {
        log := GrowLog(log, payload, flags);
      }
    }

    // ----- out-of-order reassembly (tcp_utils.js) -----

    /** `[...conn.vmOutOfOrder].sort(...)` by unsigned or signed distance. */
    method SortRanges(signed: bool) returns (keys: seq<U32>)
      ensures keys == SortedKeys(vmOutOfOrder.Keys, vmSeq, signed)
      ensures forall k <- keys :: k in vmOutOfOrder
      ensures forall i, j :: 0 <= i < j < |keys| ==> keys[i] != keys[j]
    {
      var rest := vmOutOfOrder.Keys;
      keys := [];
      while rest != {}
        invariant rest <= vmOutOfOrder.Keys
        invariant forall k :: k in keys <==> k in vmOutOfOrder.Keys - rest
        invariant Ascending(keys, vmSeq, signed)
        decreases |rest|
      {
        var k :| k in rest;
        rest := rest - {k};
        keys := InsertSorted(keys, k, vmSeq, signed);
      }
      SortedKeysUnique(vmOutOfOrder.Keys, vmSeq, signed, keys);
    }

    static method InsertSorted(keys: seq<U32>, k: U32, vmSeq: U32, signed: bool) returns (r: seq<U32>)
      requires Ascending(keys, vmSeq, signed) && k !in keys
      ensures Ascending(r, vmSeq, signed)
      ensures forall x :: x in r <==> x == k || x in keys
    {
      var i := 0;
      while i < |keys| && SortKey(keys[i], vmSeq, signed) < SortKey(k, vmSeq, signed)
        invariant 0 <= i <= |keys|
        invariant forall j :: 0 <= j < i ==> SortKey(keys[j], vmSeq, signed) < SortKey(k, vmSeq, signed)
      {
        i := i + 1;
      }
      InsertedAscends(keys, k, i, vmSeq, signed);
      hide Ascending, SortKey;
      r := keys[..i] + [k] + keys[i..];
      assert keys == keys[..i] + keys[i..];
    }

    /** `add(from, to)`. */
    method AddRange(start: int, payload: seq<byte>, from: int, to: int)
      requires from < to ==> start <= from && to - start <= |payload|
      modifies this`vmOutOfOrder, this`vmOutOfOrderBytes
      ensures Buf() == Add(old(Buf()), start, payload, from, to)
    {
      if to <= from { return; }
      var chunk := payload[from - start..to - start];
      vmOutOfOrder := vmOutOfOrder[Wrap(vmSeq + from) := chunk];
      vmOutOfOrderBytes := vmOutOfOrderBytes + |chunk|;
    }

    method BufferTCPOutOfOrder(sequence: U32, payload: seq<byte>, capacity: int)
      modifies this`vmOutOfOrder, this`vmOutOfOrderBytes
      ensures Buf() == BufferOutOfOrder(old(Buf()), sequence, payload, capacity)
    {
      hide Wrap, Fill, SortedKeys;
      var start := Wrap(sequence - vmSeq);
      if start == 0 || start >= capacity { return; }
      var ranges := SortRanges(false);
      FillGaps(ranges, start, payload, Min(start + |payload|, capacity));
    }

    /** The loop over the ranges held before: keep what none of them has. */
    method FillGaps(ranges: seq<U32>, start: int, payload: seq<byte>, end: int)
      requires forall k <- ranges :: k in vmOutOfOrder
      requires end <= start + |payload|
      modifies this`vmOutOfOrder, this`vmOutOfOrderBytes
      ensures Buf() == Fill(old(Buf()), old(vmOutOfOrder), ranges, start, payload, start, end)
    {
      hide Wrap, Fill, Add;
      var held, cursor, i := vmOutOfOrder, start, 0;
      while i < |ranges|
        invariant 0 <= i <= |ranges| && start <= cursor && vmSeq == old(vmSeq)
        invariant Fill(Buf(), held, ranges[i..], start, payload, cursor, end)
               == Fill(old(Buf()), held, ranges, start, payload, start, end)
      {
        var key := ranges[i];
        assert ranges[i..][0] == key && ranges[i..][1..] == ranges[i + 1..];
        FillStep(Buf(), held, ranges[i..], start, payload, cursor, end);
        var offset := Wrap(key - vmSeq);
        var stop := offset + |held[key]|;
        if offset >= end { break; }
        if stop > cursor {
          AddRange(start, payload, cursor, Min(offset, end));
          cursor := Max(cursor, stop);
          if cursor >= end { return; }
        }
        i := i + 1;
      }
      FillStep(Buf(), held, ranges[i..], start, payload, cursor, end);
      AddRange(start, payload, cursor, end);
    }

    /** `writeTCPReceiveData`; `answer` is what the sink made of it. */
    method WriteTCPReceiveData(payload: seq<byte>, answer: SinkAnswer)
      modifies this`sink, this`receiveBackpressured
      ensures In() == Write(old(In()), payload, answer)
    {
      if answer.Gone? { return; }
      sink := sink + payload;
      if answer.Filled? { receiveBackpressured := true; }
    }

    /** `drainTCPOutOfOrder`: what it leaves in the buffer, what it writes, and
        how many ranges that took. */
    method DrainTCPOutOfOrder(answer: SinkAnswer) returns (delivered: nat)
      modifies this`vmSeq, this`vmOutOfOrder, this`vmOutOfOrderBytes, this`sink, this`receiveBackpressured
      ensures var (buf, chunks) := DrainOutOfOrder(old(Buf()));
        && Buf() == buf && sink == (if answer.Gone? then old(sink) else old(sink) + Concat(chunks)) && delivered == |chunks|
        && receiveBackpressured == (old(receiveBackpressured) || (chunks != [] && answer.Filled?))
    {
      hide Wrap, Signed, SortedKeys, Reassembly.Drain, Concat;
      var ranges := SortRanges(true);
      var i := 0;
      delivered := 0;
      ghost var buf, allChunks := Reassembly.Drain(Buf(), ranges).0, Reassembly.Drain(Buf(), ranges).1;
      ghost var left := allChunks;
      assert ranges[0..] == ranges;
      while i < |ranges|
        invariant 0 <= i <= |ranges|
        invariant forall j :: i <= j < |ranges| ==> ranges[j] in vmOutOfOrder
        invariant Reassembly.Drain(Buf(), ranges[i..]) == (buf, left)
        invariant answer.Gone? ==> sink == old(sink)
        invariant !answer.Gone? ==> sink + Concat(left) == old(sink) + Concat(allChunks)
        invariant delivered + |left| == |allChunks|
        invariant receiveBackpressured == (old(receiveBackpressured) || (delivered > 0 && answer.Filled?))
      {
        var key := ranges[i];
        assert ranges[i..][0] == key && ranges[i..][1..] == ranges[i + 1..];
        DrainStep(Buf(), ranges[i..]);
        if Signed(key - vmSeq) > 0 { break; }
        var buffered := vmOutOfOrder[key];
        var consumed := Wrap(vmSeq - key);
        vmOutOfOrder := vmOutOfOrder - {key};
        vmOutOfOrderBytes := vmOutOfOrderBytes - |buffered|;
        if consumed < |buffered| {
          var tail := buffered[consumed..];
          ConcatHead(tail, left[1..]);
          ConcatAssociative(sink, tail, Concat(left[1..]));
          left := left[1..];
          WriteTCPReceiveData(tail, answer);
          vmSeq := Wrap(vmSeq + |tail|);
          delivered := delivered + 1;
        }
        i := i + 1;
      }
      if i == |ranges| { assert ranges[i..] == []; }
      NothingToDrain(Buf());
      ConcatNone();
    }

    // ----- retransmission and congestion -----

    /** Resends the oldest outstanding segment as it stands. */
    method ResendOldest()
      modifies this`trace, this`relaySeq
      ensures Out() == TransmitOldest(old(Out()), Hdr())
    {
      hide Frames, Stamp, Wrap, TCPPacer.State;
      if |retransmission.segments| == 0 { return; }
      var segment := retransmission.segments[0];
      var _ := SendFrames(segment.payload, segment.flags, segment.seqNo, log.acked);
    }

    method OnTCPCongestionLoss(timeout: bool)
      requires Configured()
      modifies this`cong, pacer
      ensures Out() == CongestionLoss(old(Out()), timeout)
    {
      hide TCPPacer.State, P.NoteLoss;
      var inFlight := retransmission.payloadBytesInFlight;
      if inFlight == 0 { return; }
      var mss := Mss();
      var threshold := Max(2 * mss, inFlight / 2);
      cong := Congestion(if timeout then mss else threshold, threshold, Some(retransmission.sndNxt), Some(retransmission.sndUna),
                         cong.dupAckCount);
      var _ := pacer.NoteLoss();
    }

    method OnTCPCongestionAck(ackedDataBytes: int, ackNumber: U32)
      requires Configured()
      modifies this`cong, this`trace, this`relaySeq, pacer
      ensures Out() == CongestionAck(old(Out()), Hdr(), ackedDataBytes, ackNumber)
    {
      hide TCPPacer.State, P.NoteAck, Transmit, SeqLessThan;
      if ackedDataBytes <= 0 { return; }
      if cong.recoveryUntil.Some? {
        if !RecoveryComplete(cong.recoveryUntil.value, ackNumber) {
          RetransmitTCPRecoveryHead();
          return;
        }
        cong := cong.(recoveryUntil := None);
        return;
      }
      var mss := Mss();
      var size := Max(mss, cong.window);
      var increment := Max(1, (mss * ackedDataBytes) / size);
      cong := cong.(window := Min(cfg.windowSize, size + increment));
      var _ := pacer.NoteAck(ackedDataBytes, cong.window);
    }

    method RetransmitTCPRecoveryHead()
      modifies this`cong, this`trace, this`relaySeq
      ensures Out() == if retransmission.segments == [] then old(Out())
                       else TransmitOldest(old(Out()).(cong := old(cong).(fastRetransmitAck := Some(retransmission.sndUna))), Hdr())
    {
      hide TransmitOldest, TCPPacer.State;
      if |retransmission.segments| == 0 { return; }
      cong := cong.(fastRetransmitAck := Some(retransmission.sndUna));
      ResendOldest();
    }

    method IsTCPCongestionRecoveryActive() returns (active: bool)
      modifies this`cong
      ensures Out() == EndFinishedRecovery(old(Out())) && active == cong.recoveryUntil.Some?
    {
      hide TCPPacer.State, SeqLessThan;
      if cong.recoveryUntil.None? { return false; }
      if RecoveryComplete(cong.recoveryUntil.value, retransmission.sndUna) {
        cong := cong.(recoveryUntil := None);
        return false;
      }
      return true;
    }

    method SetPersist(enabled: bool)
      modifies this`trace, this`relaySeq, retransmission
      ensures Out() == SendPath.SetPersist(old(Out()), Hdr(), enabled)
    {
      hide TCPPacer.State, TransmitOldest, Retransmission.SetPersist;
      var reopens := !retransmission.closed && !retransmission.exhausted && retransmission.persist && !enabled
                     && |retransmission.segments| > 0;
      retransmission.SetPersist(enabled, Returned);
      if reopens { ResendOldest(); }
    }

    method FastRetransmit()
      requires Configured()
      modifies this`cong, this`trace, this`relaySeq, retransmission, pacer
      ensures Out() == SendPath.FastRetransmit(old(Out()), Hdr())
    {
      hide TCPPacer.State, TransmitOldest, CongestionLoss, Retransmission.FastRetransmit;
      FastRetransmitReports(retransmission.State());
      var sent := retransmission.FastRetransmit(Returned);
      if sent {
        OnTCPCongestionLoss(false);
        ResendOldest();
      }
    }

    // ----- the send queue -----

    method EnqueueTCPData(data: seq<byte>)
      modifies this`out, this`log
      ensures Out() == Enqueue(old(Out()), data)
    {
      out := out.(queue := out.queue + [data], bytes := out.bytes + |data|);
      if !out.sourcePaused && out.bytes >= cfg.highWater { out := out.(sourcePaused := true); }
      log := log.(stream := log.stream + data);
    }

    method ConsumeTCPQueuedData(bytes: nat)
      modifies this`out
      ensures Out() == ConsumeQueued(old(Out()), bytes)
    {
      out := out.(bytes := Max(0, out.bytes - bytes));
      if out.sourcePaused && out.bytes <= cfg.highWater / 2 { out := out.(sourcePaused := false); }
    }

    /** `takeQueuedBytes` (tcp_utils.js): the chunk is filled from the front of
        the queue, whole entries first and then a part of the next one. `None`
        where it throws: at once for a length that is not positive, and with the
        queue used up when it holds too few bytes. */
    method TakeQueuedBytes(length: int) returns (chunk: Option<seq<byte>>)
      modifies this`out
      ensures chunk.Some? <==> 0 < length <= |Concat(old(out.queue))|
      ensures chunk.Some? ==> (chunk.value, out.queue) == TakeQueued(old(out.queue), length)
      ensures chunk.None? ==> out.queue == if length <= 0 then old(out.queue) else []
      ensures out == old(out).(queue := out.queue)
    {
      hide Concat, TakeQueued;
      if length <= 0 { return None; }
      if |out.queue| == 0 {
        ConcatNone();
        return None;
      }
      var buffer := new byte[length](_ => 0);
      var offset := 0;
      var queue := out.queue;
      ghost var whole := out.queue;
      while offset < length
        invariant 0 <= offset <= length && offset + |Concat(queue)| == |Concat(whole)|
        invariant queue != [] || offset == length
        invariant fresh(buffer) && out == old(out)
        invariant length <= |Concat(whole)| ==>
                    && buffer[..offset] + TakeQueued(queue, length - offset).0 == TakeQueued(whole, length).0
                    && TakeQueued(queue, length - offset).1 == TakeQueued(whole, length).1
        decreases |queue|, length - offset
      {
        FirstEntry(queue);
        if length <= |Concat(whole)| { TakeStep(queue, length - offset); }
        var first := queue[0];
        var bytes := Min(|first|, length - offset);
        ghost var before := buffer[..offset];
        forall i | 0 <= i < bytes { buffer[offset + i] := first[i]; }
        offset := offset + bytes;
        ConcatHead(first[bytes..], queue[1..]);
        queue := if bytes == |first| then queue[1..] else [first[bytes..]] + queue[1..];
        assert buffer[..offset] == before + first[..bytes];
        if |queue| == 0 && offset < length {
          ConcatNone();
          out := out.(queue := []);
          return None;
        }
        if length <= |Concat(whole)| { ConcatAssociative(before, first[..bytes], TakeQueued(queue, length - offset).0); }
      }
      out := out.(queue := queue);
      chunk := Some(buffer[..]);
      TakeNone(queue);
      assert buffer[..offset] == buffer[..] && buffer[..] + [] == buffer[..];
    }

    // ----- the drain loop and the FIN -----

    method MaybeSendFin()
      modifies this`cong, this`life, this`relaySeq, this`trace, this`log, retransmission
      ensures Out() == MaybeFin(old(Out()), Hdr())
    {
      hide TCPPacer.State, SendTracked, EndFinishedRecovery;
      if !life.pendingFin || life.finSent || |out.queue| > 0 || retransmission.payloadBytesInFlight >= win.size { return; }
      EndRecoveryFrame(Out());
      var active := IsTCPCongestionRecoveryActive();
      if active || !life.current { return; }
      life := life.(pendingFin := false, finSent := true, state := FinWait);
      SendTrackedTCP([], ACK_FIN);
    }

    /** Takes, sends and accounts for the next `length` queued bytes. */
    method SendChunk(length: nat)
      requires 0 < length <= |Concat(out.queue)|
      modifies this`out, this`life, this`relaySeq, this`trace, this`log, retransmission
      ensures Out() == SendQueued(old(Out()), Hdr(), length, ACK_PSH)
    {
      hide TCPPacer.State, SendTracked, TakeQueued, Concat, ConsumeQueued;
      var chunk := TakeQueuedBytes(length);
      TakenLength(old(out.queue), length);
      SendTrackedTCP(chunk.value, ACK_PSH);
      ConsumeTCPQueuedData(length);
    }

    /** What `drainTCPToVM` does after a chunk; `again` when the loop goes on. */
    method AfterSending(available: int, length: nat, now: int, sentBefore: nat) returns (again: bool)
      requires Configured()
      modifies this`cong, this`life, this`relaySeq, this`trace, this`log, this`wake, retransmission, pacer
      ensures (Out(), again) == AfterChunk(old(Out()), Hdr(), available, length, now, sentBefore)
    {
      hide TCPRetransmissionQueue.State, P.NoteSegment, MaybeFin;
      var blocked := pacer.NoteSegment(now);
      if blocked {
        wake := wake.(sending := false);
        return false;
      }
      if |out.queue| == 0 || available <= length {
        wake := wake.(sending := false);
        MaybeSendFin();
        return false;
      }
      if pacer.mode == P.Off && sentBefore + 1 >= 64 {
        wake := wake.(sending := false, immediates := wake.immediates + 1);
        return false;
      }
      return true;
    }

    /** The body of the `while (true)` of `drainTCPToVM`. */
    method DrainOnce(turn: Turn, sentBefore: nat) returns (again: bool)
      requires Configured() && (life.current ==> Draining(Out()))
      modifies this`cong, this`life, this`relaySeq, this`trace, this`log, this`wake, this`out, retransmission, pacer
      ensures (Out(), again) == DrainPass(old(Out()), Hdr(), turn, sentBefore)
    {
      hide TCPPacer.State, TCPRetransmissionQueue.State, MaybeFin, DrainChunk, Draining;
      if !life.current {
        wake := wake.(sending := false);
        return false;
      }
      if |out.queue| == 0 {
        wake := wake.(sending := false);
        MaybeSendFin();
        return false;
      }
      if turn.congested {
        wake := wake.(sending := false, waiting := true);
        return false;
      }
      again := DrainQueued(turn, sentBefore);
    }

    /** The rest of that body: the next chunk, as large as the windows allow. */
    method DrainQueued(turn: Turn, sentBefore: nat) returns (again: bool)
      requires Configured() && Draining(Out()) && out.queue != []
      modifies this`cong, this`life, this`relaySeq, this`trace, this`log, this`wake, this`out, retransmission, pacer
      ensures (Out(), again) == DrainChunk(old(Out()), Hdr(), turn, sentBefore)
    {
      hide TCPPacer.State, TCPRetransmissionQueue.State, SendQueued, AfterChunk, EndFinishedRecovery, Draining, Concat;
      ReadyToSend(Out(), Hdr());
      var active := IsTCPCongestionRecoveryActive();
      var available := if active then 0 else Max(0, SendLimitNow() - InFlight());
      var toSend := Min(Min(Mss(), out.bytes), available);
      assert toSend == ChunkSize(Out()) && available == Available(Out());
      again := SendWithin(available, toSend, turn, sentBefore);
    }

    method SendWithin(available: int, toSend: int, turn: Turn, sentBefore: nat) returns (again: bool)
      requires Configured()
      requires toSend > 0 ==> toSend <= |Concat(out.queue)| && !SendQueued(Out(), Hdr(), toSend, ACK_PSH).life.thrown
      modifies this`cong, this`life, this`relaySeq, this`trace, this`log, this`wake, this`out, retransmission, pacer
      ensures var r := old(Out());
        (Out(), again) ==
          if toSend <= 0 then (Idle(r), false)
          else if !cfg.reverse && !turn.admitted then (Idle(r.(wake := r.wake.(retries := r.wake.retries + 1))), false)
          else AfterChunk(SendQueued(r, Hdr(), toSend, ACK_PSH), Hdr(), available, toSend, turn.now, sentBefore)
    {
      hide TCPPacer.State, TCPRetransmissionQueue.State, SendQueued, AfterChunk, Concat;
      if toSend <= 0 {
        wake := wake.(sending := false);
        return false;
      }
      if !cfg.reverse && !turn.admitted {
        wake := wake.(sending := false, retries := wake.retries + 1);
        return false;
      }
      again := SendAndNote(available, toSend, turn.now, sentBefore);
    }

    function SendLimitNow(): int
      reads this
    {
      Max(0, Min(win.size, if cong.window == 0 then cfg.initialCwnd else cong.window))
    }

    function InFlight(): (r: int)
      reads retransmission
      ensures r == retransmission.State().payloadBytesInFlight
    {
      retransmission.payloadBytesInFlight
    }

    method SendAndNote(available: int, length: nat, now: int, sentBefore: nat) returns (again: bool)
      requires Configured() && 0 < length <= |Concat(out.queue)|
      requires !SendQueued(Out(), Hdr(), length, ACK_PSH).life.thrown
      modifies this`cong, this`life, this`relaySeq, this`trace, this`log, this`wake, this`out, retransmission, pacer
      ensures (Out(), again) == AfterChunk(SendQueued(old(Out()), Hdr(), length, ACK_PSH), Hdr(), available, length, now, sentBefore)
    {
      hide TCPPacer.State, TCPRetransmissionQueue.State, SendQueued, AfterChunk;
      SendChunk(length);
      again := AfterSending(available, length, now, sentBefore);
    }

    method DrainTCPToVM(turns: nat -> Turn)
      requires Configured() && Core(Out()) && life.current && !life.state.SynSent? && !Out().pacer.blocked
      modifies this`cong, this`life, this`relaySeq, this`trace, this`log, this`wake, this`out, retransmission, pacer
      ensures Out() == SendPath.Drain(old(Out()), Hdr(), turns)
    {
      hide TCPConnection.Out, Core, SendPath.SetPersist, DrainLoop, Draining;
      ghost var u := Out().(wake := wake.(sending := true));
      WakersKeep(Out(), u.wake);
      PersistArms(u, Hdr());
      BeginDrain();
      DrainWhilePossible(turns);
    }

    method BeginDrain()
      modifies this`wake, this`trace, this`relaySeq, retransmission
      ensures Out() == SendPath.SetPersist(old(Out()).(wake := old(wake).(sending := true)), Hdr(), WantsPersist(old(Out())))
    {
      hide TCPConnection.Out, SendPath.SetPersist;
      StartSending();
      SetPersist(win.size == 0 && (HasOutstanding() || out.bytes > 0 || life.pendingFin));
    }

    method StartSending()
      modifies this`wake
      ensures Out() == old(Out()).(wake := old(wake).(sending := true))
    {
      wake := wake.(sending := true);
    }

    /** The `while (true)` of `drainTCPToVM`: each pass that asks for another has
        taken bytes off the queue. */
    method DrainWhilePossible(turns: nat -> Turn)
      requires Configured() && Draining(Out())
      modifies this`cong, this`life, this`relaySeq, this`trace, this`log, this`wake, this`out, retransmission, pacer
      ensures Out() == DrainLoop(old(Out()), Hdr(), turns, 0)
    {
      hide TCPConnection.Out, Core, DrainLoop, DrainPass, Draining;
      var cooperativeSegments, again := 0, true;
      while again
        invariant again ==> Draining(Out())
        invariant DrainLoop(old(Out()), Hdr(), turns, 0)
               == if again then DrainLoop(Out(), Hdr(), turns, cooperativeSegments) else Out()
        decreases again, out.bytes
      {
        DrainPassKeeps(Out(), Hdr(), turns(cooperativeSegments), cooperativeSegments);
        DrainLoopStep(Out(), Hdr(), turns, cooperativeSegments);
        again := DrainOnce(turns(cooperativeSegments), cooperativeSegments);
        cooperativeSegments := cooperativeSegments + 1;
      }
    }

    predicate HasOutstanding()
      reads retransmission
      ensures HasOutstanding() <==> retransmission.State().segments != []
    {
      |retransmission.segments| > 0
    }

    /** `trySendToVM` and `trySendReverseToVM`. */
    method TrySendToVM(turns: nat -> Turn)
      requires Configured() && Core(Out())
      modifies this`cong, this`life, this`relaySeq, this`trace, this`log, this`wake, this`out, retransmission, pacer
      ensures Out() == TrySend(old(Out()), Hdr(), turns)
    {
      hide TCPRetransmissionQueue.State, Core, SendPath.Drain;
      if !life.current || wake.sending || pacer.blocked { return; }
      if cfg.reverse {
        if !life.state.Established? && !life.state.FinWait? && !life.state.Closing? { return; }
      } else {
        if life.state.SynSent? { return; }
      }
      DrainTCPToVM(turns);
    }

    // ----- acknowledging -----

    method SendTCPAck()
      modifies this`trace, this`relaySeq, this`receiveAckPendingSegments, this`receiveAckTimer
      ensures Snapshot() == Connection.SendAck(old(Snapshot()))
    {
      hide Frames, Stamp, TCPPacer.State, TCPRetransmissionQueue.State;
      receiveAckTimer, receiveAckPendingSegments := false, 0;
      var _ := SendFrames([], ACK, relaySeq, |log.tracked|);
    }

    method ScheduleTCPAck(segments: nat, immediate: bool)
      modifies this`trace, this`relaySeq, this`receiveAckPendingSegments, this`receiveAckTimer
      ensures Snapshot() == ScheduleAck(old(Snapshot()), segments, immediate)
    {
      hide Connection.SendAck, TCPPacer.State, TCPRetransmissionQueue.State;
      receiveAckPendingSegments := receiveAckPendingSegments + segments;
      if immediate || cfg.ackDelayMs == 0 || receiveAckPendingSegments >= cfg.ackEvery || TcpReceiveWindow() == 0 {
        SendTCPAck();
        return;
      }
      if receiveAckTimer { return; }
      receiveAckTimer := true;
    }

    // ----- ending -----

    /** What aborting and finishing have in common. */
    method Shut(stays: bool)
      modifies this`life, this`wake, this`receiveAckPendingSegments, this`receiveAckTimer, retransmission, pacer
      ensures Out() == old(Out()).(life := old(life).(state := Closed, current := stays), wake := old(wake).(waiting := false),
                                   pacer := P.ClosePacer(old(pacer.State())), rtx := Close(old(retransmission.State())))
      ensures receiveAckPendingSegments == 0 && !receiveAckTimer
    {
      hide Close, P.ClosePacer, TCPPacer.State, TCPRetransmissionQueue.State;
      life := life.(state := Closed, current := stays);
      wake := wake.(waiting := false);
      pacer.Close();
      receiveAckTimer, receiveAckPendingSegments := false, 0;
      retransmission.Close();
    }

    /** `abortReverseConnection` and `abortTCPConnection`; a reset goes out when
        it is asked for and the WebSocket is open. */
    method AbortTCPConnection(reset: bool)
      modifies this`life, this`wake, this`trace, this`relaySeq, this`receiveAckPendingSegments, this`receiveAckTimer
      modifies retransmission, pacer
      ensures Snapshot() == AbortConn(old(Snapshot()), reset)
    {
      hide TransmitBare, Close, P.ClosePacer, TCPConnection.In, TCPPacer.State, TCPRetransmissionQueue.State;
      if !life.current { return; }
      if reset { SendReset(); }
      Shut(false);
    }

    method SendReset()
      modifies this`trace, this`relaySeq
      ensures Out() == TransmitBare(old(Out()), Hdr(), ACK_RST)
    {
      hide Transmit, TCPPacer.State, TCPRetransmissionQueue.State;
      var _ := SendFrames([], ACK_RST, relaySeq, |log.tracked|);
    }

    /** `finishReverseConnection` and `finishTCPConnection`. */
    method FinishTCPConnection()
      modifies this`life, this`wake, this`finished, this`receiveAckPendingSegments, this`receiveAckTimer
      modifies retransmission, pacer
      ensures Snapshot() == FinishConn(old(Snapshot()))
    {
      hide Close, P.ClosePacer, TCPPacer.State, TCPRetransmissionQueue.State;
      if !life.current { return; }
      finished := true;
      Shut(!cfg.reverse);
    }

    // ----- the ACK part of a packet -----

    method UpdateTCPWindow(sequence: U32, ack: U32, window: int) returns (changed: bool)
      modifies this`win
      ensures Out() == UpdateWindow(old(Out()), sequence, ack, window) && changed == (win.size != old(win.size))
    {
      hide TCPPacer.State, TCPRetransmissionQueue.State, SeqLessThan;
      if win.update.Some? && (SeqLessThan(sequence, win.update.value.0)
                              || (sequence == win.update.value.0 && SeqLessThan(ack, win.update.value.1))) {
        win := win.(reports := win.reports + [Report(sequence, ack, window)]);
        return false;
      }
      changed := win.size != window;
      win := PeerWindow(window, Some((sequence, ack)), win.start, win.reports + [Report(sequence, ack, window)]);
    }

    /** `conn.retransmission.acknowledge`, with its exception and its history. */
    method Acknowledge(ack: U32) returns (status: AckStatus, ackedDataBytes: int)
      requires RP.Valid(retransmission.State())
      modifies this`life, this`log, retransmission
      ensures (Out(), status, ackedDataBytes) == AcknowledgeQueue(old(Out()), ack)
    {
      hide TCPPacer.State, RP.Valid, Retransmission.Acknowledge, SequenceDistance;
      ghost var una := retransmission.sndUna;
      var advance := SequenceDistance(ack, retransmission.sndUna);
      status, ackedDataBytes := retransmission.Acknowledge(ack);
      if status.AckThrew? { life := life.(thrown := true); }
      if status.Advanced? { log := log.(acked := log.acked + advance); }
    }

    method CountDuplicateAck(ack: U32)
      requires Configured()
      modifies this`cong, this`trace, this`relaySeq, retransmission, pacer
      ensures Out() == CountDuplicate(old(Out()), Hdr(), ack)
    {
      hide TCPPacer.State, TCPRetransmissionQueue.State, SendPath.FastRetransmit;
      cong := cong.(dupAckCount := cong.dupAckCount + 1);
      if cong.dupAckCount == 3 {
        DuplicatesIgnored(old(Out()), cong.dupAckCount, Hdr());
        if cong.fastRetransmitAck != Some(ack) { FastRetransmit(); }
        cong := cong.(dupAckCount := 0);
      }
    }

    /** The ACK part of both handlers. */
    method ProcessAck(p: Packet) returns (status: AckStatus, windowChanged: bool)
      requires Configured() && RP.Valid(retransmission.State())
      modifies this`cong, this`trace, this`relaySeq, this`win, this`life, this`log, retransmission, pacer
      ensures (Out(), status, windowChanged) == SendPath.ProcessAck(old(Out()), Hdr(), p)
    {
      hide TCPPacer.State, TCPRetransmissionQueue.State, RP.Valid, CountDuplicate, CongestionAck, UpdateWindow, AcknowledgeQueue;
      var ackedDataBytes;
      status, ackedDataBytes := Acknowledge(p.ack);
      if !status.Advanced? && !status.Duplicate? { return status, false; }
      windowChanged := UpdateTCPWindow(p.seqNo, p.ack, p.window);
      if status.Advanced? {
        cong := cong.(dupAckCount := 0, fastRetransmitAck := None);
        OnTCPCongestionAck(ackedDataBytes, p.ack);
      } else if win.size > 0 && !windowChanged && !p.hasSyn && !p.hasFin && |p.payload| == 0 && HasOutstanding() {
        CountDuplicateAck(p.ack);
      }
    }

    // ----- the data and FIN part of a packet -----

    /** `writeTCPReceiveData` for new in-order bytes, then whatever they made
        deliverable; the result is how many segments the ACK accounts for. */
    method DeliverInOrder(payload: seq<byte>, answer: SinkAnswer) returns (acceptedSegments: nat)
      modifies this`vmSeq, this`vmOutOfOrder, this`vmOutOfOrderBytes, this`sink, this`receiveBackpressured
      ensures (In(), acceptedSegments) == Deliver(old(In()), payload, answer)
    {
      hide DrainOutOfOrder, Wrap, Concat;
      vmSeq := Wrap(vmSeq + |payload|);
      WriteTCPReceiveData(payload, answer);
      ghost var written := sink;
      var more := DrainTCPOutOfOrder(answer);
      ConcatAssociative(old(sink), payload, Concat(DrainOutOfOrder(old(Buf()).(vmSeq := Wrap(old(vmSeq) + |payload|))).1));
      acceptedSegments := 1 + more;
    }

    method HandleData(seqNo: U32, payload: seq<byte>, answer: SinkAnswer) returns (arrival: Arrival, segments: nat)
      modifies this`vmSeq, this`vmOutOfOrder, this`vmOutOfOrderBytes, this`sink, this`receiveBackpressured
      ensures (In(), arrival, segments) == ReceiveData(old(In()), Min(0xffff, cfg.windowSize), seqNo, payload, answer)
    {
      hide Deliver, BufferOutOfOrder, SeqLessThan, SeqDiff;
      segments := 0;
      if seqNo == vmSeq {
        arrival := InOrder(payload);
        segments := DeliverInOrder(payload, answer);
      } else if SeqLessThan(seqNo, vmSeq) {
        var alreadyHave := SeqDiff(vmSeq, seqNo);
        if alreadyHave >= |payload| { return Arrival.Stale, 0; }
        arrival := InOrder(payload[alreadyHave..]);
        segments := DeliverInOrder(payload[alreadyHave..], answer);
      } else {
        arrival := Ahead;
        if !receiveBackpressured { BufferTCPOutOfOrder(seqNo, payload, Min(0xffff, cfg.windowSize)); }
      }
    }

    method HandleFin(p: Packet)
      modifies this`vmSeq, this`peerFin, this`life, this`wake, this`finished, this`trace, this`relaySeq
      modifies this`receiveAckPendingSegments, this`receiveAckTimer, retransmission, pacer
      ensures Snapshot() == FinPart(old(Snapshot()), p)
    {
      hide TCPConnection.Out, ScheduleAck, TakeFin, Wrap;
      if !p.hasFin { return; }
      var finSequence := Wrap(p.seqNo + |p.payload|);
      if finSequence != vmSeq {
        ScheduleTCPAck(0, true);
        return;
      }
      HandleExpectedFin();
    }

    method HandleExpectedFin()
      modifies this`vmSeq, this`peerFin, this`life, this`wake, this`finished, this`trace, this`relaySeq
      modifies this`receiveAckPendingSegments, this`receiveAckTimer, retransmission, pacer
      ensures Snapshot() == TakeFin(old(Snapshot()))
    {
      hide TCPConnection.Out, TCPConnection.In, ScheduleAck, FinishConn, ReceiveFin, WithState;
      TakePeerFin();
      ScheduleTCPAck(0, true);
      if life.finSent && !HasOutstanding() { FinishTCPConnection(); }
    }

    method TakePeerFin()
      modifies this`vmSeq, this`peerFin, this`life
      ensures Out() == WithState(old(Out()), Closing) && In() == ReceiveFin(old(In())) && peerFin
    {
      hide TCPPacer.State, TCPRetransmissionQueue.State, Wrap;
      vmSeq := Wrap(vmSeq + 1);
      peerFin := true;
      life := life.(state := Closing);
    }

    method HandlePayload(p: Packet, answer: SinkAnswer)
      modifies this, retransmission, pacer
      ensures Snapshot() == DataPart(old(Snapshot()), p, answer)
    {
      hide TCPConnection.Out, TCPConnection.In, ScheduleAck, FinPart, ReceiveData;
      if |p.payload| > 0 {
        var arrival, segments := HandleData(p.seqNo, p.payload, answer);
        AfterData(p, arrival.InOrder?, segments);
      } else {
        HandleFin(p);
      }
    }

    /** Stale and early data is acknowledged at once, and the FIN left alone. */
    method AfterData(p: Packet, inOrder: bool, segments: nat)
      modifies this, retransmission, pacer
      ensures Snapshot() == if inOrder then FinPart(ScheduleAck(old(Snapshot()), segments, false), p)
                            else ScheduleAck(old(Snapshot()), 0, true)
    {
      hide TCPConnection.Snapshot, ScheduleAck, FinPart;
      if !inOrder {
        ScheduleTCPAck(0, true);
        return;
      }
      ScheduleTCPAck(segments, false);
      HandleFin(p);
    }

    // ----- the packet handlers -----

    /** Our FIN and the peer's are both done. */
    predicate BothFinsDone()
      reads this`peerFin, this`life, retransmission
    {
      peerFin && life.finSent && !HasOutstanding()
    }

    method TrySendConnection(turns: nat -> Turn)
      requires Configured() && Mid(Snapshot())
      modifies this, retransmission, pacer
      ensures Snapshot() == TrySendConn(old(Snapshot()), turns) && ConnOk(Snapshot()) && Mid(Snapshot())
      ensures InDataState(old(Out())) ==> InDataState(Out())
    {
      hide TCPConnection.Out, TCPConnection.In, Core, TrySend, SenderOk;
      TrySendConnOk(Snapshot(), turns);
      TrySendToVM(turns);
      MidOf(Snapshot()) by { hide TCPConnection.Snapshot; }
    }

    method ResetDuplicates()
      requires Configured() && Mid(Snapshot())
      modifies this`cong
      ensures Snapshot() == old(Snapshot()).(snd := SetDuplicates(old(Out()), 0)) && Mid(Snapshot())
      ensures ConnOk(old(Snapshot())) ==> ConnOk(Snapshot())
    {
      hide Core, TCPPacer.State, TCPRetransmissionQueue.State, TCPConnection.In;
      SetDuplicatesOk(Snapshot(), 0);
      cong := cong.(dupAckCount := 0);
    }

    /** What follows the ACK part in `handleTCP`. */
    method AfterAckPart(p: Packet, acted: bool, windowChanged: bool, turns: nat -> Turn, answer: SinkAnswer)
      requires Configured() && Mid(Snapshot()) && (!acted ==> ConnOk(Snapshot())) && (windowChanged ==> acted)
      modifies this, retransmission, pacer
      ensures Snapshot() == Connection.AfterAck(old(Snapshot()), p, acted, windowChanged, turns, answer)
    {
      hide TCPConnection.Out, TCPConnection.In, Mid, ConnOk, DataPart, FinishConn, TrySendConn;
      if !life.state.Established? && !life.state.FinWait? && !life.state.Closing? { return; }
      if acted {
        if BothFinsDone() {
          FinishTCPConnection();
          return;
        }
        if windowChanged { ResetDuplicates(); }
        TrySendConnection(turns);
      }
      HandlePayload(p, answer);
    }

    /** `handleTCP` on an existing connection. */
    method HandleTCP(p: Packet, turns: nat -> Turn, answer: SinkAnswer)
      requires Configured() && ConnOk(Snapshot()) && !cfg.reverse && 0 <= p.window <= MAX_WINDOW
      modifies this, retransmission, pacer
      ensures Snapshot() == HandleOutbound(old(Snapshot()), p, turns, answer)
    {
      hide TCPConnection.Out, TCPConnection.In, Mid, ConnOk, Connection.AfterAck, AbortConn, SendPath.ProcessAck, SendPath.FastRetransmit;
      if !life.current { return; }
      if p.hasSyn && !p.hasAck {
        if life.state.SynSent? { FastRetransmit(); }
        return;
      }
      if p.hasRst {
        AbortTCPConnection(false);
        return;
      }
      MidOf(Snapshot());
      if !p.hasAck {
        if life.state.SynSent? { return; }
        AfterAckPart(p, false, false, turns, answer);
        return;
      }
      HandleTCPAck(p, turns, answer);
    }

    method HandleTCPAck(p: Packet, turns: nat -> Turn, answer: SinkAnswer)
      requires Configured() && ConnOk(Snapshot()) && !cfg.reverse && 0 <= p.window <= MAX_WINDOW
      requires p.hasAck && !p.hasRst && life.current
      modifies this, retransmission, pacer
      ensures Snapshot() == HandleOutbound(old(Snapshot()), p, turns, answer)
    {
      hide TCPConnection.Out, TCPConnection.In, ConnOk, Mid, Base, Core, Connection.AfterAck, SendPath.ProcessAck, WithState, RecoveryHasData,
        FinishedOk;
      ghost var c := Snapshot();
      QueueIsValid(c);
      AckedConn(c, p);
      var status, windowChanged := ProcessAck(p);
      ghost var a := Snapshot();
      AckedMid(c, a, status.Advanced?);
      if !status.Advanced? && !status.Duplicate? { return; }
      if life.state.SynSent? {
        if !status.Advanced? || HasOutstanding() { return; }
        EstablishedMid(a);
        Establish();
        AfterAckPart(p, true, windowChanged, turns, answer);
        return;
      }
      AfterAckPart(p, status.Advanced? || windowChanged, windowChanged, turns, answer);
    }

    /** The handshake of an outbound connection completes. */
    method Establish()
      requires Mid(Snapshot().(snd := WithState(Out(), Established)))
      modifies this`life, this`trace, this`relaySeq, this`receiveAckPendingSegments, this`receiveAckTimer
      ensures Snapshot() == Connection.SendAck(old(Snapshot()).(snd := WithState(old(Out()), Established))) && Mid(Snapshot())
    {
      hide Mid, Connection.SendAck, TCPConnection.Out, TCPConnection.In;
      SendAckOk(Snapshot().(snd := WithState(Out(), Established)));
      EnterEstablished();
      SendTCPAck();
    }

    method EnterEstablished()
      modifies this`life
      ensures Out() == WithState(old(Out()), Established)
    {
      hide TCPPacer.State, TCPRetransmissionQueue.State;
      life := life.(state := Established);
    }

    /** `handleReverseTCP` on an existing connection. */
    method HandleReverseTCP(p: Packet, mss: nat, turns: nat -> Turn, answer: SinkAnswer)
      requires Configured() && ConnOk(Snapshot()) && cfg.reverse && 0 <= p.window <= MAX_WINDOW
      modifies this, retransmission, pacer
      ensures Snapshot() == HandleReverse(old(Snapshot()), p, mss, turns, answer)
    {
      hide TCPConnection.Out, TCPConnection.In, ConnOk, Connection.SendAck, AbortConn, Connection.EstablishReverse, Connection.ReverseAckPart;
      if !life.current { return; }
      if p.hasRst {
        AbortTCPConnection(false);
        return;
      }
      if life.state.SynSent? {
        if p.hasSyn && p.hasAck { EstablishReverse(p, mss, turns); }
        return;
      }
      if p.hasSyn && p.hasAck {
        SendTCPAck();
        return;
      }
      if !life.state.Established? && !life.state.FinWait? && !life.state.Closing? { return; }
      ReverseAckPart(p, turns, answer);
    }

    method EstablishReverse(p: Packet, mss: nat, turns: nat -> Turn)
      requires Configured() && ConnOk(Snapshot()) && cfg.reverse && life.state.SynSent? && 0 <= p.window <= MAX_WINDOW
      modifies this, retransmission, pacer
      ensures Snapshot() == Connection.EstablishReverse(old(Snapshot()), p, mss, turns)
    {
      hide TCPConnection.Out, TCPConnection.In, Core, Base, SenderOk, AcknowledgeQueue, TrySendConn, Connection.SendAck,
        Connection.Synchronize, RecoveryHasData;
      ghost var c := Snapshot();
      QueueIsValid(c);
      SenderIsCore(c.snd);
      SynAcknowledged(c, p.ack);
      var status, ackedDataBytes := Acknowledge(p.ack);
      if !status.Advanced? || HasOutstanding() { return; }
      SynchronizeOk(c, Out(), p, mss);
      SynchronizeIgnores(c, Out(), p, mss);
      CompleteHandshake(p, mss, turns);
    }

    method CompleteHandshake(p: Packet, mss: nat, turns: nat -> Turn)
      requires Configured() && Mid(Connection.Synchronize(Snapshot(), Out(), p, mss))
      modifies this, retransmission, pacer
      ensures Snapshot() == TrySendConn(Connection.SendAck(Connection.Synchronize(old(Snapshot()), old(Out()), p, mss)), turns)
    {
      hide TCPConnection.Out, TCPConnection.In, Mid, TrySendConn, Connection.SendAck, Connection.Synchronize, ConnOk;
      SendAckOk(Connection.Synchronize(Snapshot(), Out(), p, mss));
      Synchronize(p, mss);
      SendTCPAck();
      TrySendConnection(turns);
    }

    /** What the SYN-ACK tells: the peer's first number, its window, its MSS. */
    method Synchronize(p: Packet, mss: nat)
      modifies this`life, this`win, this`sendMss, this`vmSeq, this`base, this`openedAt
      ensures Snapshot() == Connection.Synchronize(old(Snapshot()), old(Out()), p, mss)
    {
      hide TCPConnection.Out, TCPConnection.In, Wrap, WithState;
      SynchronizeReceiver(Wrap(p.seqNo + 1));
      SynchronizeSender(p.window, Min(cfg.tcpMss, if mss == 0 then FALLBACK_MSS else mss));
    }

    method SynchronizeReceiver(first: U32)
      modifies this`vmSeq, this`base, this`openedAt
      ensures In() == old(In()).(buf := old(In()).buf.(vmSeq := first), base := first) && openedAt == |trace|
    {
      vmSeq, base := first, first;
      openedAt := |trace|;
    }

    method SynchronizeSender(window: int, mss: int)
      modifies this`life, this`win, this`sendMss
      ensures Out() == WithState(old(Out()), Established).(win := OpeningWindow(old(win), window), sendMss := mss)
    {
      hide TCPPacer.State, TCPRetransmissionQueue.State;
      life := life.(state := Established);
      win := OpeningWindow(win, window);
      sendMss := mss;
    }

    method ReverseAckPart(p: Packet, turns: nat -> Turn, answer: SinkAnswer)
      requires Configured() && ConnOk(Snapshot()) && life.current && InDataState(Out()) && 0 <= p.window <= MAX_WINDOW
      modifies this, retransmission, pacer
      ensures Snapshot() == Connection.ReverseAckPart(old(Snapshot()), p, turns, answer)
    {
      hide TCPConnection.Out, TCPConnection.In, ConnOk, Mid, Base, Core, SendPath.ProcessAck, RecoveryHasData, FinishedOk, FinishConn,
        DataPart, Connection.DrainTwice;
      if p.hasAck {
        ghost var c := Snapshot();
        QueueIsValid(c);
        AckedConn(c, p);
        var status, windowChanged := ProcessAck(p);
        AckedMid(c, Snapshot(), status.Advanced?);
        if status.Advanced? || status.Duplicate? { AfterReverseAck(p, status.Advanced?, windowChanged, turns, answer); }
      } else {
        HandlePayload(p, answer);
      }
    }

    method AfterReverseAck(p: Packet, advanced: bool, windowChanged: bool, turns: nat -> Turn, answer: SinkAnswer)
      requires Configured() && Mid(Snapshot())
      modifies this, retransmission, pacer
      ensures var a := old(Snapshot());
        Snapshot() == if advanced && BothDone(a) then FinishConn(a)
                      else DataPart(Connection.DrainTwice(a, advanced, windowChanged, turns), p, answer)
    {
      hide TCPConnection.Out, TCPConnection.In, Mid, FinishConn, DataPart, Connection.DrainTwice;
      if advanced && BothFinsDone() {
        FinishTCPConnection();
        return;
      }
      DrainTwice(advanced, windowChanged, turns);
      HandlePayload(p, answer);
    }

    method DrainTwice(advanced: bool, windowChanged: bool, turns: nat -> Turn)
      requires Configured() && Mid(Snapshot())
      modifies this, retransmission, pacer
      ensures Snapshot() == Connection.DrainTwice(old(Snapshot()), advanced, windowChanged, turns)
    {
      hide TCPConnection.Out, TCPConnection.In, Mid, ConnOk, TrySendConn, SetDuplicates;
      if advanced { TrySendConnection(FirstDrain(turns)); }
      if windowChanged {
        ResetDuplicates();
        TrySendConnection(SecondDrain(turns));
      }
    }

    // ----- the retransmission timer -----

    method RetransmissionTimerFired(id: nat, congested: bool, open: bool)
      requires Configured() && ConnOk(Snapshot()) && id in retransmission.live
      modifies this, retransmission, pacer
      ensures Snapshot() == TimeOut(old(Snapshot()), id, congested, open)
    {
      hide TCPConnection.Out, TCPConnection.In, ConnOk, Fire, CongestionLoss, TransmitOldest, SendPath.ProbeTimer, Abort, TimeOut;
      TimeOutCases(Snapshot(), id, congested, open);
      var q := retransmission;
      if q.timeoutRetransmissions >= q.cfg.maxRetransmissions {
        GiveUp(id, open);
      } else if q.persist {
        ProbeTimer(id, congested);
        if retransmission.exhausted { AbortTCPConnection(open); }
      } else {
        ResendOnTimeout(id);
      }
    }

    /** The retry budget is used up: the queue gives up and the connection aborts. */
    method GiveUp(id: nat, open: bool)
      requires life.current
      modifies this, retransmission, pacer
      ensures Snapshot() == ClearAck(old(Snapshot())).(snd := Abort(FireQueue(old(Out()), id, Sent), old(Hdr()), open))
    {
      hide TCPConnection.Out, TCPConnection.In, Fire, Abort;
      FireTimer(id, Sent);
      AbortTCPConnection(open);
    }

    method ResendOnTimeout(id: nat)
      requires Configured()
      modifies this`cong, this`trace, this`relaySeq, retransmission, pacer
      ensures Out() == TransmitOldest(CongestionLoss(FireQueue(old(Out()), id, Sent), true), Hdr())
    {
      hide TCPConnection.Out, Fire, CongestionLoss, TransmitOldest;
      FireTimer(id, Sent);
      OnTCPCongestionLoss(true);
      ResendOldest();
    }

    method FireTimer(id: nat, probe: ProbeReply)
      modifies retransmission
      ensures Out() == FireQueue(old(Out()), id, probe)
    {
      hide TCPPacer.State, TCPRetransmissionQueue.State, Fire;
      retransmission.TimerFired(id, Returned, probe);
    }

    /** `onPersistProbe`. */
    method ProbeTimer(id: nat, congested: bool)
      modifies this`trace, this`relaySeq, this`out, this`life, this`log, retransmission
      ensures Out() == SendPath.ProbeTimer(old(Out()), Hdr(), id, congested)
    {
      hide TCPConnection.Out, Fire, Transmit, TakeQueued, ProbeTracked, ConsumeQueued, Concat;
      if !life.current || life.state.Closed? {
        FireTimer(id, ProbeClosedQueue);
      } else if congested {
        FireTimer(id, Backpressured);
      } else if HasOutstanding() {
        ProbeOldest(id);
      } else if out.bytes > 0 {
        if |Concat(out.queue)| == 0 {
          FireTimer(id, ProbeThrew);
        } else {
          ProbeByte(id);
        }
      } else if life.pendingFin {
        ProbeFin(id);
      } else {
        FireTimer(id, Sent);
      }
    }

    method ProbeOldest(id: nat)
      requires retransmission.segments != []
      modifies this`trace, this`relaySeq, retransmission
      ensures var s := old(Out());
        var g := s.rtx.segments[0];
        var flags := Flags(false, true, g.payload == [] && g.flags.fin, false, false);
        Out() == Transmit(FireQueue(s, id, Sent), Hdr(), g.payload[..Min(1, |g.payload|)], flags, g.seqNo, s.log.acked)
    {
      hide TCPPacer.State, Frames, Stamp, Fire;
      var segment := retransmission.segments[0];
      var flags := Flags(false, true, |segment.payload| == 0 && segment.flags.fin, false, false);
      FireTimer(id, Sent);
      var _ := SendFrames(segment.payload[..Min(1, |segment.payload|)], flags, segment.seqNo, log.acked);
    }

    method ProbeByte(id: nat)
      requires |Concat(out.queue)| > 0
      modifies this`trace, this`relaySeq, this`out, this`log, retransmission
      ensures var s := old(Out());
        var (chunk, left) := TakeQueued(s.out.queue, 1);
        Out() == ConsumeQueued(ProbeTracked(s.(out := s.out.(queue := left)), Hdr(), id, chunk, ACK), 1)
    {
      hide TCPPacer.State, TCPRetransmissionQueue.State, Fire, TakeQueued, Concat, ProbeTracked, ConsumeQueued;
      var chunk := TakeQueuedBytes(1);
      TakenLength(old(out.queue), 1);
      SendProbe(id, chunk.value, ACK);
      ConsumeTCPQueuedData(1);
    }

    method ProbeFin(id: nat)
      modifies this`trace, this`relaySeq, this`life, this`log, retransmission
      ensures Out() == ProbeTracked(SendingFin(old(Out())), Hdr(), id, [], ACK_FIN)
    {
      hide TCPPacer.State, TCPRetransmissionQueue.State, ProbeTracked;
      life := life.(pendingFin := false, finSent := true, state := FinWait);
      SendProbe(id, [], ACK_FIN);
    }

    /** `sendTrackedTCP` from inside the probe callback. */
    method SendProbe(id: nat, payload: seq<byte>, flags: Flags)
      requires !flags.rst && SequenceLength(payload, flags) > 0
      modifies this`trace, this`relaySeq, this`log, retransmission
      ensures Out() == ProbeTracked(old(Out()), Hdr(), id, payload, flags)
    {
      hide TCPPacer.State, TCPRetransmissionQueue.State, Frames, Stamp, Fire, RP.Items, Wrap;
      var first := relaySeq;
      var _ := SendTCP(payload, flags, relaySeq, |log.tracked|, true);
      FireTimer(id, SentTracked(first, payload, flags));
      log := GrowLog(log, payload, flags);
    }

    // ----- every other event -----

    method OnSourceData(data: seq<byte>, turns: nat -> Turn)
      requires Configured() && ConnOk(Snapshot()) && data != [] && (life.current ==> !life.finSent)
      modifies this, retransmission, pacer
      ensures Snapshot() == TakeData(old(Snapshot()), data, turns)
    {
      hide TCPConnection.Out, TCPConnection.In, Core, SenderOk, TrySendConn, Enqueue;
      if !life.current { return; }
      EnqueueKeeps(Out(), data);
      NotFinished(Snapshot());
      EnqueueTCPData(data);
      TrySendConnection(turns);
    }

    method OnSourceEnd(turns: nat -> Turn)
      requires Configured() && ConnOk(Snapshot())
      modifies this, retransmission, pacer
      ensures Snapshot() == TakeEnd(old(Snapshot()), turns)
    {
      hide TCPConnection.In, TCPPacer.State, TCPRetransmissionQueue.State, Core, SenderOk, TrySendConn;
      if !life.current || life.state.Closed? { return; }
      EndSourceKeeps(Out());
      NotFinished(Snapshot());
      life := life.(pendingFin := true);
      log := log.(ended := true);
      TrySendConnection(turns);
    }

    method OnSinkDrain()
      modifies this`receiveBackpressured, this`trace, this`relaySeq, this`receiveAckPendingSegments, this`receiveAckTimer
      ensures Snapshot() == SinkReady(old(Snapshot()))
    {
      hide TCPConnection.Out, TCPConnection.In, ScheduleAck;
      if !life.current || !receiveBackpressured { return; }
      ClearBackpressure();
      ScheduleTCPAck(0, true);
    }

    method ClearBackpressure()
      modifies this`receiveBackpressured
      ensures In() == old(In()).(backpressured := false)
    {
      receiveBackpressured := false;
    }

    method OnAckTimer()
      modifies this`trace, this`relaySeq, this`receiveAckPendingSegments, this`receiveAckTimer
      ensures Snapshot() == AckDue(old(Snapshot()))
    {
      hide TCPConnection.Out, TCPConnection.In, Connection.SendAck;
      receiveAckTimer := false;
      if !life.state.Closed? && receiveAckPendingSegments > 0 { SendTCPAck(); }
    }

    // ----- the wake-ups -----

    method OnPacerTimer(turns: nat -> Turn)
      requires Configured() && ConnOk(Snapshot())
      modifies this, retransmission, pacer
      ensures Snapshot() == Resumed(old(Snapshot()), old(Out()).(pacer := P.TimerFires(old(Out()).pacer)), turns)
    {
      hide TCPConnection.In, TCPPacer.State, TCPRetransmissionQueue.State, Core, TrySendConn, P.TimerFires;
      SenderIsCore(Out());
      PacerResumes(Out());
      pacer.TimerFired();
      TrySendConnection(turns);
    }

    /** A transport waiter is told that queued frames were flushed, or a resume
        asked for by `setImmediate` or `setTimeout` is due. */
    method OnWake(wakers: Wakers, turns: nat -> Turn)
      requires Configured() && ConnOk(Snapshot()) && !wakers.sending
      modifies this, retransmission, pacer
      ensures Snapshot() == Resumed(old(Snapshot()), old(Out()).(wake := wakers), turns)
    {
      hide TCPConnection.In, TCPPacer.State, TCPRetransmissionQueue.State, Core, TrySendConn;
      SenderIsCore(Out());
      WakersKeep(Out(), wakers);
      wake := wakers;
      TrySendConnection(turns);
    }

    /** One event, whichever it is, is one step of the state machine, and unless
        it puts something behind the FIN every run theorem goes on from there. */
    method Handle(e: Event)
      requires Configured() && ConnOk(Snapshot()) && Enabled(Snapshot(), e) && !DataAfterFin(Snapshot(), e)
      modifies this, retransmission, pacer
      ensures Snapshot() == Step(old(Snapshot()), e)
      ensures !SendsAnotherFin(old(Snapshot()), e) ==> ConnOk(Snapshot())
    {
      hide TCPConnection.Out, TCPConnection.In, ConnOk, HandleReverse, HandleOutbound, TakeData, TakeEnd, TimeOut, SinkReady, AckDue,
        AbortConn, TrySendConn;
      if !SendsAnotherFin(Snapshot(), e) { StepKeepsOk(Snapshot(), e); }
      NotSending(Snapshot());
      match e {
        case SourceData(data, turns) => OnSourceData(data, turns);
        case SourceEnd(turns) => OnSourceEnd(turns);
        case Arrives(p, mss, turns, answer) =>
          if cfg.reverse { HandleReverseTCP(p, mss, turns, answer); } else { HandleTCP(p, turns, answer); }
        case RetransmissionTimerFires(id, congested, open) => RetransmissionTimerFired(id, congested, open);
        case PacerTimerFires(turns) => OnPacerTimer(turns);
        case TransportFlushed => OnTransportFlushed();
        case ImmediateRuns(turns) => OnWake(wake.(immediates := Max(0, wake.immediates - 1)), turns);
        case RetryTimerFires(turns) => OnWake(wake.(retries := Max(0, wake.retries - 1)), turns);
        case SinkDrains => OnSinkDrain();
        case AckTimerFires => OnAckTimer();
        case Fails(open) => AbortTCPConnection(open);
        case Expires => OnExpired();
      }
    }

    method OnTransportFlushed()
      modifies this`wake
      ensures Out() == WithWake(old(Out()), old(wake).(waiting := false, immediates := old(wake).immediates + 1))
    {
      hide TCPPacer.State, TCPRetransmissionQueue.State;
      wake := wake.(waiting := false, immediates := wake.immediates + 1);
    }

    method OnExpired()
      modifies this`life
      ensures Out() == old(Out()).(life := old(life).(current := false))
    {
      hide TCPPacer.State, TCPRetransmissionQueue.State;
      life := life.(current := false);
    }
  }
}
