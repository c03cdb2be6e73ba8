/** What every reachable sending half satisfies, and that segmentation carries
    exactly the stream. */
module SendInvariant {
  import opened Bytes
  import opened SequenceNumbers
  import opened Retransmission
  import opened RetransmissionProofs
  import opened SendPath
  import P = Pacing

  // ----- what frames carry -----

  function FrameItems(f: Frame): seq<Item> { Items(f.payload, f.flags.syn, f.flags.fin) }

  /** The frame travels under the sequence number of its position, and its
      items are exactly those the stream has there. */
  predicate Carries(iss: int, tracked: seq<Item>, e: Emission) {
    && e.frame.seqNo == Wrap(iss + e.pos)
    && e.pos + FrameLength(e.frame) <= |tracked|
    && FrameItems(e.frame) == tracked[e.pos..e.pos + FrameLength(e.frame)]
  }

  predicate AllCarry(iss: int, tracked: seq<Item>, trace: seq<Emission>) {
    forall i :: 0 <= i < |trace| ==> Carries(iss, tracked, trace[i])
  }

  lemma AllCarryGrows(iss: int, tracked: seq<Item>, more: seq<Item>, trace: seq<Emission>)
    requires AllCarry(iss, tracked, trace)
    ensures AllCarry(iss, tracked + more, trace)
  {
    forall i | 0 <= i < |trace| ensures Carries(iss, tracked + more, trace[i]) {
      var e := trace[i];
      assert Carries(iss, tracked, e);
      assert (tracked + more)[e.pos..e.pos + FrameLength(e.frame)] == tracked[e.pos..e.pos + FrameLength(e.frame)];
    }
  }

  lemma AllCarryAppend(iss: int, tracked: seq<Item>, a: seq<Emission>, b: seq<Emission>)
    requires AllCarry(iss, tracked, a) && AllCarry(iss, tracked, b)
    ensures AllCarry(iss, tracked, a + b)
  {
  }

  lemma SliceOfConcat<T>(whole: seq<T>, from: nat, a: seq<T>, b: seq<T>)
    requires from + |a| + |b| <= |whole| && whole[from..from + |a| + |b|] == a + b
    ensures whole[from..from + |a|] == a && whole[from + |a|..from + |a| + |b|] == b
  {
    var w := whole[from..from + |a| + |b|];
    assert whole[from..from + |a|] == w[..|a|] && whole[from + |a|..from + |a| + |b|] == w[|a|..];
  }

  /** Segmentation: whatever the payload length, the frames of `sendTCP` lie end
      to end and carry exactly the items of the payload with its SYN and FIN. */
  lemma {:induction false} SegmentationCarries(
    payload: seq<byte>, mss: int, flags: Flags, header: Header, iss: int, pos: nat, tracked: seq<Item>)
    requires mss > 0
    requires pos + SequenceLength(payload, flags) <= |tracked|
    requires tracked[pos..pos + SequenceLength(payload, flags)] == Items(payload, flags.syn, flags.fin)
    ensures AllCarry(iss, tracked, Stamp(pos, Frames(payload, mss, flags, Wrap(iss + pos), header)))
    decreases |payload|
  {
    hide Items, Wrap, AllCarry, Stamp;
    if |payload| <= mss {
      OneFrameCarries(Frame(Wrap(iss + pos), header, flags, payload), iss, pos, tracked);
    } else {
      CutStream(payload, flags, mss, pos, tracked);
      FirstFrameCarries(payload, mss, flags, header, iss, pos, tracked);
      hide Frames;
      var m := SequenceLength(payload[..mss], flags.(psh := false, fin := false));
      SegmentationCarries(payload[mss..], mss, flags.(syn := false), header, iss, pos + m, tracked);
    }
  }

  lemma CutStream(payload: seq<byte>, flags: Flags, n: nat, pos: nat, tracked: seq<Item>)
    requires n <= |payload| && pos + SequenceLength(payload, flags) <= |tracked|
    requires tracked[pos..pos + SequenceLength(payload, flags)] == Items(payload, flags.syn, flags.fin)
    ensures var head, tail := flags.(psh := false, fin := false), flags.(syn := false);
      var m := SequenceLength(payload[..n], head);
      && tracked[pos..pos + m] == Items(payload[..n], flags.syn, false)
      && pos + m + SequenceLength(payload[n..], tail) <= |tracked|
      && tracked[pos + m..pos + m + SequenceLength(payload[n..], tail)] == Items(payload[n..], false, flags.fin)
  {
    CutPayload(payload, flags.syn, flags.fin, n);
    SliceOfConcat(tracked, pos, Items(payload[..n], flags.syn, false), Items(payload[n..], false, flags.fin));
  }

  /** The step of the segmentation theorem: the first frame carries, so all do if the rest do. */
  lemma FirstFrameCarries(
    payload: seq<byte>, mss: int, flags: Flags, header: Header, iss: int, pos: nat, tracked: seq<Item>)
    requires 0 < mss < |payload|
    requires var m := SequenceLength(payload[..mss], flags.(psh := false, fin := false));
      && pos + m <= |tracked| && tracked[pos..pos + m] == Items(payload[..mss], flags.syn, false)
    ensures var m := SequenceLength(payload[..mss], flags.(psh := false, fin := false));
      var rest := Frames(payload[mss..], mss, flags.(syn := false), Wrap(iss + (pos + m)), header);
      AllCarry(iss, tracked, Stamp(pos + m, rest)) ==>
        AllCarry(iss, tracked, Stamp(pos, Frames(payload, mss, flags, Wrap(iss + pos), header)))
  {
    var head := flags.(psh := false, fin := false);
    var m := SequenceLength(payload[..mss], head);
    var first := Frame(Wrap(iss + pos), header, head, payload[..mss]);
    WrapAdd(iss + pos, m);
    var rest := Frames(payload[mss..], mss, flags.(syn := false), Wrap(iss + (pos + m)), header);
    assert Frames(payload, mss, flags, Wrap(iss + pos), header) == [first] + rest;
    StampCons(pos, first, rest);
    assert Carries(iss, tracked, Emission(pos, first));
    hide Carries, Items, Wrap, Frames;
    if AllCarry(iss, tracked, Stamp(pos + m, rest)) {
      AllCarryAppend(iss, tracked, [Emission(pos, first)], Stamp(pos + m, rest));
    }
  }

  lemma OneFrameCarries(f: Frame, iss: int, pos: nat, tracked: seq<Item>)
    requires pos + FrameLength(f) <= |tracked| && f.seqNo == Wrap(iss + pos)
    requires tracked[pos..pos + FrameLength(f)] == FrameItems(f)
    ensures AllCarry(iss, tracked, Stamp(pos, [f]))
  {
    hide Items, Wrap;
    StampOne(pos, f);
  }

  /** No frame carries more than the MSS, and every one carries the header. */
  lemma {:induction false} FramesRespectMss(payload: seq<byte>, mss: int, flags: Flags, seqNo: U32, header: Header)
    requires mss > 0
    ensures forall f <- Frames(payload, mss, flags, seqNo, header) :: |f.payload| <= mss && f.header == header
    decreases |payload|
  {
    if |payload| > mss {
      var head := flags.(psh := false, fin := false);
      FramesRespectMss(payload[mss..], mss, flags.(syn := false), Wrap(seqNo + SequenceLength(payload[..mss], head)), header);
    }
  }

  lemma StampOne(pos: nat, f: Frame)
    ensures Stamp(pos, [f]) == [Emission(pos, f)]
  {
    assert [f][1..] == [];
  }

  lemma StampCons(pos: nat, f: Frame, rest: seq<Frame>)
    ensures Stamp(pos, [f] + rest) == [Emission(pos, f)] + Stamp(pos + FrameLength(f), rest)
  {
    assert ([f] + rest)[1..] == rest;
  }

  // ----- the invariant -----

  /** The stream of items that `bytes` and a FIN make: SYN, bytes, FIN. */
  function Wire(bytes: seq<byte>, fin: bool): seq<Item> { Items(bytes, true, fin) }

  /** The queued bytes are counted, and no chunk is empty. */
  predicate QueueCounted(out: Outbox) {
    // `true ==` makes the conjunction one fact, which a caller proves at once and not clause by clause.
    true == (
    && out.bytes == |Concat(out.queue)|
    && forall chunk <- out.queue :: chunk != [])
  }

  /** Acknowledged, outstanding and queued together are the enqueued stream, in
      order; the FIN comes last, once, after the source ended. A FIN may be
      requested again after that. */
  predicate Conserved(log: History, queue: seq<seq<byte>>, life: Life) {
    true == (
    && log.tracked == Wire(BytesOf(log.tracked), life.finSent)
    && BytesOf(log.tracked) + Concat(queue) == log.stream
    && (life.finSent ==> queue == [] && log.ended)
    && (life.pendingFin ==> log.ended)
    && (log.ended && !life.finSent && !life.state.Closed? ==> life.pendingFin))
  }

  /** The retransmission queue holds exactly the unacknowledged items, under
      their sequence numbers, and new data continues where it ends. */
  predicate Sequenced(q: Queue, log: History, relaySeq: U32) {
    true == (
    && Valid(q)
    && log.acked <= |log.tracked|
    && q.sndUna == Wrap(log.iss + log.acked)
    && q.sndNxt == Wrap(log.iss + |log.tracked|) == relaySeq
    && (!q.closed ==> Flatten(q.segments) == log.tracked[log.acked..]))
  }

  /** Every frame ever sent carries what the stream has at its position. */
  predicate Consistent(log: History, trace: seq<Emission>) { AllCarry(log.iss, log.tracked, trace) }

  predicate LifeCycle(s: Sender) {
    true == (
    && !s.life.thrown
    && (!s.life.current ==> s.life.state.Closed?)
    && (s.life.state.Closed? <==> s.rtx.closed)
    && (s.pacer.past.closed ==> s.life.state.Closed?)
    && (!s.life.state.Closed? ==> !s.rtx.exhausted)
    && (s.life.state.Closed? && s.life.current ==> s.log.acked == |s.log.tracked| && s.life.finSent)
    && (s.life.state.SynSent? ==>
          |s.log.tracked| == 1 && !s.rtx.persist && s.cong.recoveryUntil.None? && s.cong.window <= s.cfg.windowSize))
  }

  function CwndCap(s: Sender): int { Max(Max(s.cfg.windowSize, 2 * TcpMss(s)), MAX_WINDOW / 2) }

  /** The window after the reports, one by one. */
  function Told(start: Shown, reports: seq<Report>): Shown {
    if reports == [] then start
    else
      var r := reports[|reports| - 1];
      NextWindow(Told(start, reports[..|reports| - 1]), r.seqNo, r.ack, r.window)
  }

  /** The window is what the reports since the opening say. */
  predicate WindowTold(win: PeerWindow) {
    win.start.update.None? && Shown(win.size, win.update) == Told(win.start, win.reports)
  }

  /** A reverse connection does not listen for windows before its SYN-ACK. */
  predicate TakesWindows(s: Sender) { s.cfg.reverse ==> !s.life.state.SynSent? }

  /** Flow and congestion: a bounded amount in flight, a bounded congestion
      window, and recovery that always ends at the next new sequence number. */
  predicate Bounded(s: Sender) {
    true == (
    && s.rtx.payloadBytesInFlight <= MAX_WINDOW
    && 0 <= s.win.size && (s.win.size <= MAX_WINDOW || (s.cfg.reverse && (s.life.state.SynSent? || s.life.state.Closed?)))
    && WindowTold(s.win) && (!TakesWindows(s) ==> s.win.reports == [])
    && 1 <= s.cong.window <= CwndCap(s)
    && (s.cong.recoveryUntil.Some? ==> s.cong.recoveryUntil.value == s.rtx.sndNxt))
  }

  predicate Base(s: Sender) {
    true == (
    && s.cfg.Valid()
    && QueueCounted(s.out)
    && Conserved(s.log, s.out.queue, s.life)
    && Sequenced(s.rtx, s.log, s.relaySeq)
    && Consistent(s.log, s.trace)
    && P.PacerOk(s.pacer)
    && LifeCycle(s)
    && Bounded(s))
  }

  /** The SYN is acknowledged exactly when the handshake is over. */
  predicate Handshaken(s: Sender) {
    && (s.life.state.SynSent? ==> s.log.acked == 0)
    && (!s.life.state.SynSent? && !s.life.state.Closed? ==> s.log.acked >= 1)
  }

  /** Recovery outlives its data only when nothing but the FIN was left. */
  predicate RecoveryHasData(s: Sender) {
    s.cong.recoveryUntil.Some? && s.rtx.segments == [] ==> s.life.finSent || s.life.state.Closed?
  }

  predicate Core(s: Sender) { true == (Base(s) && Handshaken(s) && RecoveryHasData(s)) }

  /** A FIN was requested and not sent. */
  predicate FinWaits(s: Sender) { s.life.pendingFin && !s.life.finSent }

  /** Something will call the drain loop again. */
  predicate Armed(s: Sender) {
    s.rtx.timer.Some? || s.pacer.timer.Some? || s.wake.waiting || s.wake.retries > 0 || s.wake.immediates > 0
  }

  /** Something besides the retransmission timer will call it. */
  predicate Resuming(s: Sender) {
    s.pacer.blocked || s.wake.waiting || s.wake.retries > 0 || s.wake.immediates > 0
  }

  /** A loss response is under way: not everything outstanding at the loss is
      acknowledged yet. */
  predicate InRecovery(s: Sender) { s.cong.recoveryUntil.Some? && s.log.acked < |s.log.tracked| }

  /** Nothing more may go out: a loss is being recovered from, or the windows are
      used up. The FIN respects the VM's window only. */
  predicate Full(s: Sender) {
    || InRecovery(s)
    || (if s.out.queue != [] then SendLimit(s) <= s.rtx.payloadBytesInFlight
        else FinWaits(s) ==> s.win.size <= s.rtx.payloadBytesInFlight)
  }

  /** Between events an open connection leaves no window unused. */
  predicate NoIdleWindow(s: Sender) {
    !s.life.state.SynSent? && !s.life.state.Closed? && !Resuming(s) ==> Full(s)
  }

  /** No lost wake-up: no drain is under way, and whatever waits to be sent on
      an open connection has something armed to send it. */
  predicate Wakeful(s: Sender) {
    && !s.wake.sending
    && (!s.life.state.Closed? && (s.out.queue != [] || FinWaits(s)) ==> Armed(s))
    && NoIdleWindow(s)
  }

  predicate SenderOk(s: Sender) { Core(s) && Wakeful(s) }
}
