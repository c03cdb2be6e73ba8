/** The sending half of a relay connection (relay.js): segmentation, the drain
    loop, retransmission callbacks, congestion control and the FIN, as total
    functions on a value. `thrown` records an exception nothing catches. `log`
    and `trace` are history: what was enqueued, what was given sequence space,
    how much of that was acknowledged, and every frame put on the wire. */
module SendPath {
  import opened Bytes
  import opened SequenceNumbers
  import opened Retransmission
  import P = Pacing
  import RP = RetransmissionProofs

  /** Configuration constants of relay.js:58-177. */
  datatype Setup = Setup(
    tcpMss: int,
    windowSize: int,
    initialCwnd: int,
    highWater: int,
    ackEvery: int,
    ackDelayMs: int,
    rto: Config,
    pacing: P.Settings,
    reverse: bool)
  {
    predicate Valid() {
      && 536 <= tcpMss <= 65495 && 1 <= windowSize && (reverse || windowSize <= MAX_WINDOW) && 1460 <= initialCwnd && 1460 <= highWater
      && 1 <= ackEvery && 0 <= ackDelayMs && rto.Valid() && pacing.Valid()
    }
  }

  const FALLBACK_MSS := 536
  const MAX_WINDOW := 0xffff

  datatype TcpState = SynSent | Established | FinWait | Closing | Closed

  /** The acknowledgement number and window every outgoing frame carries. */
  datatype Header = Header(ack: U32, window: int)

  datatype Frame = Frame(seqNo: U32, header: Header, flags: Flags, payload: seq<byte>)

  /** A frame on the wire and the stream position of its first item. */
  datatype Emission = Emission(pos: nat, frame: Frame)

  /** What the surroundings answer on one pass of the drain loop: whether the
      WebSocket holds over 32768 bytes, what the rate limiter says, the clock. */
  datatype Turn = Turn(congested: bool, admitted: bool, now: int)

  /** An incoming TCP segment. */
  datatype Packet = Packet(seqNo: U32, ack: U32, window: int, hasSyn: bool, hasAck: bool, hasFin: bool, hasRst: bool,
                           payload: seq<byte>)

  /** Chunks waiting for sequence space. */
  datatype Outbox = Outbox(queue: seq<seq<byte>>, bytes: int, sourcePaused: bool)

  /** The VM's window and the numbers of the segment it came with. */
  datatype Shown = Shown(size: int, update: Option<(U32, U32)>)

  /** What an accepted acknowledgement says about the window. */
  datatype Report = Report(seqNo: U32, ack: U32, window: int)

  /** `start` and `reports` are history: the window the connection was opened
      with, and the accepted acknowledgements since. */
  datatype PeerWindow = PeerWindow(size: int, update: Option<(U32, U32)>, start: Shown, reports: seq<Report>)

  datatype Congestion = Congestion(window: int, threshold: int, recoveryUntil: Option<U32>,
                                   fastRetransmitAck: Option<U32>, dupAckCount: int)

  /** Whether the drain loop runs, and what will call it again: a transport
      waiter, immediate resumes, rate-limit timeouts. */
  datatype Wakers = Wakers(sending: bool, waiting: bool, immediates: nat, retries: nat)

  datatype Life = Life(state: TcpState, current: bool, pendingFin: bool, finSent: bool, thrown: bool)

  datatype History = History(iss: int, acked: nat, tracked: seq<Item>, stream: seq<byte>, ended: bool)

  datatype Sender = Sender(
    cfg: Setup,
    rtx: Queue,
    pacer: P.Pacer,
    relaySeq: U32,
    sendMss: int,
    win: PeerWindow,
    out: Outbox,
    cong: Congestion,
    wake: Wakers,
    life: Life,
    log: History,
    trace: seq<Emission>)

  const ACK := Flags(false, true, false, false, false)
  const ACK_PSH := Flags(false, true, false, false, true)
  const ACK_FIN := Flags(false, true, true, false, false)
  const ACK_RST := Flags(false, true, false, true, false)

  function TcpMss(s: Sender): int {
    Max(1, Min(s.cfg.tcpMss, if s.sendMss == 0 then FALLBACK_MSS else s.sendMss))
  }

  function SendLimit(s: Sender): int {
    Max(0, Min(s.win.size, if s.cong.window == 0 then s.cfg.initialCwnd else s.cong.window))
  }

  // ----- frames -----

  function FrameLength(f: Frame): nat { SequenceLength(f.payload, f.flags) }

  /** The frames `sendTCP` cuts a payload into: SYN only on the first, PSH and
      FIN only on the last. */
  function Frames(payload: seq<byte>, mss: int, flags: Flags, seqNo: U32, header: Header): seq<Frame>
    requires mss > 0
    decreases |payload|
  {
    if |payload| <= mss then [Frame(seqNo, header, flags, payload)]
    else
      var head := flags.(psh := false, fin := false);
      [Frame(seqNo, header, head, payload[..mss])] +
      Frames(payload[mss..], mss, flags.(syn := false), Wrap(seqNo + SequenceLength(payload[..mss], head)), header)
  }

  function Stamp(pos: nat, frames: seq<Frame>): seq<Emission>
    decreases |frames|
  {
    if frames == [] then []
    else [Emission(pos, frames[0])] + Stamp(pos + FrameLength(frames[0]), frames[1..])
  }

  /** A SYN-ACK advertises the configured window, whatever is buffered. */
  function HeaderFor(s: Sender, flags: Flags, header: Header): Header {
    if flags.syn && flags.ack then header.(window := s.cfg.windowSize) else header
  }

  function Transmit(s: Sender, header: Header, payload: seq<byte>, flags: Flags, seqNo: U32, pos: nat): Sender {
    s.(trace := s.trace + Stamp(pos, Frames(payload, TcpMss(s), flags, seqNo, HeaderFor(s, flags, header))))
  }

  /** A frame that takes no sequence space: a pure ACK, or a reset. */
  function TransmitBare(s: Sender, header: Header, flags: Flags): Sender {
    Transmit(s, header, [], flags, s.relaySeq, |s.log.tracked|)
  }

  /** Resend the oldest outstanding segment as it stands. */
  function TransmitOldest(s: Sender, header: Header): Sender {
    if s.rtx.segments == [] then s
    else
      var g := s.rtx.segments[0];
      Transmit(s, header, g.payload, g.flags, g.seqNo, s.log.acked)
  }

  function TrackFrames(q: Queue, frames: seq<Frame>): (Queue, bool)
    decreases |frames|
  {
    if frames == [] then (q, false)
    else
      var (q', status) := Track(q, frames[0].seqNo, frames[0].payload, frames[0].flags);
      if status.TrackThrewClosed? || status.TrackThrewNonContiguous? then (q', true)
      else TrackFrames(q', frames[1..])
  }

  function GrowLog(h: History, payload: seq<byte>, flags: Flags): History {
    h.(tracked := h.tracked + RP.Items(payload, flags.syn, flags.fin))
  }

  /** `sendTrackedTCP` at the next sequence number. */
  function SendTracked(s: Sender, header: Header, payload: seq<byte>, flags: Flags): Sender {
    var t := Transmit(s, header, payload, flags, s.relaySeq, |s.log.tracked|);
    var (q, threw) := TrackFrames(s.rtx, Frames(payload, TcpMss(s), flags, s.relaySeq, HeaderFor(s, flags, header)));
    t.(relaySeq := Wrap(s.relaySeq + SequenceLength(payload, flags)),
       rtx := q,
       life := s.life.(thrown := s.life.thrown || threw),
       log := if threw then s.log else GrowLog(s.log, payload, flags))
  }

  // ----- the send queue -----

  function Enqueue(s: Sender, data: seq<byte>): Sender {
    var bytes := s.out.bytes + |data|;
    s.(out := Outbox(s.out.queue + [data], bytes, s.out.sourcePaused || bytes >= s.cfg.highWater),
       log := s.log.(stream := s.log.stream + data))
  }

  function ConsumeQueued(s: Sender, bytes: nat): Sender {
    var left := Max(0, s.out.bytes - bytes);
    s.(out := s.out.(bytes := left, sourcePaused := s.out.sourcePaused && left > s.cfg.highWater / 2))
  }

  /** `takeQueuedBytes`: the first `length` queued bytes and the chunks left. */
  function TakeQueued(queue: seq<seq<byte>>, length: nat): (seq<byte>, seq<seq<byte>>)
    requires length <= |Concat(queue)|
  {
    if length == 0 || queue == [] then ([], queue)
    else if |queue[0]| > length then (queue[0][..length], [queue[0][length..]] + queue[1..])
    else
      var (rest, left) := TakeQueued(queue[1..], length - |queue[0]|);
      (queue[0] + rest, left)
  }

  function SendQueued(s: Sender, header: Header, length: nat, flags: Flags): (r: Sender)
    ensures !r.life.thrown ==> r.out.bytes == Max(0, s.out.bytes - length)
  {
    if length > |Concat(s.out.queue)| then s.(life := s.life.(thrown := true))
    else
      var (chunk, left) := TakeQueued(s.out.queue, length);
      ConsumeQueued(SendTracked(s.(out := s.out.(queue := left)), header, chunk, flags), length)
  }

  // ----- congestion control -----

  function CongestionLoss(s: Sender, timeout: bool): Sender {
    var inFlight := s.rtx.payloadBytesInFlight;
    if inFlight == 0 then s
    else
      var threshold := Max(2 * TcpMss(s), inFlight / 2);
      s.(cong := Congestion(if timeout then TcpMss(s) else threshold, threshold, Some(s.rtx.sndNxt), Some(s.rtx.sndUna),
                            s.cong.dupAckCount),
         pacer := P.NoteLoss(s.pacer))
  }

  predicate RecoveryComplete(until: U32, acknowledged: U32) {
    acknowledged == until || SeqLessThan(until, acknowledged)
  }

  /** `isTCPCongestionRecoveryActive` clears a finished recovery; afterwards
      recovery is active exactly when `recoveryUntil` is set. */
  function EndFinishedRecovery(s: Sender): Sender {
    if s.cong.recoveryUntil.Some? && RecoveryComplete(s.cong.recoveryUntil.value, s.rtx.sndUna) then
      s.(cong := s.cong.(recoveryUntil := None))
    else s
  }

  function GrowWindow(s: Sender, ackedDataBytes: int): int {
    var current := Max(TcpMss(s), s.cong.window);
    Min(s.cfg.windowSize, current + Max(1, (TcpMss(s) * ackedDataBytes) / current))
  }

  function CongestionAck(s: Sender, header: Header, ackedDataBytes: int, ack: U32): Sender {
    if ackedDataBytes <= 0 then s
    else if s.cong.recoveryUntil.Some? then
      if RecoveryComplete(s.cong.recoveryUntil.value, ack) then s.(cong := s.cong.(recoveryUntil := None))
      else if s.rtx.segments == [] then s
      else TransmitOldest(s.(cong := s.cong.(fastRetransmitAck := Some(s.rtx.sndUna))), header)
    else
      var w := GrowWindow(s, ackedDataBytes);
      s.(cong := s.cong.(window := w), pacer := P.NoteAck(s.pacer, ackedDataBytes, w))
  }

  // ----- retransmission-queue operations with their callbacks -----

  function SetPersist(s: Sender, header: Header, enabled: bool): Sender {
    var s' := s.(rtx := Retransmission.SetPersist(s.rtx, enabled, Returned));
    if ReopensWindow(s.rtx, enabled) then TransmitOldest(s', header) else s'
  }

  function FastRetransmit(s: Sender, header: Header): Sender {
    var s' := s.(rtx := Retransmission.FastRetransmit(s.rtx, Returned).0);
    if CanFastRetransmit(s.rtx) then TransmitOldest(CongestionLoss(s', false), header) else s'
  }

  datatype TimerMeans = Outdated | GiveUp | SendsProbe | Resends

  /** Which branch the timer closure takes. */
  function TimerBranch(q: Queue, id: nat): TimerMeans {
    if id != q.timerGeneration || q.closed || q.exhausted || !(q.persist || q.segments != []) then Outdated
    else if q.timeoutRetransmissions >= q.cfg.maxRetransmissions then GiveUp
    else if q.persist then SendsProbe
    else Resends
  }

  function FireQueue(s: Sender, id: nat, probe: ProbeReply): Sender {
    s.(rtx := Fire(s.rtx, id, Returned, probe))
  }

  /** `onPersistProbe` (relay.js:691-714). */
  function ProbeTimer(s: Sender, header: Header, id: nat, congested: bool): Sender {
    if !s.life.current || s.life.state.Closed? then FireQueue(s, id, ProbeClosedQueue)
    else if congested then FireQueue(s, id, Backpressured)
    else if s.rtx.segments != [] then
      var g := s.rtx.segments[0];
      var flags := Flags(false, true, g.payload == [] && g.flags.fin, false, false);
      Transmit(FireQueue(s, id, Sent), header, g.payload[..Min(1, |g.payload|)], flags, g.seqNo, s.log.acked)
    else if s.out.bytes > 0 then
      if |Concat(s.out.queue)| == 0 then FireQueue(s, id, ProbeThrew)
      else
        var (chunk, left) := TakeQueued(s.out.queue, 1);
        ConsumeQueued(ProbeTracked(s.(out := s.out.(queue := left)), header, id, chunk, ACK), 1)
    else if s.life.pendingFin then
      ProbeTracked(SendingFin(s), header, id, [], ACK_FIN)
    else FireQueue(s, id, Sent)
  }

  /** A probe that is itself new sequence space: one queued byte, or the FIN. */
  function ProbeTracked(s: Sender, header: Header, id: nat, payload: seq<byte>, flags: Flags): Sender {
    var t := Transmit(s, header, payload, flags, s.relaySeq, |s.log.tracked|);
    FireQueue(t, id, SentTracked(s.relaySeq, payload, flags))
    .(relaySeq := Wrap(s.relaySeq + SequenceLength(payload, flags)),
      log := GrowLog(s.log, payload, flags))
  }

  /** The retransmission timer fires; `open` says whether a reset can be sent. */
  function RetransmissionTimer(s: Sender, header: Header, id: nat, congested: bool, open: bool): Sender {
    match TimerBranch(s.rtx, id)
    case Outdated => FireQueue(s, id, Sent)
    case GiveUp => Abort(FireQueue(s, id, Sent), header, open)
    case SendsProbe =>
      var t := ProbeTimer(s, header, id, congested);
      if t.rtx.exhausted then Abort(t, header, open) else t
    case Resends => TransmitOldest(CongestionLoss(FireQueue(s, id, Sent), true), header)
  }

  // ----- ending -----

  function Abort(s: Sender, header: Header, reset: bool): Sender {
    if !s.life.current then s
    else
      var t := if reset then TransmitBare(s, header, ACK_RST) else s;
      t.(life := s.life.(state := Closed, current := false), wake := s.wake.(waiting := false),
          pacer := P.ClosePacer(s.pacer), rtx := Close(s.rtx))
  }

  /** `finish*Connection`; an outbound connection stays in its table for two seconds. */
  function Finish(s: Sender): Sender {
    if !s.life.current then s
    else s.(life := s.life.(state := Closed, current := !s.cfg.reverse), wake := s.wake.(waiting := false),
            pacer := P.ClosePacer(s.pacer), rtx := Close(s.rtx))
  }

  function SendingFin(s: Sender): Sender {
    s.(life := s.life.(pendingFin := false, finSent := true, state := FinWait))
  }

  function MaybeFin(s: Sender, header: Header): Sender {
    if !s.life.pendingFin || s.life.finSent || s.out.queue != [] || s.rtx.payloadBytesInFlight >= s.win.size then s
    else
      var r := EndFinishedRecovery(s);
      if r.cong.recoveryUntil.Some? || !r.life.current then r
      else SendTracked(SendingFin(r), header, [], ACK_FIN)
  }

  // ----- the drain loop -----

  function Idle(s: Sender): Sender { s.(wake := s.wake.(sending := false)) }

  predicate PacerStops(p: P.Pacer) { !P.IsOff(p) && p.blocked }

  function Available(s: Sender): int {
    if s.cong.recoveryUntil.Some? then 0 else Max(0, SendLimit(s) - s.rtx.payloadBytesInFlight)
  }

  function ChunkSize(s: Sender): int { Min(Min(TcpMss(s), s.out.bytes), Available(s)) }

  /** What follows a chunk that was sent out of `available` bytes of window. */
  function AfterChunk(s: Sender, header: Header, available: int, length: nat, now: int, sentBefore: nat)
    : (r: (Sender, bool))
    ensures r.1 ==> r.0.out.bytes == s.out.bytes
  {
    var p := s.(pacer := P.NoteSegment(s.pacer, now));
    if PacerStops(p.pacer) then (Idle(p), false)
    else if p.out.queue == [] || available <= length then (MaybeFin(Idle(p), header), false)
    else if P.IsOff(p.pacer) && sentBefore + 1 >= 64 then
      (Idle(p.(wake := p.wake.(immediates := p.wake.immediates + 1))), false)
    else (p, true)
  }

  /** One pass of the loop once the queue is known to hold data and the
      transport to be free. */
  function DrainChunk(s: Sender, header: Header, turn: Turn, sentBefore: nat): (r: (Sender, bool))
    ensures r.1 ==> 0 <= r.0.out.bytes < s.out.bytes
  {
    var r := EndFinishedRecovery(s);
    var length := ChunkSize(r);
    if length <= 0 then (Idle(r), false)
    else if !s.cfg.reverse && !turn.admitted then (Idle(r.(wake := r.wake.(retries := r.wake.retries + 1))), false)
    else
      var c := SendQueued(r, header, length, ACK_PSH);
      if c.life.thrown then (c, false)
      else AfterChunk(c, header, Available(r), length, turn.now, sentBefore)
  }

  /** One pass of the loop; the flag says whether another follows. */
  function DrainPass(s: Sender, header: Header, turn: Turn, sentBefore: nat): (r: (Sender, bool))
    ensures r.1 ==> 0 <= r.0.out.bytes < s.out.bytes
  {
    if !s.life.current then (Idle(s), false)
    else if s.out.queue == [] then (MaybeFin(Idle(s), header), false)
    else if turn.congested then (Idle(s.(wake := s.wake.(waiting := true))), false)
    else DrainChunk(s, header, turn, sentBefore)
  }

  function DrainLoop(s: Sender, header: Header, turns: nat -> Turn, pass: nat): Sender
    decreases s.out.bytes
  {
    var (s', again) := DrainPass(s, header, turns(pass), pass);
    if again then DrainLoop(s', header, turns, pass + 1) else s'
  }

  predicate WantsPersist(s: Sender) {
    s.win.size == 0 && (s.rtx.segments != [] || s.out.bytes > 0 || s.life.pendingFin)
  }

  function Drain(s: Sender, header: Header, turns: nat -> Turn): Sender {
    DrainLoop(SetPersist(s.(wake := s.wake.(sending := true)), header, WantsPersist(s)), header, turns, 0)
  }

  /** `trySendToVM` and `trySendReverseToVM`. */
  predicate CanDrain(s: Sender) {
    && s.life.current && !s.wake.sending && !s.pacer.blocked
    && (if s.cfg.reverse then s.life.state.Established? || s.life.state.FinWait? || s.life.state.Closing? else !s.life.state.SynSent?)
  }

  function TrySend(s: Sender, header: Header, turns: nat -> Turn): Sender {
    if CanDrain(s) then Drain(s, header, turns) else s
  }

  // ----- acknowledgements from the VM -----

  /** `updateTCPWindow` keeps the window of the latest segment. */
  predicate OlderUpdate(win: Shown, sequence: U32, ack: U32) {
    win.update.Some? && (
      SeqLessThan(sequence, win.update.value.0)
      || (sequence == win.update.value.0 && SeqLessThan(ack, win.update.value.1)))
  }

  function NextWindow(win: Shown, sequence: U32, ack: U32, window: int): Shown {
    if OlderUpdate(win, sequence, ack) then win else Shown(window, Some((sequence, ack)))
  }

  function NewWindow(size: int): PeerWindow { PeerWindow(size, None, Shown(size, None), []) }

  function Heard(win: PeerWindow, report: Report): PeerWindow {
    var next := NextWindow(Shown(win.size, win.update), report.seqNo, report.ack, report.window);
    PeerWindow(next.size, next.update, win.start, win.reports + [report])
  }

  function UpdateWindow(s: Sender, sequence: U32, ack: U32, window: int): Sender {
    s.(win := Heard(s.win, Report(sequence, ack, window)))
  }

  predicate CountsAsDuplicate(s: Sender, p: Packet, windowChanged: bool) {
    s.win.size > 0 && !windowChanged && !p.hasSyn && !p.hasFin && p.payload == [] && s.rtx.segments != []
  }

  function SetDuplicates(s: Sender, n: int): Sender { s.(cong := s.cong.(dupAckCount := n)) }

  function CountDuplicate(s: Sender, header: Header, ack: U32): Sender {
    var n := s.cong.dupAckCount + 1;
    if n != 3 then SetDuplicates(s, n)
    else if s.cong.fastRetransmitAck != Some(ack) then SetDuplicates(FastRetransmit(s, header), 0)
    else SetDuplicates(s, 0)
  }

  /** The retransmission queue's part of an ACK, with its history. */
  function AcknowledgeQueue(s: Sender, ack: U32): (Sender, AckStatus, int) {
    var (q, status, bytes) := Acknowledge(s.rtx, ack);
    (s.(rtx := q,
        life := s.life.(thrown := s.life.thrown || status.AckThrew?),
        log := if status.Advanced? then s.log.(acked := s.log.acked + SequenceDistance(ack, s.rtx.sndUna)) else s.log),
     status, bytes)
  }

  /** The ACK part of a packet handler; the flag says whether the window changed. */
  function ProcessAck(s: Sender, header: Header, p: Packet): (Sender, AckStatus, bool) {
    var (a, status, bytes) := AcknowledgeQueue(s, p.ack);
    if !status.Advanced? && !status.Duplicate? then (a, status, false)
    else
      var w := UpdateWindow(a, p.seqNo, p.ack, p.window);
      var changed := w.win.size != a.win.size;
      if status.Advanced? then
        (CongestionAck(w.(cong := w.cong.(dupAckCount := 0, fastRetransmitAck := None)), header, bytes, p.ack), status, changed)
      else if CountsAsDuplicate(w, p, changed) then (CountDuplicate(w, header, p.ack), status, changed)
      else (w, status, changed)
  }

  // ----- the beginning -----

  /** The sending half before its first frame. */
  function NewSender(cfg: Setup, isn: U32, vmWindow: int, sendMss: int): Sender {
    Sender(
      cfg, NewQueue(cfg.rto, isn), P.NewPacer(cfg.pacing), isn, sendMss,
      NewWindow(vmWindow),
      Outbox([], 0, false),
      Congestion(Min(cfg.initialCwnd, cfg.windowSize), cfg.windowSize, None, None, 0),
      Wakers(false, false, 0, 0),
      Life(SynSent, true, false, false, false),
      History(isn, 0, [], [], false),
      [])
  }

  /** `initializeRetransmission` and the SYN (reverse) or SYN-ACK (outbound). */
  function OpenSender(cfg: Setup, isn: U32, vmWindow: int, sendMss: int, header: Header): Sender {
    SendTracked(NewSender(cfg, isn, vmWindow, sendMss), header, [], Flags(true, !cfg.reverse, false, false, false))
  }
}
