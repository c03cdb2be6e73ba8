/** One TCP connection of the relay, both halves: the packet handlers of
    relay.js for connections the VM opened (outbound) and for connections
    opened towards the VM (reverse), and every other event as one step. */
module Connection {
  import opened Bytes
  import opened SequenceNumbers
  import opened SendPath
  import opened SendEvents
  import opened ReceivePath
  import P = Pacing

  /** `ackPending` and `ackTimer` are the delayed acknowledgement. The last two
      fields are history: whether `finish*Connection` closed the connection, and
      how many frames had been sent when the peer's first sequence number was
      learned. */
  datatype Conn = Conn(
    snd: Sender,
    rcv: Receiver,
    ackPending: nat,
    ackTimer: bool,
    finished: bool,
    openedAt: nat)

  function Capacity(c: Conn): int { Min(0xffff, c.snd.cfg.windowSize) }

  function HeaderOf(c: Conn): Header { Header(c.rcv.buf.vmSeq, ReceiveWindow(c.rcv, c.snd.cfg.windowSize)) }

  // ----- acknowledging -----

  function ClearAck(c: Conn): Conn { c.(ackPending := 0, ackTimer := false) }

  function SendAck(c: Conn): Conn { ClearAck(c).(snd := TransmitBare(c.snd, HeaderOf(c), ACK)) }

  function ScheduleAck(c: Conn, segments: nat, immediate: bool): Conn {
    var d := c.(ackPending := c.ackPending + segments);
    if immediate || c.snd.cfg.ackDelayMs == 0 || d.ackPending >= c.snd.cfg.ackEvery
       || ReceiveWindow(c.rcv, c.snd.cfg.windowSize) == 0 then SendAck(d)
    else d.(ackTimer := true)
  }

  // ----- ending -----

  function AbortConn(c: Conn, reset: bool): Conn {
    if !c.snd.life.current then c else ClearAck(c).(snd := Abort(c.snd, HeaderOf(c), reset))
  }

  /** Both FINs are out of the way: ours acknowledged, the peer's received. */
  predicate BothDone(c: Conn) { c.rcv.peerFin && c.snd.life.finSent && c.snd.rtx.segments == [] }

  function FinishConn(c: Conn): Conn {
    if !c.snd.life.current then c else ClearAck(c).(snd := Finish(c.snd), finished := true)
  }

  function TrySendConn(c: Conn, turns: nat -> Turn): Conn { c.(snd := TrySend(c.snd, HeaderOf(c), turns)) }

  // ----- the data and FIN part of a packet -----

  function WithState(s: Sender, state: TcpState): Sender { s.(life := s.life.(state := state)) }

  function TakeFin(c: Conn): Conn {
    var d := ScheduleAck(c.(rcv := ReceiveFin(c.rcv), snd := WithState(c.snd, Closing)), 0, true);
    if BothDone(d) then FinishConn(d) else d
  }

  function FinPart(c: Conn, p: Packet): Conn {
    if !p.hasFin then c
    else if !TakesFin(c.rcv, p.seqNo, p.payload) then ScheduleAck(c, 0, true)
    else TakeFin(c)
  }

  ghost function DataPart(c: Conn, p: Packet, answer: SinkAnswer): Conn {
    if p.payload == [] then FinPart(c, p)
    else
      var (r, arrival, n) := ReceiveData(c.rcv, Capacity(c), p.seqNo, p.payload, answer);
      match arrival
      case InOrder(_) => FinPart(ScheduleAck(c.(rcv := r), n, false), p)
      case _ => ScheduleAck(c.(rcv := r), 0, true)
  }

  predicate InDataState(s: Sender) { s.life.state.Established? || s.life.state.FinWait? || s.life.state.Closing? }

  // ----- the packet handlers -----

  /** What follows the ACK part of an outbound packet. */
  ghost function AfterAck(c: Conn, p: Packet, acted: bool, changed: bool, turns: nat -> Turn, answer: SinkAnswer): Conn {
    if !InDataState(c.snd) then c
    else if acted && BothDone(c) then FinishConn(c)
    else
      var d := if changed then c.(snd := SetDuplicates(c.snd, 0)) else c;
      DataPart(if acted then TrySendConn(d, turns) else d, p, answer)
  }

  /** `handleTCP` on an existing connection. */
  ghost function HandleOutbound(c: Conn, p: Packet, turns: nat -> Turn, answer: SinkAnswer): Conn {
    if !c.snd.life.current then c
    else if p.hasSyn && !p.hasAck then
      if c.snd.life.state.SynSent? then c.(snd := SendPath.FastRetransmit(c.snd, HeaderOf(c))) else c
    else if p.hasRst then AbortConn(c, false)
    else if !p.hasAck then
      if c.snd.life.state.SynSent? then c else AfterAck(c, p, false, false, turns, answer)
    else
      var (s, status, changed) := ProcessAck(c.snd, HeaderOf(c), p);
      var a := c.(snd := s);
      if !status.Advanced? && !status.Duplicate? then a
      else if s.life.state.SynSent? then
        if !status.Advanced? || s.rtx.segments != [] then a
        else
          AfterAck(SendAck(a.(snd := WithState(s, Established))), p, true, changed, turns, answer)
      else AfterAck(a, p, status.Advanced? || changed, changed, turns, answer)
  }

  function OpeningWindow(win: PeerWindow, size: int): PeerWindow {
    win.(size := size, start := Shown(size, win.update), reports := [])
  }

  /** What a reverse connection learns from the SYN-ACK: the peer's first
      sequence number, its window and its MSS. */
  function Synchronize(c: Conn, s: Sender, p: Packet, mss: nat): Conn {
    var first := Wrap(p.seqNo + 1);
    c.(snd := WithState(s, Established).(win := OpeningWindow(s.win, p.window),
                                         sendMss := Min(s.cfg.tcpMss, if mss == 0 then FALLBACK_MSS else mss)),
       rcv := c.rcv.(buf := c.rcv.buf.(vmSeq := first), base := first),
       openedAt := |s.trace|)
  }

  /** The SYN-ACK that establishes a reverse connection. */
  function EstablishReverse(c: Conn, p: Packet, mss: nat, turns: nat -> Turn): Conn {
    var (s, status, bytes) := AcknowledgeQueue(c.snd, p.ack);
    if !status.Advanced? || s.rtx.segments != [] then c.(snd := s)
    else TrySendConn(SendAck(Synchronize(c, s, p, mss)), turns)
  }

  /** The answers to the two drains that one ACK can start. */
  function FirstDrain(turns: nat -> Turn): nat -> Turn { (i: nat) => turns(2 * i) }

  function SecondDrain(turns: nat -> Turn): nat -> Turn { (i: nat) => turns(2 * i + 1) }

  /** A drain for what the ACK acknowledged, and one for a window that changed. */
  function DrainTwice(c: Conn, advanced: bool, changed: bool, turns: nat -> Turn): Conn {
    var d := if advanced then TrySendConn(c, FirstDrain(turns)) else c;
    if changed then TrySendConn(d.(snd := SetDuplicates(d.snd, 0)), SecondDrain(turns)) else d
  }

  ghost function ReverseAckPart(c: Conn, p: Packet, turns: nat -> Turn, answer: SinkAnswer): Conn {
    if !p.hasAck then DataPart(c, p, answer)
    else
      var (s, status, changed) := ProcessAck(c.snd, HeaderOf(c), p);
      var a := c.(snd := s);
      if !status.Advanced? && !status.Duplicate? then a
      else if status.Advanced? && BothDone(a) then FinishConn(a)
      else
        DataPart(DrainTwice(a, status.Advanced?, changed, turns), p, answer)
  }

  /** `handleReverseTCP` on an existing connection. */
  ghost function HandleReverse(c: Conn, p: Packet, mss: nat, turns: nat -> Turn, answer: SinkAnswer): Conn {
    if !c.snd.life.current then c
    else if p.hasRst then AbortConn(c, false)
    else if c.snd.life.state.SynSent? then
      if p.hasSyn && p.hasAck then EstablishReverse(c, p, mss, turns) else c
    else if p.hasSyn && p.hasAck then SendAck(c)
    else if !InDataState(c.snd) then c
    else ReverseAckPart(c, p, turns, answer)
  }

  // ----- all events -----

  datatype Event =
    | SourceData(data: seq<byte>, turns: nat -> Turn)
    | SourceEnd(turns: nat -> Turn)
    | Arrives(p: Packet, mss: nat, turns: nat -> Turn, answer: SinkAnswer)
    | RetransmissionTimerFires(id: nat, congested: bool, open: bool)
    | PacerTimerFires(turns: nat -> Turn)
    | TransportFlushed
    | ImmediateRuns(turns: nat -> Turn)
    | RetryTimerFires(turns: nat -> Turn)
    | SinkDrains
    | AckTimerFires
    | Fails(open: bool)
    | Expires

  /** What the surroundings may do: chunks are nonempty, timers fire only while
      live, and window fields have 16 bits. The source may report its end more
      than once, and data it held back may still follow. */
  predicate Enabled(c: Conn, e: Event) {
    match e
    case SourceData(data, _) => data != []
    case Arrives(p, mss, _, _) => 0 <= p.window <= MAX_WINDOW && mss <= 0xffff
    case RetransmissionTimerFires(id, _, _) => id in c.snd.rtx.live
    case PacerTimerFires(_) => c.snd.pacer.timer.Some?
    case TransportFlushed => c.snd.wake.waiting
    case ImmediateRuns(_) => c.snd.wake.immediates > 0
    case RetryTimerFires(_) => c.snd.wake.retries > 0
    case AckTimerFires => c.ackTimer
    case Expires => c.finished
    case _ => true
  }

  /** The step that sends a FIN after the FIN. */
  predicate SendsAnotherFin(c: Conn, e: Event) {
    e.RetransmissionTimerFires? && ProbesAnotherFin(c.snd, e.id, e.congested)
  }

  /** Data that arrives when the FIN was sent. */
  predicate DataAfterFin(c: Conn, e: Event) { e.SourceData? && c.snd.life.current && c.snd.life.finSent }

  /** The steps that put something behind the FIN. */
  predicate AddsAfterFin(c: Conn, e: Event) { SendsAnotherFin(c, e) || DataAfterFin(c, e) }

  function WithWake(s: Sender, wake: Wakers): Sender { s.(wake := wake) }

  /** `socket.on("data")` and `upstream.on("data")`. */
  function TakeData(c: Conn, data: seq<byte>, turns: nat -> Turn): Conn {
    if !c.snd.life.current then c else TrySendConn(c.(snd := Enqueue(c.snd, data)), turns)
  }

  /** `socket.on("end")` and `upstream.on("close")`. */
  function TakeEnd(c: Conn, turns: nat -> Turn): Conn {
    if !c.snd.life.current || c.snd.life.state.Closed? then c else TrySendConn(c.(snd := EndSource(c.snd)), turns)
  }

  function TimeOut(c: Conn, id: nat, congested: bool, open: bool): Conn {
    var t := RetransmissionTimer(c.snd, HeaderOf(c), id, congested, open);
    if t.life.current then c.(snd := t) else ClearAck(c).(snd := t)
  }

  /** `onTCPReceiveDrain`. */
  function SinkReady(c: Conn): Conn {
    if !c.snd.life.current || !c.rcv.backpressured then c
    else ScheduleAck(c.(rcv := c.rcv.(backpressured := false)), 0, true)
  }

  function AckDue(c: Conn): Conn {
    var d := c.(ackTimer := false);
    if !c.snd.life.state.Closed? && c.ackPending > 0 then SendAck(d) else d
  }

  ghost function Step(c: Conn, e: Event): Conn {
    match e
    case SourceData(data, turns) => TakeData(c, data, turns)
    case SourceEnd(turns) => TakeEnd(c, turns)
    case Arrives(p, mss, turns, answer) =>
      if c.snd.cfg.reverse then HandleReverse(c, p, mss, turns, answer) else HandleOutbound(c, p, turns, answer)
    case RetransmissionTimerFires(id, congested, open) => TimeOut(c, id, congested, open)
    case PacerTimerFires(turns) => TrySendConn(c.(snd := c.snd.(pacer := P.TimerFires(c.snd.pacer))), turns)
    case TransportFlushed =>
      c.(snd := WithWake(c.snd, c.snd.wake.(waiting := false, immediates := c.snd.wake.immediates + 1)))
    case ImmediateRuns(turns) =>
      TrySendConn(c.(snd := WithWake(c.snd, c.snd.wake.(immediates := Max(0, c.snd.wake.immediates - 1)))), turns)
    case RetryTimerFires(turns) =>
      TrySendConn(c.(snd := WithWake(c.snd, c.snd.wake.(retries := Max(0, c.snd.wake.retries - 1)))), turns)
    case SinkDrains => SinkReady(c)
    case AckTimerFires => AckDue(c)
    case Fails(open) => AbortConn(c, open)
    case Expires => c.(snd := c.snd.(life := c.snd.life.(current := false)))
  }

  ghost function Run(c: Conn, events: seq<Event>): Conn
    decreases |events|
  {
    if events == [] then c else Run(Step(c, events[0]), events[1..])
  }

  ghost predicate Schedule(c: Conn, events: seq<Event>)
    decreases |events|
  {
    events == [] || (Enabled(c, events[0]) && Schedule(Step(c, events[0]), events[1..]))
  }

  /** A schedule in which no step puts anything behind the FIN. */
  ghost predicate FinLast(c: Conn, events: seq<Event>)
    decreases |events|
  {
    events == [] || (
      && Enabled(c, events[0]) && !AddsAfterFin(c, events[0])
      && FinLast(Step(c, events[0]), events[1..]))
  }

  /** A connection whose SYN (reverse) or SYN-ACK (outbound) was just sent. An
      outbound one already knows the VM's first sequence number, window and MSS. */
  function Open(cfg: Setup, isn: U32, vmFirst: U32, window: int, mss: nat): Conn {
    var first := if cfg.reverse then 0 else vmFirst;
    var r := NewReceiver(first);
    var header := Header(first, ReceiveWindow(r, cfg.windowSize));
    var peerMss := if mss == 0 then FALLBACK_MSS else mss;
    var s := if cfg.reverse then OpenSender(cfg, isn, cfg.windowSize, cfg.tcpMss, header)
             else OpenSender(cfg, isn, Min(window, cfg.windowSize), Min(cfg.tcpMss, peerMss), header);
    Conn(s, r, 0, false, false, 0)
  }
}
