/** What can come behind the FIN. A reverse connection has two sockets whose
    closing raises `pendingFin` (relay.js:897-907, 2655-2665), possibly while the
    upstream stream, paused, still holds data. The drain loop (relay.js:1797-1834)
    sends data without asking whether a FIN was sent, and so does the zero-window
    probe (relay.js:704-712) with data and with a FIN. */
module AfterFin {
  import opened Bytes
  import opened SequenceNumbers
  import opened Retransmission
  import opened RetransmissionProofs
  import opened SendPath
  import opened SendInvariant
  import opened SendOperations
  import opened SendEvents
  import opened Connection
  import opened ConnectionProofs
  import opened ConnectionHistory
  import opened ConnectionTheorems
  import R = ReceivePath
  import P = Pacing

  // ----- when a step puts something behind the FIN -----

  /** Nothing follows a FIN in the stream: items that extend one with a FIN are it. */
  lemma FinIsLast(a: seq<byte>, b: seq<byte>, fin: bool)
    requires Wire(a, true) <= Wire(b, fin)
    ensures Wire(a, true) == Wire(b, fin)
  {
    WireFacts(a, true);
    WireFacts(b, fin);
    assert Wire(b, fin)[|a| + 1] == Wire(a, true)[|a| + 1] == Fin;
    hide Wire;
  }

  lemma StreamShape(s: Sender)
    requires Base(s)
    ensures s.log.tracked == Wire(BytesOf(s.log.tracked), s.life.finSent)
    ensures s.life.finSent ==> s.out.queue == [] && s.out.bytes == 0 && s.log.stream == BytesOf(s.log.tracked)
  {
    hide Wire, BytesOf, Sequenced, Consistent;
    if s.life.finSent { assert BytesOf(s.log.tracked) + Concat(s.out.queue) == BytesOf(s.log.tracked); }
  }

  /** With the FIN sent and nothing behind it, the stream is what was tracked. */
  lemma ShapeOfConn(c: Conn)
    requires ConnOk(c)
    ensures c.snd.log.tracked == Wire(BytesOf(c.snd.log.tracked), c.snd.life.finSent)
    ensures c.snd.life.finSent ==> c.snd.out.bytes == 0 && c.snd.log.stream == BytesOf(c.snd.log.tracked)
  {
    hide Base, Core, Wire, BytesOf;
    SenderIsCore(c.snd);
    CoreIsBase(c.snd);
    StreamShape(c.snd);
  }

  lemma OtherStepsSendNothing(c: Conn, e: Event)
    requires ConnOk(c) && Enabled(c, e) && c.snd.life.finSent && !AddsAfterFin(c, e)
    ensures Step(c, e).snd.log.tracked == c.snd.log.tracked && Step(c, e).snd.log.stream == c.snd.log.stream
  {
    hide ConnOk, Step, Base, Core, Wire, BytesOf, SenderOk;
    var d := Step(c, e);
    StepKeepsOk(c, e);
    StepAdvances(c, e);
    ShapeOfConn(c);
    ShapeOfConn(d);
    FinIsLast(BytesOf(c.snd.log.tracked), BytesOf(d.snd.log.tracked), d.snd.life.finSent);
    if !d.snd.life.finSent { WireEnds(BytesOf(c.snd.log.tracked), BytesOf(d.snd.log.tracked)); }
  }

  lemma WireEnds(a: seq<byte>, b: seq<byte>)
    ensures Fin in Wire(a, true) && Fin !in Wire(b, false)
  {
    WireFacts(a, true);
    WireFacts(b, false);
    assert Wire(a, true)[|a| + 1] == Fin;
    hide Wire;
  }

  lemma TheProbeSendsIt(s: Sender, header: Header, id: nat, open: bool)
    requires Core(s) && id in s.rtx.live && s.out.bytes == 0 && ProbesAnotherFin(s, id, false)
    ensures RetransmissionTimer(s, header, id, false, open).log == s.log.(tracked := s.log.tracked + [Fin])
  {
    LiveTimer(s, id);
    assert Items([], false, true) == [Fin];
    hide Core, Frames, Stamp, Fire, TimerBranch, Close, P.ClosePacer;
  }

  /** Draining moves bytes from the queue to the wire and leaves the enqueued
      stream as it is, whatever the state. */
  lemma {:induction false} DrainLeavesStream(s: Sender, header: Header, turns: nat -> Turn, pass: nat)
    ensures DrainLoop(s, header, turns, pass).log.stream == s.log.stream
    decreases s.out.bytes
  {
    PassLeavesStream(s, header, turns(pass), pass);
    hide DrainPass;
    var (t, again) := DrainPass(s, header, turns(pass), pass);
    if again { DrainLeavesStream(t, header, turns, pass + 1); }
  }

  lemma PassLeavesStream(s: Sender, header: Header, turn: Turn, pass: nat)
    ensures DrainPass(s, header, turn, pass).0.log.stream == s.log.stream
  {
    hide MaybeFin, SendQueued, AfterChunk, ChunkSize, Available, RecoveryComplete;
    MaybeFinLeavesStream(Idle(s), header);
    var r := EndFinishedRecovery(s);
    var length := ChunkSize(r);
    if length > 0 {
      var t := SendQueued(r, header, length, ACK_PSH);
      SendQueuedLeavesStream(r, header, length);
      AfterChunkLeavesStream(t, header, Available(r), length, turn.now, pass);
    }
  }

  lemma TrackedLeavesStream(s: Sender, header: Header, payload: seq<byte>, flags: Flags)
    ensures SendTracked(s, header, payload, flags).log.stream == s.log.stream
  {
    hide Frames, Stamp, TrackFrames, Items;
  }

  lemma MaybeFinLeavesStream(s: Sender, header: Header)
    ensures MaybeFin(s, header).log.stream == s.log.stream
  {
    hide SendTracked, RecoveryComplete;
    TrackedLeavesStream(SendingFin(EndFinishedRecovery(s)), header, [], ACK_FIN);
  }

  lemma SendQueuedLeavesStream(s: Sender, header: Header, length: nat)
    ensures SendQueued(s, header, length, ACK_PSH).log.stream == s.log.stream
  {
    hide SendTracked, TakeQueued, Concat;
    if length <= |Concat(s.out.queue)| {
      var (chunk, left) := TakeQueued(s.out.queue, length);
      TrackedLeavesStream(s.(out := s.out.(queue := left)), header, chunk, ACK_PSH);
    }
  }

  lemma AfterChunkLeavesStream(s: Sender, header: Header, available: int, length: nat, now: int, pass: nat)
    ensures AfterChunk(s, header, available, length, now, pass).0.log.stream == s.log.stream
  {
    hide MaybeFin, P.NoteSegment;
    MaybeFinLeavesStream(Idle(s.(pacer := P.NoteSegment(s.pacer, now))), header);
  }

  lemma TrySendLeavesStream(c: Conn, turns: nat -> Turn)
    ensures TrySendConn(c, turns).snd.log.stream == c.snd.log.stream
  {
    if CanDrain(c.snd) {
      var u := c.snd.(wake := c.snd.wake.(sending := true));
      DrainLeavesStream(SendPath.SetPersist(u, HeaderOf(c), WantsPersist(u)), HeaderOf(c), turns, 0);
    }
    hide DrainLoop, Frames, Stamp, Retransmission.SetPersist;
  }

  /** In every reachable state in which a FIN was sent, an enabled event adds to
      the sequence space or to the stream if and only if it is data, or a live
      retransmission timer that probes, with the transport free, nothing
      outstanding and the FIN requested again. The timer sends another FIN; the
      data becomes part of the stream although its end was sent. */
  lemma AddsAfterFinIff(h: Handshake, events: seq<Event>, c: Conn, e: Event)
    requires Reaches(h, events, c) && Enabled(c, e) && c.snd.life.finSent
    ensures var (a, b) := (c.snd.log, Step(c, e).snd.log);
      && (b.tracked != a.tracked || b.stream != a.stream <==> AddsAfterFin(c, e))
      && (SendsAnotherFin(c, e) ==> b.tracked == a.tracked + [Fin] && b.stream == a.stream)
      && (DataAfterFin(c, e) ==> b.stream == a.stream + e.data)
  {
    hide Reaches, Base, Core, ConnOk, HandleReverse, HandleOutbound, TakeEnd, AbortConn, ScheduleAck, SendAck, TrySendConn,
      RetransmissionTimer, ProbesAnotherFin;
    ReachedOk(h, events, c);
    if SendsAnotherFin(c, e) {
      ShapeOfConn(c);
      AnotherFinIsFree(c.snd, e.id, e.congested);
      TheProbeSendsIt(c.snd, HeaderOf(c), e.id, e.open);
    } else if DataAfterFin(c, e) {
      TrySendLeavesStream(c.(snd := Enqueue(c.snd, e.data)), e.turns);
    } else {
      OtherStepsSendNothing(c, e);
    }
  }

  lemma AnotherFinIsFree(s: Sender, id: nat, congested: bool)
    requires ProbesAnotherFin(s, id, congested)
    ensures !congested
  {
  }

  // ----- a run that does it -----

  /** A reverse connection with the usual settings, but pacing off and the
      smallest send queue. */
  function Hello(): Handshake {
    Handshake(Setup(1460, 65535, 14600, 1460, 2, 40, Config(1000, 60000, 8), P.Settings(P.Off, 4, 32, 5), true),
              100, 0, 0, 0)
  }

  function Answer(seqNo: U32, ack: U32, syn: bool): Packet { Packet(seqNo, ack, 0, syn, true, false, false, []) }

  /** The SYN-ACK closes the window, the client closes, the probe sends the FIN,
      the VM acknowledges it and keeps its window closed, the client's other
      socket closes, and the probe sends another FIN. */
  function Events(turns: nat -> Turn): seq<Event> {
    [Arrives(Answer(500, 101, true), 0, turns, R.Took), SourceEnd(turns), RetransmissionTimerFires(4, false, true),
     Arrives(Answer(501, 102, false), 0, turns, R.Took), SourceEnd(turns), RetransmissionTimerFires(12, false, true)]
  }

  /** What the six steps depend on. */
  predicate Looks(c: Conn, una: U32, nxt: U32, segments: seq<Segment>, timeouts: int, rto: int, generation: nat, persist: bool,
                  state: TcpState, pendingFin: bool, finSent: bool, tracked: seq<Item>) {
    // `true ==` makes the conjunction one fact, which a caller proves at once and not clause by clause.
    true == (
    && c.snd.cfg == Hello().cfg && c.snd.relaySeq == nxt
    && c.snd.rtx == Queue(Config(1000, 60000, 8), una, nxt, segments, 0, rto, timeouts, persist,
                          if segments != [] || persist then Some(generation) else None, generation, false, false,
                          if segments != [] || persist then map[generation := rto] else map[], c.snd.rtx.calls)
    && c.snd.out == Outbox([], 0, false) && !c.snd.pacer.blocked && !c.snd.wake.sending && c.snd.cong.recoveryUntil.None?
    && (!state.SynSent? ==> c.snd.win.size == 0) && !c.rcv.peerFin
    && c.snd.life == Life(state, true, pendingFin, finSent, false) && c.snd.log.tracked == tracked)
  }

  const SYN_SEGMENT := Segment(100, [], Flags(true, false, false, false, false), 1, 0)
  const FIN_SEGMENT := Segment(101, [], ACK_FIN, 1, 0)

  lemma Begins()
    ensures Looks(Hello().Begin(), 100, 101, [SYN_SEGMENT], 0, 1000, 1, false, SynSent, false, false, [Syn])
  {
    hide Stamp, HeaderFor;
    var s := OpenSender(Hello().cfg, 100, 65535, 1460, Header(0, 65535));
    assert Items([], true, false) == [Syn];
  }

  /** A drain with nothing queued only sets or clears persist mode. */
  lemma DrainSetsPersist(c: Conn, turns: nat -> Turn)
    requires c.snd.life.current && !c.snd.wake.sending && !c.snd.pacer.blocked && InDataState(c.snd)
    requires c.snd.out == Outbox([], 0, false) && c.snd.win.size == 0 && c.snd.rtx.segments == []
    requires c.snd.rtx.payloadBytesInFlight == 0
    ensures TrySendConn(c, turns) == c.(snd := c.snd.(rtx := Retransmission.SetPersist(c.snd.rtx, c.snd.life.pendingFin, Returned)))
  {
    hide Retransmission.SetPersist, Frames, Stamp;
    var u := c.snd.(wake := c.snd.wake.(sending := true));
    var v := SendPath.SetPersist(u, HeaderOf(c), WantsPersist(u));
    NoSegments(c.snd.rtx, c.snd.life.pendingFin);
    assert DrainPass(v, HeaderOf(c), turns(0), 0) == (Idle(v), false);
  }

  lemma NoSegments(q: Queue, enabled: bool)
    requires q.segments == [] && q.payloadBytesInFlight == 0
    ensures Retransmission.SetPersist(q, enabled, Returned).payloadBytesInFlight == 0
  {
  }

  lemma Establishes(c: Conn, turns: nat -> Turn)
    requires Looks(c, 100, 101, [SYN_SEGMENT], 0, 1000, 1, false, SynSent, false, false, [Syn])
    ensures Looks(Step(c, Events(turns)[0]), 101, 101, [], 0, 1000, 2, false, Established, false, false, [Syn])
  {
    var p := Answer(500, 101, true);
    var (s, status, bytes) := AcknowledgeQueue(c.snd, 101);
    AcksSegment(c.snd.rtx, 101);
    var d := Connection.SendAck(Synchronize(c, s, p, 0));
    hide Frames, Stamp, TrySendConn, Acknowledge;
    DrainSetsPersist(d, turns);
  }

  lemma AcksSegment(q: Queue, ack: U32)
    requires || (q.segments == [SYN_SEGMENT] && q.sndUna == 100 && q.sndNxt == ack == 101)
             || (q.segments == [FIN_SEGMENT] && q.sndUna == 101 && q.sndNxt == ack == 102)
    requires q.payloadBytesInFlight == 0
    ensures Acknowledge(q, ack) ==
            (ArmTimer(ClearTimer(q.(segments := [], sndUna := ack, timeoutRetransmissions := 0,
                                    currentRtoMs := if q.persist then q.currentRtoMs else q.cfg.initialRtoMs))), Advanced, 0)
  {
    hide ArmTimer, ClearTimer;
    assert Wrap(ack) == ack && SequenceDistance(ack, q.sndUna) == 1;
    assert q.segments[1..] == [] && q.segments[0].sequenceLength == 1 && q.segments[0].payload == [];
    assert DropItems(q.segments, 1) == DropItems([], 0) == [] && DroppedBytes(q.segments, 1) == 0;
    assert ClassifyAck(q, ack).Advanced?;
  }

  lemma ClosesFirst(c: Conn, turns: nat -> Turn)
    requires Looks(c, 101, 101, [], 0, 1000, 2, false, Established, false, false, [Syn])
    ensures Looks(Step(c, Events(turns)[1]), 101, 101, [], 0, 1000, 4, true, Established, true, false, [Syn])
  {
    hide TrySendConn;
    DrainSetsPersist(c.(snd := EndSource(c.snd)), turns);
  }

  lemma ProbesFin(c: Conn, turns: nat -> Turn)
    requires Looks(c, 101, 101, [], 0, 1000, 4, true, Established, true, false, [Syn])
    ensures Enabled(c, Events(turns)[2]) && !SendsAnotherFin(c, Events(turns)[2])
    ensures Looks(Step(c, Events(turns)[2]), 101, 102, [FIN_SEGMENT], 1, 2000, 7, true, FinWait, false, true, [Syn, Fin])
  {
    hide Frames, Stamp;
    assert Items([], false, true) == [Fin];
    TracksFin(c.snd.rtx);
    hide Fire;
  }

  /** The probe of an empty queue tracks the FIN and backs off. */
  lemma TracksFin(q: Queue)
    requires q == Queue(Config(1000, 60000, 8), 101, 101, [], 0, 1000, 0, true, Some(4), 4, false, false, map[4 := 1000], q.calls)
    ensures Fire(q, 4, Returned, SentTracked(101, [], ACK_FIN)) ==
            Queue(Config(1000, 60000, 8), 101, 102, [FIN_SEGMENT], 0, 2000, 1, true, Some(7), 7, false, false,
                  map[7 := 2000], q.calls + [OnPersistProbe(None)])
  {
    assert [] + [FIN_SEGMENT] == [FIN_SEGMENT];
  }

  lemma FinAcknowledged(c: Conn, turns: nat -> Turn)
    requires Looks(c, 101, 102, [FIN_SEGMENT], 1, 2000, 7, true, FinWait, false, true, [Syn, Fin])
    ensures Looks(Step(c, Events(turns)[3]), 102, 102, [], 0, 1000, 10, false, FinWait, false, true, [Syn, Fin])
  {
    var p := Answer(501, 102, false);
    AcksSegment(c.snd.rtx, 102);
    var s := SendPath.ProcessAck(c.snd, HeaderOf(c), p).0;
    hide Frames, Stamp, TrySendConn, Acknowledge, SeqLessThan;
    DrainSetsPersist(c.(snd := s), turns);
  }

  lemma ClosesAgain(c: Conn, turns: nat -> Turn)
    requires Looks(c, 102, 102, [], 0, 1000, 10, false, FinWait, false, true, [Syn, Fin])
    ensures Looks(Step(c, Events(turns)[4]), 102, 102, [], 0, 1000, 12, true, FinWait, true, true, [Syn, Fin])
  {
    hide TrySendConn;
    DrainSetsPersist(c.(snd := EndSource(c.snd)), turns);
  }

  lemma LastProbe(c: Conn, turns: nat -> Turn)
    requires Looks(c, 102, 102, [], 0, 1000, 12, true, FinWait, true, true, [Syn, Fin])
    ensures Enabled(c, Events(turns)[5]) && SendsAnotherFin(c, Events(turns)[5]) && c.snd.life.finSent
  {
    hide Step;
  }

  /** From the first frame on, six enabled events, of which only the last puts
      anything behind the FIN, put two FINs into the sequence space. */
  lemma SecondFinHappens(turns: nat -> Turn)
    ensures var (c, events) := (Hello().Begin(), Events(turns));
      && Schedule(c, events) && FinLast(c, events[..5])
      && SendsAnotherFin(Run(c, events[..5]), events[5])
      && Run(c, events).snd.log.tracked == [Syn, Fin, Fin]
  {
    hide Handshake.Begin, Step, Looks, Enabled, SendsAnotherFin;
    var c0, ev := Hello().Begin(), Events(turns);
    Begins();
    Establishes(c0, turns);
    var c1 := Step(c0, ev[0]);
    ClosesFirst(c1, turns);
    var c2 := Step(c1, ev[1]);
    ProbesFin(c2, turns);
    var c3 := Step(c2, ev[2]);
    FinAcknowledged(c3, turns);
    var c4 := Step(c3, ev[3]);
    ClosesAgain(c4, turns);
    var c5 := Step(c4, ev[4]);
    LastProbe(c5, turns);
    OtherEvents(c0, c1, c3, c4, turns);
    FiveSteps(c0, c1, c2, c3, c4, c5, ev);
    AfterFive(c0, c1, c2, c3, c4, c5, ev);
    HelloIsValid();
    AddsAfterFinIff(Hello(), ev[..5], c5, ev[5]);
    assert [Syn, Fin] + [Fin] == [Syn, Fin, Fin];
    LooksTracked(c5);
  }

  lemma LooksTracked(c: Conn)
    ensures Looks(c, 102, 102, [], 0, 1000, 12, true, FinWait, true, true, [Syn, Fin]) ==> c.snd.log.tracked == [Syn, Fin]
  {
  }

  lemma HelloIsValid()
    ensures Hello().Valid()
  {
  }

  lemma OtherEvents(c0: Conn, c1: Conn, c3: Conn, c4: Conn, turns: nat -> Turn)
    ensures var ev := Events(turns);
      && Enabled(c0, ev[0]) && Enabled(c1, ev[1]) && Enabled(c3, ev[3]) && Enabled(c4, ev[4])
      && !SendsAnotherFin(c0, ev[0]) && !SendsAnotherFin(c1, ev[1])
      && !SendsAnotherFin(c3, ev[3]) && !SendsAnotherFin(c4, ev[4])
  {
  }

  lemma FiveSteps(c0: Conn, c1: Conn, c2: Conn, c3: Conn, c4: Conn, c5: Conn, ev: seq<Event>)
    requires |ev| == 6
    requires c1 == Step(c0, ev[0]) && c2 == Step(c1, ev[1]) && c3 == Step(c2, ev[2]) && c4 == Step(c3, ev[3]) && c5 == Step(c4, ev[4])
    requires Proper(c0, ev[0]) && Proper(c1, ev[1]) && Proper(c2, ev[2]) && Proper(c3, ev[3]) && Proper(c4, ev[4])
    ensures Run(c0, ev[..5]) == c5 && FinLast(c0, ev[..5])
  {
    hide Step, Enabled, SendsAnotherFin;
    assert ev[..5] == [ev[0]] + ([ev[1]] + ([ev[2]] + ([ev[3]] + ([ev[4]] + []))));
    Prepend(c4, ev[4], []);
    Prepend(c3, ev[3], [ev[4]] + []);
    Prepend(c2, ev[2], [ev[3]] + ([ev[4]] + []));
    Prepend(c1, ev[1], [ev[2]] + ([ev[3]] + ([ev[4]] + [])));
    Prepend(c0, ev[0], [ev[1]] + ([ev[2]] + ([ev[3]] + ([ev[4]] + []))));
  }

  predicate Proper(c: Conn, e: Event) { Enabled(c, e) && !AddsAfterFin(c, e) }

  lemma Prepend(c: Conn, e: Event, rest: seq<Event>)
    ensures Run(c, [e] + rest) == Run(Step(c, e), rest)
    ensures Schedule(c, [e] + rest) <==> Enabled(c, e) && Schedule(Step(c, e), rest)
    ensures FinLast(c, [e] + rest) <==> Proper(c, e) && FinLast(Step(c, e), rest)
    ensures Run(c, []) == c && Schedule(c, []) && FinLast(c, [])
  {
    hide Step, Enabled, SendsAnotherFin;
    assert ([e] + rest)[1..] == rest;
  }

  lemma AfterFive(c0: Conn, c1: Conn, c2: Conn, c3: Conn, c4: Conn, c5: Conn, ev: seq<Event>)
    requires |ev| == 6
    requires c1 == Step(c0, ev[0]) && c2 == Step(c1, ev[1]) && c3 == Step(c2, ev[2]) && c4 == Step(c3, ev[3]) && c5 == Step(c4, ev[4])
    requires Enabled(c0, ev[0]) && Enabled(c1, ev[1]) && Enabled(c2, ev[2]) && Enabled(c3, ev[3]) && Enabled(c4, ev[4])
    requires Enabled(c5, ev[5])
    ensures Run(c0, ev) == Step(c5, ev[5]) && Schedule(c0, ev)
  {
    hide Step, Enabled, SendsAnotherFin;
    assert ev == [ev[0]] + ([ev[1]] + ([ev[2]] + ([ev[3]] + ([ev[4]] + ([ev[5]] + [])))));
    Prepend(c5, ev[5], []);
    Prepend(Step(c5, ev[5]), ev[5], []);
    Prepend(c4, ev[4], [ev[5]] + []);
    Prepend(c3, ev[3], [ev[4]] + ([ev[5]] + []));
    Prepend(c2, ev[2], [ev[3]] + ([ev[4]] + ([ev[5]] + [])));
    Prepend(c1, ev[1], [ev[2]] + ([ev[3]] + ([ev[4]] + ([ev[5]] + []))));
    Prepend(c0, ev[0], [ev[1]] + ([ev[2]] + ([ev[3]] + ([ev[4]] + ([ev[5]] + [])))));
  }
}
