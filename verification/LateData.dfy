/** A run in which data follows the FIN (relay.js:884-907, 2650-2665): the client
    closes while its upload is paused, the last queued bytes and the FIN go out,
    and then the upload goes on. */
module LateData {
  import opened Bytes
  import opened Retransmission
  import opened RetransmissionProofs
  import opened SendPath
  import opened SendInvariant
  import opened SendOperations
  import opened SendEvents
  import opened Connection
  import opened ConnectionProofs
  import opened ConnectionTheorems
  import opened AfterFin
  import R = ReceivePath
  import P = Pacing

  function Chunk(): (data: seq<byte>)
    ensures |data| == 1460
  {
    seq(1460, _ => 7)
  }

  /** The VM opens its window wide, the client sends enough to be paused while the
      transport is congested, and closes; the transport is flushed, and what is
      queued goes out with the FIN; the upload resumes with one more byte. */
  function Upload(busy: nat -> Turn, free: nat -> Turn): seq<Event> {
    [Arrives(Packet(500, 101, 65535, true, true, false, false, []), 1460, busy, R.Took), SourceData(Chunk(), busy),
     SourceEnd(busy), TransportFlushed, ImmediateRuns(free), SourceData([1], free)]
  }

  /** What the steps depend on besides the invariant. */
  predicate Looking(c: Conn, out: Outbox, wake: Wakers, life: Life, flight: int, stream: seq<byte>) {
    // `true ==` makes the conjunction one fact, which a caller proves at once and not clause by clause.
    true == (
    && c.snd.cfg == Hello().cfg && c.snd.win.size == 65535 && c.snd.sendMss == 1460
    && c.snd.cong.window == 14600 && c.snd.cong.recoveryUntil.None?
    && P.IsOff(c.snd.pacer) && !c.snd.pacer.blocked
    && !c.snd.rtx.persist && !c.snd.rtx.closed && !c.snd.rtx.exhausted && c.snd.rtx.payloadBytesInFlight == flight
    && c.snd.out == out && c.snd.wake == wake && c.snd.life == life && c.snd.log.stream == stream)
  }

  const NOTHING := Outbox([], 0, false)
  const CALM := Wakers(false, false, 0, 0)

  function Open(state: TcpState, pendingFin: bool, finSent: bool): Life { Life(state, true, pendingFin, finSent, false) }

  // ----- the drains of this run -----

  lemma PersistIsOff(s: Sender, header: Header)
    requires !s.rtx.persist
    ensures SendPath.SetPersist(s, header, false) == s
  {
  }

  /** With an open window a drain begins with a first pass. */
  lemma DrainBegins(c: Conn, turns: nat -> Turn)
    requires CanDrain(c.snd) && !c.snd.rtx.persist && c.snd.win.size > 0
    ensures var u := c.snd.(wake := c.snd.wake.(sending := true));
      TrySendConn(c, turns) == c.(snd := DrainLoop(u, HeaderOf(c), turns, 0))
  {
    PersistIsOff(c.snd.(wake := c.snd.wake.(sending := true)), HeaderOf(c));
    hide SendPath.SetPersist, DrainLoop;
  }

  lemma OnePass(s: Sender, header: Header, turns: nat -> Turn)
    requires !DrainPass(s, header, turns(0), 0).1
    ensures DrainLoop(s, header, turns, 0) == DrainPass(s, header, turns(0), 0).0
  {
    hide DrainPass;
  }

  lemma NothingDrains(c: Conn, turns: nat -> Turn)
    requires CanDrain(c.snd) && !c.snd.rtx.persist && c.snd.win.size > 0 && c.snd.out.queue == [] && !c.snd.life.pendingFin
    ensures TrySendConn(c, turns) == c
  {
    DrainBegins(c, turns);
    OnePass(c.snd.(wake := c.snd.wake.(sending := true)), HeaderOf(c), turns);
    hide DrainLoop;
  }

  lemma CongestedDrain(c: Conn, turns: nat -> Turn)
    requires CanDrain(c.snd) && !c.snd.rtx.persist && c.snd.win.size > 0 && c.snd.out.queue != [] && turns(0).congested
    ensures TrySendConn(c, turns) == c.(snd := c.snd.(wake := c.snd.wake.(waiting := true)))
  {
    DrainBegins(c, turns);
    OnePass(c.snd.(wake := c.snd.wake.(sending := true)), HeaderOf(c), turns);
    hide DrainLoop;
  }

  /** A single chunk that fits goes out whole, and then the FIN, if it waits. */
  lemma ChunkDrains(c: Conn, turns: nat -> Turn, data: seq<byte>)
    requires CanDrain(c.snd) && !turns(0).congested && c.snd.cfg.reverse && P.IsOff(c.snd.pacer)
    requires !c.snd.rtx.persist && c.snd.win.size > 0 && c.snd.cong.recoveryUntil.None?
    requires c.snd.out.queue == [data] && c.snd.out.bytes == |data| && 0 < |data| <= ChunkSize(c.snd)
    requires c.snd.cfg.highWater >= 0
    requires !SendQueued(c.snd.(wake := c.snd.wake.(sending := true)), HeaderOf(c), |data|, ACK_PSH).life.thrown
    ensures var t := SendQueued(c.snd.(wake := c.snd.wake.(sending := true)), HeaderOf(c), |data|, ACK_PSH);
      TrySendConn(c, turns) == c.(snd := MaybeFin(Idle(t), HeaderOf(c)))
  {
    hide SendQueued, MaybeFin, DrainLoop, Concat;
    var u := c.snd.(wake := c.snd.wake.(sending := true));
    DrainBegins(c, turns);
    assert ChunkSize(u) == ChunkSize(c.snd) == |data|;
    QueueUsedUp(u, HeaderOf(c), data);
    OnePass(u, HeaderOf(c), turns);
  }

  lemma QueueUsedUp(s: Sender, header: Header, data: seq<byte>)
    requires s.out.queue == [data] && s.out.bytes == |data| > 0 && s.cfg.highWater >= 0
    ensures var tracked := SendTracked(s.(out := s.out.(queue := [])), header, data, ACK_PSH);
      SendQueued(s, header, |data|, ACK_PSH) == tracked.(out := Outbox([], 0, false))
      && SendQueued(s, header, |data|, ACK_PSH).pacer == s.pacer
  {
    ConcatOne(data);
    assert TakeQueued([data], |data|) == (data + [], []) by { assert [data][1..] == []; }
    assert data + [] == data;
    hide Concat, TakeQueued, Frames, Stamp, TrackFrames;
  }

  /** What sending one chunk leaves. */
  lemma ChunkSent(s: Sender, header: Header, data: seq<byte>)
    requires Sequenced(s.rtx, s.log, s.relaySeq) && Consistent(s.log, s.trace) && !s.rtx.closed && !s.rtx.exhausted
    requires s.out.queue == [data] && s.out.bytes == |data| && 0 < |data| <= TcpMss(s) && s.cfg.highWater >= 0
    ensures var t := SendQueued(s, header, |data|, ACK_PSH);
      && t == s.(rtx := t.rtx, relaySeq := t.relaySeq, trace := t.trace, out := NOTHING, log := GrowLog(s.log, data, ACK_PSH))
      && t.rtx.payloadBytesInFlight == s.rtx.payloadBytesInFlight + |data|
      && !t.rtx.closed && !t.rtx.exhausted && t.rtx.persist == s.rtx.persist
      && Sequenced(t.rtx, t.log, t.relaySeq) && Consistent(t.log, t.trace)
  {
    hide Sequenced, Consistent, SendTracked, SendQueued;
    QueueUsedUp(s, header, data);
    SendTrackedBooks(s.(out := s.out.(queue := [])), header, data, ACK_PSH);
  }

  lemma FinFollows(s: Sender, header: Header)
    requires Sequenced(s.rtx, s.log, s.relaySeq) && Consistent(s.log, s.trace) && !s.rtx.closed && !s.rtx.exhausted
    requires s.life == Open(Established, true, false) && s.out == NOTHING && s.cong.recoveryUntil.None?
    requires s.rtx.payloadBytesInFlight < s.win.size
    ensures var t := MaybeFin(s, header);
      && t == s.(rtx := t.rtx, relaySeq := t.relaySeq, trace := t.trace, life := Open(FinWait, false, true), log := t.log)
      && t.log.stream == s.log.stream && t.rtx.payloadBytesInFlight == s.rtx.payloadBytesInFlight
      && !t.rtx.closed && !t.rtx.exhausted && t.rtx.persist == s.rtx.persist
  {
    hide Sequenced, Consistent, SendTracked;
    SendTrackedBooks(SendingFin(s), header, [], ACK_FIN);
  }

  // ----- the six steps -----

  lemma Begin0()
    ensures var s := Hello().Begin().snd;
      && s.cfg == Hello().cfg && s.cong.window == 14600 && s.cong.recoveryUntil.None? && s.pacer == P.NewPacer(s.cfg.pacing)
      && s.wake == CALM && s.out == NOTHING && s.log.stream == []
  {
    hide Frames, Stamp, TrackFrames, HeaderFor;
  }

  lemma Opens(c: Conn, busy: nat -> Turn, free: nat -> Turn)
    requires Looks(c, 100, 101, [SYN_SEGMENT], 0, 1000, 1, false, SynSent, false, false, [Syn])
    requires c.snd.cong.window == 14600 && c.snd.pacer == P.NewPacer(c.snd.cfg.pacing) && c.snd.wake == CALM && c.snd.log.stream == []
    ensures Looking(Step(c, Upload(busy, free)[0]), NOTHING, CALM, Open(Established, false, false), 0, [])
  {
    var p := Packet(500, 101, 65535, true, true, false, false, []);
    var (s, status, bytes) := AcknowledgeQueue(c.snd, 101);
    AcksSegment(c.snd.rtx, 101);
    var d := Connection.SendAck(Synchronize(c, s, p, 1460));
    hide Frames, Stamp, TrySendConn, Acknowledge;
    NothingDrains(d, busy);
  }

  lemma Uploads(c: Conn, busy: nat -> Turn, free: nat -> Turn)
    requires Looking(c, NOTHING, CALM, Open(Established, false, false), 0, []) && busy(0).congested
    ensures Looking(Step(c, Upload(busy, free)[1]), Outbox([Chunk()], 1460, true), Wakers(false, true, 0, 0),
                    Open(Established, false, false), 0, Chunk())
  {
    hide TrySendConn;
    var d := c.(snd := Enqueue(c.snd, Chunk()));
    assert [] + Chunk() == Chunk() && [] + [Chunk()] == [Chunk()];
    hide Chunk;
    CongestedDrain(d, busy);
  }

  lemma Closes(c: Conn, busy: nat -> Turn, free: nat -> Turn)
    requires Looking(c, Outbox([Chunk()], 1460, true), Wakers(false, true, 0, 0), Open(Established, false, false), 0, Chunk())
    requires busy(0).congested
    ensures Looking(Step(c, Upload(busy, free)[2]), Outbox([Chunk()], 1460, true), Wakers(false, true, 0, 0),
                    Open(Established, true, false), 0, Chunk())
  {
    hide TrySendConn, Chunk;
    CongestedDrain(c.(snd := EndSource(c.snd)), busy);
  }

  lemma Flushes(c: Conn, busy: nat -> Turn, free: nat -> Turn)
    requires Looking(c, Outbox([Chunk()], 1460, true), Wakers(false, true, 0, 0), Open(Established, true, false), 0, Chunk())
    ensures Looking(Step(c, Upload(busy, free)[3]), Outbox([Chunk()], 1460, true), Wakers(false, false, 1, 0),
                    Open(Established, true, false), 0, Chunk())
  {
    hide Chunk;
  }

  lemma BooksOf(c: Conn)
    requires ConnOk(c)
    ensures Sequenced(c.snd.rtx, c.snd.log, c.snd.relaySeq) && Consistent(c.snd.log, c.snd.trace)
  {
    hide Core, Base, Sequenced, Consistent;
    SenderIsCore(c.snd);
    CoreIsBase(c.snd);
    Unpack(c.snd);
  }

  lemma Drains(c: Conn, busy: nat -> Turn, free: nat -> Turn)
    requires ConnOk(c) && !free(0).congested
    requires Looking(c, Outbox([Chunk()], 1460, true), Wakers(false, false, 1, 0), Open(Established, true, false), 0, Chunk())
    ensures Looking(Step(c, Upload(busy, free)[4]), NOTHING, CALM, Open(FinWait, false, true), 1460, Chunk())
  {
    hide TrySendConn, Chunk, SendQueued, MaybeFin, Sequenced, Consistent, ConnOk;
    BooksOf(c);
    var d := c.(snd := WithWake(c.snd, CALM));
    var u := d.snd.(wake := d.snd.wake.(sending := true));
    ChunkSent(u, HeaderOf(d), Chunk());
    ChunkDrains(d, free, Chunk());
    FinFollows(Idle(SendQueued(u, HeaderOf(d), 1460, ACK_PSH)), HeaderOf(d));
  }

  lemma Resumes(c: Conn, busy: nat -> Turn, free: nat -> Turn)
    requires ConnOk(c) && !free(0).congested
    requires Looking(c, NOTHING, CALM, Open(FinWait, false, true), 1460, Chunk())
    ensures Step(c, Upload(busy, free)[5]).snd.log.tracked == c.snd.log.tracked + [Data(1)]
  {
    hide TrySendConn, Chunk, SendQueued, Sequenced, Consistent, ConnOk;
    BooksOf(c);
    var d := c.(snd := Enqueue(c.snd, [1]));
    assert [] + [[1]] == [[1]];
    LaterBooks(c.snd, [1]);
    var u := d.snd.(wake := d.snd.wake.(sending := true));
    ChunkSent(u, HeaderOf(d), [1]);
    ChunkDrains(d, free, [1]);
    assert Items([1], false, false) == [Data(1)];
  }

  /** The enqueued stream plays no part in these books. */
  lemma LaterBooks(s: Sender, data: seq<byte>)
    requires Sequenced(s.rtx, s.log, s.relaySeq) && Consistent(s.log, s.trace)
    ensures var t := Enqueue(s, data); Sequenced(t.rtx, t.log, t.relaySeq) && Consistent(t.log, t.trace)
  {
    hide RetransmissionProofs.Valid, Flatten, AllCarry;
  }

  /** From the first frame on, six enabled events, of which only the last puts
      anything behind the FIN: the paused upload of a client that closed ends with
      a byte the VM will take for data after the end of the stream. */
  lemma LateDataHappens(busy: nat -> Turn, free: nat -> Turn)
    requires busy(0).congested && !free(0).congested
    ensures var (c, events) := (Hello().Begin(), Upload(busy, free));
      && Schedule(c, events) && FinLast(c, events[..5])
      && Run(c, events[..3]).snd.out.sourcePaused && Run(c, events[..3]).snd.life.pendingFin
      && DataAfterFin(Run(c, events[..5]), events[5])
      && Run(c, events).snd.log.tracked == Wire(Chunk(), true) + [Data(1)]
  {
    hide Handshake.Begin, Step, Looks, Enabled, SendsAnotherFin, Wire, Chunk;
    var c0, ev := Hello().Begin(), Upload(busy, free);
    Begins();
    Begin0();
    Opens(c0, busy, free);
    var c1 := Step(c0, ev[0]);
    Uploads(c1, busy, free);
    var c2 := Step(c1, ev[1]);
    Closes(c2, busy, free);
    var c3 := Step(c2, ev[2]);
    Flushes(c3, busy, free);
    var c4 := Step(c3, ev[3]);
    ProperSteps(c0, c1, c2, c3, c4, busy, free);
    FirstFour(c0, c1, c2, c3, c4, ev);
    Drains(c4, busy, free);
    var c5 := Step(c4, ev[4]);
    StepKeepsOk(c4, ev[4]);
    FiveSteps(c0, c1, c2, c3, c4, c5, ev);
    Last(c5, busy, free);
    AfterFive(c0, c1, c2, c3, c4, c5, ev);
    Resumes(c5, busy, free);
    ThreeSteps(c0, ev);
  }

  lemma ProperSteps(c0: Conn, c1: Conn, c2: Conn, c3: Conn, c4: Conn, busy: nat -> Turn, free: nat -> Turn)
    requires Looking(c1, NOTHING, CALM, Open(Established, false, false), 0, [])
    requires Looking(c3, Outbox([Chunk()], 1460, true), Wakers(false, true, 0, 0), Open(Established, true, false), 0, Chunk())
    requires Looking(c4, Outbox([Chunk()], 1460, true), Wakers(false, false, 1, 0), Open(Established, true, false), 0, Chunk())
    ensures var ev := Upload(busy, free);
      Proper(c0, ev[0]) && Proper(c1, ev[1]) && Proper(c2, ev[2]) && Proper(c3, ev[3]) && Proper(c4, ev[4])
  {
    hide Step;
  }

  lemma FirstFour(c0: Conn, c1: Conn, c2: Conn, c3: Conn, c4: Conn, ev: seq<Event>)
    requires |ev| == 6 && c0 == Hello().Begin()
    requires c1 == Step(c0, ev[0]) && c2 == Step(c1, ev[1]) && c3 == Step(c2, ev[2]) && c4 == Step(c3, ev[3])
    requires Proper(c0, ev[0]) && Proper(c1, ev[1]) && Proper(c2, ev[2]) && Proper(c3, ev[3])
    ensures ConnOk(c4)
  {
    hide Step, Enabled, AddsAfterFin, ConnOk, Handshake.Begin;
    HelloIsValid();
    BeginOk(Hello(), []);
    StepKeepsOk(c0, ev[0]);
    StepKeepsOk(c1, ev[1]);
    StepKeepsOk(c2, ev[2]);
    StepKeepsOk(c3, ev[3]);
  }

  lemma Last(c: Conn, busy: nat -> Turn, free: nat -> Turn)
    requires ConnOk(c) && Looking(c, NOTHING, CALM, Open(FinWait, false, true), 1460, Chunk())
    ensures var e := Upload(busy, free)[5]; Enabled(c, e) && DataAfterFin(c, e)
    ensures c.snd.log.tracked == Wire(Chunk(), true)
  {
    hide ConnOk, Wire, Chunk;
    ShapeOfConn(c);
  }

  lemma ThreeSteps(c: Conn, ev: seq<Event>)
    requires |ev| == 6
    ensures Run(c, ev[..3]) == Step(Step(Step(c, ev[0]), ev[1]), ev[2])
  {
    hide Step;
    assert ev[..3] == [ev[0]] + ([ev[1]] + ([ev[2]] + []));
    Prepend(c, ev[0], [ev[1]] + ([ev[2]] + []));
    Prepend(Step(c, ev[0]), ev[1], [ev[2]] + []);
    Prepend(Step(Step(c, ev[0]), ev[1]), ev[2], []);
    Prepend(Step(Step(Step(c, ev[0]), ev[1]), ev[2]), ev[2], []);
  }
}
