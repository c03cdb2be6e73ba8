/** What the surroundings decide: new data goes out only in a pass of the drain
    loop that found the transport free and, on an outbound connection, was
    admitted by the rate limiter; and each wake-up is asked for with reason. */
module ConnectionTurns {
  import opened Bytes
  import opened SequenceNumbers
  import opened Retransmission
  import opened RetransmissionProofs
  import opened SendPath
  import opened SendInvariant
  import opened SendOperations
  import opened SendProgress
  import opened SendDrain
  import opened SendEvents
  import opened ReceivePath
  import opened Connection
  import opened ConnectionProofs
  import opened ConnectionTheorems
  import opened ConnectionPackets
  import P = Pacing

  // ----- one pass -----

  predicate Free(reverse: bool, turn: Turn) { !turn.congested && (reverse || turn.admitted) }

  /** What a pass may do, given its turn; `pass` counts from zero. */
  predicate PassEarned(s: Sender, t: Sender, again: bool, turn: Turn, pass: nat) {
    && t.cfg == s.cfg && t.pacer.cfg == s.pacer.cfg
    && (BytesOf(t.log.tracked) != BytesOf(s.log.tracked) || again ==> Free(s.cfg.reverse, turn))
    && (t.wake.waiting ==> s.wake.waiting || turn.congested)
    && (t.wake.retries > s.wake.retries ==> !s.cfg.reverse && !turn.admitted)
    && (t.wake.immediates > s.wake.immediates ==> P.IsOff(s.pacer) && pass >= 63 && Free(s.cfg.reverse, turn))
    && (again && P.IsOff(s.pacer) ==> pass < 63)
    && (again ==> t.wake.waiting == s.wake.waiting && t.wake.retries == s.wake.retries && t.wake.immediates == s.wake.immediates)
  }

  /** `k` segments can hold `n` bytes, and each holds one at least. */
  predicate Fits(n: int, k: int, mss: int) { k <= n <= k * Max(1, mss) }

  /** A pass tells a pacer that is on of the one segment it sends, and when. */
  predicate PassMetered(s: Sender, t: Sender, turn: Turn) {
    && (s.life.thrown ==> t.life.thrown)
    && (!t.life.thrown && !P.IsOff(s.pacer) ==>
          var n := |BytesOf(t.log.tracked)| - |BytesOf(s.log.tracked)|;
          if n == 0 then t.pacer.past.sent == s.pacer.past.sent
          else 1 <= n <= Max(1, s.cfg.tcpMss) && t.pacer.past.sent == s.pacer.past.sent + [turn.now])
  }

  lemma PassIsEarned(s: Sender, header: Header, turn: Turn, pass: nat)
    ensures var (t, again) := DrainPass(s, header, turn, pass); PassEarned(s, t, again, turn, pass)
  {
    hide MaybeFin, SendQueued, RecoveryComplete, ChunkSize, Available, BytesOf;
    FinFollows(Idle(s), header);
    var r := EndFinishedRecovery(s);
    if ChunkSize(r) > 0 {
      ChunkFrame(r, header, ChunkSize(r));
      var c := SendQueued(r, header, ChunkSize(r), ACK_PSH);
      FinFollows(Idle(c.(pacer := P.NoteSegment(c.pacer, turn.now))), header);
    }
  }

  lemma PassIsMetered(s: Sender, header: Header, turn: Turn, pass: nat)
    ensures PassMetered(s, DrainPass(s, header, turn, pass).0, turn)
  {
    hide MaybeFin, SendQueued, RecoveryComplete, Available, BytesOf;
    FinFollows(Idle(s), header);
    var r := EndFinishedRecovery(s);
    if ChunkSize(r) > 0 {
      ChunkFrame(r, header, ChunkSize(r));
      ChunkBytes(r, header, ChunkSize(r));
      var c := SendQueued(r, header, ChunkSize(r), ACK_PSH);
      FinFollows(Idle(c.(pacer := P.NoteSegment(c.pacer, turn.now))), header);
    }
  }

  lemma ChunkBytes(s: Sender, header: Header, length: nat)
    ensures var t := SendQueued(s, header, length, ACK_PSH);
      && (s.life.thrown ==> t.life.thrown)
      && (!t.life.thrown ==> |BytesOf(t.log.tracked)| == |BytesOf(s.log.tracked)| + length)
  {
    hide Frames, Stamp, TrackFrames, Concat;
    if length <= |Concat(s.out.queue)| {
      TakeQueuedSplits(s.out.queue, length);
      var chunk := TakeQueued(s.out.queue, length).0;
      BytesOfAppend(s.log.tracked, Items(chunk, false, false));
      BytesOfItems(chunk, false, false);
      hide TakeQueued, BytesOf, Items;
    }
  }

  lemma ChunkFrame(s: Sender, header: Header, length: nat)
    ensures var t := SendQueued(s, header, length, ACK_PSH); t.wake == s.wake && t.cfg == s.cfg && t.pacer == s.pacer
  {
    hide Frames, Stamp, TrackFrames, TakeQueued, Concat;
  }

  // ----- a drain -----

  /** Some pass from `pass` on found the way free. */
  ghost predicate SomeFree(reverse: bool, turns: nat -> Turn, pass: nat) { exists i: nat :: i >= pass && Free(reverse, turns(i)) }

  ghost predicate SomeCongested(turns: nat -> Turn) { exists i: nat :: turns(i).congested }

  ghost predicate SomeRefused(turns: nat -> Turn) { exists i: nat :: !turns(i).admitted }

  /** Sixty-four passes in a row found the way free. */
  ghost predicate FullTurn(reverse: bool, turns: nat -> Turn, pass: nat) { forall i: nat :: pass <= i < 64 ==> Free(reverse, turns(i)) }

  /** The new entries are clock readings of these turns. */
  ghost predicate OnClock(sent: seq<int>, from: nat, turns: nat -> Turn) {
    forall k :: from <= k < |sent| ==> ClockReads(turns, sent[k])
  }

  ghost predicate ClockReads(turns: nat -> Turn, now: int) { exists i: nat :: turns(i).now == now }

  /** A pacer that is on is told of every segment of new data, at the time the
      clock showed, and of nothing else. */
  ghost predicate Metered(s: Sender, t: Sender, turns: nat -> Turn) {
    && (s.life.thrown ==> t.life.thrown)
    && (!t.life.thrown && !P.IsOff(s.pacer) ==>
          && s.pacer.past.sent <= t.pacer.past.sent && OnClock(t.pacer.past.sent, |s.pacer.past.sent|, turns)
          && Fits(|BytesOf(t.log.tracked)| - |BytesOf(s.log.tracked)|, |t.pacer.past.sent| - |s.pacer.past.sent|, s.cfg.tcpMss))
  }

  lemma MeteredTrans(s: Sender, t: Sender, u: Sender, turns: nat -> Turn)
    requires Metered(s, t, turns) && Metered(t, u, turns) && t.cfg == s.cfg && t.pacer.cfg == s.pacer.cfg
    ensures Metered(s, u, turns)
  {
    hide BytesOf;
    if !u.life.thrown && !P.IsOff(s.pacer) {
      var (a, b, c) := (s.pacer.past.sent, t.pacer.past.sent, u.pacer.past.sent);
      MoreFits(|BytesOf(t.log.tracked)| - |BytesOf(s.log.tracked)|, |b| - |a|,
               |BytesOf(u.log.tracked)| - |BytesOf(t.log.tracked)|, |c| - |b|, s.cfg.tcpMss);
      forall k | |a| <= k < |c| ensures ClockReads(turns, c[k]) {
        if k < |b| { assert c[k] == b[k]; }
      }
    }
  }

  lemma MoreFits(n: int, k: int, m: int, j: int, mss: int)
    requires Fits(n, k, mss) && Fits(m, j, mss)
    ensures Fits(n + m, k + j, mss)
  {
    assert (k + j) * Max(1, mss) == k * Max(1, mss) + j * Max(1, mss);
  }

  lemma MeteredStill(s: Sender, t: Sender, turns: nat -> Turn)
    requires t.log.tracked == s.log.tracked && t.pacer.past.sent == s.pacer.past.sent && (s.life.thrown ==> t.life.thrown)
    ensures Metered(s, t, turns)
  {
    hide BytesOf;
  }

  lemma PassIsMeteredAs(s: Sender, t: Sender, turns: nat -> Turn, pass: nat)
    requires PassMetered(s, t, turns(pass))
    ensures Metered(s, t, turns)
  {
    hide BytesOf;
    if !t.life.thrown && !P.IsOff(s.pacer) && |BytesOf(t.log.tracked)| != |BytesOf(s.log.tracked)| {
      assert turns(pass).now == t.pacer.past.sent[|s.pacer.past.sent|];
    }
  }

  ghost predicate LoopEarned(s: Sender, t: Sender, turns: nat -> Turn, pass: nat) {
    // `true ==` makes the conjunction one fact, which a caller proves at once and not clause by clause.
    true == (
    && t.cfg == s.cfg && t.pacer.cfg == s.pacer.cfg
    && (BytesOf(t.log.tracked) != BytesOf(s.log.tracked) ==> SomeFree(s.cfg.reverse, turns, pass))
    && (t.wake.waiting ==> s.wake.waiting || SomeCongested(turns))
    && (t.wake.retries > s.wake.retries ==> !s.cfg.reverse && SomeRefused(turns))
    && (t.wake.immediates > s.wake.immediates ==> P.IsOff(s.pacer) && FullTurn(s.cfg.reverse, turns, pass))
    && Metered(s, t, turns))
  }

  lemma {:induction false} LoopIsEarned(s: Sender, header: Header, turns: nat -> Turn, pass: nat)
    ensures LoopEarned(s, DrainLoop(s, header, turns, pass), turns, pass)
    decreases s.out.bytes
  {
    hide DrainPass, BytesOf, PassEarned, PassMetered, Metered, LoopEarned;
    PassIsEarned(s, header, turns(pass), pass);
    PassIsMetered(s, header, turns(pass), pass);
    var (t, again) := DrainPass(s, header, turns(pass), pass);
    PassIsMeteredAs(s, t, turns, pass);
    if again {
      LoopIsEarned(t, header, turns, pass + 1);
      MorePasses(s, t, DrainLoop(t, header, turns, pass + 1), turns, pass);
    } else {
      LastPass(s, t, turns, pass);
    }
  }

  lemma LastPass(s: Sender, t: Sender, turns: nat -> Turn, pass: nat)
    requires PassEarned(s, t, false, turns(pass), pass) && Metered(s, t, turns)
    ensures LoopEarned(s, t, turns, pass)
  {
    hide BytesOf, Metered;
    if Free(s.cfg.reverse, turns(pass)) { assert SomeFree(s.cfg.reverse, turns, pass); }
  }

  lemma MorePasses(s: Sender, t: Sender, u: Sender, turns: nat -> Turn, pass: nat)
    requires PassEarned(s, t, true, turns(pass), pass) && Metered(s, t, turns) && LoopEarned(t, u, turns, pass + 1)
    ensures LoopEarned(s, u, turns, pass)
  {
    hide BytesOf, Metered;
    MeteredTrans(s, t, u, turns);
    assert SomeFree(s.cfg.reverse, turns, pass);
  }

  /** With pacing off a drain hands out at most 64 chunks before it lets others
      run: what it does depends on no turn after the 64th. */
  lemma {:induction false} AtMost64Chunks(s: Sender, header: Header, turns: nat -> Turn, others: nat -> Turn, pass: nat)
    requires P.IsOff(s.pacer) && pass < 64 && forall i: nat :: i < 64 ==> turns(i) == others(i)
    ensures DrainLoop(s, header, turns, pass) == DrainLoop(s, header, others, pass)
    decreases s.out.bytes
  {
    PassIsEarned(s, header, turns(pass), pass);
    hide DrainPass, BytesOf;
    var (t, again) := DrainPass(s, header, turns(pass), pass);
    if again { AtMost64Chunks(t, header, turns, others, pass + 1); }
  }

  // ----- events -----

  /** What a step may do that is given `turns`. One acknowledgement may start two
      drains, each with turns of its own. */
  ghost predicate Earned(s: Sender, t: Sender, turns: nat -> Turn) {
    true == (
    && t.cfg == s.cfg && t.pacer.cfg == s.pacer.cfg
    && (BytesOf(t.log.tracked) != BytesOf(s.log.tracked) ==> SomeFree(s.cfg.reverse, turns, 0))
    && (t.wake.waiting ==> s.wake.waiting || SomeCongested(turns))
    && (t.wake.retries > s.wake.retries ==> !s.cfg.reverse && SomeRefused(turns))
    && (t.wake.immediates > s.wake.immediates ==>
          P.IsOff(s.pacer) && (FullTurn(s.cfg.reverse, turns, 0) || FullTurn(s.cfg.reverse, FirstDrain(turns), 0)
                               || FullTurn(s.cfg.reverse, SecondDrain(turns), 0)))
    && Metered(s, t, turns))
  }

  /** Steps that hand out nothing and ask for nothing. */
  predicate Modest(s: Sender, t: Sender) {
    && t.cfg == s.cfg && t.pacer.cfg == s.pacer.cfg && t.log.tracked == s.log.tracked
    && (t.wake.waiting ==> s.wake.waiting) && t.wake.retries == s.wake.retries && t.wake.immediates == s.wake.immediates
    && t.pacer.past.sent == s.pacer.past.sent && (s.life.thrown ==> t.life.thrown)
  }

  lemma EarnedAround(s: Sender, t: Sender, u: Sender, v: Sender, turns: nat -> Turn)
    requires Modest(s, t) && Earned(t, u, turns) && Modest(u, v)
    ensures Earned(s, v, turns)
  {
    hide BytesOf, FullTurn, Metered;
    MeteredStill(s, t, turns);
    MeteredTrans(s, t, u, turns);
    MeteredStill(u, v, turns);
    MeteredTrans(s, u, v, turns);
  }

  lemma EarnedModestly(s: Sender, t: Sender, turns: nat -> Turn)
    requires Modest(s, t)
    ensures Earned(s, t, turns)
  {
    hide BytesOf, Metered;
    MeteredStill(s, t, turns);
  }

  lemma TrySendIsEarned(c: Conn, turns: nat -> Turn)
    ensures LoopEarned(c.snd, TrySendConn(c, turns).snd, turns, 0)
  {
    hide DrainLoop, BytesOf, Frames, Stamp, Retransmission.SetPersist, SomeFree, SomeCongested, SomeRefused, FullTurn, Metered;
    MeteredStill(c.snd, c.snd, turns);
    if CanDrain(c.snd) {
      var u := SendPath.SetPersist(c.snd.(wake := c.snd.wake.(sending := true)), HeaderOf(c), WantsPersist(c.snd));
      LoopIsEarned(u, HeaderOf(c), turns, 0);
      MeteredStill(c.snd, u, turns);
      MeteredTrans(c.snd, u, TrySendConn(c, turns).snd, turns);
    }
  }

  lemma OneDrain(c: Conn, turns: nat -> Turn)
    ensures Earned(c.snd, TrySendConn(c, turns).snd, turns)
  {
    hide TrySendConn, BytesOf, Metered;
    TrySendIsEarned(c, turns);
  }

  lemma TwoDrains(c: Conn, advanced: bool, changed: bool, turns: nat -> Turn)
    ensures Earned(c.snd, DrainTwice(c, advanced, changed, turns).snd, turns)
  {
    hide TrySendConn, BytesOf, Metered;
    TrySendIsEarned(c, FirstDrain(turns));
    var d := if advanced then TrySendConn(c, FirstDrain(turns)) else c;
    var e := d.(snd := SetDuplicates(d.snd, 0));
    TrySendIsEarned(e, SecondDrain(turns));
    InFirst(c.snd.cfg.reverse, turns);
    InSecond(c.snd.cfg.reverse, turns);
    MeteredStill(c.snd, c.snd, turns);
    MeteredOf(c.snd, TrySendConn(c, FirstDrain(turns)).snd, turns);
    MeteredStill(d.snd, e.snd, turns);
    MeteredOf(e.snd, TrySendConn(e, SecondDrain(turns)).snd, turns);
    MeteredTrans(c.snd, d.snd, e.snd, turns);
    MeteredTrans(c.snd, e.snd, TrySendConn(e, SecondDrain(turns)).snd, turns);
    hide SomeFree, SomeCongested, SomeRefused, FullTurn;
  }

  lemma MeteredOf(s: Sender, t: Sender, turns: nat -> Turn)
    requires Metered(s, t, FirstDrain(turns)) || Metered(s, t, SecondDrain(turns))
    ensures Metered(s, t, turns)
  {
    hide BytesOf, Fits;
    var first, second := FirstDrain(turns), SecondDrain(turns);
    if !t.life.thrown && !P.IsOff(s.pacer) {
      var sent := t.pacer.past.sent;
      forall k | |s.pacer.past.sent| <= k < |sent| ensures ClockReads(turns, sent[k]) {
        if OnClock(sent, |s.pacer.past.sent|, first) {
          var i: nat :| first(i).now == sent[k];
          assert turns(2 * i).now == sent[k];
        } else {
          var i: nat :| second(i).now == sent[k];
          assert turns(2 * i + 1).now == sent[k];
        }
      }
    }
  }

  lemma InFirst(reverse: bool, turns: nat -> Turn)
    ensures SomeFree(reverse, FirstDrain(turns), 0) ==> SomeFree(reverse, turns, 0)
    ensures SomeCongested(FirstDrain(turns)) ==> SomeCongested(turns)
    ensures SomeRefused(FirstDrain(turns)) ==> SomeRefused(turns)
  {
    var first := FirstDrain(turns);
    if i: nat :| Free(reverse, first(i)) { assert Free(reverse, turns(2 * i)); }
    if i: nat :| first(i).congested { assert turns(2 * i).congested; }
    if i: nat :| !first(i).admitted { assert !turns(2 * i).admitted; }
  }

  lemma InSecond(reverse: bool, turns: nat -> Turn)
    ensures SomeFree(reverse, SecondDrain(turns), 0) ==> SomeFree(reverse, turns, 0)
    ensures SomeCongested(SecondDrain(turns)) ==> SomeCongested(turns)
    ensures SomeRefused(SecondDrain(turns)) ==> SomeRefused(turns)
  {
    var second := SecondDrain(turns);
    if i: nat :| Free(reverse, second(i)) { assert Free(reverse, turns(2 * i + 1)); }
    if i: nat :| second(i).congested { assert turns(2 * i + 1).congested; }
    if i: nat :| !second(i).admitted { assert !turns(2 * i + 1).admitted; }
  }

  lemma AckIsModest(s: Sender, header: Header, p: Packet)
    ensures Modest(s, ProcessAck(s, header, p).0)
  {
    hide CongestionAck, CountDuplicate, Acknowledge, Wrap, NextWindow, Modest;
    var w := UpdateWindow(AcknowledgeQueue(s, p.ack).0, p.seqNo, p.ack, p.window);
    var u := w.(cong := w.cong.(dupAckCount := 0, fastRetransmitAck := None));
    RewardIsModest(u, header, AcknowledgeQueue(s, p.ack).2, p.ack);
    CountIsModest(w, header, p.ack);
    AcceptIsModest(s, p);
    ModestTrans(s, u, CongestionAck(u, header, AcknowledgeQueue(s, p.ack).2, p.ack));
    ModestTrans(s, w, CountDuplicate(w, header, p.ack));
  }

  lemma ModestTrans(s: Sender, t: Sender, u: Sender)
    requires Modest(s, t) && Modest(t, u)
    ensures Modest(s, u)
  {
  }

  lemma AcceptIsModest(s: Sender, p: Packet)
    ensures var a := AcknowledgeQueue(s, p.ack).0;
      var w := UpdateWindow(a, p.seqNo, p.ack, p.window);
      Modest(s, a) && Modest(s, w) && Modest(s, w.(cong := w.cong.(dupAckCount := 0, fastRetransmitAck := None)))
  {
    hide Acknowledge, Wrap, NextWindow;
  }

  lemma RewardIsModest(s: Sender, header: Header, bytes: int, ack: U32)
    ensures Modest(s, CongestionAck(s, header, bytes, ack))
  {
    hide Frames, Stamp, GrowWindow, RecoveryComplete;
  }

  lemma CountIsModest(s: Sender, header: Header, ack: U32)
    ensures Modest(s, CountDuplicate(s, header, ack))
  {
    hide Frames, Stamp, Retransmission.FastRetransmit;
  }

  lemma DataPartIsModest(c: Conn, p: Packet, answer: SinkAnswer)
    ensures Modest(c.snd, DataPart(c, p, answer).snd)
  {
    DataPartOnlyAnswers(c, p, answer);
    hide DataPart;
  }

  lemma FastResendIsModest(c: Conn)
    ensures Modest(c.snd, SendPath.FastRetransmit(c.snd, HeaderOf(c)))
  {
    hide Frames, Stamp, Retransmission.FastRetransmit;
  }

  lemma EndingIsModest(c: Conn, reset: bool)
    ensures Modest(c.snd, AbortConn(c, reset).snd) && Modest(c.snd, FinishConn(c).snd)
  {
    hide Frames, Stamp, Close;
  }

  lemma SendAckIsModest(c: Conn)
    ensures Modest(c.snd, SendAck(c).snd)
  {
    hide Frames, Stamp;
  }

  lemma AfterAckIsEarned(c: Conn, p: Packet, acted: bool, changed: bool, turns: nat -> Turn, answer: SinkAnswer)
    ensures Earned(c.snd, AfterAck(c, p, acted, changed, turns, answer).snd, turns)
  {
    hide TrySendConn, DataPart, FinishConn, Earned, BothDone;
    EarnedModestly(c.snd, c.snd, turns);
    EndingIsModest(c, false);
    EarnedModestly(c.snd, FinishConn(c).snd, turns);
    var d := if changed then c.(snd := SetDuplicates(c.snd, 0)) else c;
    OneDrain(d, turns);
    EarnedModestly(d.snd, d.snd, turns);
    var m := if acted then TrySendConn(d, turns) else d;
    DataPartIsModest(m, p, answer);
    EarnedAround(c.snd, d.snd, m.snd, DataPart(m, p, answer).snd, turns);
  }

  lemma OutboundIsEarned(c: Conn, p: Packet, turns: nat -> Turn, answer: SinkAnswer)
    ensures Earned(c.snd, HandleOutbound(c, p, turns, answer).snd, turns)
  {
    hide AfterAck, AbortConn, SendPath.FastRetransmit, ProcessAck, SendAck, Earned;
    EarnedModestly(c.snd, c.snd, turns);
    FastResendIsModest(c);
    EarnedModestly(c.snd, SendPath.FastRetransmit(c.snd, HeaderOf(c)), turns);
    EndingIsModest(c, false);
    EarnedModestly(c.snd, AbortConn(c, false).snd, turns);
    if !p.hasAck {
      AfterAckIsEarned(c, p, false, false, turns, answer);
    } else {
      var (s, status, changed) := ProcessAck(c.snd, HeaderOf(c), p);
      AckIsModest(c.snd, HeaderOf(c), p);
      EarnedModestly(c.snd, s, turns);
      var a := c.(snd := s);
      var e := SendAck(a.(snd := WithState(s, Established)));
      SendAckIsModest(a.(snd := WithState(s, Established)));
      ThenAfterAck(c, e, p, true, changed, turns, answer);
      ThenAfterAck(c, a, p, status.Advanced? || changed, changed, turns, answer);
    }
  }

  lemma ThenAfterAck(c: Conn, a: Conn, p: Packet, acted: bool, changed: bool, turns: nat -> Turn, answer: SinkAnswer)
    requires Modest(c.snd, a.snd)
    ensures Earned(c.snd, AfterAck(a, p, acted, changed, turns, answer).snd, turns)
  {
    hide AfterAck, Earned;
    AfterAckIsEarned(a, p, acted, changed, turns, answer);
    var d := AfterAck(a, p, acted, changed, turns, answer);
    EarnedAround(c.snd, a.snd, d.snd, d.snd, turns);
  }

  lemma EstablishIsEarned(c: Conn, p: Packet, mss: nat, turns: nat -> Turn)
    ensures Earned(c.snd, EstablishReverse(c, p, mss, turns).snd, turns)
  {
    hide TrySendConn, SendAck, Acknowledge, Earned, Wrap;
    var (s, status, bytes) := AcknowledgeQueue(c.snd, p.ack);
    EarnedModestly(c.snd, s, turns);
    var m := Synchronize(c, s, p, mss);
    SendAckIsModest(m);
    OneDrain(SendAck(m), turns);
    var d := TrySendConn(SendAck(m), turns);
    EarnedAround(c.snd, SendAck(m).snd, d.snd, d.snd, turns);
  }

  lemma ReverseAckIsEarned(c: Conn, p: Packet, turns: nat -> Turn, answer: SinkAnswer)
    ensures Earned(c.snd, ReverseAckPart(c, p, turns, answer).snd, turns)
  {
    hide DrainTwice, DataPart, FinishConn, ProcessAck, BothDone, Earned;
    DataPartIsModest(c, p, answer);
    EarnedModestly(c.snd, DataPart(c, p, answer).snd, turns);
    var (s, status, changed) := ProcessAck(c.snd, HeaderOf(c), p);
    var a := c.(snd := s);
    AckIsModest(c.snd, HeaderOf(c), p);
    EarnedModestly(c.snd, s, turns);
    EndingIsModest(a, false);
    EarnedModestly(c.snd, FinishConn(a).snd, turns);
    TwoDrains(a, status.Advanced?, changed, turns);
    var m := DrainTwice(a, status.Advanced?, changed, turns);
    DataPartIsModest(m, p, answer);
    EarnedAround(c.snd, a.snd, m.snd, DataPart(m, p, answer).snd, turns);
  }

  lemma ReverseIsEarned(c: Conn, p: Packet, mss: nat, turns: nat -> Turn, answer: SinkAnswer)
    ensures Earned(c.snd, HandleReverse(c, p, mss, turns, answer).snd, turns)
  {
    hide AbortConn, SendAck, EstablishReverse, ReverseAckPart, Earned;
    EarnedModestly(c.snd, c.snd, turns);
    EndingIsModest(c, false);
    EarnedModestly(c.snd, AbortConn(c, false).snd, turns);
    SendAckIsModest(c);
    EarnedModestly(c.snd, SendAck(c).snd, turns);
    EstablishIsEarned(c, p, mss, turns);
    ReverseAckIsEarned(c, p, turns, answer);
  }

  /** Where an event finds the sending half: the resume that fired, or the
      transport waiter that was told, is no longer armed. */
  function Found(c: Conn, e: Event): Sender { if Wakes(e) then Woken(c.snd, e) else c.snd }

  predicate HasTurns(e: Event) {
    e.SourceData? || e.SourceEnd? || e.Arrives? || e.PacerTimerFires? || e.ImmediateRuns? || e.RetryTimerFires?
  }

  /** Whatever the event and the state: only a free pass gives sequence space to
      data; a transport waiter means a congested pass, a rate-limit timeout an
      outbound pass that was refused, an immediate resume 64 free passes. */
  lemma StepIsEarned(c: Conn, e: Event)
    requires HasTurns(e)
    ensures Earned(Found(c, e), Step(c, e).snd, e.turns)
  {
    hide TrySendConn, HandleReverse, HandleOutbound, Earned;
    if Wakes(e) {
      StepOfWake(c, e);
      OneDrain(c.(snd := Woken(c.snd, e)), e.turns);
    } else if e.SourceData? {
      EarnedModestly(c.snd, c.snd, e.turns);
      AfterEntering(c, Enqueue(c.snd, e.data), e.turns);
    } else if e.SourceEnd? {
      EarnedModestly(c.snd, c.snd, e.turns);
      AfterEntering(c, EndSource(c.snd), e.turns);
    } else {
      OutboundIsEarned(c, e.p, e.turns, e.answer);
      ReverseIsEarned(c, e.p, e.mss, e.turns, e.answer);
    }
  }

  lemma AfterEntering(c: Conn, s: Sender, turns: nat -> Turn)
    requires Modest(c.snd, s)
    ensures Earned(c.snd, TrySendConn(c.(snd := s), turns).snd, turns)
  {
    hide TrySendConn, Earned;
    OneDrain(c.(snd := s), turns);
    var d := TrySendConn(c.(snd := s), turns);
    EarnedAround(c.snd, s, d.snd, d.snd, turns);
  }

  /** The events that bring no turns hand out nothing and ask for nothing, but for
      the retransmission timer's probe and the resume a flush asks for. */
  lemma OtherStepsAreModest(c: Conn, e: Event)
    requires !HasTurns(e) && !e.RetransmissionTimerFires? && !e.TransportFlushed?
    ensures Modest(c.snd, Step(c, e).snd)
  {
    hide SendAck, AbortConn;
    SendAckIsModest(c);
    SendAckIsModest(c.(ackTimer := false));
    var d := c.(rcv := c.rcv.(backpressured := false));
    SendAckIsModest(d.(ackPending := d.ackPending + 0));
    if e.Fails? { EndingIsModest(c, e.open); }
  }

  /** The rate limiter is obeyed, and so is the transport: if every pass of an
      event is refused, or finds the transport congested, no data gets sequence
      space. Only a zero-window probe does without being asked. */
  lemma RefusedSendsNothing(c: Conn, e: Event)
    requires !e.RetransmissionTimerFires?
    requires HasTurns(e) ==> forall i: nat :: e.turns(i).congested || (!c.snd.cfg.reverse && !e.turns(i).admitted)
    ensures BytesOf(Step(c, e).snd.log.tracked) == BytesOf(c.snd.log.tracked)
  {
    hide Step, BytesOf;
    if HasTurns(e) {
      StepIsEarned(c, e);
    } else if e.TransportFlushed? {
      StepOfWake(c, e);
    } else {
      OtherStepsAreModest(c, e);
    }
  }

  /** Pacing covers everything: in every reachable state, a pacer that is on is told
      of each segment of new data the next event sends, with a clock reading of one
      of its turns, and of nothing else. So the bound on what the pacer was told of
      bounds the bytes sent; only a zero-window probe sends its byte unpaced. */
  lemma PacerIsTold(h: Handshake, events: seq<Event>, c: Conn, e: Event)
    requires Reaches(h, events, c) && Enabled(c, e) && !AddsAfterFin(c, e) && !P.IsOff(c.snd.pacer)
    requires !e.RetransmissionTimerFires?
    ensures var (s, t) := (c.snd, Step(c, e).snd);
      && s.pacer.past.sent <= t.pacer.past.sent
      && (if HasTurns(e) then OnClock(t.pacer.past.sent, |s.pacer.past.sent|, e.turns) else t.pacer.past.sent == s.pacer.past.sent)
      && Fits(|BytesOf(t.log.tracked)| - |BytesOf(s.log.tracked)|, |t.pacer.past.sent| - |s.pacer.past.sent|, s.cfg.tcpMss)
  {
    hide Reaches, ConnOk, Step, Core, Base, BytesOf, Enabled, AddsAfterFin, Fits;
    ReachedOk(h, events, c);
    StepKeepsOk(c, e);
    OkIsSenderOk(Step(c, e));
    NotThrown(Step(c, e).snd);
    if HasTurns(e) {
      StepIsEarned(c, e);
      WakingSendsNothing(c, e);
    } else if e.TransportFlushed? {
      StepOfWake(c, e);
      NoneFits(c.snd.cfg.tcpMss);
    } else {
      OtherStepsAreModest(c, e);
      NoneFits(c.snd.cfg.tcpMss);
    }
  }

  lemma NotThrown(s: Sender)
    requires SenderOk(s)
    ensures !s.life.thrown
  {
    hide Core;
    OpenFacts(s);
  }

  lemma NoneFits(mss: int)
    ensures Fits(0, 0, mss)
  {
  }

  lemma WakingSendsNothing(c: Conn, e: Event)
    ensures var s := Found(c, e);
      && s.log == c.snd.log && s.pacer.past.sent == c.snd.pacer.past.sent && s.cfg == c.snd.cfg && s.pacer.cfg == c.snd.pacer.cfg
  {
  }

  /** What was refused is not forgotten: if an event leaves data waiting although
      the windows have room, no pass was congested and the pacer is open, then an
      outbound connection has a rate-limit timeout to try again, or 64 chunks went
      out and the next ones are to follow at once. */
  lemma RefusedIsRetried(h: Handshake, events: seq<Event>, c: Conn, e: Event)
    requires Reaches(h, events, c) && Enabled(c, e) && !AddsAfterFin(c, e) && HasTurns(e)
    requires !Found(c, e).wake.waiting && forall i: nat :: !e.turns(i).congested
    ensures var t := Step(c, e).snd;
      t.life.current && !t.life.state.SynSent? && !t.life.state.Closed? && !Full(t) ==>
        t.pacer.blocked || t.wake.retries > 0 || t.wake.immediates > 0
  {
    hide Reaches, ConnOk, Step, Core, Base, Full, BytesOf, Enabled, AddsAfterFin;
    ReachedOk(h, events, c);
    StepKeepsOk(c, e);
    StepIsEarned(c, e);
    OkIsSenderOk(Step(c, e));
  }
}
