/** Properties of the retransmission queue over whole runs: the timer machine,
    exhaustion, and the backoff schedule. */
module RetransmissionRuns {
  import opened Bytes
  import opened SequenceNumbers
  import opened Retransmission
  import opened RetransmissionProofs

  datatype Event =
    | DoTrack(seqNo: int, payload: seq<byte>, flags: Flags)
    | DoAcknowledge(ack: int)
    | DoFastRetransmit(reply: Reply)
    | DoSetPersist(enabled: bool, reply: Reply)
    | DoFire(id: nat, reply: Reply, probe: ProbeReply)
    | DoClose

  /** The runtime fires only timers it holds; everything else can happen at any time. */
  predicate Enabled(q: Queue, e: Event) { e.DoFire? ==> e.id in q.live }

  function Step(q: Queue, e: Event): Queue {
    match e
    case DoTrack(seqNo, payload, flags) => Track(q, seqNo, payload, flags).0
    case DoAcknowledge(ack) => Acknowledge(q, ack).0
    case DoFastRetransmit(reply) => FastRetransmit(q, reply).0
    case DoSetPersist(enabled, reply) => SetPersist(q, enabled, reply)
    case DoFire(id, reply, probe) => Fire(q, id, reply, probe)
    case DoClose => Close(q)
  }

  function Run(q: Queue, events: seq<Event>): Queue
    decreases |events|
  {
    if events == [] then q else Run(Step(q, events[0]), events[1..])
  }

  predicate Schedule(q: Queue, events: seq<Event>)
    decreases |events|
  {
    events == [] || (Enabled(q, events[0]) && Schedule(Step(q, events[0]), events[1..]))
  }

  lemma StepKeepsValid(q: Queue, e: Event)
    requires Valid(q) && Enabled(q, e)
    ensures Valid(Step(q, e))
  {
    match e {
      case DoTrack(seqNo, payload, flags) => TrackKeepsValid(q, seqNo, payload, flags);
      case DoAcknowledge(ack) => AcknowledgeDrops(q, ack);
      case DoFastRetransmit(reply) => FastRetransmitKeepsValid(q, reply);
      case DoSetPersist(enabled, reply) => SetPersistKeepsValid(q, enabled, reply);
      case DoFire(id, reply, probe) => FireKeepsValid(q, id, reply, probe);
      case DoClose => CloseKeepsValid(q);
    }
    hide Valid, Track, Acknowledge, FastRetransmit, SetPersist, Fire, Close;
  }

  /** In every reachable state: a timer is live exactly when one is needed, at
      most one is live, its closure is never rejected as outdated, its delay is
      the current RTO, and exhaustion was reported at most once, exactly when
      the queue is exhausted. */
  lemma {:induction false} TimerMachineOverRuns(cfg: Config, iss: int, events: seq<Event>)
    requires cfg.Valid() && Schedule(NewQueue(cfg, iss), events)
    ensures var q := Run(NewQueue(cfg, iss), events);
      && Valid(q)
      && (|q.live| == 1 <==> (q.segments != [] || q.persist) && !q.closed && !q.exhausted)
      && |q.live| <= 1
      && (forall id <- q.live :: id == q.timerGeneration && q.live[id] == q.currentRtoMs)
      && Exhaustions(q.calls) == (if q.exhausted then 1 else 0)
  {
    NewQueueValid(cfg, iss);
    RunKeepsValid(NewQueue(cfg, iss), events);
  }

  lemma {:induction false} RunKeepsValid(q: Queue, events: seq<Event>)
    requires Valid(q) && Schedule(q, events)
    ensures Valid(Run(q, events))
    decreases |events|
  {
    hide Valid, Step;
    if events != [] {
      StepKeepsValid(q, events[0]);
      RunKeepsValid(Step(q, events[0]), events[1..]);
    }
  }

  /** Once closed or exhausted, a queue never calls back and never arms a timer. */
  lemma {:induction false} SilentAfterwards(q: Queue, events: seq<Event>)
    requires Valid(q) && (q.closed || q.exhausted) && Schedule(q, events)
    ensures Run(q, events).calls == q.calls && Run(q, events).live == map[]
    ensures q.closed ==> Run(q, events).closed
    ensures q.exhausted ==> Run(q, events).exhausted
    decreases |events|
  {
    if events != [] {
      var q' := Step(q, events[0]);
      StepKeepsValid(q, events[0]);
      OverStaysOver(q, events[0]);
      SilentAfterwards(q', events[1..]);
    }
  }

  lemma OverStaysOver(q: Queue, e: Event)
    requires Valid(q) && (q.closed || q.exhausted) && Enabled(q, e)
    ensures Step(q, e).calls == q.calls
    ensures q.closed ==> Step(q, e).closed
    ensures q.exhausted ==> Step(q, e).exhausted
  {
    if e.DoAcknowledge? { AcknowledgeDrops(q, e.ack); }
    hide Books, DropItems, DroppedBytes, SequenceDistance, Wrap;
  }

  // ----- backoff -----

  function Pow2(k: nat): nat { if k == 0 then 1 else 2 * Pow2(k - 1) }

  /** The RTO after `k` timeouts without an answer. */
  function BackedOffRto(cfg: Config, k: nat): int { Min(cfg.initialRtoMs * Pow2(k), cfg.maxRtoMs) }

  function SumOfRtos(cfg: Config, k: nat): int {
    if k == 0 then 0 else SumOfRtos(cfg, k - 1) + BackedOffRto(cfg, k - 1)
  }

  /** Let the live timer expire `k` times with nothing heard from the peer; the
      second component is the time that took. */
  function Silence(q: Queue, k: nat): (Queue, int) {
    if k == 0 then (q, 0)
    else
      var (p, elapsed) := Silence(q, k - 1);
      if p.timer.Some? && p.timer.value in p.live then
        (Fire(p, p.timer.value, Returned, Sent), elapsed + p.live[p.timer.value])
      else (p, elapsed)
  }

  function Resends(calls: seq<Callback>): nat {
    if calls == [] then 0
    else
      var c := calls[|calls| - 1];
      Resends(calls[..|calls| - 1]) + (if c.OnPersistProbe? || (c.OnRetransmit? && c.reason.Timeout?) then 1 else 0)
  }

  lemma ResendsAppend(calls: seq<Callback>, c: Callback)
    ensures Resends(calls + [c]) ==
            Resends(calls) + (if c.OnPersistProbe? || (c.OnRetransmit? && c.reason.Timeout?) then 1 else 0)
  {
    assert (calls + [c])[..|calls|] == calls;
  }

  lemma BackOffDoubles(cfg: Config, k: nat)
    requires cfg.Valid()
    ensures BackedOffRto(cfg, k + 1) == Min(BackedOffRto(cfg, k) * 2, cfg.maxRtoMs)
  {
    assert cfg.initialRtoMs * Pow2(k + 1) == 2 * (cfg.initialRtoMs * Pow2(k));
  }

  predicate Restarted(q: Queue) {
    // `true ==` makes the conjunction one fact, which a caller proves at once and not clause by clause.
    true == (
    Valid(q) && NeedsTimer(q) && q.timeoutRetransmissions == 0 && q.currentRtoMs == q.cfg.initialRtoMs)
  }

  /** One expiry of the live timer of a queue that hears nothing. */
  lemma ExpiryUnanswered(q: Queue)
    requires Valid(q) && NeedsTimer(q)
    ensures var q' := Fire(q, q.timer.value, Returned, Sent);
      && q.timer.Some? && q.timer.value in q.live && q.live[q.timer.value] == q.currentRtoMs && q.cfg.Valid()
      && Valid(q') && q'.cfg == q.cfg && q'.persist == q.persist
      && if q.timeoutRetransmissions < q.cfg.maxRetransmissions then
           && NeedsTimer(q')
           && q'.timeoutRetransmissions == q.timeoutRetransmissions + 1
           && q'.currentRtoMs == Min(q.currentRtoMs * 2, q.cfg.maxRtoMs)
           && Resends(q'.calls) == Resends(q.calls) + 1
         else
           && q'.exhausted && q'.timer.None? && Resends(q'.calls) == Resends(q.calls)
  {
    var id := q.timer.value;
    FireKeepsValid(q, id, Returned, Sent);
    var c := if q.persist then OnPersistProbe(Oldest(q)) else OnRetransmit(BumpOldest(q.segments)[0], Timeout);
    ResendsAppend(q.calls, c);
    ResendsAppend(q.calls, OnExhausted);
    assert q.timer == Some(q.timerGeneration);
    hide Books;
  }

  /** The state after `k` unanswered expiries that took `elapsed` milliseconds. */
  predicate BackedOff(q: Queue, k: nat, p: Queue, elapsed: int) {
    true == (
    var n := q.cfg.maxRetransmissions;
    && Valid(p) && p.cfg == q.cfg
    && (p.exhausted <==> k > n)
    && Resends(p.calls) == Resends(q.calls) + Min(k, n)
    && elapsed == SumOfRtos(q.cfg, Min(k, n + 1))
    && (k <= n ==> NeedsTimer(p) && p.timeoutRetransmissions == k && p.currentRtoMs == BackedOffRto(q.cfg, k))
    && (k > n ==> p.timer.None?))
  }

  lemma BackOffStep(q: Queue, k: nat, p: Queue, elapsed: int)
    requires BackedOff(q, k, p, elapsed) && k <= q.cfg.maxRetransmissions
    ensures p.timer.Some? && p.timer.value in p.live
    ensures BackedOff(q, k + 1, Fire(p, p.timer.value, Returned, Sent), elapsed + p.live[p.timer.value])
  {
    hide Fire, Valid, Resends, BackedOffRto;
    ExpiryUnanswered(p);
    BackOffDoubles(q.cfg, k);
  }

  /** Section 5 of RFC 6298 for a silent peer: the k-th RTO is the initial one
      doubled k times and capped, exactly `maxRetransmissions` resends (probes
      in persist mode) happen, and exhaustion comes at the next expiry, after
      exactly the sum of the RTOs. */
  lemma {:induction false} SilentPeerBacksOff(q: Queue, k: nat)
    requires Restarted(q)
    ensures BackedOff(q, k, Silence(q, k).0, Silence(q, k).1)
  {
    hide BackedOff, Restarted, Fire;
    if k == 0 {
      BackOffBegins(q);
    } else {
      SilentPeerBacksOff(q, k - 1);
      var (p, elapsed) := Silence(q, k - 1);
      if k - 1 <= q.cfg.maxRetransmissions {
        BackOffStep(q, k - 1, p, elapsed);
      } else {
        BackOffOver(q, k - 1, p, elapsed);
      }
    }
  }

  lemma BackOffBegins(q: Queue)
    requires Restarted(q)
    ensures BackedOff(q, 0, q, 0)
  {
    assert BackedOffRto(q.cfg, 0) == q.cfg.initialRtoMs;
  }

  lemma BackOffOver(q: Queue, k: nat, p: Queue, elapsed: int)
    requires BackedOff(q, k, p, elapsed) && k > q.cfg.maxRetransmissions
    ensures BackedOff(q, k + 1, p, elapsed) && p.timer.None?
  {
  }

  // ----- a peer that answers -----

  /** An acknowledgement that the queue takes for an answer: it names new
      sequence space or, in persist mode, repeats the last number. */
  predicate Answers(q: Queue, e: Event) {
    && e.DoAcknowledge?
    && (Acknowledge(q, e.ack).1.Advanced? || (q.persist && Acknowledge(q, e.ack).1.Duplicate?))
  }

  /** No callback throws, and a probe that is new data continues where the queue
      ends. A callback may withhold the probe or close the queue. */
  predicate Obliging(q: Queue, e: Event) {
    match e
    case DoFastRetransmit(reply) => !reply.Threw?
    case DoSetPersist(_, reply) => !reply.Threw?
    case DoFire(_, reply, probe) =>
      !reply.Threw? && !probe.ProbeThrew? && (probe.SentTracked? ==> Wrap(probe.seqNo) == q.sndNxt)
    case _ => true
  }

  /** The timeouts since the last answer, when there were `n` before the event. */
  function Unanswered(q: Queue, n: nat, e: Event): nat {
    if e.DoFire? then n + 1 else if Answers(q, e) then 0 else n
  }

  /** Never more than `maxRetransmissions` timeouts without an answer between
      them; anything else may happen in between. */
  predicate AnsweredInTime(q: Queue, n: nat, events: seq<Event>)
    decreases |events|
  {
    events == [] || (
      && Enabled(q, events[0]) && Obliging(q, events[0])
      && (events[0].DoFire? ==> n < q.cfg.maxRetransmissions)
      && AnsweredInTime(Step(q, events[0]), Unanswered(q, n, events[0]), events[1..]))
  }

  /** Not given up on, and no more timeouts counted than went unanswered. */
  predicate Waiting(q: Queue, n: nat) {
    true == (
    Valid(q) && !q.exhausted && q.timeoutRetransmissions <= n)
  }

  lemma FireWaits(q: Queue, n: nat, e: Event)
    requires Waiting(q, n) && e.DoFire? && Obliging(q, e) && n < q.cfg.maxRetransmissions && Enabled(q, e)
    ensures Waiting(Step(q, e), n + 1) && Step(q, e).cfg == q.cfg
  {
    hide Valid, Books, TimerMachine, Wrap;
    FireKeepsValid(q, e.id, e.reply, e.probe);
    BudgetLeft(q, n);
    FireCounts(q, n, e.id, e.reply, e.probe);
  }

  lemma BudgetLeft(q: Queue, n: nat)
    requires Waiting(q, n)
    ensures Valid(q) && !q.exhausted && q.timeoutRetransmissions <= n
  {
    hide Valid;
  }

  lemma FireCounts(q: Queue, n: nat, id: nat, reply: Reply, probe: ProbeReply)
    requires !q.exhausted && q.timeoutRetransmissions <= n < q.cfg.maxRetransmissions
    requires Obliging(q, DoFire(id, reply, probe))
    ensures var p := Fire(q, id, reply, probe); !p.exhausted && p.timeoutRetransmissions <= n + 1 && p.cfg == q.cfg
  {
    hide Wrap;
  }

  lemma AcknowledgeWaits(q: Queue, n: nat, ack: int)
    requires Waiting(q, n)
    ensures Waiting(Acknowledge(q, ack).0, Unanswered(q, n, DoAcknowledge(ack))) && Acknowledge(q, ack).0.cfg == q.cfg
  {
    AcknowledgeDrops(q, ack);
    hide Valid, DropItems, DroppedBytes, SequenceDistance, Wrap;
  }

  lemma StepWaits(q: Queue, n: nat, e: Event)
    requires Waiting(q, n) && Enabled(q, e) && Obliging(q, e) && (e.DoFire? ==> n < q.cfg.maxRetransmissions)
    ensures Waiting(Step(q, e), Unanswered(q, n, e)) && Step(q, e).cfg == q.cfg
  {
    if e.DoFire? {
      FireWaits(q, n, e);
    } else if e.DoAcknowledge? {
      AcknowledgeWaits(q, n, e.ack);
    } else {
      StepKeepsValid(q, e);
    }
    hide Valid, Fire, Acknowledge, Wrap;
  }

  /** A peer that answers in time is never given up on, whatever else happens in
      between: tracking, changes of the window, resends, stale and future ACKs.
      An open queue that needs a timer still has one. */
  lemma {:induction false} AnsweringPeerNeverExhausts(q: Queue, n: nat, events: seq<Event>)
    requires Waiting(q, n) && AnsweredInTime(q, n, events)
    ensures var p := Run(q, events); Valid(p) && !p.exhausted && (NeedsTimer(p) ==> p.timer.Some?)
    decreases |events|
  {
    hide Step, Valid;
    if events == [] {
      TimerWhenNeeded(q);
    } else {
      StepWaits(q, n, events[0]);
      AnsweringPeerNeverExhausts(Step(q, events[0]), Unanswered(q, n, events[0]), events[1..]);
    }
  }

  lemma TimerWhenNeeded(q: Queue)
    requires Valid(q)
    ensures NeedsTimer(q) ==> q.timer.Some?
  {
  }
}
