/** The segment pacer of tcp_pacer.js: its operations as functions on a value,
    and the bound it gives over whole runs. */
module Pacing {
  import opened Bytes

  datatype Mode = Adaptive | Fixed | Off

  datatype Settings = Settings(mode: Mode, initialBurst: int, maxBurst: int, intervalMs: int)
  {
    /** The constructor's argument checks (tcp_pacer.js:15-33). */
    predicate Valid() { 1 <= initialBurst <= maxBurst && 0 <= intervalMs }

    /** An interval of zero switches pacing off. */
    function EffectiveMode(): Mode { if intervalMs == 0 then Off else mode }
  }

  /** `timer` is the runtime's resume timer, by the time it falls due. */
  datatype Pacer = Pacer(
    cfg: Settings,
    burstSegments: int,
    segmentsInBurst: int,
    ackedBytes: int,
    lastSegmentAt: Option<int>,
    blocked: bool,
    timer: Option<int>,
    past: Past)

  /** History of a pacer that is not off: the times of the segments it was told
      of, whether each was no earlier than the one before and than `due`, whether
      each found the gate open, when the last resume timer to fire fell due, and
      whether the pacer was closed. */
  datatype Past = Past(sent: seq<int>, onTime: bool, gated: bool, due: Option<int>, closed: bool)

  function NewPacer(cfg: Settings): Pacer {
    Pacer(cfg, cfg.initialBurst, 0, 0, None, false, None, Past([], true, true, None, false))
  }

  predicate NotBefore(now: int, earliest: Option<int>) { earliest.Some? ==> earliest.value <= now }

  function Told(p: Pacer, now: int): Past {
    Past(p.past.sent + [now], p.past.onTime && NotBefore(now, p.lastSegmentAt) && NotBefore(now, p.past.due),
         p.past.gated && !p.blocked && !p.past.closed, p.past.due, p.past.closed)
  }

  predicate IsOff(p: Pacer) { p.cfg.EffectiveMode().Off? }

  function NoteAck(p: Pacer, ackedBytes: int, congestionWindowBytes: int): Pacer {
    if !p.cfg.EffectiveMode().Adaptive? || ackedBytes <= 0 then p
    else
      var threshold := Max(1, congestionWindowBytes);
      var total := p.ackedBytes + ackedBytes;
      if total < threshold || p.burstSegments >= p.cfg.maxBurst then p.(ackedBytes := total)
      else p.(ackedBytes := total - threshold, burstSegments := p.burstSegments + 1)
  }

  function NoteLoss(p: Pacer): Pacer {
    if !p.cfg.EffectiveMode().Adaptive? then p.(ackedBytes := 0)
    else p.(ackedBytes := 0, burstSegments := Max(p.cfg.initialBurst, p.burstSegments / 2))
  }

  predicate StaleBurst(p: Pacer, now: int) {
    p.lastSegmentAt.Some? && now - p.lastSegmentAt.value >= p.cfg.intervalMs
  }

  /** `noteSegment`: its boolean result is the `blocked` it leaves behind. */
  function NoteSegment(p: Pacer, now: int): Pacer {
    if IsOff(p) then p
    else if p.blocked then p.(past := Told(p, now))
    else
      var n := (if StaleBurst(p, now) then 0 else p.segmentsInBurst) + 1;
      if n < p.burstSegments then p.(lastSegmentAt := Some(now), segmentsInBurst := n, past := Told(p, now))
      else p.(lastSegmentAt := Some(now), segmentsInBurst := 0, blocked := true,
              timer := Some(now + p.cfg.intervalMs), past := Told(p, now))
  }

  function TimerFires(p: Pacer): Pacer {
    p.(timer := None, blocked := false, past := p.past.(due := if p.timer.Some? then p.timer else p.past.due))
  }

  function ClosePacer(p: Pacer): Pacer {
    p.(timer := None, blocked := false, segmentsInBurst := 0, past := p.past.(closed := true))
  }

  predicate Sorted(s: seq<int>) { forall i, j :: 0 <= i <= j < |s| ==> s[i] <= s[j] }

  /** Any segment is at least `interval` after the one `burst` places before it. */
  predicate Spaced(s: seq<int>, burst: nat, interval: int) {
    forall k {:trigger s[k]} :: 0 <= k && k + burst < |s| ==> s[k + burst] - s[k] >= interval
  }

  /** Where the current burst stands among the segments of the past, and when
      the next one may begin. */
  predicate BurstOk(p: Pacer) {
    // `true ==` makes the conjunction one fact, which a caller proves at once and not clause by clause.
    true == (
    var s, n, c, I := p.past.sent, |p.past.sent|, p.segmentsInBurst, p.cfg.intervalMs;
    && 0 < p.cfg.maxBurst && Sorted(s) && Spaced(s, p.cfg.maxBurst, I)
    && p.lastSegmentAt == (if n == 0 then None else Some(s[n - 1]))
    && 0 <= c < p.cfg.maxBurst && c <= n
    && (p.blocked ==> c == 0 && n > 0 && p.timer == Some(s[n - 1] + I))
    && (!p.blocked && !p.past.closed && c == 0 && n > 0 ==> p.past.due.Some? && s[n - 1] + I <= p.past.due.value)
    && (0 < c < n ==> s[n - c] - s[n - c - 1] >= I))
  }

  /** Blocked exactly while the resume timer is live, the burst in range, and no
      segment past a closed gate; the segments keep their distance as long as the
      clock does not go back and no resume timer fires early. */
  predicate PacerOk(p: Pacer) {
    true == (
    && p.cfg.Valid()
    && p.cfg.initialBurst <= p.burstSegments <= p.cfg.maxBurst
    && 0 <= p.ackedBytes
    && (p.blocked <==> p.timer.Some?)
    && p.past.gated
    && (IsOff(p) ==> !p.blocked && p.past.sent == [])
    && (p.past.onTime ==> BurstOk(p)))
  }

  lemma NewPacerOk(cfg: Settings)
    requires cfg.Valid()
    ensures PacerOk(NewPacer(cfg))
  {
  }

  lemma OperationsKeepPacerOk(p: Pacer, acked: int, window: int)
    requires PacerOk(p)
    ensures PacerOk(NoteAck(p, acked, window)) && PacerOk(NoteLoss(p))
    ensures PacerOk(TimerFires(p)) && PacerOk(ClosePacer(p))
    ensures NoteAck(p, acked, window).past == NoteLoss(p).past == p.past
  {
    hide Sorted, Spaced;
  }

  /** How acknowledged bytes widen the burst: each congestion window's worth by
      one segment, up to the maximum; the rest is carried over. */
  predicate Widens(p: Pacer, q: Pacer, acked: int, window: int) {
    if !p.cfg.EffectiveMode().Adaptive? then q.burstSegments == p.burstSegments && q.ackedBytes == p.ackedBytes
    else
      && p.burstSegments <= q.burstSegments <= p.burstSegments + 1
      && q.ackedBytes + (q.burstSegments - p.burstSegments) * Max(1, window) == p.ackedBytes + acked
      && (q.burstSegments > p.burstSegments <==>
            p.ackedBytes + acked >= Max(1, window) && p.burstSegments < p.cfg.maxBurst)
  }

  lemma AckWidens(p: Pacer, acked: int, window: int)
    requires acked > 0
    ensures Widens(p, NoteAck(p, acked, window), acked, window)
  {
  }

  /** A loss halves an adaptive burst, but not below the initial one, and starts
      the count of acknowledged bytes anew. */
  predicate Narrows(p: Pacer, q: Pacer) {
    && q.ackedBytes == 0
    && if !p.cfg.EffectiveMode().Adaptive? then q.burstSegments == p.burstSegments
       else
         && p.cfg.initialBurst <= q.burstSegments <= p.burstSegments && 2 * q.burstSegments >= p.burstSegments - 1
         && (q.burstSegments == p.cfg.initialBurst || 2 * q.burstSegments <= p.burstSegments)
  }

  lemma LossNarrows(p: Pacer)
    requires PacerOk(p)
    ensures Narrows(p, NoteLoss(p))
  {
    hide BurstOk;
  }

  /** The gate closes exactly when the burst is used up: of the segments told
      within an interval of each other through an open gate, the first
      `burstSegments` pass, and the last of them closes it. */
  function Burst(p: Pacer, times: seq<int>): Pacer {
    if times == [] then p else NoteSegment(Burst(p, times[..|times| - 1]), times[|times| - 1])
  }

  lemma {:induction false} GateClosesWithBurst(p: Pacer, times: seq<int>)
    requires PacerOk(p) && !IsOff(p) && !p.blocked && 0 < |times| <= p.burstSegments
    requires StaleBurst(p, times[0]) || p.segmentsInBurst == 0
    requires forall i :: 0 < i < |times| ==> times[i] - times[i - 1] < p.cfg.intervalMs
    ensures var q := Burst(p, times);
      && q.lastSegmentAt == Some(times[|times| - 1]) && q.cfg == p.cfg && q.burstSegments == p.burstSegments
      && (q.blocked <==> |times| == p.burstSegments)
      && (q.blocked ==> q.timer == Some(times[|times| - 1] + p.cfg.intervalMs))
      && (!q.blocked ==> q.segmentsInBurst == |times|)
    decreases |times|
  {
    var n := |times| - 1;
    if n > 0 {
      GateClosesWithBurst(p, times[..n]);
      assert times[..n][n - 1] == times[n - 1];
    } else {
      assert Burst(p, times[..0]) == p;
    }
    hide BurstOk;
  }

  lemma SpacedAppend(s: seq<int>, now: int, burst: nat, interval: int)
    requires Sorted(s) && Spaced(s, burst, interval)
    requires s != [] ==> s[|s| - 1] <= now
    requires 0 < burst <= |s| ==> now - s[|s| - burst] >= interval
    requires burst > 0
    ensures Sorted(s + [now]) && Spaced(s + [now], burst, interval)
  {
    var s' := s + [now];
    forall k | 0 <= k && k + burst < |s'| ensures s'[k + burst] - s'[k] >= interval {
      if k + burst < |s| { assert s'[k] == s[k]; }
    }
  }

  /** A segment on time, through an open gate, is far enough from the one
      `maxBurst` places before it. */
  lemma FarEnough(p: Pacer, now: int)
    requires BurstOk(p) && !p.blocked && !p.past.closed && p.cfg.maxBurst <= |p.past.sent|
    requires NotBefore(now, p.lastSegmentAt) && NotBefore(now, p.past.due)
    ensures now - p.past.sent[|p.past.sent| - p.cfg.maxBurst] >= p.cfg.intervalMs
  {
    var s, n, c := p.past.sent, |p.past.sent|, p.segmentsInBurst;
    var b := p.cfg.maxBurst;
    assert s[n - b] <= s[n - 1];
    if 0 < c { assert s[n - b] <= s[n - c - 1] && s[n - c] <= s[n - 1]; }
    hide Spaced, Sorted;
  }

  /** Such a segment starts or continues a burst. */
  lemma SegmentKeepsBurst(p: Pacer, now: int)
    requires PacerOk(p) && BurstOk(p) && !IsOff(p) && !p.blocked && !p.past.closed
    requires NotBefore(now, p.lastSegmentAt) && NotBefore(now, p.past.due)
    ensures BurstOk(NoteSegment(p, now))
  {
    hide Spaced, Sorted;
    var s, n, c := p.past.sent, |p.past.sent|, p.segmentsInBurst;
    if p.cfg.maxBurst <= n { FarEnough(p, now); }
    SpacedAppend(s, now, p.cfg.maxBurst, p.cfg.intervalMs);
    assert 0 < c ==> (s + [now])[n - c] == s[n - c];
    assert 0 < c < n ==> (s + [now])[n - c - 1] == s[n - c - 1];
  }

  lemma SegmentKeepsPacerOk(p: Pacer, now: int)
    requires PacerOk(p) && !p.blocked && !p.past.closed
    ensures PacerOk(NoteSegment(p, now))
  {
    if !IsOff(p) && NoteSegment(p, now).past.onTime { SegmentKeepsBurst(p, now); }
    hide BurstOk, StaleBurst;
  }

  // ----- how many segments a stretch of time holds -----

  /** How many of the times fall in the half-open interval [from, to). */
  function CountIn(s: seq<int>, from: int, to: int): nat {
    if s == [] then 0
    else CountIn(s[..|s| - 1], from, to) + (if from <= s[|s| - 1] < to then 1 else 0)
  }

  lemma {:induction false} CountInRange(s: seq<int>, from: int, to: int, lo: nat, hi: nat)
    requires lo <= hi && forall k :: 0 <= k < |s| && from <= s[k] < to ==> lo <= k < hi
    ensures CountIn(s, from, to) <= Max(0, Min(hi, |s|) - lo)
  {
    if s != [] { CountInRange(s[..|s| - 1], from, to, lo, hi); }
  }

  lemma {:induction false} SpacedCount(s: seq<int>, burst: nat, interval: int, from: int, lo: nat)
    requires Sorted(s) && Spaced(s, burst, interval)
    requires lo <= |s| && forall k :: 0 <= k < lo ==> s[k] < from
    ensures CountIn(s, from, from + interval) <= burst
    decreases |s| - lo
  {
    if lo < |s| && s[lo] < from {
      SpacedCount(s, burst, interval, from, lo + 1);
    } else {
      if lo + burst < |s| { assert s[lo + burst] - s[lo] >= interval; }
      CountInRange(s, from, from + interval, lo, lo + burst);
    }
  }

  /** A sound pacer's past: every half-open interval of length `intervalMs`
      contains at most `maxBurstSegments` segments. */
  lemma SlidingBound(p: Pacer, from: int)
    requires PacerOk(p) && p.past.onTime
    ensures CountIn(p.past.sent, from, from + p.cfg.intervalMs) <= p.cfg.maxBurst
  {
    SpacedCount(p.past.sent, p.cfg.maxBurst, p.cfg.intervalMs, from, 0);
  }

  // ----- runs of the pacer alone -----

  datatype Event = SendSegment(now: int) | Ack(bytes: int, window: int) | Loss | Resume(now: int)

  /** A pacer and the latest clock reading. */
  datatype World = World(pacer: Pacer, clock: int)

  /** The clock never goes back, segments are offered only to an open gate
      (relay.js:1852-1856), and the timer never fires early. */
  predicate Enabled(w: World, e: Event) {
    match e
    case SendSegment(now) => w.clock <= now && !w.pacer.blocked
    case Resume(now) => w.clock <= now && w.pacer.timer.Some? && w.pacer.timer.value <= now
    case _ => true
  }

  function Step(w: World, e: Event): World {
    match e
    case SendSegment(now) => World(NoteSegment(w.pacer, now), now)
    case Ack(bytes, window) => w.(pacer := NoteAck(w.pacer, bytes, window))
    case Loss => w.(pacer := NoteLoss(w.pacer))
    case Resume(now) => World(TimerFires(w.pacer), now)
  }

  function Run(w: World, events: seq<Event>): World
    decreases |events|
  {
    if events == [] then w else Run(Step(w, events[0]), events[1..])
  }

  predicate Schedule(w: World, events: seq<Event>)
    decreases |events|
  {
    events == [] || (Enabled(w, events[0]) && Schedule(Step(w, events[0]), events[1..]))
  }

  /** The times the pacer knows of do not lie ahead of the clock. */
  predicate Paced(w: World) {
    true == (
    && PacerOk(w.pacer) && w.pacer.past.onTime && !w.pacer.past.closed
    && NotBefore(w.clock, w.pacer.lastSegmentAt) && NotBefore(w.clock, w.pacer.past.due))
  }

  lemma StepKeepsPaced(w: World, e: Event)
    requires Paced(w) && Enabled(w, e)
    ensures Paced(Step(w, e)) && Step(w, e).pacer.cfg == w.pacer.cfg
  {
    hide PacerOk;
    match e {
      case SendSegment(now) => SegmentKeepsPacerOk(w.pacer, now);
      case Ack(bytes, window) => OperationsKeepPacerOk(w.pacer, bytes, window);
      case Loss => OperationsKeepPacerOk(w.pacer, 0, 0);
      case Resume(now) => OperationsKeepPacerOk(w.pacer, 0, 0);
    }
  }

  lemma {:induction false} RunKeepsPaced(w: World, events: seq<Event>)
    requires Paced(w) && Schedule(w, events)
    ensures Paced(Run(w, events)) && Run(w, events).pacer.cfg == w.pacer.cfg
    decreases |events|
  {
    hide Paced, Step, Enabled;
    if events != [] {
      StepKeepsPaced(w, events[0]);
      RunKeepsPaced(Step(w, events[0]), events[1..]);
    }
  }

  /** Over any run of sends, acknowledgements, losses and resumes with a clock
      that never goes back, every half-open interval of length `intervalMs`
      contains at most `maxBurstSegments` paced segments, and blocked means the
      timer is live. */
  lemma PacerRunsAreBounded(cfg: Settings, start: int, events: seq<Event>, from: int)
    requires cfg.Valid() && Schedule(World(NewPacer(cfg), start), events)
    ensures var p := Run(World(NewPacer(cfg), start), events).pacer;
      && CountIn(p.past.sent, from, from + cfg.intervalMs) <= cfg.maxBurst
      && cfg.initialBurst <= p.burstSegments <= cfg.maxBurst
      && (p.blocked <==> p.timer.Some?)
  {
    hide CountIn, BurstOk;
    var w0 := World(NewPacer(cfg), start);
    NewPacerOk(cfg);
    RunKeepsPaced(w0, events);
    SlidingBound(Run(w0, events).pacer, from);
  }
}
