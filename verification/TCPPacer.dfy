/** The class of tcp_pacer.js; each method computes its function in module Pacing. */
module PacerClass {
  import opened Bytes
  import P = Pacing

  class TCPPacer {
    const cfg: P.Settings
    const mode: P.Mode
    var burstSegments: int
    var segmentsInBurst: int
    var ackedBytes: int
    var lastSegmentAt: Option<int>
    var blocked: bool
    var timer: Option<int>
    ghost var past: P.Past

    ghost function State(): P.Pacer
      reads this
    {
      P.Pacer(cfg, burstSegments, segmentsInBurst, ackedBytes, lastSegmentAt, blocked, timer, past)
    }

    predicate Configured() { mode == cfg.EffectiveMode() }

    constructor (cfg: P.Settings)
      ensures this.cfg == cfg && State() == P.NewPacer(cfg) && Configured()
    {
      this.cfg := cfg;
      mode := if cfg.intervalMs == 0 then P.Off else cfg.mode;
      burstSegments := cfg.initialBurst;
      segmentsInBurst, ackedBytes := 0, 0;
      lastSegmentAt, blocked, timer := None, false, None;
      past := P.Past([], true, true, None, false);
    }

    /** The constructor with its argument checks; `null` where it throws. */
    static method Create(cfg: P.Settings) returns (pacer: TCPPacer?)
      ensures pacer == null <==> cfg.initialBurst < 1 || cfg.maxBurst < cfg.initialBurst || cfg.intervalMs < 0
      ensures pacer != null ==> fresh(pacer) && pacer.cfg == cfg && pacer.Configured() && pacer.State() == P.NewPacer(cfg) && P.PacerOk(pacer.State())
    {
      if cfg.initialBurst < 1 { return null; }
      if cfg.maxBurst < cfg.initialBurst { return null; }
      if cfg.intervalMs < 0 { return null; }
      P.NewPacerOk(cfg);
      pacer := new TCPPacer(cfg);
    }

    method NoteAck(acked: int, congestionWindowBytes: int) returns (grew: bool)
      requires Configured()
      modifies this
      ensures State() == P.NoteAck(old(State()), acked, congestionWindowBytes)
      ensures grew <==> burstSegments > old(burstSegments)
    {
      if mode != P.Adaptive || acked <= 0 { return false; }
      var threshold := Max(1, congestionWindowBytes);
      ackedBytes := ackedBytes + acked;
      if ackedBytes < threshold || burstSegments >= cfg.maxBurst { return false; }
      ackedBytes := ackedBytes - threshold;
      burstSegments := burstSegments + 1;
      return true;
    }

    method NoteLoss() returns (shrank: bool)
      requires Configured()
      modifies this
      ensures State() == P.NoteLoss(old(State()))
      ensures shrank <==> burstSegments != old(burstSegments)
    {
      ackedBytes := 0;
      if mode != P.Adaptive { return false; }
      var reduced := Max(cfg.initialBurst, burstSegments / 2);
      if reduced == burstSegments { return false; }
      burstSegments := reduced;
      return true;
    }

    method NoteSegment(now: int) returns (isBlocked: bool)
      requires Configured()
      modifies this
      ensures State() == P.NoteSegment(old(State()), now)
      ensures isBlocked <==> blocked && mode != P.Off
    {
      if mode == P.Off { return false; }
      past := P.Told(State(), now);
      if blocked { return true; }
      if lastSegmentAt.Some? && now - lastSegmentAt.value >= cfg.intervalMs { segmentsInBurst := 0; }
      lastSegmentAt := Some(now);
      segmentsInBurst := segmentsInBurst + 1;
      if segmentsInBurst < burstSegments { return false; }
      segmentsInBurst := 0;
      blocked := true;
      timer := Some(now + cfg.intervalMs);
      return true;
    }

    /** The resume timer's closure, up to its call of `onReady`. */
    method TimerFired()
      modifies this
      ensures State() == P.TimerFires(old(State()))
    {
      past := past.(due := if timer.Some? then timer else past.due);
      timer := None;
      blocked := false;
    }

    method Close()
      modifies this
      ensures State() == P.ClosePacer(old(State()))
    {
      if timer.Some? { timer := None; }
      blocked := false;
      segmentsInBurst := 0;
      past := past.(closed := true);
    }
  }
}
