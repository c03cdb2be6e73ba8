/** The class of tcp_retransmission.js, field by field and method by method,
    each method proved to compute its specification in module Retransmission.
    `live` is the runtime's timer table and `calls` the log of callbacks; the
    reply arguments are what the callbacks did. */
module RetransmissionQueue {
  import opened Bytes
  import opened SequenceNumbers
  import R = Retransmission
  import P = RetransmissionProofs

  class TCPRetransmissionQueue {
    const cfg: R.Config
    var sndUna: U32
    var sndNxt: U32
    var segments: seq<R.Segment>
    var payloadBytesInFlight: int
    var currentRtoMs: int
    var timeoutRetransmissions: int
    var persist: bool
    var timer: Option<nat>
    var timerGeneration: nat
    var closed: bool
    var exhausted: bool
    ghost var live: map<nat, int>
    ghost var calls: seq<R.Callback>

    ghost function State(): R.Queue
      reads this
    {
      R.Queue(cfg, sndUna, sndNxt, segments, payloadBytesInFlight, currentRtoMs, timeoutRetransmissions,
              persist, timer, timerGeneration, closed, exhausted, live, calls)
    }

    constructor (cfg: R.Config, initialSequence: int)
      ensures this.cfg == cfg && State() == R.NewQueue(cfg, initialSequence)
    {
      this.cfg := cfg;
      sndUna, sndNxt := Wrap(initialSequence), Wrap(initialSequence);
      persist, closed, exhausted := false, false, false;
      currentRtoMs, timeoutRetransmissions := cfg.initialRtoMs, 0;
      segments, payloadBytesInFlight := [], 0;
      timer, timerGeneration := None, 0;
      live, calls := map[], [];
    }

    /** The constructor with its argument checks; `null` where it throws. */
    static method Create(cfg: R.Config, initialSequence: int) returns (queue: TCPRetransmissionQueue?)
      ensures queue == null <==> cfg.initialRtoMs <= 0 || cfg.maxRtoMs < cfg.initialRtoMs || cfg.maxRetransmissions < 1
      ensures queue != null ==> fresh(queue) && queue.cfg == cfg && queue.State() == R.NewQueue(cfg, initialSequence) && P.Valid(queue.State())
    {
      if cfg.initialRtoMs <= 0 || cfg.maxRtoMs < cfg.initialRtoMs { return null; }
      if cfg.maxRetransmissions < 1 { return null; }
      P.NewQueueValid(cfg, initialSequence);
      queue := new TCPRetransmissionQueue(cfg, initialSequence);
    }

    method ArmTimer()
      modifies this
      ensures State() == R.ArmTimer(old(State()))
    {
      if (|segments| == 0 && !persist) || closed || exhausted { return; }
      timerGeneration := timerGeneration + 1;
      timer := Some(timerGeneration);
      live := live[timerGeneration := currentRtoMs];
    }

    method ClearTimer()
      modifies this
      ensures State() == R.ClearTimer(old(State()))
    {
      timerGeneration := timerGeneration + 1;
      if timer.Some? {
        live := live - {timer.value};
        timer := None;
      }
    }

    method Track(seqNo: int, payload: seq<byte>, flags: R.Flags) returns (status: R.TrackStatus)
      modifies this
      ensures (State(), status) == R.Track(old(State()), seqNo, payload, flags)
    {
      if closed || exhausted { return R.TrackThrewClosed; }
      var length := R.SequenceLength(payload, flags);
      if length == 0 { return R.NothingToTrack; }
      var normalizedSeq := Wrap(seqNo);
      if normalizedSeq != sndNxt { return R.TrackThrewNonContiguous; }
      segments := segments + [R.Segment(normalizedSeq, payload, flags, length, 0)];
      payloadBytesInFlight := payloadBytesInFlight + |payload|;
      sndNxt := Wrap(sndNxt + length);
      if |segments| == 1 && timer.None? { ArmTimer(); }
      return R.Tracked;
    }

    /** The three in-place steps of `consumeSegmentPrefix`; `ok` is false when it throws. */
    static method ConsumeSegmentPrefix(segment: R.Segment, count: nat)
      returns (ok: bool, rest: R.Segment, consumedData: nat)
      requires R.WellFormed(segment) && 0 < count
      ensures ok <==> count < segment.sequenceLength
      ensures ok ==> rest == R.ConsumePrefix(segment, count) && consumedData == R.ConsumedBytes(segment, count)
    {
      var remaining := count;
      rest, consumedData := segment, 0;
      if rest.flags.syn && remaining > 0 {
        rest := rest.(flags := rest.flags.(syn := false), sequenceLength := rest.sequenceLength - 1);
        remaining := remaining - 1;
      }
      if remaining > 0 && |rest.payload| > 0 {
        var bytes := Min(remaining, |rest.payload|);
        rest := rest.(payload := rest.payload[bytes..], sequenceLength := rest.sequenceLength - bytes);
        remaining := remaining - bytes;
        consumedData := consumedData + bytes;
      }
      if rest.flags.fin && remaining > 0 {
        rest := rest.(flags := rest.flags.(fin := false), sequenceLength := rest.sequenceLength - 1);
        remaining := remaining - 1;
      }
      if remaining != 0 || rest.sequenceLength <= 0 { return false, rest, consumedData; }
      rest := rest.(seqNo := Wrap(rest.seqNo + count));
      ok := true;
    }

    /** Removes whole acknowledged segments and the acknowledged prefix of the
        next one; `ok` is false when a throw is reached. */
    method RemoveAcknowledged(advance: nat) returns (ok: bool, ackedDataBytes: nat)
      requires R.AllWellFormed(segments) && 0 < advance
      requires segments != [] ==> advance <= R.TotalLength(segments)
      modifies this`segments, this`payloadBytesInFlight
      ensures ok <==> old(segments) != []
      ensures segments == R.DropItems(old(segments), advance)
      ensures ackedDataBytes == R.DroppedBytes(old(segments), advance)
      ensures payloadBytesInFlight == old(payloadBytesInFlight) - ackedDataBytes
      ensures !ok ==> segments == [] && ackedDataBytes == 0
    {
      var remaining := advance;
      ackedDataBytes := 0;
      while remaining > 0
        invariant 0 <= remaining
        invariant R.AllWellFormed(segments)
        invariant old(segments) == [] ==> segments == [] && remaining == advance && ackedDataBytes == 0
        invariant old(segments) != [] ==> remaining <= R.TotalLength(segments)
        invariant R.DropItems(segments, remaining) == R.DropItems(old(segments), advance)
        invariant ackedDataBytes + R.DroppedBytes(segments, remaining) == R.DroppedBytes(old(segments), advance)
        invariant payloadBytesInFlight == old(payloadBytesInFlight) - ackedDataBytes
        decreases remaining
      {
        if |segments| == 0 { return false, ackedDataBytes; }
        var segment := segments[0];
        if remaining >= segment.sequenceLength {
          remaining := remaining - segment.sequenceLength;
          ackedDataBytes := ackedDataBytes + |segment.payload|;
          payloadBytesInFlight := payloadBytesInFlight - |segment.payload|;
          segments := segments[1..];
        } else {
          var whole, rest, consumed := ConsumeSegmentPrefix(segment, remaining);
          if !whole { assert false; }
          segments := [rest] + segments[1..];
          ackedDataBytes := ackedDataBytes + consumed;
          payloadBytesInFlight := payloadBytesInFlight - consumed;
          remaining := 0;
        }
      }
      ok := true;
    }

    method Acknowledge(ackNumber: int) returns (status: R.AckStatus, ackedDataBytes: int)
      requires P.Valid(State())
      modifies this
      ensures (State(), status, ackedDataBytes) == R.Acknowledge(old(State()), ackNumber)
    {
      hide P.Valid, Wrap, SequenceDistance, R.DropItems, R.DroppedBytes, R.TotalLength, R.AllWellFormed, R.ArmTimer, R.ClearTimer;
      Bounds(ackNumber);
      var ack := Wrap(ackNumber);
      var advance := SequenceDistance(ack, sndUna);
      var outstanding := SequenceDistance(sndNxt, sndUna);
      if advance == 0 {
        if persist { timeoutRetransmissions := 0; }
        return R.Duplicate, 0;
      }
      if advance >= HALF { return R.Stale, 0; }
      if advance > outstanding { return R.Future, 0; }
      var ok, bytes := RemoveAcknowledged(advance);
      if !ok { return R.AckThrew, 0; }
      sndUna := ack;
      timeoutRetransmissions := 0;
      if !persist { currentRtoMs := cfg.initialRtoMs; }
      ClearTimer();
      ArmTimer();
      return R.Advanced, bytes;
    }

    lemma Bounds(ackNumber: int)
      requires P.Valid(State())
      ensures R.AllWellFormed(segments)
      ensures segments != [] ==> SequenceDistance(sndNxt, sndUna) <= R.TotalLength(segments)
    {
      if !closed { P.OutstandingIsWrapped(State()); }
    }

    method EmitRetransmission(reason: R.Reason, reply: R.Reply) returns (ok: bool)
      requires segments != []
      modifies this
      ensures (State(), ok) == R.Emit(old(State()), reason, reply)
    {
      calls := calls + [R.OnRetransmit(segments[0], reason)];
      match reply {
        case Returned => return true;
        case ClosedQueue =>
          Close();
          return true;
        case Threw =>
          Exhaust();
          return false;
      }
    }

    method Exhaust()
      modifies this
      ensures State() == R.Exhaust(old(State()))
    {
      exhausted := true;
      ClearTimer();
      calls := calls + [R.OnExhausted];
    }

    method FastRetransmit(reply: R.Reply) returns (sent: bool)
      modifies this
      ensures (State(), sent) == R.FastRetransmit(old(State()), reply)
    {
      if persist || |segments| == 0 || closed || exhausted { return false; }
      currentRtoMs := cfg.initialRtoMs;
      ClearTimer();
      sent := EmitRetransmission(R.Fast, reply);
      if !sent { return; }
      ArmTimer();
    }

    method SetPersist(enabled: bool, reply: R.Reply)
      modifies this
      ensures State() == R.SetPersist(old(State()), enabled, reply)
    {
      if closed || exhausted || persist == enabled { return; }
      persist := enabled;
      ClearTimer();
      currentRtoMs := cfg.initialRtoMs;
      timeoutRetransmissions := 0;
      if !enabled && |segments| > 0 {
        var _ := EmitRetransmission(R.WindowOpen, reply);
      }
      ArmTimer();
    }

    /** What the probe callback did to this queue; `threw` when it threw. */
    method RunProbe(probe: R.ProbeReply) returns (threw: bool)
      modifies this
      ensures threw <==> R.Probe(old(State()), probe).None?
      ensures !threw ==> State() == R.Probe(old(State()), probe).value
      ensures threw ==> State() == old(State())
    {
      threw := false;
      match probe {
        case Backpressured => timeoutRetransmissions := timeoutRetransmissions - 1;
        case Sent =>
        case SentTracked(seqNo, payload, flags) =>
          var status := Track(seqNo, payload, flags);
          threw := status.TrackThrewClosed? || status.TrackThrewNonContiguous?;
        case ProbeClosedQueue => Close();
        case ProbeThrew => threw := true;
      }
    }

    method HandleTimeout(reply: R.Reply, probe: R.ProbeReply)
      modifies this
      ensures State() == R.HandleTimeout(old(State()), reply, probe)
    {
      if closed || exhausted { return; }
      if persist {
        if timeoutRetransmissions >= cfg.maxRetransmissions {
          Exhaust();
          return;
        }
        SendProbe(probe);
        return;
      }
      if |segments| == 0 { return; }
      if timeoutRetransmissions >= cfg.maxRetransmissions {
        Exhaust();
        return;
      }
      ResendOldest(reply);
    }

    method SendProbe(probe: R.ProbeReply)
      modifies this
      ensures State() == R.SendProbe(old(State()), probe)
    {
      hide R.Probe, R.ArmTimer, R.ClearTimer, R.Exhaust;
      timeoutRetransmissions := timeoutRetransmissions + 1;
      calls := calls + [R.OnPersistProbe(R.Oldest(State()))];
      var threw := RunProbe(probe);
      if threw {
        Exhaust();
        return;
      }
      ClearTimer();
      currentRtoMs := Min(currentRtoMs * 2, cfg.maxRtoMs);
      ArmTimer();
    }

    method ResendOldest(reply: R.Reply)
      requires segments != []
      modifies this
      ensures State() == R.ResendOldest(old(State()), reply)
    {
      hide R.Emit, R.ArmTimer;
      timeoutRetransmissions := timeoutRetransmissions + 1;
      segments := [segments[0].(retransmissions := segments[0].retransmissions + 1)] + segments[1..];
      var ok := EmitRetransmission(R.Timeout, reply);
      if !ok { return; }
      currentRtoMs := Min(currentRtoMs * 2, cfg.maxRtoMs);
      ArmTimer();
    }

    /** The closure `armTimer` hands to the runtime as timer `id`. */
    method TimerFired(id: nat, reply: R.Reply, probe: R.ProbeReply)
      modifies this
      ensures State() == R.Fire(old(State()), id, reply, probe)
    {
      live := live - {id};
      if id != timerGeneration || closed || exhausted { return; }
      timer := None;
      HandleTimeout(reply, probe);
    }

    method Close()
      modifies this
      ensures State() == R.Close(old(State()))
    {
      if closed { return; }
      closed := true;
      persist := false;
      ClearTimer();
      segments := [];
      payloadBytesInFlight := 0;
    }
  }
}
