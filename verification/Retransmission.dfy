/** The retransmission queue as a value: what each operation of
    tcp_retransmission.js computes, stated as total functions on a queue state.
    Timers are entries of `live`, the table of timers the runtime holds; a
    callback is an entry of the log `calls`, and what the callback did is a
    reply handed to the operation that makes the call. */
module Retransmission {
  import opened Bytes
  import opened SequenceNumbers

  datatype Flags = Flags(syn: bool, ack: bool, fin: bool, rst: bool, psh: bool)

  datatype Segment = Segment(seqNo: U32, payload: seq<byte>, flags: Flags,
                             sequenceLength: int, retransmissions: nat)

  /** What one unit of sequence space carries. */
  datatype Item = Syn | Data(b: byte) | Fin

  datatype Config = Config(initialRtoMs: int, maxRtoMs: int, maxRetransmissions: int)
  {
    /** The constructor's argument checks (tcp_retransmission.js:31-36). */
    predicate Valid() { 0 < initialRtoMs <= maxRtoMs && 1 <= maxRetransmissions }
  }

  datatype Reason = Timeout | Fast | WindowOpen

  datatype Callback = OnRetransmit(segment: Segment, reason: Reason)
                    | OnPersistProbe(oldest: Option<Segment>)
                    | OnExhausted

  /** What `onRetransmit` did: returned, closed this queue, or threw. */
  datatype Reply = Returned | ClosedQueue | Threw

  /** What `onPersistProbe` did: reported transport backpressure, returned after
      tracking at most one segment, closed this queue, or threw. */
  datatype ProbeReply = Backpressured
                      | Sent
                      | SentTracked(seqNo: U32, payload: seq<byte>, flags: Flags)
                      | ProbeClosedQueue
                      | ProbeThrew

  datatype AckStatus = Duplicate | Stale | Future | Advanced | AckThrew

  datatype TrackStatus = Tracked | NothingToTrack | TrackThrewClosed | TrackThrewNonContiguous

  datatype Queue = Queue(
    cfg: Config,
    sndUna: U32,
    sndNxt: U32,
    segments: seq<Segment>,
    payloadBytesInFlight: int,
    currentRtoMs: int,
    timeoutRetransmissions: int,
    persist: bool,
    timer: Option<nat>,
    timerGeneration: nat,
    closed: bool,
    exhausted: bool,
    live: map<nat, int>,
    calls: seq<Callback>)

  function SequenceLength(payload: seq<byte>, flags: Flags): nat {
    |payload| + (if flags.syn then 1 else 0) + (if flags.fin then 1 else 0)
  }

  function NewQueue(cfg: Config, initialSequence: int): Queue {
    Queue(cfg, Wrap(initialSequence), Wrap(initialSequence), [], 0, cfg.initialRtoMs, 0, false,
          None, 0, false, false, map[], [])
  }

  // ----- timers -----

  predicate NeedsTimer(q: Queue) { (q.segments != [] || q.persist) && !q.closed && !q.exhausted }

  function ArmTimer(q: Queue): Queue {
    if !NeedsTimer(q) then q
    else
      var g := q.timerGeneration + 1;
      q.(timerGeneration := g, timer := Some(g), live := q.live[g := q.currentRtoMs])
  }

  function ClearTimer(q: Queue): Queue {
    q.(timerGeneration := q.timerGeneration + 1,
       live := if q.timer.Some? then q.live - {q.timer.value} else q.live,
       timer := None)
  }

  // ----- sending -----

  function Track(q: Queue, seqNo: int, payload: seq<byte>, flags: Flags): (r: (Queue, TrackStatus)) {
    var length := SequenceLength(payload, flags);
    if q.closed || q.exhausted then (q, TrackThrewClosed)
    else if length == 0 then (q, NothingToTrack)
    else if Wrap(seqNo) != q.sndNxt then (q, TrackThrewNonContiguous)
    else
      var q' := q.(segments := q.segments + [Segment(Wrap(seqNo), payload, flags, length, 0)],
                   payloadBytesInFlight := q.payloadBytesInFlight + |payload|,
                   sndNxt := Wrap(q.sndNxt + length));
      (if |q'.segments| == 1 && q'.timer.None? then ArmTimer(q') else q', Tracked)
  }

  // ----- cumulative acknowledgement -----

  /** The payload bytes among the first `count` items of a segment. */
  function ConsumedBytes(s: Segment, count: nat): nat {
    Max(0, Min(count - (if s.flags.syn then 1 else 0), |s.payload|))
  }

  /** `consumeSegmentPrefix`: the segment after its first `count` items are acknowledged. */
  function ConsumePrefix(s: Segment, count: nat): Segment {
    s.(seqNo := Wrap(s.seqNo + count),
       payload := s.payload[ConsumedBytes(s, count)..],
       flags := s.flags.(syn := false),
       sequenceLength := s.sequenceLength - count)
  }

  predicate WellFormed(s: Segment) { s.sequenceLength == SequenceLength(s.payload, s.flags) > 0 }

  predicate AllWellFormed(segments: seq<Segment>) {
    forall i :: 0 <= i < |segments| ==> WellFormed(segments[i])
  }

  /** The segments left after `count` items are acknowledged from the front. */
  function DropItems(segments: seq<Segment>, count: nat): seq<Segment>
  {
    if count == 0 || segments == [] then segments
    else if count >= segments[0].sequenceLength then
      DropItems(segments[1..], count - segments[0].sequenceLength)
    else [ConsumePrefix(segments[0], count)] + segments[1..]
  }

  /** The payload bytes among the first `count` items. */
  function DroppedBytes(segments: seq<Segment>, count: nat): nat
  {
    if count == 0 || segments == [] then 0
    else if count >= segments[0].sequenceLength then
      |segments[0].payload| + DroppedBytes(segments[1..], count - segments[0].sequenceLength)
    else ConsumedBytes(segments[0], count)
  }

  function TotalLength(segments: seq<Segment>): int {
    if segments == [] then 0 else segments[0].sequenceLength + TotalLength(segments[1..])
  }

  function TotalPayload(segments: seq<Segment>): nat {
    if segments == [] then 0 else |segments[0].payload| + TotalPayload(segments[1..])
  }

  function ClassifyAck(q: Queue, ack: U32): AckStatus {
    var advance := SequenceDistance(ack, q.sndUna);
    if advance == 0 then Duplicate
    else if advance >= HALF then Stale
    else if advance > SequenceDistance(q.sndNxt, q.sndUna) then Future
    else if q.segments == [] then AckThrew
    else Advanced
  }

  /** The bookkeeping of an accepted acknowledgement, before its timer restarts. */
  function DropAcknowledged(q: Queue, ack: U32): Queue
  {
    var advance := SequenceDistance(ack, q.sndUna);
    q.(segments := DropItems(q.segments, advance),
       payloadBytesInFlight := q.payloadBytesInFlight - DroppedBytes(q.segments, advance),
       sndUna := ack,
       timeoutRetransmissions := 0,
       currentRtoMs := if q.persist then q.currentRtoMs else q.cfg.initialRtoMs)
  }

  function Acknowledge(q: Queue, ackNumber: int): (r: (Queue, AckStatus, int))
  {
    var ack := Wrap(ackNumber);
    match ClassifyAck(q, ack)
    case Duplicate => (if q.persist then q.(timeoutRetransmissions := 0) else q, Duplicate, 0)
    case Advanced =>
      (ArmTimer(ClearTimer(DropAcknowledged(q, ack))), Advanced,
       DroppedBytes(q.segments, SequenceDistance(ack, q.sndUna)))
    case status => (q, status, 0)
  }

  // ----- retransmission, probing and exhaustion -----

  function Close(q: Queue): Queue {
    if q.closed then q
    else ClearTimer(q.(closed := true, persist := false)).(segments := [], payloadBytesInFlight := 0)
  }

  function Exhaust(q: Queue): Queue {
    var q' := ClearTimer(q.(exhausted := true));
    q'.(calls := q'.calls + [OnExhausted])
  }

  function Oldest(q: Queue): Option<Segment> {
    if q.segments == [] then None else Some(q.segments[0])
  }

  /** `emitRetransmission`: the flag is its boolean result. */
  function Emit(q: Queue, reason: Reason, reply: Reply): (Queue, bool) {
    var q' := q.(calls := q.calls + (if q.segments == [] then [] else [OnRetransmit(q.segments[0], reason)]));
    match reply
    case Returned => (q', true)
    case ClosedQueue => (Close(q'), true)
    case Threw => (Exhaust(q'), false)
  }

  predicate CanFastRetransmit(q: Queue) { !q.persist && q.segments != [] && !q.closed && !q.exhausted }

  function FastRetransmit(q: Queue, reply: Reply): (Queue, bool) {
    if !CanFastRetransmit(q) then (q, false)
    else
      var (q', ok) := Emit(ClearTimer(q.(currentRtoMs := q.cfg.initialRtoMs)), Fast, reply);
      (if ok then ArmTimer(q') else q', ok)
  }

  /** Leaving persist mode with a segment outstanding resends it at once. */
  predicate ReopensWindow(q: Queue, enabled: bool) {
    !q.closed && !q.exhausted && q.persist && !enabled && q.segments != []
  }

  function SetPersist(q: Queue, enabled: bool, reply: Reply): Queue {
    if q.closed || q.exhausted || q.persist == enabled then q
    else
      var q' := ClearTimer(q.(persist := enabled))
                .(currentRtoMs := q.cfg.initialRtoMs, timeoutRetransmissions := 0);
      ArmTimer(if ReopensWindow(q, enabled) then Emit(q', WindowOpen, reply).0 else q')
  }

  function BackOff(q: Queue): Queue {
    q.(currentRtoMs := Min(q.currentRtoMs * 2, q.cfg.maxRtoMs))
  }

  /** The probe callback's effect on this queue; `None` when it threw. */
  function Probe(q: Queue, reply: ProbeReply): Option<Queue> {
    match reply
    case Backpressured => Some(q.(timeoutRetransmissions := q.timeoutRetransmissions - 1))
    case Sent => Some(q)
    case SentTracked(seqNo, payload, flags) =>
      var (q', status) := Track(q, seqNo, payload, flags);
      if status.Tracked? || status.NothingToTrack? then Some(q') else None
    case ProbeClosedQueue => Some(Close(q))
    case ProbeThrew => None
  }

  function BumpOldest(segments: seq<Segment>): seq<Segment> {
    if segments == [] then [] else [segments[0].(retransmissions := segments[0].retransmissions + 1)] + segments[1..]
  }

  /** A persist timeout with probe budget left, once the probe callback returned. */
  function AfterProbe(q: Queue, probed: Option<Queue>): Queue {
    match probed
    case None => Exhaust(q)
    case Some(p) => ArmTimer(BackOff(ClearTimer(p)))
  }

  function SendProbe(q: Queue, probe: ProbeReply): Queue {
    var q' := q.(timeoutRetransmissions := q.timeoutRetransmissions + 1,
                 calls := q.calls + [OnPersistProbe(Oldest(q))]);
    AfterProbe(q', Probe(q', probe))
  }

  function ResendOldest(q: Queue, reply: Reply): Queue {
    var q' := q.(timeoutRetransmissions := q.timeoutRetransmissions + 1,
                 segments := BumpOldest(q.segments));
    var (e, ok) := Emit(q', Timeout, reply);
    if ok then ArmTimer(BackOff(e)) else e
  }

  function HandleTimeout(q: Queue, reply: Reply, probe: ProbeReply): Queue {
    if q.closed || q.exhausted || !(q.persist || q.segments != []) then q
    else if q.timeoutRetransmissions >= q.cfg.maxRetransmissions then Exhaust(q)
    else if q.persist then SendProbe(q, probe)
    else ResendOldest(q, reply)
  }

  /** The runtime fires timer `id`: its entry leaves the table, then the closure
      installed by `armTimer` runs. */
  function Fire(q: Queue, id: nat, reply: Reply, probe: ProbeReply): Queue {
    var q' := q.(live := q.live - {id});
    if id != q.timerGeneration || q.closed || q.exhausted then q'
    else HandleTimeout(q'.(timer := None), reply, probe)
  }
}
