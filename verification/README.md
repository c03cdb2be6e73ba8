# Verified model of the relay's TCP endpoint

The relay terminates TCP towards a virtual machine in user space: it has its own
sequence arithmetic, reassembly, retransmission queue, zero-window probing,
congestion recovery, pacing and closing. This project models one connection end
to end, in both directions (outbound: opened by the VM; reverse: opened towards
it), and proves what every event keeps and what holds over every run. Around it
stand the self-contained parts: the rate limiter, the checksums with packet
building and parsing, window updates, the DNS filter and TCP options.

`dafny verify dfyconfig.toml` checks the whole project.

## How it is organised

- A state is a value; each operation of the source is a total function on it
  (`Retransmission`, `Pacing`, `SendPath`, `Reassembly`, `ReceivePath`,
  `Connection`). A callback's outcome, a clock reading, the rate limiter's answer
  or the transport's backlog is an argument, so every combination is covered.
  An exception nothing catches sets `thrown`, which is proved never to happen.
- The classes have the source's fields and loops (`TCPRetransmissionQueue`,
  `TCPPacer`, `TCPConnection`, `SlidingWindowRateLimiter`). Each method is proved
  to compute its function of the old state, so the theorems speak about them.
  `TCPConnection` groups fields that belong together into small records; its
  `Handle` ties every event to the state machine.
- `log`, `trace`, `sink`, `base`, `openedAt`, `finished`, the pacer's `past` and the
  window's `start` and `reports` are history: what was enqueued, given sequence
  space, acknowledged, put on the wire, delivered, paced and said about the window.
  Positions are naturals; position `p` travels as `(isn + p) mod 2^32`.
- An invariant written as `true == (...)` is one fact to the verifier: a caller
  proves it at once instead of clause by clause, which keeps the proofs cheap.
- The theorems about whole runs are in `ConnectionTheorems` and
  `RetransmissionRuns`; the invariants they rest on in `SendInvariant`,
  `RetransmissionProofs`, `ReassemblyProofs`, `ReceivePath`, `ConnectionProofs`,
  `ConnectionPeer`, `ConnectionAcks` and `ConnectionHistory`.
- What each event must do in every reachable state, and not only what it must not
  break, is in `ConnectionOpening` (handshakes), `ConnectionPackets` (resets,
  acknowledgements, data, FINs and their answers), `ConnectionLoss` (timeouts,
  probes, duplicates, the congestion window), `SendDrain` and `ConnectionTurns`
  (the drain loop, the rate limiter, the pacer, the transport),
  `ConnectionWindows` (the advertised window) and `ConnectionDone` (the end).

## Assumptions about the surroundings

`Connection.Enabled` states them for the sending half: data chunks are nonempty,
timers fire only while live, and window fields have 16 bits. Nothing is assumed
about the VM's packets there, nor about when the source reports its end: a FIN may
be requested (`pendingFin`) before the last data arrives, and again. The theorems
over runs are about all runs in which no data arrives after the FIN was sent and
no second FIN is (`Connection.FinLast`); which steps break this is known exactly.
For the receiving half `PeerSends` adds that the VM sends one consistent stream
and its data and FIN lie less than 2^31 from the next expected position; full
receive-sequence validation is documented as incomplete
(benchmarks/PERFORMANCE.md:162); and that the sink is there for new bytes in order.
`Setup.Valid` holds the lower bounds relay.js enforces when it reads its settings,
and what it does not enforce: a positive window size, and for outbound connections
one of at most 65535, since writing the SYN-ACK (relay.js:1526, 1959-1962) throws
for more. Clocks never run backwards in the
rate limiter; what pacing needs of the clock is recorded in `past.onTime`.

## What turned out not to hold

- `seqDiff` answers 0 at a distance of exactly 2^31, so a segment that far away
  is delivered as if it came next: `ReceivePath.HalfSpaceMisdelivers`; the exact
  condition is `ReceivePath.AssignedPositionIsTrue`.
- The throw inside `acknowledge` is reachable on a closed queue: exactly when is
  `RetransmissionProofs.AcknowledgeThrowsIff`. No connection reaches it.
- The FIN need not be the last thing sent. The zero-window probe does not ask
  whether a FIN was sent, and both sockets of a reverse connection request one when
  they close; and when a client closes while its upload is paused, the queue and the
  FIN can go out before the upload resumes. `AfterFin.AddsAfterFinIff` says exactly
  which events of which reachable states do it; `AfterFin.SecondFinHappens` and
  `LateData.LateDataHappens` are runs of six events from the SYN on.
- Bytes for a sink that is no longer writable are dropped and acknowledged:
  `ReceivePath.LossIsAcknowledged`.
- The DNS filter reads one byte too far after a compressed question name, unless
  the type's high byte is nonzero: `DnsFilter.QuestionIsSkipped`. On an ordinary
  response with two questions it then returns a damaged message:
  `DnsFilter.CompressedQuestionMisread`.

The right edge of the advertised window may move left, because buffered bytes
are subtracted from it (relay.js:576-583), and a zero UDP checksum is sent as it
is (packet_utils.js:144-145); neither of the opposite rules is claimed.

## Model

| member | source | states |
|---|---|---|
| `ConnectionTheorems.SenderConserves` | relay.js:533-562 | Over every run, whatever the VM sends: no exception, `relaySeq` equals `sndNxt`, and on an open connection acknowledged bytes, payloads of the outstanding segments and queued chunks are, end to end, exactly what the source enqueued |
| `ConnectionTheorems.StreamIsWhatArrived` | relay.js:1473-1504 | Over every run, both directions: the enqueued stream is exactly the concatenated data of the source events that found the connection in its table, in order, and a FIN waits or was sent exactly when an open connection was told of the source's end |
| `ConnectionTheorems.FramesCarryStream` | relay.js:668-715 | Every frame ever emitted (first send, timeout, duplicate-ACK, recovery-head or window-open resend, probe) carries the enqueued stream's bytes at its sequence number |
| `ConnectionTheorems.NoNumberCarriesTwoItems` | relay.js:1905-2001 | No sequence number is ever sent with two different items (SYN, byte or FIN) for positions less than 2^32 apart |
| `ConnectionTheorems.AcksAcceptedExactly` | tcp_retransmission.js:98-112 | At most 65535 payload bytes and one FIN are outstanding, so an ACK is accepted if and only if it names an outstanding item, with no half-space assumption |
| `ConnectionTheorems.NoLostWakeup` | relay.js:1776-1903 | Between events no drain is under way, and if chunks or a FIN not yet sent wait on an open connection, a timer, a transport waiter, an immediate resume or a rate-limit timeout is armed, whether or not data still comes after the FIN was requested or it is requested again; the pacer is blocked exactly when its timer is live |
| `ConnectionTheorems.WindowsAreUsed` | relay.js:1797-1847 | In every reachable open state with no call of the drain loop pending, queued data means a loss to recover from or as much payload in flight as the smaller of the VM's and the congestion window; a FIN that is next waits only for recovery or the VM's window |
| `ConnectionTheorems.NoLostAck` | relay.js:585-624 | On an open connection, whatever the VM sends, the last frame sent acknowledges everything received, or the delayed-ACK timer is live with fewer segments pending than would force an ACK |
| `ConnectionTheorems.PausedSourceResumes` | relay.js:533-562 | A source that is not paused has less than the high-water mark queued; while one is paused, more than the low-water mark is, and on an open connection a wake-up is armed, so backpressure never deadlocks |
| `ConnectionTheorems.OneTimerOverRuns` | tcp_retransmission.js:197-215 | One retransmission timer is live exactly when the connection is open and has outstanding segments or probes, otherwise none |
| `ConnectionTheorems.CongestionBounds` | relay.js:435-478 | The congestion window stays between 1 and max(window size, 2 MSS, 65535/2), and a recovery in force ends at exactly the next new sequence number |
| `ConnectionTheorems.PacedOverRuns` | relay.js:1776-1903 | Over every run, no paced segment leaves while the pacer is blocked or after it was closed, and as long as the clock does not go back and no resume timer fires early, every half-open interval of `intervalMs` holds at most `maxBurstSegments` of them |
| `ConnectionTheorems.WindowIsLatest` | relay.js:564-574 | In every reachable state the VM's window is the one of the latest acknowledgement accepted since the opening (for a reverse connection, since the SYN-ACK), whatever order they arrived in, for any reading of their numbers as positions with none 2^31 or more from the latest before it |
| `ConnectionTheorems.RecoveryFreezes` | relay.js:1814-1818 | From any state in recovery, over any further run: until everything outstanding at that time is acknowledged, neither data, FIN nor probe uses new sequence space |
| `ConnectionTheorems.ClosedForever` | relay.js:734-814 | CLOSED is never left and sends nothing new; sequence space handed out, acknowledged items and delivered bytes are never taken back |
| `ConnectionTheorems.FinishedIsComplete` | relay.js:761-814 | A connection, its FIN requested once or more often, is finished only after every enqueued byte and then exactly one FIN were acknowledged and the peer's FIN was taken; a reverse one is forgotten at once |
| `ConnectionTheorems.DeliveryOverRuns` | relay.js:1629-1711 | Over every run with a consistent peer and a sink for its bytes, the sink holds a prefix of its stream (all of it once the FIN is taken), the next expected number counts exactly that, and the ACK numbers sent since the peer was learned never decrease and never pass it |
| `ConnectionTheorems.AcksAreExact` | relay.js:593-604 | In every reachable state, with a consistent peer, the frames of the next event acknowledge positions from exactly what was delivered before it to what is delivered after it, never decreasing; an event that delivers nothing sends only the one exact number, base plus bytes delivered, plus one for the FIN |
| `ConnectionTheorems.FinishedDeliversBoth` | relay.js:1160-1181 | After a graceful close the sink equals the peer's whole stream, the final number is right after its FIN, and the VM acknowledged the source's whole stream and its FIN |
| `ConnectionTheorems.BeginOk` | relay.js:641-717 | A connection whose SYN or SYN-ACK was just sent satisfies the invariants |
| `ConnectionProofs.StepKeepsOk` | relay.js:1782-1848 | Every event, whatever the VM, source, sink or clock does, keeps the invariant of the connection, except one that puts something behind the FIN |
| `ConnectionProofs.HandleOutboundOk` | relay.js:1398-1712 | Any packet whatever keeps the invariant of an outbound connection |
| `ConnectionProofs.HandleReverseOk` | relay.js:966-1182 | Any packet whatever keeps the invariant of a reverse connection, the handshake included, with answers of their own for the two drains one ACK can start |
| `ConnectionProofs.AckedConn` | relay.js:1554-1592 | What the ACK part of a handler leaves: the books are right and nothing but the SYN can end the handshake |
| `ConnectionProofs.DataPartOk` | relay.js:1629-1711 | The data and FIN part keeps the invariant and changes the receiving half as `ReceiveSegment` says |
| `ConnectionPeer.StepKeepsPeer` | relay.js:1098-1181 | Every event with a consistent peer keeps the sink a prefix of its stream, and its frames acknowledge positions that climb from what was delivered before it to what is delivered after it |
| `ConnectionPeer.FinTaken` | relay.js:1689-1708 | Taking the peer's FIN keeps both |
| `ConnectionAcks.StepKeepsAcks` | relay.js:593-624 | Every event leaves nothing received without an acknowledgement sent or due |
| `ConnectionAcks.ScheduleAckAcks` | relay.js:606-624 | Asking for an ACK gets one sent or its timer armed |
| `ConnectionHistory.StepAdvances` | relay.js:1782-1848 | Every event moves the history forward only, and respects recovery and closing; the stream grows by exactly the data of a source event and by nothing else, and only the source's end ends it; the source is paused at the high-water mark and resumed at the low-water mark |
| `ConnectionOpening.BeginsWithSyn` | relay.js:1523-1528 | A connection begins with one frame, the SYN, or the SYN-ACK that acknowledges the VM's SYN and advertises the configured window; an outbound one starts with the window and MSS that SYN announced |
| `ConnectionOpening.ReverseOpens` | relay.js:1014-1043 | In every reachable SYN_SENT state of a reverse connection, a packet without RST opens it if and only if it is a SYN-ACK of the number right behind the SYN: then the VM's number, window and the smaller MSS are taken and the SYN-ACK is acknowledged first; any other packet changes nothing |
| `ConnectionOpening.OutboundOpens` | relay.js:1595-1608 | An outbound connection opens if and only if a packet acknowledges its SYN-ACK: it is acknowledged, and its data and FIN are taken; before, no packet delivers or acknowledges anything |
| `ConnectionOpening.RepeatedSynAckIsAnswered` | relay.js:1045-1050 | A repeated SYN-ACK is acknowledged again and changes nothing else |
| `ConnectionOpening.RepeatedSynIsAnswered` | relay.js:1412-1419 | A repeated SYN gets the SYN-ACK again exactly while that is not acknowledged, and changes nothing otherwise |
| `ConnectionPackets.ResetShutsDown` | relay.js:1540-1551 | In every reachable state a packet with RST (for outbound connections, not a SYN without ACK) closes and forgets the connection, leaves no timer, waiter or segment, delivers nothing and sends nothing |
| `ConnectionPackets.FailureShutsDown` | relay.js:776-799 | A failure does the same, and sends one reset exactly when the WebSocket is open |
| `ConnectionPackets.ForgottenIsLeftAlone` | relay.js:1532-1538 | Packets and data for a connection no longer in its table change nothing of it |
| `ConnectionPackets.BadAckIsIgnored` | relay.js:1556-1557 | A packet whose ACK neither names an outstanding item nor repeats the last one changes nothing at all |
| `ConnectionPackets.AckIsTaken` | relay.js:1554-1568 | An ACK that names an outstanding item moves the acknowledged prefix right behind that item |
| `ConnectionPackets.AckIsHeard` | relay.js:1558-1558 | Every accepted packet with an ACK adds its window to the reports, which `WindowIsLatest` reads |
| `ConnectionPackets.DataIsTaken` | relay.js:1629-1711 | Data and FIN of every accepted packet reach the receiving half as `ReceiveSegment` says, unless the packet finished a connection whose peer was done |
| `ConnectionPackets.PacketIsAnswered` | relay.js:1629-1702 | Data that is stale or early, or of which nothing is delivered, and every FIN, taken or out of place, make the event's last frame a new pure ACK with the current number and window, unless the packet finished the connection |
| `ConnectionPackets.AckIsDelayed` | relay.js:606-624 | Data in order is acknowledged at once if and only if delaying is off, enough segments wait or the window is closed; otherwise the timer is live and the segments are counted |
| `ConnectionPackets.FinIsNoticed` | relay.js:1699-1709 | The packet whose FIN is taken leaves the connection CLOSING or CLOSED |
| `ConnectionPackets.SinkIsResumed` | relay.js:635-639 | A drained sink, and only one that was full, makes the event's last frame a new pure ACK with the window open again |
| `ConnectionDone.DoneIsClosed` | relay.js:1616-1624 | In no reachable state is a connection open whose peer's FIN was taken and whose own FIN was acknowledged with all before it: the packet that settles the second FIN finishes it |
| `ConnectionDone.FinishingDisarms` | relay.js:761-814 | The event that finishes a connection disarms its delayed ACK, pacer, transport waiter and retransmission timer; a reverse connection is forgotten, an outbound one stays for a while |
| `ConnectionDone.FinishedIsForgotten` | relay.js:809-813 | When its time is up a finished connection is forgotten, with no timer and no segment left |
| `ConnectionWindows.WindowIsWhatIsLeft` | relay.js:576-583 | The window is 0 under backpressure; otherwise it and the buffered bytes make the smaller of 65535 plus these and the configured size; it is never negative |
| `ConnectionWindows.FramesAdvertiseWindow` | relay.js:1959-1962 | In every reachable data state, each frame of the next event advertises the window before or after it |
| `ConnectionWindows.AdvertisedIsKept` | relay.js:1661-1663 | With a consistent peer, every byte of early data that lies within the window of the moment is held after the packet |
| `ConnectionLoss.TimeoutResends` | relay.js:668-690 | A timeout with retries left sends exactly the oldest segment again, doubles the RTO up to its maximum, sets the congestion window to one MSS and the threshold to the larger of two MSS and half the flight, and starts a recovery |
| `ConnectionLoss.TimeoutGivesUp` | tcp_retransmission.js:245-250 | With the retries used up, a timeout shuts the connection down, with one reset exactly when the WebSocket is open |
| `ConnectionLoss.ProbeSendsOneItem` | relay.js:691-714 | A probe is one frame of one item: the first outstanding one, else the first queued byte, else the FIN that waits, which then have sequence space; a congested transport puts it off at no charge |
| `ConnectionLoss.ThirdDuplicateResends` | relay.js:1569-1589 | The first two pure duplicates are only counted; the third sends exactly the oldest segment again and sets window and threshold to the larger of two MSS and half the flight, unless the VM's window is probed or this number was served before |
| `ConnectionLoss.OtherRepetitionsDoNotCount` | relay.js:1569-1575 | A repetition with data, a FIN or a SYN, with a closed or a new window, or with nothing outstanding, is not counted and resends nothing; a new window starts the count anew |
| `ConnectionLoss.AckGrowsWindow` | relay.js:455-478 | Newly acknowledged bytes outside recovery grow the congestion window by MSS x bytes / window, one byte at least, up to the configured size, and widen the pacer's burst by each window's worth; in recovery they change neither; the count of duplicates starts anew |
| `ConnectionLoss.ReopeningResends` | tcp_retransmission.js:182-195 | When the VM opens a window that was probed, the next frame is the oldest outstanding segment |
| `SendDrain.PassPushesChunk` | relay.js:1831-1832 | A pass that gives sequence space to data sends the first queued bytes in one frame with ACK and PSH at its own number: exactly one MSS, or all that is queued, or all that the smaller window has room for |
| `SendDrain.DrainFits` | relay.js:1792-1794 | After any drain of an open connection: a FIN was sent only behind everything queued, into an open window and outside recovery; the connection probes exactly when the VM's window is zero and something is outstanding or waits; a zero window lets nothing new out |
| `ConnectionTurns.RefusedSendsNothing` | relay.js:1806-1829 | Whatever the state, an event all of whose passes were refused by the rate limiter or found the transport congested gives no sequence space to data; only the retransmission timer's probe does without being asked |
| `ConnectionTurns.PassIsEarned` | relay.js:1797-1847 | One pass sends data only with the transport free and, outbound, its turn admitted; it asks for a transport waiter only when congested, a rate-limit timeout only when refused, an immediate resume only after 64 chunks with pacing off |
| `ConnectionTurns.StepIsEarned` | relay.js:1797-1847 | The same for every event that drains, whatever the state: what it sends and what it asks for was earned by some turn, 64 of them for an immediate resume |
| `ConnectionTurns.PacerIsTold` | relay.js:1836-1836 | In every reachable state, the pacer is told of every segment of new data an event sends (between one byte and one MSS each), at a clock reading of its turns, and of nothing else; so `PacedOverRuns` bounds bytes |
| `ConnectionTurns.AtMost64Chunks` | relay.js:1842-1846 | With pacing off, what a drain does depends on no turn after the 64th |
| `ConnectionTurns.RefusedIsRetried` | relay.js:1825-1829 | If an event leaves data waiting although the windows have room, the transport was free and the pacer is open, a rate-limit timeout or an immediate resume is armed |
| `AfterFin.OtherStepsSendNothing` | relay.js:1760-1774 | Once a FIN was sent, an event that is neither data nor that probe adds nothing to the sequence space or the stream |
| `AfterFin.AddsAfterFinIff` | relay.js:691-714 | In every reachable state in which a FIN was sent, an enabled event adds to the sequence space or the stream if and only if it is data, or a live retransmission timer that probes, the transport free, nothing outstanding and the FIN requested again; the probe sends another FIN, the data becomes part of the stream |
| `AfterFin.SecondFinHappens` | relay.js:2655-2665 | A run of six events from the SYN of a reverse connection, after which SYN, FIN and FIN have sequence space; the first five satisfy the condition of the run theorems |
| `LateData.LateDataHappens` | relay.js:884-907 | A run of six events from the SYN of a reverse connection whose client closes while its upload is paused: the FIN goes out after the queued bytes, and the byte that comes when the upload resumes gets sequence space behind it |
| `LateData.ChunkDrains` | relay.js:1797-1834 | A drain of one chunk that fits sends it whether or not a FIN was sent, and then the FIN if it waits |
| `SendHistory.CompleteMeansAcked` | relay.js:503-514 | The 32-bit test for the end of recovery succeeds exactly when all that was outstanding is acknowledged |
| `SendHistory.PartialAckResendsOldest` | relay.js:455-501 | A partial ACK of data in recovery leaves recovery active and puts exactly the oldest segment on the wire, which starts at the acknowledged number; duplicates of that number will not resend it once more |
| `SendHistory.TrySendEvolves` | relay.js:1850-1903 | Draining moves the history forward and sends nothing new in recovery or when closed |
| `SendHistory.ProcessAckEvolves` | relay.js:435-501 | Processing an ACK ends recovery only by acknowledging all that was outstanding |
| `SendHistory.ProbeTimerEvolves` | relay.js:691-714 | A probe uses new sequence space only when nothing is outstanding |
| `SendProgress.SendQueuedKeeps` | relay.js:1814-1834 | A chunk sent by the drain loop leaves the payload in flight within both the VM's window and the congestion window |
| `SendProgress.TrySendKeeps` | relay.js:1850-1903 | Whatever called it, trying to send keeps the invariant and leaves a wake-up armed |
| `SendProgress.DrainPassKeeps` | relay.js:1782-1848 | One pass of the drain loop keeps the invariant; the last pass leaves something armed |
| `SendProgress.MaybeFinKeeps` | relay.js:1760-1774 | A FIN goes out only when nothing is before it and no recovery is active; when held back, a timer is live |
| `SendProgress.EndFinishedRecoveryKeeps` | relay.js:503-514 | Recovery that stays in force still has something outstanding |
| `SendEvents.RetransmissionTimerKeeps` | relay.js:662-716 | A timeout resends, probes or gives up, and keeps the invariant and the wake-up; it closes the connection exactly when the budget is used up |
| `SendEvents.ProbeOfOldest` | relay.js:696-703 | A zero-window probe of an outstanding segment carries the stream's first unacknowledged item, or nothing |
| `SendEvents.ProbeByteKeeps` | relay.js:704-707 | The only data that ignores the windows is one byte, sent when nothing is outstanding, and it is tracked like any other |
| `SendEvents.AbortKeeps` | relay.js:734-799 | Aborting closes the connection and keeps the books |
| `SendEvents.FinishKeeps` | relay.js:761-814 | Finishing needs an acknowledged FIN and leaves nothing unacknowledged |
| `SendEvents.EnqueueKeeps` | relay.js:533-547 | Data enqueued before the FIN was sent, requested or not, extends the stream by exactly its bytes |
| `SendOperations.OutstandingBound` | relay.js:523-531 | The payload in flight and at most one FIN: never more than 65536 items outstanding, so below 2^31 |
| `SendOperations.AcknowledgeQueueKeeps` | tcp_retransmission.js:98-140 | An accepted ACK moves the acknowledged prefix over exactly the items it names, reports exactly its payload bytes, and throws nothing |
| `SendOperations.ProcessAckKeeps` | relay.js:1554-1592 | The ACK part of a handler keeps the books whatever the ACK says |
| `SendOperations.RecoveryAckKeeps` | relay.js:455-501 | In recovery a data ACK either completes it or resends the oldest segment |
| `SendOperations.CongestionLossKeeps` | relay.js:435-453 | The response to a loss keeps the congestion bounds and aims recovery at the next new number |
| `SendOperations.SendTrackedBooks` | relay.js:719-732 | New sequence space is tracked, never rejected as non-contiguous, and sent under its own position |
| `SendOperations.TakeQueuedSplits` | tcp_utils.js:67-100 | Taking bytes splits the queue's contents after that many and loses none |
| `SendInvariant.SegmentationCarries` | relay.js:1905-2001 | Whatever the payload length, the frames cut from it lie end to end and carry exactly its items, SYN first and FIN last |
| `SendInvariant.FramesRespectMss` | relay.js:1915-1927 | No frame carries more than the MSS |
| `SendHeaders.TimerAppends` | relay.js:668-715 | Frames a timeout emits acknowledge the number current at that time, those without SYN advertise the window current then, and earlier frames are untouched |
| `SendHeaders.TrySendAppends` | relay.js:1905-2001 | The same for frames the drain loop emits |
| `RetransmissionRuns.TimerMachineOverRuns` | tcp_retransmission.js:197-269 | Over every run of the queue, with any callback replies: one live timer exactly when needed, never outdated, its delay the current RTO, exhaustion reported at most once |
| `RetransmissionRuns.SilentAfterwards` | tcp_retransmission.js:217-278 | Once closed or exhausted the queue never calls back and never arms a timer |
| `RetransmissionRuns.SilentPeerBacksOff` | tcp_retransmission.js:217-257 | With a silent peer the k-th RTO is min(initial 2^k, max), exactly `maxRetransmissions` resends or probes happen, and exhaustion comes after exactly the sum of the RTOs (section 5 of RFC 6298) |
| `RetransmissionRuns.AnsweringPeerNeverExhausts` | tcp_retransmission.js:98-257 | A peer that answers before more than `maxRetransmissions` timeouts went by is never given up on, over any run with tracking, window changes, resends and stray ACKs in between, and in persist mode or not; the timer stays armed while one is needed |
| `RetransmissionProofs.DropItemsDrops` | tcp_retransmission.js:114-171 | Acknowledging a number of items is dropping them from the flattened segments, and the bytes reported are the payload bytes among them |
| `RetransmissionProofs.DropItemsKeeps` | tcp_retransmission.js:114-171 | It keeps the segments contiguous up to `sndNxt` and lowers the payload in flight by what it reports |
| `RetransmissionProofs.AcknowledgeDrops` | tcp_retransmission.js:98-140 | An ACK drops exactly what it names, or changes nothing but a duplicate's probe budget in persist mode |
| `RetransmissionProofs.AcknowledgeThrowsIff` | tcp_retransmission.js:116-118 | The internal throw is reached exactly on a queue closed while space was outstanding |
| `RetransmissionProofs.AcknowledgeAcceptsExactly` | tcp_retransmission.js:98-112 | With less than 2^31 outstanding, an ACK is accepted if and only if it names an outstanding position |
| `RetransmissionProofs.TrackKeepsValid` | tcp_retransmission.js:67-96 | Tracking appends exactly the segment's items, and throws exactly on a gap |
| `RetransmissionProofs.FastRetransmitKeepsValid` | tcp_retransmission.js:173-180 | A fast retransmission keeps the queue's invariant and its items |
| `RetransmissionProofs.SetPersistKeepsValid` | tcp_retransmission.js:182-195 | Entering or leaving persist mode keeps the queue's invariant and its segments |
| `RetransmissionProofs.FireKeepsValid` | tcp_retransmission.js:197-257 | A firing timer keeps the queue's invariant whatever the callbacks do |
| `RetransmissionProofs.ProgressRestarts` | tcp_retransmission.js:134-195 | An accepted ACK, a fast retransmission and every change of persist mode put the RTO, and the delay of the one live timer, back to the initial value (an ACK leaves the probes' backoff alone); ACKs and window changes renew the retransmission budget |
| `RetransmissionQueue.TCPRetransmissionQueue.constructor` | tcp_retransmission.js:13-57 | A new queue is empty at the initial sequence number |
| `RetransmissionQueue.TCPRetransmissionQueue.Create` | tcp_retransmission.js:31-36 | The constructor throws exactly for a bad RTO range or fewer than one retransmission; otherwise the queue is new and its invariant holds |
| `RetransmissionQueue.TCPRetransmissionQueue.Track` | tcp_retransmission.js:67-96 | Computes the specification, both throws included |
| `RetransmissionQueue.TCPRetransmissionQueue.Acknowledge` | tcp_retransmission.js:98-140 | Computes the specification: status, bytes and new state |
| `RetransmissionQueue.TCPRetransmissionQueue.RemoveAcknowledged` | tcp_retransmission.js:114-132 | The shifting loop drops exactly the acknowledged items and fails only on an empty queue |
| `RetransmissionQueue.TCPRetransmissionQueue.ConsumeSegmentPrefix` | tcp_retransmission.js:142-171 | Succeeds exactly on a proper prefix and leaves the rest of the segment |
| `RetransmissionQueue.TCPRetransmissionQueue.FastRetransmit` | tcp_retransmission.js:173-180 | Computes the specification for every callback reply |
| `RetransmissionQueue.TCPRetransmissionQueue.SetPersist` | tcp_retransmission.js:182-195 | Computes the specification for every callback reply |
| `RetransmissionQueue.TCPRetransmissionQueue.ArmTimer` | tcp_retransmission.js:197-207 | Arms a timer of the current RTO under a fresh generation, when one is needed |
| `RetransmissionQueue.TCPRetransmissionQueue.ClearTimer` | tcp_retransmission.js:209-215 | Outdates every earlier timer and removes the live one |
| `RetransmissionQueue.TCPRetransmissionQueue.HandleTimeout` | tcp_retransmission.js:217-257 | Computes the specification: exhaust, probe or resend with backoff |
| `RetransmissionQueue.TCPRetransmissionQueue.EmitRetransmission` | tcp_retransmission.js:259-269 | Calls back with the oldest segment; a throwing callback exhausts the queue |
| `RetransmissionQueue.TCPRetransmissionQueue.TimerFired` | tcp_retransmission.js:197-207 | An outdated timer does nothing; the current one runs the timeout |
| `RetransmissionQueue.TCPRetransmissionQueue.Close` | tcp_retransmission.js:271-278 | Empties the queue and cancels its timer, once |
| `Pacing.SlidingBound` | tcp_pacer.js:52-110 | In the past of every sound pacer with a proper clock, every half-open interval of `intervalMs` holds at most `maxBurstSegments` segments |
| `Pacing.AckWidens` | tcp_pacer.js:52-64 | An adaptive burst widens by one segment exactly when a congestion window's worth of bytes is acknowledged and the maximum is not reached; the rest is carried over |
| `Pacing.LossNarrows` | tcp_pacer.js:66-76 | A loss halves an adaptive burst, not below the initial one, and the count of bytes starts anew |
| `Pacing.GateClosesWithBurst` | tcp_pacer.js:78-101 | Of segments within an interval of each other, exactly the burst passes; the last closes the gate for one interval |
| `Pacing.SegmentKeepsPacerOk` | tcp_pacer.js:78-101 | A segment through an open gate keeps the pacer sound: its distance from the one `maxBurstSegments` places before it is at least `intervalMs` |
| `Pacing.PacerRunsAreBounded` | tcp_pacer.js:52-110 | Over any run of sends, ACKs, losses and resumes with a clock that never goes back the bound holds, the burst stays within its limits, and blocked means the timer is live |
| `PacerClass.TCPPacer.constructor` | tcp_pacer.js:5-46 | A new pacer starts with the initial burst, off when the interval is zero |
| `PacerClass.TCPPacer.Create` | tcp_pacer.js:18-33 | The constructor throws exactly for an initial burst below one, a maximum below the initial burst or a negative interval |
| `PacerClass.TCPPacer.NoteAck` | tcp_pacer.js:52-64 | Computes the specification; reports whether the burst grew |
| `PacerClass.TCPPacer.NoteLoss` | tcp_pacer.js:66-76 | Computes the specification; reports whether the burst shrank |
| `PacerClass.TCPPacer.NoteSegment` | tcp_pacer.js:78-101 | Computes the specification; reports whether the pacer is blocked |
| `PacerClass.TCPPacer.TimerFired` | tcp_pacer.js:94-99 | The resume timer unblocks the pacer |
| `PacerClass.TCPPacer.Close` | tcp_pacer.js:103-110 | Cancels the timer and unblocks |
| `SequenceNumbers.SeqLessThanIsLess` | relay.js:1714-1718 | The comparison is right if and only if the positions differ by less than 2^31 (2^31 behind included) |
| `SequenceNumbers.SeqDiffIsDistance` | relay.js:1724-1727 | `seqDiff` recovers the distance if and only if it is below 2^31 |
| `Reassembly.SortedKeysSorts` | tcp_utils.js:24-27 | The visiting order holds every range once, ascending by distance from the next expected byte |
| `Reassembly.SortedKeysUnique` | tcp_utils.js:50-52 | Any ascending list of the ranges is that order |
| `ReassemblyProofs.BufferRefinesMap` | tcp_utils.js:20-44 | Buffering adds exactly the payload bytes at the missing offsets of [start, min(start + length, capacity)), keeps ranges disjoint and nonempty and counts them exactly |
| `ReassemblyProofs.HeldOnce` | tcp_utils.js:18-19 | No offset ever holds two bytes: the first copy is kept |
| `ReassemblyProofs.TotalBelow` | tcp_utils.js:20-44 | The buffered total stays below the capacity |
| `ReassemblyProofs.DrainIsMaximal` | tcp_utils.js:46-65 | Draining delivers, in order, exactly the held bytes up to the first missing one, and leaves every remaining range strictly ahead |
| `ReceivePath.AssignedPositionIsTrue` | relay.js:1629-1671 | A segment within 2^32 of the next position is taken at its true position if and only if it is less than 2^31 away |
| `ReceivePath.HalfSpaceMisdelivers` | relay.js:1724-1727 | At a distance of exactly 2^31 the whole payload is delivered as if it came next |
| `ReceivePath.ReceiveDataKeeps` | relay.js:1629-1687 | One data segment keeps the sink a prefix, unless its bytes are new and the sink is gone; one that reaches beyond it extends the sink through its last byte |
| `ReceivePath.LossIsAcknowledged` | relay.js:626-633 | When the sink is not writable, new bytes in order leave it as it is, and the next expected number is nevertheless right after them or later |
| `ReceivePath.EarlyIsHeld` | relay.js:1654-1666 | Early data within the capacity is held at its place afterwards, what was held stays, and under backpressure it is dropped |
| `ReceivePath.SegmentsAreCounted` | relay.js:1675-1686 | Data in order counts as one segment and one more for each range it made deliverable, more than one exactly if buffered bytes were delivered; backpressure is noted exactly when the sink says so |
| `ReceivePath.TakesFinExactly` | relay.js:1689-1700 | The FIN is taken if and only if every byte before it was delivered and it was not taken before |
| `ReceivePath.ReceiveSegmentKeeps` | relay.js:1098-1181 | Both together, for one segment with or without a FIN |
| `ReceivePath.SinkIsPrefix` | relay.js:1098-1181 | For any finite arrival order of a consistent peer's segments, with backpressure coming and going: the sink is exactly the first bytes, the next expected number counts them and the FIN, and the buffer stays within the window |
| `ConnectionClass.TCPConnection.Reverse` | relay.js:816-920 | The connection object of a reverse connection after its SYN |
| `ConnectionClass.TCPConnection.Outbound` | relay.js:1436-1520 | The connection object of an outbound connection after its SYN-ACK |
| `ConnectionClass.TCPConnection.CutFrames` | relay.js:1927-1998 | The segmentation loop cuts exactly the specified frames, end to end |
| `ConnectionClass.TCPConnection.SendTCP` | relay.js:1905-2001 | The frames go out, and `relaySeq` moves past them when asked |
| `ConnectionClass.TCPConnection.SendTrackedTCP` | relay.js:719-732 | New data is sent and tracked frame by frame |
| `ConnectionClass.TCPConnection.SortRanges` | tcp_utils.js:25-27 | An insertion sort yields the visiting order |
| `ConnectionClass.TCPConnection.BufferTCPOutOfOrder` | tcp_utils.js:20-44 | The loop over sorted ranges computes the specification |
| `ConnectionClass.TCPConnection.DrainTCPOutOfOrder` | tcp_utils.js:46-65 | The loop writes exactly the chunks and leaves exactly the buffer of the specification |
| `ConnectionClass.TCPConnection.TakeQueuedBytes` | tcp_utils.js:67-100 | The copy loop returns the first bytes of the queue and leaves the rest; it throws exactly for a length that is not positive, or with the queue used up when it holds fewer bytes |
| `ConnectionClass.TCPConnection.OnTCPCongestionLoss` | relay.js:435-453 | Computes the response to a loss |
| `ConnectionClass.TCPConnection.OnTCPCongestionAck` | relay.js:455-478 | Computes the response to acknowledged data |
| `ConnectionClass.TCPConnection.RetransmitTCPRecoveryHead` | relay.js:480-501 | Resends the oldest segment, if any |
| `ConnectionClass.TCPConnection.IsTCPCongestionRecoveryActive` | relay.js:503-514 | Clears a finished recovery and says whether one is in force |
| `ConnectionClass.TCPConnection.EnqueueTCPData` | relay.js:533-547 | Queues a chunk and pauses the source at the high-water mark |
| `ConnectionClass.TCPConnection.ConsumeTCPQueuedData` | relay.js:549-562 | Accounts for sent bytes and resumes the source at the low-water mark |
| `ConnectionClass.TCPConnection.UpdateTCPWindow` | relay.js:564-574 | Keeps the window of the latest segment and says whether it changed |
| `ConnectionClass.TCPConnection.SendTCPAck` | relay.js:593-604 | Sends a pure ACK and clears the delayed one |
| `ConnectionClass.TCPConnection.ScheduleTCPAck` | relay.js:606-624 | Sends now or arms the delay |
| `ConnectionClass.TCPConnection.WriteTCPReceiveData` | relay.js:626-633 | Appends to the sink and notes backpressure; a sink that is not writable takes nothing |
| `ConnectionClass.TCPConnection.OnSinkDrain` | relay.js:635-639 | A drained sink reopens the window |
| `ConnectionClass.TCPConnection.SetPersist` | tcp_retransmission.js:182-195 | Leaving persist mode with a segment outstanding resends it |
| `ConnectionClass.TCPConnection.FastRetransmit` | relay.js:668-690 | A fast retransmission with its congestion response |
| `ConnectionClass.TCPConnection.RetransmissionTimerFired` | relay.js:662-716 | Giving up, probing or resending, callbacks included |
| `ConnectionClass.TCPConnection.ProbeTimer` | relay.js:691-714 | The probe callback, branch by branch |
| `ConnectionClass.TCPConnection.AbortTCPConnection` | relay.js:776-799 | Closes and forgets the connection, with a reset when asked |
| `ConnectionClass.TCPConnection.FinishTCPConnection` | relay.js:801-814 | Closes a completed connection |
| `ConnectionClass.TCPConnection.MaybeSendFin` | relay.js:1871-1885 | The guards of the FIN, in the source's order |
| `ConnectionClass.TCPConnection.DrainOnce` | relay.js:1797-1847 | One pass of the `while (true)` |
| `ConnectionClass.TCPConnection.DrainTCPToVM` | relay.js:1782-1848 | The drain loop computes the specification and terminates |
| `ConnectionClass.TCPConnection.TrySendToVM` | relay.js:1850-1903 | The guards of a drain |
| `ConnectionClass.TCPConnection.ProcessAck` | relay.js:1554-1592 | The ACK part of both handlers |
| `ConnectionClass.TCPConnection.HandleData` | relay.js:1629-1687 | In-order, trimmed, stale or early data |
| `ConnectionClass.TCPConnection.HandleFin` | relay.js:1689-1711 | A FIN is taken at its place, or only acknowledged |
| `ConnectionClass.TCPConnection.HandleTCP` | relay.js:1398-1712 | The packet handler of an existing outbound connection |
| `ConnectionClass.TCPConnection.HandleReverseTCP` | relay.js:966-1182 | The packet handler of an existing reverse connection |
| `ConnectionClass.TCPConnection.Handle` | relay.js:1782-1903 | Any event on the object, except data after the FIN was sent, is one step of the state machine, and keeps the invariant unless it sends another FIN |
| `RateLimiter.EveryWindowIsBounded` | rate_limiter.js:20-38 | Every half-open window of the configured length, wherever it ends, admits at most the limit |
| `RateLimiter.MergeIsAppend` | rate_limiter.js:30-34 | Adding to the entry of the same timestamp is invisible in every window |
| `RateLimiter.ExpiredIsInvisible` | rate_limiter.js:40-48 | Entries at or before the cutoff count in no later window |
| `RateLimiter.SlidingWindowRateLimiter.constructor` | rate_limiter.js:3-18 | A new limiter has admitted nothing |
| `RateLimiter.SlidingWindowRateLimiter.Create` | rate_limiter.js:5-10 | The constructor throws exactly for a limit or window that is not positive |
| `RateLimiter.SlidingWindowRateLimiter.TryConsume` | rate_limiter.js:20-38 | Answers exactly as summing the full history over (now - window, now], for every nondecreasing clock; negative counts are a TypeError |
| `RateLimiter.SlidingWindowRateLimiter.Prune` | rate_limiter.js:40-57 | Afterwards the total is the naive sum and dead entries are fewer than max(1024, live entries) |
| `RateLimiter.SlidingWindowRateLimiter.CompactEntries` | rate_limiter.js:50-56 | Compaction keeps the live entries |
| `RateLimiter.SlidingWindowRateLimiter.Usage` | rate_limiter.js:59-62 | The naive sum, never above the limit |
| `Checksum.OnesSumFolds` | packet_utils.js:14-18 | One wide sum folded at the end equals the sum with end-around carry (section 1 of RFC 1071) |
| `Checksum.FoldIsCanonical` | packet_utils.js:14-16 | Folding terminates, keeps the value modulo 65535 and is zero only for zero |
| `Checksum.InternetChecksum` | packet_utils.js:3-19 | The loop computes the checksum of section 1 of RFC 1071 for odd and even lengths |
| `Checksum.TransportChecksum` | packet_utils.js:121-146 | The in-place sum is the RFC 1071 checksum of pseudo-header and transport with a zeroed field; it fails exactly on bad lengths |
| `Checksum.ZeroedSum` | packet_utils.js:139-139 | Subtracting the old field is zeroing it |
| `Checksum.InPlaceSum` | packet_utils.js:133-143 | The in-place sum equals the sum over pseudo-header and zeroed transport |
| `Checksum.StoredChecksumVerifies` | packet_utils.js:115-115 | Data with its checksum stored sums to zero |
| `Checksum.WrittenChecksumVerifies` | relay.js:1988-1989 | So does a packet whose transport checksum was written, over its pseudo-header |
| `PacketFormats.ParsesExactlyPackets` | packet_utils.js:47-70 | The parser answers `r` if and only if the bytes are a well-formed IPv4 header (any options, any fragment fields), a body of the announced length and padding, and `r` is what they hold; all else is rejected |
| `PacketFormats.ParseReads` | packet_utils.js:47-70 | Every encoded packet, whatever follows it, is read as it was written |
| `PacketFormats.ParsesExactlyDatagrams` | packet_utils.js:72-86 | A datagram is the parser's answer if and only if the bytes are an IPv4 packet of protocol 17 whose body starts with its encoding |
| `Packets.PaddingIsIgnored` | packet_utils.js:57-62 | Link-layer padding changes neither parse |
| `Packets.BuildIPv4Packet` | packet_utils.js:88-119 | The buffer filled in place is the packet; over-long payloads are a RangeError |
| `Packets.BuiltHeaderVerifies` | packet_utils.js:115-115 | The header checksum of a built packet verifies |
| `Packets.ParseBuilt` | packet_utils.js:47-119 | Parsing a built packet, padded or not, gives back addresses, protocol and payload |
| `Packets.SendUDPToVM` | relay.js:2262-2274 | What is sent parses to the ports and payload given, and its checksum verifies |
| `Packets.ParseSent` | packet_utils.js:72-86 | The datagram parses to what was sent whatever checksum is stored |
| `WindowUpdate.OlderIsBefore` | relay.js:564-574 | The 32-bit test finds the older of two segments less than 2^31 apart |
| `WindowUpdate.WindowOfLatest` | relay.js:564-574 | After any sequence of ACKs, each less than 2^31 from the latest before it, the window is the one of the lexicographically greatest (seq, ack), the last of equals |
| `WindowUpdate.OrderIsIrrelevant` | relay.js:1556-1558 | Any two orders of arrival of the same ACKs leave the same window (section 3.10.7.4 of RFC 9293) |
| `DnsFilter.SkipQuestions` | relay.js:2141-2154 | The nested loops over question names compute the specification |
| `DnsFilter.FilterAnswers` | relay.js:2158-2203 | The loop over answers computes the specification |
| `DnsFilter.FilterDNSResponse` | relay.js:2125-2229 | The filter computes the specification |
| `DnsFilter.FilterRemovesExactlyAAAA` | relay.js:2158-2229 | On the encoding of a response without answers, or whose question names are uncompressed or end in a pointer under a type of 256 or more: the encoding with exactly the type-28 answers removed and the count corrected, or the input when none or every answer is one |
| `DnsFilter.FilterIsIdempotent` | relay.js:2205-2229 | Filtering such a response twice is filtering it once |
| `DnsFilter.QuestionIsSkipped` | relay.js:2142-2154 | A question is passed over correctly if and only if its name is uncompressed or the high byte of its type is not zero; otherwise one byte too far |
| `DnsFilter.QuestionsAreSkipped` | relay.js:2141-2154 | When the questions before the last are such, the answers are looked for in the right place if and only if the last one is, too |
| `DnsFilter.CompressedQuestionMisread` | relay.js:2141-2229 | A well-formed response with an A and an AAAA answer and two questions, the second name compressed: the filter returns 50 bytes where the filtered response has 41 |
| `TCPOptions.ParseTCPOptions` | tcp_utils.js:102-136 | The loop computes the specification; bad bounds are a RangeError |
| `TCPOptions.WalkReadsOptions` | tcp_utils.js:114-135 | The parser reads back every encoded option list and nothing of what follows it |
| `TCPOptions.ParserReadsOptions` | tcp_utils.js:102-136 | The same anywhere in a packet, ended by the header or an end-of-list octet |

## Left out

- WebSocket, `net`, `dgram`, HTTP servers, Ethernet framing, the NAT and flow tables, ARP, ICMP and DHCP, address allocation, logging and settings: plumbing around the connection, or easy map and field-copy code.
- Creating and looking up connections, answering packets of unknown connections with a reset, and `recentlyClosed`: `current` says whether the object is still in its table.
- Numbers on the wire: connections exchange structured segments; only packet building, checksums and TCP options are modelled on bytes.
- Random initial sequence numbers, IP identification and ports are arbitrary inputs; addresses are their four bytes.
- Event-loop order and re-entrancy: each handler is one atomic step, each timer an event; a flushed transport schedules a resume as a further event.
- The idle timer of reverse connections and socket errors are one event, `Fails`, that may happen at any time.
- ConnectionClass.TCPConnection.WriteTCPReceiveData: all writes of one packet get the same answer from the sink; corking and ending the real socket are not modelled.
- ConnectionClass.TCPConnection.Handle: data that arrives after the FIN was sent is a step of the state machine but not an event the object takes.
- ConnectionClass.TCPConnection.SendTCP: a reset is only ever sent without payload, so segmenting one is not modelled.
- ConnectionClass.TCPConnection.TakeQueuedBytes: the TypeErrors for a queue or entries of the wrong kind are not modelled.
- ConnectionClass.TCPConnection.HandleReverseTCP: the parsed MSS of the SYN-ACK is an input, zero when absent; window scaling is never offered.
- ConnectionTheorems.NoLostWakeup: that an armed wake-up eventually delivers is liveness under loss and not claimed.
- ConnectionTheorems.PacedOverRuns: clock readings are arbitrary inputs of the drain loop, so that they do not go back is a condition on the history, not on the events; segments sent with pacing off are not counted.
- RateLimiter.SlidingWindowRateLimiter.TryConsume: times and byte counts are reals, so floating-point rounding and values that are not finite are not modelled.
- Checksum.TransportChecksum: the field's offset is even, as it is for TCP and UDP.
- ConnectionTheorems.SenderConserves: like the other theorems over runs, says nothing about what follows a step that puts something behind the FIN.
- DnsFilter.FilterRemovesExactlyAAAA: responses with an unreadable question are left to the one-byte rule of `QuestionsAreSkipped`, since what the filter then finds depends on the bytes it meets; compression pointers into the answer section are not relocated by the filter, and the model does not follow them.
- TCPOptions.WalkReadsOptions: options of kinds 0 to 3 with a length other than their own are covered by the loop's specification but not by the option datatype.
- `parseDnsQuestionName`: used for tracing only, and its recursion through pointers has no measure.
