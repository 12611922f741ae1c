# Verified models of a media stack

Dafny models of the stateful parts of a real-time media code base, with proofs of what each
promises over all inputs and all runs. `dafny verify dfyconfig.toml` checks everything.

The core is the packet pacer of WebRTC:

- `PacketQueueModel`, `PacketQueue` and `PacketQueueFairness`: the round-robin packet queue. A
  plain bag of packets is kept beside the multimap schedule, the streams, the multiset of enqueue
  times, the running sums and the single-packet slot, and all of them are shown to agree with it
  after every operation. What a client sees of the queue (bag and bytes charged) is a small step
  relation, `PopStep` and its kin; bounded unfairness and drain order are proved over runs of it.
- `IntervalBudget`: the token bucket, with the 32-bit conversion of its draws. A ghost history of all that
  was done to a budget carries the account of bytes granted and drawn.
- `BitrateProber`: the probe clusters. A ghost log of reports carries the rate claim.
- `PacingController`: the periodic-mode controller. Clock and packet sender are arbitrary scripts;
  a ghost account of packets enqueued and sent, and a ghost log of sends with the queue and the budget
  each met, carry conservation, the congestion claim, the order of sending and the pacing rate.
- `TaskQueuePacedSender`: the wake-up protocol, for any interleaving of tasks and nested calls.

Beside it stand self-contained components: `QuickSort` (explicit stack), `RequestParser` (push-style
HTTP), `SipMessage` and `SipTransactions`, `Unwrapper`, `RembThrottler` and `PacketRouter`. What the
parsers accept is also told by how it is written, without reference to the parsers: `RequestGrammar`
(folded header lines), `SipGrammar` (traces) and `SipFields` (Via, CSeq); each is proved to describe
exactly what is accepted, and its meaning.
`Collections`, `Units` and `Packets` hold shared vocabulary.

Classes have the fields of the original objects. `Valid()` is the invariant every method keeps; each
method is proved against functions and relations on values, and the laws are lemmas about those.

Where code and documentation disagree the model follows the code:

- `SetIncludeOverhead` counts overhead again when called twice. The byte count stays right exactly
  if overhead was not counted before, or there is none to count twice.
- The fast path of `Pop` does not charge the packet's stream, so a pop of an only packet changes the
  fairness ledger exactly if the packet was stored in its stream.
- Enqueue times are recorded raw for packets pushed into a non-empty queue and without pause time
  for packets that found it empty, so the oldest enqueue time can be too early, but never if the queue was not paused.
- `UseBudget` converts the size to a signed 32-bit number; from 2^31 bytes on it can add budget.
- The queue's clock check can fail in two ways. Error correction made from a keep-alive can move the
  queue's clock past the time of processing, and the check of the same round then fails exactly if
  bytes are queued. And the clock is read twice at construction: the first packet, or pause, fails the
  check exactly if the time now lies before the second reading.
- More than one pending task of the task-queue pacer can carry the scheduled time, against its header:
  exactly when a task is posted for a time that a pending, stale task carries already.
- A maximum can be held back although the last REMB exceeds it, if the clock goes back; and a REMB for a
  small decrease within 200 ms is held back, against the comment in the header.
- An unwrapped number can be negative, against the class comment, if the last value was set to a negative one.
- A version number of a request overflows an `int` from 47 below its largest value on.
- The sorting routine reads outside an empty array, so arrays have at least one cell.

## Model

| member | source | states |
|---|---|---|
| PacketQueueFairness.BoundedUnfairness | webrtc_src/modules/pacing/round_robin_packet_queue.cc:188-217 | Over every run in which a stream waits with a packet of some priority or better queued, any other stream pops at most 1400 bytes plus two of the largest packets at that priority or worse, whatever else is queued |
| PacketQueueFairness.WaitingRunAdvances | webrtc_src/modules/pacing/round_robin_packet_queue.cc:188-217 | Over every such run the waiting stream is charged nothing, and the other stream's charge keeps pace with the bytes it popped at that priority or worse |
| PacketQueueFairness.AdvanceStep | webrtc_src/modules/pacing/round_robin_packet_queue.cc:188-217 | The step of that induction: a stream can pop at that priority or worse only while it is charged no more than the waiting one, and popping better ones only adds to its charge |
| PacketQueueFairness.StepKeepsLed | webrtc_src/modules/pacing/round_robin_packet_queue.cc:194-197 | The leader's charge bounds every stream's charge after every operation |
| PacketQueueFairness.DrainOrder | webrtc_src/modules/pacing/round_robin_packet_queue.cc:43-51 | Of two pops of one stream at one priority in a run of pops, a retransmission is not the later one, and of two alike the one enqueued first comes first; and no pop has a worse priority than a later one |
| PacketQueueFairness.StaysQueued | webrtc_src/modules/pacing/round_robin_packet_queue.cc:158-217 | During a run of pops what is queued later was queued all along |
| PacketQueueModel.OrdersAreStrict | webrtc_src/modules/pacing/round_robin_packet_queue.cc:43-51 | The packet order and the stream-key order are strict orders, as the ordered containers demand |
| PacketQueueModel.FirstEntryIsChoice | webrtc_src/modules/pacing/round_robin_packet_queue.cc:386-396 | The head of the first scheduled stream has globally minimal priority, its stream is charged least among equals, and nothing of that stream precedes it |
| PacketQueueModel.IndexedUpdate | webrtc_src/modules/pacing/round_robin_packet_queue.cc:334-356 | Replacing one stream's entry keeps the schedule in agreement: one entry for each non-empty stream, under its best priority and its charge |
| PacketQueueModel.IndexAfterPush | webrtc_src/modules/pacing/round_robin_packet_queue.cc:334-356 | The schedule agrees with the streams after a push, whether or not the stream moves forward |
| PacketQueueModel.IndexAfterPop | webrtc_src/modules/pacing/round_robin_packet_queue.cc:199-213 | The schedule agrees with the streams after a pop, whether or not packets are left |
| PacketQueueModel.ErasedIsUnscheduled | webrtc_src/modules/pacing/round_robin_packet_queue.cc:178-207 | Once its entry is erased a stream is not scheduled, so the check before it is scheduled again cannot fail |
| PacketQueueModel.StreamAfterPush | webrtc_src/modules/pacing/round_robin_packet_queue.cc:358-367 | A push adds exactly one packet to one stream, in order, and changes no other stream |
| PacketQueueModel.StreamAfterPop | webrtc_src/modules/pacing/round_robin_packet_queue.cc:178-213 | A pop takes exactly the head out of one stream and keeps every stream's charge below the leader's |
| PacketQueueModel.ContainersAfterPromotion | webrtc_src/modules/pacing/round_robin_packet_queue.cc:379-384 | Moving the single packet into its stream leaves the bag of queued packets as it was and records its enqueue time |
| PacketQueueModel.ContainersAfterPop | webrtc_src/modules/pacing/round_robin_packet_queue.cc:171-213 | Streams, schedule, enqueue times and packet count agree with the bag after a pop |
| PacketQueueModel.ContainersAfterPush | webrtc_src/modules/pacing/round_robin_packet_queue.cc:144-155 | Streams, schedule, enqueue times and packet count agree with the bag after a push |
| PacketQueueModel.LedgerLater | webrtc_src/modules/pacing/round_robin_packet_queue.cc:268-282 | As time passes the running queue time stays the sum of unpaused waiting times, paused or not |
| PacketQueueModel.LedgerAfterPop | webrtc_src/modules/pacing/round_robin_packet_queue.cc:184-186 | Taking a packet out subtracts exactly its unpaused waiting time; for the last packet that is all of the running sum |
| PacketQueueModel.TotalShift | webrtc_src/modules/pacing/round_robin_packet_queue.cc:303-315 | If every packet's amount grows by the same number, the sum grows by that number times the packet count |
| PacketQueueModel.OldestRecorded | webrtc_src/modules/pacing/round_robin_packet_queue.cc:257-266 | The least recorded time is no later than any packet's raw enqueue time, and equals the earliest exactly if no packet that found the queue empty was queued after a pause, as when there was no pause |
| PacketQueue.RoundRobinPacketQueue.constructor | webrtc_src/modules/pacing/round_robin_packet_queue.cc:117-128 | A new queue is empty and all its containers agree |
| PacketQueue.RoundRobinPacketQueue.Push | webrtc_src/modules/pacing/round_robin_packet_queue.cc:137-156 | Both paths of a push add the same one packet to the bag, with the pause time taken off its enqueue time, charge no stream, and keep every container, sum and count in agreement |
| PacketQueue.RoundRobinPacketQueue.PushSingle | webrtc_src/modules/pacing/round_robin_packet_queue.cc:142-147 | Into an empty queue: the single-packet slot alone stands for the bag |
| PacketQueue.RoundRobinPacketQueue.PushToStream | webrtc_src/modules/pacing/round_robin_packet_queue.cc:148-155 | Into a non-empty queue: the slot is emptied into its stream first, and the bag gains just the new packet |
| PacketQueue.RoundRobinPacketQueue.PushQueued | webrtc_src/modules/pacing/round_robin_packet_queue.cc:323-367 | A packet with a recorded time is new and counts in every sum; one without comes from the slot and only gains its recorded time |
| PacketQueue.RoundRobinPacketQueue.Admit | webrtc_src/modules/pacing/round_robin_packet_queue.cc:353-364 | Settles the time up to the packet's arrival, takes the pause time off it and counts it, with the ledger of waiting times kept exact |
| PacketQueue.RoundRobinPacketQueue.MaybePromoteSinglePacketToNormalQueue | webrtc_src/modules/pacing/round_robin_packet_queue.cc:379-384 | Promotion changes no sum, no count, no charge and not the bag |
| PacketQueue.RoundRobinPacketQueue.Schedule | webrtc_src/modules/pacing/round_robin_packet_queue.cc:330-351 | A stream is scheduled once, under the better of its priority and the new packet's |
| PacketQueue.RoundRobinPacketQueue.Pop | webrtc_src/modules/pacing/round_robin_packet_queue.cc:158-217 | Both paths of a pop return a packet the plain bag allows: of the least priority, then of the stream charged least, and within the stream retransmissions first, then the lowest enqueue order; they remove just it, and keep every container, sum and count in agreement; a packet from the slot charges nobody, any other charges its stream by the lead rule |
| PacketQueue.RoundRobinPacketQueue.PopSingle | webrtc_src/modules/pacing/round_robin_packet_queue.cc:159-169 | The fast path empties the bag, and the running sums come out zero |
| PacketQueue.RoundRobinPacketQueue.PopFromStream | webrtc_src/modules/pacing/round_robin_packet_queue.cc:171-217 | The slow path takes the head of the best stream and charges it to within 1400 bytes of the leader |
| PacketQueue.RoundRobinPacketQueue.TakeHead | webrtc_src/modules/pacing/round_robin_packet_queue.cc:188-213 | After the head leaves, its stream is charged and rescheduled exactly if packets are left |
| PacketQueue.RoundRobinPacketQueue.GetHighestPriorityStream | webrtc_src/modules/pacing/round_robin_packet_queue.cc:386-396 | The first scheduled stream exists, is not empty, and holds the packet to pop |
| PacketQueue.RoundRobinPacketQueue.HeadIsChoice | webrtc_src/modules/pacing/round_robin_packet_queue.cc:158-217 | The head of the concrete schedule is such a packet, as its fields and charges tell |
| PacketQueue.RoundRobinPacketQueue.SchedulePresent | webrtc_src/modules/pacing/round_robin_packet_queue.cc:386-396 | With packets in streams the schedule is not empty, so the checks before its first entry is used cannot fail |
| PacketQueue.RoundRobinPacketQueue.SingleMeansStreamsEmpty | webrtc_src/modules/pacing/round_robin_packet_queue.cc:379-384 | A packet in the slot means every stream is empty, nothing is scheduled and no enqueue time is recorded |
| PacketQueue.RoundRobinPacketQueue.EmptyQueueHasNoQueueTime | webrtc_src/modules/pacing/round_robin_packet_queue.cc:215-217 | The check that an empty queue has no queue time left cannot fail |
| PacketQueue.RoundRobinPacketQueue.SumsAreNonNegative | webrtc_src/modules/pacing/round_robin_packet_queue.cc:268-282 | The running queue time and byte count never go negative |
| PacketQueue.RoundRobinPacketQueue.ViewIsLed | webrtc_src/modules/pacing/round_robin_packet_queue.cc:194-197 | No stream is charged more than the leader |
| PacketQueue.RoundRobinPacketQueue.Empty | webrtc_src/modules/pacing/round_robin_packet_queue.cc:219-226 | Empty exactly if nothing is queued, and then neither slot nor schedule holds anything |
| PacketQueue.RoundRobinPacketQueue.LeadingAudioPacketEnqueueTime | webrtc_src/modules/pacing/round_robin_packet_queue.cc:236-255 | Set exactly when the packet that the next pop returns is audio |
| PacketQueue.RoundRobinPacketQueue.OldestEnqueueTime | webrtc_src/modules/pacing/round_robin_packet_queue.cc:257-266 | Never later than any queued packet's raw enqueue time; equal to the earliest exactly if no queued packet entered an empty queue after a pause, and so whenever the queue was never paused |
| PacketQueue.RoundRobinPacketQueue.OldestTooEarly | webrtc_src/modules/pacing/round_robin_packet_queue.cc:257-266 | An instance: a packet pushed at 10 into an empty queue paused at 0 makes the oldest time earlier than 10 |
| PacketQueue.RoundRobinPacketQueue.AverageQueueTime | webrtc_src/modules/pacing/round_robin_packet_queue.cc:317-321 | The mean unpaused waiting time of the bag, rounded down |
| PacketQueue.RoundRobinPacketQueue.UpdateQueueTime | webrtc_src/modules/pacing/round_robin_packet_queue.cc:268-282 | Time that passes counts as waiting or as pause, and the ledger of waiting times stays exact |
| PacketQueue.RoundRobinPacketQueue.SetPauseState | webrtc_src/modules/pacing/round_robin_packet_queue.cc:284-289 | Changing the pause state first settles the time that passed under the old state |
| PacketQueue.RoundRobinPacketQueue.SetIncludeOverhead | webrtc_src/modules/pacing/round_robin_packet_queue.cc:291-301 | Adds overhead for everything queued; the byte count then agrees with the bag exactly if overhead was not counted before or there is none to count twice |
| PacketQueue.RoundRobinPacketQueue.CountedTwice | webrtc_src/modules/pacing/round_robin_packet_queue.cc:291-301 | An instance: with one packet queued whose headers have bytes, a second call leaves the byte count too high by the headers |
| PacketQueue.RoundRobinPacketQueue.SetTransportOverhead | webrtc_src/modules/pacing/round_robin_packet_queue.cc:303-315 | The byte count agrees with the bag under the new overhead; order and charges are untouched |
| PacketQueue.RoundRobinPacketQueue.CountOverhead | webrtc_src/modules/pacing/round_robin_packet_queue.cc:293-300 | Walking all streams counts the overhead of every packet of the bag once |
| PacketQueue.RoundRobinPacketQueue.RecountOverhead | webrtc_src/modules/pacing/round_robin_packet_queue.cc:304-312 | Walking all streams exchanges the old overhead for the new one on every packet of the bag |
| IntervalBudget.TokenBucket | webrtc_src/modules/pacing/interval_budget.cc:38-52 | Over every run that draws only while budget is left, changes of rate included, the bytes drawn stay below the starting remainder, plus what time granted, plus debt written off, plus one packet |
| IntervalBudget.Accounting | webrtc_src/modules/pacing/interval_budget.cc:25-52 | Over any run at all, what is left is at most what there was, plus what time granted and what was written off, less what was drawn |
| IntervalBudget.PacingRate | webrtc_src/modules/pacing/interval_budget.cc:38-52 | With packets no larger than the window of the lowest rate, drawing over T ms stays below the remainder plus the highest rate times T plus one packet |
| IntervalBudget.NothingForgiven | webrtc_src/modules/pacing/interval_budget.cc:49-52 | While every packet fits the window of the lowest rate no debt is ever written off, not even when the rate changes, starting without a rate included |
| IntervalBudget.ForgivenExactly | webrtc_src/modules/pacing/interval_budget.cc:25-52 | A run writes nothing off exactly if no step of it does |
| IntervalBudget.WrittenOffExactly | webrtc_src/modules/pacing/interval_budget.cc:31-52 | A step writes nothing off exactly if it leaves no more debt than one window of the rate then set |
| IntervalBudget.GrantedByRate | webrtc_src/modules/pacing/interval_budget.cc:39 | Rounding each interval down never grants more than the highest rate times the whole time |
| IntervalBudget.DrawStaysInWindow | webrtc_src/modules/pacing/interval_budget.cc:49-52 | Drawing keeps every remainder inside the window exactly if the size survives the conversion to a signed 32-bit number |
| IntervalBudget.HugeDrawLeavesWindow | webrtc_src/modules/pacing/interval_budget.cc:49-52 | An instance: drawing 2^31 bytes lifts an empty budget above its window |
| IntervalBudget.IntervalBudget.constructor | webrtc_src/modules/pacing/interval_budget.cc:25-29 | A new budget is empty, inside its window, and has no history |
| IntervalBudget.IntervalBudget.SetTargetRateKbps | webrtc_src/modules/pacing/interval_budget.cc:31-36 | A change of rate keeps the remainder if it fits the new window and else moves it to the nearer end |
| IntervalBudget.IntervalBudget.IncreaseBudget | webrtc_src/modules/pacing/interval_budget.cc:38-47 | What is left after an interval, by products: what the rate gives, on top of debt, less than a byte short, or the full window; what was left unused counts only with build-up |
| IntervalBudget.RefillExactly | webrtc_src/modules/pacing/interval_budget.cc:38-47 | That relation holds of every remainder, rate, interval and build-up setting |
| IntervalBudget.NothingCarriedOver | webrtc_src/modules/pacing/interval_budget.cc:38-47 | Without build-up, whatever run ends in an interval, the remainder is at most what the rate gives in that interval alone, and unless there was debt or the window is full, less than a byte below it |
| IntervalBudget.RateThenElapse | webrtc_src/modules/pacing/interval_budget.cc:31-47 | Without debt, a rate that gives a byte in the interval leaves budget |
| IntervalBudget.IntervalBudget.UseBudget | webrtc_src/modules/pacing/interval_budget.cc:49-52 | The remainder is drawn, down to one window of debt; the budget stays in its window exactly if the 32-bit conversion leaves it there, and for sizes below 2^31 it is drawn by the size itself |
| IntervalBudget.IntervalBudget.BytesRemaining | webrtc_src/modules/pacing/interval_budget.cc:54-56 | Positive exactly if budget is left |
| BitrateProber.ProbeRateConformance | webrtc_src/modules/pacing/bitrate_prober.cc:178-220 | If reports come no earlier than asked for, at every probe of a cluster not asked for at once the bytes sent before it are below the bitrate times the time since the first, within a microsecond |
| BitrateProber.ProbeIsNotLate | webrtc_src/modules/pacing/bitrate_prober.cc:208-222 | Nor is a probe asked for late: by the time it is due the bitrate has given no more than was sent |
| BitrateProber.DueExactly | webrtc_src/modules/pacing/bitrate_prober.cc:208-222 | The time a probe is due is the microsecond in which the bitrate has given the bytes sent since the first |
| BitrateProber.BitrateProber.MinProbeSize | webrtc_src/modules/pacing/bitrate_prober.cc:166-176 | What twice the least interval gives at the bitrate, in whole bytes |
| BitrateProber.BitrateProber.AllClustersConform | webrtc_src/modules/pacing/bitrate_prober.cc:178-220 | That holds of every cluster, queued or ended, in every reachable state, whether or not probing was disabled in between |
| BitrateProber.BitrateProber.constructor | webrtc_src/modules/pacing/bitrate_prober.cc:59-66 | A new prober is enabled, inactive and has no clusters |
| BitrateProber.BitrateProber.SetEnabled | webrtc_src/modules/pacing/bitrate_prober.cc:68-78 | Only the state changes, and enabling only wakes a disabled prober; the one way to ask for a later probe at once is to disable in the middle of a cluster |
| BitrateProber.BitrateProber.OnIncomingPacket | webrtc_src/modules/pacing/bitrate_prober.cc:80-89 | Probing starts exactly on a large enough packet while inactive with clusters waiting |
| BitrateProber.BitrateProber.DropTimedOutClusters | webrtc_src/modules/pacing/bitrate_prober.cc:97-103 | Drops from the front exactly the clusters that have timed out, up to the first that has not |
| BitrateProber.BitrateProber.CreateProbeCluster | webrtc_src/modules/pacing/bitrate_prober.cc:91-122 | Drops exactly the timed-out clusters and appends one with the configured least probes and the bytes the bitrate gives in the least duration, in whole bytes; active probing goes on |
| BitrateProber.BitrateProber.CurrentCluster | webrtc_src/modules/pacing/bitrate_prober.cc:143-167 | The front cluster with its bitrate, id, least probes and bytes and the bytes sent, an overdue one discarded first |
| BitrateProber.BitrateProber.NextProbeTime | webrtc_src/modules/pacing/bitrate_prober.cc:124-141 | The time the prober asks for while it probes, unless delayed probes are not aborted and it is overdue; else never |
| BitrateProber.BitrateProber.WaitingIsOnTime | webrtc_src/modules/pacing/bitrate_prober.cc:124-141 | A caller that waits for that time reports on time, with nothing to allow for earliness |
| BitrateProber.BitrateProber.ProbeSent | webrtc_src/modules/pacing/bitrate_prober.cc:178-206 | The front cluster is credited, the next probe is due when the bytes sent are worth the time, and a cluster with enough probes and bytes ends |
| BitrateProber.BitrateProber.QueueShifted | webrtc_src/modules/pacing/bitrate_prober.cc:97-122 | Dropping from the front and appending leaves all but the front cluster unstarted |
| PacingController.PacingController.ProcessPackets | webrtc_src/modules/pacing/pacing_controller.cc:405-619 | One round keeps every promise. Both budgets are found as they were, drawn for the keep-alive and, unless paused, refilled for the time since the last processing, at most one interval, the media budget at exactly the rate the bytes then queued and their mean waiting time ask for. It probes for the current cluster. It ends with a reason: the probe's bytes sent, or nothing queued nor to be added, or the next packet held back; with a packet queued, the window open, no debt and a byte's worth of time at the rate it sends something. Its records are of one probe or none, one window and one time, and each meets what the one before left. Nothing is sent while paused, nor if the queue's clock check fails, which it does exactly if keep-alive error correction is enqueued at a later time than the round's own and bytes are queued |
| PacingController.PacingController.OpenRound | webrtc_src/modules/pacing/pacing_controller.cc:405-496 | The part before the loop: the budgets' histories grow by exactly the keep-alive, the rate and the interval; the rate is that for the queue as it then is |
| PacingController.PacingController.Prepare | webrtc_src/modules/pacing/pacing_controller.cc:441-496 | The same from the time read on; the check fails exactly under the stated condition |
| PacingController.PacingController.NothingSent | webrtc_src/modules/pacing/pacing_controller.cc:520-609 | A round in which the loop sent nothing opened with nothing queued, or the window closed, or no budget left |
| PacingController.PacingController.NeededRate | webrtc_src/modules/pacing/pacing_controller.cc:466-485 | The rate is the pacing rate or the rate that drains the queue within the time left: with one bit per second more it would drain earlier, and if raised at all it does not send more than is queued in that time |
| PacingController.OpensWithBudget | webrtc_src/modules/pacing/pacing_controller.cc:441-496 | After the refill the media budget is at most what the new rate gives in the interval, and the padding budget what its own rate does; unless what was left does not cover the keep-alive, or the rate gives no byte in the interval, something is left to send with |
| PacingController.PacedInRound | webrtc_src/modules/pacing/pacing_controller.cc:466-609 | In a round that refilled at a rate for some milliseconds, the bytes counted before any send, other than of a probe or unpaced audio, are fewer than the rate gives in that time |
| PacingController.BudgetInRound | webrtc_src/modules/pacing/pacing_controller.cc:655-710 | Each such send finds exactly the budget the round opened with, less all bytes counted in the round so far, and that is positive |
| PacingController.PacingController.KeepaliveFailsClockCheck | webrtc_src/modules/pacing/pacing_controller.cc:441-475 | An instance: a clock that moves on by one microsecond while keep-alive error correction is enqueued |
| PacingController.PacingController.ClockCheckMeans | webrtc_src/modules/pacing/pacing_controller.cc:441-475 | The condition on clock and error correction is the comparison the queue makes after the keep-alive |
| PacingController.PacingController.SendLoop | webrtc_src/modules/pacing/pacing_controller.cc:516-609 | The send loop ends for every queue, budget and probe, by a lexicographic measure, and only for a stated reason: the probe's bytes sent; or nothing queued, and the window closed, nothing ever enqueued, no padding asked for, or none to be had; or the next packet neither a probe nor unpaced audio while the window is closed or the budget used up. The bytes it reports are the bytes it logged, and its records lead step by step from the outstanding data, the budgets and the queue it found to those it leaves |
| PacingController.PacingController.SendRound | webrtc_src/modules/pacing/pacing_controller.cc:520-609 | Each round either ends for such a reason or comes closer to the end: error correction, start of padding, credit, packets queued; it logs at most one send, with what it met |
| PacingController.PacingController.SendNext | webrtc_src/modules/pacing/pacing_controller.cc:547-591 | The packet fetched is the head the queue allows, is sent, and is logged with exactly the queue, budget, window and outstanding data it met; or there is none to send now and nothing has changed |
| PacingController.PacingController.SendAll | webrtc_src/modules/pacing/pacing_controller.cc:498-618 | A round probes for the current cluster, if it has an id, until its bytes are sent or nothing is queued; a probe that sent nothing is marked as failed; its records follow each other from what it found to what it leaves |
| PacingController.PacingController.Conservation | webrtc_src/modules/pacing/pacing_controller.cc:287-311 | Every packet ever enqueued is either queued or was sent, exactly once, and the packet counter is the number of both together |
| PacingController.PacingController.BudgetsTold | webrtc_src/modules/pacing/interval_budget.cc:25-66 | Both budgets' remainders and rates are where their histories lead from nothing |
| PacingController.PacingController.WindowKept | webrtc_src/modules/pacing/pacing_controller.cc:655-692 | No send of the loop, except probes and unpaced audio, raised the outstanding data above the window less one plus the largest packet, and each had budget left, as its record of what it met tells |
| PacingController.WindowInRound | webrtc_src/modules/pacing/pacing_controller.cc:516-609 | Through a round, each such send met a window left open by what was outstanding before the round and all bytes counted in it so far |
| PacingController.OutstandingGrows | webrtc_src/modules/pacing/pacing_controller.cc:697-710 | Through a round the outstanding data grows exactly by the bytes counted |
| PacingController.PacingController.PacedOverRounds | webrtc_src/modules/pacing/pacing_controller.cc:655-692 | At every send of the loop in any round, except probes and unpaced audio, all bytes charged before, those of probes included, were fewer than time had granted at the rates of the time, so than the highest rate times the time credited, not counting debt written off; and that time is at most the time since the start and five milliseconds |
| PacingController.PacingController.PacedExactly | webrtc_src/modules/pacing/pacing_controller.cc:655-692 | If every draw met a positive remainder and no packet exceeds the window of the lowest rate set, nothing was written off and the bytes charged before stay below the highest rate times the time since the start and five milliseconds |
| PacingController.PacingController.SentInOrder | webrtc_src/modules/pacing/pacing_controller.cc:655-695 | No send of the loop took a packet while one of better priority was queued, nor of a stream charged more, nor, within its stream and priority, an original before a retransmission or a packet enqueued later |
| PacingController.PacingController.SentByKind | webrtc_src/modules/pacing/pacing_controller.cc:66-87 | While audio was queued the loop sent audio, while a retransmission was it sent that or audio, and padding only when nothing else was queued, but for the padding that opens a probe |
| PacingController.PacingController.EveryProbeConforms | webrtc_src/modules/pacing/pacing_controller.cc:216-219 | The controller never interrupts a cluster once started, so every probe of every cluster keeps the bitrate if reports come on time |
| PacingController.BalancedAfterPush | webrtc_src/modules/pacing/pacing_controller.cc:310 | Enqueueing keeps the account of packets, each under its own number |
| PacingController.BalancedAfterPop | webrtc_src/modules/pacing/pacing_controller.cc:694 | Fetching moves one packet from queued to sent in the account |
| PacingController.PacingController.constructor | webrtc_src/modules/pacing/pacing_controller.cc:98-148 | The clock is read twice, first for the latest time seen and then for the start of the queue; nothing is enqueued or sent |
| PacingController.PacingController.CurrentTime | webrtc_src/modules/pacing/pacing_controller.cc:203-214 | The clock or the latest time seen, whichever is later, so time never goes back whatever the clock does; the queue's start may still lie ahead of it |
| PacingController.PacingController.UpdateTimeAndGetElapsed | webrtc_src/modules/pacing/pacing_controller.cc:313-329 | No time has passed if the last processing lies ahead; else at most two seconds |
| PacingController.PacingController.UpdateBudgetWithElapsedTime | webrtc_src/modules/pacing/pacing_controller.cc:721-726 | Both budgets are refilled for at most one processing interval of 30 ms, in whole milliseconds, which is what enters their histories; no more is credited than passed |
| PacingController.PacingController.UpdateBudgetWithSentData | webrtc_src/modules/pacing/pacing_controller.cc:732-737 | Both budgets are drawn, at most to one window of debt, the draw enters both histories, and the outstanding data grows by what was sent |
| PacingController.PacingController.EnqueuePacketInternal | webrtc_src/modules/pacing/pacing_controller.cc:287-311 | Adds one packet under the next number, counted once in bag, bytes and account; the queue's clock check fails exactly if the time now lies before the queue's last update, and never after the first packet |
| PacingController.PacingController.FirstPacketFailsClockCheck | webrtc_src/modules/pacing/pacing_controller.cc:287-311 | An instance: a clock that reads 10, 20 and 15 fails the queue's check at the first packet |
| PacingController.PacingController.EnqueuePacket | webrtc_src/modules/pacing/pacing_controller.cc:234-242 | The same, with the priority of the packet's type |
| PacingController.PacingController.EnqueueAll | webrtc_src/modules/pacing/pacing_controller.cc:585-587 | Enqueues exactly the given packets, each at its own reading of the clock; the queue is then as late as the latest of these |
| PacingController.PacingController.GetPendingPacket | webrtc_src/modules/pacing/pacing_controller.cc:655-695 | The next packet is handed over exactly if it is a probe's or unpaced audio, or the window is open and budget left; else nothing changes |
| PacingController.PacingController.HandOver | webrtc_src/modules/pacing/pacing_controller.cc:694 | Exactly the queue's head leaves, and is counted as sent |
| PacingController.PacingController.PaddingToAdd | webrtc_src/modules/pacing/pacing_controller.cc:621-653 | Padding is asked for exactly if nothing is queued, the window is open, something was enqueued before, and the probe or the padding budget wants more; and for just that |
| PacingController.PacingController.OnPacketSent | webrtc_src/modules/pacing/pacing_controller.cc:697-710 | Budgets, their history and the outstanding data change exactly by the packet unless it is audio that is not accounted for |
| PacingController.PacingController.OnPaddingSent | webrtc_src/modules/pacing/pacing_controller.cc:712-719 | Keep-alive bytes count as outstanding and draw both budgets |
| PacingController.PacingController.SendPending | webrtc_src/modules/pacing/pacing_controller.cc:566-591 | A send is logged once with the probe flag, the audio policy, the window, both budgets' histories and the outstanding data it met; both budgets and the outstanding data are drawn exactly by its bytes, unless it is uncounted audio; error correction made from it is enqueued |
| PacingController.PacingController.PadProbe | webrtc_src/modules/pacing/pacing_controller.cc:521-535 | At most one padding packet is added before a probe, ahead of every media priority |
| PacingController.PacingController.AddPadding | webrtc_src/modules/pacing/pacing_controller.cc:552-571 | Padding is added only then; if an empty queue stays empty, it is for a stated reason |
| PacingController.PacingController.SendKeepalive | webrtc_src/modules/pacing/pacing_controller.cc:446-459 | The queue's clock becomes the latest reading taken for error correction made from the keep-alive, or stays if there is none; the queue grows by the bytes of it; the outstanding data grows and both budgets and their histories are drawn by those of the padding; a probe going on is not touched |
| PacingController.PacingController.MaybeSendKeepalive | webrtc_src/modules/pacing/pacing_controller.cc:441-460 | The same exactly if half a second passed without a send and silence is to be padded, or sending is paused, or the window is full, and something was ever enqueued; else queue, outstanding data and budgets stay |
| PacingController.PacingController.TargetRate | webrtc_src/modules/pacing/pacing_controller.cc:467-485 | The rate is exactly the one the bytes queued and their mean waiting time at this moment ask for; the check fails exactly if bytes are queued and the queue was updated later |
| PacingController.PacingController.RefillBudgets | webrtc_src/modules/pacing/pacing_controller.cc:466-496 | The rate is set to that one in kilobits and both budgets are refilled for at most 30 ms, which is exactly what enters their histories; if the check fails neither budget changes |
| PacingController.PacingController.BeginProbe | webrtc_src/modules/pacing/pacing_controller.cc:498-514 | The loop probes exactly if a cluster with an id is current once an overdue one is discarded, and for the least probe size of that cluster |
| PacingController.PacingController.EndProbe | webrtc_src/modules/pacing/pacing_controller.cc:611-618 | A probe that sent bytes is credited to its cluster; one that sent none is marked as failed |
| PacingController.PacingController.Pause | webrtc_src/modules/pacing/pacing_controller.cc:156-161 | The queue pauses too and settles the time waited so far; its clock check fails exactly if it was not paused and the time now lies before its last update |
| PacingController.PacingController.Resume | webrtc_src/modules/pacing/pacing_controller.cc:163-168 | The queue resumes too and no waiting time is added for the pause; its clock check never fails, as the queue's clock is behind while paused |
| PacingController.PacingController.SetCongestionWindow | webrtc_src/modules/pacing/pacing_controller.cc:174-181 | Exactly if the new window ends congestion, both budgets are refilled for the time since the last processing; else nothing else changes |
| PacingController.PacingController.UpdateOutstandingData | webrtc_src/modules/pacing/pacing_controller.cc:183-190 | Exactly if the feedback ends congestion, both budgets are refilled for the time since the last processing; else nothing else changes |
| PacingController.PacingController.SetProbingEnabled | webrtc_src/modules/pacing/pacing_controller.cc:216-219 | Its check fails exactly if a packet was enqueued before; else probing is disabled or enabled and no cluster is interrupted |
| PacingController.PacingController.SetPacingRates | webrtc_src/modules/pacing/pacing_controller.cc:221-232 | New rates keep every promise |
| PacingController.PacingController.CreateProbeCluster | webrtc_src/modules/pacing/pacing_controller.cc:152-154 | The new cluster is last in line with its bitrate and id |
| PacingController.PacingController.SetIncludeOverhead | webrtc_src/modules/pacing/pacing_controller.cc:248-251 | Keeps every promise exactly if overhead was not counted before or nothing is counted twice |
| PacingController.PacingController.SetTransportOverhead | webrtc_src/modules/pacing/pacing_controller.cc:253-258 | Keeps every promise exactly if the overhead is at most 2^28, so that sizes survive the conversion to 32 bits |
| PacingController.PacingController.SetAccountForAudioPackets | webrtc_src/modules/pacing/pacing_controller.cc:244-246 | Keeps every promise |
| PacingController.PacingController.SetQueueTimeLimit | webrtc_src/modules/pacing/pacing_controller.cc:745-747 | Keeps every promise |
| TaskQueuePacedSender.TaskQueuePacedSender.Run | webrtc_src/modules/pacing/task_queue_paced_sender.cc:101-280 | No lost wake-up and no early one: after any interleaving of API tasks, calls made while packets are processed, pauses, delayed tasks stale or not, and shutdown, a started sender has the scheduled wake-up pending, due by its time or within the hold-back window of the newest clock reading of the run, up to a millisecond; no pending task is due two milliseconds before the time it is meant for; after shutdown nothing is posted or processed |
| TaskQueuePacedSender.TaskQueuePacedSender.MaybeProcessPackets | webrtc_src/modules/pacing/task_queue_paced_sender.cc:212-280 | Schedule, pending tasks and latest reading become exactly what the call's readings decide; the scheduled task is pending, not due before the time it is meant for, and due within the hold-back window of the next send time or the call's newest reading, up to rounding to milliseconds, unless the clock went back; while probing the next send time is the one scheduled; packets are processed exactly on the scheduled call or when the send time has come and the schedule must move |
| TaskQueuePacedSender.TaskQueuePacedSender.ProcessPackets | webrtc_src/modules/pacing/task_queue_paced_sender.cc:101-109 | Calls made on the task queue while packets are processed each decide about the schedule in turn, and the latest reading is the latest of theirs |
| TaskQueuePacedSender.TaskQueuePacedSender.Reschedule | webrtc_src/modules/pacing/task_queue_paced_sender.cc:249-277 | The task posted is the one asked for and never early, or the one scheduled is kept; either way it is prompt; while probing the next send time is the one scheduled |
| TaskQueuePacedSender.KeptScheduleIsPrompt | webrtc_src/modules/pacing/task_queue_paced_sender.cc:262-268 | A schedule that is kept is still prompt for the new send time, though its task may itself be late by a window |
| TaskQueuePacedSender.PostedTaskIsPrompt | webrtc_src/modules/pacing/task_queue_paced_sender.cc:250-277 | A newly posted task is prompt, whichever way its delay rounds to milliseconds |
| TaskQueuePacedSender.PostedOnTime | webrtc_src/modules/pacing/task_queue_paced_sender.cc:250-276 | A task is posted exactly if, while probing, the next time is not the scheduled one, or nothing is scheduled, or the next time is a hold-back window earlier; it is due between two milliseconds before and one after that time, or after the end of the window if that is later, or, for a probe, after now |
| TaskQueuePacedSender.ProcessedOnTime | webrtc_src/modules/pacing/task_queue_paced_sender.cc:219-238 | In times: a call that is not the scheduled one processes exactly if the next send time has come and nothing is scheduled, or only something later |
| TaskQueuePacedSender.StaleTaskRemoved | webrtc_src/modules/pacing/task_queue_paced_sender.cc:274-276 | Running a stale task never takes the wake-up away |
| TaskQueuePacedSender.RunIsRead | webrtc_src/modules/pacing/task_queue_paced_sender.cc:212-280 | The latest reading after a run is one of the run, or an earlier one if the clock went back |
| TaskQueuePacedSender.LatestIsRead | webrtc_src/modules/pacing/task_queue_paced_sender.cc:212-280 | The latest reading after a call is the call's own or one of a nested call, or an earlier one |
| TaskQueuePacedSender.OneValidTask | webrtc_src/modules/pacing/task_queue_paced_sender.h:141-145 | At most one valid task in flight, all through any run, exactly if no call posts a task for a time that a pending task carries already |
| TaskQueuePacedSender.SingleIfClean | webrtc_src/modules/pacing/task_queue_paced_sender.cc:212-280 | That equivalence for one call with all calls nested in it |
| TaskQueuePacedSender.PostingKeepsOne | webrtc_src/modules/pacing/task_queue_paced_sender.cc:250-277 | That equivalence for one posting |
| TaskQueuePacedSender.HoldBack | webrtc_src/modules/pacing/task_queue_paced_sender.cc:238-247 | Exactly the configured window, or the time the configured number of average packets takes if that is known and shorter |
| TaskQueuePacedSender.TaskQueuePacedSender.constructor | webrtc_src/modules/pacing/task_queue_paced_sender.cc:24-48 | A new sender has nothing pending and is not started |
| TaskQueuePacedSender.TaskQueuePacedSender.EnsureStarted | webrtc_src/modules/pacing/task_queue_paced_sender.cc:60-66 | Starting processes at once and posts the first wake-up |
| TaskQueuePacedSender.TaskQueuePacedSender.ApiTask | webrtc_src/modules/pacing/task_queue_paced_sender.cc:127-149 | An API call leaves a prompt wake-up pending, and processes if the send time has come and the schedule must move |
| TaskQueuePacedSender.TaskQueuePacedSender.RunDelayed | webrtc_src/modules/pacing/task_queue_paced_sender.cc:274-276 | The meant task always processes; a stale one leaves the meant one pending; after shutdown the queue drains |
| TaskQueuePacedSender.TaskQueuePacedSender.Shutdown | webrtc_src/modules/pacing/task_queue_paced_sender.cc:50-58 | Shutting down keeps what was pending |
| TaskQueuePacedSender.TwoTasksForOneTime | webrtc_src/modules/pacing/task_queue_paced_sender.cc:249-277 | An instance against the header, without probing: an earlier send time is scheduled and met, and the next one is the first again, whose stale task is still pending |
| QuickSort.QSort | wasm/qsort.cpp:13-54 | In bounds, terminating, ends sorted between the given ends with the same multiset, and leaves other cells alone |
| QuickSort.NumSort | wasm/qsort.cpp:60-62 | Sorts a whole array of at least one number |
| QuickSort.Partition | wasm/qsort.cpp:25-41 | Cells before the left pointer are at most the pivot, cells after the right one at least; a last cell above all others of the segment does not move; both pointers leave the ends |
| QuickSort.ScanUp | wasm/qsort.cpp:30 | The scan stops inside the segment at the first cell not below the pivot |
| QuickSort.ScanDown | wasm/qsort.cpp:31 | The scan stops inside the segment at the first cell not above the pivot |
| QuickSort.Exchange | wasm/qsort.cpp:33-39 | Exchanging two cells keeps a segment a rearrangement of itself |
| QuickSort.StepPending | wasm/qsort.cpp:18-51 | One step of the sort keeps everything outside pending segments in its place, and shrinks the work left |
| QuickSort.TailKept | wasm/qsort.cpp:43-49 | Sorting the top segment keeps the promise of those below it, although they may share a cell with it: the left one must be finished first |
| QuickSort.SharedKept | wasm/qsort.cpp:43-49 | A shared cell stays either no greater than all that follows or greater than all before |
| QuickSort.RightPending | wasm/qsort.cpp:43-45 | The right part joins the segments below it |
| QuickSort.StackPending | wasm/qsort.cpp:47-49 | The left part goes on top, and cells before it are final |
| QuickSort.WorkShrinks | wasm/qsort.cpp:43-49 | Two sub-segments that overlap in at most one cell are less work than their segment |
| RequestParser.RoundTrip | signal_server/request_parser.cpp:27-283 | Parsing a serialized well-formed request gives the same request, with the verdict exactly on the last character; every strict prefix is indeterminate |
| RequestParser.RoundTripExactly | signal_server/request_parser.cpp:27-283 | Exactly the well-formed requests, whose version numbers an int can be read into, survive being serialized and parsed |
| RequestParser.OverflowExactly | signal_server/request_parser.cpp:124-175 | A request whose text is well-formed is accepted exactly if both version numbers are at most 48 below the largest int, as the character is added before '0' is taken off; else reading them overflows |
| RequestParser.AcceptedIsWellFormed | signal_server/request_parser.cpp:27-283 | Every accepted input, folded headers included, gives a well-formed request, so parsing its serialization gives it again |
| RequestGrammar.AcceptedExactly | signal_server/request_parser.cpp:27-283 | An input is accepted as a whole, with a request, if and only if it is the text of a proper writing that means that request: version numbers in any digits, every header value folded over any number of lines, of which each adds just its text after the blanks |
| RequestGrammar.WritingAccepted | signal_server/request_parser.cpp:27-283 | Every proper writing is accepted with its meaning, the verdict falling on its last character |
| RequestGrammar.AcceptedWrites | signal_server/request_parser.cpp:27-283 | From any point on, an accepted input completes a writing of what was read before |
| RequestGrammar.LeadsFold | signal_server/request_parser.cpp:186-226 | From inside a value, a line break, blanks and a text add exactly that text to the value |
| RequestGrammar.LeadsWrittenHeader | signal_server/request_parser.cpp:186-283 | A header line folded over any number of lines leads to the same state as the unfolded one |
| RequestGrammar.NextSpells | signal_server/request_parser.cpp:27-283 | Each accepted character continues the writing spelled so far |
| RequestGrammar.ClassesMean | signal_server/request_parser.cpp:285-312 | The characters of names are the letters, the digits and fifteen listed others; those of values all but the control characters |
| RequestParser.FeedAppend | signal_server/request_parser.hpp:38-49 | Feeding two pieces is feeding the first and then, unless there is a verdict, the second |
| RequestParser.PrefixIndeterminate | signal_server/request_parser.hpp:38-49 | If the verdict falls on the last character, no shorter prefix has one |
| RequestParser.Parser.ParseChunks | signal_server/connection.cpp:47-63 | However the input is split into chunks, verdict and request are those of the whole |
| RequestParser.Parser.Parse | signal_server/request_parser.hpp:38-49 | Stops right after the character that decides, with the state machine's verdict and request |
| RequestParser.Parser.Consume | signal_server/request_parser.cpp:27-283 | One character moves parser and request as the state machine does, in all twenty states |
| RequestParser.Parser.ConsumeRequestLine | signal_server/request_parser.cpp:31-71 | Method and URI states |
| RequestParser.Parser.ConsumeNumber | signal_server/request_parser.cpp:124-175 | Version number states |
| RequestParser.Parser.ConsumeHeader | signal_server/request_parser.cpp:186-267 | Header states, folded lines included |
| RequestParser.Parser.Reset | signal_server/request_parser.cpp:22-25 | Ready for a new request |
| RequestParser.StepSoFar | signal_server/request_parser.cpp:27-283 | What was read so far can always be part of a well-formed request |
| RequestParser.FeedSoFar | signal_server/request_parser.cpp:27-283 | That holds after any input |
| RequestParser.LeadsRequestLine | signal_server/request_parser.cpp:31-185 | A well-formed request line is read as written |
| RequestParser.MajorOverflows | signal_server/request_parser.cpp:124-150 | Digits of a number beyond that overflow |
| RequestParser.MinorOverflows | signal_server/request_parser.cpp:152-175 | The same for the minor number |
| RequestParser.LeadsHeaders | signal_server/request_parser.cpp:186-277 | Well-formed header lines are read as written |
| RequestParser.EvalDecimal | signal_server/request_parser.cpp:124-175 | Reading the decimal digits of a number gives the number |
| SipMessage.RoundTripExactly | basic/src/sip_message.cpp:172-216 | Exactly the non-empty series of well-formed messages survive being serialized and parsed; a request whose method is the version string is not well-formed |
| SipMessage.ParseTwice | basic/src/sip_message.cpp:172-216 | For every accepted trace, parsing, serializing and parsing again gives what parsing gave |
| SipGrammar.AcceptedExactly | basic/src/sip_message.cpp:39-216 | A trace is parsed to some messages if and only if it is the text of proper writings that mean them: blanks around names and values, any reason phrase, an empty line after each message but the last, which may end in one, in a line break or in nothing |
| SipGrammar.SeriesAccepted | basic/src/sip_message.cpp:172-216 | Every such text is accepted with its meaning |
| SipGrammar.SeriesWritten | basic/src/sip_message.cpp:172-216 | Every accepted trace has such a writing |
| SipGrammar.MessageAccepted | basic/src/sip_message.cpp:39-139 | One written message is accepted with its meaning, with or without a line break at the end |
| SipGrammar.MessageWritten | basic/src/sip_message.cpp:39-139 | One accepted message without an empty line inside has such a writing |
| SipGrammar.StatusLineAccepted | basic/src/sip_message.cpp:72-91 | A status line of three digits from 100 to 699 and any reason phrase gives the code the digits write |
| SipGrammar.HeaderAccepted | basic/src/sip_message.cpp:107-136 | A name and a value between any blanks, with a colon between them, are the header |
| SipGrammar.TrimmedExactly | basic/src/sip_message.cpp:10-18 | Trimming takes off just the blanks at the ends |
| SipMessage.AcceptedIsWellFormed | basic/src/sip_message.cpp:172-216 | Every accepted trace consists of well-formed messages |
| SipMessage.SeriesRoundTrip | basic/src/sip_message.cpp:179-210 | A series of well-formed messages is found again message by message |
| SipMessage.MessageRoundTrip | basic/src/sip_message.cpp:39-139 | A serialized well-formed message parses to itself and can stand between empty lines |
| SipMessage.ParsedMessage | basic/src/sip_message.cpp:39-139 | An accepted segment gives a well-formed message |
| SipMessage.HeadersRoundTrip | basic/src/sip_message.cpp:107-136 | Header lines parse to the headers they were written from |
| SipMessage.ParsedHeaders | basic/src/sip_message.cpp:107-136 | Accepted header lines give well-formed headers |
| SipMessage.RequestLineRoundTrip | basic/src/sip_message.cpp:93-104 | A request line with a method other than the version string parses to its parts |
| SipMessage.StatusLineRoundTrip | basic/src/sip_message.cpp:72-91 | A status line parses to its code; the reason phrase is dropped |
| SipMessage.ParsedStart | basic/src/sip_message.cpp:66-105 | An accepted start line has words without blanks, or a code from 100 to 699 |
| SipMessage.SplitPlain | basic/src/sip_message.cpp:44-64 | In a text whose line breaks are in order lines are free of CR and LF, and so is every rest in order |
| SipMessage.SolidLines | basic/src/sip_message.cpp:44-53 | Joining lines never makes an empty line inside a message |
| SipMessage.CutSolid | basic/src/sip_message.cpp:181-193 | The first empty line after a message is the one that ends it |
| SipMessage.TrimmedPart | basic/src/sip_message.cpp:10-18 | Trimming leaves no blank at either end and adds nothing |
| SipMessage.Trim | basic/src/sip_message.cpp:10-18 | The trimming loop |
| SipMessage.CheckLineBreaks | basic/src/sip_message.cpp:45-53 | Finds exactly the texts with a lone CR or LF |
| SipMessage.ParseHeaderLines | basic/src/sip_message.cpp:107-136 | The header loop agrees with the recursive reading |
| SipMessage.ParseOneMessage | basic/src/sip_message.cpp:39-139 | The message parser agrees with the recursive reading |
| SipMessage.NextSegment | basic/src/sip_message.cpp:181-193 | The next message is cut at the first empty line from here |
| SipMessage.ParseMessageSeries | basic/src/sip_message.cpp:172-216 | The series loop agrees with the recursive reading |
| SipMessage.SecondSpace | basic/src/sip_message.cpp:20-37 | Three words with two blanks between them are split into the three words |
| SipMessage.Find | basic/src/sip_message.cpp:181 | The first occurrence at or after a position, or none at all |
| SipTransactions.FindTransactions | basic/exercises/03_sip_transaction/starter.cpp:259-317 | The result is a correct grouping: distinct keys in the order of their first messages, each with exactly its messages in increasing order, none missing |
| SipTransactions.GroupsUnique | basic/exercises/03_sip_transaction/starter.cpp:259-317 | Those properties leave no choice: two results that have them are equal |
| SipTransactions.GroupedIsRight | basic/exercises/03_sip_transaction/starter.cpp:264-307 | Grouping message by message is correct for every prefix |
| SipTransactions.ExtensionAppends | basic/exercises/03_sip_transaction/starter.cpp:259-317 | Extending a trace only appends: transactions to the list, messages to their lists |
| SipTransactions.AckJoinsRefusedInvite | basic/exercises/03_sip_transaction/starter.cpp:279-287 | An ACK request is listed, and then in the INVITE transaction, exactly if an earlier 3xx to 6xx response is in that transaction |
| SipTransactions.CancelFollowsInvite | basic/exercises/03_sip_transaction/starter.cpp:289-302 | A CANCEL request is listed, in a transaction of its own, exactly if an earlier message of the INVITE transaction has its number with the method INVITE |
| SipTransactions.OthersKeepTheirKey | basic/exercises/03_sip_transaction/starter.cpp:264-307 | Any other message is listed in the transaction of its own branch, sent-by and method and in no other; one without a usable Via or CSeq in none |
| SipTransactions.GroupSpeaksForTrace | basic/exercises/03_sip_transaction/starter.cpp:226-255 | Looking in an INVITE's group finds what looking at every earlier message would find |
| SipTransactions.GroupMessage | basic/exercises/03_sip_transaction/starter.cpp:264-307 | Each message changes the groups as its declared membership says |
| SipTransactions.AddToGroup | basic/exercises/03_sip_transaction/starter.cpp:216-224 | Map and order of keys go on standing for the transactions found |
| SipTransactions.HasMatchingInvite | basic/exercises/03_sip_transaction/starter.cpp:239-255 | True exactly if some listed message has the number with the method INVITE |
| SipTransactions.AddToGroups | basic/exercises/03_sip_transaction/starter.cpp:216-224 | Listing one more message under its key keeps the grouping correct |
| SipTransactions.KeyOfPrefix | basic/exercises/03_sip_transaction/starter.cpp:264-307 | Membership of a message does not depend on later ones |
| SipTransactions.ViaOf | basic/exercises/03_sip_transaction/starter.cpp:129-173 | A usable Via has a branch and a sent-by, neither empty |
| SipTransactions.ParseVia | basic/exercises/03_sip_transaction/starter.cpp:129-173 | The Via parser agrees with that reading |
| SipTransactions.FindBranch | basic/exercises/03_sip_transaction/starter.cpp:150-166 | The parameter loop finds the first non-empty branch |
| SipTransactions.ParseCSeq | basic/exercises/03_sip_transaction/starter.cpp:175-204 | A usable CSeq has a number that fits 32 bits and one word without blanks |
| SipFields.ViaRead | basic/exercises/03_sip_transaction/starter.cpp:129-173 | A written Via is read as written: the transport up to the first blank, the sent-by up to the first semicolon, and of the parameters the first named branch that has a value; without one of these there is no Via |
| SipFields.ViaWritten | basic/exercises/03_sip_transaction/starter.cpp:129-173 | Every value with a blank is written so, and any other is no Via |
| SipFields.BranchFound | basic/exercises/03_sip_transaction/starter.cpp:150-166 | Going through any written parameters finds the first branch with a value |
| SipFields.CSeqExactly | basic/exercises/03_sip_transaction/starter.cpp:175-204 | A value is read as a CSeq if and only if it is digits that write a number of 32 bits, blanks, and one word, with blanks around; and as that number and word |
| SipFields.FirstCounts | basic/src/sip_message.cpp:218-225 | Of several headers of a name the first counts; without one there is none |
| Unwrapper.SequenceRecovered | webrtc_src/modules/include/module_common_types_public.h:48-77 | For every width, a non-negative sequence that starts within the range and steps by less than half of it is recovered exactly |
| Unwrapper.RecoveredExactly | webrtc_src/modules/include/module_common_types_public.h:48-67 | A single step is recovered if and only if it is shorter than half the range, or half of it without a wrap, or longer where a wrap backwards would pass zero |
| Unwrapper.Congruent | webrtc_src/modules/include/module_common_types_public.h:37-67 | The result is congruent to the input, whatever the last value |
| Unwrapper.NonNegativeExactly | webrtc_src/modules/include/module_common_types_public.h:37-70 | The result is not negative exactly if the last value is not, or is within one range below zero and the input wraps forwards |
| Unwrapper.UnwrappedToNegative | webrtc_src/modules/include/module_common_types_public.h:37-70 | An instance against the class comment: after a last value of -1, the number -1 stands for is unwrapped to -1 |
| Unwrapper.NewerInOneDirection | webrtc_src/modules/include/module_common_types_public.h:20-35 | Of two distinct values exactly one is newer |
| Unwrapper.IsNewerMeans | webrtc_src/modules/include/module_common_types_public.h:20-35 | Newer means ahead by less than half the range, or by exactly half without wrapping, in both ways C++ subtracts |
| Unwrapper.UnwrapMeans | webrtc_src/modules/include/module_common_types_public.h:48-67 | The two ways C++ subtracts give the same unwrapped value |
| Unwrapper.Unwrapper.constructor | webrtc_src/modules/include/module_common_types_public.h:79-80 | Starts without a last value |
| Unwrapper.Unwrapper.UnwrapWithoutUpdate | webrtc_src/modules/include/module_common_types_public.h:48-67 | Congruent, not negative exactly under that condition, and the state is left alone |
| Unwrapper.Unwrapper.UpdateLast | webrtc_src/modules/include/module_common_types_public.h:70 | Sets the last value, which may be negative |
| Unwrapper.Unwrapper.Unwrap | webrtc_src/modules/include/module_common_types_public.h:73-77 | The result becomes the last value |
| RembThrottler.Run | webrtc_src/modules/congestion_controller/remb_throttler.cc:29-61 | Over every run with any clock the last REMB sent is within the maximum desired, wherever the run is stopped, exactly if no maximum is held back while the last REMB exceeds it; with a clock that does not go back none is, and changes are throttled |
| RembThrottler.RembThrottler.constructor | webrtc_src/modules/congestion_controller/remb_throttler.cc:22-27 | Nothing sent and no maximum |
| RembThrottler.RembThrottler.OnReceiveBitrateChanged | webrtc_src/modules/congestion_controller/remb_throttler.cc:29-47 | Held back exactly if the last change sent is recent and the estimate is not lower by the threshold; what is sent is the estimate, or the maximum if that is lower; the last REMB is within it exactly if this one is sent or it was before |
| RembThrottler.RembThrottler.SetMaxDesiredReceiveBitrate | webrtc_src/modules/congestion_controller/remb_throttler.cc:49-61 | Held back exactly if the last estimate sent is recent, not zero and within the maximum; with any clock, the last REMB sent is within the maximum exactly if the call is not held back or that REMB was within it already |
| RembThrottler.ThrottledAfter | webrtc_src/modules/congestion_controller/remb_throttler.cc:35-43 | Any two messages for changes less than 200 ms apart, not just consecutive ones, satisfy 103 new < 100 (old + 1) |
| RembThrottler.TruncatedThreshold | webrtc_src/modules/congestion_controller/remb_throttler.cc:37 | The truncating comparison is that inequality |
| RembThrottler.ClockGoesBack | webrtc_src/modules/congestion_controller/remb_throttler.cc:49-61 | An instance with a clock that goes back: a lowered maximum is held back and the last REMB sent exceeds it |
| RembThrottler.SmallDecreaseIsHeldBack | webrtc_src/modules/congestion_controller/remb_throttler.h:37-40 | An instance against the header: a small decrease within 200 ms is not sent |
| PacketRouter.PacketRouter.constructor | webrtc_src/modules/pacing/packet_router.cc:33-36 | No modules and no REMB |
| PacketRouter.PacketRouter.DetermineActiveRembModule | webrtc_src/modules/pacing/packet_router.cc:303-324 | The active module is the first sender candidate, else the first receiver candidate, else none; only it can have REMB set, and only the module that was active loses it, exactly when another takes its place |
| PacketRouter.PacketRouter.UnsetActiveRembModule | webrtc_src/modules/pacing/packet_router.cc:297-301 | REMB is taken off before another module becomes active |
| PacketRouter.PacketRouter.AddRembModuleCandidate | webrtc_src/modules/pacing/packet_router.cc:266-276 | A candidate is appended and exclusivity kept; REMB is lost only by a module that is active no more |
| PacketRouter.PacketRouter.MaybeRemoveRembModuleCandidate | webrtc_src/modules/pacing/packet_router.cc:278-295 | A candidate is taken out and exclusivity kept; REMB is lost exactly by that module, if it was the active one |
| PacketRouter.PacketRouter.SendRemb | webrtc_src/modules/pacing/packet_router.cc:234-244 | Afterwards exactly the active module has REMB set |
| PacketRouter.PacketRouter.AddSendRtpModule | webrtc_src/modules/pacing/packet_router.cc:47-66 | Registered under all its numbers, and listed once for each: audio at the end, any other in front; the last send module is registered, REMB stays exclusive |
| PacketRouter.PacketRouter.RemoveSendRtpModule | webrtc_src/modules/pacing/packet_router.cc:94-110 | Gone from map, list, candidates and last send module, and without REMB unless it is a receiver candidate too |
| PacketRouter.PacketRouter.AddReceiveRtpModule | webrtc_src/modules/pacing/packet_router.cc:112-124 | Appended, REMB stays exclusive |
| PacketRouter.PacketRouter.RemoveReceiveRtpModule | webrtc_src/modules/pacing/packet_router.cc:126-134 | Removed, and without REMB unless it is a sender candidate too |
| PacketRouter.PacketRouter.Register | webrtc_src/modules/pacing/packet_router.cc:51-57 | Map and list name the same modules, each under all its numbers and listed once for each, audio at the end, any other in front |
| PacketRouter.PacketRouter.Unregister | webrtc_src/modules/pacing/packet_router.cc:98-104 | Removing number by number takes just that module out, the others keep their order, map and list stay in agreement, and every lookup on the way succeeds |
| PacketRouter.PacketRouter.SendPacket | webrtc_src/modules/pacing/packet_router.cc:136-174 | The packet goes to the module of its number; transport sequence numbers count on modulo 2^16 |
| PacketRouter.PacketRouter.HandOver | webrtc_src/modules/pacing/packet_router.cc:149-173 | The module of the packet's number gets it, becomes the last send module if it can pad, and its error correction is appended; without a module nothing changes |
| PacketRouter.PacketRouter.FetchFec | webrtc_src/modules/pacing/packet_router.cc:176-182 | Every error-correction packet is handed out once |
| PacketRouter.PacketRouter.GeneratePadding | webrtc_src/modules/pacing/packet_router.cc:184-227 | The last send module comes first; else the first in the list that has padding gives it, so an audio module pads only if no other can |
| PacketRouter.PacketRouter.CurrentTransportSequenceNumber | webrtc_src/modules/pacing/packet_router.cc:229-232 | The number of stamped packets since the start, modulo 2^16 |
| PacketRouter.NextNumber | webrtc_src/modules/pacing/packet_router.cc:145-147 | Counting in 64 bits and masking agrees with counting in 16 bits, wrap-around included |
| PacketRouter.WithoutKeepsAudioLast | webrtc_src/modules/pacing/packet_router.cc:87-92 | Removing a module keeps audio modules last |
| PacketRouter.WithoutInParts | webrtc_src/modules/pacing/packet_router.cc:87-92 | Taking a module out of a list takes it out of the parts: the others keep their order and number |
| PacketRouter.AddedKeepsAudioLast | webrtc_src/modules/pacing/packet_router.cc:79-83 | Adding one does too |

## Left out

- Dynamic mode of `ProcessPackets`, `GetPendingPacket`, `PaddingToAdd` and `EnqueuePacketInternal`, and `NextSendTime`: only periodic mode is modelled; dynamic mode rests on the rounding of unit types that are not part of the repository. The task-queue pacer takes the next send time as an input.
- Unit types: times are integer microseconds, rates bits per second, sizes bytes; divisions truncate. The conversion of a delay to milliseconds may round either way and is assumed to fit 32 bits.
- Integer widths: 64-bit counters do not overflow; the 64-bit transport counter, the 32-bit HTTP version numbers, where parsing stops as the next digit has no defined effect, the 32-bit draw of the budget, the 32-bit CSeq number and all unwrapped widths are explicit.
- The heap of a stream is kept as a sequence in pop order and the multimap as an ordered sequence with insertion after equals, so elements the order cannot tell apart leave a stream in insertion order; the schedule's choice among equal keys is not promised by the queue's contract.
- PacingController.PacingController.SendLoop: the paused flag is not changed by other code during the loop, error correction comes from a finite script, and generated padding has bytes in it and is not audio; without these the loop need not end.
- PacingController.PacingController.EnqueuePacket: packets fit a datagram of 64 KiB and the overhead is at most 2^28, so that sizes survive the conversion to 32 bits; at most 2^14 padding packets come back at once.
- PacingController.PacingController.ProcessPackets: if error correction made from the keep-alive may start probing in the same round, only that the cluster probed is a queued one.
- PacingController.PacingController.SendKeepalive: keep-alives are not in the log of sends and may exceed the window.
- PacingController.PacingController.SetPacingRates: rates are not negative.
- TaskQueuePacedSender.TaskQueuePacedSender.MaybeProcessPackets: the time spent inside a call is not modelled; its delays count from its own reading of the clock.
- SipMessage: the address and header lookups of a message, which only select.
- RequestParser.Parser.Consume: the request object starts empty and is used with one parser; a parser in the middle of a header given another request would touch a header that is not there.
- PacketRouter.PacketRouter.AddSendRtpModule: numbers and audio flags of a module are fixed, and a module's numbers are distinct and not taken, as the debug checks demand; combined RTCP packets are not routed.
- Locks, statistics, trace events, field trials, logging and RTP packet contents.
- `PacedSender` and `ReceiveSideCongestionController`, which only forward.
- `aimd_rate_control.cc` and `inter_arrival.cc`: floating point, and types that are not part of this model.
- The video NAL reassembly, URL decoding, demos, I/O, user interfaces and foreign calls of the repository.
