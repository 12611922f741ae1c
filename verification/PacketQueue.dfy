/** The round-robin packet queue: a schedule of streams, a map of streams, a multiset of
    enqueue times, running sums and a single-packet slot, all agreeing with one bag. */
module PacketQueue {
  import opened Collections
  import opened Packets
  import opened PacketQueueModel

  class RoundRobinPacketQueue {
    var transportOverhead: nat
    var timeLastUpdated: int
    var paused: bool
    var sizePackets: int
    var size: int
    var maxSize: int
    var queueTimeSum: int
    var pauseTimeSum: int
    var streamPriorities: seq<Entry>
    var streams: map<nat, Stream>
    var enqueueTimes: multiset<int>
    var singlePacket: Option<QueuedPacket>
    var includeOverhead: bool

    ghost var bag: multiset<Item>
    ghost var unpausedTime: int
    ghost const startTime: int

    // ----- Invariants -----

    ghost predicate ContainersAgree()
      reads this
    {
      Containers(bag, streams, maxSize, streamPriorities, singlePacket, enqueueTimes, sizePackets)
    }

    ghost predicate LedgerAgrees()
      reads this
    {
      Ledger(bag, queueTimeSum, unpausedTime, timeLastUpdated, startTime, pauseTimeSum)
    }

    ghost predicate SizeAgrees()
      reads this
    {
      size == Total(bag, SizeOf(includeOverhead, transportOverhead))
    }

    /** Everything but the byte count. */
    ghost predicate Core()
      reads this
    {
      ContainersAgree() && LedgerAgrees() && ItemsOk(bag, unpausedTime, timeLastUpdated, startTime)
    }

    ghost predicate Valid()
      reads this
    {
      Core() && SizeAgrees()
    }

    // ----- Views -----

    ghost function View(): Sched
      reads this
    {
      Sched(bag, Charges(streams), maxSize)
    }

    lemma ViewShowsBag()
      ensures View().bag == bag
    {
    }

    lemma ViewIsLed()
      requires ContainersAgree()
      ensures Led(View())
    {
      forall ssrc: nat ensures View().Charge(ssrc) <= maxSize {
        assert ssrc in streams ==> StreamOk(streams[ssrc], ssrc, maxSize);
      }
    }

    /** The packet the next pop returns. */
    ghost function Head(): Item
      requires ContainersAgree() && bag != multiset{}
      reads this
    {
      if singlePacket.Some? then singlePacket.value.item
      else
        SchedulePresent();
        FirstEntryIsChoice(streamPriorities, streams, bag, maxSize);
        streams[streamPriorities[0].ssrc].packetQueue[0].item
    }

    lemma SchedulePresent()
      requires ContainersAgree() && singlePacket.None?
      ensures bag == multiset{} <==> streamPriorities == []
    {
      if bag != multiset{} {
        var x := Pick(bag);
        assert bag[x] == InStreams(streams, x) > 0;
        EntryPresent(streamPriorities, streams, x.Ssrc());
      }
      if streamPriorities != [] {
        FirstEntryIsChoice(streamPriorities, streams, bag, maxSize);
      }
    }

    /** What the next pop returns is a choice the plain bag allows. */
    lemma HeadIsChoice()
      requires ContainersAgree() && bag != multiset{}
      ensures PopChoice(View(), Head())
    {
      if singlePacket.None? {
        SchedulePresent();
        FirstEntryIsChoice(streamPriorities, streams, bag, maxSize);
      } else {
        assert forall y :: y in bag ==> y == singlePacket.value.item;
      }
    }

    /** A packet in the single-packet slot means every stream is empty, no stream is
        scheduled, and no enqueue time is stored. */
    lemma SingleMeansStreamsEmpty()
      requires ContainersAgree() && singlePacket.Some?
      ensures sizePackets == 1 && streamPriorities == [] && enqueueTimes == multiset{}
      ensures forall s :: s in streams ==> |streams[s].packetQueue| == 0
    {
      if streamPriorities != [] {
        EntryIsScheduled(streamPriorities, streams, streamPriorities[0].ssrc, 0);
      }
    }

    /** The check in Pop that an empty queue has no queue time left cannot fail. */
    lemma EmptyQueueHasNoQueueTime()
      requires LedgerAgrees() && bag == multiset{}
      ensures queueTimeSum == 0
    {
    }

    lemma SumsAreNonNegative()
      requires Valid()
      ensures queueTimeSum >= 0 && size >= 0
    {
      if bag != multiset{} {
        TotalBounds(bag, Waited(unpausedTime), Pick(bag));
        TotalBounds(bag, SizeOf(includeOverhead, transportOverhead), Pick(bag));
      }
    }

    lemma ValidContainers()
      requires Valid()
      ensures ContainersAgree()
    {
    }

    lemma ContainersCount()
      requires ContainersAgree()
      ensures sizePackets == |bag| && maxSize >= MAX_LEADING_SIZE
    {
    }

    lemma ContainersParts()
      requires ContainersAgree()
      ensures StreamsOk(streams, maxSize) && Indexed(streamPriorities, streams) && maxSize >= MAX_LEADING_SIZE
      ensures Holds(bag, streams, singlePacket)
    {
    }

    // ----- Queries -----

    constructor (start: int)
      ensures Valid() && bag == multiset{} && streams == map[] && size == 0
      ensures timeLastUpdated == start && startTime == start && unpausedTime == 0 && pauseTimeSum == 0
      ensures !paused && !includeOverhead && transportOverhead == 0
    {
      transportOverhead, timeLastUpdated, paused := 0, start, false;
      sizePackets, size, maxSize := 0, 0, MAX_LEADING_SIZE;
      queueTimeSum, pauseTimeSum, includeOverhead := 0, 0, false;
      streamPriorities, streams, singlePacket := [], map[], None;
      enqueueTimes, bag, unpausedTime, startTime := multiset{}, multiset{}, 0, start;
    }

    predicate Empty()
      requires ContainersAgree()
      reads this
      ensures Empty() <==> bag == multiset{}
      ensures Empty() ==> singlePacket.None? && streamPriorities == []
      ensures !Empty() ==> singlePacket.Some? || streamPriorities != []
    {
      if singlePacket.None? then SchedulePresent(); sizePackets == 0 else sizePackets == 0
    }

    function PacketSize(x: Item): nat
      reads `includeOverhead, `transportOverhead
    {
      ItemSize(x, includeOverhead, transportOverhead)
    }

    /** Set exactly when the packet that Pop would return now is audio. */
    function LeadingAudioPacketEnqueueTime(): (t: Option<int>)
      requires ContainersAgree()
      reads this
      ensures t.Some? <==> bag != multiset{} && Head().packet.mediaType == Audio
      ensures t.Some? ==> t.value == Head().enqueueTime
    {
      if singlePacket.Some? then
        if singlePacket.value.item.packet.mediaType == Audio then Some(singlePacket.value.item.enqueueTime) else None
      else
        SchedulePresent();
        if |streamPriorities| == 0 then None
        else
          FirstEntryIsChoice(streamPriorities, streams, bag, maxSize);
          var top := streams[streamPriorities[0].ssrc].packetQueue[0];
          if top.item.packet.mediaType == Audio then Some(top.item.enqueueTime) else None
    }

    /** The mean unpaused waiting time of the bag, rounded down. */
    function AverageQueueTime(): (t: int)
      requires Valid()
      reads this
      ensures bag == multiset{} ==> t == 0
      ensures bag != multiset{} ==> t == Total(bag, Waited(unpausedTime)) / |bag| >= 0
    {
      hide Total, Containers, ItemsOk;
      SumsAreNonNegative();
      ContainersCount();
      if Empty() then 0 else
        DivNonNegative(queueTimeSum, sizePackets);
        queueTimeSum / sizePackets
    }

    // ----- Time -----

    method UpdateQueueTime(now: int)
      requires now >= timeLastUpdated
      modifies `timeLastUpdated, `pauseTimeSum, `queueTimeSum, `unpausedTime
      ensures timeLastUpdated == now
      ensures pauseTimeSum == old(pauseTimeSum) + if paused then now - old(timeLastUpdated) else 0
      ensures unpausedTime == old(unpausedTime) + if paused then 0 else now - old(timeLastUpdated)
      ensures old(LedgerAgrees()) && sizePackets == |bag| ==> LedgerAgrees()
      ensures old(ItemsOk(bag, unpausedTime, timeLastUpdated, startTime)) ==> ItemsOk(bag, unpausedTime, now, startTime)
      ensures old(Valid()) ==> Valid()
    {
      hide Total, Containers, ItemsOk, Ledger;
      if now == timeLastUpdated {
        return;
      }
      var delta := now - timeLastUpdated;
      if ItemsOk(bag, unpausedTime, timeLastUpdated, startTime) {
        ItemsLater(bag, unpausedTime, timeLastUpdated, startTime, unpausedTime + if paused then 0 else delta, now);
      }
      if LedgerAgrees() {
        LedgerLater(bag, queueTimeSum, unpausedTime, timeLastUpdated, startTime, pauseTimeSum, delta);
      }
      if Containers(bag, streams, maxSize, streamPriorities, singlePacket, enqueueTimes, sizePackets) {
        ContainersCount();
      }
      if paused {
        pauseTimeSum := pauseTimeSum + delta;
      } else {
        queueTimeSum := queueTimeSum + delta * sizePackets;
        unpausedTime := unpausedTime + delta;
      }
      timeLastUpdated := now;
    }

    method SetPauseState(pause: bool, now: int)
      requires Valid() && now >= timeLastUpdated
      modifies `timeLastUpdated, `pauseTimeSum, `queueTimeSum, `unpausedTime, `paused
      ensures Valid() && paused == pause
      ensures timeLastUpdated == if old(paused) == pause then old(timeLastUpdated) else now
      ensures unpausedTime == old(unpausedTime) + if pause && !old(paused) then now - old(timeLastUpdated) else 0
    {
      hide Total, Containers, ItemsOk, Ledger;
      if paused == pause {
        return;
      }
      UpdateQueueTime(now);
      paused := pause;
    }

    // ----- Push -----

    predicate IsSsrcScheduled(ssrc: nat)
      reads this
    {
      exists i :: 0 <= i < |streamPriorities| && streamPriorities[i].ssrc == ssrc
    }

    lemma Unscheduled(ssrc: nat)
      requires Indexed(streamPriorities, streams)
      requires ssrc in streams ==> |streams[ssrc].packetQueue| == 0
      ensures !IsSsrcScheduled(ssrc)
    {
      forall i | 0 <= i < |streamPriorities| ensures streamPriorities[i].ssrc != ssrc {
        EntryIsScheduled(streamPriorities, streams, streamPriorities[i].ssrc, i);
      }
    }

    lemma StreamIterator(ssrc: nat)
      requires Indexed(streamPriorities, streams)
      ensures StreamFor(streams, ssrc).priorityIt == ScheduleOf(StreamFor(streams, ssrc))
    {
    }

    /** Puts a stream into the schedule, or moves it forward if the new packet has better priority. */
    method Schedule(stream: Stream, ssrc: nat, priority: int) returns (scheduled: Stream)
      requires Indexed(streamPriorities, streams) && stream == StreamFor(streams, ssrc)
      modifies `streamPriorities
      ensures Rescheduled(old(streamPriorities), stream, ssrc, priority, streamPriorities)
      ensures scheduled == stream.(priorityIt := Some(PushKey(stream, priority)))
    {
      hide Sorted, OrderedInsert, RemoveOne, Indexed;
      StreamIterator(ssrc);
      scheduled := stream;
      if stream.priorityIt.None? {
        assert !IsSsrcScheduled(ssrc) by { Unscheduled(ssrc); }
        var key := StreamPrioKey(priority, stream.size);
        streamPriorities := OrderedInsert(streamPriorities, Entry(key, ssrc), EntryBefore);
        scheduled := stream.(priorityIt := Some(key));
      } else if priority < stream.priorityIt.value.priority {
        streamPriorities := RemoveOne(streamPriorities, Entry(stream.priorityIt.value, ssrc));
        var key := StreamPrioKey(priority, stream.size);
        streamPriorities := OrderedInsert(streamPriorities, Entry(key, ssrc), EntryBefore);
        scheduled := stream.(priorityIt := Some(key));
      }
    }

    /** Counts a new packet: time is brought up to date and the paused time taken off its enqueue time. */
    method Admit(q: QueuedPacket) returns (packet: QueuedPacket)
      requires q.item.enqueueTime >= timeLastUpdated
      modifies `sizePackets, `size, `timeLastUpdated, `pauseTimeSum, `queueTimeSum, `unpausedTime
      ensures packet == q.(item := q.item.(enqueueTime := q.item.enqueueTime - pauseTimeSum, unpausedAt := unpausedTime))
      ensures timeLastUpdated == q.item.enqueueTime
      ensures pauseTimeSum == old(pauseTimeSum) + if paused then timeLastUpdated - old(timeLastUpdated) else 0
      ensures unpausedTime == old(unpausedTime) + if paused then 0 else timeLastUpdated - old(timeLastUpdated)
      ensures old(LedgerAgrees()) && old(sizePackets) == |bag| ==> LedgerAgrees()
      ensures old(ItemsOk(bag, unpausedTime, timeLastUpdated, startTime)) ==> ItemsOk(bag, unpausedTime, timeLastUpdated, startTime)
      ensures sizePackets == old(sizePackets) + 1 && size == old(size) + PacketSize(packet.item)
    {
      hide Ledger, ItemsOk, Total, Containers, RoundRobinPacketQueue.Valid;
      UpdateQueueTime(q.item.enqueueTime);
      packet := q.(item := q.item.(enqueueTime := q.item.enqueueTime - pauseTimeSum, unpausedAt := unpausedTime));
      sizePackets := sizePackets + 1;
      size := size + PacketSize(packet.item);
    }

    /** Stores a packet in its stream. A packet without a stored enqueue time comes from the
        single-packet slot and only gains its time entry; any other is new. */
    method PushQueued(q: QueuedPacket) returns (ghost stored: Item)
      requires StreamsOk(streams, maxSize) && maxSize >= MAX_LEADING_SIZE && Indexed(streamPriorities, streams)
      requires if q.enqueueTimeIt.None? then q.item.opening else
        && !q.item.opening
        && q.enqueueTimeIt.value == q.item.arrival == q.item.enqueueTime >= timeLastUpdated
      modifies `streamPriorities, `streams, `enqueueTimes, `sizePackets, `size,
        `timeLastUpdated, `pauseTimeSum, `queueTimeSum, `unpausedTime
      ensures StreamsOk(streams, maxSize) && Indexed(streamPriorities, streams)
      ensures Added(old(streams), streams, stored)
      ensures q.enqueueTimeIt.None? ==> stored == q.item
      ensures q.enqueueTimeIt.None? ==> enqueueTimes == old(enqueueTimes) + multiset{q.item.enqueueTime}
      ensures q.enqueueTimeIt.None? ==> timeLastUpdated == old(timeLastUpdated) && pauseTimeSum == old(pauseTimeSum)
      ensures q.enqueueTimeIt.None? ==> queueTimeSum == old(queueTimeSum) && unpausedTime == old(unpausedTime)
      ensures q.enqueueTimeIt.None? ==> sizePackets == old(sizePackets) && size == old(size)
      ensures q.enqueueTimeIt.Some? ==> stored == q.item.(enqueueTime := q.item.enqueueTime - pauseTimeSum, unpausedAt := unpausedTime)
      ensures q.enqueueTimeIt.Some? ==> enqueueTimes == old(enqueueTimes) && timeLastUpdated == q.item.enqueueTime
      ensures q.enqueueTimeIt.Some? ==> pauseTimeSum == old(pauseTimeSum) + if paused then timeLastUpdated - old(timeLastUpdated) else 0
      ensures q.enqueueTimeIt.Some? ==> unpausedTime == old(unpausedTime) + if paused then 0 else timeLastUpdated - old(timeLastUpdated)
      ensures q.enqueueTimeIt.Some? && old(LedgerAgrees()) && old(sizePackets) == |bag| ==> LedgerAgrees()
      ensures q.enqueueTimeIt.Some? && old(ItemsOk(bag, unpausedTime, timeLastUpdated, startTime))
        ==> ItemsOk(bag, unpausedTime, timeLastUpdated, startTime)
      ensures q.enqueueTimeIt.Some? ==> sizePackets == old(sizePackets) + 1 && size == old(size) + PacketSize(stored)
    {
      hide Sorted, OrderedInsert, RemoveOne, Added, Ledger, ItemsOk, Total, StreamsOk, Indexed, Containers;
      var ssrc := q.item.Ssrc();
      var stream := StreamFor(streams, ssrc);
      var packet := q;
      ghost var index, before := streamPriorities, streams;
      stream := Schedule(stream, ssrc, packet.item.priority);

      if packet.enqueueTimeIt.None? {
        enqueueTimes := enqueueTimes + multiset{packet.item.enqueueTime};
        packet := packet.(enqueueTimeIt := Some(packet.item.enqueueTime));
      } else {
        packet := Admit(packet);
      }
      stored := packet.item;
      stream := stream.(packetQueue := OrderedInsert(stream.packetQueue, packet, PopsBefore));
      streams := streams[ssrc := stream];
      StreamAfterPush(before, streams, packet, stream.priorityIt, maxSize);
      IndexAfterPush(index, streamPriorities, before, streams, packet);
    }

    /** Moves the single packet, if any, into its stream. Nothing a client sees changes. */
    method MaybePromoteSinglePacketToNormalQueue()
      requires Core()
      modifies `streamPriorities, `streams, `enqueueTimes, `sizePackets, `size,
        `timeLastUpdated, `pauseTimeSum, `queueTimeSum, `unpausedTime, `singlePacket
      ensures Core() && singlePacket.None?
      ensures timeLastUpdated == old(timeLastUpdated) && pauseTimeSum == old(pauseTimeSum)
      ensures queueTimeSum == old(queueTimeSum) && unpausedTime == old(unpausedTime)
      ensures sizePackets == old(sizePackets) && size == old(size)
      ensures SameCharges(old(streams), streams)
    {
      hide Sorted, Total, StreamsOk, Indexed, ItemsOk, Ledger, TimesAgree;
      if singlePacket.Some? {
        ghost var index, before, times := streamPriorities, streams, enqueueTimes;
        var q := singlePacket.value;
        ghost var stored := PushQueued(q);
        singlePacket := None;
        ContainersAfterPromotion(q, before, maxSize, index, times, sizePackets, streams, streamPriorities);
      }
    }

    /** The fast path of Push: the queue is empty and the packet takes the single-packet slot. */
    method PushSingle(priority: int, enqueueTime: int, enqueueOrder: nat, packet: RtpPacket) returns (ghost pushed: Item)
      requires Valid() && enqueueTime >= timeLastUpdated && sizePackets == 0
      modifies `sizePackets, `size, `timeLastUpdated, `pauseTimeSum, `queueTimeSum, `unpausedTime, `singlePacket, `bag
      ensures ContainersAgree() && bag == multiset{pushed}
      ensures timeLastUpdated == enqueueTime
      ensures pauseTimeSum == old(pauseTimeSum) + if paused then enqueueTime - old(timeLastUpdated) else 0
      ensures unpausedTime == old(unpausedTime) + if paused then 0 else enqueueTime - old(timeLastUpdated)
      ensures pushed == Item(priority, enqueueTime - pauseTimeSum, enqueueOrder, packet.mediaType == Retransmission,
                             packet, enqueueTime, unpausedTime, true)
      ensures size == old(size) + PacketSize(pushed)
      ensures Ledger(old(bag), queueTimeSum, unpausedTime, timeLastUpdated, startTime, pauseTimeSum)
      ensures ItemsOk(old(bag), unpausedTime, timeLastUpdated, startTime)
    {
      hide Total, StreamsOk, Indexed, ItemsOk, Ledger, TimesAgree, Sorted;
      assert Empty() && bag == multiset{};
      var raw := Item(priority, enqueueTime, enqueueOrder, packet.mediaType == Retransmission,
                      packet, enqueueTime, unpausedTime, true);
      singlePacket := Some(QueuedPacket(raw, None));
      UpdateQueueTime(enqueueTime);
      pushed := raw.(enqueueTime := enqueueTime - pauseTimeSum, unpausedAt := unpausedTime);
      ContainersWithSingle(streams, maxSize, streamPriorities, enqueueTimes, sizePackets, pushed);
      singlePacket := Some(QueuedPacket(raw.(enqueueTime := enqueueTime - pauseTimeSum, unpausedAt := unpausedTime), None));
      sizePackets := 1;
      size := size + PacketSize(singlePacket.value.item);
      bag := multiset{pushed};
    }

    /** The other path: the packet joins its stream, after the single packet has joined its own. */
    method PushToStream(priority: int, enqueueTime: int, enqueueOrder: nat, packet: RtpPacket) returns (ghost pushed: Item)
      requires Valid() && enqueueTime >= timeLastUpdated && sizePackets != 0
      modifies `streamPriorities, `streams, `enqueueTimes, `sizePackets, `size,
        `timeLastUpdated, `pauseTimeSum, `queueTimeSum, `unpausedTime, `singlePacket, `bag
      ensures ContainersAgree() && bag == old(bag) + multiset{pushed}
      ensures timeLastUpdated == enqueueTime
      ensures pauseTimeSum == old(pauseTimeSum) + if paused then enqueueTime - old(timeLastUpdated) else 0
      ensures unpausedTime == old(unpausedTime) + if paused then 0 else enqueueTime - old(timeLastUpdated)
      ensures pushed == Item(priority, enqueueTime - pauseTimeSum, enqueueOrder, packet.mediaType == Retransmission,
                             packet, enqueueTime, unpausedTime, false)
      ensures size == old(size) + PacketSize(pushed)
      ensures SameCharges(old(streams), streams)
      ensures Ledger(old(bag), queueTimeSum, unpausedTime, timeLastUpdated, startTime, pauseTimeSum)
      ensures ItemsOk(old(bag), unpausedTime, timeLastUpdated, startTime)
    {
      hide Total, Containers, StreamsOk, Indexed, ItemsOk, Ledger, Added, SameCharges, Holds, Sorted, ItemSize, WireSize;
      MaybePromoteSinglePacketToNormalQueue();
      ContainersCount();
      ContainersParts();
      ghost var index, held, times := streamPriorities, streams, enqueueTimes;
      enqueueTimes := enqueueTimes + multiset{enqueueTime};
      pushed := PushQueued(QueuedPacket(Item(priority, enqueueTime, enqueueOrder, packet.mediaType == Retransmission,
                                             packet, enqueueTime, unpausedTime, false), Some(enqueueTime)));
      ContainersAfterPush(bag, held, maxSize, index, times, sizePackets - 1, pushed, streams, streamPriorities);
      SameAfterAdded(old(streams), held, streams, pushed);
      bag := bag + multiset{pushed};
    }

    method Push(priority: int, enqueueTime: int, enqueueOrder: nat, packet: RtpPacket) returns (ghost pushed: Item)
      requires Valid() && enqueueTime >= timeLastUpdated
      modifies `streamPriorities, `streams, `enqueueTimes, `sizePackets, `size,
        `timeLastUpdated, `pauseTimeSum, `queueTimeSum, `unpausedTime, `singlePacket, `bag
      ensures Valid()
      ensures timeLastUpdated == enqueueTime
      ensures pauseTimeSum == old(pauseTimeSum) + if paused then enqueueTime - old(timeLastUpdated) else 0
      ensures unpausedTime == old(unpausedTime) + if paused then 0 else enqueueTime - old(timeLastUpdated)
      ensures pushed == Item(priority, enqueueTime - pauseTimeSum, enqueueOrder, packet.mediaType == Retransmission,
                             packet, enqueueTime, unpausedTime, old(bag) == multiset{})
      ensures PushStep(old(View()), pushed, View())
      ensures bag == old(bag) + multiset{pushed} && size == old(size) + PacketSize(pushed)
      ensures size == old(size) + packet.payloadSize + packet.paddingSize + if includeOverhead then packet.headersSize + transportOverhead else 0
    {
      hide Total, Containers, ItemsOk, Ledger;
      ContainersCount();
      ghost var before := bag;
      if sizePackets == 0 {
        pushed := PushSingle(priority, enqueueTime, enqueueOrder, packet);
        assert before + multiset{pushed} == bag;
      } else {
        pushed := PushToStream(priority, enqueueTime, enqueueOrder, packet);
      }
      LedgerAfterPush(before, queueTimeSum, unpausedTime, timeLastUpdated, startTime, pauseTimeSum, pushed);
      PushedItemOk(before, pushed);
      ItemsAfterPush(before, unpausedTime, timeLastUpdated, startTime, pushed);
      TotalAdd(before, SizeOf(includeOverhead, transportOverhead), pushed);
    }

    lemma PushedItemOk(before: multiset<Item>, x: Item)
      requires Ledger(before, queueTimeSum, unpausedTime, timeLastUpdated, startTime, pauseTimeSum)
      requires x.enqueueTime == timeLastUpdated - pauseTimeSum && x.arrival == timeLastUpdated && x.unpausedAt == unpausedTime
      requires x.isRetransmission == (x.packet.mediaType == Retransmission)
      ensures ItemOk(x, unpausedTime, timeLastUpdated, startTime)
    {
    }

    // ----- Pop -----

    method GetHighestPriorityStream() returns (stream: Stream)
      requires ContainersAgree() && singlePacket.None? && bag != multiset{}
      ensures streamPriorities != [] && stream.ssrc == streamPriorities[0].ssrc
      ensures stream.ssrc in streams && streams[stream.ssrc] == stream
      ensures |stream.packetQueue| > 0 && stream.packetQueue[0].item == Head()
      ensures stream.priorityIt == Some(streamPriorities[0].key) && streamPriorities[0].key == KeyOf(stream)
      ensures stream.packetQueue[0] == Stored(Head()) && Head().Ssrc() == stream.ssrc
      ensures 0 <= stream.size <= maxSize
    {
      SchedulePresent();
      FirstEntryIsChoice(streamPriorities, streams, bag, maxSize);
      stream := streams[streamPriorities[0].ssrc];
      assert StreamOk(stream, streamPriorities[0].ssrc, maxSize);
      assert stream.packetQueue[0] in stream.packetQueue;
    }

    /** The fast path of Pop: the single packet leaves, and its stream is not charged. */
    method PopSingle() returns (packet: RtpPacket)
      requires Valid() && singlePacket.Some?
      modifies `sizePackets, `size, `queueTimeSum, `singlePacket, `bag
      ensures ContainersAgree() && bag == multiset{}
      ensures old(bag) == multiset{old(Head())} && packet == old(Head()).packet
      ensures queueTimeSum == 0 && size == 0
    {
      hide Total, StreamsOk, Indexed, ItemsOk, Ledger, Containers;
      ContainersWithoutSingle(bag, streams, maxSize, streamPriorities, singlePacket.value, enqueueTimes, sizePackets);
      packet := singlePacket.value.item.packet;
      singlePacket := None;
      queueTimeSum := 0;
      sizePackets := 0;
      size := 0;
      bag := multiset{};
    }

    /** Charges a stream for its head, takes the head out, and schedules the stream again if
        packets are left. The charge is lifted to within MAX_LEADING_SIZE of the leader. */
    method TakeHead(stream: Stream, packetSize: nat)
      requires StreamsOk(streams, maxSize) && Indexed(streamPriorities, streams) && maxSize >= MAX_LEADING_SIZE
      requires stream.ssrc in streams && streams[stream.ssrc] == stream && |stream.packetQueue| > 0
      requires stream.priorityIt == Some(KeyOf(stream)) && 0 <= stream.size <= maxSize
      modifies `streamPriorities, `streams, `maxSize
      ensures StreamsOk(streams, maxSize) && Indexed(streamPriorities, streams)
      ensures Removed(old(streams), streams, stream.packetQueue[0].item)
      ensures stream.ssrc in streams && streams[stream.ssrc].size == Max(stream.size + packetSize, old(maxSize) - MAX_LEADING_SIZE)
      ensures maxSize == Max(old(maxSize), streams[stream.ssrc].size)
    {
      hide StreamsOk, Indexed, Removed, RemoveOne, OrderedInsert;
      ghost var index, held, lead := streamPriorities, streams, maxSize;
      streamPriorities := RemoveOne(streamPriorities, Entry(stream.priorityIt.value, stream.ssrc));
      assert !IsSsrcScheduled(stream.ssrc) by { ErasedIsUnscheduled(index, held, stream.ssrc); }
      var charged := Max(stream.size + packetSize, maxSize - MAX_LEADING_SIZE);
      maxSize := Max(maxSize, charged);
      var rest := stream.packetQueue[1..];
      if |rest| == 0 {
        streams := streams[stream.ssrc := Stream(charged, stream.ssrc, rest, None)];
      } else {
        var key := StreamPrioKey(rest[0].item.priority, charged);
        streamPriorities := OrderedInsert(streamPriorities, Entry(key, stream.ssrc), EntryBefore);
        streams := streams[stream.ssrc := Stream(charged, stream.ssrc, rest, Some(key))];
      }
      StreamAfterPop(held, streams, stream.ssrc, charged, lead, maxSize);
      IndexAfterPop(index, streamPriorities, held, streams, stream.ssrc, charged);
    }

    /** The other path: the head of the first scheduled stream leaves and its size is charged. */
    method PopFromStream() returns (packet: RtpPacket, ghost popped: Item)
      requires ContainersAgree() && singlePacket.None? && bag != multiset{}
      modifies `streamPriorities, `streams, `enqueueTimes, `sizePackets, `size, `maxSize, `queueTimeSum
      ensures popped == old(Head()) && packet == popped.packet && popped.Ssrc() in old(streams)
      ensures StreamsOk(streams, maxSize) && Indexed(streamPriorities, streams)
      ensures Removed(old(streams), streams, popped)
      ensures enqueueTimes == old(enqueueTimes) - multiset{Recorded(popped)} && sizePackets == old(sizePackets) - 1
      ensures queueTimeSum == old(queueTimeSum) - (timeLastUpdated - popped.enqueueTime - pauseTimeSum)
      ensures size == old(size) - PacketSize(popped)
      ensures old(streams)[popped.Ssrc()].size <= old(maxSize)
      ensures ChargedFor(old(streams), old(maxSize), popped, PacketSize(popped), streams, maxSize)
    {
      hide StreamsOk, Indexed, Containers, Removed, Head, Max, Recorded, Holds;
      ContainersParts();
      var stream := GetHighestPriorityStream();
      var queued := stream.packetQueue[0];
      popped := queued.item;
      assert queued.enqueueTimeIt.Some?;
      enqueueTimes := enqueueTimes - multiset{queued.enqueueTimeIt.value};
      TakeHead(stream, PacketSize(queued.item));
      queueTimeSum := queueTimeSum - (timeLastUpdated - queued.item.enqueueTime - pauseTimeSum);
      size := size - PacketSize(queued.item);
      sizePackets := sizePackets - 1;
      packet := queued.item.packet;
    }

    lemma HeadIsQueued()
      requires ContainersAgree() && bag != multiset{}
      ensures Head() in bag
    {
      HeadIsChoice();
    }

    /** A packet popped from the slot charges nobody; any other charges its stream. */
    method Pop() returns (packet: RtpPacket, ghost popped: Item)
      requires Valid() && bag != multiset{}
      modifies `streamPriorities, `streams, `enqueueTimes, `sizePackets, `size, `maxSize,
        `queueTimeSum, `singlePacket, `bag
      ensures Valid()
      ensures popped == old(Head()) && packet == popped.packet
      ensures PopStep(old(View()), popped, PacketSize(popped), View())
      ensures if old(singlePacket).Some? then streams == old(streams) && maxSize == old(maxSize) else ChargedFor(old(streams), old(maxSize), popped, PacketSize(popped), streams, maxSize)
      ensures popped in old(bag) && bag == old(bag) - multiset{popped} && size == old(size) - PacketSize(popped)
    {
      hide Total, ItemsOk, Ledger, Containers, Head, PopChoice, Removed, StreamsOk, Indexed, Holds, Sorted, ItemSize, WireSize;
      popped := Head();
      HeadIsChoice();
      HeadIsQueued();
      ghost var before, held, lead := bag, streams, maxSize;
      ghost var index, times, n := streamPriorities, enqueueTimes, sizePackets;
      ItemsAfterPop(before, unpausedTime, timeLastUpdated, startTime, popped);
      LedgerAfterPop(before, queueTimeSum, unpausedTime, timeLastUpdated, startTime, pauseTimeSum, popped);
      TotalRemove(before, SizeOf(includeOverhead, transportOverhead), popped);
      if singlePacket.Some? {
        packet := PopSingle();
        assert before - multiset{popped} == bag;
        EmptyTotal(SizeOf(includeOverhead, transportOverhead));
      } else {
        packet, popped := PopFromStream();
        ContainersAfterPop(bag, held, lead, index, times, n, popped, streams, maxSize, streamPriorities);
        bag := bag - multiset{popped};
        ChargesAfterPop(before, held, streams, lead, popped, PacketSize(popped), maxSize);
      }
    }

    // ----- Overhead -----

    /** Adds the overhead of one stream's packets to the byte count. `part` is what was counted before. */
    method CountStreamOverhead(ssrc: nat, ghost part: multiset<Item>) returns (ghost counted: multiset<Item>)
      requires StreamsOk(streams, maxSize) && ssrc in streams
      modifies `size
      ensures forall x: Item :: counted[x] == part[x] + if x.Ssrc() == ssrc then InStreams(streams, x) else 0
      ensures size - Total(counted, OverheadOf(transportOverhead)) == old(size) - Total(part, OverheadOf(transportOverhead))
    {
      hide Total, StreamsOk;
      var queue := streams[ssrc].packetQueue;
      counted := part;
      var i := 0;
      while i < |queue|
        invariant 0 <= i <= |queue|
        invariant forall x: Item :: counted[x] == part[x] + if x.Ssrc() == ssrc then multiset(queue[..i])[Stored(x)] else 0
        invariant size - Total(counted, OverheadOf(transportOverhead)) == old(size) - Total(part, OverheadOf(transportOverhead))
      {
        StoredElement(streams, ssrc, maxSize, i);
        TotalAdd(counted, OverheadOf(transportOverhead), queue[i].item);
        assert queue[..i + 1] == queue[..i] + [queue[i]];
        counted := counted + multiset{queue[i].item};
        size := size + queue[i].item.packet.headersSize + transportOverhead;
        i := i + 1;
      }
      assert queue[..i] == queue;
    }

    method CountOverhead()
      requires StreamsOk(streams, maxSize) && Holds(bag, streams, None)
      modifies `size
      ensures size == old(size) + Total(bag, OverheadOf(transportOverhead))
    {
      hide Total, StreamsOk, InStreams;
      ghost var part: multiset<Item> := multiset{};
      var remaining := streams.Keys;
      EmptyTotal(OverheadOf(transportOverhead));
      while remaining != {}
        invariant remaining <= streams.Keys
        invariant forall x: Item :: part[x] == if x.Ssrc() in streams.Keys - remaining then InStreams(streams, x) else 0
        invariant size == old(size) + Total(part, OverheadOf(transportOverhead))
        decreases remaining
      {
        var ssrc :| ssrc in remaining;
        part := CountStreamOverhead(ssrc, part);
        remaining := remaining - {ssrc};
      }
      forall x: Item ensures part[x] == bag[x] {
        NotInStreams(streams, x);
      }
      assert part == bag;
    }

    lemma NotInStreams(held: map<nat, Stream>, x: Item)
      ensures x.Ssrc() !in held ==> InStreams(held, x) == 0
    {
    }

    /** Counts header and transport overhead from now on. Queued packets are re-counted even when
        overhead was included before, so the byte count stays right exactly when it was not, or
        there is nothing to count twice. */
    method SetIncludeOverhead()
      requires Valid()
      modifies `streamPriorities, `streams, `enqueueTimes, `sizePackets, `size,
        `timeLastUpdated, `pauseTimeSum, `queueTimeSum, `unpausedTime, `singlePacket, `includeOverhead
      ensures Core() && includeOverhead
      ensures size == old(size) + Total(bag, OverheadOf(transportOverhead))
      ensures SizeAgrees() <==> !old(includeOverhead) || Total(bag, OverheadOf(transportOverhead)) == 0
      ensures IdleStep(old(View()), View())
      ensures timeLastUpdated == old(timeLastUpdated) && unpausedTime == old(unpausedTime)
    {
      hide Total, ItemsOk, Ledger, Containers, StreamsOk, Holds, Indexed;
      MaybePromoteSinglePacketToNormalQueue();
      includeOverhead := true;
      ContainersParts();
      CountOverhead();
      TotalSum(bag, SizeOf(false, transportOverhead), OverheadOf(transportOverhead), SizeOf(true, transportOverhead));
    }

    /** Including overhead twice counts it twice: the headers of a queued packet, for one. */
    static method CountedTwice(packet: RtpPacket) returns (q: RoundRobinPacketQueue)
      requires packet.headersSize > 0
      ensures fresh(q) && !q.Valid() && q.size == WireSize(packet, true, 0) + packet.headersSize
    {
      hide StreamsOk, Indexed, Holds, ItemsOk, Ledger, Containers;
      q := new RoundRobinPacketQueue(0);
      ghost var x := q.Push(1, 0, 0, packet);
      OneTotal(x, OverheadOf(0));
      q.SetIncludeOverhead();
      q.SetIncludeOverhead();
    }

    /** Changes the per-packet overhead; if overhead is included every queued packet is re-counted. */
    method SetTransportOverhead(overheadPerPacket: nat)
      requires Valid()
      modifies `streamPriorities, `streams, `enqueueTimes, `sizePackets, `size,
        `timeLastUpdated, `pauseTimeSum, `queueTimeSum, `unpausedTime, `singlePacket, `transportOverhead
      ensures Valid() && transportOverhead == overheadPerPacket
      ensures IdleStep(old(View()), View())
      ensures timeLastUpdated == old(timeLastUpdated) && unpausedTime == old(unpausedTime)
    {
      hide Total, ItemsOk, Ledger, Containers, StreamsOk, Holds, Indexed;
      MaybePromoteSinglePacketToNormalQueue();
      ContainersParts();
      if includeOverhead {
        var previousOverhead := transportOverhead;
        RecountOverhead(previousOverhead, overheadPerPacket);
      } else {
        TotalShift(bag, SizeOf(false, transportOverhead), SizeOf(false, overheadPerPacket), 0);
      }
      transportOverhead := overheadPerPacket;
    }

    method RecountOverhead(previousOverhead: nat, overheadPerPacket: nat)
      requires StreamsOk(streams, maxSize) && Holds(bag, streams, None)
      modifies `size
      ensures size == old(size) - Total(bag, SizeOf(true, previousOverhead)) + Total(bag, SizeOf(true, overheadPerPacket))
    {
      hide Total, StreamsOk, InStreams;
      ghost var part: multiset<Item> := multiset{};
      var remaining := streams.Keys;
      while remaining != {}
        invariant remaining <= streams.Keys
        invariant forall x: Item :: part[x] == if x.Ssrc() in streams.Keys - remaining then InStreams(streams, x) else 0
        invariant size == old(size) + (overheadPerPacket - previousOverhead) * |part|
        decreases remaining
      {
        var ssrc :| ssrc in remaining;
        var packets := |streams[ssrc].packetQueue|;
        size := size - packets * previousOverhead;
        size := size + packets * overheadPerPacket;
        ghost var counted := StreamItems(streams, ssrc, maxSize);
        Distribute(overheadPerPacket, previousOverhead, |part|, packets);
        part := part + counted;
        remaining := remaining - {ssrc};
      }
      forall x: Item ensures part[x] == bag[x] {
        NotInStreams(streams, x);
      }
      assert part == bag;
      TotalShift(bag, SizeOf(true, previousOverhead), SizeOf(true, overheadPerPacket), overheadPerPacket - previousOverhead);
    }

    lemma Distribute(a: int, b: int, n: int, m: int)
      ensures (a - b) * (n + m) == (a - b) * n - m * b + m * a
    {
    }

    // ----- The oldest enqueue time -----

    /** Never later than any queued packet's raw enqueue time; equal to the earliest of them
        exactly when no queued packet entered an empty queue after a pause, so whenever the queue
        was never paused. */
    function OldestEnqueueTime(): (t: Option<int>)
      requires Valid()
      reads this
      ensures t.None? <==> bag == multiset{}
      ensures t.Some? ==> forall x :: x in bag ==> t.value <= x.arrival
      ensures t.Some? ==>
        ((exists x :: x in bag && x.arrival == t.value) <==> (forall x :: x in bag && x.opening ==> x.enqueueTime == x.arrival))
      ensures t.Some? && pauseTimeSum == 0 ==> exists x :: x in bag && x.arrival == t.value
    {
      if singlePacket.Some? then
        OldestRecorded(bag, unpausedTime, timeLastUpdated, startTime, singlePacket.value.item.enqueueTime);
        Some(singlePacket.value.item.enqueueTime)
      else if Empty() then None
      else
        TimesAreRecorded(enqueueTimes, bag);
        assert Recorded(Pick(bag)) in enqueueTimes;
        var oldest := LeastOf(enqueueTimes);
        OldestRecorded(bag, unpausedTime, timeLastUpdated, startTime, oldest);
        Some(oldest)
    }

    /** It is too early for a packet that finds the queue empty and paused. */
    static method OldestTooEarly(packet: RtpPacket) returns (q: RoundRobinPacketQueue)
      ensures fresh(q) && q.Valid() && q.OldestEnqueueTime().Some? && (forall x :: x in q.bag ==> x.arrival == 10)
      ensures q.OldestEnqueueTime().value < 10
    {
      hide Total, Containers, Ledger, PushStep;
      q := new RoundRobinPacketQueue(0);
      q.SetPauseState(true, 0);
      ghost var pushed := q.Push(1, 10, 0, packet);
      assert pushed.enqueueTime == 0 && q.bag == multiset{pushed};
      var t := q.OldestEnqueueTime();
      assert t.Some? && t.value != 10;
    }
  }
}
