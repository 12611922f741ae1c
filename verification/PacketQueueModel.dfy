/** The values inside the round-robin packet queue, the plain bag they must agree
    with, and the invariants that tie the redundant containers to that bag. */
module PacketQueueModel {
  import opened Collections
  import opened Packets

  const MAX_LEADING_SIZE := 1400

  /** A queued packet. `enqueueTime` already has the paused time subtracted.
      The ghost parts record what the caller passed: the raw enqueue time, the time
      the queue had spent unpaused by then, and whether the queue was empty. */
  datatype Item = Item(
    priority: int,
    enqueueTime: int,
    enqueueOrder: nat,
    isRetransmission: bool,
    packet: RtpPacket,
    ghost arrival: int,
    ghost unpausedAt: int,
    ghost opening: bool)
  {
    function Ssrc(): nat { packet.ssrc }
  }

  /** `enqueueTimeIt` is the iterator into the multiset of enqueue times: None is
      its end, Some(t) points to an element with value t. */
  datatype QueuedPacket = QueuedPacket(item: Item, enqueueTimeIt: Option<int>)

  datatype StreamPrioKey = StreamPrioKey(priority: int, size: int)

  datatype Entry = Entry(key: StreamPrioKey, ssrc: nat)

  /** `priorityIt` is the iterator into the schedule: Some(k) points to the entry
      of this stream under key k. The priority queue is kept in pop order. */
  datatype Stream = Stream(
    size: int,
    ssrc: nat,
    packetQueue: seq<QueuedPacket>,
    priorityIt: Option<StreamPrioKey>)

  /** The queue's order: `a` has lower precedence than `b`. */
  predicate Less(a: Item, b: Item) {
    if a.priority != b.priority then a.priority > b.priority
    else if a.isRetransmission != b.isRetransmission then b.isRetransmission
    else a.enqueueOrder > b.enqueueOrder
  }

  predicate PopsBefore(a: QueuedPacket, b: QueuedPacket) {
    Less(b.item, a.item)
  }

  predicate KeyLess(a: StreamPrioKey, b: StreamPrioKey) {
    if a.priority != b.priority then a.priority < b.priority else a.size < b.size
  }

  predicate EntryBefore(a: Entry, b: Entry) {
    KeyLess(a.key, b.key)
  }

  lemma OrdersAreStrict()
    ensures StrictOrder(PopsBefore) && StrictOrder(EntryBefore)
  {
  }

  // ----- Measures of an item, as summands -----

  function ItemSize(x: Item, includeOverhead: bool, overhead: nat): nat {
    WireSize(x.packet, includeOverhead, overhead)
  }

  /** The value stored for an item in the multiset of enqueue times. */
  ghost function Recorded(x: Item): int {
    if x.opening then x.enqueueTime else x.arrival
  }

  /** The per-item amounts the queue keeps sums of. Waited(c) is the unpaused time an item
      has spent in the queue when the unpaused clock shows c. */
  datatype Measure =
    | SizeOf(includeOverhead: bool, overhead: nat)
    | OverheadOf(overhead: nat)
    | Waited(clock: int)
    | RecordedAt(time: int)

  ghost function Amount(m: Measure, x: Item): int {
    match m
    case SizeOf(includeOverhead, overhead) => ItemSize(x, includeOverhead, overhead)
    case OverheadOf(overhead) => x.packet.headersSize + overhead
    case Waited(clock) => clock - x.unpausedAt
    case RecordedAt(time) => if Recorded(x) == time then 1 else 0
  }

  /** The sum of measure `f` over all elements of `bag`, counted with multiplicity. */
  ghost function Total(bag: multiset<Item>, f: Measure): int
    decreases |bag|
  {
    if bag == multiset{} then 0
    else
      var x := Pick(bag);
      Amount(f, x) + Total(bag - multiset{x}, f)
  }

  lemma EmptyTotal(f: Measure)
    ensures Total(multiset{}, f) == 0
  {
  }

  lemma {:induction false} TotalRemove(bag: multiset<Item>, f: Measure, x: Item)
    requires x in bag
    ensures Total(bag, f) == Amount(f, x) + Total(bag - multiset{x}, f)
    decreases |bag|
  {
    var y := Pick(bag);
    if y != x {
      TotalRemove(bag - multiset{y}, f, x);
      TotalRemove(bag - multiset{x}, f, y);
      assert bag - multiset{y} - multiset{x} == bag - multiset{x} - multiset{y};
    }
  }

  lemma TotalAdd(bag: multiset<Item>, f: Measure, x: Item)
    ensures Total(bag + multiset{x}, f) == Total(bag, f) + Amount(f, x)
  {
    TotalRemove(bag + multiset{x}, f, x);
    assert bag + multiset{x} - multiset{x} == bag;
  }

  lemma OneTotal(x: Item, f: Measure)
    ensures Total(multiset{x}, f) == Amount(f, x)
  {
    TotalRemove(multiset{x}, f, x);
  }

  /** If `g` exceeds `f` by `d` on every element, its sum exceeds by `d` times the size. */
  lemma {:induction false} TotalShift(bag: multiset<Item>, f: Measure, g: Measure, d: int)
    requires forall x :: x in bag ==> Amount(g, x) == Amount(f, x) + d
    ensures Total(bag, g) == Total(bag, f) + d * |bag|
    decreases |bag|
  {
    if bag != multiset{} {
      var x := Pick(bag);
      TotalShift(bag - multiset{x}, f, g, d);
      MulSucc(d, |bag - multiset{x}|);
    }
  }

  lemma {:induction false} TotalSum(bag: multiset<Item>, f: Measure, g: Measure, h: Measure)
    requires forall x :: x in bag ==> Amount(h, x) == Amount(f, x) + Amount(g, x)
    ensures Total(bag, h) == Total(bag, f) + Total(bag, g)
    decreases |bag|
  {
    if bag != multiset{} {
      var x := Pick(bag);
      TotalSum(bag - multiset{x}, f, g, h);
    }
  }

  lemma {:induction false} TotalBounds(bag: multiset<Item>, f: Measure, x: Item)
    requires forall y :: y in bag ==> Amount(f, y) >= 0
    ensures Total(bag, f) >= 0
    ensures x in bag ==> Total(bag, f) >= Amount(f, x)
    decreases |bag|
  {
    if bag != multiset{} {
      var y := Pick(bag);
      TotalBounds(bag - multiset{y}, f, y);
      if x in bag {
        TotalRemove(bag, f, x);
        var rest := bag - multiset{x};
        if rest != multiset{} {
          TotalBounds(rest, f, Pick(rest));
        }
      }
    }
  }

  /** A positive sum has a positive contribution. */
  lemma {:induction false} TotalWitness(bag: multiset<Item>, f: Measure) returns (x: Item)
    requires Total(bag, f) > 0
    ensures x in bag && Amount(f, x) > 0
    decreases |bag|
  {
    x := Pick(bag);
    if Amount(f, x) <= 0 {
      x := TotalWitness(bag - multiset{x}, f);
    }
  }

  // ----- Agreement of the containers with the bag -----

  ghost function Stored(x: Item): QueuedPacket {
    QueuedPacket(x, Some(Recorded(x)))
  }

  /** How often the streams hold `x`. */
  ghost function InStreams(streams: map<nat, Stream>, x: Item): nat {
    if x.Ssrc() in streams then multiset(streams[x.Ssrc()].packetQueue)[Stored(x)] else 0
  }

  ghost predicate StreamOk(stream: Stream, ssrc: nat, maxSize: int) {
    && stream.ssrc == ssrc
    && 0 <= stream.size <= maxSize
    && Sorted(stream.packetQueue, PopsBefore)
    && forall q :: q in stream.packetQueue ==> q.item.Ssrc() == ssrc && q == Stored(q.item)
  }

  ghost predicate StreamsOk(streams: map<nat, Stream>, maxSize: int) {
    forall s :: s in streams ==> StreamOk(streams[s], s, maxSize)
  }

  function KeyOf(stream: Stream): StreamPrioKey
    requires |stream.packetQueue| > 0
  {
    StreamPrioKey(stream.packetQueue[0].item.priority, stream.size)
  }

  ghost function ScheduleOf(stream: Stream): Option<StreamPrioKey> {
    if |stream.packetQueue| == 0 then None else Some(KeyOf(stream))
  }

  ghost predicate Scheduled(streams: map<nat, Stream>, e: Entry) {
    && e.ssrc in streams
    && |streams[e.ssrc].packetQueue| > 0
    && e.key == KeyOf(streams[e.ssrc])
  }

  /** Each stream with packets has exactly one entry, keyed by its best priority and
      its size; there are no other entries; every stream's iterator points to its entry. */
  ghost predicate Indexed(index: seq<Entry>, streams: map<nat, Stream>) {
    && Sorted(index, EntryBefore)
    && (forall e: Entry :: multiset(index)[e] == if Scheduled(streams, e) then 1 else 0)
    && (forall s :: s in streams ==> streams[s].priorityIt == ScheduleOf(streams[s]))
  }

  /** The bag is what the single-packet slot or else the streams hold. */
  ghost predicate Holds(bag: multiset<Item>, streams: map<nat, Stream>, single: Option<QueuedPacket>) {
    match single
    case Some(q) =>
      && bag == multiset{q.item}
      && q.enqueueTimeIt == None
      && q.item.opening
      && forall s :: s in streams ==> |streams[s].packetQueue| == 0
    case None =>
      forall x: Item :: bag[x] == InStreams(streams, x)
  }

  ghost predicate TimesAgree(enqueueTimes: multiset<int>, bag: multiset<Item>, single: Option<QueuedPacket>) {
    if single.Some? then enqueueTimes == multiset{}
    else forall t :: enqueueTimes[t] == Total(bag, RecordedAt(t))
  }

  /** All containers agree with the bag. */
  ghost predicate Containers(bag: multiset<Item>, streams: map<nat, Stream>, maxSize: int, index: seq<Entry>,
                             single: Option<QueuedPacket>, enqueueTimes: multiset<int>, sizePackets: int) {
    && StreamsOk(streams, maxSize) && maxSize >= MAX_LEADING_SIZE
    && Indexed(index, streams)
    && Holds(bag, streams, single)
    && TimesAgree(enqueueTimes, bag, single)
    && sizePackets == |bag|
  }

  /** The running queue time is the unpaused waiting time of everything in the bag. */
  ghost predicate Ledger(bag: multiset<Item>, queueTimeSum: int, unpaused: int, now: int, start: int, pauseTimeSum: int) {
    && queueTimeSum == Total(bag, Waited(unpaused))
    && unpaused == now - start - pauseTimeSum
    && pauseTimeSum >= 0
  }

  /** The recorded time of a packet is earlier than its arrival by the pause time so far at most. */
  ghost predicate ItemOk(x: Item, unpaused: int, now: int, start: int) {
    && x.isRetransmission == (x.packet.mediaType == Retransmission)
    && x.enqueueTime == start + x.unpausedAt
    && x.enqueueTime <= x.arrival <= now
    && x.unpausedAt <= unpaused
    && x.arrival - x.enqueueTime <= now - start - unpaused
  }

  ghost predicate ItemsOk(bag: multiset<Item>, unpaused: int, now: int, start: int) {
    && (forall x :: x in bag ==> ItemOk(x, unpaused, now, start))
    && (forall x, y :: x in bag && y in bag && x.opening ==> x.arrival <= y.arrival)
  }

  lemma ItemsLater(bag: multiset<Item>, unpaused: int, now: int, start: int, unpaused': int, now': int)
    requires ItemsOk(bag, unpaused, now, start) && unpaused <= unpaused' && now <= now' && now - unpaused <= now' - unpaused'
    ensures ItemsOk(bag, unpaused', now', start)
  {
    forall x | x in bag ensures ItemOk(x, unpaused', now', start) {
      assert ItemOk(x, unpaused, now, start);
    }
  }

  lemma LedgerLater(bag: multiset<Item>, sum: int, unpaused: int, now: int, start: int, pauseTimeSum: int, delta: int)
    requires Ledger(bag, sum, unpaused, now, start, pauseTimeSum)
    ensures Ledger(bag, sum + delta * |bag|, unpaused + delta, now + delta, start, pauseTimeSum)
    ensures delta >= 0 ==> Ledger(bag, sum, unpaused, now + delta, start, pauseTimeSum + delta)
  {
    TotalShift(bag, Waited(unpaused), Waited(unpaused + delta), delta);
  }

  // ----- What a client sees: the bag and the bytes charged to each stream -----

  /** `charged` misses streams that never had a packet; they count as charged zero. */
  datatype Sched = Sched(ghost bag: multiset<Item>, charged: map<nat, int>, leader: int) {
    ghost function Charge(ssrc: nat): int {
      ChargeIn(charged, ssrc)
    }
  }

  function ChargeIn(charged: map<nat, int>, ssrc: nat): int {
    if ssrc in charged then charged[ssrc] else 0
  }

  /** The packets a pop may take: best priority; among equals a stream charged least;
      within the stream the retransmissions first, then in enqueue order. */
  ghost predicate PopChoice(s: Sched, x: Item) {
    && x in s.bag
    && (forall y :: y in s.bag ==> x.priority <= y.priority)
    && (forall y :: y in s.bag && y.priority == x.priority ==> s.Charge(x.Ssrc()) <= s.Charge(y.Ssrc()))
    && (forall y :: y in s.bag && y.Ssrc() == x.Ssrc() && y.priority == x.priority && y.isRetransmission ==> x.isRetransmission)
    && (forall y :: y in s.bag && y.Ssrc() == x.Ssrc() && y.priority == x.priority && y.isRetransmission == x.isRetransmission
          ==> x.enqueueOrder <= y.enqueueOrder)
  }

  /** Pushing adds to the bag and charges nobody. */
  ghost predicate PushStep(s: Sched, x: Item, t: Sched) {
    && t.bag == s.bag + multiset{x}
    && t.leader == s.leader
    && forall ssrc: nat :: t.Charge(ssrc) == s.Charge(ssrc)
  }

  /** Popping removes an allowed choice and charges its stream, which is lifted to within
      MAX_LEADING_SIZE of the leader. The only packet of a queue may leave uncharged. */
  ghost predicate PopStep(s: Sched, x: Item, bytes: nat, t: Sched) {
    && PopChoice(s, x)
    && t.bag == s.bag - multiset{x}
    && (forall ssrc: nat :: ssrc != x.Ssrc() ==> t.Charge(ssrc) == s.Charge(ssrc))
    && if s.bag == multiset{x} && t.Charge(x.Ssrc()) == s.Charge(x.Ssrc()) then t.leader == s.leader
       else && t.Charge(x.Ssrc()) == Max(s.Charge(x.Ssrc()) + bytes, s.leader - MAX_LEADING_SIZE)
            && t.leader == Max(s.leader, t.Charge(x.Ssrc()))
  }

  /** Every other operation leaves the bag and the charges alone. */
  ghost predicate IdleStep(s: Sched, t: Sched) {
    t.bag == s.bag && t.leader == s.leader && forall ssrc: nat :: t.Charge(ssrc) == s.Charge(ssrc)
  }

  /** The leader's charge bounds every stream's charge. */
  ghost predicate Led(s: Sched) {
    forall ssrc: nat :: s.Charge(ssrc) <= s.leader
  }

  ghost function Charges(streams: map<nat, Stream>): map<nat, int> {
    map s | s in streams :: streams[s].size
  }

  lemma StoredElement(streams: map<nat, Stream>, ssrc: nat, maxSize: int, i: nat)
    requires StreamsOk(streams, maxSize) && ssrc in streams && i < |streams[ssrc].packetQueue|
    ensures var q := streams[ssrc].packetQueue[i]; q == Stored(q.item) && q.item.Ssrc() == ssrc
  {
    assert StreamOk(streams[ssrc], ssrc, maxSize);
    assert streams[ssrc].packetQueue[i] in streams[ssrc].packetQueue;
  }

  /** The items a stream holds, as a bag of the queue's length. */
  lemma StreamItems(streams: map<nat, Stream>, ssrc: nat, maxSize: int) returns (items: multiset<Item>)
    requires StreamsOk(streams, maxSize) && ssrc in streams
    ensures |items| == |streams[ssrc].packetQueue|
    ensures forall x: Item :: items[x] == if x.Ssrc() == ssrc then InStreams(streams, x) else 0
  {
    hide StreamsOk;
    var queue := streams[ssrc].packetQueue;
    items := multiset{};
    var i := 0;
    while i < |queue|
      invariant 0 <= i <= |queue| && |items| == i
      invariant forall x: Item :: items[x] == if x.Ssrc() == ssrc then multiset(queue[..i])[Stored(x)] else 0
    {
      StoredElement(streams, ssrc, maxSize, i);
      assert queue[..i + 1] == queue[..i] + [queue[i]];
      items := items + multiset{queue[i].item};
      i := i + 1;
    }
    assert queue[..i] == queue;
  }

  // ----- Pushing into the streams -----

  /** `after` is `before` with `x` stored in its stream and no stream charged. */
  ghost predicate Added(before: map<nat, Stream>, after: map<nat, Stream>, x: Item) {
    && after.Keys == before.Keys + {x.Ssrc()}
    && (forall s :: s in before ==> after[s].size == before[s].size)
    && (x.Ssrc() !in before ==> after[x.Ssrc()].size == 0)
    && (forall y: Item :: InStreams(after, y) == InStreams(before, y) + if y == x then 1 else 0)
  }

  function StreamFor(streams: map<nat, Stream>, ssrc: nat): Stream {
    if ssrc in streams then streams[ssrc] else Stream(0, ssrc, [], None)
  }

  lemma StreamForOk(streams: map<nat, Stream>, ssrc: nat, maxSize: int)
    requires StreamsOk(streams, maxSize) && maxSize >= 0
    ensures StreamOk(StreamFor(streams, ssrc), ssrc, maxSize)
  {
  }

  /** The head of a stream's queue after an insertion. */
  lemma InsertHead(queue: seq<QueuedPacket>, q: QueuedPacket)
    ensures var t := OrderedInsert(queue, q, PopsBefore);
      && t != []
      && t[0] == if queue == [] || PopsBefore(q, queue[0]) then q else queue[0]
  {
  }

  lemma StreamAfterPush(streams: map<nat, Stream>, after: map<nat, Stream>, q: QueuedPacket, it: Option<StreamPrioKey>, maxSize: int)
    requires StreamsOk(streams, maxSize) && maxSize >= 0
    requires q == Stored(q.item)
    requires var st := StreamFor(streams, q.item.Ssrc());
      after == streams[q.item.Ssrc() :=
        st.(packetQueue := OrderedInsert(st.packetQueue, q, PopsBefore), priorityIt := it)]
    ensures StreamsOk(after, maxSize)
    ensures Added(streams, after, q.item)
  {
    var ssrc := q.item.Ssrc();
    var st := StreamFor(streams, ssrc);
    StreamForOk(streams, ssrc, maxSize);
    OrdersAreStrict();
    OrderedInsertSorted(st.packetQueue, q, PopsBefore);
    var t := after[ssrc].packetQueue;
    forall p | p in t ensures p.item.Ssrc() == ssrc && p == Stored(p.item) {
      assert p in multiset(t);
      assert p == q || p in multiset(st.packetQueue);
    }
    forall y: Item ensures InStreams(after, y) == InStreams(streams, y) + if y == q.item then 1 else 0 {
      if y.Ssrc() == ssrc {
        assert Stored(y) == q <==> y == q.item;
      }
    }
  }

  /** The key a stream is scheduled under once a packet of `priority` joins its queue. */
  function PushKey(st: Stream, priority: int): StreamPrioKey {
    if |st.packetQueue| == 0 || priority < st.packetQueue[0].item.priority
    then StreamPrioKey(priority, st.size)
    else KeyOf(st)
  }

  ghost predicate Rescheduled(index: seq<Entry>, st: Stream, ssrc: nat, priority: int, index': seq<Entry>) {
    if |st.packetQueue| == 0 then
      index' == OrderedInsert(index, Entry(PushKey(st, priority), ssrc), EntryBefore)
    else if priority < st.packetQueue[0].item.priority then
      index' == OrderedInsert(RemoveOne(index, Entry(KeyOf(st), ssrc)), Entry(PushKey(st, priority), ssrc), EntryBefore)
    else
      index' == index
  }

  lemma EntryPresent(index: seq<Entry>, streams: map<nat, Stream>, ssrc: nat)
    requires Indexed(index, streams) && ssrc in streams && |streams[ssrc].packetQueue| > 0
    ensures Entry(KeyOf(streams[ssrc]), ssrc) in index
  {
    assert multiset(index)[Entry(KeyOf(streams[ssrc]), ssrc)] == 1;
  }

  lemma EntryIsScheduled(index: seq<Entry>, streams: map<nat, Stream>, ssrc: nat, i: nat)
    requires Indexed(index, streams) && i < |index| && index[i].ssrc == ssrc
    ensures Scheduled(streams, index[i])
  {
    assert index[i] in multiset(index);
    assert multiset(index)[index[i]] > 0;
  }

  ghost function EntriesOf(streams: map<nat, Stream>, ssrc: nat): multiset<Entry> {
    if ssrc in streams && |streams[ssrc].packetQueue| > 0
    then multiset{Entry(KeyOf(streams[ssrc]), ssrc)}
    else multiset{}
  }

  lemma EntryCount(streams: map<nat, Stream>, after: map<nat, Stream>, ssrc: nat, e: Entry)
    requires ssrc in after && after == streams[ssrc := after[ssrc]]
    ensures EntriesOf(streams, ssrc)[e] <= if Scheduled(streams, e) then 1 else 0
    ensures (if Scheduled(after, e) then 1 else 0) + EntriesOf(streams, ssrc)[e]
      == (if Scheduled(streams, e) then 1 else 0) + EntriesOf(after, ssrc)[e]
  {
    if e.ssrc != ssrc {
      assert e !in EntriesOf(after, ssrc) && e !in EntriesOf(streams, ssrc);
    }
  }

  /** Replacing one stream and its entry keeps the schedule indexed. */
  lemma IndexedUpdate(index: seq<Entry>, index': seq<Entry>, streams: map<nat, Stream>, after: map<nat, Stream>, ssrc: nat)
    requires Indexed(index, streams) && Sorted(index', EntryBefore)
    requires ssrc in after && after == streams[ssrc := after[ssrc]]
    requires after[ssrc].priorityIt == ScheduleOf(after[ssrc])
    requires multiset(index') == multiset(index) - EntriesOf(streams, ssrc) + EntriesOf(after, ssrc)
    ensures Indexed(index', after)
  {
    forall e: Entry ensures multiset(index')[e] == if Scheduled(after, e) then 1 else 0 {
      EntryCount(streams, after, ssrc, e);
    }
  }

  lemma IndexAfterPush(index: seq<Entry>, index': seq<Entry>, streams: map<nat, Stream>, after: map<nat, Stream>, q: QueuedPacket)
    requires Indexed(index, streams)
    requires var st := StreamFor(streams, q.item.Ssrc());
      && Rescheduled(index, st, q.item.Ssrc(), q.item.priority, index')
      && after == streams[q.item.Ssrc() :=
          st.(packetQueue := OrderedInsert(st.packetQueue, q, PopsBefore), priorityIt := Some(PushKey(st, q.item.priority)))]
    ensures Indexed(index', after)
  {
    var ssrc := q.item.Ssrc();
    var st := StreamFor(streams, ssrc);
    var renewed := Entry(PushKey(st, q.item.priority), ssrc);
    OrdersAreStrict();
    InsertHead(st.packetQueue, q);
    assert KeyOf(after[ssrc]) == PushKey(st, q.item.priority);
    assert EntriesOf(after, ssrc) == multiset{renewed};
    if |st.packetQueue| == 0 {
      OrderedInsertSorted(index, renewed, EntryBefore);
    } else {
      var stale := Entry(KeyOf(st), ssrc);
      EntryPresent(index, streams, ssrc);
      if q.item.priority < st.packetQueue[0].item.priority {
        RemoveOneSorted(index, stale, EntryBefore);
        OrderedInsertSorted(RemoveOne(index, stale), renewed, EntryBefore);
      } else {
        assert stale in multiset(index);
      }
    }
    IndexedUpdate(index, index', streams, after, ssrc);
  }

  // ----- Popping from the streams -----

  ghost predicate Removed(before: map<nat, Stream>, after: map<nat, Stream>, x: Item) {
    && after.Keys == before.Keys
    && (forall s :: s in before && s != x.Ssrc() ==> after[s].size == before[s].size)
    && (forall y: Item :: InStreams(after, y) + (if y == x then 1 else 0) == InStreams(before, y))
  }

  lemma TailOk(stream: Stream, ssrc: nat, maxSize: int)
    requires StreamOk(stream, ssrc, maxSize) && |stream.packetQueue| > 0
    ensures Sorted(stream.packetQueue[1..], PopsBefore)
    ensures forall q :: q in stream.packetQueue[1..] ==> q.item.Ssrc() == ssrc && q == Stored(q.item)
    ensures multiset(stream.packetQueue) == multiset{stream.packetQueue[0]} + multiset(stream.packetQueue[1..])
  {
    var queue := stream.packetQueue;
    assert queue == [queue[0]] + queue[1..];
    SortedTail(queue, PopsBefore);
    forall q | q in queue[1..] ensures q in queue { }
  }

  lemma StreamAfterPop(streams: map<nat, Stream>, after: map<nat, Stream>, ssrc: nat, size: int, maxSize: int, maxSize': int)
    requires StreamsOk(streams, maxSize) && maxSize <= maxSize' && 0 <= size <= maxSize'
    requires ssrc in streams && |streams[ssrc].packetQueue| > 0
    requires var tail := streams[ssrc].packetQueue[1..];
      after == streams[ssrc := Stream(size, streams[ssrc].ssrc, tail,
        if tail == [] then None else Some(StreamPrioKey(tail[0].item.priority, size)))]
    ensures StreamsOk(after, maxSize')
    ensures Removed(streams, after, streams[ssrc].packetQueue[0].item)
  {
    var queue := streams[ssrc].packetQueue;
    var x := queue[0].item;
    assert StreamOk(streams[ssrc], ssrc, maxSize);
    TailOk(streams[ssrc], ssrc, maxSize);
    assert StreamsOk(after, maxSize') by {
      forall s | s in after ensures StreamOk(after[s], s, maxSize') {
        assert s != ssrc ==> StreamOk(streams[s], s, maxSize);
      }
    }
    hide StreamsOk, Sorted;
    StoredElement(streams, ssrc, maxSize, 0);
    forall y: Item ensures InStreams(after, y) + (if y == x then 1 else 0) == InStreams(streams, y) {
      assert Stored(y) == queue[0] <==> y == x;
    }
  }

  lemma IndexAfterPop(index: seq<Entry>, index': seq<Entry>, streams: map<nat, Stream>, after: map<nat, Stream>, ssrc: nat, size: int)
    requires Indexed(index, streams)
    requires ssrc in streams && |streams[ssrc].packetQueue| > 0
    requires var tail := streams[ssrc].packetQueue[1..];
      var it := if tail == [] then None else Some(StreamPrioKey(tail[0].item.priority, size));
      var rest := RemoveOne(index, Entry(KeyOf(streams[ssrc]), ssrc));
      && after == streams[ssrc := Stream(size, streams[ssrc].ssrc, tail, it)]
      && index' == if it.None? then rest else OrderedInsert(rest, Entry(it.value, ssrc), EntryBefore)
    ensures Indexed(index', after)
  {
    var tail := streams[ssrc].packetQueue[1..];
    var stale := Entry(KeyOf(streams[ssrc]), ssrc);
    var rest := RemoveOne(index, stale);
    OrdersAreStrict();
    EntryPresent(index, streams, ssrc);
    RemoveOneSorted(index, stale, EntryBefore);
    if tail != [] {
      OrderedInsertSorted(rest, Entry(StreamPrioKey(tail[0].item.priority, size), ssrc), EntryBefore);
    }
    IndexedUpdate(index, index', streams, after, ssrc);
  }

  /** Once its entry is taken out, a stream is not scheduled. */
  lemma ErasedIsUnscheduled(index: seq<Entry>, streams: map<nat, Stream>, ssrc: nat)
    requires Indexed(index, streams) && ssrc in streams && |streams[ssrc].packetQueue| > 0
    ensures forall e :: e in RemoveOne(index, Entry(KeyOf(streams[ssrc]), ssrc)) ==> e.ssrc != ssrc
  {
    var stale := Entry(KeyOf(streams[ssrc]), ssrc);
    var rest := RemoveOne(index, stale);
    EntryPresent(index, streams, ssrc);
    RemoveOneSorted(index, stale, EntryBefore);
    forall e | e in rest ensures e.ssrc != ssrc {
      assert e in multiset(rest);
      assert multiset(index)[e] > 0;
      assert Scheduled(streams, e) && e != stale;
    }
  }

  /** No stream's charge differs; new streams start at zero. */
  ghost predicate SameCharges(before: map<nat, Stream>, after: map<nat, Stream>) {
    forall ssrc: nat :: ChargeIn(Charges(after), ssrc) == ChargeIn(Charges(before), ssrc)
  }

  lemma SameAfterAdded(first: map<nat, Stream>, before: map<nat, Stream>, after: map<nat, Stream>, x: Item)
    requires SameCharges(first, before) && Added(before, after, x)
    ensures SameCharges(first, after)
  {
  }

  // ----- Steps of the whole container set -----

  lemma TimesAfterPush(times: multiset<int>, bag: multiset<Item>, x: Item)
    requires TimesAgree(times, bag, None)
    ensures TimesAgree(times + multiset{Recorded(x)}, bag + multiset{x}, None)
  {
    forall t ensures (times + multiset{Recorded(x)})[t] == Total(bag + multiset{x}, RecordedAt(t)) {
      TotalAdd(bag, RecordedAt(t), x);
    }
  }

  lemma TimesAfterPop(times: multiset<int>, bag: multiset<Item>, x: Item)
    requires TimesAgree(times, bag, None) && x in bag
    ensures Recorded(x) in times
    ensures TimesAgree(times - multiset{Recorded(x)}, bag - multiset{x}, None)
  {
    forall t ensures times[t] == Amount(RecordedAt(t), x) + Total(bag - multiset{x}, RecordedAt(t))
             ensures Total(bag - multiset{x}, RecordedAt(t)) >= 0 {
      TotalRemove(bag, RecordedAt(t), x);
      TotalBounds(bag - multiset{x}, RecordedAt(t), x);
    }
  }

  lemma HoldsAfterPush(bag: multiset<Item>, streams: map<nat, Stream>, after: map<nat, Stream>, x: Item)
    requires Holds(bag, streams, None) && Added(streams, after, x)
    ensures Holds(bag + multiset{x}, after, None)
  {
  }

  lemma HoldsAfterPop(bag: multiset<Item>, streams: map<nat, Stream>, after: map<nat, Stream>, x: Item)
    requires Holds(bag, streams, None) && Removed(streams, after, x) && x in bag
    ensures Holds(bag - multiset{x}, after, None)
  {
  }

  lemma ContainersAfterPush(bag: multiset<Item>, streams: map<nat, Stream>, maxSize: int, index: seq<Entry>,
                            times: multiset<int>, n: int, x: Item, after: map<nat, Stream>, index': seq<Entry>)
    requires Containers(bag, streams, maxSize, index, None, times, n)
    requires StreamsOk(after, maxSize) && Indexed(index', after) && Added(streams, after, x)
    ensures Containers(bag + multiset{x}, after, maxSize, index', None, times + multiset{Recorded(x)}, n + 1)
  {
    hide Total, Added, Indexed, StreamsOk;
    TimesAfterPush(times, bag, x);
    HoldsAfterPush(bag, streams, after, x);
  }

  lemma HeadIsHeld(bag: multiset<Item>, streams: map<nat, Stream>, s: nat, maxSize: int)
    requires Holds(bag, streams, None) && StreamsOk(streams, maxSize)
    requires s in streams && |streams[s].packetQueue| > 0
    ensures streams[s].packetQueue[0].item in bag
  {
    var q := streams[s].packetQueue[0];
    assert q in streams[s].packetQueue;
    assert bag[q.item] == InStreams(streams, q.item) > 0;
  }

  /** With an empty bag every stream is empty and no time is stored, so a packet may take
      the single-packet slot; and taking it out again empties the queue. */
  lemma ContainersWithSingle(streams: map<nat, Stream>, maxSize: int, index: seq<Entry>, times: multiset<int>, n: int, x: Item)
    requires Containers(multiset{}, streams, maxSize, index, None, times, n) && x.opening
    ensures times == multiset{}
    ensures Containers(multiset{x}, streams, maxSize, index, Some(QueuedPacket(x, None)), times, 1)
  {
    hide Indexed;
    forall t ensures times[t] == 0 {
      EmptyTotal(RecordedAt(t));
    }
    forall s | s in streams ensures |streams[s].packetQueue| == 0 {
      assert StreamOk(streams[s], s, maxSize);
      if |streams[s].packetQueue| > 0 {
        HeadIsHeld(multiset{}, streams, s, maxSize);
      }
    }
  }

  lemma ContainersWithoutSingle(bag: multiset<Item>, streams: map<nat, Stream>, maxSize: int, index: seq<Entry>,
                                q: QueuedPacket, times: multiset<int>, n: int)
    requires Containers(bag, streams, maxSize, index, Some(q), times, n)
    ensures bag == multiset{q.item} && times == multiset{}
    ensures Containers(multiset{}, streams, maxSize, index, None, times, 0)
  {
    hide Indexed, StreamsOk;
    forall t ensures Total(multiset{}, RecordedAt(t)) == 0 {
      EmptyTotal(RecordedAt(t));
    }
  }

  /** Moving the single packet into its stream keeps the bag. */
  lemma ContainersAfterPromotion(q: QueuedPacket, streams: map<nat, Stream>, maxSize: int, index: seq<Entry>,
                                 times: multiset<int>, n: int, after: map<nat, Stream>, index': seq<Entry>)
    requires Containers(multiset{q.item}, streams, maxSize, index, Some(q), times, n)
    requires StreamsOk(after, maxSize) && Indexed(index', after) && Added(streams, after, q.item)
    ensures Containers(multiset{q.item}, after, maxSize, index', None, times + multiset{Recorded(q.item)}, n)
  {
    hide Total, Indexed, StreamsOk;
    assert Holds(multiset{}, streams, None);
    HoldsAfterPush(multiset{}, streams, after, q.item);
    assert TimesAgree(multiset{}, multiset{}, None) by {
      forall t ensures Total(multiset{}, RecordedAt(t)) == 0 {
        EmptyTotal(RecordedAt(t));
      }
    }
    TimesAfterPush(multiset{}, multiset{}, q.item);
    assert multiset{} + multiset{q.item} == multiset{q.item};
  }

  lemma ContainersAfterPop(bag: multiset<Item>, streams: map<nat, Stream>, maxSize: int, index: seq<Entry>,
                           times: multiset<int>, n: int, x: Item, after: map<nat, Stream>, maxSize': int, index': seq<Entry>)
    requires Containers(bag, streams, maxSize, index, None, times, n) && x in bag
    requires StreamsOk(after, maxSize') && Indexed(index', after) && Removed(streams, after, x) && maxSize <= maxSize'
    ensures Recorded(x) in times
    ensures Containers(bag - multiset{x}, after, maxSize', index', None, times - multiset{Recorded(x)}, n - 1)
  {
    hide Total, Removed, Indexed, StreamsOk;
    TimesAfterPop(times, bag, x);
    HoldsAfterPop(bag, streams, after, x);
  }

  /** The stream of a popped packet is charged for it, and lifted to within MAX_LEADING_SIZE of the leader. */
  ghost predicate ChargedFor(before: map<nat, Stream>, leader: int, x: Item, bytes: nat, after: map<nat, Stream>, leader': int) {
    && x.Ssrc() in before && x.Ssrc() in after
    && after[x.Ssrc()].size == Max(before[x.Ssrc()].size + bytes, leader - MAX_LEADING_SIZE)
    && leader' == Max(leader, after[x.Ssrc()].size)
  }

  lemma ChargesAfterPop(bag: multiset<Item>, streams: map<nat, Stream>, after: map<nat, Stream>,
                        leader: int, x: Item, bytes: nat, leader': int)
    requires PopChoice(Sched(bag, Charges(streams), leader), x)
    requires Removed(streams, after, x) && x.Ssrc() in streams && streams[x.Ssrc()].size <= leader
    requires ChargedFor(streams, leader, x, bytes, after, leader')
    ensures PopStep(Sched(bag, Charges(streams), leader), x, bytes, Sched(bag - multiset{x}, Charges(after), leader'))
  {
  }

  lemma LedgerAfterPush(bag: multiset<Item>, sum: int, unpaused: int, now: int, start: int, pauseTimeSum: int, x: Item)
    requires Ledger(bag, sum, unpaused, now, start, pauseTimeSum) && x.unpausedAt == unpaused
    ensures Ledger(bag + multiset{x}, sum, unpaused, now, start, pauseTimeSum)
  {
    TotalAdd(bag, Waited(unpaused), x);
  }

  lemma LedgerAfterPop(bag: multiset<Item>, sum: int, unpaused: int, now: int, start: int, pauseTimeSum: int, x: Item)
    requires Ledger(bag, sum, unpaused, now, start, pauseTimeSum) && x in bag
    requires x.enqueueTime == start + x.unpausedAt
    ensures Ledger(bag - multiset{x}, sum - (now - x.enqueueTime - pauseTimeSum), unpaused, now, start, pauseTimeSum)
    ensures bag == multiset{x} ==> sum == now - x.enqueueTime - pauseTimeSum
  {
    TotalRemove(bag, Waited(unpaused), x);
  }

  lemma ItemsAfterPush(bag: multiset<Item>, unpaused: int, now: int, start: int, x: Item)
    requires ItemsOk(bag, unpaused, now, start) && ItemOk(x, unpaused, now, start)
    requires x.arrival == now && (x.opening ==> bag == multiset{})
    ensures ItemsOk(bag + multiset{x}, unpaused, now, start)
  {
    forall y | y in bag + multiset{x} ensures ItemOk(y, unpaused, now, start) {
      assert y == x || y in bag;
    }
    forall y, z | y in bag + multiset{x} && z in bag + multiset{x} && y.opening ensures y.arrival <= z.arrival {
      assert (y == x || y in bag) && (z == x || z in bag);
    }
  }

  lemma ItemsAfterPop(bag: multiset<Item>, unpaused: int, now: int, start: int, x: Item)
    requires ItemsOk(bag, unpaused, now, start)
    ensures ItemsOk(bag - multiset{x}, unpaused, now, start)
    ensures x in bag ==> ItemOk(x, unpaused, now, start)
  {
    assert forall y :: y in bag - multiset{x} ==> y in bag;
  }

  lemma QueueHeadIsBest(queue: seq<QueuedPacket>, q: QueuedPacket)
    requires Sorted(queue, PopsBefore) && q in queue
    ensures var x, y := queue[0].item, q.item;
      && x.priority <= y.priority
      && (x.priority == y.priority && y.isRetransmission ==> x.isRetransmission)
      && (x.priority == y.priority && y.isRetransmission == x.isRetransmission ==> x.enqueueOrder <= y.enqueueOrder)
  {
    var j :| 0 <= j < |queue| && queue[j] == q;
    assert j > 0 ==> !PopsBefore(queue[j], queue[0]);
  }

  lemma FirstEntryIsLeast(index: seq<Entry>, e: Entry)
    requires Sorted(index, EntryBefore) && e in index
    ensures !KeyLess(e.key, index[0].key)
  {
    var k :| 0 <= k < |index| && index[k] == e;
    assert k > 0 ==> !EntryBefore(index[k], index[0]);
  }

  lemma HeldInStream(streams: map<nat, Stream>, bag: multiset<Item>, y: Item)
    requires Holds(bag, streams, None) && y in bag
    ensures y.Ssrc() in streams && Stored(y) in streams[y.Ssrc()].packetQueue
  {
    assert bag[y] == InStreams(streams, y) > 0;
  }

  /** The head of the first scheduled stream is an allowed choice over the whole bag. */
  lemma FirstEntryIsChoice(index: seq<Entry>, streams: map<nat, Stream>, bag: multiset<Item>, leader: int)
    requires StreamsOk(streams, leader) && Indexed(index, streams) && index != []
    requires Holds(bag, streams, None)
    ensures Scheduled(streams, index[0])
    ensures PopChoice(Sched(bag, Charges(streams), leader), streams[index[0].ssrc].packetQueue[0].item)
  {
    hide Holds, Sorted, InStreams;
    EntryIsScheduled(index, streams, index[0].ssrc, 0);
    var ssrc := index[0].ssrc;
    var x := streams[ssrc].packetQueue[0].item;
    HeadIsHeld(bag, streams, ssrc, leader);
    StoredElement(streams, ssrc, leader, 0);
    forall y | y in bag
      ensures y.Ssrc() in streams
      ensures x.priority <= y.priority
      ensures y.priority == x.priority ==> streams[ssrc].size <= streams[y.Ssrc()].size
      ensures y.Ssrc() == ssrc && y.priority == x.priority && y.isRetransmission ==> x.isRetransmission
      ensures y.Ssrc() == ssrc && y.priority == x.priority && y.isRetransmission == x.isRetransmission ==> x.enqueueOrder <= y.enqueueOrder
    {
      HeldInStream(streams, bag, y);
      assert StreamOk(streams[y.Ssrc()], y.Ssrc(), leader);
      QueueHeadIsBest(streams[y.Ssrc()].packetQueue, Stored(y));
      EntryPresent(index, streams, y.Ssrc());
      FirstEntryIsLeast(index, Entry(KeyOf(streams[y.Ssrc()]), y.Ssrc()));
    }
  }

  // ----- The least stored enqueue time -----

  ghost predicate IsLeast(m: multiset<int>, t: int) {
    t in m && forall u :: u in m ==> t <= u
  }

  lemma LeastOfRest(m: multiset<int>, x: int, t: int)
    requires x in m && IsLeast(m - multiset{x}, t)
    ensures IsLeast(m, Min(x, t))
  {
    forall u | u in m ensures Min(x, t) <= u {
      assert u == x || u in m - multiset{x};
    }
  }

  lemma LeastOfOne(m: multiset<int>, x: int)
    requires x in m && m - multiset{x} == multiset{}
    ensures IsLeast(m, x)
  {
    forall u | u in m ensures x <= u {
      assert u == x || u in m - multiset{x};
    }
  }

  lemma {:induction false} LeastExists(m: multiset<int>)
    requires m != multiset{}
    ensures exists t :: IsLeast(m, t)
    decreases |m|
  {
    hide IsLeast;
    var x := Pick(m);
    if m - multiset{x} == multiset{} {
      LeastOfOne(m, x);
    } else {
      LeastExists(m - multiset{x});
      var t :| IsLeast(m - multiset{x}, t);
      LeastOfRest(m, x, t);
    }
  }

  function LeastOf(m: multiset<int>): (t: int)
    requires m != multiset{}
    ensures IsLeast(m, t)
  {
    LeastExists(m);
    assert exists t :: IsLeast(m, t);
    var t :| t in m && forall u :: u in m ==> t <= u;
    t
  }

  /** The stored times are exactly the recorded times of the bag. */
  lemma TimesAreRecorded(times: multiset<int>, bag: multiset<Item>)
    requires TimesAgree(times, bag, None)
    ensures forall x :: x in bag ==> Recorded(x) in times
    ensures forall t :: t in times ==> exists x :: x in bag && Recorded(x) == t
  {
    forall x | x in bag ensures Recorded(x) in times {
      TotalBounds(bag, RecordedAt(Recorded(x)), x);
    }
    forall t | t in times ensures exists x :: x in bag && Recorded(x) == t {
      var x := TotalWitness(bag, RecordedAt(t));
    }
  }

  /** The least recorded time is at most every arrival, and is one of the arrivals exactly when
      no queued packet entered an empty queue after a pause, as when there was none. */
  lemma OldestRecorded(bag: multiset<Item>, unpaused: int, now: int, start: int, t: int)
    requires ItemsOk(bag, unpaused, now, start)
    requires exists x :: x in bag && Recorded(x) == t
    requires forall x :: x in bag ==> t <= Recorded(x)
    ensures forall x :: x in bag ==> t <= x.arrival
    ensures (exists x :: x in bag && x.arrival == t) <==> (forall x :: x in bag && x.opening ==> x.enqueueTime == x.arrival)
    ensures unpaused == now - start ==> exists x :: x in bag && x.arrival == t
  {
    forall x | x in bag && unpaused == now - start ensures x.enqueueTime == x.arrival { assert ItemOk(x, unpaused, now, start); }
    forall x | x in bag ensures t <= x.arrival { assert ItemOk(x, unpaused, now, start); }
    if forall x :: x in bag && x.opening ==> x.enqueueTime == x.arrival {
      var x :| x in bag && Recorded(x) == t;
      assert x.arrival == t;
    } else {
      var o :| o in bag && o.opening && o.enqueueTime != o.arrival;
      assert ItemOk(o, unpaused, now, start);
      forall x | x in bag ensures x.arrival != t {
        assert t <= Recorded(o) < o.arrival <= x.arrival;
      }
    }
  }
}
