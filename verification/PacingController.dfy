/** The pacing controller in periodic mode: which packets leave, when, and against which budgets. */
module PacingController {
  import opened Collections
  import opened Units
  import opened Packets
  import opened PacketQueueModel
  import opened PacketQueue
  import IB = IntervalBudget
  import BP = BitrateProber

  const MIN_PACKET_LIMIT := 5_000
  const CONGESTED_PACKET_INTERVAL := 500_000
  const MAX_ELAPSED_TIME := 2_000_000
  const MAX_PROCESSING_INTERVAL := 30_000
  const MAX_EXPECTED_QUEUE_LENGTH := 2_000_000
  const FIRST_PRIORITY := 0
  const NOT_A_PROBE := -1
  const MAX_DATAGRAM := 0x1_0000
  const MAX_OVERHEAD := 0x1000_0000
  const MAX_PADDING_PACKETS := 0x4000

  function PriorityForType(t: MediaType): int {
    match t
    case Audio => FIRST_PRIORITY + 1
    case Retransmission => FIRST_PRIORITY + 2
    case Video => FIRST_PRIORITY + 3
    case ForwardErrorCorrection => FIRST_PRIORITY + 3
    case Padding => FIRST_PRIORITY + 4
  }

  /** A packet has the priority of its type, or is padding put first for a probe. */
  ghost predicate Ranked(x: Item) {
    x.priority == PriorityForType(x.packet.mediaType) || (x.priority == FIRST_PRIORITY && IsPadding(x.packet))
  }

  ghost predicate AllRanked(bag: multiset<Item>) {
    forall x :: x in bag ==> Ranked(x)
  }

  /** Packets fit a datagram, so their sizes survive the conversion to 32 bits. */
  predicate FitsDatagram(p: RtpPacket) {
    p.payloadSize + p.paddingSize + p.headersSize <= MAX_DATAGRAM
  }

  /** Generated padding has bytes in it and is not audio, which may be exempt from budgets. */
  predicate IsPadding(p: RtpPacket) {
    FitsDatagram(p) && p.payloadSize + p.paddingSize > 0 && p.mediaType != Audio
  }

  /** The clock and the packet sender, as arbitrary scripts: the k-th clock reading, the packets
      the k-th padding request returns, and the error-correction packets the k-th send leads to.
      The last is a finite script: error correction is not generated for ever. */
  class Outside {
    const clock: nat -> int
    const padding: (nat, nat) -> seq<RtpPacket>
    const fec: seq<seq<RtpPacket>>
    var clockReads: nat
    var paddingCalls: nat
    var sends: nat

    constructor (clock: nat -> int, padding: (nat, nat) -> seq<RtpPacket>, fec: seq<seq<RtpPacket>>)
      ensures this.clock == clock && this.padding == padding && this.fec == fec
      ensures clockReads == 0 && paddingCalls == 0 && sends == 0
    {
      this.clock, this.padding, this.fec := clock, padding, fec;
      clockReads, paddingCalls, sends := 0, 0, 0;
    }

    ghost predicate WellBehaved() {
      && (forall k: nat, size: nat :: |padding(k, size)| <= MAX_PADDING_PACKETS)
      && (forall k: nat, size: nat :: forall p :: p in padding(k, size) ==> IsPadding(p))
      && (forall k :: 0 <= k < |fec| ==> forall p :: p in fec[k] ==> FitsDatagram(p))
    }

    method Read() returns (time: int)
      modifies `clockReads
      ensures time == clock(old(clockReads)) && clockReads == old(clockReads) + 1
    {
      time := clock(clockReads);
      clockReads := clockReads + 1;
    }

    method GeneratePadding(size: nat) returns (packets: seq<RtpPacket>)
      requires WellBehaved()
      modifies `paddingCalls
      ensures packets == padding(old(paddingCalls), size) && paddingCalls == old(paddingCalls) + 1
      ensures |packets| <= MAX_PADDING_PACKETS && forall p :: p in packets ==> IsPadding(p)
    {
      packets := padding(paddingCalls, size);
      paddingCalls := paddingCalls + 1;
    }

    /** Sends a packet and fetches the error-correction packets made from it. */
    method SendAndFetchFec(packet: RtpPacket) returns (packets: seq<RtpPacket>)
      requires WellBehaved()
      modifies `sends
      ensures sends == old(sends) + 1
      ensures packets == FecOf(old(sends))
      ensures forall p :: p in packets ==> FitsDatagram(p)
    {
      packets := FecOf(sends);
      sends := sends + 1;
    }

    /** The error correction that one send leads to. */
    function FecOf(send: nat): seq<RtpPacket> {
      if send < |fec| then fec[send] else []
    }

    /** The error correction that `n` sends lead to, the first of them numbered `first`. */
    ghost function FecFrom(first: nat, n: nat): seq<RtpPacket> {
      if n == 0 then [] else FecFrom(first, n - 1) + FecOf(first + n - 1)
    }

    lemma FecGrows(first: nat, n: nat)
      ensures FecFrom(first, 0) == [] && FecFrom(first, n + 1) == FecFrom(first, n) + FecOf(first + n)
    {
    }

    /** The time after `n` clock readings from number `first` on, never going back. */
    ghost function Latest(first: nat, n: nat, time: int): int {
      if n == 0 then time else Max(Latest(first, n - 1, time), clock(first + n - 1))
    }

    lemma {:induction false} LatestOn(first: nat, m: nat, n: nat, time: int)
      ensures Latest(first, m + n, time) == Latest(first + m, n, Latest(first, m, time))
      decreases n
    {
      if n > 0 {
        LatestOn(first, m, n - 1, time);
      }
    }

    lemma {:induction false} LatestGrows(first: nat, n: nat, time: int)
      ensures Latest(first, n, time) >= time
      ensures n == 0 ==> Latest(first, n, time) == time
    {
      if n > 0 {
        LatestGrows(first, n - 1, time);
      }
    }

    /** Sends that may still lead to error-correction packets. */
    ghost function FecLeft(): nat
      reads this
    {
      if sends < |fec| then |fec| - sends else 0
    }
  }

  /** One packet sent by the loop: what was queued then, whether it was exempt from the checks, and
      the state it met, with all that was done to the two budgets before. */
  datatype Sent = Sent(
    item: Item,
    ghost queued: Sched,
    size: nat,
    probe: bool,
    paceAudio: bool,
    counted: bool,
    budget: int,
    ghost history: seq<IB.Op>,
    ghost paddingHistory: seq<IB.Op>,
    window: Option<nat>,
    time: int,
    outstandingBefore: int,
    outstandingAfter: int)

  /** A packet that is neither part of a probe nor unpaced audio. */
  ghost predicate Gated(r: Sent) {
    !r.probe && (r.paceAudio || r.item.packet.mediaType != Audio)
  }

  /** A packet sent was a choice the queue allows. A gated one was sent with budget left and the
      window open, so it raised the outstanding data to at most the window less one plus its size. */
  ghost predicate SentOk(r: Sent) {
    && PopChoice(r.queued, r.item) && AllRanked(r.queued.bag)
    && r.outstandingAfter == r.outstandingBefore + (if r.counted then r.size else 0)
    && r.budget == IB.After(START, false, r.history).remaining && r.size < 0x8000_0000
    && (Gated(r) ==>
          && r.budget > 0
          && (r.window.Some? ==> r.outstandingBefore < r.window.value && r.outstandingAfter <= r.window.value - 1 + r.size))
  }

  /** What a send does to the media budget. */
  ghost function Draws(counted: bool, size: nat): seq<IB.Op> {
    if counted then [IB.Send(size)] else []
  }

  /** The media budget at the start: nothing left, and no rate yet. */
  const START := IB.State(0, 0)

  /** Bytes of the sends charged to the budgets. */
  ghost function CountedBytes(log: seq<Sent>): nat {
    if log == [] then 0
    else CountedBytes(log[..|log| - 1]) + if log[|log| - 1].counted then log[|log| - 1].size else 0
  }

  /** At every send, the media budget had been charged for all counted sends before, and credited
      for no more than the time since `start`, and five milliseconds given at the start. */
  ghost predicate ChargedBefore(log: seq<Sent>, start: int) {
    forall k :: 0 <= k < |log| ==> ChargedAt(log, start, k)
  }

  ghost predicate ChargedAt(log: seq<Sent>, start: int, k: nat)
    requires k < |log|
  {
    CountedBytes(log[..k]) <= IB.Sent(log[k].history) && CreditedWithin(log[k].history, log[k].time - start)
  }

  ghost predicate CreditedWithin(history: seq<IB.Op>, us: int) {
    1000 * (IB.Elapsed(history) - MIN_PACKET_LIMIT / 1000) <= us
  }

  lemma NothingCredited()
    ensures CreditedWithin([] + [IB.Elapse(MIN_PACKET_LIMIT / 1000)], 0) && IB.Sent([] + [IB.Elapse(MIN_PACKET_LIMIT / 1000)]) == 0
  {
    IB.OneMoreOp(START, false, [], IB.Elapse(MIN_PACKET_LIMIT / 1000));
  }

  lemma NothingYet()
    ensures Balanced(multiset{}, multiset{}, multiset{}, 0) && CountedBytes([]) == 0
    ensures forall start: int :: ChargedBefore([], start)
  {
  }

  lemma OneMoreCharged(log: seq<Sent>, start: int, r: Sent)
    requires ChargedBefore(log, start) && CountedBytes(log) <= IB.Sent(r.history) && CreditedWithin(r.history, r.time - start)
    ensures ChargedBefore(log + [r], start)
    ensures CountedBytes(log + [r]) == CountedBytes(log) + (if r.counted then r.size else 0)
  {
    hide IB.Sent, CreditedWithin;
    var all := log + [r];
    assert all[..|log|] == log;
    forall k | 0 <= k < |all| ensures ChargedAt(all, start, k) {
      if k < |log| {
        assert ChargedAt(log, start, k) && all[..k] == log[..k];
      }
    }
  }

  /** What the loop changes as it sends: the outstanding data, the budgets, and what is queued. */
  datatype Meter = Meter(outstanding: int, ghost history: seq<IB.Op>, ghost padding: seq<IB.Op>, ghost bag: multiset<Item>)

  /** What a send met, and what it left if nothing was queued meanwhile. */
  ghost function MetBy(r: Sent): Meter {
    Meter(r.outstandingBefore, r.history, r.paddingHistory, r.queued.bag)
  }

  ghost function LeftBy(r: Sent): Meter {
    Meter(r.outstandingAfter, r.history + Draws(r.counted, r.size), r.paddingHistory + Draws(r.counted, r.size),
          r.queued.bag - multiset{r.item})
  }

  /** The milliseconds that count of a time: of at most one processing interval. */
  ghost function RefillMillis(us: int): nat {
    Min(MAX_PROCESSING_INTERVAL, Max(us, 0)) / 1000
  }

  /** How a round finds the budgets, from what was done to them before: drawn by the bytes of the
      keep-alive, and, if a rate was set, refilled for some milliseconds, the media budget at that rate. */
  ghost predicate OpenedWith(history: seq<IB.Op>, padding: seq<IB.Op>, from: Meter, bytes: nat, rate: Option<nat>, ms: nat) {
    && from.history == history + Draws(bytes > 0, bytes) + (if rate.Some? then [IB.Rate(rate.value), IB.Elapse(ms)] else [])
    && from.padding == padding + Draws(bytes > 0, bytes) + (if rate.Some? then [IB.Elapse(ms)] else [])
  }

  /** The refill leaves no more than the rate gives in the time. It leaves something to send with,
      unless what was left does not cover the keep-alive or the rate gives no byte in the time. */
  lemma OpensWithBudget(history: seq<IB.Op>, padding: seq<IB.Op>, from: Meter, bytes: nat, rate: nat, ms: nat)
    requires OpenedWith(history, padding, from, bytes, Some(rate), ms)
    ensures 8 * IB.After(START, false, from.history).remaining <= rate * ms
    ensures 8 * IB.After(START, false, from.padding).remaining <= IB.After(START, false, padding + Draws(bytes > 0, bytes)).rateKbps * ms
    ensures bytes < 0x8000_0000 && IB.After(START, false, history).remaining >= bytes && rate * ms >= 8 ==>
      IB.After(START, false, from.history).remaining > 0
  {
    hide IB.After, IB.Step;
    var drawn := history + Draws(bytes > 0, bytes);
    var rated := drawn + [IB.Rate(rate)];
    IB.OneMoreOp(START, false, drawn, IB.Rate(rate));
    assert from.history == rated + [IB.Elapse(ms)];
    IB.NothingCarriedOver(START, rated, ms);
    IB.NothingCarriedOver(START, padding + Draws(bytes > 0, bytes), ms);
    IB.RateSet(IB.After(START, false, drawn), rate);
    if bytes < 0x8000_0000 && IB.After(START, false, history).remaining >= bytes && rate * ms >= 8 {
      DrawnInHistory(history, bytes > 0, bytes);
      IB.OneMoreOp(START, false, rated, IB.Elapse(ms));
      IB.RateThenElapse(IB.After(START, false, drawn), rate, ms);
    }
  }

  /** What a draw takes: all its bytes, unless the debt would be more than a window. */
  lemma DrawnInHistory(history: seq<IB.Op>, counted: bool, bytes: nat)
    requires bytes < 0x8000_0000
    ensures var before := IB.After(START, false, history); var drawn := before.remaining - (if counted then bytes else 0);
      var after := IB.After(START, false, history + Draws(counted, bytes)).remaining;
      && drawn <= after <= Max(drawn, 0) && (!counted ==> after == before.remaining)
  {
    hide IB.After, IB.Step;
    if counted {
      IB.OneMoreOp(START, false, history, IB.Send(bytes));
      IB.DrawExactly(IB.After(START, false, history), bytes);
    } else {
      assert history + Draws(counted, bytes) == history;
    }
  }

  /** Between two readings nothing happened but that packets were queued. */
  ghost predicate OnlyQueued(from: Meter, to: Meter) {
    to.outstanding == from.outstanding && to.history == from.history && to.padding == from.padding && from.bag <= to.bag
  }

  /** The records are those of sends one after another, from one meter reading to another: each met
      what the one before it left, with at most more packets queued. */
  ghost predicate Follows(records: seq<Sent>, from: Meter, to: Meter) {
    if records == [] then OnlyQueued(from, to)
    else
      var r := records[|records| - 1];
      Follows(records[..|records| - 1], from, MetBy(r)) && OnlyQueued(LeftBy(r), to)
  }

  /** Over sends one after another the outstanding data grows by the bytes counted. */
  lemma {:induction false} OutstandingGrows(records: seq<Sent>, from: Meter, to: Meter)
    requires Follows(records, from, to) && forall r :: r in records ==> SentOk(r)
    ensures to.outstanding == from.outstanding + CountedBytes(records)
  {
    hide SentOk;
    if records != [] {
      var r := records[|records| - 1];
      OutstandingGrows(records[..|records| - 1], from, MetBy(r));
      CountedRaises(r);
    }
  }

  lemma CountedRaises(r: Sent)
    requires SentOk(r)
    ensures r.outstandingAfter == r.outstandingBefore + (if r.counted then r.size else 0)
  {
  }

  /** So a gated send in a round meets a window that what was outstanding before the round, and all
      bytes counted in the round so far, leave open. */
  lemma {:induction false} WindowInRound(records: seq<Sent>, from: Meter, to: Meter, k: nat)
    requires Follows(records, from, to) && (forall r :: r in records ==> SentOk(r)) && k < |records|
    ensures records[k].outstandingBefore == from.outstanding + CountedBytes(records[..k])
    ensures Gated(records[k]) && records[k].window.Some? ==> from.outstanding + CountedBytes(records[..k]) < records[k].window.value
    decreases |records|
  {
    var init, r := records[..|records| - 1], records[|records| - 1];
    assert records[k] in records;
    if k == |records| - 1 {
      OutstandingGrows(init, from, MetBy(r));
    } else {
      assert init[..k] == records[..k];
      WindowInRound(init, from, MetBy(r), k);
    }
  }

  /** Over sends one after another the budget left, while there is any, shrinks by the bytes counted. */
  lemma {:induction false} BudgetShrinks(records: seq<Sent>, from: Meter, to: Meter)
    requires Follows(records, from, to) && forall r :: r in records ==> SentOk(r)
    ensures var opening := IB.After(START, false, from.history).remaining; var left := IB.After(START, false, to.history).remaining;
      left > 0 ==> left == opening - CountedBytes(records)
  {
    hide SentOk, IB.After, Draws;
    if records != [] {
      var r := records[|records| - 1];
      BudgetShrinks(records[..|records| - 1], from, MetBy(r));
      SizeSmall(r);
      DrawnInHistory(r.history, r.counted, r.size);
    }
  }

  lemma SizeSmall(r: Sent)
    requires SentOk(r)
    ensures r.size < 0x8000_0000 && r.budget == IB.After(START, false, r.history).remaining
  {
  }

  /** So a gated send in a round finds all bytes counted in the round so far below the budget the
      round opened with. */
  lemma {:induction false} BudgetInRound(records: seq<Sent>, from: Meter, to: Meter, k: nat)
    requires Follows(records, from, to) && (forall r :: r in records ==> SentOk(r)) && k < |records|
    ensures Gated(records[k]) ==> 0 < records[k].budget == IB.After(START, false, from.history).remaining - CountedBytes(records[..k])
    decreases |records|
  {
    hide IB.After, CountedBytes;
    var init, r := records[..|records| - 1], records[|records| - 1];
    assert records[k] in records;
    if k == |records| - 1 {
      BudgetShrinks(init, from, MetBy(r));
    } else {
      assert init[..k] == records[..k];
      BudgetInRound(init, from, MetBy(r), k);
    }
  }

  /** What a round of the loop has in common: whether it probes, the policy for audio, the window
      and the time. */
  datatype Round = Round(probe: bool, paceAudio: bool, window: Option<nat>, time: int)

  ghost predicate OfRound(r: Sent, round: Round) {
    r.probe == round.probe && r.paceAudio == round.paceAudio && r.window == round.window && r.time == round.time
  }

  /** The records from number `n` on are of one round, and follow each other. */
  ghost predicate RoundSends(log: seq<Sent>, n: nat, round: Round, from: Meter, to: Meter) {
    && n <= |log|
    && (forall k :: n <= k < |log| ==> OfRound(log[k], round))
    && Follows(log[n..], from, to)
  }

  /** Pacing in a round: with the budgets refilled for some milliseconds at a rate, the bytes counted
      before a gated send are fewer than the rate gives in that time. */
  lemma PacedInRound(log: seq<Sent>, n: nat, round: Round, from: Meter, to: Meter, k: nat,
                     history: seq<IB.Op>, padding: seq<IB.Op>, bytes: nat, rate: nat, ms: nat)
    requires RoundSends(log, n, round, from, to) && (forall r :: r in log ==> SentOk(r))
    requires OpenedWith(history, padding, from, bytes, Some(rate), ms)
    requires n <= k < |log| && Gated(log[k])
    ensures 8 * CountedBytes(log[n..k]) < rate * ms
  {
    hide SentOk, Gated, OpenedWith, Follows, IB.After;
    OpensWithBudget(history, padding, from, bytes, rate, ms);
    assert log[n..][..k - n] == log[n..k] && log[n..][k - n] == log[k];
    BudgetInRound(log[n..], from, to, k - n);
  }

  lemma NoSends(log: seq<Sent>, round: Round, m: Meter)
    ensures RoundSends(log, |log|, round, m, m)
  {
  }

  lemma OneSend(log: seq<Sent>, r: Sent, round: Round, from: Meter, to: Meter)
    requires OfRound(r, round) && from == MetBy(r) && OnlyQueued(LeftBy(r), to)
    ensures RoundSends(log + [r], |log|, round, from, to)
  {
    assert (log + [r])[|log|..] == [r] && [r][..0] == [];
  }

  lemma SendsLater(log: seq<Sent>, n: nat, round: Round, from: Meter, to: Meter, later: Meter)
    requires RoundSends(log, n, round, from, to) && OnlyQueued(to, later)
    ensures RoundSends(log, n, round, from, later)
  {
  }

  lemma {:induction false} FollowsSince(records: seq<Sent>, earlier: Meter, from: Meter, to: Meter)
    requires Follows(records, from, to) && OnlyQueued(earlier, from)
    ensures Follows(records, earlier, to)
  {
    if records != [] {
      var r := records[|records| - 1];
      FollowsSince(records[..|records| - 1], earlier, from, MetBy(r));
    }
  }

  lemma SendsSince(log: seq<Sent>, n: nat, round: Round, earlier: Meter, from: Meter, to: Meter)
    requires RoundSends(log, n, round, from, to) && OnlyQueued(earlier, from)
    ensures RoundSends(log, n, round, earlier, to)
  {
    FollowsSince(log[n..], earlier, from, to);
  }

  /** A round of the loop sends one packet more, or none. */
  lemma SendsOn(log0: seq<Sent>, log: seq<Sent>, log': seq<Sent>, round: Round, from: Meter, to: Meter, later: Meter)
    requires log0 <= log <= log' && |log'| <= |log| + 1
    requires RoundSends(log, |log0|, round, from, to) && RoundSends(log', |log|, round, to, later)
    ensures RoundSends(log', |log0|, round, from, later)
  {
    var n := |log0|;
    if |log'| == |log| {
      assert log' == log && log'[|log|..] == [];
      SendsLater(log, n, round, from, to, later);
    } else {
      var r := log'[|log|];
      assert log'[|log|..] == [r] && [r][..0] == [];
      assert Follows([r], to, later) && Follows([], to, MetBy(r));
      assert log'[n..] == log[n..] + [r] && (log[n..] + [r])[..|log| - n] == log[n..];
      SendsLater(log, n, round, from, to, MetBy(r));
    }
  }

  /** Bytes that packets count for in the queue. */
  ghost function BytesOf(packets: seq<RtpPacket>, includeOverhead: bool, overhead: nat): nat {
    if packets == [] then 0
    else BytesOf(packets[..|packets| - 1], includeOverhead, overhead) + WireSize(packets[|packets| - 1], includeOverhead, overhead)
  }

  /** The mean waiting time of the packets queued, rounded down. */
  ghost function AverageWait(bag: multiset<Item>, unpaused: int): int {
    if bag == multiset{} then 0 else Total(bag, Waited(unpaused)) / |bag|
  }

  lemma NoBytesOfNothing(includeOverhead: bool, overhead: nat)
    ensures BytesOf([], includeOverhead, overhead) == 0
  {
  }

  lemma {:induction false} BytesOfBoth(a: seq<RtpPacket>, b: seq<RtpPacket>, includeOverhead: bool, overhead: nat)
    ensures BytesOf(a + b, includeOverhead, overhead) == BytesOf(a, includeOverhead, overhead) + BytesOf(b, includeOverhead, overhead)
    decreases |b|
  {
    if b == [] {
      assert a + b == a;
    } else {
      assert (a + b)[..|a + b| - 1] == a + b[..|b| - 1];
      BytesOfBoth(a, b[..|b| - 1], includeOverhead, overhead);
    }
  }

  lemma {:induction false} PaddingHasBytes(packets: seq<RtpPacket>, includeOverhead: bool, overhead: nat)
    requires packets != [] && forall p :: p in packets ==> IsPadding(p)
    ensures BytesOf(packets, includeOverhead, overhead) > 0
  {
    assert packets[|packets| - 1] in packets;
  }

  /** Bytes of padding, without headers. */
  ghost function PaddingBytes(packets: seq<RtpPacket>): nat {
    if packets == [] then 0
    else PaddingBytes(packets[..|packets| - 1]) + packets[|packets| - 1].payloadSize + packets[|packets| - 1].paddingSize
  }

  /** Bytes sent by the loop. */
  ghost function BytesLogged(log: seq<Sent>): nat {
    if log == [] then 0 else BytesLogged(log[..|log| - 1]) + log[|log| - 1].size
  }

  lemma OneMoreLogged(log: seq<Sent>, r: Sent)
    ensures BytesLogged(log + [r]) == BytesLogged(log) + r.size
  {
    assert (log + [r])[..|log|] == log;
  }

  /** Conservation: what was enqueued is what is queued and what was sent, each packet once. */
  ghost predicate Balanced(enqueued: multiset<Item>, bag: multiset<Item>, sent: multiset<Item>, counter: nat) {
    && enqueued == bag + sent
    && counter == |enqueued|
    && (forall x :: x in enqueued ==> FitsDatagram(x.packet) && Ranked(x) && x.enqueueOrder < counter && enqueued[x] == 1)
  }

  lemma BalancedAfterPush(enqueued: multiset<Item>, bag: multiset<Item>, sent: multiset<Item>, counter: nat, x: Item)
    requires Balanced(enqueued, bag, sent, counter)
    requires FitsDatagram(x.packet) && Ranked(x) && x.enqueueOrder == counter
    ensures Balanced(enqueued + multiset{x}, bag + multiset{x}, sent, counter + 1)
  {
    forall y | y in enqueued + multiset{x}
      ensures FitsDatagram(y.packet) && Ranked(y) && y.enqueueOrder < counter + 1 && (enqueued + multiset{x})[y] == 1
    {
      assert x !in enqueued;
      assert y == x || y in enqueued;
    }
  }

  lemma BalancedAfterPop(enqueued: multiset<Item>, bag: multiset<Item>, sent: multiset<Item>, counter: nat, x: Item)
    requires Balanced(enqueued, bag, sent, counter) && x in bag
    ensures Balanced(enqueued, bag - multiset{x}, sent + multiset{x}, counter)
    ensures FitsDatagram(x.packet) && counter > 0
  {
    assert x in enqueued;
  }

  /** Nothing enqueued or sent is forgotten, and what was sent is what was logged. */
  ghost predicate Progress(enqueued: multiset<Item>, sent: multiset<Item>, log: seq<Sent>,
                           enqueued': multiset<Item>, sent': multiset<Item>, log': seq<Sent>) {
    && enqueued <= enqueued' && sent <= sent' && log <= log'
    && sent' == sent + ItemsOf(log'[|log|..])
  }

  ghost function ItemsOf(records: seq<Sent>): multiset<Item> {
    if records == [] then multiset{}
    else ItemsOf(records[..|records| - 1]) + multiset{records[|records| - 1].item}
  }

  lemma {:induction false} ItemsOfBoth(a: seq<Sent>, b: seq<Sent>)
    ensures ItemsOf(a + b) == ItemsOf(a) + ItemsOf(b)
    decreases |b|
  {
    if b == [] {
      assert a + b == a;
    } else {
      assert (a + b)[..|a + b| - 1] == a + b[..|b| - 1];
      ItemsOfBoth(a, b[..|b| - 1]);
    }
  }

  lemma NoProgress(enqueued: multiset<Item>, sent: multiset<Item>, log: seq<Sent>)
    ensures Progress(enqueued, sent, log, enqueued, sent, log)
  {
    assert log[|log|..] == [];
  }

  lemma OneMoreSent(enqueued: multiset<Item>, sent: multiset<Item>, log: seq<Sent>, enqueued': multiset<Item>, x: Item, r: Sent)
    requires enqueued <= enqueued' && r.item == x
    ensures Progress(enqueued, sent, log, enqueued', sent + multiset{x}, log + [r])
  {
    assert (log + [r])[|log|..] == [r] && [r][..0] == [];
  }

  lemma MoreEnqueued(enqueued0: multiset<Item>, sent0: multiset<Item>, log0: seq<Sent>,
                     enqueued: multiset<Item>, sent: multiset<Item>, log: seq<Sent>, enqueued': multiset<Item>)
    requires Progress(enqueued0, sent0, log0, enqueued, sent, log) && enqueued <= enqueued'
    ensures Progress(enqueued0, sent0, log0, enqueued', sent, log)
  {
  }

  lemma FewerEnqueued(enqueued0: multiset<Item>, enqueued: multiset<Item>, sent: multiset<Item>, log: seq<Sent>,
                      enqueued': multiset<Item>, sent': multiset<Item>, log': seq<Sent>)
    requires Progress(enqueued, sent, log, enqueued', sent', log') && enqueued0 <= enqueued
    ensures Progress(enqueued0, sent, log, enqueued', sent', log')
  {
  }

  lemma ProgressOn(enqueued0: multiset<Item>, sent0: multiset<Item>, log0: seq<Sent>,
                   enqueued: multiset<Item>, sent: multiset<Item>, log: seq<Sent>,
                   enqueued': multiset<Item>, sent': multiset<Item>, log': seq<Sent>)
    requires Progress(enqueued0, sent0, log0, enqueued, sent, log) && Progress(enqueued, sent, log, enqueued', sent', log')
    ensures Progress(enqueued0, sent0, log0, enqueued', sent', log')
  {
    assert log'[|log0|..] == log[|log0|..] + log'[|log|..];
    ItemsOfBoth(log[|log0|..], log'[|log|..]);
  }

  ghost predicate OnlyPadding(bag: multiset<Item>) {
    forall x :: x in bag ==> IsPadding(x.packet)
  }

  lemma StillOnlyPadding(bag: multiset<Item>, item: Item)
    requires OnlyPadding(bag) && item in bag
    ensures OnlyPadding(bag - multiset{item}) && IsPadding(item.packet)
  {
    assert forall x :: x in bag - multiset{item} ==> x in bag;
  }

  class PacingController {
    const packetQueue: RoundRobinPacketQueue
    const mediaBudget: IB.IntervalBudget
    const paddingBudget: IB.IntervalBudget
    const prober: BP.BitrateProber
    const outside: Outside
    const drainLargeQueues: bool
    const sendPaddingIfSilent: bool
    const paceAudio: bool
    const ignoreTransportOverhead: bool

    var transportOverhead: nat
    var lastTimestamp: int
    var paused: bool
    var pacingBitrate: nat
    var probingSendFailure: bool
    var lastProcessTime: int
    var lastSendTime: int
    var firstSentPacketTime: Option<int>
    var packetCounter: nat
    var congestionWindow: Option<nat>
    var outstandingData: int
    var queueTimeLimit: int
    var accountForAudio: bool
    var includeOverhead: bool

    /** Everything ever enqueued, everything the send loop sent, and a record of each such send. */
    ghost var enqueued: multiset<Item>
    ghost var sent: multiset<Item>
    ghost var log: seq<Sent>

    /** The time the budgets were credited for so far. */
    ghost var credited: nat

    ghost predicate Valid()
      reads `paused, `packetCounter, `lastTimestamp, `lastProcessTime, `transportOverhead, `includeOverhead, `enqueued, `sent, `log, `credited,
        packetQueue, mediaBudget, paddingBudget, prober
    {
      && Parts()
      && (packetCounter == 0 ==> prober.Unprobed())
      && (packetCounter > 0 || paused ==> InStep())
      && packetQueue.startTime <= packetQueue.timeLastUpdated
      && paused == packetQueue.paused
      && includeOverhead == packetQueue.includeOverhead
      && transportOverhead == packetQueue.transportOverhead <= MAX_OVERHEAD
      && Accounted() && Timely()
    }

    /** No more time was credited than passed from the start to the last processing, which is not
        ahead of the clock, or of the start. */
    ghost predicate Timely()
      reads `credited, `lastProcessTime, `lastTimestamp, mediaBudget`history
    {
      && packetQueue.startTime + credited <= lastProcessTime <= Max(lastTimestamp, packetQueue.startTime)
      && CreditedWithin(mediaBudget.history, credited)
    }

    /** A time of sending: read already, and late enough for the time credited. */
    ghost predicate OnTime(sendTime: int)
      reads `credited, `lastTimestamp, `packetCounter
    {
      sendTime <= lastTimestamp && (packetCounter > 0 ==> packetQueue.startTime + credited <= sendTime)
    }

    /** The queue's clock is not ahead of the controller's. It can be before the first packet: the
        queue starts at a second reading of the clock, which may be later than what is read next. */
    ghost predicate InStep()
      reads `lastTimestamp, packetQueue
    {
      packetQueue.timeLastUpdated <= lastTimestamp
    }

    ghost predicate Parts()
      reads packetQueue, mediaBudget, paddingBudget, prober
    {
      && packetQueue.Valid() && mediaBudget.Valid() && paddingBudget.Valid() && prober.Valid() && prober.Steady()
      && mediaBudget != paddingBudget && mediaBudget.initialRateKbps == paddingBudget.initialRateKbps == 0
      && !mediaBudget.canBuildUpUnderuse && !paddingBudget.canBuildUpUnderuse
      && outside.WellBehaved()
    }

    ghost predicate Accounted()
      reads `enqueued, `sent, `packetCounter, `log, packetQueue`bag, mediaBudget`history
    {
      && Balanced(enqueued, packetQueue.bag, sent, packetCounter)
      && (forall r :: r in log ==> SentOk(r))
      && ChargedBefore(log, packetQueue.startTime) && CountedBytes(log) <= IB.Sent(mediaBudget.history)
    }

    constructor (outside: Outside, drainLargeQueues: bool, sendPaddingIfSilent: bool, paceAudio: bool, ignoreTransportOverhead: bool)
      requires outside.WellBehaved()
      modifies outside`clockReads
      ensures Valid() && this.outside == outside && this.paceAudio == paceAudio
      ensures enqueued == sent == multiset{} && log == [] && packetCounter == 0
      ensures !paused && congestionWindow == None && outstandingData == 0 && packetQueue.bag == multiset{} && packetQueue.size == 0
      ensures lastTimestamp == outside.clock(old(outside.clockReads)) && outside.clockReads == old(outside.clockReads) + 2
      ensures lastProcessTime == lastSendTime == packetQueue.timeLastUpdated == outside.clock(old(outside.clockReads) + 1)
      ensures this.drainLargeQueues == drainLargeQueues && this.sendPaddingIfSilent == sendPaddingIfSilent
      ensures !packetQueue.paused && !includeOverhead && transportOverhead == 0
      ensures fresh(packetQueue) && fresh(mediaBudget) && fresh(paddingBudget) && fresh(prober)
    {
      hide RoundRobinPacketQueue.Valid, BP.BitrateProber.Valid, BP.BitrateProber.Steady, BP.BitrateProber.Unprobed,
        IB.IntervalBudget.Valid, IB.Refilled, IB.After, IB.Sent, IB.Elapsed, CreditedWithin, Outside.WellBehaved, Valid;
      this.outside, this.drainLargeQueues, this.sendPaddingIfSilent := outside, drainLargeQueues, sendPaddingIfSilent;
      this.paceAudio, this.ignoreTransportOverhead := paceAudio, ignoreTransportOverhead;
      var first := outside.Read();
      var start := outside.Read();
      var media := new IB.IntervalBudget(0, false);
      var padding := new IB.IntervalBudget(0, false);
      var queue := new RoundRobinPacketQueue(start);
      var probing := new BP.BitrateProber(5, 1_000, 15_000, 10_000, true);
      media.IncreaseBudget(MIN_PACKET_LIMIT / 1000);
      padding.IncreaseBudget(MIN_PACKET_LIMIT / 1000);
      mediaBudget, paddingBudget, packetQueue, prober := media, padding, queue, probing;
      transportOverhead, lastTimestamp, paused, pacingBitrate := 0, first, false, 0;
      probingSendFailure, lastProcessTime, lastSendTime, firstSentPacketTime := false, start, start, None;
      packetCounter, congestionWindow, outstandingData, queueTimeLimit := 0, None, 0, MAX_EXPECTED_QUEUE_LENGTH;
      accountForAudio, includeOverhead := false, false;
      enqueued, sent, log, credited := multiset{}, multiset{}, [], 0;
      new;
      NothingCredited();
      StartsValid();
    }

    lemma StartsValid()
      requires packetQueue.Valid() && mediaBudget.Valid() && paddingBudget.Valid() && prober.Valid() && prober.Steady() && prober.Unprobed()
      requires mediaBudget != paddingBudget && mediaBudget.initialRateKbps == paddingBudget.initialRateKbps == 0
      requires !mediaBudget.canBuildUpUnderuse && !paddingBudget.canBuildUpUnderuse && outside.WellBehaved()
      requires enqueued == sent == packetQueue.bag == multiset{} && log == [] && packetCounter == 0 && credited == 0
      requires !paused && !packetQueue.paused && !includeOverhead && !packetQueue.includeOverhead
      requires transportOverhead == packetQueue.transportOverhead == 0
      requires packetQueue.startTime == packetQueue.timeLastUpdated == lastProcessTime && CreditedWithin(mediaBudget.history, 0)
      ensures Valid()
    {
      hide RoundRobinPacketQueue.Valid, BP.BitrateProber.Valid, BP.BitrateProber.Steady, BP.BitrateProber.Unprobed,
        IB.IntervalBudget.Valid, IB.Sent, CreditedWithin, Outside.WellBehaved, Balanced, CountedBytes, ChargedBefore, SentOk;
      NothingYet();
    }

    // ----- Queries -----

    predicate Congested()
      reads `congestionWindow, `outstandingData
    {
      congestionWindow.Some? && outstandingData >= congestionWindow.value
    }

    predicate ShouldSendKeepalive(now: int)
      reads `paused, `packetCounter, `lastSendTime, `congestionWindow, `outstandingData
    {
      (sendPaddingIfSilent || paused || Congested() || packetCounter == 0) &&
      now - lastSendTime >= CONGESTED_PACKET_INTERVAL
    }

    /** Padding is added only when nothing is queued, the window is open and a packet was sent
        before; then as much as the probe or the padding budget still asks for. */
    function PaddingToAdd(recommendedProbeSize: nat, dataSent: nat): (bytes: nat)
      requires packetQueue.Valid()
      reads this, packetQueue, paddingBudget
      ensures bytes > 0 <==> packetQueue.bag == multiset{} && !Congested() && packetCounter > 0 && Wanted(recommendedProbeSize, dataSent) > 0
      ensures bytes > 0 ==> bytes == Wanted(recommendedProbeSize, dataSent)
    {
      if !packetQueue.Empty() then 0
      else if Congested() then 0
      else if packetCounter == 0 then 0
      else if recommendedProbeSize != 0 then
        if recommendedProbeSize > dataSent then recommendedProbeSize - dataSent else 0
      else paddingBudget.BytesRemaining()
    }

    // ----- Time and budgets -----

    /** The time the next reading of the clock gives: never before the last. */
    ghost function TimeNow(): int
      reads `lastTimestamp, outside`clockReads
    {
      Max(lastTimestamp, outside.clock(outside.clockReads))
    }

    method CurrentTime() returns (time: int)
      modifies `lastTimestamp, outside`clockReads
      ensures time == lastTimestamp == old(TimeNow()) && outside.clockReads == old(outside.clockReads) + 1
      ensures old(Valid()) ==> Valid()
    {
      hide RoundRobinPacketQueue.Valid, Balanced, BP.BitrateProber.Valid, BP.BitrateProber.Steady, SentOk, Outside.WellBehaved;
      time := outside.Read();
      if time < lastTimestamp {
        time := lastTimestamp;
      }
      lastTimestamp := time;
    }

    /** Time since the last processing, of which at most `MAX_ELAPSED_TIME` counts. */
    ghost function ElapsedAt(now: int): nat
      reads `lastProcessTime
    {
      if now < lastProcessTime then 0 else Min(now - lastProcessTime, MAX_ELAPSED_TIME)
    }

    method UpdateTimeAndGetElapsed(now: int) returns (elapsed: nat)
      modifies `lastProcessTime
      ensures elapsed == old(ElapsedAt(now)) && lastProcessTime == Max(old(lastProcessTime), now) >= old(lastProcessTime) + elapsed
      ensures old(Valid()) && now <= lastTimestamp ==> Valid()
    {
      hide RoundRobinPacketQueue.Valid, Balanced, BP.BitrateProber.Valid, BP.BitrateProber.Steady, SentOk, Outside.WellBehaved;
      if now < lastProcessTime {
        return 0;
      }
      elapsed := now - lastProcessTime;
      lastProcessTime := now;
      if elapsed > MAX_ELAPSED_TIME {
        elapsed := MAX_ELAPSED_TIME;
      }
    }

    /** The remainder of a budget after some time, of which at most one processing interval counts. */
    ghost function Topped(budget: IB.IntervalBudget, remaining: int, delta: nat): int
      reads budget
    {
      IB.Refilled(remaining, budget.targetRateKbps, RefillMillis(delta), budget.canBuildUpUnderuse)
    }

    method UpdateBudgetWithElapsedTime(delta: nat)
      requires mediaBudget.Valid() && paddingBudget.Valid() && mediaBudget != paddingBudget
      modifies `credited, mediaBudget`remaining, mediaBudget`history, paddingBudget`remaining, paddingBudget`history
      ensures mediaBudget.Valid() && paddingBudget.Valid()
      ensures mediaBudget.remaining == Topped(mediaBudget, old(mediaBudget.remaining), delta)
      ensures paddingBudget.remaining == Topped(paddingBudget, old(paddingBudget.remaining), delta)
      ensures mediaBudget.history == old(mediaBudget.history) + [IB.Elapse(RefillMillis(delta))]
      ensures paddingBudget.history == old(paddingBudget.history) + [IB.Elapse(RefillMillis(delta))]
      ensures IB.Sent(mediaBudget.history) == old(IB.Sent(mediaBudget.history)) && credited == old(credited) + delta
      ensures old(CreditedWithin(mediaBudget.history, credited)) ==> CreditedWithin(mediaBudget.history, credited)
    {
      hide IB.Refilled, IB.Sent, IB.Elapsed, IB.After, IB.IntervalBudget.Valid;
      credited := credited + delta;
      var ms := Min(MAX_PROCESSING_INTERVAL, delta) / 1000;
      IB.OneMoreOp(START, false, mediaBudget.history, IB.Elapse(ms));
      mediaBudget.IncreaseBudget(ms);
      paddingBudget.IncreaseBudget(ms);
    }

    method UpdateBudgetWithSentData(size: nat)
      requires mediaBudget.Valid() && paddingBudget.Valid() && mediaBudget != paddingBudget
      requires size < 0x8000_0000
      modifies `outstandingData, mediaBudget`remaining, mediaBudget`history, paddingBudget`remaining, paddingBudget`history
      ensures mediaBudget.Valid() && paddingBudget.Valid()
      ensures outstandingData == old(outstandingData) + size
      ensures paddingBudget.remaining == Max(old(paddingBudget.remaining) - size, -paddingBudget.maxBytesInBudget)
      ensures mediaBudget.remaining == Max(old(mediaBudget.remaining) - size, -mediaBudget.maxBytesInBudget)
      ensures mediaBudget.history == old(mediaBudget.history) + [IB.Send(size)]
      ensures paddingBudget.history == old(paddingBudget.history) + [IB.Send(size)]
      ensures IB.Sent(mediaBudget.history) == old(IB.Sent(mediaBudget.history)) + size
      ensures IB.Elapsed(mediaBudget.history) == old(IB.Elapsed(mediaBudget.history))
    {
      hide IB.Sent, IB.Elapsed, IB.After;
      IB.OneMoreOp(START, false, mediaBudget.history, IB.Send(size));
      outstandingData := outstandingData + size;
      mediaBudget.UseBudget(size);
      paddingBudget.UseBudget(size);
    }

    lemma BudgetsValid()
      requires Valid()
      ensures mediaBudget.Valid() && paddingBudget.Valid() && mediaBudget != paddingBudget && CreditedWithin(mediaBudget.history, credited)
    {
    }

    /** How far the times have come. */
    lemma TimesKnown()
      requires Valid()
      ensures packetQueue.startTime + credited <= lastProcessTime <= Max(lastTimestamp, packetQueue.startTime)
      ensures packetCounter > 0 ==> packetQueue.startTime <= lastTimestamp
    {
      hide RoundRobinPacketQueue.Valid, Balanced, BP.BitrateProber.Valid, BP.BitrateProber.Steady, SentOk, Outside.WellBehaved;
    }

    /** Drawing the budgets, or crediting time that has passed, keeps everything that was promised. */
    twostate lemma BudgetsChanged()
      requires old(Valid()) && mediaBudget.Valid() && paddingBudget.Valid()
      requires IB.Sent(mediaBudget.history) >= old(IB.Sent(mediaBudget.history)) && CreditedWithin(mediaBudget.history, credited)
      requires packetQueue.startTime + credited <= lastProcessTime <= Max(lastTimestamp, packetQueue.startTime)
      requires old(lastTimestamp) <= lastTimestamp
      requires unchanged(`enqueued, `sent, `log, `packetCounter, `paused, `includeOverhead, `transportOverhead, packetQueue, prober)
      ensures Valid()
    {
      hide RoundRobinPacketQueue.Valid, Balanced, BP.BitrateProber.Valid, BP.BitrateProber.Steady, BP.BitrateProber.Unprobed,
        IB.IntervalBudget.Valid, IB.Sent, Outside.WellBehaved, CountedBytes, ChargedBefore, CreditedWithin, SentOk;
    }

    // ----- Enqueueing -----

    /** A push, made no earlier than the queue's last update, keeps everything that was promised. */
    twostate lemma Enqueued(item: Item)
      requires old(Valid()) && packetQueue.Valid() && mediaBudget.Valid() && paddingBudget.Valid() && prober.Valid() && prober.Steady()
      requires FitsDatagram(item.packet) && Ranked(item) && item.enqueueOrder == old(packetCounter) && packetCounter == old(packetCounter) + 1
      requires packetQueue.bag == old(packetQueue.bag) + multiset{item} && enqueued == old(enqueued) + multiset{item}
      requires old(packetQueue.timeLastUpdated) <= packetQueue.timeLastUpdated <= lastTimestamp && old(lastTimestamp) <= lastTimestamp
      requires unchanged(`lastProcessTime, `credited, `sent, `transportOverhead, `includeOverhead, `log, `paused, mediaBudget`history)
      requires unchanged(packetQueue`includeOverhead, packetQueue`transportOverhead, packetQueue`paused)
      ensures Valid()
    {
      hide Balanced, RoundRobinPacketQueue.Valid, BP.BitrateProber.Valid, BP.BitrateProber.Steady, BP.BitrateProber.Unprobed,
        IB.IntervalBudget.Valid, Outside.WellBehaved, SentOk, ChargedBefore, CountedBytes, IB.Sent, CreditedWithin;
      BalancedAfterPush(old(enqueued), old(packetQueue.bag), sent, old(packetCounter), item);
    }

    /** Adds one packet. The queue's clock check fails exactly if the time now is before the time
        the queue was last updated; after the first packet it never is. */
    method EnqueuePacketInternal(packet: RtpPacket, priority: int) returns (checkFailed: bool, ghost item: Item)
      requires Valid() && FitsDatagram(packet)
      requires priority == PriorityForType(packet.mediaType) || (priority == FIRST_PRIORITY && IsPadding(packet))
      modifies `lastTimestamp, `packetCounter, `enqueued, outside`clockReads, packetQueue,
        prober`probingState, prober`nextProbeTime
      ensures checkFailed <==> old(TimeNow()) < old(packetQueue.timeLastUpdated)
      ensures old(packetCounter) > 0 ==> !checkFailed
      ensures lastTimestamp == old(TimeNow()) && outside.clockReads == old(outside.clockReads) + 1
      ensures !checkFailed ==> Valid() && packetQueue.timeLastUpdated == lastTimestamp
      ensures !checkFailed ==> item.packet == packet && item.priority == priority && item.enqueueOrder == old(packetCounter)
      ensures !checkFailed ==> packetQueue.bag == old(packetQueue.bag) + multiset{item}
      ensures !checkFailed ==> packetQueue.size == old(packetQueue.size) + PacketBytes(packet)
      ensures !checkFailed ==> enqueued == old(enqueued) + multiset{item} && packetCounter == old(packetCounter) + 1
      ensures !checkFailed && !paused ==> packetQueue.pauseTimeSum == old(packetQueue.pauseTimeSum)
      ensures old(prober.IsProbing()) ==> unchanged(prober)
    {
      hide Valid, RoundRobinPacketQueue.Valid, RoundRobinPacketQueue.View, PushStep, IB.IntervalBudget.Valid,
        BP.BitrateProber.Valid, BP.BitrateProber.Steady, BP.BitrateProber.RecommendedMinProbeSize, WireSize, IsPadding, FitsDatagram, PriorityForType;
      EnqueueFacts();
      prober.OnIncomingPacket(packet.payloadSize);
      var now := CurrentTime();
      if now < packetQueue.timeLastUpdated {
        return true, *;
      }
      item := packetQueue.Push(priority, now, packetCounter, packet);
      packetCounter := packetCounter + 1;
      enqueued := enqueued + multiset{item};
      Enqueued(item);
      checkFailed := false;
    }

    lemma EnqueueFacts()
      requires Valid()
      ensures packetQueue.Valid() && prober.Valid() && prober.Steady() && mediaBudget.Valid() && paddingBudget.Valid()
      ensures includeOverhead == packetQueue.includeOverhead && transportOverhead == packetQueue.transportOverhead
      ensures (packetCounter > 0 || paused ==> InStep()) && paused == packetQueue.paused
    {
      hide RoundRobinPacketQueue.Valid, Balanced, BP.BitrateProber.Valid, BP.BitrateProber.Steady, SentOk;
    }

    /** Bytes a packet counts for in budgets and in the outstanding data. */
    function PacketBytes(packet: RtpPacket): nat
      reads `includeOverhead, `transportOverhead
    {
      WireSize(packet, includeOverhead, transportOverhead)
    }

    method EnqueuePacket(packet: RtpPacket) returns (checkFailed: bool, ghost item: Item)
      requires Valid() && FitsDatagram(packet)
      modifies `lastTimestamp, `packetCounter, `enqueued, outside`clockReads, packetQueue,
        prober`probingState, prober`nextProbeTime
      ensures checkFailed <==> old(TimeNow()) < old(packetQueue.timeLastUpdated)
      ensures old(packetCounter) > 0 ==> !checkFailed
      ensures lastTimestamp == old(TimeNow()) && outside.clockReads == old(outside.clockReads) + 1
      ensures !checkFailed ==> Valid() && packetQueue.timeLastUpdated == lastTimestamp
      ensures !checkFailed ==> item.packet == packet && item.priority == PriorityForType(packet.mediaType) && item.enqueueOrder == old(packetCounter)
      ensures !checkFailed ==> packetQueue.bag == old(packetQueue.bag) + multiset{item}
      ensures !checkFailed ==> packetQueue.size == old(packetQueue.size) + PacketBytes(packet)
      ensures !checkFailed ==> enqueued == old(enqueued) + multiset{item} && packetCounter == old(packetCounter) + 1
      ensures !checkFailed && !paused ==> packetQueue.pauseTimeSum == old(packetQueue.pauseTimeSum)
      ensures old(prober.IsProbing()) ==> unchanged(prober)
    {
      hide Valid, TimeNow;
      checkFailed, item := EnqueuePacketInternal(packet, PriorityForType(packet.mediaType));
    }

    /** Enqueues packets in order, each at its own reading of the clock. */
    method EnqueueAll(packets: seq<RtpPacket>)
      requires Valid() && packetCounter > 0 && forall p :: p in packets ==> FitsDatagram(p)
      modifies `lastTimestamp, `packetCounter, `enqueued, outside`clockReads, packetQueue,
        prober`probingState, prober`nextProbeTime
      ensures Valid()
      ensures packetCounter == old(packetCounter) + |packets| && |packetQueue.bag| == |old(packetQueue.bag)| + |packets|
      ensures old(enqueued) <= enqueued && old(packetQueue.bag) <= packetQueue.bag
      ensures forall x :: x in packetQueue.bag ==> x in old(packetQueue.bag) || x.packet in packets
      ensures packets == [] ==> packetQueue.bag == old(packetQueue.bag)
      ensures packetQueue.timeLastUpdated == if packets == [] then old(packetQueue.timeLastUpdated) else lastTimestamp
      ensures packetQueue.size == old(packetQueue.size) + BytesOf(packets, includeOverhead, transportOverhead)
      ensures outside.clockReads == old(outside.clockReads) + |packets|
      ensures lastTimestamp == outside.Latest(old(outside.clockReads), |packets|, old(lastTimestamp)) >= old(lastTimestamp)
      ensures !paused ==> packetQueue.pauseTimeSum == old(packetQueue.pauseTimeSum)
      ensures packets == [] || old(prober.IsProbing()) ==> unchanged(prober)
    {
      hide Valid, WireSize;
      for i := 0 to |packets|
        invariant Valid() && packetCounter == old(packetCounter) + i
        invariant old(enqueued) <= enqueued && old(packetQueue.bag) <= packetQueue.bag && |packetQueue.bag| == |old(packetQueue.bag)| + i
        invariant forall x :: x in packetQueue.bag ==> x in old(packetQueue.bag) || x.packet in packets
        invariant i == 0 ==> packetQueue.bag == old(packetQueue.bag)
        invariant packetQueue.timeLastUpdated == if i == 0 then old(packetQueue.timeLastUpdated) else lastTimestamp
        invariant packetQueue.size == old(packetQueue.size) + BytesOf(packets[..i], includeOverhead, transportOverhead)
        invariant outside.clockReads == old(outside.clockReads) + i
        invariant !paused ==> packetQueue.pauseTimeSum == old(packetQueue.pauseTimeSum)
        invariant lastTimestamp == outside.Latest(old(outside.clockReads), i, old(lastTimestamp)) >= old(lastTimestamp)
        invariant i == 0 || old(prober.IsProbing()) ==> unchanged(prober)
      {
        assert packets[i] in packets;
        assert packets[..i + 1][..i] == packets[..i];
        var checkFailed; ghost var item;
        checkFailed, item := EnqueuePacket(packets[i]);
      }
      assert packets[..|packets|] == packets;
    }

    // ----- Sending -----

    /** Pops the next packet for sending. */
    method HandOver() returns (packet: RtpPacket, ghost item: Item)
      requires packetQueue.Valid() && packetQueue.bag != multiset{}
      modifies `sent, packetQueue`streamPriorities, packetQueue`streams, packetQueue`enqueueTimes, packetQueue`sizePackets,
        packetQueue`size, packetQueue`maxSize, packetQueue`queueTimeSum, packetQueue`singlePacket, packetQueue`bag
      ensures packetQueue.Valid()
      ensures item == old(packetQueue.Head()) && packet == item.packet && PopChoice(old(packetQueue.View()), item)
      ensures item in old(packetQueue.bag) && packetQueue.bag == old(packetQueue.bag) - multiset{item}
      ensures sent == old(sent) + multiset{item}
      ensures packetQueue.size == old(packetQueue.size) - packetQueue.PacketSize(item)
    {
      packetQueue.ValidContainers();
      packetQueue.HeadIsChoice();
      hide PopStep, PopChoice, RoundRobinPacketQueue.View, RoundRobinPacketQueue.Valid, RoundRobinPacketQueue.ContainersAgree,
        RoundRobinPacketQueue.Head, ItemSize;
      item := packetQueue.Head();
      sent := sent + multiset{item};
      packet, item := packetQueue.Pop();
    }

    lemma BytesAgree(item: Item)
      requires Valid()
      ensures PacketBytes(item.packet) == packetQueue.PacketSize(item)
    {
    }

    lemma QueueFacts()
      requires Valid()
      ensures packetQueue.Valid() && packetQueue.ContainersAgree() && packetQueue.size >= 0
    {
      packetQueue.SumsAreNonNegative();
      packetQueue.ValidContainers();
    }

    /** Handing a packet over keeps everything else that was promised. */
    twostate lemma HandedOver(item: Item)
      requires old(Valid()) && packetQueue.Valid()
      requires item in old(packetQueue.bag) && packetQueue.bag == old(packetQueue.bag) - multiset{item}
      requires sent == old(sent) + multiset{item}
      requires unchanged(`enqueued, `packetCounter, `lastTimestamp, `lastProcessTime, `credited, `transportOverhead, `includeOverhead, `log, `paused)
      requires unchanged(mediaBudget, paddingBudget, prober, outside)
      requires unchanged(packetQueue`timeLastUpdated, packetQueue`includeOverhead, packetQueue`transportOverhead, packetQueue`paused)
      ensures Valid() && FitsDatagram(item.packet) && packetQueue.size >= 0 && packetCounter > 0
      ensures PacketBytes(item.packet) == packetQueue.PacketSize(item)
    {
      hide Balanced, IB.IntervalBudget.Valid, BP.BitrateProber.Valid, BP.BitrateProber.Steady, Outside.WellBehaved, ItemSize,
        RoundRobinPacketQueue.Valid, RoundRobinPacketQueue.ContainersAgree, SentOk;
      BalancedAfterPop(enqueued, old(packetQueue.bag), old(sent), packetCounter, item);
      QueueFacts();
      BytesAgree(item);
    }

    /** Whether the next packet may go: probes and unpaced audio always may; others need an open
        window and budget left. */
    predicate MayGo(mediaType: MediaType, isProbe: bool)
      reads `congestionWindow, `outstandingData, mediaBudget`remaining
    {
      isProbe || (!paceAudio && mediaType == Audio) || (!Congested() && mediaBudget.remaining > 0)
    }

    /** Why the next packet does not go: it is no probe, nor unpaced audio, and the
        window is closed or the budget is used up. */
    ghost predicate HeldBack(isProbe: bool)
      reads `congestionWindow, `outstandingData, mediaBudget`remaining, packetQueue
    {
      && !isProbe && (Congested() || mediaBudget.remaining <= 0)
      && (paceAudio || (packetQueue.ContainersAgree() && packetQueue.bag != multiset{} && packetQueue.Head().packet.mediaType != Audio))
    }

    method NextMayGo(isProbe: bool) returns (go: bool)
      requires packetQueue.ContainersAgree() && packetQueue.bag != multiset{}
      ensures go == MayGo(packetQueue.Head().packet.mediaType, isProbe) && (!go ==> HeldBack(isProbe))
    {
      hide RoundRobinPacketQueue.ContainersAgree, RoundRobinPacketQueue.Head;
      var unpacedAudioPacket := !paceAudio && packetQueue.LeadingAudioPacketEnqueueTime().Some?;
      if !unpacedAudioPacket && !isProbe {
        if Congested() {
          return false;
        }
        if mediaBudget.BytesRemaining() <= 0 {
          return false;
        }
      }
      go := true;
    }

    /** Hands over the next packet, and keeps what was promised. */
    method Release() returns (packet: RtpPacket, ghost item: Item)
      requires Valid() && packetQueue.ContainersAgree() && packetQueue.bag != multiset{}
      modifies `sent, packetQueue
      ensures Valid() && packetQueue.size >= 0 && packetCounter > 0
      ensures item == old(packetQueue.Head()) && packet == item.packet && PopChoice(old(packetQueue.View()), item)
      ensures item in old(packetQueue.bag) && FitsDatagram(item.packet)
      ensures packetQueue.bag == old(packetQueue.bag) - multiset{item} && sent == old(sent) + multiset{item}
      ensures packetQueue.size == old(packetQueue.size) - PacketBytes(item.packet)
    {
      hide PopChoice, RoundRobinPacketQueue.View, PacingController.Valid, RoundRobinPacketQueue.Valid, RoundRobinPacketQueue.ContainersAgree,
        RoundRobinPacketQueue.Head, ItemSize, WireSize, FitsDatagram;
      QueueFacts();
      packet, item := HandOver();
      HandedOver(item);
    }

    /** Hands over the next packet unless there is a reason not to send it. */
    method GetPendingPacket(isProbe: bool) returns (packet: Option<RtpPacket>, ghost item: Item)
      requires Valid()
      modifies `sent, packetQueue
      ensures Valid() && packetQueue.size >= 0
      ensures packet.None? ==> unchanged(`sent, packetQueue)
      ensures packet.None? && packetQueue.bag != multiset{} ==> HeldBack(isProbe)
      ensures packet.Some? ==> item in old(packetQueue.bag) && packet.value == item.packet && FitsDatagram(item.packet)
      ensures packet.Some? ==> packetQueue.bag == old(packetQueue.bag) - multiset{item} && sent == old(sent) + multiset{item}
      ensures packet.Some? ==> packetQueue.size == old(packetQueue.size) - PacketBytes(item.packet)
      ensures packet.Some? ==> MayGo(item.packet.mediaType, isProbe) && packetCounter > 0
      ensures packet.Some? ==> PopChoice(old(packetQueue.View()), item)
    {
      hide PopChoice, RoundRobinPacketQueue.View, PacingController.Valid, RoundRobinPacketQueue.Valid, RoundRobinPacketQueue.ContainersAgree, RoundRobinPacketQueue.Head, ItemSize, WireSize,
        FitsDatagram, Congested, HeldBack;
      QueueFacts();
      if packetQueue.Empty() {
        return None, *;
      }
      var go := NextMayGo(isProbe);
      if !go {
        return None, *;
      }
      var popped;
      popped, item := Release();
      packet := Some(popped);
    }

    /** Whether a packet sent is charged to the budgets and the outstanding data. */
    predicate Counted(mediaType: MediaType)
      reads `accountForAudio
    {
      mediaType != Audio || accountForAudio
    }

    /** The remainder of a budget after a packet of that type. */
    ghost function DrawnBy(mediaType: MediaType, budget: IB.IntervalBudget, remaining: int, bytes: nat): int
      reads `accountForAudio, budget`maxBytesInBudget
    {
      if Counted(mediaType) then Max(remaining - bytes, -budget.maxBytesInBudget) else remaining
    }

    method OnPacketSent(mediaType: MediaType, packetSize: nat, sendTime: int)
      requires Valid() && packetSize < 0x8000_0000 && packetCounter > 0 && OnTime(sendTime)
      modifies `firstSentPacketTime, `lastSendTime, `lastProcessTime, `outstandingData,
        mediaBudget`remaining, mediaBudget`history, paddingBudget`remaining, paddingBudget`history
      ensures Valid()
      ensures lastSendTime == lastProcessTime == sendTime
      ensures outstandingData == old(outstandingData) + (if Counted(mediaType) then packetSize else 0)
      ensures paddingBudget.remaining == DrawnBy(mediaType, paddingBudget, old(paddingBudget.remaining), packetSize)
      ensures mediaBudget.remaining == DrawnBy(mediaType, mediaBudget, old(mediaBudget.remaining), packetSize)
      ensures mediaBudget.history == old(mediaBudget.history) + Draws(Counted(mediaType), packetSize)
      ensures paddingBudget.history == old(paddingBudget.history) + Draws(Counted(mediaType), packetSize)
      ensures IB.Sent(mediaBudget.history) == old(IB.Sent(mediaBudget.history)) + if Counted(mediaType) then packetSize else 0
    {
      hide Valid, IB.IntervalBudget.Valid, IB.Sent, IB.Elapsed;
      BudgetsValid();
      TimesKnown();
      if firstSentPacketTime.None? {
        firstSentPacketTime := Some(sendTime);
      }
      if mediaType != Audio || accountForAudio {
        UpdateBudgetWithSentData(packetSize);
      }
      lastSendTime := sendTime;
      lastProcessTime := sendTime;
      BudgetsChanged();
    }

    /** Both budgets drawn by some bytes. */
    ghost predicate DrawnFor(bytes: nat, media: int, padding: int)
      reads mediaBudget, paddingBudget
    {
      && mediaBudget.remaining == Max(media - bytes, -mediaBudget.maxBytesInBudget)
      && paddingBudget.remaining == Max(padding - bytes, -paddingBudget.maxBytesInBudget)
    }

    lemma BudgetsInWindow()
      requires Valid()
      ensures mediaBudget.remaining >= -mediaBudget.maxBytesInBudget && paddingBudget.remaining >= -paddingBudget.maxBytesInBudget
    {
      hide RoundRobinPacketQueue.Valid, Balanced, BP.BitrateProber.Valid, BP.BitrateProber.Steady, SentOk, Outside.WellBehaved;
    }

    method OnPaddingSent(dataSent: nat)
      requires Valid() && packetCounter > 0 && dataSent < 0x8000_0000
      modifies `lastTimestamp, `lastSendTime, `lastProcessTime, `outstandingData, outside`clockReads,
        mediaBudget`remaining, mediaBudget`history, paddingBudget`remaining, paddingBudget`history
      ensures Valid() && outstandingData == old(outstandingData) + dataSent
      ensures lastSendTime == lastProcessTime == lastTimestamp >= old(lastTimestamp) && lastProcessTime >= old(lastProcessTime)
      ensures DrawnFor(dataSent, old(mediaBudget.remaining), old(paddingBudget.remaining))
      ensures mediaBudget.history == old(mediaBudget.history) + Draws(dataSent > 0, dataSent)
      ensures paddingBudget.history == old(paddingBudget.history) + Draws(dataSent > 0, dataSent)
    {
      hide Valid, IB.IntervalBudget.Valid, IB.Sent, IB.Elapsed;
      BudgetsValid();
      TimesKnown();
      BudgetsInWindow();
      if dataSent > 0 {
        UpdateBudgetWithSentData(dataSent);
      }
      var now := CurrentTime();
      lastSendTime := now;
      lastProcessTime := now;
      BudgetsChanged();
    }

    /** Logs a send. */
    ghost method Record(r: Sent)
      requires Valid() && SentOk(r) && CountedBytes(log) <= IB.Sent(r.history)
      requires CountedBytes(log) + (if r.counted then r.size else 0) <= IB.Sent(mediaBudget.history)
      requires CreditedWithin(r.history, r.time - packetQueue.startTime)
      modifies `log
      ensures Valid() && log == old(log) + [r] && BytesLogged(log) == old(BytesLogged(log)) + r.size
    {
      hide RoundRobinPacketQueue.Valid, Balanced, BP.BitrateProber.Valid, BP.BitrateProber.Steady, IB.IntervalBudget.Valid, Outside.WellBehaved, BytesLogged, CountedBytes, ChargedBefore,
        CreditedWithin, IB.Sent, SentOk;
      OneMoreLogged(log, r);
      OneMoreCharged(log, packetQueue.startTime, r);
      log := log + [r];
    }

    /** Draws the budgets for a packet sent, and logs it. */
    method Book(packet: RtpPacket, isProbe: bool, sendTime: int, ghost item: Item, ghost queued: Sched) returns (packetSize: nat)
      requires Valid() && packetCounter > 0 && packet == item.packet && FitsDatagram(packet)
      requires MayGo(packet.mediaType, isProbe) && PopChoice(queued, item) && AllRanked(queued.bag) && OnTime(sendTime)
      modifies `firstSentPacketTime, `lastSendTime, `lastProcessTime, `outstandingData, `log,
        mediaBudget`remaining, mediaBudget`history, paddingBudget`remaining, paddingBudget`history
      ensures Valid() && packetSize == PacketBytes(packet)
      ensures packetSize == packet.payloadSize + packet.paddingSize + if includeOverhead then packet.headersSize + transportOverhead else 0
      ensures paddingBudget.remaining == DrawnBy(packet.mediaType, paddingBudget, old(paddingBudget.remaining), packetSize)
      ensures mediaBudget.remaining == DrawnBy(packet.mediaType, mediaBudget, old(mediaBudget.remaining), packetSize)
      ensures outstandingData == old(outstandingData) + (if Counted(packet.mediaType) then packetSize else 0)
      ensures log == old(log) + [Sent(item, queued, packetSize, isProbe, paceAudio, Counted(packet.mediaType), old(mediaBudget.remaining),
                                      old(mediaBudget.history), old(paddingBudget.history), congestionWindow, sendTime, old(outstandingData), outstandingData)]
      ensures mediaBudget.history == old(mediaBudget.history) + Draws(Counted(packet.mediaType), packetSize)
      ensures paddingBudget.history == old(paddingBudget.history) + Draws(Counted(packet.mediaType), packetSize)
      ensures BytesLogged(log) == old(BytesLogged(log)) + packetSize
    {
      hide Valid, BytesLogged, CountedBytes, IB.Sent, IB.After, PopChoice, AllRanked, DrawnBy, Draws;
      PartsFacts();
      packetSize := PacketBytes(packet);
      ghost var before, budget, history, padding := outstandingData, mediaBudget.remaining, mediaBudget.history, paddingBudget.history;
      OnPacketSent(packet.mediaType, packetSize, sendTime);
      ghost var record := Sent(item, queued, packetSize, isProbe, paceAudio, Counted(packet.mediaType),
                               budget, history, padding, congestionWindow, sendTime, before, outstandingData);
      Record(record);
    }

    /** Sends a packet that was handed over, enqueues the error-correction packets made from it,
        and draws the budgets. */
    method SendPending(packet: RtpPacket, isProbe: bool, sendTime: int, ghost item: Item, ghost queued: Sched) returns (packetSize: nat)
      requires Valid() && packetCounter > 0 && packet == item.packet && FitsDatagram(packet)
      requires MayGo(packet.mediaType, isProbe) && PopChoice(queued, item) && AllRanked(queued.bag) && OnTime(sendTime)
      modifies `lastTimestamp, `packetCounter, `enqueued, `firstSentPacketTime, `lastSendTime, `lastProcessTime,
        `outstandingData, `log, outside`clockReads, outside`sends, packetQueue, mediaBudget`remaining,
        mediaBudget`history, paddingBudget`remaining, paddingBudget`history, prober`probingState, prober`nextProbeTime
      ensures Valid() && packetSize == PacketBytes(packet)
      ensures old(prober.IsProbing()) ==> prober.IsProbing()
      ensures old(outside.FecLeft()) > 0 ==> outside.FecLeft() < old(outside.FecLeft())
      ensures old(outside.FecLeft()) == 0 ==> outside.FecLeft() == 0 && packetQueue.bag == old(packetQueue.bag)
      ensures old(outside.FecLeft()) == 0 ==> packetQueue.size == old(packetQueue.size)
      ensures paddingBudget.remaining == DrawnBy(packet.mediaType, paddingBudget, old(paddingBudget.remaining), packetSize)
      ensures mediaBudget.remaining == DrawnBy(packet.mediaType, mediaBudget, old(mediaBudget.remaining), packetSize)
      ensures outstandingData == old(outstandingData) + (if Counted(packet.mediaType) then packetSize else 0)
      ensures old(enqueued) <= enqueued && old(packetQueue.bag) <= packetQueue.bag && lastTimestamp >= old(lastTimestamp)
      ensures log == old(log) + [Sent(item, queued, packetSize, isProbe, paceAudio, Counted(packet.mediaType), old(mediaBudget.remaining),
                                      old(mediaBudget.history), old(paddingBudget.history), congestionWindow, sendTime, old(outstandingData), outstandingData)]
      ensures mediaBudget.history == old(mediaBudget.history) + Draws(Counted(packet.mediaType), packetSize)
      ensures paddingBudget.history == old(paddingBudget.history) + Draws(Counted(packet.mediaType), packetSize)
      ensures BytesLogged(log) == old(BytesLogged(log)) + packetSize
    {
      hide Valid, BytesLogged, CountedBytes, IB.Sent, IB.After, PopChoice, AllRanked, Outside.WellBehaved, Outside.Latest, BytesOf, Draws, PacketBytes, MayGo,
        DrawnBy, Counted, FitsDatagram;
      PartsFacts();
      NoBytesOfNothing(includeOverhead, transportOverhead);
      var fec := outside.SendAndFetchFec(packet);
      EnqueueAll(fec);
      packetSize := Book(packet, isProbe, sendTime, item, queued);
    }

    /** What the probe or the padding budget still asks for, beyond what is already queued. */
    ghost function Credit(padded: bool, recommendedProbeSize: nat, dataSent: nat): nat
      reads packetQueue`size, paddingBudget`remaining
    {
      if padded then Max(0, Wanted(recommendedProbeSize, dataSent) - packetQueue.size) else 0
    }

    ghost function Wanted(recommendedProbeSize: nat, dataSent: int): int
      reads paddingBudget`remaining
    {
      if recommendedProbeSize > 0 then recommendedProbeSize - dataSent else paddingBudget.remaining
    }

    /** Before the first packet of a probe: one small padding packet, ahead of everything queued. */
    method PadProbe() returns (ghost added: Option<Item>)
      requires Valid() && packetCounter > 0
      modifies `lastTimestamp, `packetCounter, `enqueued, outside`clockReads, outside`paddingCalls, packetQueue,
        prober`probingState, prober`nextProbeTime
      ensures Valid() && old(enqueued) <= enqueued && lastTimestamp >= old(lastTimestamp)
      ensures added.None? ==> packetQueue.bag == old(packetQueue.bag)
      ensures added.Some? ==> packetQueue.bag == old(packetQueue.bag) + multiset{added.value}
      ensures added.Some? ==> added.value.priority == FIRST_PRIORITY && IsPadding(added.value.packet)
      ensures old(prober.IsProbing()) ==> prober.IsProbing()
    {
      hide RoundRobinPacketQueue.Valid, Balanced, BP.BitrateProber.Valid, BP.BitrateProber.Steady, SentOk;
      var padding := outside.GeneratePadding(1);
      added := None;
      if |padding| > 0 {
        assert padding[0] in padding;
        var checkFailed; ghost var item;
        checkFailed, item := EnqueuePacketInternal(padding[0], FIRST_PRIORITY);
        added := Some(item);
      }
    }

    /** Why an empty queue stays empty: the window is closed, or nothing was ever enqueued, or neither
        the probe nor the padding budget asks for more, or no padding was to be had. */
    ghost predicate NothingToAdd(recommendedProbeSize: nat, dataSent: int)
      reads `congestionWindow, `outstandingData, `packetCounter, paddingBudget`remaining, outside`paddingCalls
    {
      var wanted := Wanted(recommendedProbeSize, dataSent);
      Congested() || packetCounter == 0 || wanted <= 0 || (outside.paddingCalls > 0 && outside.padding(outside.paddingCalls - 1, wanted) == [])
    }

    /** Asks for padding if the queue ran empty; tells whether any was enqueued. */
    method AddPadding(recommendedProbeSize: nat, dataSent: nat) returns (added: bool)
      requires Valid()
      modifies `lastTimestamp, `packetCounter, `enqueued, outside`clockReads, outside`paddingCalls, packetQueue,
        prober`probingState, prober`nextProbeTime
      ensures Valid() && old(enqueued) <= enqueued && old(packetQueue.bag) <= packetQueue.bag
      ensures lastTimestamp >= old(lastTimestamp) && (old(packetCounter) == 0 ==> packetCounter == 0)
      ensures old(prober.IsProbing()) ==> prober.IsProbing()
      ensures added ==> OnlyPadding(packetQueue.bag) && packetQueue.size > old(packetQueue.size) == 0
      ensures !added ==> unchanged(packetQueue, `packetCounter, `lastTimestamp)
      ensures !added && packetQueue.bag == multiset{} ==> NothingToAdd(recommendedProbeSize, dataSent)
      ensures added ==> Wanted(recommendedProbeSize, dataSent) > 0
    {
      hide Balanced, Ledger, ItemsOk, Containers, BP.BitrateProber.Valid, BP.BitrateProber.Steady, SentOk, Total;
      var paddingToAdd := PaddingToAdd(recommendedProbeSize, dataSent);
      if paddingToAdd == 0 {
        return false;
      }
      EmptyTotal(SizeOf(packetQueue.includeOverhead, packetQueue.transportOverhead));
      var padding := outside.GeneratePadding(paddingToAdd);
      if |padding| == 0 {
        return false;
      }
      EnqueueAll(padding);
      PaddingHasBytes(padding, includeOverhead, transportOverhead);
      added := true;
    }

    lemma QueuedRanked()
      requires Valid()
      ensures AllRanked(packetQueue.bag)
    {
      hide RoundRobinPacketQueue.Valid, BP.BitrateProber.Valid, BP.BitrateProber.Steady, SentOk, Outside.WellBehaved, Ranked;
      assert packetQueue.bag <= enqueued;
    }

    lemma PartsFacts()
      requires Valid()
      ensures paddingBudget.maxBytesInBudget >= 0 && mediaBudget.maxBytesInBudget >= 0 && outside.WellBehaved()
      ensures mediaBudget.remaining == IB.After(START, false, mediaBudget.history).remaining
      ensures CountedBytes(log) <= IB.Sent(mediaBudget.history) && transportOverhead <= MAX_OVERHEAD
      ensures CreditedWithin(mediaBudget.history, credited)
    {
    }

    ghost function Reading(): Meter
      reads `outstandingData, mediaBudget`history, paddingBudget`history, packetQueue`bag
    {
      Meter(outstandingData, mediaBudget.history, paddingBudget.history, packetQueue.bag)
    }

    /** Fetches the next packet and, if there is one to send now, sends it. */
    method SendNext(isProbe: bool, sendTime: int) returns (packetSize: Option<nat>, ghost item: Item)
      requires Valid() && (isProbe ==> prober.IsProbing()) && OnTime(sendTime)
      modifies `lastTimestamp, `packetCounter, `enqueued, `sent, `firstSentPacketTime, `lastSendTime, `lastProcessTime,
        `outstandingData, `log, outside`clockReads, outside`sends, packetQueue,
        mediaBudget`remaining, mediaBudget`history, paddingBudget`remaining, paddingBudget`history, prober`probingState, prober`nextProbeTime
      ensures Valid() && (isProbe ==> prober.IsProbing())
      ensures old(enqueued) <= enqueued && (if packetSize.Some? then sent == old(sent) + multiset{item} else sent == old(sent))
      ensures packetSize.None? ==> enqueued == old(enqueued) && outstandingData == old(outstandingData)
      ensures packetSize.Some? ==> mediaBudget.history == old(mediaBudget.history) + Draws(Counted(item.packet.mediaType), packetSize.value)
      ensures packetSize.Some? ==> paddingBudget.history == old(paddingBudget.history) + Draws(Counted(item.packet.mediaType), packetSize.value)
      ensures packetSize.Some? ==> old(packetQueue.bag) - multiset{item} <= packetQueue.bag
      ensures packetSize.None? ==> log == old(log) && unchanged(packetQueue, mediaBudget, paddingBudget, outside)
      ensures packetSize.None? && packetQueue.bag != multiset{} ==> HeldBack(isProbe)
      ensures packetSize.Some? ==> item in old(packetQueue.bag) && packetSize.value == old(PacketBytes(item.packet))
      ensures packetSize.Some? ==> BytesLogged(log) == old(BytesLogged(log)) + packetSize.value
      ensures packetSize.Some? && old(outside.FecLeft()) > 0 ==> outside.FecLeft() < old(outside.FecLeft())
      ensures packetSize.Some? && old(outside.FecLeft()) == 0 ==>
        outside.FecLeft() == 0 && packetQueue.bag == old(packetQueue.bag) - multiset{item} &&
        0 <= packetQueue.size == old(packetQueue.size) - packetSize.value
      ensures packetSize.Some? && item.packet.mediaType != Audio ==>
        paddingBudget.remaining <= Max(old(paddingBudget.remaining) - packetSize.value, 0)
      ensures packetSize.Some? ==> PopChoice(old(packetQueue.View()), item)
      ensures packetSize.Some? ==> (log == old(log) +
        [Sent(item, old(packetQueue.View()), packetSize.value, isProbe, paceAudio, Counted(item.packet.mediaType), old(mediaBudget.remaining),
              old(mediaBudget.history), old(paddingBudget.history), congestionWindow, sendTime, old(outstandingData), outstandingData)])
      ensures OnTime(sendTime) && lastTimestamp >= old(lastTimestamp)
    {
      hide Valid, SentOk, AllRanked, HeldBack, BytesLogged, CountedBytes, CreditedWithin, IB.Sent, IB.After, PopChoice, RoundRobinPacketQueue.Valid,
        RoundRobinPacketQueue.View, Outside.WellBehaved, Draws, MayGo, PacketBytes, Congested;
      PartsFacts();
      packetQueue.ViewShowsBag();
      QueuedRanked();
      ghost var queued := packetQueue.View();
      var packet;
      packet, item := GetPendingPacket(isProbe);
      if packet.None? {
        return None, item;
      }
      var bytes := SendPending(packet.value, isProbe, sendTime, item, queued);
      packetSize := Some(bytes);
    }

    /** The order in which the send loop comes to its end. */
    static ghost predicate Nearer(fec: nat, padded: bool, credit: nat, queued: nat, fec': nat, padded': bool, credit': nat, queued': nat) {
      fec' < fec || (fec' == fec &&
        ((padded' && !padded) || (padded' == padded && (credit' < credit || (credit' == credit && queued' < queued)))))
    }

    /** Padding starts or uses up credit. */
    static lemma PaddingIsNearer(fec: nat, padded: bool, want: int, size: int, queued: nat, want': int, size': int, queued': nat)
      requires want' == want > 0 && size' > size == 0
      ensures Nearer(fec, padded, if padded then Max(0, want - size) else 0, queued, fec, true, Max(0, want' - size'), queued')
    {
    }

    /** A send uses up error correction, or else a packet of the queue while the credit does not grow. */
    static lemma SendingIsNearer(fec: nat, padded: bool, want: int, size: int, queued: nat, fec': nat, want': int, size': int, queued': nat, bytes: nat)
      requires if fec > 0 then fec' < fec else fec' == 0 && queued' < queued && 0 <= size' == size - bytes
      requires padded ==> want' <= Max(want - bytes, 0)
      ensures Nearer(fec, padded, if padded then Max(0, want - size) else 0, queued,
                     fec', padded && fec == 0, if padded && fec == 0 then Max(0, want' - size') else 0, queued')
    {
    }

    /** The same, as a step of the loop: nothing to send now, and nothing changed; or one send more,
        which brought the end nearer. */
    method SendStep(isProbe: bool, recommendedProbeSize: nat, sendTime: int, dataSent: nat, ghost padded: bool) returns (packetSize: Option<nat>)
      requires Valid() && (isProbe ==> prober.IsProbing()) && OnTime(sendTime) && (padded ==> OnlyPadding(packetQueue.bag))
      modifies `lastTimestamp, `packetCounter, `enqueued, `sent, `firstSentPacketTime, `lastSendTime, `lastProcessTime,
        `outstandingData, `log, outside`clockReads, outside`sends, packetQueue,
        mediaBudget`remaining, mediaBudget`history, paddingBudget`remaining, paddingBudget`history, prober`probingState, prober`nextProbeTime
      ensures Valid() && (isProbe ==> prober.IsProbing())
      ensures Progress(old(enqueued), old(sent), old(log), enqueued, sent, log)
      ensures OnTime(sendTime) && lastTimestamp >= old(lastTimestamp) && old(log) <= log && |log| <= |old(log)| + 1
      ensures RoundSends(log, |old(log)|, Round(isProbe, paceAudio, congestionWindow, sendTime), old(Reading()), Reading())
      ensures packetSize.None? ==> log == old(log) && unchanged(packetQueue, mediaBudget, paddingBudget, outside)
      ensures packetSize.None? && packetQueue.bag != multiset{} ==> HeldBack(isProbe)
      ensures packetSize.Some? ==> BytesLogged(log) == old(BytesLogged(log)) + packetSize.value && |log| == |old(log)| + 1
      ensures packetSize.Some? ==> Nearer(old(outside.FecLeft()), padded, old(Credit(padded, recommendedProbeSize, dataSent)), |old(packetQueue.bag)|,
                                          outside.FecLeft(), padded && old(outside.FecLeft()) == 0,
                                          Credit(padded && old(outside.FecLeft()) == 0, recommendedProbeSize, dataSent + packetSize.value), |packetQueue.bag|)
      ensures packetSize.Some? && padded && old(outside.FecLeft()) == 0 ==> OnlyPadding(packetQueue.bag)
    {
      hide Valid, SentOk, BytesLogged, PopChoice, RoundRobinPacketQueue.View, RoundSends, Draws, Progress, PacketBytes, Congested, Counted, OnlyPadding,
        Nearer;
      packetQueue.ViewShowsBag();
      ghost var queued, fec, want, size := packetQueue.bag, outside.FecLeft(), Wanted(recommendedProbeSize, dataSent), packetQueue.size;
      ghost var item;
      packetSize, item := SendNext(isProbe, sendTime);
      ghost var round := Round(isProbe, paceAudio, congestionWindow, sendTime);
      if packetSize.None? {
        NoSends(log, round, Reading());
        NoProgress(enqueued, sent, log);
      } else {
        OneMoreSent(old(enqueued), old(sent), old(log), enqueued, item, log[|old(log)|]);
        OneSend(old(log), log[|old(log)|], round, old(Reading()), Reading());
        if padded {
          StillOnlyPadding(queued, item);
        }
        SendingIsNearer(fec, padded, want, size, |queued|, outside.FecLeft(), Wanted(recommendedProbeSize, dataSent + packetSize.value),
                        packetQueue.size, |packetQueue.bag|, packetSize.value);
      }
    }

    /** With nothing to send now, padding is added, which brings the end nearer, or the loop ends. */
    method PadStep(ghost isProbe: bool, recommendedProbeSize: nat, dataSent: nat, ghost padded: bool) returns (more: bool)
      requires Valid() && (packetQueue.bag != multiset{} ==> HeldBack(isProbe))
      modifies `lastTimestamp, `packetCounter, `enqueued, outside`clockReads, outside`paddingCalls, packetQueue,
        prober`probingState, prober`nextProbeTime
      ensures Valid() && old(enqueued) <= enqueued && old(packetQueue.bag) <= packetQueue.bag
      ensures lastTimestamp >= old(lastTimestamp) && (old(packetCounter) == 0 ==> packetCounter == 0)
      ensures old(prober.IsProbing()) ==> prober.IsProbing()
      ensures more ==> OnlyPadding(packetQueue.bag)
      ensures !more ==> if packetQueue.bag == multiset{} then NothingToAdd(recommendedProbeSize, dataSent) else HeldBack(isProbe)
      ensures more ==> Nearer(outside.FecLeft(), padded, old(Credit(padded, recommendedProbeSize, dataSent)), |old(packetQueue.bag)|,
                              outside.FecLeft(), true, Credit(true, recommendedProbeSize, dataSent), |packetQueue.bag|)
    {
      hide Valid, OnlyPadding, Nearer, NothingToAdd, HeldBack;
      ghost var queued, size := packetQueue.bag, packetQueue.size;
      more := AddPadding(recommendedProbeSize, dataSent);
      if more {
        PaddingIsNearer(outside.FecLeft(), padded, Wanted(recommendedProbeSize, dataSent), size, |queued|,
                        Wanted(recommendedProbeSize, dataSent), packetQueue.size, |packetQueue.bag|);
      }
    }

    /** Why the send loop may end, when the records up to `sent` were there before: something was sent
        and the probe got its bytes, or nothing is queued nor to be added, or the next packet is held back. */
    ghost predicate Done(isProbe: bool, recommendedProbeSize: nat, dataSent: int, sent: nat)
      reads `congestionWindow, `outstandingData, `packetCounter, `log, packetQueue, mediaBudget`remaining, paddingBudget`remaining, outside`paddingCalls
    {
      || (isProbe && |log| > sent && dataSent >= recommendedProbeSize)
      || (if packetQueue.bag == multiset{} then NothingToAdd(recommendedProbeSize, dataSent) else HeldBack(isProbe))
    }

    /** A reason counts for a longer run too. */
    lemma DoneSince(isProbe: bool, recommendedProbeSize: nat, dataSent: int, earlier: nat, sent: nat)
      requires Done(isProbe, recommendedProbeSize, dataSent, sent) && earlier <= sent
      ensures Done(isProbe, recommendedProbeSize, dataSent, earlier)
    {
    }

    /** One round of the send loop: hands over and sends a packet, or adds padding. Tells whether
        to go on, and if so, that the round came closer to the end: error correction was used up,
        or padding started, or credit was used up, or a packet left the queue. */
    method SendRound(isProbe: bool, recommendedProbeSize: nat, sendTime: int, dataSent: nat, ghost padded: bool)
      returns (more: bool, dataSent': nat, ghost padded': bool)
      requires Valid() && (isProbe ==> prober.IsProbing()) && OnTime(sendTime)
      requires padded ==> OnlyPadding(packetQueue.bag)
      modifies `lastTimestamp, `packetCounter, `enqueued, `sent, `firstSentPacketTime, `lastSendTime, `lastProcessTime,
        `outstandingData, `log, outside`clockReads, outside`paddingCalls, outside`sends, packetQueue,
        mediaBudget`remaining, mediaBudget`history, paddingBudget`remaining, paddingBudget`history, prober`probingState, prober`nextProbeTime
      ensures Valid() && (isProbe ==> prober.IsProbing())
      ensures padded' ==> OnlyPadding(packetQueue.bag)
      ensures Progress(old(enqueued), old(sent), old(log), enqueued, sent, log)
      ensures dataSent' - dataSent == BytesLogged(log) - old(BytesLogged(log))
      ensures OnTime(sendTime) && lastTimestamp >= old(lastTimestamp) && old(log) <= log && |log| <= |old(log)| + 1
      ensures RoundSends(log, |old(log)|, Round(isProbe, paceAudio, congestionWindow, sendTime), old(Reading()), Reading())
      ensures !more ==> Done(isProbe, recommendedProbeSize, dataSent', |old(log)|)
      ensures more ==> Nearer(old(outside.FecLeft()), padded, old(Credit(padded, recommendedProbeSize, dataSent)), |old(packetQueue.bag)|,
                              outside.FecLeft(), padded', Credit(padded', recommendedProbeSize, dataSent'), |packetQueue.bag|)
    {
      hide Valid, OnlyPadding, BytesLogged, RoundSends, Progress, Credit, Nearer, HeldBack, NothingToAdd;
      dataSent', padded' := dataSent, padded;
      var packetSize := SendStep(isProbe, recommendedProbeSize, sendTime, dataSent, padded);
      if packetSize.None? {
        ghost var before, enqueued1 := Reading(), enqueued;
        more := PadStep(isProbe, recommendedProbeSize, dataSent, padded);
        SendsLater(log, |old(log)|, Round(isProbe, paceAudio, congestionWindow, sendTime), old(Reading()), before, Reading());
        MoreEnqueued(old(enqueued), old(sent), old(log), enqueued1, sent, log, enqueued);
        padded' := more;
        return;
      }
      padded' := padded && old(outside.FecLeft()) == 0;
      dataSent' := dataSent + packetSize.value;
      more := !(isProbe && dataSent' >= recommendedProbeSize);
    }

    lemma ProbingMeansEnqueued()
      requires Valid() && prober.IsProbing()
      ensures packetCounter > 0
    {
    }

    /** The body of the send loop: the first time in a probe a small padding packet goes first. */
    method LoopBody(isProbe: bool, recommendedProbeSize: nat, first: bool, sendTime: int, dataSent: nat, ghost padded: bool)
      returns (more: bool, dataSent': nat, ghost padded': bool)
      requires Valid() && (isProbe ==> prober.IsProbing()) && (first ==> isProbe) && OnTime(sendTime)
      requires padded ==> OnlyPadding(packetQueue.bag)
      modifies `lastTimestamp, `packetCounter, `enqueued, `sent, `firstSentPacketTime, `lastSendTime, `lastProcessTime,
        `outstandingData, `log, outside`clockReads, outside`paddingCalls, outside`sends, packetQueue,
        mediaBudget`remaining, mediaBudget`history, paddingBudget`remaining, paddingBudget`history, prober`probingState, prober`nextProbeTime
      ensures Valid() && (isProbe ==> prober.IsProbing())
      ensures padded' ==> OnlyPadding(packetQueue.bag)
      ensures Progress(old(enqueued), old(sent), old(log), enqueued, sent, log)
      ensures dataSent' - dataSent == BytesLogged(log) - old(BytesLogged(log))
      ensures OnTime(sendTime) && lastTimestamp >= old(lastTimestamp) && old(log) <= log && |log| <= |old(log)| + 1
      ensures RoundSends(log, |old(log)|, Round(isProbe, paceAudio, congestionWindow, sendTime), old(Reading()), Reading())
      ensures !more ==> Done(isProbe, recommendedProbeSize, dataSent', |old(log)|)
      ensures more && first ==> outside.FecLeft() <= old(outside.FecLeft())
      ensures more && !first ==>
        Nearer(old(outside.FecLeft()), padded, old(Credit(padded, recommendedProbeSize, dataSent)), |old(packetQueue.bag)|,
               outside.FecLeft(), padded', Credit(padded', recommendedProbeSize, dataSent'), |packetQueue.bag|)
    {
      hide Valid, OnlyPadding, Done, BytesLogged, RoundSends, Progress, Credit, IsPadding;
      if !first {
        more, dataSent', padded' := SendRound(isProbe, recommendedProbeSize, sendTime, dataSent, padded);
        return;
      }
      ProbingMeansEnqueued();
      ghost var added := PadProbe();
      ghost var enqueued1, log1, reading := enqueued, log, Reading();
      more, dataSent', padded' := SendRound(isProbe, recommendedProbeSize, sendTime, dataSent, false);
      SendsSince(log, |log1|, Round(isProbe, paceAudio, congestionWindow, sendTime), old(Reading()), reading, Reading());
      FewerEnqueued(old(enqueued), enqueued1, old(sent), log1, enqueued, sent, log);
    }

    /** The send loop. It ends for every queue, budget and probe: after the error correction has
        run out and the packets queued at first are sent, each round of padding uses up credit. */
    method SendLoop(isProbe: bool, recommendedProbeSize: nat, firstInProbe: bool, sendTime: int) returns (dataSent: nat)
      requires Valid() && (isProbe ==> prober.IsProbing()) && (firstInProbe ==> isProbe) && OnTime(sendTime)
      modifies `lastTimestamp, `packetCounter, `enqueued, `sent, `firstSentPacketTime, `lastSendTime, `lastProcessTime,
        `outstandingData, `log, outside`clockReads, outside`paddingCalls, outside`sends, packetQueue,
        mediaBudget`remaining, mediaBudget`history, paddingBudget`remaining, paddingBudget`history, prober`probingState, prober`nextProbeTime
      ensures Valid() && (isProbe ==> prober.IsProbing())
      ensures Progress(old(enqueued), old(sent), old(log), enqueued, sent, log)
      ensures dataSent == BytesLogged(log) - old(BytesLogged(log))
      ensures lastTimestamp >= old(lastTimestamp)
      ensures RoundSends(log, |old(log)|, Round(isProbe, paceAudio, congestionWindow, sendTime), old(Reading()), Reading())
      ensures paused || Done(isProbe, recommendedProbeSize, dataSent, |old(log)|)
    {
      hide Valid, SentOk, OnlyPadding, Done, BytesLogged, RoundSends, Progress, Credit;
      dataSent := 0;
      ghost var round := Round(isProbe, paceAudio, congestionWindow, sendTime);
      NoSends(log, round, Reading());
      NoProgress(enqueued, sent, log);
      var first := firstInProbe;
      ghost var padded, enqueued0, sent0, log0, reading0 := false, enqueued, sent, log, Reading();
      while !paused
        invariant Valid() && (isProbe ==> prober.IsProbing()) && (first ==> isProbe)
        invariant padded ==> OnlyPadding(packetQueue.bag)
        invariant Progress(enqueued0, sent0, log0, enqueued, sent, log)
        invariant dataSent == BytesLogged(log) - BytesLogged(log0)
        invariant OnTime(sendTime) && lastTimestamp >= old(lastTimestamp) && log0 <= log
        invariant RoundSends(log, |log0|, round, reading0, Reading())
        decreases outside.FecLeft(), first, !padded, Credit(padded, recommendedProbeSize, dataSent), |packetQueue.bag|
      {
        ghost var enqueued1, sent1, log1, reading1 := enqueued, sent, log, Reading();
        var more;
        more, dataSent, padded := LoopBody(isProbe, recommendedProbeSize, first, sendTime, dataSent, padded);
        first := false;
        SendsOn(log0, log1, log, round, reading0, reading1, Reading());
        ProgressOn(enqueued0, sent0, log0, enqueued1, sent1, log1, enqueued, sent, log);
        if !more {
          DoneSince(isProbe, recommendedProbeSize, dataSent, |log0|, |log1|);
          break;
        }
      }
    }

    // ----- Processing -----

    /** A keep-alive is due after half a second without a send if feedback might otherwise stop: in
        silence that is to be padded, while paused, with the window full, or before the first packet. */
    ghost predicate KeepaliveDue(now: int)
      reads `paused, `packetCounter, `lastSendTime, `congestionWindow, `outstandingData
    {
      now >= lastSendTime + CONGESTED_PACKET_INTERVAL &&
      (sendPaddingIfSilent || paused || packetCounter == 0 || (congestionWindow.Some? && congestionWindow.value <= outstandingData))
    }

    /** The error correction that the keep-alive leads to, if one is due. */
    ghost function KeepaliveFec(now: int): seq<RtpPacket>
      reads `paused, `packetCounter, `lastSendTime, `congestionWindow, `outstandingData, outside`sends, outside`paddingCalls
    {
      if KeepaliveDue(now) && packetCounter > 0
      then outside.FecFrom(outside.sends, |outside.padding(outside.paddingCalls, 1)|)
      else []
    }

    /** The bytes of padding the keep-alive sends, if one is due. */
    ghost function KeepaliveBytes(now: int): nat
      reads `paused, `packetCounter, `lastSendTime, `congestionWindow, `outstandingData, outside`paddingCalls
    {
      if KeepaliveDue(now) && packetCounter > 0 then PaddingBytes(outside.padding(outside.paddingCalls, 1)) else 0
    }

    /** Sends one packet of the keep-alive and enqueues the error correction made from it. */
    method SendPadding(packet: RtpPacket) returns (ghost fec: seq<RtpPacket>)
      requires Valid() && packetCounter > 0
      modifies `lastTimestamp, `packetCounter, `enqueued, outside`clockReads, outside`sends, packetQueue,
        prober`probingState, prober`nextProbeTime
      ensures Valid() && packetCounter > 0 && old(enqueued) <= enqueued && old(packetQueue.bag) <= packetQueue.bag
      ensures fec == outside.FecOf(old(outside.sends)) && outside.sends == old(outside.sends) + 1
      ensures outside.clockReads == old(outside.clockReads) + |fec|
      ensures lastTimestamp == outside.Latest(old(outside.clockReads), |fec|, old(lastTimestamp))
      ensures packetQueue.size == old(packetQueue.size) + BytesOf(fec, includeOverhead, transportOverhead)
      ensures packetQueue.timeLastUpdated == if fec == [] then old(packetQueue.timeLastUpdated) else lastTimestamp
      ensures fec == [] || old(prober.IsProbing()) ==> unchanged(prober)
      ensures !paused ==> packetQueue.pauseTimeSum == old(packetQueue.pauseTimeSum)
    {
      hide Valid, Outside.WellBehaved, Outside.Latest, WireSize;
      PartsFacts();
      var packets := outside.SendAndFetchFec(packet);
      EnqueueAll(packets);
      fec := packets;
    }

    /** Sends one byte's worth of padding so that feedback keeps coming, and enqueues the error
        correction made from it, each packet at its own reading of the clock. */
    method SendKeepalive(now: int)
      requires Valid() && packetCounter > 0 && now == lastTimestamp
      modifies `lastTimestamp, `packetCounter, `enqueued, `lastSendTime, `lastProcessTime, `outstandingData,
        outside`clockReads, outside`paddingCalls, outside`sends, packetQueue,
        mediaBudget`remaining, mediaBudget`history, paddingBudget`remaining, paddingBudget`history, prober`probingState, prober`nextProbeTime
      ensures Valid() && old(enqueued) <= enqueued && old(packetQueue.bag) <= packetQueue.bag
      ensures now <= lastTimestamp == lastSendTime && lastProcessTime >= old(lastProcessTime)
      ensures outside.paddingCalls == old(outside.paddingCalls) + 1
      ensures !paused ==> packetQueue.pauseTimeSum == old(packetQueue.pauseTimeSum)
      ensures var packets := old(outside.padding(outside.paddingCalls, 1));
        var fec := outside.FecFrom(old(outside.sends), |packets|);
        && outside.sends == old(outside.sends) + |packets|
        && outstandingData == old(outstandingData) + PaddingBytes(packets)
        && DrawnFor(PaddingBytes(packets), old(mediaBudget.remaining), old(paddingBudget.remaining))
        && mediaBudget.history == old(mediaBudget.history) + Draws(PaddingBytes(packets) > 0, PaddingBytes(packets))
        && paddingBudget.history == old(paddingBudget.history) + Draws(PaddingBytes(packets) > 0, PaddingBytes(packets))
        && packetQueue.size == old(packetQueue.size) + BytesOf(fec, includeOverhead, transportOverhead)
        && (fec == [] || old(prober.IsProbing()) ==> unchanged(prober))
        && packetQueue.timeLastUpdated == if fec == [] then old(packetQueue.timeLastUpdated) else outside.Latest(old(outside.clockReads), |fec|, now)
    {
      hide Valid, Outside.WellBehaved, Outside.FecFrom, Outside.Latest, IsPadding, BytesOf, PaddingBytes, CountedBytes, IB.Sent, IB.After,
        CreditedWithin, DrawnFor, Draws;
      PartsFacts();
      var packets := outside.GeneratePadding(1);
      var dataSent; ghost var fec;
      dataSent, fec := SendPaddings(packets);
      outside.LatestGrows(old(outside.clockReads), |fec|, now);
      OnPaddingSent(dataSent);
    }

    method SendPaddings(packets: seq<RtpPacket>) returns (dataSent: nat, ghost fec: seq<RtpPacket>)
      requires Valid() && packetCounter > 0 && |packets| <= MAX_PADDING_PACKETS && forall p :: p in packets ==> IsPadding(p)
      modifies `lastTimestamp, `packetCounter, `enqueued, outside`clockReads, outside`sends, packetQueue, prober`probingState, prober`nextProbeTime
      ensures Valid() && packetCounter > 0 && old(enqueued) <= enqueued && old(packetQueue.bag) <= packetQueue.bag
      ensures dataSent == PaddingBytes(packets) < 0x8000_0000 && fec == outside.FecFrom(old(outside.sends), |packets|)
      ensures outside.sends == old(outside.sends) + |packets| && outside.clockReads == old(outside.clockReads) + |fec|
      ensures lastTimestamp == outside.Latest(old(outside.clockReads), |fec|, old(lastTimestamp))
      ensures packetQueue.size == old(packetQueue.size) + BytesOf(fec, includeOverhead, transportOverhead)
      ensures packetQueue.timeLastUpdated == if fec == [] then old(packetQueue.timeLastUpdated) else lastTimestamp
      ensures fec == [] || old(prober.IsProbing()) ==> unchanged(prober)
      ensures !paused ==> packetQueue.pauseTimeSum == old(packetQueue.pauseTimeSum)
    {
      hide Valid, Outside.FecFrom, Outside.FecOf, Outside.Latest, IsPadding, WireSize;
      outside.FecGrows(outside.sends, 0);
      outside.LatestGrows(outside.clockReads, 0, lastTimestamp);
      dataSent, fec := 0, [];
      assert packets[..0] == [];
      for i := 0 to |packets|
        invariant Valid() && packetCounter > 0 && old(enqueued) <= enqueued && old(packetQueue.bag) <= packetQueue.bag
        invariant dataSent == PaddingBytes(packets[..i]) <= i * MAX_DATAGRAM
        invariant outside.sends == old(outside.sends) + i && fec == outside.FecFrom(old(outside.sends), i)
        invariant outside.clockReads == old(outside.clockReads) + |fec|
        invariant lastTimestamp == outside.Latest(old(outside.clockReads), |fec|, old(lastTimestamp))
        invariant packetQueue.size == old(packetQueue.size) + BytesOf(fec, includeOverhead, transportOverhead)
        invariant packetQueue.timeLastUpdated == if fec == [] then old(packetQueue.timeLastUpdated) else lastTimestamp
        invariant fec == [] || old(prober.IsProbing()) ==> unchanged(prober)
        invariant !paused ==> packetQueue.pauseTimeSum == old(packetQueue.pauseTimeSum)
      {
        PaddingFits(packets, i);
        dataSent := dataSent + packets[i].payloadSize + packets[i].paddingSize;
        ghost var more := SendPadding(packets[i]);
        outside.FecGrows(old(outside.sends), i);
        outside.LatestOn(old(outside.clockReads), |fec|, |more|, old(lastTimestamp));
        BytesOfBoth(fec, more, includeOverhead, transportOverhead);
        fec := fec + more;
      }
      assert packets[..|packets|] == packets;
    }

    static lemma PaddingFits(packets: seq<RtpPacket>, i: nat)
      requires i < |packets| && forall p :: p in packets ==> IsPadding(p)
      ensures PaddingBytes(packets[..i + 1]) == PaddingBytes(packets[..i]) + packets[i].payloadSize + packets[i].paddingSize
      ensures packets[i].payloadSize + packets[i].paddingSize <= MAX_DATAGRAM
    {
      assert packets[i] in packets;
      assert packets[..i + 1][..i] == packets[..i];
    }

    /** The keep-alive, if one is due. Before the first packet there is nothing to keep alive. */
    method MaybeSendKeepalive(now: int)
      requires Valid() && now == lastTimestamp
      modifies `lastTimestamp, `packetCounter, `enqueued, `lastSendTime, `lastProcessTime, `outstandingData,
        outside`clockReads, outside`paddingCalls, outside`sends, packetQueue,
        mediaBudget`remaining, mediaBudget`history, paddingBudget`remaining, paddingBudget`history, prober`probingState, prober`nextProbeTime
      ensures Valid() && old(enqueued) <= enqueued && old(packetQueue.bag) <= packetQueue.bag
      ensures now <= lastTimestamp && lastProcessTime >= old(lastProcessTime) && (old(packetCounter) == 0 ==> packetCounter == 0)
      ensures var fec := old(KeepaliveFec(now));
        && packetQueue.size == old(packetQueue.size) + BytesOf(fec, includeOverhead, transportOverhead)
        && packetQueue.timeLastUpdated == if fec == [] then old(packetQueue.timeLastUpdated) else outside.Latest(old(outside.clockReads), |fec|, now)
      ensures var bytes := old(KeepaliveBytes(now));
        && outstandingData == old(outstandingData) + bytes
        && DrawnFor(bytes, old(mediaBudget.remaining), old(paddingBudget.remaining))
        && mediaBudget.history == old(mediaBudget.history) + Draws(bytes > 0, bytes)
        && paddingBudget.history == old(paddingBudget.history) + Draws(bytes > 0, bytes)
      ensures old(KeepaliveFec(now)) == [] || old(prober.IsProbing()) ==> unchanged(prober)
      ensures old(KeepaliveDue(now)) ==> lastSendTime >= now
      ensures outside.paddingCalls == old(outside.paddingCalls) + if old(KeepaliveDue(now) && packetCounter > 0) then 1 else 0
      ensures !paused ==> packetQueue.pauseTimeSum == old(packetQueue.pauseTimeSum)
    {
      hide Valid, Outside.FecFrom, Outside.Latest, PaddingBytes, WireSize;
      BudgetsInWindow();
      if ShouldSendKeepalive(now) {
        if packetCounter == 0 {
          lastSendTime := now;
        } else {
          SendKeepalive(now);
        }
      }
    }

    /** The time in which the queue is to be drained. */
    ghost function TimeLeft(average: int): (us: int)
      reads `queueTimeLimit
      ensures us >= 1_000 && us >= queueTimeLimit - average && (us == 1_000 || us == queueTimeLimit - average)
    {
      Max(1_000, queueTimeLimit - average)
    }

    /** The pacing rate, or the rate that drains a queue of some bytes, whose packets waited
        `average` so far, within the limit on their waiting time: a bit per second more would drain it
        earlier. */
    ghost function NeededRate(size: int, average: int): (rate: nat)
      reads `pacingBitrate, `queueTimeLimit
      ensures rate >= pacingBitrate && (!drainLargeQueues || size <= 0 ==> rate == pacingBitrate)
      ensures drainLargeQueues && size > 0 ==> (rate + 1) * TimeLeft(average) > size * 8 * MICROS_PER_SECOND
      ensures rate > pacingBitrate ==> rate * TimeLeft(average) <= size * 8 * MICROS_PER_SECOND
    {
      if !drainLargeQueues || size <= 0 then pacingBitrate
      else
        RateForMeans(size, TimeLeft(average));
        HigherRate(RateFor(size, TimeLeft(average)), pacingBitrate, TimeLeft(average));
        Max(pacingBitrate, RateFor(size, TimeLeft(average)))
    }

    /** That rate in kilobits, for packets queued that waited until the queue's unpaused time. */
    ghost function NeededKbps(size: int, bag: multiset<Item>, unpaused: int): nat
      reads `pacingBitrate, `queueTimeLimit
    {
      NeededRate(size, AverageWait(bag, unpaused)) / 1000
    }

    static lemma HigherRate(low: nat, high: nat, us: nat)
      ensures low <= high ==> (low + 1) * us <= (high + 1) * us
    {
    }

    lemma QueueTimeKnown()
      requires Valid()
      ensures packetQueue.Valid() && paused == packetQueue.paused && packetQueue.size >= 0
      ensures packetQueue.AverageQueueTime() ==
        AverageWait(packetQueue.bag, packetQueue.timeLastUpdated - packetQueue.startTime - packetQueue.pauseTimeSum)
    {
      hide Containers, ItemsOk, Total, Balanced, BP.BitrateProber.Valid, BP.BitrateProber.Steady, SentOk, Outside.WellBehaved;
      packetQueue.SumsAreNonNegative();
    }

    /** The target rate for the queue as it is at `now`. The queue's clock check fails exactly if
        bytes are queued and the queue was updated after `now`. */
    method TargetRate(now: int) returns (checkFailed: bool, targetRate: nat)
      requires Valid() && now <= lastTimestamp && !paused
      modifies packetQueue
      ensures checkFailed <==> old(packetQueue.size) > 0 && now < old(packetQueue.timeLastUpdated)
      ensures Valid() && packetQueue.bag == old(packetQueue.bag) && packetQueue.size == old(packetQueue.size)
      ensures !checkFailed ==>
        targetRate == NeededRate(packetQueue.size, AverageWait(packetQueue.bag, now - packetQueue.startTime - old(packetQueue.pauseTimeSum)))
      ensures !checkFailed && packetQueue.size > 0 ==> packetQueue.timeLastUpdated == now
    {
      hide RoundRobinPacketQueue.Valid, Balanced, BP.BitrateProber.Valid, BP.BitrateProber.Steady, SentOk, Outside.WellBehaved, RateFor,
        AverageWait;
      QueueTimeKnown();
      targetRate := pacingBitrate;
      if packetQueue.size > 0 {
        if now < packetQueue.timeLastUpdated {
          return true, 0;
        }
        packetQueue.UpdateQueueTime(now);
        QueueTimeKnown();
        if drainLargeQueues {
          var avgTimeLeft := Max(1_000, queueTimeLimit - packetQueue.AverageQueueTime());
          targetRate := Max(targetRate, RateFor(packetQueue.size, avgTimeLeft));
        }
      }
      checkFailed := false;
    }

    /** Sets the rate for the queue as it is at `now` and refills the budgets for the time elapsed, of
        which at most one processing interval counts. */
    method RefillBudgets(now: int, elapsed: nat) returns (checkFailed: bool, ghost rate: nat)
      requires Valid() && now <= lastTimestamp && packetQueue.startTime + credited + elapsed <= lastProcessTime && !paused
      modifies `credited, packetQueue, mediaBudget, paddingBudget`remaining, paddingBudget`history
      ensures checkFailed <==> old(packetQueue.size) > 0 && now < old(packetQueue.timeLastUpdated)
      ensures Valid() && packetQueue.bag == old(packetQueue.bag)
      ensures !checkFailed ==>
        rate == NeededKbps(old(packetQueue.size), packetQueue.bag, now - packetQueue.startTime - old(packetQueue.pauseTimeSum))
      ensures credited == old(credited) + if checkFailed then 0 else elapsed
      ensures checkFailed ==> unchanged(mediaBudget, paddingBudget)
      ensures !checkFailed ==> (var ms := RefillMillis(elapsed);
        mediaBudget.history == old(mediaBudget.history) + [IB.Rate(rate), IB.Elapse(ms)] && paddingBudget.history == old(paddingBudget.history) + [IB.Elapse(ms)])
      ensures !checkFailed ==> mediaBudget.remaining == Topped(mediaBudget, IB.Clamped(old(mediaBudget.remaining), rate), elapsed)
      ensures !checkFailed ==> paddingBudget.remaining == Topped(paddingBudget, old(paddingBudget.remaining), elapsed)
    {
      hide Valid, IB.Refilled, IB.Clamped, IB.IntervalBudget.Valid, IB.Sent, IB.Elapsed, IB.After, NeededRate, AverageWait, CountedBytes;
      var targetRate;
      checkFailed, targetRate := TargetRate(now);
      rate := targetRate / 1000;
      if !checkFailed {
        label Timed:
        BudgetsValid();
        TimesKnown();
        IB.OneMoreOp(START, false, mediaBudget.history, IB.Rate(targetRate / 1000));
        mediaBudget.SetTargetRateKbps(targetRate / 1000);
        UpdateBudgetWithElapsedTime(elapsed);
        BudgetsChanged@Timed();
      }
    }

    /** The cluster a round at `now` probes for, if any. */
    ghost function Probed(now: int): Option<BP.ProbeCluster>
      reads prober
    {
      var current := prober.Current(now);
      if current.Some? && current.value.id != NOT_A_PROBE then current else None
    }

    lemma ProbedIsQueued(now: int)
      ensures Probed(now).Some? ==> Probed(now).value in prober.clusters
    {
    }

    /** The bytes a round should send for its probe. */
    ghost function WantedSize(probed: Option<BP.ProbeCluster>): nat {
      if probed.Some? && probed.value.sendBitrate > 0 then prober.MinProbeSize(probed.value.sendBitrate) else 0
    }

    /** Whether to probe now, and if so how many bytes and whether the cluster is just starting. */
    method BeginProbe(now: int) returns (isProbing: bool, firstInProbe: bool, recommendedProbeSize: nat)
      requires Valid()
      modifies prober
      ensures Valid() && (isProbing ==> prober.IsProbing())
      ensures isProbing <==> old(Probed(now)).Some?
      ensures isProbing ==> prober.clusters != [] && Some(prober.clusters[0]) == old(Probed(now))
      ensures firstInProbe <==> isProbing && prober.clusters[0].sentBytes == 0
      ensures recommendedProbeSize == WantedSize(old(Probed(now)))
    {
      hide RoundRobinPacketQueue.Valid, Balanced, SentOk, Outside.WellBehaved, BP.ClusterOk;
      isProbing, firstInProbe, recommendedProbeSize := prober.IsProbing(), false, 0;
      if isProbing {
        var info := prober.CurrentCluster(now);
        if info.Some? && info.value.id != NOT_A_PROBE {
          firstInProbe := info.value.bytesSent == 0;
          recommendedProbeSize := prober.RecommendedMinProbeSize();
        } else {
          isProbing := false;
        }
      }
    }

    /** The front cluster was credited with the bytes sent, and has ended if it has enough. */
    ghost predicate Reported(clusters: seq<BP.ProbeCluster>, ended: seq<BP.ProbeCluster>, dataSent: nat)
      reads prober
    {
      && clusters != []
      && var bytes := clusters[0].sentBytes + dataSent;
        || (|prober.clusters| == |clusters| && prober.clusters[0].sentBytes == bytes && prober.ended == ended)
        || (prober.clusters == clusters[1..] && |prober.ended| == |ended| + 1 && prober.ended[|ended|].sentBytes == bytes)
    }

    /** A report of the prober keeps everything that was promised. */
    twostate lemma ReportKept()
      requires old(Valid()) && packetCounter > 0 && prober.Valid() && prober.Steady()
      requires old(lastProcessTime) <= lastProcessTime <= Max(lastTimestamp, packetQueue.startTime) && old(lastTimestamp) <= lastTimestamp
      requires unchanged(`enqueued, `sent, `log, `packetCounter, `paused, `includeOverhead, `transportOverhead, `credited)
      requires unchanged(packetQueue, mediaBudget, paddingBudget)
      ensures Valid()
    {
      hide RoundRobinPacketQueue.Valid, Balanced, BP.BitrateProber.Valid, BP.BitrateProber.Steady, BP.BitrateProber.Unprobed,
        IB.IntervalBudget.Valid, IB.Sent, Outside.WellBehaved, CountedBytes, ChargedBefore, CreditedWithin, SentOk;
    }

    lemma ProberValid()
      requires Valid()
      ensures prober.Valid() && prober.Steady()
    {
    }

    /** Closes the send loop: settles the process time and reports the probe. */
    method EndProbe(isProbing: bool, dataSent: nat, previousProcessTime: int)
      requires Valid() && (isProbing ==> prober.IsProbing()) && previousProcessTime <= Max(lastTimestamp, packetQueue.startTime)
      modifies `lastProcessTime, `probingSendFailure, `lastTimestamp, outside`clockReads, prober
      ensures Valid() && lastProcessTime >= previousProcessTime
      ensures probingSendFailure == if isProbing then dataSent == 0 else old(probingSendFailure)
      ensures isProbing && dataSent > 0 ==> Reported(old(prober.clusters), old(prober.ended), dataSent)
      ensures !(isProbing && dataSent > 0) ==> prober.clusters == old(prober.clusters)
    {
      hide Valid, Reported;
      SettleProcessTime(previousProcessTime);
      if isProbing {
        probingSendFailure := dataSent == 0;
        if !probingSendFailure {
          ReportProbe(dataSent);
        }
      }
    }

    method SettleProcessTime(previousProcessTime: int)
      requires Valid() && previousProcessTime <= Max(lastTimestamp, packetQueue.startTime)
      modifies `lastProcessTime
      ensures Valid() && lastProcessTime == Max(old(lastProcessTime), previousProcessTime)
    {
      hide RoundRobinPacketQueue.Valid, Balanced, SentOk, Outside.WellBehaved, BP.BitrateProber.Valid, BP.BitrateProber.Steady,
        BP.BitrateProber.Unprobed, IB.IntervalBudget.Valid, IB.Sent, CountedBytes, ChargedBefore, CreditedWithin;
      lastProcessTime := Max(lastProcessTime, previousProcessTime);
    }

    method ReportProbe(dataSent: nat)
      requires Valid() && prober.IsProbing() && dataSent > 0
      modifies `lastTimestamp, outside`clockReads, prober
      ensures Valid() && Reported(old(prober.clusters), old(prober.ended), dataSent)
    {
      hide Valid, BP.BitrateProber.Valid, BP.BitrateProber.Steady, BP.DueAfter;
      ProberValid();
      ProbingMeansEnqueued();
      TimesKnown();
      prober.ActiveHasFront();
      var time := CurrentTime();
      prober.ProbeSent(time, dataSent);
      ReportKept();
    }

    /** Sends, for a probe if there is one, until there is a reason to stop. */
    method SendAll(now: int, previousProcessTime: int)
      requires Valid() && OnTime(now) && previousProcessTime <= Max(lastTimestamp, packetQueue.startTime)
      modifies `lastTimestamp, `packetCounter, `enqueued, `sent, `firstSentPacketTime, `lastSendTime, `lastProcessTime,
        `outstandingData, `log, `probingSendFailure, outside`clockReads, outside`paddingCalls, outside`sends, packetQueue,
        mediaBudget`remaining, mediaBudget`history, paddingBudget`remaining, paddingBudget`history, prober
      ensures Valid() && lastProcessTime >= previousProcessTime
      ensures Progress(old(enqueued), old(sent), old(log), enqueued, sent, log)
      ensures var probed := old(Probed(now)); var bytes := BytesLogged(log) - old(BytesLogged(log));
        && (paused || Done(probed.Some?, WantedSize(probed), bytes, |old(log)|))
        && RoundSends(log, |old(log)|, Round(probed.Some?, paceAudio, congestionWindow, now), old(Reading()), Reading())
        && probingSendFailure == if probed.Some? then bytes == 0 else old(probingSendFailure)
    {
      hide Valid, SentOk, BytesLogged, Done, RoundSends, Probed, WantedSize;
      var isProbing, firstInProbe, recommendedProbeSize := BeginProbe(now);
      var dataSent := SendLoop(isProbing, recommendedProbeSize, firstInProbe, now);
      EndProbe(isProbing, dataSent, previousProcessTime);
    }

    /** When the next round of processing fails the queue's clock check: the keep-alive leads to
        error correction, the clock moves on while that is enqueued, and bytes are queued then. */
    ghost predicate ClockCheckFails()
      reads this, outside, packetQueue
    {
      var now := TimeNow();
      var fec := KeepaliveFec(now);
      && !paused && now > lastProcessTime && fec != []
      && packetQueue.size + BytesOf(fec, includeOverhead, transportOverhead) > 0
      && outside.Latest(outside.clockReads + 1, |fec|, now) > now
    }

    lemma NoBytesYet()
      requires Valid() && packetCounter == 0
      ensures packetQueue.size == 0
    {
      hide Ledger, ItemsOk, Containers;
      assert packetQueue.bag == multiset{};
      EmptyTotal(SizeOf(packetQueue.includeOverhead, packetQueue.transportOverhead));
    }

    /** Whatever is queued was queued by the controller, whose clock the queue's then follows. */
    lemma QueuedInStep()
      requires Valid() && packetQueue.size > 0
      ensures packetQueue.timeLastUpdated <= lastTimestamp
    {
      hide RoundRobinPacketQueue.Valid, Balanced, BP.BitrateProber.Valid, BP.BitrateProber.Steady, SentOk, Outside.WellBehaved;
      if packetCounter == 0 {
        NoBytesYet();
      }
    }

    /** The check compares the clock of the queue after the keep-alive with the time read before it. */
    lemma ClockCheckMeans()
      requires Valid()
      ensures var now := TimeNow(); var fec := KeepaliveFec(now);
        var updated := if fec == [] then packetQueue.timeLastUpdated else outside.Latest(outside.clockReads + 1, |fec|, now);
        ClockCheckFails() <==> !paused && now > lastProcessTime && packetQueue.size + BytesOf(fec, includeOverhead, transportOverhead) > 0 && now < updated
    {
      hide Valid, KeepaliveFec, Outside.Latest;
      if packetQueue.size > 0 {
        QueuedInStep();
      }
    }

    /** A round that sends nothing opened with nothing queued, or the window closed, or no budget. */
    lemma NothingSent(isProbe: bool, recommendedProbeSize: nat, dataSent: int, n: nat, round: Round, from: Meter)
      requires Valid() && Done(isProbe, recommendedProbeSize, dataSent, n) && RoundSends(log, n, round, from, Reading())
      ensures |log| == n && from.bag != multiset{} ==>
        (congestionWindow.Some? && from.outstanding >= congestionWindow.value) || IB.After(START, false, from.history).remaining <= 0
    {
      hide Valid, IB.After, NothingToAdd;
      PartsFacts();
      if |log| == n && from.bag != multiset{} {
        assert log[n..] == [];
        var x := Pick(from.bag);
        assert x in packetQueue.bag;
      }
    }

    lemma {:induction false} PaddingBounded(packets: seq<RtpPacket>)
      requires forall p :: p in packets ==> IsPadding(p)
      ensures PaddingBytes(packets) <= |packets| * MAX_DATAGRAM
    {
      if packets != [] {
        PaddingBounded(packets[..|packets| - 1]);
        assert packets[|packets| - 1] in packets;
      }
    }

    lemma KeepaliveSmall(now: int)
      requires Valid()
      ensures KeepaliveBytes(now) < 0x8000_0000
      ensures mediaBudget.remaining == IB.After(START, false, mediaBudget.history).remaining
    {
      hide Valid, IB.After, PaddingBytes, IsPadding;
      PartsFacts();
      PaddingBounded(outside.padding(outside.paddingCalls, 1));
    }

    /** The milliseconds a round refills the budgets for: since the last processing, or one interval. */
    ghost function RefillTime(): nat
      reads `lastTimestamp, `lastProcessTime, outside`clockReads
    {
      RefillMillis(TimeNow() - lastProcessTime)
    }

    /** Reads the clock and takes note of the time since the last processing. */
    method StartRound() returns (now: int, elapsed: nat, previousProcessTime: int)
      requires Valid()
      modifies `lastTimestamp, `lastProcessTime, outside`clockReads
      ensures Valid() && now == lastTimestamp == old(TimeNow()) && outside.clockReads == old(outside.clockReads) + 1
      ensures previousProcessTime == old(lastProcessTime) <= Max(now, packetQueue.startTime) && (elapsed > 0 <==> now > previousProcessTime)
      ensures packetQueue.startTime + credited + elapsed <= lastProcessTime
      ensures packetCounter > 0 ==> packetQueue.startTime + credited + elapsed <= now
      ensures RefillMillis(elapsed) == old(RefillTime())
    {
      hide Valid;
      TimesKnown();
      now := CurrentTime();
      previousProcessTime := lastProcessTime;
      elapsed := UpdateTimeAndGetElapsed(now);
    }

    /** The rate for a queue of the bytes there were and those of the keep-alive's error correction,
        whose packets waited until now, except while paused; in kilobits. */
    twostate function RateNow(bag: multiset<Item>): (kbps: nat)
      reads `pacingBitrate, `queueTimeLimit, `includeOverhead, `transportOverhead
    {
      NeededKbps(old(packetQueue.size) + BytesOf(old(KeepaliveFec(TimeNow())), includeOverhead, transportOverhead),
                 bag, old(TimeNow() - packetQueue.startTime - packetQueue.pauseTimeSum))
    }

    /** What comes before the send loop: the keep-alive, and unless paused the refill. */
    method Prepare(now: int, elapsed: nat) returns (checkFailed: bool, ghost rate: Option<nat>)
      requires Valid() && now == lastTimestamp && packetQueue.startTime + credited + elapsed <= lastProcessTime
      requires packetCounter > 0 ==> packetQueue.startTime + credited + elapsed <= now
      modifies `credited, `lastTimestamp, `packetCounter, `enqueued, `lastSendTime, `lastProcessTime, `outstandingData,
        outside`clockReads, outside`paddingCalls, outside`sends, packetQueue, mediaBudget, paddingBudget`remaining, paddingBudget`history,
        prober`probingState, prober`nextProbeTime
      ensures Valid() && OnTime(now) && old(enqueued) <= enqueued && old(packetQueue.bag) <= packetQueue.bag
      ensures outstandingData == old(outstandingData + KeepaliveBytes(now))
      ensures OpenedWith(old(mediaBudget.history), old(paddingBudget.history), Reading(), old(KeepaliveBytes(now)), rate, RefillMillis(elapsed))
      ensures old(KeepaliveFec(now)) == [] || old(prober.IsProbing()) ==> unchanged(prober)
      ensures rate.Some? <==> !paused && !checkFailed && elapsed > 0
      ensures rate.Some? ==> rate.value == NeededKbps(old(packetQueue.size) + BytesOf(old(KeepaliveFec(now)), includeOverhead, transportOverhead),
                                                      packetQueue.bag, now - packetQueue.startTime - old(packetQueue.pauseTimeSum))
      ensures var fec := old(KeepaliveFec(now));
        var updated := if fec == [] then old(packetQueue.timeLastUpdated) else outside.Latest(old(outside.clockReads), |fec|, now);
        checkFailed <==> !paused && elapsed > 0 && old(packetQueue.size) + BytesOf(fec, includeOverhead, transportOverhead) > 0 && now < updated
    {
      hide Valid, KeepaliveDue, KeepaliveFec, KeepaliveBytes, NeededKbps, RefillMillis, Topped, Outside.Latest, BytesOf, PaddingBytes, DrawnFor, Draws;
      MaybeSendKeepalive(now);
      checkFailed, rate := false, None;
      if !paused && elapsed > 0 {
        ghost var refilled;
        checkFailed, refilled := RefillBudgets(now, elapsed);
        rate := if checkFailed then None else Some(refilled);
      }
    }

    /** All of a round before the send loop. */
    method OpenRound() returns (checkFailed: bool, now: int, previousProcessTime: int, ghost rate: Option<nat>)
      requires Valid()
      modifies `credited, `lastTimestamp, `packetCounter, `enqueued, `lastSendTime, `lastProcessTime, `outstandingData,
        outside`clockReads, outside`paddingCalls, outside`sends, packetQueue, mediaBudget, paddingBudget`remaining, paddingBudget`history,
        prober`probingState, prober`nextProbeTime
      ensures Valid() && OnTime(now) && old(enqueued) <= enqueued && old(packetQueue.bag) <= packetQueue.bag
      ensures now == old(TimeNow()) && previousProcessTime <= Max(lastTimestamp, packetQueue.startTime)
      ensures outstandingData == old(outstandingData + KeepaliveBytes(TimeNow()))
      ensures OpenedWith(old(mediaBudget.history), old(paddingBudget.history), Reading(), old(KeepaliveBytes(TimeNow())), rate,
                         old(RefillTime()))
      ensures rate.Some? <==> !paused && !checkFailed && now > old(lastProcessTime)
      ensures rate.Some? ==> rate.value == RateNow(packetQueue.bag)
      ensures old(KeepaliveFec(TimeNow())) == [] || old(prober.IsProbing()) ==> unchanged(prober)
      ensures checkFailed <==> old(ClockCheckFails())
      ensures checkFailed ==> !paused
    {
      hide Valid, PacingController.KeepaliveDue, PacingController.KeepaliveFec, KeepaliveBytes, ClockCheckFails, Outside.Latest, BytesOf, NeededKbps,
        OpenedWith, Probed, RefillTime;
      ClockCheckMeans();
      var elapsed;
      now, elapsed, previousProcessTime := StartRound();
      checkFailed, rate := Prepare(now, elapsed);
    }

    /** One round of processing. The budgets are drawn for the keep-alive and, unless paused, refilled
        for the time since the last processing at the rate for the queue as it then is. Nothing is sent
        by the loop if the clock check fails, nor while paused. Otherwise the loop sends until there is
        a reason to stop; with a packet queued, the window open, no debt and a byte's worth of time at
        the rate, it sends something. */
    method ProcessPackets() returns (checkFailed: bool, ghost probed: Option<BP.ProbeCluster>, ghost from: Meter, ghost rate: Option<nat>)
      requires Valid()
      modifies this, outside`clockReads, outside`paddingCalls, outside`sends, packetQueue, mediaBudget, paddingBudget, prober
      ensures Valid()
      ensures Progress(old(enqueued), old(sent), old(log), enqueued, sent, log)
      ensures paused || checkFailed ==> log == old(log) && sent == old(sent)
      ensures paused == old(paused) && congestionWindow == old(congestionWindow) && accountForAudio == old(accountForAudio)
      ensures checkFailed <==> old(ClockCheckFails())
      ensures probed.Some? ==> probed.value in old(prober.clusters)
      ensures !paused && !checkFailed ==> Done(probed.Some?, WantedSize(probed), BytesLogged(log) - old(BytesLogged(log)), |old(log)|)
      ensures RoundSends(log, |old(log)|, Round(probed.Some?, paceAudio, congestionWindow, old(TimeNow())), from, Reading())
      ensures from.outstanding == old(outstandingData + KeepaliveBytes(TimeNow()))
      ensures old(packetQueue.bag) <= from.bag
      ensures OpenedWith(old(mediaBudget.history), old(paddingBudget.history), from, old(KeepaliveBytes(TimeNow())), rate,
                         old(RefillTime()))
      ensures rate.Some? <==> !paused && !checkFailed && old(TimeNow()) > old(lastProcessTime)
      ensures rate.Some? ==> rate.value == RateNow(from.bag)
      ensures rate.Some? && rate.value * old(RefillTime()) >= 8 && old(mediaBudget.remaining) >= old(KeepaliveBytes(TimeNow())) ==>
        from.bag != multiset{} && (congestionWindow.None? || from.outstanding < congestionWindow.value) ==> |log| > |old(log)|
      ensures !paused && !checkFailed && (old(KeepaliveFec(TimeNow())) == [] || old(prober.IsProbing())) ==> probed == old(Probed(TimeNow()))
    {
      hide Valid, SentOk, OpenedWith, RateNow, RefillTime, KeepaliveFec, KeepaliveBytes, ClockCheckFails, BytesLogged, Done, RoundSends, WantedSize, Progress, Probed;
      NoProgress(enqueued, sent, log);
      KeepaliveSmall(TimeNow());
      ghost var bytes, ms := KeepaliveBytes(TimeNow()), RefillTime();
      var now, previousProcessTime;
      checkFailed, now, previousProcessTime, rate := OpenRound();
      MoreEnqueued(old(enqueued), sent, log, old(enqueued), sent, log, enqueued);
      from, probed := Reading(), None;
      if paused || checkFailed {
        NoSends(log, Round(false, paceAudio, congestionWindow, now), from);
        return;
      }
      probed := Probed(now);
      ProbedIsQueued(now);
      ghost var enqueued1 := enqueued;
      SendAll(now, previousProcessTime);
      ProgressOn(old(enqueued), old(sent), old(log), enqueued1, old(sent), old(log), enqueued, sent, log);
      if rate.Some? {
        OpensWithBudget(old(mediaBudget.history), old(paddingBudget.history), from, bytes, rate.value, ms);
      }
      NothingSent(probed.Some?, WantedSize(probed), BytesLogged(log) - old(BytesLogged(log)), |old(log)|,
                  Round(probed.Some?, paceAudio, congestionWindow, now), from);
    }

    // ----- Settings -----

    /** Pauses the queue too, whose clock check fails exactly as that of the first packet does. */
    method Pause() returns (checkFailed: bool)
      requires Valid()
      modifies `paused, `lastTimestamp, outside`clockReads, packetQueue
      ensures checkFailed <==> !old(paused) && old(TimeNow()) < old(packetQueue.timeLastUpdated)
      ensures old(packetCounter) > 0 ==> !checkFailed
      ensures !checkFailed ==> Valid() && packetQueue.bag == old(packetQueue.bag) && packetQueue.paused
      ensures paused && lastTimestamp == old(TimeNow())
      ensures !checkFailed && old(paused) ==> packetQueue.unpausedTime == old(packetQueue.unpausedTime)
      ensures !checkFailed && !old(paused) ==> packetQueue.unpausedTime == old(packetQueue.unpausedTime + TimeNow() - packetQueue.timeLastUpdated)
    {
      checkFailed := SetPaused(true);
    }

    /** While paused the queue's clock is behind, so the check never fails. */
    method Resume()
      requires Valid()
      modifies `paused, `lastTimestamp, outside`clockReads, packetQueue
      ensures Valid() && packetQueue.bag == old(packetQueue.bag) && !packetQueue.paused
      ensures !paused && lastTimestamp == old(TimeNow())
      ensures packetQueue.unpausedTime == old(packetQueue.unpausedTime)
    {
      var checkFailed := SetPaused(false);
    }

    /** Time is charged to the queue only when its pause state changes. */
    method SetPaused(pause: bool) returns (checkFailed: bool)
      requires Valid()
      modifies `paused, `lastTimestamp, outside`clockReads, packetQueue
      ensures checkFailed <==> pause && !old(paused) && old(TimeNow()) < old(packetQueue.timeLastUpdated)
      ensures old(packetCounter) > 0 ==> !checkFailed
      ensures !checkFailed ==> Valid() && packetQueue.bag == old(packetQueue.bag) && packetQueue.paused == pause
      ensures paused == pause && lastTimestamp == old(TimeNow())
      ensures !checkFailed && pause && !old(paused) ==> packetQueue.unpausedTime == old(packetQueue.unpausedTime + TimeNow() - packetQueue.timeLastUpdated)
      ensures !checkFailed && !(pause && !old(paused)) ==> packetQueue.unpausedTime == old(packetQueue.unpausedTime)
    {
      hide RoundRobinPacketQueue.Valid, Balanced, BP.BitrateProber.Valid, BP.BitrateProber.Steady, SentOk, CountedBytes, ChargedBefore,
        CreditedWithin, IB.IntervalBudget.Valid;
      var changes := packetQueue.paused != pause;
      paused := pause;
      var now := CurrentTime();
      if changes {
        if now < packetQueue.timeLastUpdated {
          return true;
        }
        packetQueue.SetPauseState(pause, now);
      }
      checkFailed := false;
    }

    method SetCongestionWindow(window: Option<nat>)
      requires Valid()
      modifies `credited, `congestionWindow, `lastTimestamp, `lastProcessTime, outside`clockReads, mediaBudget`remaining, mediaBudget`history, paddingBudget`remaining, paddingBudget`history
      ensures Valid() && congestionWindow == window
      ensures CaughtUp(old(Congested()) && !Congested())
    {
      hide RoundRobinPacketQueue.Valid, Balanced, BP.BitrateProber.Valid, BP.BitrateProber.Steady, SentOk, Topped;
      var wasCongested := Congested();
      congestionWindow := window;
      if wasCongested && !Congested() {
        CatchUp();
      }
    }

    method UpdateOutstandingData(outstanding: nat)
      requires Valid()
      modifies `credited, `outstandingData, `lastTimestamp, `lastProcessTime, outside`clockReads, mediaBudget`remaining, mediaBudget`history, paddingBudget`remaining, paddingBudget`history
      ensures Valid() && outstandingData == outstanding
      ensures CaughtUp(old(Congested()) && !Congested())
    {
      hide RoundRobinPacketQueue.Valid, Balanced, BP.BitrateProber.Valid, BP.BitrateProber.Steady, SentOk, Topped;
      var wasCongested := Congested();
      outstandingData := outstanding;
      if wasCongested && !Congested() {
        CatchUp();
      }
    }

    /** If the window opens, both budgets were refilled for the time since the last
        processing; if not, neither they nor the time of processing changed. */
    twostate predicate CaughtUp(windowOpens: bool)
      reads `credited, `lastProcessTime, `lastTimestamp, outside`clockReads, mediaBudget, paddingBudget
    {
      var now := old(TimeNow());
      if windowOpens
      then && lastProcessTime == Max(old(lastProcessTime), now) && lastTimestamp == now
           && mediaBudget.remaining == Topped(mediaBudget, old(mediaBudget.remaining), old(ElapsedAt(now)))
           && paddingBudget.remaining == Topped(paddingBudget, old(paddingBudget.remaining), old(ElapsedAt(now)))
      else unchanged(`credited, `lastProcessTime, `lastTimestamp, outside`clockReads, mediaBudget, paddingBudget)
    }

    /** Credits the time that passed while the window was closed. */
    method CatchUp()
      requires Valid()
      modifies `credited, `lastTimestamp, `lastProcessTime, outside`clockReads, mediaBudget`remaining, mediaBudget`history, paddingBudget`remaining, paddingBudget`history
      ensures Valid() && CaughtUp(true)
    {
      hide Valid, IB.Refilled, IB.IntervalBudget.Valid, IB.Sent, CreditedWithin, Topped;
      var now := CurrentTime();
      TimesKnown();
      var elapsed := UpdateTimeAndGetElapsed(now);
      TimesKnown();
      BudgetsValid();
      label Timed:
      UpdateBudgetWithElapsedTime(elapsed);
      BudgetsChanged@Timed();
    }

    /** Allowed only before the first packet, so that probing is never cut off inside a cluster. */
    method SetProbingEnabled(enabled: bool) returns (checkFailed: bool)
      requires Valid()
      modifies prober`probingState
      ensures checkFailed <==> packetCounter != 0
      ensures Valid()
      ensures checkFailed ==> prober.probingState == old(prober.probingState)
      ensures !checkFailed ==> (prober.probingState == BP.Disabled <==> !enabled)
    {
      hide RoundRobinPacketQueue.Valid, Balanced, SentOk;
      if packetCounter != 0 {
        return true;
      }
      prober.SetEnabled(enabled);
      checkFailed := false;
    }

    method SetPacingRates(pacingRate: nat, paddingRate: nat)
      requires Valid() && pacingRate > 0
      modifies `pacingBitrate, paddingBudget
      ensures Valid() && pacingBitrate == pacingRate && paddingBudget.targetRateKbps == paddingRate / 1000
    {
      hide RoundRobinPacketQueue.Valid, Balanced, BP.BitrateProber.Valid, BP.BitrateProber.Steady, SentOk;
      pacingBitrate := pacingRate;
      paddingBudget.SetTargetRateKbps(paddingRate / 1000);
    }

    method CreateProbeCluster(bitrate: nat, clusterId: int)
      requires Valid() && bitrate > 0 && prober.probingState != BP.Disabled
      modifies `lastTimestamp, outside`clockReads, prober
      ensures Valid() && prober.clusters != []
      ensures prober.clusters[|prober.clusters| - 1].sendBitrate == bitrate && prober.clusters[|prober.clusters| - 1].id == clusterId
    {
      hide RoundRobinPacketQueue.Valid, Balanced, BP.BitrateProber.Valid, BP.BitrateProber.Steady, SentOk;
      var now := CurrentTime();
      ghost var dropped := prober.CreateProbeCluster(bitrate, now, clusterId);
    }

    /** The promises are kept exactly if the overhead leaves sizes convertible to 32 bits. */
    method SetTransportOverhead(overheadPerPacket: nat)
      requires Valid()
      modifies `transportOverhead, packetQueue
      ensures transportOverhead == if ignoreTransportOverhead then old(transportOverhead) else overheadPerPacket
      ensures packetQueue.bag == old(packetQueue.bag) && packetQueue.transportOverhead == transportOverhead
      ensures Valid() <==> transportOverhead <= MAX_OVERHEAD
    {
      hide RoundRobinPacketQueue.Valid, Balanced, BP.BitrateProber.Valid, BP.BitrateProber.Steady, SentOk, CountedBytes, ChargedBefore,
        CreditedWithin, IB.IntervalBudget.Valid, Outside.WellBehaved;
      if ignoreTransportOverhead {
        return;
      }
      transportOverhead := overheadPerPacket;
      packetQueue.SetTransportOverhead(overheadPerPacket);
    }

    /** Counts overhead from now on. The promises are kept unless overhead was counted before and
        something queued is counted twice. */
    method SetIncludeOverhead()
      requires Valid()
      modifies `includeOverhead, packetQueue
      ensures includeOverhead && packetQueue.bag == old(packetQueue.bag)
      ensures Valid() <==> !old(includeOverhead) || Total(packetQueue.bag, OverheadOf(transportOverhead)) == 0
    {
      hide RoundRobinPacketQueue.Core, RoundRobinPacketQueue.SizeAgrees, Balanced, BP.BitrateProber.Valid, BP.BitrateProber.Steady, IB.IntervalBudget.Valid, SentOk,
        Outside.WellBehaved, Total;
      includeOverhead := true;
      packetQueue.SetIncludeOverhead();
    }

    method SetAccountForAudioPackets(account: bool)
      requires Valid()
      modifies `accountForAudio
      ensures Valid() && accountForAudio == account
    {
      hide RoundRobinPacketQueue.Valid, Balanced, BP.BitrateProber.Valid, BP.BitrateProber.Steady, SentOk;
      accountForAudio := account;
    }

    method SetQueueTimeLimit(limit: int)
      requires Valid()
      modifies `queueTimeLimit
      ensures Valid() && queueTimeLimit == limit
    {
      hide RoundRobinPacketQueue.Valid, Balanced, BP.BitrateProber.Valid, BP.BitrateProber.Steady, SentOk;
      queueTimeLimit := limit;
    }

    // ----- What holds in every reachable state -----

    /** The budgets are where their histories lead from nothing. */
    lemma BudgetsTold()
      requires Valid()
      ensures mediaBudget.remaining == IB.After(START, false, mediaBudget.history).remaining
      ensures paddingBudget.remaining == IB.After(START, false, paddingBudget.history).remaining
      ensures mediaBudget.targetRateKbps == IB.After(START, false, mediaBudget.history).rateKbps
      ensures paddingBudget.targetRateKbps == IB.After(START, false, paddingBudget.history).rateKbps
    {
      hide RoundRobinPacketQueue.Valid, Balanced, BP.BitrateProber.Valid, BP.BitrateProber.Steady, SentOk, Outside.WellBehaved, IB.After;
    }

    /** Conservation: every packet enqueued is either still queued or was sent, and no packet twice. */
    lemma Conservation(x: Item)
      requires Valid()
      ensures packetCounter == |packetQueue.bag| + |sent|
      ensures x in enqueued ==> packetQueue.bag[x] + sent[x] == 1
    {
      hide RoundRobinPacketQueue.Valid, BP.BitrateProber.Valid, BP.BitrateProber.Steady, SentOk, Outside.WellBehaved;
    }

    /** Congestion: no send of the loop, other than a probe or unpaced audio, raised the outstanding
        data above the window less one plus the largest packet. */
    lemma WindowKept(r: Sent, largest: nat)
      requires Valid() && r in log && r.size <= largest && r.window.Some?
      requires Gated(r)
      ensures r.budget > 0 && r.outstandingAfter <= r.window.value - 1 + largest
    {
      hide RoundRobinPacketQueue.Valid, BP.BitrateProber.Valid, BP.BitrateProber.Steady, Balanced, Outside.WellBehaved;
    }

    /** Pacing: whenever the loop sent a gated packet, however many rounds after the start, all that
        had been charged before, by probes too, was less than what time had granted at the rates of
        the time, not counting debt written off; so it was less than the highest rate allows for the
        time since the start and five milliseconds. */
    lemma PacedOverRounds(k: nat, top: nat)
      requires Valid() && k < |log| && Gated(log[k]) && IB.RatesAtMost(START, log[k].history, top)
      ensures CountedBytes(log[..k]) < IB.Granted(START, false, log[k].history) + IB.Forgiven(START, false, log[k].history)
      ensures 8 * (CountedBytes(log[..k]) - IB.Forgiven(START, false, log[k].history)) < top * IB.Elapsed(log[k].history)
      ensures 1000 * IB.Elapsed(log[k].history) <= log[k].time - packetQueue.startTime + MIN_PACKET_LIMIT
    {
      hide RoundRobinPacketQueue.Valid, BP.BitrateProber.Valid, BP.BitrateProber.Steady, Balanced, Outside.WellBehaved, CountedBytes,
        IB.After, IB.Granted, IB.Forgiven, IB.Elapsed, IB.Sent, IB.RatesAtMost, PopChoice;
      assert SentOk(log[k]) && ChargedAt(log, packetQueue.startTime, k);
      IB.Accounting(START, false, log[k].history);
      IB.GrantedByRate(START, false, log[k].history, top);
    }

    /** Nothing was written off before, if every draw met a positive remainder and no packet exceeds
        the window of the lowest rate ever set: then the bytes alone are below the pacing rate. */
    lemma PacedExactly(k: nat, floor: nat, top: nat, largest: nat)
      requires Valid() && k < |log| && Gated(log[k]) && IB.RatesAtMost(START, log[k].history, top)
      requires IB.Paced(START, false, log[k].history) && IB.PacketsAtMost(log[k].history, largest) && IB.RatesAtLeast(log[k].history, floor)
      requires largest <= IB.WindowBytes(floor) && largest < 0x8000_0000
      ensures 8000 * CountedBytes(log[..k]) < top * (log[k].time - packetQueue.startTime + MIN_PACKET_LIMIT)
    {
      hide Valid, CountedBytes, Gated, IB.Granted, IB.Forgiven, IB.Elapsed, IB.Paced, IB.PacketsAtMost, IB.RatesAtLeast, IB.RatesAtMost,
        IB.WindowBytes;
      PacedOverRounds(k, top);
      IB.NothingForgiven(START, false, log[k].history, floor, largest);
      Scaled(top, IB.Elapsed(log[k].history), log[k].time - packetQueue.startTime + MIN_PACKET_LIMIT);
    }

    static lemma Scaled(rate: nat, ms: nat, us: int)
      requires 1000 * ms <= us
      ensures 1000 * (rate * ms) <= rate * us
    {
      assert rate * (us - 1000 * ms) >= 0;
    }

    /** Order: no send of the loop took a packet while a better one was queued, nor one of a stream
        that had sent more, nor one out of the order within its stream. */
    lemma SentInOrder(r: Sent, y: Item)
      requires Valid() && r in log && y in r.queued.bag
      ensures r.item in r.queued.bag && r.item.priority <= y.priority
      ensures y.priority == r.item.priority ==> r.queued.Charge(r.item.Ssrc()) <= r.queued.Charge(y.Ssrc())
      ensures y.Ssrc() == r.item.Ssrc() && y.priority == r.item.priority ==>
        (y.isRetransmission ==> r.item.isRetransmission) && (y.isRetransmission == r.item.isRetransmission ==> r.item.enqueueOrder <= y.enqueueOrder)
    {
      hide RoundRobinPacketQueue.Valid, BP.BitrateProber.Valid, BP.BitrateProber.Steady, Balanced, Outside.WellBehaved;
    }

    /** Kinds: while audio was queued the loop sent audio; while a retransmission was, it sent audio or
        a retransmission; and it sent padding only with nothing else queued, unless it opened a probe. */
    lemma SentByKind(r: Sent, y: Item)
      requires Valid() && r in log && y in r.queued.bag
      ensures r.item.priority != FIRST_PRIORITY ==>
        && (y.packet.mediaType == Audio ==> r.item.packet.mediaType == Audio)
        && (y.packet.mediaType == Retransmission ==> r.item.packet.mediaType == Audio || r.item.packet.mediaType == Retransmission)
        && (r.item.packet.mediaType == Padding ==> y.packet.mediaType == Padding)
      ensures r.item.priority == FIRST_PRIORITY ==> IsPadding(r.item.packet)
    {
      hide RoundRobinPacketQueue.Valid, BP.BitrateProber.Valid, BP.BitrateProber.Steady, Balanced, Outside.WellBehaved, IsPadding;
      SentInOrder(r, y);
      assert AllRanked(r.queued.bag) && Ranked(r.item) && Ranked(y);
    }

    /** Probes: the controller interrupts no cluster once it is started, so every report of every
        cluster keeps the bitrate of the cluster if the reports are on time. */
    lemma EveryProbeConforms(c: BP.ProbeCluster, k: nat, early: nat)
      requires Valid() && (c in prober.clusters || c in prober.ended)
      requires BP.ReportedOnTime(c.log, early) && 1 <= k < |c.log|
      ensures BP.SizeSum(c.log[..k]) * 8 * MICROS_PER_SECOND < c.sendBitrate * (c.log[k].time - c.log[0].time + early + 1)
    {
      hide RoundRobinPacketQueue.Valid, Balanced, Outside.WellBehaved, SentOk, BP.SizeSum;
      assert BP.NeverInterrupted(c.log);
      prober.AllClustersConform(c, k, early);
    }

    // ----- The clock check fails -----

    /** It does if the clock moves on by a microsecond while the keep-alive's error correction is
        enqueued: one packet was enqueued at the start, and half a second of silence followed. */
    static method KeepaliveFailsClockCheck(packet: RtpPacket) returns (c: PacingController, checkFailed: bool)
      requires IsPadding(packet)
      ensures checkFailed
    {
      hide PacingController.Valid, IsPadding, RoundSends, Progress, BytesLogged, PacingController.Done, PacingController.ClockCheckFails,
        OpenedWith, PacingController.Probed, PacingController.RefillTime, PacingController.WantedSize, PacingController.KeepaliveBytes, IB.After;
      c := AfterSilence(packet);
      ghost var probed, from, rate;
      checkFailed, probed, from, rate := c.ProcessPackets();
    }

    static method AfterSilence(packet: RtpPacket) returns (c: PacingController)
      requires IsPadding(packet)
      ensures fresh(c) && fresh(c.outside) && c.Valid() && c.ClockCheckFails()
      ensures fresh(c.packetQueue) && fresh(c.mediaBudget) && fresh(c.paddingBudget) && fresh(c.prober)
    {
      hide PacingController.Valid, Outside.WellBehaved, IsPadding;
      var outside := SilentStart(packet);
      c := new PacingController(outside, true, true, false, false);
      var checkFailed; ghost var item;
      checkFailed, item := c.EnqueuePacket(packet);
    }

    static method SilentStart(packet: RtpPacket) returns (outside: Outside)
      requires IsPadding(packet)
      ensures FitsDatagram(packet) && WireSize(packet, false, 0) > 0
      ensures fresh(outside) && outside.WellBehaved() && outside.clockReads == outside.paddingCalls == outside.sends == 0
      ensures outside.clock(0) == outside.clock(1) == outside.clock(2) == 0
      ensures outside.clock(3) == CONGESTED_PACKET_INTERVAL && outside.clock(4) == CONGESTED_PACKET_INTERVAL + 1
      ensures outside.padding(0, 1) == [packet] && outside.FecFrom(0, 1) == [packet]
    {
      outside := new Outside(k => if k <= 2 then 0 else if k == 3 then CONGESTED_PACKET_INTERVAL else CONGESTED_PACKET_INTERVAL + 1,
                             (k, size) => [packet], [[packet]]);
      assert outside.FecFrom(0, 0) == [];
    }

    /** So does the first packet if the clock goes back after the second reading at the start, even
        to no earlier than the first. */
    static method FirstPacketFailsClockCheck(packet: RtpPacket) returns (c: PacingController, checkFailed: bool)
      requires FitsDatagram(packet)
      ensures checkFailed
    {
      var outside := new Outside(k => if k == 0 then 10 else if k == 1 then 20 else 15, (k, size) => [], []);
      c := new PacingController(outside, true, false, false, false);
      ghost var item;
      checkFailed, item := c.EnqueuePacket(packet);
    }
  }
}
