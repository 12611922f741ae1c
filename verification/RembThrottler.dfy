/** Throttling of REMB messages: small changes within 200 ms are not sent, and the last message
    sent never exceeds the desired maximum. Times are in microseconds, rates in bits per second. */
module RembThrottler {
  import opened Collections
  import opened Units

  const SEND_INTERVAL := 200_000
  const SEND_THRESHOLD_PERCENT := 103

  datatype Rate = Bps(bps: nat) | Infinite {
    predicate Above(other: Rate) {
      match (this, other)
      case (Bps(a), Bps(b)) => a > b
      case (Infinite, Bps(_)) => true
      case _ => false
    }
  }

  function Least(a: Rate, b: Rate): Rate {
    if b.Above(a) then a else b
  }

  /** A message that follows a change of the estimate: when, and which estimate. */
  datatype Driven = Driven(time: int, estimate: nat)

  /** Of two messages that follow changes and are less than 200 ms apart the later one is for an
      estimate that is lower, by the threshold, but for truncation. */
  ghost predicate Throttled(driven: seq<Driven>) {
    forall i, j :: 0 <= i < j < |driven| && driven[j].time < driven[i].time + SEND_INTERVAL ==>
      SEND_THRESHOLD_PERCENT * driven[j].estimate < 100 * (driven[i].estimate + 1)
  }

  ghost predicate InOrder(driven: seq<Driven>) {
    forall i, j :: 0 <= i < j < |driven| ==> driven[i].time <= driven[j].time
  }

  /** The estimate is compared after a truncating division. */
  lemma TruncatedThreshold(estimate: nat, last: nat)
    ensures estimate * SEND_THRESHOLD_PERCENT / 100 <= last <==> SEND_THRESHOLD_PERCENT * estimate < 100 * (last + 1)
  {
  }

  /** One more message keeps the order and the throttling: a message that is low enough for the
      last one is low enough for all of the last 200 ms. */
  lemma ThrottledAfter(driven: seq<Driven>, next: Driven)
    requires InOrder(driven) && Throttled(driven)
    requires driven != [] ==> driven[|driven| - 1].time <= next.time
    requires driven != [] && next.time < driven[|driven| - 1].time + SEND_INTERVAL ==>
      SEND_THRESHOLD_PERCENT * next.estimate < 100 * (driven[|driven| - 1].estimate + 1)
    ensures InOrder(driven + [next]) && Throttled(driven + [next])
  {
    var all, n := driven + [next], |driven|;
    forall i, j | 0 <= i < j < |all| && all[j].time < all[i].time + SEND_INTERVAL
      ensures SEND_THRESHOLD_PERCENT * all[j].estimate < 100 * (all[i].estimate + 1)
    {
      if j == n && i < n - 1 {
        assert driven[i].time <= driven[n - 1].time;
        assert SEND_THRESHOLD_PERCENT * driven[n - 1].estimate < 100 * (driven[i].estimate + 1);
      }
    }
  }

  function LastChange(driven: seq<Driven>): Option<Driven> {
    if driven == [] then None else Some(driven[|driven| - 1])
  }

  /** A maximum is held back: the last change sent is recent, not to zero, and within it. */
  predicate HeldBack(change: Option<Driven>, maximum: nat, now: int) {
    change.Some? && now < change.value.time + SEND_INTERVAL && 0 < change.value.estimate <= maximum
  }

  class RembThrottler {
    var lastRembTime: Timestamp
    var lastSendRembBitrate: Rate
    var maxRembBitrate: Rate

    /** The bitrate of the last REMB sent, if any; the messages that followed changes; and the
        latest clock reading. */
    ghost var lastSent: Option<nat>
    ghost var driven: seq<Driven>
    ghost var latest: Timestamp

    /** What holds whatever the clock does: the fields tell the last message that followed a change. */
    ghost predicate Core()
      reads this
    {
      && (driven == [] ==> lastRembTime == MinusInfinity && lastSendRembBitrate == Infinite)
      && (driven != [] ==>
            lastRembTime == At(driven[|driven| - 1].time) && lastSendRembBitrate == Bps(driven[|driven| - 1].estimate))
    }

    /** The last REMB sent respects the maximum. */
    ghost predicate Within()
      reads this
    {
      lastSent.Some? ==> !Bps(lastSent.value).Above(maxRembBitrate)
    }

    /** What holds as long as the clock does not go back: the last REMB respects the maximum, and
        also the last estimate sent, which is what a later lowering of the maximum is compared
        with; unless that estimate is zero or the 200 ms are over, when a lowering is always sent. */
    ghost predicate Valid()
      reads this
    {
      && Core() && Within()
      && (lastSent.Some? ==>
            || !Bps(lastSent.value).Above(lastSendRembBitrate)
            || lastSendRembBitrate == Bps(0)
            || IntervalOver())
      && latest != PlusInfinity && lastRembTime.AtMost(latest)
      && InOrder(driven) && Throttled(driven)
    }

    ghost predicate IntervalOver()
      reads this
    {
      lastRembTime == MinusInfinity || (lastRembTime.At? && latest.At? && latest.us >= lastRembTime.us + SEND_INTERVAL)
    }

    constructor ()
      ensures Valid() && lastSent == None && driven == [] && latest == MinusInfinity && maxRembBitrate == Infinite
    {
      lastRembTime, lastSendRembBitrate, maxRembBitrate := MinusInfinity, Infinite, Infinite;
      lastSent, driven, latest := None, [], MinusInfinity;
    }

    /** Whether less than 200 ms have passed since the last message that followed a change. */
    predicate Recent(now: int)
      reads this
    {
      lastRembTime.At? && now < lastRembTime.us + SEND_INTERVAL
    }

    /** A new estimate. It is held back exactly if the last message that followed a change is
        recent and the estimate is not lower by the threshold; what is sent is cut to the maximum. */
    method OnReceiveBitrateChanged(bitrate: nat, now: int) returns (sent: Option<nat>)
      requires Core()
      modifies this
      ensures Core() && latest == At(now) && maxRembBitrate == old(maxRembBitrate)
      ensures old(Valid()) && old(latest).AtMost(At(now)) ==> Valid()
      ensures Within() <==> sent.Some? || old(Within())
      ensures sent.None? <==> old(Recent(now)) && 100 * (old(driven)[|old(driven)| - 1].estimate + 1) <= SEND_THRESHOLD_PERCENT * bitrate
      ensures sent.None? ==> lastSent == old(lastSent) && driven == old(driven)
      ensures sent.Some? ==> lastSent == sent && sent.value == if maxRembBitrate.Bps? && maxRembBitrate.bps < bitrate then maxRembBitrate.bps else bitrate
      ensures sent.Some? ==> driven == old(driven) + [Driven(now, bitrate)]
      ensures sent.Some? ==> lastRembTime == At(now) && lastSendRembBitrate == Bps(bitrate)
    {
      hide Throttled, InOrder;
      latest := At(now);
      if driven != [] {
        TruncatedThreshold(bitrate, lastSendRembBitrate.bps);
      }
      if Bps(bitrate * SEND_THRESHOLD_PERCENT / 100).Above(lastSendRembBitrate) && Recent(now) {
        return None;
      }
      if InOrder(driven) && Throttled(driven) && lastRembTime.AtMost(At(now)) {
        ThrottledAfter(driven, Driven(now, bitrate));
      }
      lastRembTime := At(now);
      lastSendRembBitrate := Bps(bitrate);
      var rate := Least(lastSendRembBitrate, maxRembBitrate);
      sent := Some(rate.bps);
      lastSent := sent;
      driven := driven + [Driven(now, bitrate)];
    }

    /** A new maximum. It is held back exactly if the last estimate sent is recent, not zero and
        within it. The last REMB sent is within it exactly if the call is not held back or that
        REMB was within it before; if the clock does not go back, it always is. */
    method SetMaxDesiredReceiveBitrate(bitrate: nat, now: int) returns (sent: Option<nat>)
      requires Core()
      modifies `maxRembBitrate, `lastSent, `latest
      ensures Core() && latest == At(now) && maxRembBitrate == Bps(bitrate)
      ensures sent.None? <==> HeldBack(LastChange(driven), bitrate, now)
      ensures lastSent == (if sent.Some? then sent else old(lastSent)) && (sent.Some? ==> sent.value == bitrate)
      ensures old(Valid()) && old(latest).AtMost(At(now)) ==> Valid()
      ensures Within() <==> sent.Some? || (old(lastSent).Some? ==> old(lastSent).value <= bitrate)
    {
      hide Throttled, InOrder;
      latest := At(now);
      maxRembBitrate := Bps(bitrate);
      if Recent(now) && lastSendRembBitrate != Bps(0) && !lastSendRembBitrate.Above(maxRembBitrate) {
        return None;
      }
      sent := Some(bitrate);
      lastSent := sent;
    }
  }

  datatype Event = Estimate(bitrate: nat, now: int) | Maximum(bitrate: nat, now: int)

  /** The last REMB among those sent, if any. */
  ghost function LastOf(sent: seq<Option<nat>>): Option<nat> {
    if sent == [] then None
    else if sent[|sent| - 1].Some? then sent[|sent| - 1]
    else LastOf(sent[..|sent| - 1])
  }

  method Step(r: RembThrottler, e: Event) returns (sent: Option<nat>)
    requires r.Core()
    modifies r
    ensures r.Core() && r.latest == At(e.now)
    ensures old(r.Valid()) && old(r.latest).AtMost(At(e.now)) ==> r.Valid()
    ensures r.maxRembBitrate == if e.Maximum? then Bps(e.bitrate) else old(r.maxRembBitrate)
    ensures r.lastSent == if sent.Some? then sent else old(r.lastSent)
    ensures e.Estimate? && sent.Some? ==> r.Within()
    ensures e.Maximum? ==> (sent.None? <==> HeldBack(LastChange(r.driven), e.bitrate, e.now)) && (sent.Some? ==> sent.value == e.bitrate)
    ensures r.driven == old(r.driven) + if e.Estimate? && sent.Some? then [Driven(e.now, e.bitrate)] else []
  {
    hide Throttled, InOrder;
    match e
    case Estimate(bitrate, now) => sent := r.OnReceiveBitrateChanged(bitrate, now);
    case Maximum(bitrate, now) => sent := r.SetMaxDesiredReceiveBitrate(bitrate, now);
  }

  lemma ValidFacts(r: RembThrottler)
    requires r.Valid()
    ensures r.Core() && r.Within() && Throttled(r.driven)
  {
  }

  /** The clock does not go back in the first `n` events. */
  ghost predicate Forward(events: seq<Event>, n: nat)
    requires n <= |events|
  {
    forall i, j :: 0 <= i < j < n ==> events[i].now <= events[j].now
  }

  /** The last estimate sent in the first `n` events. */
  ghost function LastEstimate(events: seq<Event>, sent: seq<Option<nat>>, n: nat): Option<Driven>
    requires n <= |events| && n <= |sent|
  {
    if n == 0 then None
    else if events[n - 1].Estimate? && sent[n - 1].Some? then Some(Driven(events[n - 1].now, events[n - 1].bitrate))
    else LastEstimate(events, sent, n - 1)
  }

  /** Event `k` is a maximum that is held back although the last REMB sent exceeds it; whether it
      is shows from the events before it and its own time. */
  ghost predicate Missed(events: seq<Event>, sent: seq<Option<nat>>, k: nat)
    requires k < |events| && k <= |sent|
  {
    && events[k].Maximum? && HeldBack(LastEstimate(events, sent, k), events[k].bitrate, events[k].now)
    && LastOf(sent[..k]).Some? && LastOf(sent[..k]).value > events[k].bitrate
  }

  lemma {:induction false} LastEstimatePrefix(events: seq<Event>, sent: seq<Option<nat>>, s: Option<nat>, n: nat)
    requires n <= |events| && n <= |sent|
    ensures LastEstimate(events, sent + [s], n) == LastEstimate(events, sent, n)
  {
    if n > 0 {
      LastEstimatePrefix(events, sent, s, n - 1);
    }
  }

  /** Over every run with any clock: the last REMB sent is within the maximum desired at the time
      after every number of events, exactly if no maximum is held back while the last REMB sent
      exceeds it. With a clock that does not go back that never happens, and changes are throttled. */
  method Run(events: seq<Event>) returns (r: RembThrottler, sent: seq<Option<nat>>)
    ensures fresh(r) && r.Core() && |sent| == |events|
    ensures (forall k :: 0 <= k <= |events| ==> WithinMaximum(events, sent, k)) <==> (forall k :: 0 <= k < |events| ==> !Missed(events, sent, k))
    ensures Forward(events, |events|) ==> r.Valid() && Throttled(r.driven) && forall k :: 0 <= k <= |events| ==> WithinMaximum(events, sent, k)
  {
    hide Throttled, InOrder, RembThrottler.Valid, RembThrottler.Core, RembThrottler.Within, WithinMaximum, Missed, HeldBack,
      LastOf, LastEstimate, MaximumAt, Accounted;
    Unsent(events);
    r := new RembThrottler();
    ValidFacts(r);
    sent := [];
    for k := 0 to |events|
      invariant fresh(r) && r.Core() && |sent| == k
      invariant r.latest == if k == 0 then MinusInfinity else At(events[k - 1].now)
      invariant Forward(events, k) ==> r.Valid()
      invariant r.maxRembBitrate == MaximumAt(events, k) && r.lastSent == LastOf(sent)
      invariant LastChange(r.driven) == LastEstimate(events, sent, k)
      invariant Accounted(events, sent, k)
      invariant Forward(events, k) ==> forall i :: 0 <= i <= k ==> WithinMaximum(events, sent, i)
    {
      assert Forward(events, k + 1) ==> Forward(events, k) && r.latest.AtMost(At(events[k].now));
      var s := Step(r, events[k]);
      assert (sent + [s])[..k] == sent && (sent + [s])[..k + 1] == sent + [s];
      OneMoreEvent(events, sent, s, k);
      StepAccounted(events, sent, s, k, r);
      sent := sent + [s];
    }
    AllAccounted(events, sent);
    if Forward(events, |events|) {
      ValidFacts(r);
    }
  }

  /** So far, the REMBs were within the maximum all along exactly if no maximum was missed. */
  ghost predicate Accounted(events: seq<Event>, sent: seq<Option<nat>>, k: nat)
    requires k <= |events| && k <= |sent|
  {
    (forall i :: 0 <= i <= k ==> WithinMaximum(events, sent, i)) <==> (forall i :: 0 <= i < k ==> !Missed(events, sent, i))
  }

  lemma AllAccounted(events: seq<Event>, sent: seq<Option<nat>>)
    requires |sent| == |events| && Accounted(events, sent, |events|)
    ensures (forall k :: 0 <= k <= |events| ==> WithinMaximum(events, sent, k)) <==> (forall k :: 0 <= k < |events| ==> !Missed(events, sent, k))
  {
  }

  lemma Unsent(events: seq<Event>)
    ensures WithinMaximum(events, [], 0) && Accounted(events, [], 0)
    ensures MaximumAt(events, 0) == Infinite && LastOf([]) == None && LastEstimate(events, [], 0) == None
  {
  }

  lemma OneMoreEvent(events: seq<Event>, sent: seq<Option<nat>>, s: Option<nat>, k: nat)
    requires |sent| == k < |events|
    ensures MaximumAt(events, k + 1) == if events[k].Maximum? then Bps(events[k].bitrate) else MaximumAt(events, k)
    ensures LastOf(sent + [s]) == if s.Some? then s else LastOf(sent)
    ensures LastEstimate(events, sent + [s], k + 1) ==
      (if events[k].Estimate? && s.Some? then Some(Driven(events[k].now, events[k].bitrate)) else LastEstimate(events, sent, k))
  {
    assert (sent + [s])[..k] == sent;
    LastEstimatePrefix(events, sent, s, k);
  }

  lemma StepAccounted(events: seq<Event>, sent: seq<Option<nat>>, s: Option<nat>, k: nat, r: RembThrottler)
    requires |sent| == k < |events| && Accounted(events, sent, k)
    requires r.maxRembBitrate == MaximumAt(events, k + 1)
    requires r.lastSent == LastOf(sent + [s])
    requires r.lastSent == if s.Some? then s else LastOf(sent)
    requires events[k].Maximum? ==> (s.None? <==> HeldBack(LastEstimate(events, sent, k), events[k].bitrate, events[k].now))
    requires events[k].Maximum? && s.Some? ==> s.value == events[k].bitrate
    requires events[k].Estimate? && s.Some? ==> r.Within()
    ensures Accounted(events, sent + [s], k + 1)
    ensures Forward(events, k + 1) && r.Valid() && (forall i :: 0 <= i <= k ==> WithinMaximum(events, sent, i)) ==>
      forall i :: 0 <= i <= k + 1 ==> WithinMaximum(events, sent + [s], i)
  {
    var all := sent + [s];
    forall i | 0 <= i <= k
      ensures WithinMaximum(events, all, i) == WithinMaximum(events, sent, i)
      ensures i < k ==> Missed(events, all, i) == Missed(events, sent, i)
    {
      assert all[..i] == sent[..i];
      LastEstimatePrefix(events, sent, s, i);
    }
    assert all[..k] == sent == sent[..k] && all[..k + 1] == all;
    LastEstimatePrefix(events, sent, s, k);
    assert WithinMaximum(events, all, k) ==> (WithinMaximum(events, all, k + 1) <==> !Missed(events, all, k));
  }

  /** The maximum desired after the first `n` events. */
  ghost function MaximumAt(events: seq<Event>, n: nat): Rate
    requires n <= |events|
  {
    if n == 0 then Infinite
    else if events[n - 1].Maximum? then Bps(events[n - 1].bitrate)
    else MaximumAt(events, n - 1)
  }

  ghost predicate WithinMaximum(events: seq<Event>, sent: seq<Option<nat>>, k: nat)
    requires k <= |events| && k <= |sent|
  {
    LastOf(sent[..k]).Some? ==> !Bps(LastOf(sent[..k]).value).Above(MaximumAt(events, k))
  }

  /** An instance of a missed maximum: the message of a raised one is forgotten when the clock is
      back within 200 ms of an older change. */
  method ClockGoesBack() returns (r: RembThrottler, lastSent: nat)
    ensures fresh(r) && r.lastSent == Some(lastSent) && Bps(lastSent).Above(r.maxRembBitrate)
  {
    r := new RembThrottler();
    var sent := r.OnReceiveBitrateChanged(10, 0);
    sent := r.SetMaxDesiredReceiveBitrate(1000, 300_000);
    lastSent := sent.value;
    sent := r.SetMaxDesiredReceiveBitrate(500, 100_000);
  }

  /** "Sent if the estimate has decreased" is not kept: a decrease of less than three percent
      within 200 ms is held back. */
  method SmallDecreaseIsHeldBack() returns (sent: Option<nat>)
    ensures sent == None
  {
    var r := new RembThrottler();
    sent := r.OnReceiveBitrateChanged(1000, 0);
    sent := r.OnReceiveBitrateChanged(999, 0);
  }
}
