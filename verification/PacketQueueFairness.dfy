/** What the pop rule guarantees over whole runs: bounded unfairness between streams, and the
    order in which a queue drains. */
module PacketQueueFairness {
  import opened Collections
  import opened Packets
  import opened PacketQueueModel

  /** Idle stands for every operation that neither adds nor removes packets. */
  datatype Event = Pushed(item: Item) | Popped(item: Item, bytes: nat) | Idle

  ghost predicate Step(s: Sched, e: Event, t: Sched) {
    match e
    case Pushed(x) => PushStep(s, x, t)
    case Popped(x, bytes) => PopStep(s, x, bytes, t)
    case Idle => IdleStep(s, t)
  }

  ghost predicate Run(states: seq<Sched>, events: seq<Event>) {
    && |states| == |events| + 1
    && forall i :: 0 <= i < |events| ==> Step(states[i], events[i], states[i + 1])
  }

  lemma StepKeepsLed(s: Sched, e: Event, t: Sched)
    requires Step(s, e, t) && Led(s)
    ensures Led(t)
  {
  }

  predicate PopsFrom(e: Event, ssrc: nat) {
    e.Popped? && e.item.Ssrc() == ssrc
  }

  /** Bytes an event pops from one stream at a priority number of at least `priority`. */
  function Taken(e: Event, ssrc: nat, priority: int): nat {
    if PopsFrom(e, ssrc) && e.item.priority >= priority then e.bytes else 0
  }

  /** Bytes popped during a run from one stream at a priority number of at least `priority`. */
  function Bytes(events: seq<Event>, ssrc: nat, priority: int): nat {
    if |events| == 0 then 0
    else Bytes(events[..|events| - 1], ssrc, priority) + Taken(events[|events| - 1], ssrc, priority)
  }

  /** The stream has a packet queued that is at least as urgent as `priority`. */
  ghost predicate Backlogged(s: Sched, ssrc: nat, priority: int) {
    exists x :: x in s.bag && x.Ssrc() == ssrc && x.priority <= priority
  }

  /** A run during which `waiting` always has a packet at least as urgent as `priority` queued and
      never pops one, and no popped packet exceeds `largest`. Anything else may be queued. */
  ghost predicate WaitingRun(states: seq<Sched>, events: seq<Event>, waiting: nat, priority: int, largest: nat) {
    && Run(states, events)
    && Led(states[0])
    && (forall i :: 0 <= i < |states| ==> Backlogged(states[i], waiting, priority))
    && (forall i :: 0 <= i < |events| ==> !PopsFrom(events[i], waiting))
    && (forall i :: 0 <= i < |events| && events[i].Popped? ==> events[i].bytes <= largest)
  }

  /** How far the other stream's charge has come, once it has popped at that priority. */
  ghost predicate Advanced(states: seq<Sched>, events: seq<Event>, waiting: nat, other: nat, priority: int, largest: nat)
    requires |states| == |events| + 1
  {
    var s, bytes := states[|events|], Bytes(events, other, priority);
    && Led(s)
    && s.Charge(waiting) == states[0].Charge(waiting)
    && bytes <= MAX_LEADING_SIZE + 2 * largest
    && (bytes == 0 || s.Charge(other) >= s.Charge(waiting) - MAX_LEADING_SIZE + bytes - largest)
  }

  /** One more event: a pop of the other stream at no better priority than the waiting packet's
      needs its charge to be at most the waiting one's; at a better priority it only adds charge. */
  lemma AdvanceStep(s: Sched, e: Event, t: Sched, waiting: nat, other: nat, priority: int, largest: nat, bytes: nat)
    requires Step(s, e, t) && Led(s) && waiting != other && Backlogged(s, waiting, priority)
    requires !PopsFrom(e, waiting) && (e.Popped? ==> e.bytes <= largest)
    requires bytes <= MAX_LEADING_SIZE + 2 * largest
    requires bytes == 0 || s.Charge(other) >= s.Charge(waiting) - MAX_LEADING_SIZE + bytes - largest
    ensures t.Charge(waiting) == s.Charge(waiting)
    ensures var sum := bytes + Taken(e, other, priority);
      && sum <= MAX_LEADING_SIZE + 2 * largest
      && (sum == 0 || t.Charge(other) >= t.Charge(waiting) - MAX_LEADING_SIZE + sum - largest)
  {
    if PopsFrom(e, other) {
      var y :| y in s.bag && y.Ssrc() == waiting && y.priority <= priority;
      assert e.item.priority <= y.priority;
      assert e.item.priority >= priority ==> s.Charge(other) <= s.Charge(waiting);
      assert s.bag != multiset{e.item};
    }
  }

  lemma {:induction false} WaitingRunAdvances(states: seq<Sched>, events: seq<Event>, waiting: nat, other: nat, priority: int, largest: nat)
    requires WaitingRun(states, events, waiting, priority, largest) && waiting != other
    ensures Advanced(states, events, waiting, other, priority, largest)
    decreases |events|
  {
    if |events| > 0 {
      var n := |events| - 1;
      var before, earlier := states[..|events|], events[..n];
      assert WaitingRun(before, earlier, waiting, priority, largest);
      WaitingRunAdvances(before, earlier, waiting, other, priority, largest);
      assert Step(states[n], events[n], states[n + 1]);
      StepKeepsLed(states[n], events[n], states[n + 1]);
      AdvanceStep(states[n], events[n], states[n + 1], waiting, other, priority, largest, Bytes(earlier, other, priority));
    }
  }

  /** Bounded unfairness: while a stream waits with a packet of some priority or better, any other
      stream pops at most MAX_LEADING_SIZE bytes plus two of the largest packets at that priority
      or worse, whatever else is queued, pushed and popped meanwhile. */
  lemma BoundedUnfairness(states: seq<Sched>, events: seq<Event>, waiting: nat, other: nat, priority: int, largest: nat)
    requires WaitingRun(states, events, waiting, priority, largest) && waiting != other
    ensures Bytes(events, other, priority) <= MAX_LEADING_SIZE + 2 * largest
  {
    WaitingRunAdvances(states, events, waiting, other, priority, largest);
  }

  // ----- Draining -----

  lemma {:induction false} StaysQueued(states: seq<Sched>, events: seq<Event>, i: nat, j: nat, x: Item)
    requires Run(states, events) && i <= j < |states|
    requires forall k :: 0 <= k < |events| ==> events[k].Popped?
    requires x in states[j].bag
    ensures x in states[i].bag
    decreases j - i
  {
    if i < j {
      assert Step(states[j - 1], events[j - 1], states[j]);
      StaysQueued(states, events, i, j - 1, x);
    }
  }

  /** A run of pops delivers priorities in order, and at each priority the retransmissions of a
      stream before its other packets, each in the order of their enqueueing. */
  lemma DrainOrder(states: seq<Sched>, events: seq<Event>, i: nat, j: nat)
    requires Run(states, events) && i < j < |events|
    requires forall k :: 0 <= k < |events| ==> events[k].Popped?
    ensures events[i].item.priority <= events[j].item.priority
    ensures var x, y := events[i].item, events[j].item;
      x.Ssrc() == y.Ssrc() && x.priority == y.priority ==>
        (y.isRetransmission ==> x.isRetransmission) && (x.isRetransmission == y.isRetransmission ==> x.enqueueOrder <= y.enqueueOrder)
  {
    assert Step(states[i], events[i], states[i + 1]);
    assert Step(states[j], events[j], states[j + 1]);
    StaysQueued(states, events, i, j, events[j].item);
  }
}
