/** The pacer's token bucket: a byte budget refilled by elapsed time and drawn by packets. */
module IntervalBudget {
  import opened Collections

  const WINDOW_MS := 500

  /** Conversion of a 64-bit size to a 32-bit signed integer keeps the low 32 bits. */
  function AsInt32(bytes: nat): (i: int)
    ensures -0x8000_0000 <= i < 0x8000_0000
  {
    var low := bytes % 0x1_0000_0000;
    if low < 0x8000_0000 then low else low - 0x1_0000_0000
  }

  /** It differs from the size by whole multiples of the range, and there is only one such integer. */
  lemma ConvertedExactly(bytes: nat, i: int, high: int)
    requires -0x8000_0000 <= i < 0x8000_0000 && bytes == 0x1_0000_0000 * high + i
    ensures AsInt32(bytes) == i
  {
  }

  /** The most a budget holds or owes: half a second at its rate. */
  function WindowBytes(rateKbps: nat): (bytes: int)
    ensures bytes >= 0
  {
    WINDOW_MS * rateKbps / 8
  }

  lemma WindowMeans(rateKbps: nat)
    ensures 8 * WindowBytes(rateKbps) <= 500 * rateKbps < 8 * WindowBytes(rateKbps) + 8
  {
  }

  function BytesIn(rateKbps: nat, deltaMs: nat): nat {
    rateKbps * deltaMs / 8
  }

  /** The remainder after `deltaMs` at a rate. Unused budget is kept only if `buildUp`. */
  function Refilled(remaining: int, rateKbps: nat, deltaMs: nat, buildUp: bool): int {
    var bytes := BytesIn(rateKbps, deltaMs);
    if remaining < 0 || buildUp then Min(remaining + bytes, WindowBytes(rateKbps))
    else Min(bytes, WindowBytes(rateKbps))
  }

  /** What a refill leaves, told by products: it grants what the rate gives in the time, less than a
      byte short, on top of debt, and on top of what was left only if that may build up; unless the
      window is full. */
  ghost predicate RefilledBy(before: int, after: int, rateKbps: nat, deltaMs: nat, buildUp: bool) {
    var kept := if buildUp then before else Min(before, 0);
    && after <= WindowBytes(rateKbps)
    && (before <= WindowBytes(rateKbps) || !buildUp ==> 8 * (after - kept) <= rateKbps * deltaMs)
    && (after == WindowBytes(rateKbps) || 8 * (after - kept) > rateKbps * deltaMs - 8)
  }

  lemma RefillExactly(remaining: int, rateKbps: nat, deltaMs: nat, buildUp: bool)
    ensures RefilledBy(remaining, Refilled(remaining, rateKbps, deltaMs, buildUp), rateKbps, deltaMs, buildUp)
  {
  }

  /** The remainder after drawing `bytes`: debt is capped at one window. */
  function Drawn(remaining: int, rateKbps: nat, bytes: nat): int {
    Max(remaining - AsInt32(bytes), -WindowBytes(rateKbps))
  }

  predicate InWindow(remaining: int, rateKbps: nat) {
    -WindowBytes(rateKbps) <= remaining <= WindowBytes(rateKbps)
  }

  /** The remainder nearest to what it was that fits the window of a rate. */
  function Clamped(remaining: int, rateKbps: nat): (r: int)
    ensures InWindow(r, rateKbps) && (InWindow(remaining, rateKbps) ==> r == remaining)
    ensures (remaining > WindowBytes(rateKbps) ==> r == WindowBytes(rateKbps)) && (remaining < -WindowBytes(rateKbps) ==> r == -WindowBytes(rateKbps))
  {
    Min(Max(-WindowBytes(rateKbps), remaining), WindowBytes(rateKbps))
  }

  // ----- Everything done to a budget -----

  datatype Op = Elapse(deltaMs: nat) | Send(bytes: nat) | Rate(kbps: nat)

  datatype State = State(remaining: int, rateKbps: nat)

  function Step(s: State, buildUp: bool, op: Op): State {
    match op
    case Elapse(delta) => s.(remaining := Refilled(s.remaining, s.rateKbps, delta, buildUp))
    case Send(bytes) => s.(remaining := Drawn(s.remaining, s.rateKbps, bytes))
    case Rate(kbps) => State(Clamped(s.remaining, kbps), kbps)
  }

  function After(s: State, buildUp: bool, ops: seq<Op>): State {
    if ops == [] then s
    else Step(After(s, buildUp, ops[..|ops| - 1]), buildUp, ops[|ops| - 1])
  }

  /** Bytes drawn. */
  function Sent(ops: seq<Op>): nat {
    if ops == [] then 0
    else Sent(ops[..|ops| - 1]) + if ops[|ops| - 1].Send? then ops[|ops| - 1].bytes else 0
  }

  function Elapsed(ops: seq<Op>): nat {
    if ops == [] then 0
    else Elapsed(ops[..|ops| - 1]) + if ops[|ops| - 1].Elapse? then ops[|ops| - 1].deltaMs else 0
  }

  /** Budget granted by the passing of time at the rates of the time, each interval rounded down on
      its own. */
  function Granted(s: State, buildUp: bool, ops: seq<Op>): nat {
    if ops == [] then 0
    else
      var last := ops[|ops| - 1];
      Granted(s, buildUp, ops[..|ops| - 1]) +
      if last.Elapse? then BytesIn(After(s, buildUp, ops[..|ops| - 1]).rateKbps, last.deltaMs) else 0
  }

  /** Debt one step writes off because it is more than one window. */
  function WrittenOff(s: State, buildUp: bool, op: Op): nat {
    match op
    case Elapse(_) => 0
    case Send(bytes) => Max(0, Drawn(s.remaining, s.rateKbps, bytes) - (s.remaining - bytes))
    case Rate(kbps) => Max(0, Clamped(s.remaining, kbps) - s.remaining)
  }

  function Forgiven(s: State, buildUp: bool, ops: seq<Op>): nat {
    if ops == [] then 0
    else
      Forgiven(s, buildUp, ops[..|ops| - 1]) +
      WrittenOff(After(s, buildUp, ops[..|ops| - 1]), buildUp, ops[|ops| - 1])
  }

  lemma OneMoreOp(s: State, buildUp: bool, ops: seq<Op>, op: Op)
    ensures After(s, buildUp, ops + [op]) == Step(After(s, buildUp, ops), buildUp, op)
    ensures Sent(ops + [op]) == Sent(ops) + (if op.Send? then op.bytes else 0)
    ensures Elapsed(ops + [op]) == Elapsed(ops) + (if op.Elapse? then op.deltaMs else 0)
  {
    assert (ops + [op])[..|ops|] == ops;
  }

  lemma DrawRecorded(s: State, buildUp: bool, ops: seq<Op>, bytes: nat)
    ensures var before := After(s, buildUp, ops);
      After(s, buildUp, ops + [Send(bytes)]) == before.(remaining := Drawn(before.remaining, before.rateKbps, bytes))
  {
    hide After;
    OneMoreOp(s, buildUp, ops, Send(bytes));
  }

  class IntervalBudget {
    var targetRateKbps: nat
    var maxBytesInBudget: int
    var remaining: int
    const canBuildUpUnderuse: bool

    /** The rate at the start, and everything done to the budget since. */
    ghost const initialRateKbps: nat
    ghost var history: seq<Op>

    ghost predicate Valid()
      reads this
    {
      Recorded() && InWindow(remaining, targetRateKbps)
    }

    /** The budget is where its history leads. */
    ghost predicate Recorded()
      reads this
    {
      && maxBytesInBudget == WindowBytes(targetRateKbps)
      && State(remaining, targetRateKbps) == After(State(0, initialRateKbps), canBuildUpUnderuse, history)
    }

    constructor (initialRateKbps: nat, buildUp: bool)
      ensures Valid() && remaining == 0 && targetRateKbps == this.initialRateKbps == initialRateKbps
      ensures canBuildUpUnderuse == buildUp && history == []
    {
      this.initialRateKbps, history := initialRateKbps, [];
      canBuildUpUnderuse := buildUp;
      remaining := 0;
      targetRateKbps := initialRateKbps;
      maxBytesInBudget := WINDOW_MS * initialRateKbps / 8;
    }

    /** A new rate keeps the remainder if it fits the new window and else moves it to the nearer end. */
    method SetTargetRateKbps(rateKbps: nat)
      requires Recorded()
      modifies this
      ensures Valid() && targetRateKbps == rateKbps && history == old(history) + [Rate(rateKbps)]
      ensures remaining == Clamped(old(remaining), rateKbps)
    {
      OneMoreOp(State(0, initialRateKbps), canBuildUpUnderuse, history, Rate(rateKbps));
      history := history + [Rate(rateKbps)];
      targetRateKbps := rateKbps;
      maxBytesInBudget := WINDOW_MS * targetRateKbps / 8;
      remaining := Min(Max(-maxBytesInBudget, remaining), maxBytesInBudget);
    }

    method IncreaseBudget(deltaMs: nat)
      requires Valid()
      modifies `remaining, `history
      ensures Valid() && history == old(history) + [Elapse(deltaMs)]
      ensures remaining == Refilled(old(remaining), targetRateKbps, deltaMs, canBuildUpUnderuse)
      ensures RefilledBy(old(remaining), remaining, targetRateKbps, deltaMs, canBuildUpUnderuse)
    {
      hide RefilledBy;
      RefillExactly(remaining, targetRateKbps, deltaMs, canBuildUpUnderuse);
      BytesNonNegative(targetRateKbps, deltaMs);
      OneMoreOp(State(0, initialRateKbps), canBuildUpUnderuse, history, Elapse(deltaMs));
      history := history + [Elapse(deltaMs)];
      var bytes := targetRateKbps * deltaMs / 8;
      if remaining < 0 || canBuildUpUnderuse {
        remaining := Min(remaining + bytes, maxBytesInBudget);
      } else {
        remaining := Min(bytes, maxBytesInBudget);
      }
    }

    /** The budget stays inside its window exactly when the 32-bit conversion leaves it there. */
    method UseBudget(bytes: nat)
      requires Valid()
      modifies `remaining, `history
      ensures Recorded() && history == old(history) + [Send(bytes)]
      ensures remaining == Drawn(old(remaining), targetRateKbps, bytes)
      ensures Valid() <==> old(remaining) - AsInt32(bytes) <= WindowBytes(targetRateKbps)
      ensures bytes < 0x8000_0000 ==> Valid() && remaining == Max(old(remaining) - bytes, -WindowBytes(targetRateKbps))
    {
      hide AsInt32, WindowBytes, After;
      SmallSizeConverts(bytes);
      DrawRecorded(State(0, initialRateKbps), canBuildUpUnderuse, history, bytes);
      history := history + [Send(bytes)];
      remaining := Max(remaining - AsInt32(bytes), -maxBytesInBudget);
    }

    function BytesRemaining(): (r: nat)
      reads this
      ensures r > 0 <==> remaining > 0
      ensures remaining > 0 ==> r == remaining
    {
      Max(0, remaining)
    }
  }

  lemma SmallSizeConverts(bytes: nat)
    ensures bytes < 0x8000_0000 ==> AsInt32(bytes) == bytes
  {
  }

  lemma BytesNonNegative(rateKbps: nat, deltaMs: nat)
    ensures rateKbps * deltaMs >= 0 && rateKbps * deltaMs / 8 >= 0
  {
  }

  /** Drawing keeps every remainder inside the window exactly when the size survives the
      conversion to 32 bits as a non-negative number. */
  lemma DrawStaysInWindow(rateKbps: nat, bytes: nat)
    ensures (forall r :: InWindow(r, rateKbps) ==> InWindow(Drawn(r, rateKbps, bytes), rateKbps)) <==> AsInt32(bytes) >= 0
  {
    var w := WindowBytes(rateKbps);
    assert InWindow(w, rateKbps);
    if AsInt32(bytes) < 0 {
      assert !InWindow(Drawn(w, rateKbps, bytes), rateKbps);
    }
  }

  /** One such size: 2^31 bytes lift an empty budget above its window. */
  lemma HugeDrawLeavesWindow()
    ensures InWindow(0, 8) && !InWindow(Drawn(0, 8, 0x8000_0000), 8)
  {
  }

  /** Unused budget is never carried over without build-up: after any run, what is left once some
      time has passed is at most what that time alone grants, and at least that, less a byte, unless
      there was debt or the window is full. */
  lemma NothingCarriedOver(s: State, ops: seq<Op>, deltaMs: nat)
    ensures var before := After(s, false, ops); var after := After(s, false, ops + [Elapse(deltaMs)]).remaining;
      && 8 * after <= before.rateKbps * deltaMs
      && (before.remaining >= 0 ==> after == WindowBytes(before.rateKbps) || 8 * after > before.rateKbps * deltaMs - 8)
  {
    hide After, Refilled, WindowBytes;
    OneMoreOp(s, false, ops, Elapse(deltaMs));
    RefillExactly(After(s, false, ops).remaining, After(s, false, ops).rateKbps, deltaMs, false);
  }

  /** A draw takes its bytes, unless the debt would be more than a window. */
  lemma DrawExactly(s: State, bytes: nat)
    requires bytes < 0x8000_0000
    ensures Step(s, false, Send(bytes)).remaining == Max(s.remaining - bytes, -WindowBytes(s.rateKbps)) >= s.remaining - bytes
  {
    hide WindowBytes;
    SmallSizeConverts(bytes);
  }

  lemma RateSet(s: State, rateKbps: nat)
    ensures Step(s, false, Rate(rateKbps)).rateKbps == rateKbps
  {
  }

  /** Without debt, a new rate and some time leave budget if the rate gives a byte in the time. */
  lemma RateThenElapse(s: State, rateKbps: nat, deltaMs: nat)
    requires s.remaining >= 0 && rateKbps * deltaMs >= 8
    ensures Step(Step(s, false, Rate(rateKbps)), false, Elapse(deltaMs)).remaining > 0
  {
    hide Refilled, WindowBytes;
    RefillExactly(Clamped(s.remaining, rateKbps), rateKbps, deltaMs, false);
    assert rateKbps > 0;
    RateHasWindow(rateKbps);
  }

  /** A window holds at least 62 bytes, unless the rate is zero. */
  lemma RateHasWindow(rateKbps: nat)
    requires rateKbps > 0
    ensures WindowBytes(rateKbps) >= 62
  {
  }

  // ----- The token bucket over whole runs -----

  /** A run that draws only while the budget is positive. */
  ghost predicate Paced(s: State, buildUp: bool, ops: seq<Op>) {
    forall k :: 0 <= k < |ops| && ops[k].Send? ==> After(s, buildUp, ops[..k]).remaining > 0
  }

  ghost predicate PacketsAtMost(ops: seq<Op>, largest: nat) {
    forall k :: 0 <= k < |ops| && ops[k].Send? ==> ops[k].bytes <= largest
  }

  ghost predicate RatesAtMost(s: State, ops: seq<Op>, top: nat) {
    s.rateKbps <= top && forall k :: 0 <= k < |ops| && ops[k].Rate? ==> ops[k].kbps <= top
  }

  ghost predicate RatesAtLeast(ops: seq<Op>, floor: nat) {
    forall k :: 0 <= k < |ops| && ops[k].Rate? ==> ops[k].kbps >= floor
  }

  /** No debt beyond the window of the lowest rate; before the first rate is set, none at all. */
  predicate Sound(s: State, floor: nat) {
    (s.rateKbps >= floor && s.remaining >= -WindowBytes(floor)) || s == State(0, 0)
  }

  /** A run without its last step is a run of the same kind. */
  lemma Shorter(s: State, buildUp: bool, ops: seq<Op>)
    requires ops != []
    ensures Paced(s, buildUp, ops) ==> Paced(s, buildUp, ops[..|ops| - 1])
    ensures forall largest: nat :: PacketsAtMost(ops, largest) ==> PacketsAtMost(ops[..|ops| - 1], largest)
    ensures forall top: nat :: RatesAtMost(s, ops, top) ==> RatesAtMost(s, ops[..|ops| - 1], top)
    ensures forall floor: nat :: RatesAtLeast(ops, floor) ==> RatesAtLeast(ops[..|ops| - 1], floor)
  {
    var init := ops[..|ops| - 1];
    forall k | 0 <= k < |init| ensures init[..k] == ops[..k] && init[k] == ops[k] {
    }
  }

  /** What a step leaves is at most what there was, plus what it grants or writes off, less what it draws. */
  lemma StepAccounts(s: State, buildUp: bool, op: Op)
    ensures Step(s, buildUp, op).remaining <= s.remaining + WrittenOff(s, buildUp, op)
      + (if op.Elapse? then BytesIn(s.rateKbps, op.deltaMs) else 0) - (if op.Send? then op.bytes else 0)
  {
    hide WindowBytes, BytesIn, AsInt32;
  }

  /** The account of any run at all: what is left is at most what there was at the start, plus what
      was granted and written off, less what was drawn. */
  lemma {:induction false} Accounting(s: State, buildUp: bool, ops: seq<Op>)
    ensures After(s, buildUp, ops).remaining <= s.remaining + Granted(s, buildUp, ops) + Forgiven(s, buildUp, ops) - Sent(ops)
  {
    hide Step, WrittenOff, BytesIn;
    if ops != [] {
      Accounting(s, buildUp, ops[..|ops| - 1]);
      StepAccounts(After(s, buildUp, ops[..|ops| - 1]), buildUp, ops[|ops| - 1]);
    }
  }

  /** Token bucket: the bytes sent exceed what was left at the start plus what time granted by
      less than one packet, not counting debt written off. */
  lemma {:induction false} TokenBucket(s: State, buildUp: bool, ops: seq<Op>, largest: nat)
    requires Paced(s, buildUp, ops) && PacketsAtMost(ops, largest)
    ensures Sent(ops) == 0 || Sent(ops) < s.remaining + Granted(s, buildUp, ops) + Forgiven(s, buildUp, ops) + largest
  {
    hide After, WrittenOff, BytesIn, PacketsAtMost, Paced;
    if ops != [] {
      Shorter(s, buildUp, ops);
      TokenBucket(s, buildUp, ops[..|ops| - 1], largest);
      if ops[|ops| - 1].Send? {
        LastDraw(s, buildUp, ops, largest);
      }
    }
  }

  lemma LastDraw(s: State, buildUp: bool, ops: seq<Op>, largest: nat)
    requires ops != [] && ops[|ops| - 1].Send? && Paced(s, buildUp, ops) && PacketsAtMost(ops, largest)
    ensures Sent(ops[..|ops| - 1]) < s.remaining + Granted(s, buildUp, ops[..|ops| - 1]) + Forgiven(s, buildUp, ops[..|ops| - 1])
    ensures ops[|ops| - 1].bytes <= largest
  {
    Accounting(s, buildUp, ops[..|ops| - 1]);
  }

  lemma WiderWindow(a: nat, b: nat)
    requires a <= b
    ensures WindowBytes(a) <= WindowBytes(b)
  {
  }

  /** A step writes nothing off exactly if it leaves no more debt than one window. */
  lemma WrittenOffExactly(s: State, buildUp: bool, op: Op)
    requires op.Send? ==> op.bytes < 0x8000_0000
    ensures WrittenOff(s, buildUp, op) == 0 <==>
      match op
      case Elapse(_) => true
      case Send(bytes) => bytes - s.remaining <= WindowBytes(s.rateKbps)
      case Rate(kbps) => -s.remaining <= WindowBytes(kbps)
  {
    hide WindowBytes;
    if op.Send? {
      SmallSizeConverts(op.bytes);
    }
  }

  /** A run writes nothing off exactly if no step of it does. */
  lemma {:induction false} ForgivenExactly(s: State, buildUp: bool, ops: seq<Op>)
    ensures Forgiven(s, buildUp, ops) == 0 <==> forall k :: 0 <= k < |ops| ==> WrittenOff(After(s, buildUp, ops[..k]), buildUp, ops[k]) == 0
  {
    hide After, WrittenOff;
    if ops != [] {
      var init := ops[..|ops| - 1];
      ForgivenExactly(s, buildUp, init);
      assert forall k :: 0 <= k < |init| ==> init[..k] == ops[..k] && init[k] == ops[k];
    }
  }

  /** Nothing is written off, not even when the rate changes, while every packet fits the window of
      the lowest rate. */
  lemma {:induction false} NothingForgiven(s: State, buildUp: bool, ops: seq<Op>, floor: nat, largest: nat)
    requires Paced(s, buildUp, ops) && PacketsAtMost(ops, largest) && RatesAtLeast(ops, floor) && Sound(s, floor)
    requires largest <= WindowBytes(floor) && largest < 0x8000_0000
    ensures Forgiven(s, buildUp, ops) == 0 && Sound(After(s, buildUp, ops), floor)
  {
    hide Step, WrittenOff, WindowBytes, PacketsAtMost, Paced, Sound, RatesAtLeast;
    if ops != [] {
      Shorter(s, buildUp, ops);
      NothingForgiven(s, buildUp, ops[..|ops| - 1], floor, largest);
      LastStep(s, buildUp, ops, floor, largest);
      StepForgivesNothing(After(s, buildUp, ops[..|ops| - 1]), buildUp, ops[|ops| - 1], floor, largest);
    }
  }

  lemma LastStep(s: State, buildUp: bool, ops: seq<Op>, floor: nat, largest: nat)
    requires ops != [] && Paced(s, buildUp, ops) && PacketsAtMost(ops, largest) && RatesAtLeast(ops, floor)
    ensures ops[|ops| - 1].Send? ==> After(s, buildUp, ops[..|ops| - 1]).remaining > 0 && ops[|ops| - 1].bytes <= largest
    ensures ops[|ops| - 1].Rate? ==> ops[|ops| - 1].kbps >= floor
  {
    hide After;
  }

  lemma StepForgivesNothing(s: State, buildUp: bool, op: Op, floor: nat, largest: nat)
    requires Sound(s, floor)
    requires op.Send? ==> s.remaining > 0 && op.bytes <= largest <= WindowBytes(floor) && largest < 0x8000_0000
    requires op.Rate? ==> op.kbps >= floor
    ensures WrittenOff(s, buildUp, op) == 0 && Sound(Step(s, buildUp, op), floor)
  {
    hide WindowBytes, BytesIn, AsInt32;
    NoRateNoBytes(op);
    if op.Send? {
      SmallSizeConverts(op.bytes);
    }
    if s.rateKbps >= floor {
      WiderWindow(floor, s.rateKbps);
    }
    if op.Rate? {
      WiderWindow(floor, op.kbps);
    }
  }

  lemma NoRateNoBytes(op: Op)
    ensures WindowBytes(0) == 0 && (op.Elapse? ==> BytesIn(0, op.deltaMs) == 0)
  {
  }

  lemma {:induction false} RateBounded(s: State, buildUp: bool, ops: seq<Op>, top: nat)
    requires RatesAtMost(s, ops, top)
    ensures After(s, buildUp, ops).rateKbps <= top
  {
    if ops != [] {
      Shorter(s, buildUp, ops);
      RateBounded(s, buildUp, ops[..|ops| - 1], top);
    }
  }

  lemma BytesAtMost(rateKbps: nat, top: nat, deltaMs: nat)
    requires rateKbps <= top
    ensures 8 * BytesIn(rateKbps, deltaMs) <= top * deltaMs
  {
    BytesNonNegative(rateKbps, deltaMs);
    assert rateKbps * deltaMs <= top * deltaMs;
  }

  lemma {:induction false} GrantedByRate(s: State, buildUp: bool, ops: seq<Op>, top: nat)
    requires RatesAtMost(s, ops, top)
    ensures 8 * Granted(s, buildUp, ops) <= top * Elapsed(ops)
  {
    hide BytesIn, After, RatesAtMost;
    if ops != [] {
      var init, last := ops[..|ops| - 1], ops[|ops| - 1];
      Shorter(s, buildUp, ops);
      GrantedByRate(s, buildUp, init, top);
      if last.Elapse? {
        RateBounded(s, buildUp, init, top);
        BytesAtMost(After(s, buildUp, init).rateKbps, top, last.deltaMs);
        assert top * (Elapsed(init) + last.deltaMs) == top * Elapsed(init) + top * last.deltaMs;
      }
    }
  }

  /** With packets no larger than the window of the lowest rate, a paced run of T ms sends less than
      the starting remainder, plus the highest rate times T, plus one packet. */
  lemma PacingRate(s: State, buildUp: bool, ops: seq<Op>, floor: nat, top: nat, largest: nat)
    requires Paced(s, buildUp, ops) && PacketsAtMost(ops, largest)
    requires RatesAtLeast(ops, floor) && RatesAtMost(s, ops, top) && Sound(s, floor)
    requires largest <= WindowBytes(floor) && largest < 0x8000_0000
    ensures Sent(ops) == 0 || 8 * (Sent(ops) - s.remaining - largest) < top * Elapsed(ops)
  {
    TokenBucket(s, buildUp, ops, largest);
    NothingForgiven(s, buildUp, ops, floor, largest);
    GrantedByRate(s, buildUp, ops, top);
  }
}
