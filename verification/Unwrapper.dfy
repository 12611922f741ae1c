/** Unwrapping numbers of a fixed width, for any width: `half` is half the range, 2^(N-1) for N
    bits. C++ subtracts narrow unsigned numbers as int and wide ones modulo the range; both are
    modelled, `promoted` telling which. */
module Unwrapper {
  import opened Collections

  function Range(half: int): int {
    2 * half
  }

  predicate Fits(half: int, value: int) {
    0 <= value < Range(half)
  }

  /** The conversion to the unsigned type. */
  function Crop(half: int, x: int): (r: int)
    requires half > 0
    ensures Fits(half, r)
  {
    x % Range(half)
  }

  function Subtract(half: int, promoted: bool, a: int, b: int): int
    requires half > 0
  {
    if promoted then a - b else Crop(half, a - b)
  }

  predicate IsNewer(half: int, promoted: bool, value: int, prev: int)
    requires half > 0 && Fits(half, value) && Fits(half, prev)
  {
    if Subtract(half, promoted, value, prev) == half then value > prev
    else value != prev && Crop(half, Subtract(half, promoted, value, prev)) < half
  }

  /** Newer means ahead by less than half the range, or by exactly half without wrapping. */
  lemma IsNewerMeans(half: int, promoted: bool, value: int, prev: int)
    requires half > 0 && Fits(half, value) && Fits(half, prev)
    ensures IsNewer(half, promoted, value, prev) <==> 0 < value - prev <= half || value - prev < -half
  {
    CropNear(half, value - prev);
    CropNear(half, Crop(half, value - prev));
  }

  /** Of two distinct values exactly one is newer; neither of two equal ones is. */
  lemma NewerInOneDirection(half: int, promoted: bool, a: int, b: int)
    requires half > 0 && Fits(half, a) && Fits(half, b)
    ensures if a == b then !IsNewer(half, promoted, a, b) else IsNewer(half, promoted, a, b) != IsNewer(half, promoted, b, a)
  {
    IsNewerMeans(half, promoted, a, b);
    IsNewerMeans(half, promoted, b, a);
  }

  // ----- Whole ranges -----

  function Times(k: int, m: int): int {
    k * m
  }

  function Turns(half: int, x: int): int
    requires half > 0
  {
    x / Range(half)
  }

  lemma TimesBounds(k: int, m: int)
    requires m > 0
    ensures k >= 2 ==> Times(k, m) >= 2 * m
    ensures k <= -2 ==> Times(k, m) <= -2 * m
    ensures Times(0, m) == 0 && Times(1, m) == m && Times(-1, m) == -m
  {
    if k >= 2 {
      assert (k - 2) * m >= 0;
    } else if k <= -2 {
      assert (-2 - k) * m >= 0;
    }
  }

  lemma TimesMinus(a: int, b: int, m: int)
    ensures Times(a - b, m) == Times(a, m) - Times(b, m)
  {
  }

  lemma CropSplit(half: int, x: int)
    requires half > 0
    ensures x == Times(Turns(half, x), Range(half)) + Crop(half, x)
  {
  }

  /** `Crop` takes off whole ranges. */
  lemma CropOf(half: int, x: int, k: int)
    requires half > 0 && Fits(half, x - Times(k, Range(half)))
    ensures Crop(half, x) == x - Times(k, Range(half)) && Turns(half, x) == k
  {
    hide Times, Turns, Crop;
    CropSplit(half, x);
    TimesMinus(Turns(half, x), k, Range(half));
    TimesBounds(Turns(half, x) - k, Range(half));
  }

  lemma CropNear(half: int, x: int)
    requires half > 0 && -Range(half) <= x < 2 * Range(half)
    ensures Crop(half, x) == if x < 0 then x + Range(half) else if x < Range(half) then x else x - Range(half)
  {
    hide Times, Turns, Crop;
    TimesBounds(0, Range(half));
    CropOf(half, x, if x < 0 then -1 else if x < Range(half) then 0 else 1);
  }

  /** The unwrapped value, given the last one if any. */
  function UnwrapNext(half: int, promoted: bool, last: Option<int>, value: int): int
    requires half > 0 && Fits(half, value)
  {
    match last
    case None => value
    case Some(l) =>
      var cropped := Crop(half, l);
      var delta := Subtract(half, promoted, value, cropped);
      if IsNewer(half, promoted, value, cropped) then
        l + (if delta < 0 then delta + Range(half) else delta)
      else if delta > 0 && l + delta - Range(half) >= 0 then
        l + delta - Range(half)
      else
        l + delta
  }

  /** By how much the value moves: the difference of the cropped values, wrapped forwards or
      backwards, but not backwards past zero. The two ways to subtract agree on it. */
  lemma UnwrapMeans(half: int, promoted: bool, l: nat, value: int)
    requires half > 0 && Fits(half, value)
    ensures var e := value - Crop(half, l);
      UnwrapNext(half, promoted, Some(l), value) == l + e +
        (if e < -half then Range(half) else if e > half && l + e >= Range(half) then -Range(half) else 0)
  {
    var c := Crop(half, l);
    var e := value - c;
    IsNewerMeans(half, promoted, value, c);
    CropNear(half, e);
    CropBelow(half, l);
  }

  lemma CropBelow(half: int, x: nat)
    requires half > 0
    ensures Crop(half, x) <= x && (x < Range(half) ==> Crop(half, x) == x)
  {
    hide Times, Turns, Crop;
    CropSplit(half, x);
    TimesBounds(Turns(half, x), Range(half));
    if x < Range(half) {
      CropNear(half, x);
    }
  }

  /** The result is a whole number of turns away from the nearest candidate. */
  lemma WholeTurns(half: int, promoted: bool, l: int, value: int) returns (turn: int)
    requires half > 0 && Fits(half, value)
    ensures -1 <= turn <= 1 && UnwrapNext(half, promoted, Some(l), value) == Times(Turns(half, l) + turn, Range(half)) + value
    ensures l < 0 ==> (turn == 1 <==> value < Crop(half, l) && (!promoted || value - Crop(half, l) < -half)) && turn >= 0
  {
    hide Times, Turns, Crop;
    var m, c, q := Range(half), Crop(half, l), Turns(half, l);
    CropSplit(half, l);
    IsNewerMeans(half, promoted, value, c);
    CropNear(half, value - c);
    var r := UnwrapNext(half, promoted, Some(l), value);
    turn := if r < l + value - c then -1 else if r > l + value - c then 1 else 0;
    TimesBounds(0, m);
    TimesMinus(q, -turn, m);
  }

  /** The result stands for the input. */
  lemma Congruent(half: int, promoted: bool, last: Option<int>, value: int)
    requires half > 0 && Fits(half, value)
    ensures Crop(half, UnwrapNext(half, promoted, last, value)) == value
  {
    hide Times, Turns, Crop, UnwrapNext;
    match last
    case None => FirstUnwrapped(half, promoted, value);
    case Some(l) =>
      var turn := WholeTurns(half, promoted, l, value);
      CropOf(half, UnwrapNext(half, promoted, last, value), Turns(half, l) + turn);
  }

  lemma FirstUnwrapped(half: int, promoted: bool, value: int)
    requires half > 0 && Fits(half, value)
    ensures UnwrapNext(half, promoted, None, value) == value && Crop(half, value) == value
  {
    CropNear(half, value);
  }

  /** Whether the last value lets the result be non-negative: it is not negative itself, or it is
      within one range below zero and the value wraps forwards, which older ones do too if the
      subtraction is modulo the range. */
  predicate StaysNonNegative(half: int, promoted: bool, last: Option<int>, value: int)
    requires half > 0
  {
    last.Some? && last.value < 0 ==>
      && last.value >= -Range(half) && value < Crop(half, last.value)
      && (!promoted || value - Crop(half, last.value) < -half)
  }

  /** "Never unwrapped to a negative value" holds exactly then. */
  lemma NonNegativeExactly(half: int, promoted: bool, last: Option<int>, value: int)
    requires half > 0 && Fits(half, value)
    ensures UnwrapNext(half, promoted, last, value) >= 0 <==> StaysNonNegative(half, promoted, last, value)
  {
    hide Times, Turns, Crop, UnwrapNext;
    match last
    case None => FirstUnwrapped(half, promoted, value);
    case Some(l) =>
      if l >= 0 {
        UnwrapMeans(half, promoted, l, value);
        CropBelow(half, l);
      } else {
        var turn := WholeTurns(half, promoted, l, value);
        CropSplit(half, l);
        TimesBounds(Turns(half, l), Range(half));
        TimesBounds(Turns(half, l) + turn, Range(half));
      }
  }

  /** An instance against the class comment: after a last value of -1 even -1 is unwrapped to itself. */
  lemma UnwrappedToNegative(half: int, promoted: bool)
    requires half > 0
    ensures UnwrapNext(half, promoted, Some(-1), Crop(half, -1)) == -1
  {
    CropNear(half, -1);
    CropNear(half, 0);
  }

  /** The steps that are recovered exactly: less than half the range; half the range if that needs
      no wrap in its direction; and more, forwards, if a wrap backwards would pass zero. */
  predicate Recoverable(half: int, last: nat, step: int)
    requires half > 0
  {
    || -half < step < half
    || (step == half && Crop(half, last) < half)
    || (step == -half && Crop(half, last) >= half)
    || (half < step < Range(half) && last + step < Range(half))
  }

  /** The truth is recovered from its cropped value exactly if the step is recoverable. */
  lemma RecoveredExactly(half: int, promoted: bool, last: nat, truth: nat)
    requires half > 0
    ensures UnwrapNext(half, promoted, Some(last), Crop(half, truth)) == truth <==> Recoverable(half, last, truth - last)
  {
    hide Times, Turns, Crop;
    var m, c, v := Range(half), Crop(half, last), Crop(half, truth);
    CropSplit(half, last);
    CropSplit(half, truth);
    var k := Turns(half, truth) - Turns(half, last);
    TimesMinus(Turns(half, truth), Turns(half, last), m);
    assert truth - last == Times(k, m) + (v - c);
    TimesBounds(k, m);
    UnwrapMeans(half, promoted, last, v);
    CropBelow(half, last);
    assert k >= 2 || k <= -2 || k == -1 || k == 0 || k == 1;
  }

  lemma SmallStepRecovered(half: int, promoted: bool, last: nat, truth: nat)
    requires half > 0 && -half < truth - last < half
    ensures UnwrapNext(half, promoted, Some(last), Crop(half, truth)) == truth
  {
    RecoveredExactly(half, promoted, last, truth);
  }

  lemma FirstRecovered(half: int, promoted: bool, truth: nat)
    requires half > 0 && truth < Range(half)
    ensures UnwrapNext(half, promoted, None, Crop(half, truth)) == truth
  {
    CropNear(half, truth);
  }

  // ----- Whole sequences -----

  function UnwrapAll(half: int, promoted: bool, last: Option<int>, values: seq<int>): seq<int>
    requires half > 0 && forall i :: 0 <= i < |values| ==> Fits(half, values[i])
    decreases |values|
  {
    if values == [] then [] else
    var r := UnwrapNext(half, promoted, last, values[0]);
    [r] + UnwrapAll(half, promoted, Some(r), values[1..])
  }

  function CropAll(half: int, xs: seq<nat>): (r: seq<int>)
    requires half > 0
    ensures |r| == |xs| && forall i :: 0 <= i < |r| ==> Fits(half, r[i])
  {
    if xs == [] then [] else [Crop(half, xs[0])] + CropAll(half, xs[1..])
  }

  /** A non-negative sequence that starts within the range and never steps by half of it or more
      is recovered from its cropped values. */
  lemma {:induction false} SequenceRecovered(half: int, promoted: bool, last: Option<int>, xs: seq<nat>)
    requires half > 0 && (last.Some? ==> last.value >= 0)
    requires xs != [] ==> if last.Some? then -half < xs[0] - last.value < half else xs[0] < Range(half)
    requires forall i :: 0 < i < |xs| ==> -half < xs[i] - xs[i - 1] < half
    ensures UnwrapAll(half, promoted, last, CropAll(half, xs)) == xs
    decreases |xs|
  {
    hide Crop, UnwrapNext, Recoverable;
    if xs != [] {
      if last.Some? {
        SmallStepRecovered(half, promoted, last.value, xs[0]);
      } else {
        FirstRecovered(half, promoted, xs[0]);
      }
      SequenceRecovered(half, promoted, Some(xs[0]), xs[1..]);
      assert CropAll(half, xs)[1..] == CropAll(half, xs[1..]);
    }
  }

  // ----- The class -----

  class Unwrapper {
    const half: int
    const promoted: bool
    var lastValue: Option<int>

    ghost predicate Valid()
      reads this
    {
      half > 0
    }

    constructor (half: int, promoted: bool)
      requires half > 0
      ensures Valid() && this.half == half && this.promoted == promoted && lastValue == None
    {
      this.half, this.promoted, lastValue := half, promoted, None;
    }

    method UnwrapWithoutUpdate(value: int) returns (r: int)
      requires Valid() && Fits(half, value)
      ensures r == UnwrapNext(half, promoted, lastValue, value) && Crop(half, r) == value
      ensures r >= 0 <==> StaysNonNegative(half, promoted, lastValue, value)
    {
      Congruent(half, promoted, lastValue, value);
      NonNegativeExactly(half, promoted, lastValue, value);
      if lastValue.None? {
        return value;
      }
      var croppedLast := Crop(half, lastValue.value);
      var delta := Subtract(half, promoted, value, croppedLast);
      if IsNewer(half, promoted, value, croppedLast) {
        if delta < 0 {
          delta := delta + Range(half);
        }
      } else if delta > 0 && lastValue.value + delta - Range(half) >= 0 {
        delta := delta - Range(half);
      }
      r := lastValue.value + delta;
    }

    method UpdateLast(last: int)
      requires Valid()
      modifies `lastValue
      ensures Valid() && lastValue == Some(last)
    {
      lastValue := Some(last);
    }

    method Unwrap(value: int) returns (r: int)
      requires Valid() && Fits(half, value)
      modifies `lastValue
      ensures Valid() && r == UnwrapNext(half, promoted, old(lastValue), value) && Crop(half, r) == value
      ensures lastValue == Some(r) && (r >= 0 <==> StaysNonNegative(half, promoted, old(lastValue), value))
    {
      r := UnwrapWithoutUpdate(value);
      UpdateLast(r);
    }
  }
}
