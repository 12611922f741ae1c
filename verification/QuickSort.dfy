/** The explicit-stack quicksort. A partition may leave one cell unexamined and put it in both
    sub-segments; the array still ends sorted because the left one is finished first. */
module QuickSort {

  datatype Segment = Segment(left: int, right: int)

  /** The stack as it is stored, top last: the right end of a segment below its left end. */
  function Flat(segments: seq<Segment>): (stack: seq<int>)
    ensures |stack| == 2 * |segments|
  {
    if segments == [] then [] else Flat(segments[1..]) + [segments[0].right, segments[0].left]
  }

  function PushSeq(stack: seq<int>, lhs: int, rhs: int): seq<int> {
    stack + [rhs] + [lhs]
  }

  /** Bounds the segments still to come: each is split into two that overlap in at most one cell. */
  ghost function Work(segments: seq<Segment>): nat {
    if segments == [] then 0
    else (if segments[0].left < segments[0].right then 2 * (segments[0].right - segments[0].left) - 1 else 1) + Work(segments[1..])
  }

  ghost predicate SortedBetween(s: seq<int>, lo: int, hi: int)
    requires 0 <= lo <= hi < |s|
  {
    forall i, j :: lo <= i < j <= hi ==> s[i] <= s[j]
  }

  /** Cells before `q` are in order with cells after `p`. */
  ghost predicate Cut(s: seq<int>, lo: int, hi: int, p: int, q: int)
    requires 0 <= lo <= hi < |s|
  {
    forall i, j :: lo <= i < q && p < j <= hi && i < j ==> s[i] <= s[j]
  }

  ghost predicate Low(s: seq<int>, hi: int, c: int)
    requires 0 <= c <= hi < |s|
  {
    forall j :: c < j <= hi ==> s[c] <= s[j]
  }

  ghost predicate High(s: seq<int>, lo: int, c: int)
    requires 0 <= lo <= c < |s|
  {
    forall i :: lo <= i < c ==> s[i] < s[c]
  }

  /** Cells `l` to `r` of `t` hold values of the same cells of `s`; the others are unchanged. */
  ghost predicate Rearranged(s: seq<int>, t: seq<int>, l: int, r: int) {
    && |s| == |t|
    && (forall i :: 0 <= i < |s| && !(l <= i <= r) ==> t[i] == s[i])
    && (forall i :: 0 <= i < |s| && l <= i <= r ==> Among(s, l, r, t[i]))
  }

  ghost predicate Among(s: seq<int>, l: int, r: int, value: int) {
    exists k :: 0 <= k < |s| && l <= k <= r && s[k] == value
  }

  /** The segments, top first, behind `p`: everything outside them is in its place, and a cell
      shared by neighbours is either no greater than all that follows or greater than all before. */
  ghost predicate Pending(s: seq<int>, lo: int, hi: int, p: int, segments: seq<Segment>)
    requires 0 <= lo <= hi < |s|
    decreases |segments|
  {
    && Cut(s, lo, hi, p, Next(segments, hi))
    && (segments != [] ==>
          var l, r := segments[0].left, segments[0].right;
          && p <= l && lo <= l <= r <= hi && (l < r || lo == hi)
          && (p == l ==> Low(s, hi, p) || High(s, lo, p))
          && Pending(s, lo, hi, r, segments[1..]))
  }

  ghost function Next(segments: seq<Segment>, hi: int): int {
    if segments == [] then hi + 1 else segments[0].left
  }

  /** Rearranging a finished-with segment keeps what is promised about those below it, if a shared
      last cell that is greater than all before it stays where it is. */
  lemma {:induction false} TailKept(s: seq<int>, t: seq<int>, lo: int, hi: int, l: int, r: int, p: int, tail: seq<Segment>)
    requires 0 <= lo <= l <= r <= hi < |s| && r <= p <= hi && (l < r || lo == hi)
    requires Rearranged(s, t, l, r) && Pending(s, lo, hi, p, tail)
    requires tail != [] && tail[0].left == p == r && l < r && !Low(s, hi, r) ==> Rearranged(s, t, l, r - 1)
    ensures Pending(t, lo, hi, p, tail)
    decreases |tail|
  {
    var q := Next(tail, hi);
    forall i, j | lo <= i < q && p < j <= hi && i < j
      ensures t[i] <= t[j]
    {
      assert t[j] == s[j];
      if l <= i <= r {
        var k :| 0 <= k < |s| && l <= k <= r && t[i] == s[k];
      }
    }
    if tail != [] {
      if p == q {
        SharedKept(s, t, lo, hi, l, r, p);
      }
      TailKept(s, t, lo, hi, l, r, tail[0].right, tail[1..]);
    }
  }

  lemma SharedKept(s: seq<int>, t: seq<int>, lo: int, hi: int, l: int, r: int, c: int)
    requires 0 <= lo <= l <= r <= c <= hi < |s| && (l < r || lo == hi)
    requires Rearranged(s, t, l, r) && Cut(s, lo, hi, c, c) && (Low(s, hi, c) || High(s, lo, c))
    requires c == r && l < r && !Low(s, hi, c) ==> Rearranged(s, t, l, r - 1)
    ensures Low(t, hi, c) || High(t, lo, c)
  {
    if Low(s, hi, c) {
      forall j | c < j <= hi
        ensures t[c] <= t[j]
      {
        if c == r {
          var k :| 0 <= k < |s| && l <= k <= r && t[c] == s[k];
        }
      }
    } else {
      assert t[c] == s[c];
      forall i | lo <= i < c
        ensures t[i] < t[c]
      {
        if l <= i <= r && c != r {
          var k :| 0 <= k < |s| && l <= k <= r && t[i] == s[k];
        } else if l <= i <= r {
          var k :| 0 <= k < |s| && l <= k <= r - 1 && t[i] == s[k];
        }
      }
    }
  }

  /** What comes before the segment stays in its place. */
  lemma HeadKept(s: seq<int>, t: seq<int>, lo: int, hi: int, l: int, r: int)
    requires 0 <= lo <= l <= r <= hi < |s|
    requires Rearranged(s, t, l, r) && Cut(s, lo, hi, lo - 1, l)
    ensures Cut(t, lo, hi, lo - 1, l)
  {
    forall i, j | lo <= i < l && i < j <= hi
      ensures t[i] <= t[j]
    {
      if l <= j <= r {
        var k :| 0 <= k < |s| && l <= k <= r && t[j] == s[k];
      }
    }
  }

  /** The outcome of partitioning cells `l` to `r` around `pivot`. */
  ghost predicate Split(t: seq<int>, l: int, r: int, lp: int, rp: int, pivot: int)
    requires 0 <= l <= r < |t|
  {
    && l <= lp <= r + 1 && l - 1 <= rp <= r && rp <= lp <= rp + 2
    && (l < r ==> l < lp && rp < r)
    && (forall i :: l <= i < lp ==> t[i] <= pivot)
    && (forall j :: rp < j <= r ==> pivot <= t[j])
  }

  function RightPart(lp: int, right: int): seq<Segment> {
    if lp < right then [Segment(lp, right)] else []
  }

  function LeftPart(left: int, rp: int): seq<Segment> {
    if rp > left then [Segment(left, rp)] else []
  }

  /** Behind the left part, the right part and the segments below it are as promised. */
  lemma RightPending(t: seq<int>, lo: int, hi: int, l: int, r: int, lp: int, rp: int, pivot: int, tail: seq<Segment>)
    requires 0 <= lo <= l <= r <= hi < |t|
    requires Split(t, l, r, lp, rp, pivot) && Cut(t, lo, hi, lo - 1, l)
    requires Pending(t, lo, hi, r, tail)
    ensures Pending(t, lo, hi, rp, RightPart(lp, r) + tail)
  {
    var below := RightPart(lp, r) + tail;
    if lp < r {
      assert below[1..] == tail;
      if rp == lp && t[lp] > pivot {
        assert t[l] <= pivot;
        assert High(t, lo, lp);
      }
    } else {
      assert below == tail;
    }
    assert Cut(t, lo, hi, rp, Next(below, hi));
  }

  /** So is the whole stack once the left part is on top. */
  lemma StackPending(t: seq<int>, lo: int, hi: int, l: int, r: int, lp: int, rp: int, pivot: int, below: seq<Segment>)
    requires 0 <= lo <= l <= r <= hi < |t| && Split(t, l, r, lp, rp, pivot)
    requires Cut(t, lo, hi, lo - 1, l) && Pending(t, lo, hi, rp, below)
    ensures Pending(t, lo, hi, lo - 1, LeftPart(l, rp) + below)
  {
    var stack := LeftPart(l, rp) + below;
    if rp > l {
      assert stack[1..] == below;
    } else {
      assert stack == below;
      assert Cut(t, lo, hi, lo - 1, Next(below, hi));
    }
  }

  lemma WorkShrinks(t: seq<int>, l: int, r: int, lp: int, rp: int, pivot: int, tail: seq<Segment>)
    requires 0 <= l <= r < |t| && Split(t, l, r, lp, rp, pivot) && (l == r ==> lp == rp == l)
    ensures Work(LeftPart(l, rp) + RightPart(lp, r) + tail) < Work([Segment(l, r)] + tail)
  {
    var right := RightPart(lp, r) + tail;
    assert ([Segment(l, r)] + tail)[1..] == tail;
    assert lp < r ==> right[1..] == tail;
    assert lp >= r ==> right == tail;
    assert LeftPart(l, rp) + RightPart(lp, r) + tail == LeftPart(l, rp) + right;
    assert rp > l ==> (LeftPart(l, rp) + right)[1..] == right;
    assert rp <= l ==> LeftPart(l, rp) + right == right;
  }

  lemma Unmoved(s: seq<int>, l: int, r: int)
    ensures Rearranged(s, s, l, r)
  {
  }

  lemma SwapRearranges(s: seq<int>, t: seq<int>, u: seq<int>, l: int, r: int, i: int, j: int)
    requires Rearranged(s, t, l, r) && 0 <= l <= i <= j <= r < |t|
    requires u == t[i := t[j]][j := t[i]]
    ensures Rearranged(s, u, l, r) && multiset(u) == multiset(t)
  {
  }

  /** One step of the sort: the partitioned segment on top gives way to its parts. */
  lemma StepPending(s: seq<int>, t: seq<int>, lo: int, hi: int, segments: seq<Segment>, lp: int, rp: int, pivot: int)
    requires 0 <= lo <= hi < |s| && segments != [] && Pending(s, lo, hi, lo - 1, segments)
    requires var l, r := segments[0].left, segments[0].right;
      && Rearranged(s, t, l, r) && (l < r && High(s, l, r) ==> Rearranged(s, t, l, r - 1))
      && Split(t, l, r, lp, rp, pivot) && (l == r ==> lp == rp == l)
    ensures var l, r := segments[0].left, segments[0].right;
      var parts := LeftPart(l, rp) + (RightPart(lp, r) + segments[1..]);
      Pending(t, lo, hi, lo - 1, parts) && Work(parts) < Work(segments)
    ensures forall i :: 0 <= i < |s| && !(lo <= i <= hi) ==> t[i] == s[i]
  {
    hide Split, Work, LeftPart, RightPart;
    var l, r, tail := segments[0].left, segments[0].right, segments[1..];
    assert segments == [Segment(l, r)] + tail;
    HeadKept(s, t, lo, hi, l, r);
    TailKept(s, t, lo, hi, l, r, r, tail);
    RightPending(t, lo, hi, l, r, lp, rp, pivot, tail);
    StackPending(t, lo, hi, l, r, lp, rp, pivot, RightPart(lp, r) + tail);
    WorkShrinks(t, l, r, lp, rp, pivot, tail);
    assert LeftPart(l, rp) + RightPart(lp, r) + tail == LeftPart(l, rp) + (RightPart(lp, r) + tail);
  }

  lemma FlatTop(segments: seq<Segment>)
    ensures segments == [] ==> Flat(segments) == []
    ensures segments != [] ==> Flat(segments) == Flat(segments[1..]) + [segments[0].right, segments[0].left]
  {
  }

  lemma FlatRight(lp: int, r: int, tail: seq<Segment>)
    ensures Flat(RightPart(lp, r) + tail) == if lp < r then PushSeq(Flat(tail), lp, r) else Flat(tail)
  {
    if lp < r {
      assert (RightPart(lp, r) + tail)[1..] == tail;
    } else {
      assert RightPart(lp, r) + tail == tail;
    }
  }

  lemma FlatLeft(l: int, rp: int, tail: seq<Segment>)
    ensures Flat(LeftPart(l, rp) + tail) == if rp > l then PushSeq(Flat(tail), l, rp) else Flat(tail)
  {
    if rp > l {
      assert (LeftPart(l, rp) + tail)[1..] == tail;
    } else {
      assert LeftPart(l, rp) + tail == tail;
    }
  }

  function Middle(l: int, r: int): (m: int)
    requires 0 <= l <= r
    ensures l <= m <= r && (l < r ==> m < r)
  {
    (l + r) / 2
  }

  lemma HighTop(s: seq<int>, l: int, r: int, i: int)
    requires 0 <= l <= i < r < |s| && High(s, l, r)
    ensures s[i] < s[r]
  {
  }

  /** Moves right past cells less than the pivot; some cell up to `limit` stops it. */
  method ScanUp(a: array<int>, start: int, pivot: int, ghost limit: int) returns (lp: int)
    requires 0 <= start <= limit < a.Length && pivot <= a[limit]
    ensures start <= lp <= limit && pivot <= a[lp]
    ensures forall i :: start <= i < lp ==> a[i] < pivot
  {
    lp := start;
    while a[lp] < pivot
      invariant start <= lp <= limit
      invariant forall i :: start <= i < lp ==> a[i] < pivot
      decreases limit - lp
    {
      lp := lp + 1;
    }
  }

  /** Moves left past cells greater than the pivot; some cell down to `limit` stops it. */
  method ScanDown(a: array<int>, start: int, pivot: int, ghost limit: int) returns (rp: int)
    requires 0 <= limit <= start < a.Length && a[limit] <= pivot
    ensures limit <= rp <= start && a[rp] <= pivot
    ensures forall j :: rp < j <= start ==> pivot < a[j]
  {
    rp := start;
    while a[rp] > pivot
      invariant limit <= rp <= start
      invariant forall j :: rp < j <= start ==> pivot < a[j]
      decreases rp
    {
      rp := rp - 1;
    }
  }

  /** Exchanges two cells of a segment, which stays a rearrangement of what it was. */
  method Exchange(a: array<int>, i: int, j: int, ghost s: seq<int>, ghost left: int, ghost end: int, ghost right: int)
    requires 0 <= left <= i <= j <= end <= right < a.Length
    requires Rearranged(s, a[..], left, end) && Rearranged(s, a[..], left, right)
    modifies a
    ensures a[i] == old(a[j]) && a[j] == old(a[i])
    ensures forall k :: 0 <= k < a.Length && k != i && k != j ==> a[k] == old(a[k])
    ensures Rearranged(s, a[..], left, end) && Rearranged(s, a[..], left, right)
    ensures multiset(a[..]) == multiset(old(a[..]))
  {
    hide Rearranged, Among;
    ghost var t := a[..];
    a[i], a[j] := a[j], a[i];
    assert a[..] == t[i := t[j]][j := t[i]];
    SwapRearranges(s, t, a[..], left, end, i, j);
    SwapRearranges(s, t, a[..], left, right, i, j);
  }

  /** Hoare's partition around the middle cell, with the strict outer guard of the source. A last
      cell greater than all others of the segment is not moved. */
  method Partition(a: array<int>, left: int, right: int) returns (lp: int, rp: int, ghost pivot: int)
    requires 0 <= left <= right < a.Length
    modifies a
    ensures Rearranged(old(a[..]), a[..], left, right)
    ensures left < right && High(old(a[..]), left, right) ==> Rearranged(old(a[..]), a[..], left, right - 1)
    ensures multiset(a[..]) == multiset(old(a[..]))
    ensures Split(a[..], left, right, lp, rp, pivot)
    ensures left == right ==> lp == rp == left
  {
    hide Rearranged, Among, Middle, High;
    lp, rp := left, right;
    var mid := Middle(lp, rp);
    var mp := a[mid];
    pivot := mp;
    ghost var s := a[..];
    ghost var end := if left < right && High(s, left, right) then right - 1 else right;
    Unmoved(s, left, right);
    Unmoved(s, left, end);
    if end < right {
      HighTop(s, left, right, mid);
    }
    while lp < rp
      invariant left <= lp <= right + 1 && left - 1 <= rp <= right && lp <= rp + 2
      invariant (lp == left && rp == right && a[..] == s) || (left < lp && rp < right)
      invariant Rearranged(s, a[..], left, end) && Rearranged(s, a[..], left, right)
      invariant end < right ==> mp < a[right]
      invariant left == right ==> lp == rp == left
      invariant multiset(a[..]) == multiset(s)
      invariant forall i :: left <= i < lp ==> a[i] <= mp
      invariant forall j :: rp < j <= right ==> mp <= a[j]
    {
      ghost var first := lp == left;
      lp := ScanUp(a, lp, mp, if first then mid else rp + 1);
      rp := ScanDown(a, rp, mp, if first then mid else lp - 1);
      if lp <= rp {
        assert rp <= end;
        Exchange(a, lp, rp, s, left, end, right);
        lp := lp + 1;
        rp := rp - 1;
      }
    }
  }

  /** Sorts cells `leftPart` to `rightPart` in place and leaves the others alone. */
  method QSort(a: array<int>, leftPart: int, rightPart: int)
    requires 0 <= leftPart <= rightPart < a.Length
    modifies a
    ensures SortedBetween(a[..], leftPart, rightPart)
    ensures multiset(a[..]) == multiset(old(a[..]))
    ensures forall i :: 0 <= i < a.Length && !(leftPart <= i <= rightPart) ==> a[i] == old(a[i])
  {
    hide Rearranged, Among, Split, Work, LeftPart, RightPart, Flat;
    var stack := PushSeq([], leftPart, rightPart);
    ghost var segments := [Segment(leftPart, rightPart)];
    FlatTop([]);
    FlatTop(segments);
    while |stack| > 0
      invariant stack == Flat(segments)
      invariant Pending(a[..], leftPart, rightPart, leftPart - 1, segments)
      invariant multiset(a[..]) == multiset(old(a[..]))
      invariant forall i :: 0 <= i < a.Length && !(leftPart <= i <= rightPart) ==> a[i] == old(a[i])
      decreases Work(segments)
    {
      FlatTop(segments);
      var left := stack[|stack| - 1];
      stack := stack[..|stack| - 1];
      var right := stack[|stack| - 1];
      stack := stack[..|stack| - 1];
      ghost var s, tail := a[..], segments[1..];
      assert stack == Flat(tail);
      var lp, rp; ghost var pivot;
      lp, rp, pivot := Partition(a, left, right);
      StepPending(s, a[..], leftPart, rightPart, segments, lp, rp, pivot);
      FlatRight(lp, right, tail);
      FlatLeft(left, rp, RightPart(lp, right) + tail);
      segments := LeftPart(left, rp) + (RightPart(lp, right) + tail);
      if lp < right {
        stack := PushSeq(stack, lp, right);
      }
      if rp > left {
        stack := PushSeq(stack, left, rp);
      }
    }
  }

  /** Sorts an array of at least one number. */
  method NumSort(a: array<int>)
    requires a.Length > 0
    modifies a
    ensures forall i, j :: 0 <= i < j < a.Length ==> a[i] <= a[j]
    ensures multiset(a[..]) == multiset(old(a[..]))
  {
    QSort(a, 0, a.Length - 1);
    assert forall i, j :: 0 <= i < j < a.Length ==> a[..][i] <= a[..][j];
  }
}
