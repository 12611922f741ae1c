/** Small shared vocabulary and sequences kept in order. */
module Collections {

  datatype Option<+T> = None | Some(value: T)

  function Min(a: int, b: int): int {
    if a < b then a else b
  }

  function Max(a: int, b: int): int {
    if a < b then b else a
  }

  predicate IsDigit(c: char) {
    '0' <= c <= '9'
  }

  function Digit(c: char): nat
    requires IsDigit(c)
  {
    c as int - '0' as int
  }

  ghost function Pick<T>(bag: multiset<T>): (x: T)
    requires bag != multiset{}
    ensures x in bag
  {
    var x :| x in bag;
    x
  }

  lemma DivNonNegative(a: int, b: int)
    requires a >= 0 && b > 0
    ensures a / b >= 0
  {
  }

  lemma MulSucc(d: int, n: int)
    ensures d * (n + 1) == d * n + d
  {
  }

  // ----- Sequences kept in order -----

  /** Nothing stands behind an element that should stand in front of it. */
  ghost predicate Sorted<T>(s: seq<T>, before: (T, T) -> bool) {
    forall i, j :: 0 <= i < j < |s| ==> !before(s[j], s[i])
  }

  ghost predicate StrictOrder<T(!new)>(before: (T, T) -> bool) {
    && (forall x :: !before(x, x))
    && (forall x, y, z :: before(x, y) && before(y, z) ==> before(x, z))
  }

  /** Inserts `x` after every element that need not come later. */
  function OrderedInsert<T>(s: seq<T>, x: T, before: (T, T) -> bool): seq<T> {
    if s == [] then [x]
    else if before(x, s[0]) then [x] + s
    else [s[0]] + OrderedInsert(s[1..], x, before)
  }

  lemma NothingBehind<T(!new)>(s: seq<T>, x: T, before: (T, T) -> bool, j: nat)
    requires StrictOrder(before) && Sorted(s, before) && j < |s|
    requires before(x, s[0])
    ensures !before(s[j], x)
  {
    var a, b := s[j], s[0];
    assert j > 0 ==> !before(a, b);
    assert before(a, x) && before(x, b) ==> before(a, b);
  }

  lemma {:induction false} OrderedInsertContents<T>(s: seq<T>, x: T, before: (T, T) -> bool)
    ensures multiset(OrderedInsert(s, x, before)) == multiset(s) + multiset{x}
  {
    if s != [] {
      assert s == [s[0]] + s[1..];
      if !before(x, s[0]) {
        OrderedInsertContents(s[1..], x, before);
      }
    }
  }

  /** `x` in front of a sorted sequence whose elements need not precede it. */
  lemma SortedCons<T>(x: T, s: seq<T>, before: (T, T) -> bool)
    requires Sorted(s, before)
    requires forall y :: y in multiset(s) ==> !before(y, x)
    ensures Sorted([x] + s, before)
  {
    var t := [x] + s;
    forall i, j | 0 <= i < j < |t| ensures !before(t[j], t[i]) {
      assert t[j] == s[j - 1] && s[j - 1] in multiset(s);
      if i > 0 { assert t[i] == s[i - 1]; }
    }
  }

  lemma SortedTail<T>(s: seq<T>, before: (T, T) -> bool)
    requires s != [] && Sorted(s, before)
    ensures Sorted(s[1..], before)
    ensures forall y :: y in multiset(s[1..]) ==> !before(y, s[0])
  {
    forall y | y in multiset(s[1..]) ensures !before(y, s[0]) {
      assert y in s[1..];
      var j :| 0 <= j < |s[1..]| && s[1..][j] == y;
      assert s[j + 1] == y;
    }
  }

  lemma {:induction false} OrderedInsertSorted<T(!new)>(s: seq<T>, x: T, before: (T, T) -> bool)
    requires StrictOrder(before) && Sorted(s, before)
    ensures Sorted(OrderedInsert(s, x, before), before)
    ensures multiset(OrderedInsert(s, x, before)) == multiset(s) + multiset{x}
  {
    OrderedInsertContents(s, x, before);
    if s == [] {
    } else if before(x, s[0]) {
      forall y | y in multiset(s) ensures !before(y, x) {
        assert y in s;
        var j :| 0 <= j < |s| && s[j] == y;
        NothingBehind(s, x, before, j);
      }
      SortedCons(x, s, before);
    } else {
      SortedTail(s, before);
      OrderedInsertSorted(s[1..], x, before);
      SortedCons(s[0], OrderedInsert(s[1..], x, before), before);
    }
  }

  /** Removes the first occurrence of `x`. */
  function RemoveOne<T(==)>(s: seq<T>, x: T): seq<T> {
    if s == [] then []
    else if s[0] == x then s[1..]
    else [s[0]] + RemoveOne(s[1..], x)
  }

  lemma {:induction false} RemoveOneSorted<T>(s: seq<T>, x: T, before: (T, T) -> bool)
    requires Sorted(s, before) && x in s
    ensures Sorted(RemoveOne(s, x), before)
    ensures multiset(RemoveOne(s, x)) == multiset(s) - multiset{x}
  {
    assert s == [s[0]] + s[1..];
    SortedTail(s, before);
    if s[0] != x {
      RemoveOneSorted(s[1..], x, before);
      SortedCons(s[0], RemoveOne(s[1..], x), before);
    }
  }
}
