/** Grouping SIP messages into transactions by top Via branch, sent-by and CSeq method. */
module SipTransactions {
  import opened Collections
  import opened SipMessage

  const MAX_UNSIGNED := 0xFFFF_FFFF

  datatype ViaParts = ViaParts(branch: string, sentBy: string)

  datatype CSeqParts = CSeqParts(number: nat, method_: string)

  datatype TransactionKey = TransactionKey(branch: string, sentBy: string, method_: string)

  datatype Transaction = Transaction(key: TransactionKey, indices: seq<nat>)

  // ----- Header fields -----

  /** The text before the first separator, and the text after it. */
  function CutAt(s: string, separator: string): (r: (string, string))
    requires |separator| == 1
    ensures s != [] ==> |r.1| < |s|
  {
    match Find(s, separator, 0)
    case None => (s, [])
    case Some(i) => (s[..i], s[i + 1..])
  }

  /** The value of a parameter named branch, empty if it is another or has none. */
  function BranchValue(param: string): string {
    match Find(param, "=", 0)
    case None => []
    case Some(i) => if Trimmed(param[..i]) == "branch" then Trimmed(param[i + 1..]) else []
  }

  /** The first non-empty branch among the parameters. */
  function BranchOf(params: string): string
    decreases |params|
  {
    if params == [] then [] else
    var (param, rest) := CutAt(params, ";");
    var branch := BranchValue(Trimmed(param));
    if branch != [] then branch else BranchOf(rest)
  }

  function ViaOf(value: string): (r: Option<ViaParts>)
    ensures r.Some? ==> r.value.branch != [] && r.value.sentBy != []
  {
    var space := Find(value, " ", 0);
    if space.None? then None else
    var afterTransport := Trimmed(value[space.value + 1..]);
    if afterTransport == [] then None else
    var (first, params) := CutAt(afterTransport, ";");
    var sentBy, branch := Trimmed(first), BranchOf(params);
    if sentBy == [] || branch == [] then None else Some(ViaParts(branch, sentBy))
  }

  method ParseVia(value: string) returns (via: Option<ViaParts>)
    ensures via == ViaOf(value)
  {
    assert BranchOf([]) == [];
    hide Find, Trimmed, BranchOf, Occurs;
    var space := Find(value, " ", 0);
    if space.None? {
      return None;
    }
    var afterTransport := Trim(value[space.value + 1..]);
    if |afterTransport| == 0 {
      return None;
    }
    var semi := Find(afterTransport, ";", 0);
    var sentBy := Trim(if semi.None? then afterTransport else afterTransport[..semi.value]);
    if |sentBy| == 0 {
      return None;
    }
    var branch := "";
    if semi.Some? {
      var params := afterTransport[semi.value + 1..];
      branch := FindBranch(params);
    }
    if |branch| == 0 {
      return None;
    }
    via := Some(ViaParts(branch, sentBy));
  }

  /** Goes through the parameters until one gives a branch. */
  method FindBranch(parameters: string) returns (branch: string)
    ensures branch == BranchOf(parameters)
  {
    var params := parameters;
    branch := "";
    while |params| > 0
      invariant BranchOf(params) == BranchOf(parameters) && branch == ""
      decreases |params|
    {
      var next := Find(params, ";", 0);
      var param := Trim(if next.None? then params else params[..next.value]);
      params := if next.None? then [] else params[next.value + 1..];
      var equal := Find(param, "=", 0);
      if equal.None? {
        continue;
      }
      var name := Trim(param[..equal.value]);
      var parameterValue := Trim(param[equal.value + 1..]);
      if name == "branch" && |parameterValue| > 0 {
        branch := parameterValue;
        return;
      }
    }
  }

  function DigitCount(s: string): (n: nat)
    ensures n <= |s| && forall i :: 0 <= i < n ==> IsDigit(s[i])
    ensures n < |s| ==> !IsDigit(s[n])
  {
    if s == [] || !IsDigit(s[0]) then 0 else 1 + DigitCount(s[1..])
  }

  function Number(digits: string): nat
    requires forall i :: 0 <= i < |digits| ==> IsDigit(digits[i])
  {
    if digits == [] then 0 else Number(digits[..|digits| - 1]) * 10 + Digit(digits[|digits| - 1])
  }

  function FirstBlank(s: string): (r: Option<nat>)
    ensures r.Some? ==> r.value < |s| && IsBlank(s[r.value])
    ensures forall i :: 0 <= i < (if r.Some? then r.value else |s|) ==> !IsBlank(s[i])
  {
    if s == [] then None else
    if IsBlank(s[0]) then Some(0) else
    match FirstBlank(s[1..])
    case None => None
    case Some(i) => Some(i + 1)
  }

  /** A number that fits 32 bits, blanks, and one word. */
  function ParseCSeq(value: string): (r: Option<CSeqParts>)
    ensures r.Some? ==> r.value.number <= MAX_UNSIGNED && r.value.method_ != []
    ensures r.Some? ==> forall i :: 0 <= i < |r.value.method_| ==> !IsBlank(r.value.method_[i])
  {
    var trimmed := Trimmed(value);
    var n := DigitCount(trimmed);
    if n == 0 || Number(trimmed[..n]) > MAX_UNSIGNED then None else
    if n == |trimmed| || !IsBlank(trimmed[n]) then None else
    var rest := Trimmed(trimmed[n..]);
    if rest == [] then None else
    var tokenEnd := FirstBlank(rest);
    var method_ := if tokenEnd.None? then rest else rest[..tokenEnd.value];
    if method_ == [] then None else
    if tokenEnd.Some? && Trimmed(rest[tokenEnd.value..]) != [] then None else
    Some(CSeqParts(Number(trimmed[..n]), method_))
  }

  /** The value of the first header of that name. */
  function HeaderValue(headers: seq<SipHeader>, name: string): Option<string> {
    if headers == [] then None
    else if headers[0].name == name then Some(headers[0].value)
    else HeaderValue(headers[1..], name)
  }

  // ----- Which transaction a message belongs to -----

  /** What a usable message says: its branch and sent-by, and its CSeq. */
  function Said(m: SipMessage): Option<(ViaParts, CSeqParts)> {
    match (HeaderValue(m.headers, "Via"), HeaderValue(m.headers, "CSeq"))
    case (Some(via), Some(cseq)) =>
      (match (ViaOf(via), ParseCSeq(cseq))
       case (Some(v), Some(c)) => Some((v, c))
       case _ => None)
    case _ => None
  }

  predicate IsFailure(m: SipMessage) {
    m.kind == Response && 300 <= m.statusCode <= 699
  }

  predicate IsRequest(m: SipMessage, method_: string) {
    m.kind == Request && Said(m).Some? && Said(m).value.1.method_ == method_
  }

  /** `m` speaks of the INVITE transaction of that branch and sent-by. */
  predicate OfInvite(m: SipMessage, via: ViaParts) {
    Said(m).Some? && Said(m).value.0 == via && Said(m).value.1.method_ == "INVITE"
  }

  /** An earlier message refused that INVITE. */
  predicate Refused(ms: seq<SipMessage>, i: nat, via: ViaParts)
    requires i <= |ms|
  {
    exists j :: 0 <= j < i && OfInvite(ms[j], via) && IsFailure(ms[j])
  }

  /** An earlier message of that INVITE transaction has the number. */
  predicate Invited(ms: seq<SipMessage>, i: nat, via: ViaParts, number: nat)
    requires i <= |ms|
  {
    exists j :: 0 <= j < i && InviteNumbered(ms[j], via, number)
  }

  predicate InviteNumbered(m: SipMessage, via: ViaParts, number: nat) {
    OfInvite(m, via) && Said(m).value.1.number == number
  }

  /** The transaction of a message, if any: an ACK request belongs to an INVITE refused earlier, a
      CANCEL request to itself if there was an INVITE to cancel, anything else to its own key. */
  function KeyOf(ms: seq<SipMessage>, i: nat): Option<TransactionKey>
    requires i < |ms|
  {
    match Said(ms[i])
    case None => None
    case Some((via, cseq)) =>
      if IsRequest(ms[i], "ACK") then
        if Refused(ms, i, via) then Some(TransactionKey(via.branch, via.sentBy, "INVITE")) else None
      else if IsRequest(ms[i], "CANCEL") && !Invited(ms, i, via, cseq.number) then None
      else Some(TransactionKey(via.branch, via.sentBy, cseq.method_))
  }

  /** What the result must be: transactions in the order of their first messages, with distinct
      keys, each listing in order exactly the messages that belong to it, and none missing. */
  ghost predicate Groups(ms: seq<SipMessage>, n: nat, ts: seq<Transaction>)
    requires n <= |ms|
  {
    && Ordered(ts)
    && (forall a :: 0 <= a < |ts| ==> Belong(ms, n, ts[a]))
    && (forall i :: 0 <= i < n && KeyOf(ms, i).Some? ==> Listed(ts, KeyOf(ms, i).value, i))
  }

  ghost predicate Ordered(ts: seq<Transaction>) {
    && (forall a :: 0 <= a < |ts| ==> ts[a].indices != [] && Increasing(ts[a].indices))
    && (forall a, b :: 0 <= a < b < |ts| ==> ts[a].key != ts[b].key && ts[a].indices[0] < ts[b].indices[0])
  }

  ghost predicate Belong(ms: seq<SipMessage>, n: nat, t: Transaction)
    requires n <= |ms|
  {
    forall i :: i in t.indices ==> i < n && KeyOf(ms, i) == Some(t.key)
  }

  ghost predicate Increasing(s: seq<nat>) {
    forall a, b :: 0 <= a < b < |s| ==> s[a] < s[b]
  }

  ghost predicate Listed(ts: seq<Transaction>, key: TransactionKey, i: nat) {
    exists a :: 0 <= a < |ts| && ts[a].key == key && i in ts[a].indices
  }

  // ----- Adding one message -----

  function Position(ts: seq<Transaction>, key: TransactionKey): (r: Option<nat>)
    ensures r.Some? ==> r.value < |ts| && ts[r.value].key == key
    ensures r.None? ==> forall a :: 0 <= a < |ts| ==> ts[a].key != key
  {
    if ts == [] then None else
    if ts[|ts| - 1].key == key then Some(|ts| - 1) else Position(ts[..|ts| - 1], key)
  }

  /** Lists a message under its key, which may be new. */
  function AddTo(ts: seq<Transaction>, key: TransactionKey, i: nat): seq<Transaction> {
    match Position(ts, key)
    case None => ts + [Transaction(key, [i])]
    case Some(a) => ts[a := Transaction(key, ts[a].indices + [i])]
  }

  /** The transactions of the first `n` messages, one message at a time. */
  function Grouped(ms: seq<SipMessage>, n: nat): seq<Transaction>
    requires n <= |ms|
  {
    if n == 0 then [] else
    var before := Grouped(ms, n - 1);
    match KeyOf(ms, n - 1)
    case None => before
    case Some(key) => AddTo(before, key, n - 1)
  }

  lemma IncreasingPush(indices: seq<nat>, n: nat)
    requires Increasing(indices) && forall i :: i in indices ==> i < n
    ensures Increasing(indices + [n])
  {
    assert forall k :: 0 <= k < |indices| ==> indices[k] in indices;
  }

  lemma AddToOrdered(ts: seq<Transaction>, key: TransactionKey, n: nat)
    requires Ordered(ts) && forall a :: 0 <= a < |ts| ==> forall i :: i in ts[a].indices ==> i < n
    ensures Ordered(AddTo(ts, key, n))
  {
    hide Increasing;
    match Position(ts, key)
    case None =>
      IncreasingPush([], n);
      assert [] + [n] == [n];
      assert forall a :: 0 <= a < |ts| ==> ts[a].indices[0] in ts[a].indices;
    case Some(a) =>
      IncreasingPush(ts[a].indices, n);
  }

  lemma AddToListed(ts: seq<Transaction>, key: TransactionKey, n: nat, key': TransactionKey, i: nat)
    requires Listed(ts, key', i) || (key' == key && i == n)
    ensures Listed(AddTo(ts, key, n), key', i)
  {
    var us := AddTo(ts, key, n);
    if Listed(ts, key', i) {
      var a :| 0 <= a < |ts| && ts[a].key == key' && i in ts[a].indices;
      assert us[a].key == key' && i in us[a].indices;
    } else {
      var a := match Position(ts, key) case None => |ts| case Some(a) => a;
      assert us[a].key == key && us[a].indices[|us[a].indices| - 1] == n;
    }
  }

  lemma AddToGroups(ms: seq<SipMessage>, n: nat, ts: seq<Transaction>, key: TransactionKey)
    requires n < |ms| && Groups(ms, n, ts) && KeyOf(ms, n) == Some(key)
    ensures Groups(ms, n + 1, AddTo(ts, key, n))
  {
    hide KeyOf, Ordered, Listed;
    var us := AddTo(ts, key, n);
    AddToOrdered(ts, key, n);
    forall i | 0 <= i < n + 1 && KeyOf(ms, i).Some?
      ensures Listed(us, KeyOf(ms, i).value, i)
    {
      AddToListed(ts, key, n, KeyOf(ms, i).value, i);
    }
    forall a | 0 <= a < |us|
      ensures Belong(ms, n + 1, us[a])
    {
      if a < |ts| {
        assert Belong(ms, n, ts[a]);
      }
    }
  }

  lemma NoGroups(ms: seq<SipMessage>)
    ensures Groups(ms, 0, [])
  {
  }

  lemma NothingAdded(ms: seq<SipMessage>, n: nat, ts: seq<Transaction>)
    requires n < |ms| && Groups(ms, n, ts) && KeyOf(ms, n) == None
    ensures Groups(ms, n + 1, ts)
  {
    hide KeyOf, Ordered, Listed;
    assert forall a :: 0 <= a < |ts| ==> Belong(ms, n, ts[a]);
  }

  lemma {:induction false} GroupedIsRight(ms: seq<SipMessage>, n: nat)
    requires n <= |ms|
    ensures Groups(ms, n, Grouped(ms, n))
  {
    hide KeyOf, Groups, AddTo;
    if n == 0 {
      NoGroups(ms);
    } else {
      GroupedIsRight(ms, n - 1);
      if KeyOf(ms, n - 1).None? {
        NothingAdded(ms, n - 1, Grouped(ms, n - 1));
      }
      if KeyOf(ms, n - 1).Some? {
        AddToGroups(ms, n - 1, Grouped(ms, n - 1), KeyOf(ms, n - 1).value);
      }
    }
  }

  // ----- The result is the only one of its kind -----

  ghost predicate SameMembers(s: seq<nat>, t: seq<nat>) {
    forall x :: x in s <==> x in t
  }

  lemma LastAgrees(s: seq<nat>, t: seq<nat>)
    requires Increasing(s) && Increasing(t) && SameMembers(s, t) && s != []
    ensures t != [] && s[|s| - 1] == t[|t| - 1]
  {
    var x := s[|s| - 1];
    assert x in s;
    var k :| 0 <= k < |t| && t[k] == x;
    var y := t[|t| - 1];
    assert y in t;
    var l :| 0 <= l < |s| && s[l] == y;
  }

  lemma WithoutLast(s: seq<nat>, x: nat)
    requires Increasing(s) && s != []
    ensures x in s[..|s| - 1] <==> x in s && x != s[|s| - 1]
  {
    assert s == s[..|s| - 1] + [s[|s| - 1]];
    if x in s[..|s| - 1] {
      var k :| 0 <= k < |s| - 1 && s[..|s| - 1][k] == x;
      assert s[k] == x;
    }
  }

  lemma {:induction false} IncreasingUnique(s: seq<nat>, t: seq<nat>)
    requires Increasing(s) && Increasing(t) && SameMembers(s, t)
    ensures s == t
    decreases |s|
  {
    if s != [] {
      LastAgrees(s, t);
      var m, n := |s| - 1, |t| - 1;
      assert SameMembers(s[..m], t[..n]) by {
        forall x: nat
          ensures x in s[..m] <==> x in t[..n]
        {
          WithoutLast(s, x);
          WithoutLast(t, x);
        }
      }
      IncreasingUnique(s[..m], t[..n]);
      assert s == s[..m] + [s[m]] && t == t[..n] + [t[n]];
    } else if t != [] {
      LastAgrees(t, s);
    }
  }

  ghost function Firsts(ts: seq<Transaction>): (r: seq<nat>)
    requires forall a :: 0 <= a < |ts| ==> ts[a].indices != []
    ensures |r| == |ts| && forall a :: 0 <= a < |ts| ==> r[a] == ts[a].indices[0]
  {
    seq(|ts|, a requires 0 <= a < |ts| => ts[a].indices[0])
  }

  /** A message opens a transaction if none before it belongs to the same one. */
  ghost predicate Opens(ms: seq<SipMessage>, i: nat)
    requires i < |ms|
  {
    KeyOf(ms, i).Some? && forall j :: 0 <= j < i ==> KeyOf(ms, j) != KeyOf(ms, i)
  }

  lemma MembersOf(ms: seq<SipMessage>, n: nat, ts: seq<Transaction>, a: nat, i: nat)
    requires n <= |ms| && Groups(ms, n, ts) && a < |ts|
    ensures i in ts[a].indices <==> i < n && KeyOf(ms, i) == Some(ts[a].key)
  {
    hide KeyOf;
    assert Belong(ms, n, ts[a]);
    if i < n && KeyOf(ms, i) == Some(ts[a].key) {
      assert Listed(ts, ts[a].key, i);
    }
  }

  lemma FirstLeast(s: seq<nat>, x: nat)
    requires Increasing(s) && s != []
    ensures x in s ==> s[0] <= x
  {
    assert forall k :: 0 < k < |s| ==> s[0] < s[k];
  }

  lemma FirstsOpen(ms: seq<SipMessage>, n: nat, ts: seq<Transaction>, i: nat)
    requires n <= |ms| && Groups(ms, n, ts)
    ensures i in Firsts(ts) <==> i < n && Opens(ms, i)
  {
    hide KeyOf;
    if i in Firsts(ts) {
      var a :| 0 <= a < |ts| && ts[a].indices[0] == i;
      assert Belong(ms, n, ts[a]) && i in ts[a].indices;
      forall j | 0 <= j < i
        ensures KeyOf(ms, j) != KeyOf(ms, i)
      {
        MembersOf(ms, n, ts, a, j);
        FirstLeast(ts[a].indices, j);
      }
    }
    if i < n && Opens(ms, i) {
      assert Listed(ts, KeyOf(ms, i).value, i);
      var a :| 0 <= a < |ts| && ts[a].key == KeyOf(ms, i).value && i in ts[a].indices;
      var first := ts[a].indices[0];
      assert Belong(ms, n, ts[a]);
      assert first in ts[a].indices && KeyOf(ms, first) == KeyOf(ms, i);
      var k :| 0 <= k < |ts[a].indices| && ts[a].indices[k] == i;
      assert first == i;
      assert Firsts(ts)[a] == i;
    }
  }

  /** Order, keys and members leave no choice: two results with the promised properties are equal. */
  lemma GroupsUnique(ms: seq<SipMessage>, n: nat, ts: seq<Transaction>, us: seq<Transaction>)
    requires n <= |ms| && Groups(ms, n, ts) && Groups(ms, n, us)
    ensures ts == us
  {
    forall i: nat
      ensures i in Firsts(ts) <==> i in Firsts(us)
    {
      FirstsOpen(ms, n, ts, i);
      FirstsOpen(ms, n, us, i);
    }
    IncreasingUnique(Firsts(ts), Firsts(us));
    forall a | 0 <= a < |ts|
      ensures ts[a] == us[a]
    {
      assert Firsts(ts)[a] == Firsts(us)[a];
      MembersOf(ms, n, ts, a, ts[a].indices[0]);
      MembersOf(ms, n, us, a, us[a].indices[0]);
      forall i: nat
        ensures i in ts[a].indices <==> i in us[a].indices
      {
        MembersOf(ms, n, ts, a, i);
        MembersOf(ms, n, us, a, i);
      }
      IncreasingUnique(ts[a].indices, us[a].indices);
    }
  }

  // ----- Longer traces -----

  /** Every transaction is still there, at its place, with its list possibly continued. */
  ghost predicate Continued(ts: seq<Transaction>, us: seq<Transaction>) {
    |ts| <= |us| && forall a :: 0 <= a < |ts| ==> us[a].key == ts[a].key && ts[a].indices <= us[a].indices
  }

  lemma KeyOfPrefix(ms: seq<SipMessage>, more: seq<SipMessage>, i: nat)
    requires i < |ms|
    ensures KeyOf(ms + more, i) == KeyOf(ms, i)
  {
    var all := ms + more;
    assert forall j :: 0 <= j <= i ==> all[j] == ms[j];
    if Said(ms[i]).Some? {
      var (via, cseq) := Said(ms[i]).value;
      assert Refused(all, i, via) == Refused(ms, i, via);
      assert Invited(all, i, via, cseq.number) == Invited(ms, i, via, cseq.number);
    }
  }

  lemma {:induction false} GroupedPrefix(ms: seq<SipMessage>, more: seq<SipMessage>, n: nat)
    requires n <= |ms|
    ensures Grouped(ms + more, n) == Grouped(ms, n)
  {
    hide KeyOf, AddTo;
    if n > 0 {
      KeyOfPrefix(ms, more, n - 1);
      GroupedPrefix(ms, more, n - 1);
    }
  }

  lemma AddToContinues(ts: seq<Transaction>, key: TransactionKey, i: nat)
    ensures Continued(ts, AddTo(ts, key, i))
  {
  }

  lemma {:induction false} GroupedContinues(ms: seq<SipMessage>, m: nat, n: nat)
    requires m <= n <= |ms|
    ensures Continued(Grouped(ms, m), Grouped(ms, n))
    decreases n
  {
    hide KeyOf, AddTo;
    if m < n {
      GroupedContinues(ms, m, n - 1);
      if KeyOf(ms, n - 1).Some? {
        AddToContinues(Grouped(ms, n - 1), KeyOf(ms, n - 1).value, n - 1);
      }
    }
  }

  /** Extending the trace only appends: to the list of transactions and to the lists in it. */
  lemma ExtensionAppends(ms: seq<SipMessage>, more: seq<SipMessage>, ts: seq<Transaction>, us: seq<Transaction>)
    requires Groups(ms, |ms|, ts) && Groups(ms + more, |ms + more|, us)
    ensures Continued(ts, us)
  {
    hide Groups;
    var all := ms + more;
    GroupedIsRight(ms, |ms|);
    GroupsUnique(ms, |ms|, ts, Grouped(ms, |ms|));
    GroupedIsRight(all, |all|);
    GroupsUnique(all, |all|, us, Grouped(all, |all|));
    GroupedPrefix(ms, more, |ms|);
    GroupedContinues(all, |ms|, |all|);
  }

  // ----- The program -----

  /** The map of groups and the order of keys stand for the transactions found so far. */
  ghost predicate Stands(groups: map<TransactionKey, seq<nat>>, order: seq<TransactionKey>, ts: seq<Transaction>) {
    && |order| == |ts|
    && (forall a :: 0 <= a < |ts| ==> order[a] == ts[a].key && order[a] in groups && groups[order[a]] == ts[a].indices)
    && (forall key :: key in groups ==> key in order)
    && (forall a, b :: 0 <= a < b < |ts| ==> order[a] != order[b])
  }

  method AddToGroup(groups: map<TransactionKey, seq<nat>>, firstSeenOrder: seq<TransactionKey>, key: TransactionKey,
                    index: nat, ghost ts: seq<Transaction>)
    returns (groups': map<TransactionKey, seq<nat>>, firstSeenOrder': seq<TransactionKey>)
    requires Stands(groups, firstSeenOrder, ts)
    ensures Stands(groups', firstSeenOrder', AddTo(ts, key, index))
  {
    groups', firstSeenOrder' := groups, firstSeenOrder;
    if key !in groups {
      groups' := groups'[key := []];
      firstSeenOrder' := firstSeenOrder' + [key];
    }
    groups' := groups'[key := groups'[key] + [index]];
    StandsAdded(groups, firstSeenOrder, ts, key, index);
  }

  lemma StandsAdded(groups: map<TransactionKey, seq<nat>>, order: seq<TransactionKey>, ts: seq<Transaction>, key: TransactionKey, i: nat)
    requires Stands(groups, order, ts)
    ensures key in groups ==> Stands(groups[key := groups[key] + [i]], order, AddTo(ts, key, i))
    ensures key !in groups ==> Stands(groups[key := [i]], order + [key], AddTo(ts, key, i))
  {
    match Position(ts, key)
    case Some(a) =>
      assert order[a] == key;
    case None =>
      assert forall a :: 0 <= a < |order| ==> order[a] != key;
  }

  predicate Below(indices: seq<nat>, n: nat) {
    forall k :: 0 <= k < |indices| ==> indices[k] < n
  }

  predicate HasFailureResponse(indices: seq<nat>, ms: seq<SipMessage>)
    requires Below(indices, |ms|)
  {
    exists k :: 0 <= k < |indices| && IsFailure(ms[indices[k]])
  }

  ghost predicate MatchesInvite(indices: seq<nat>, number: nat, ms: seq<SipMessage>)
    requires Below(indices, |ms|)
  {
    exists k :: 0 <= k < |indices| && HasInviteCSeq(ms[indices[k]], number)
  }

  method HasMatchingInvite(indices: seq<nat>, number: nat, ms: seq<SipMessage>) returns (found: bool)
    requires Below(indices, |ms|)
    ensures found <==> MatchesInvite(indices, number, ms)
  {
    hide HeaderValue, ParseCSeq;
    for k := 0 to |indices|
      invariant forall j :: 0 <= j < k ==> !HasInviteCSeq(ms[indices[j]], number)
    {
      var cseqValue := HeaderValue(ms[indices[k]].headers, "CSeq");
      if cseqValue.None? {
        continue;
      }
      var cseq := ParseCSeq(cseqValue.value);
      if cseq.Some? && cseq.value.number == number && cseq.value.method_ == "INVITE" {
        return true;
      }
    }
    found := false;
  }

  predicate HasInviteCSeq(m: SipMessage, number: nat) {
    var value := HeaderValue(m.headers, "CSeq");
    value.Some? && ParseCSeq(value.value) == Some(CSeqParts(number, "INVITE"))
  }

  function InviteKey(via: ViaParts): TransactionKey {
    TransactionKey(via.branch, via.sentBy, "INVITE")
  }

  lemma InviteListed(ms: seq<SipMessage>, n: nat, ts: seq<Transaction>, via: ViaParts, j: nat)
    requires n <= |ms| && Groups(ms, n, ts) && j < n && OfInvite(ms[j], via)
    ensures Listed(ts, InviteKey(via), j)
  {
    assert KeyOf(ms, j) == Some(InviteKey(via));
  }

  /** A response or an INVITE-numbered message in the group of an INVITE speaks of that INVITE. */
  lemma SpeaksOfInvite(ms: seq<SipMessage>, j: nat, via: ViaParts, number: nat)
    requires j < |ms| && KeyOf(ms, j) == Some(InviteKey(via))
    ensures IsFailure(ms[j]) ==> OfInvite(ms[j], via)
    ensures HasInviteCSeq(ms[j], number) <==> InviteNumbered(ms[j], via, number)
  {
  }

  lemma ListedIff(ms: seq<SipMessage>, ts: seq<Transaction>, key: TransactionKey, i: nat)
    requires Groups(ms, |ms|, ts) && i < |ms|
    ensures Listed(ts, key, i) <==> KeyOf(ms, i) == Some(key)
  {
    hide KeyOf, Ordered;
    if Listed(ts, key, i) {
      var a :| 0 <= a < |ts| && ts[a].key == key && i in ts[a].indices;
      assert Belong(ms, |ms|, ts[a]);
    }
  }

  /** A message earlier in the same INVITE transaction refused it. */
  ghost predicate RefusedInGroup(ms: seq<SipMessage>, ts: seq<Transaction>, i: nat, via: ViaParts)
    requires i <= |ms|
  {
    exists j :: 0 <= j < i && Listed(ts, InviteKey(via), j) && ms[j].kind == Response && 300 <= ms[j].statusCode <= 699
  }

  ghost predicate InvitedInGroup(ms: seq<SipMessage>, ts: seq<Transaction>, i: nat, via: ViaParts, number: nat)
    requires i <= |ms|
  {
    exists j :: 0 <= j < i && Listed(ts, InviteKey(via), j) && HasInviteCSeq(ms[j], number)
  }

  /** An ACK request is attached, and then to the INVITE transaction, exactly if an earlier 3xx to
      6xx response is in that transaction: an ACK of a 2xx response is not. */
  lemma AckJoinsRefusedInvite(ms: seq<SipMessage>, ts: seq<Transaction>, i: nat, key: TransactionKey)
    requires Groups(ms, |ms|, ts) && i < |ms| && IsRequest(ms[i], "ACK")
    ensures var via := Said(ms[i]).value.0;
      Listed(ts, key, i) <==> key == InviteKey(via) && RefusedInGroup(ms, ts, i, via)
  {
    hide Groups, Listed;
    var via := Said(ms[i]).value.0;
    ListedIff(ms, ts, key, i);
    forall j | 0 <= j < i && IsFailure(ms[j])
      ensures Listed(ts, InviteKey(via), j) <==> OfInvite(ms[j], via)
    {
      ListedIff(ms, ts, InviteKey(via), j);
    }
  }

  /** A CANCEL request is kept, in a transaction of its own, exactly if an earlier message of the
      INVITE transaction has its number and the method INVITE. */
  lemma CancelFollowsInvite(ms: seq<SipMessage>, ts: seq<Transaction>, i: nat, key: TransactionKey)
    requires Groups(ms, |ms|, ts) && i < |ms| && IsRequest(ms[i], "CANCEL")
    ensures var (via, cseq) := Said(ms[i]).value;
      Listed(ts, key, i) <==> key == TransactionKey(via.branch, via.sentBy, "CANCEL") && InvitedInGroup(ms, ts, i, via, cseq.number)
  {
    hide Groups, Listed;
    var (via, cseq) := Said(ms[i]).value;
    ListedIff(ms, ts, key, i);
    forall j | 0 <= j < i
      ensures Listed(ts, InviteKey(via), j) && HasInviteCSeq(ms[j], cseq.number) <==> InviteNumbered(ms[j], via, cseq.number)
    {
      ListedIff(ms, ts, InviteKey(via), j);
      if KeyOf(ms, j) == Some(InviteKey(via)) {
        SpeaksOfInvite(ms, j, via, cseq.number);
      }
    }
  }

  /** Any other message is in the transaction of its own branch, sent-by and method, and in no other;
      one without a usable Via or CSeq is in none. */
  lemma OthersKeepTheirKey(ms: seq<SipMessage>, ts: seq<Transaction>, i: nat, key: TransactionKey)
    requires Groups(ms, |ms|, ts) && i < |ms|
    requires ms[i].kind == Request && Said(ms[i]).Some? ==> Said(ms[i]).value.1.method_ != "ACK" && Said(ms[i]).value.1.method_ != "CANCEL"
    ensures Listed(ts, key, i) <==>
      Said(ms[i]).Some? && var (via, cseq) := Said(ms[i]).value; key == TransactionKey(via.branch, via.sentBy, cseq.method_)
  {
    hide Groups, Listed;
    ListedIff(ms, ts, key, i);
  }

  /** Looking in the INVITE's group finds what looking at every earlier message would find. */
  lemma GroupSpeaksForTrace(ms: seq<SipMessage>, n: nat, ts: seq<Transaction>, groups: map<TransactionKey, seq<nat>>,
                            order: seq<TransactionKey>, via: ViaParts, number: nat)
    requires n <= |ms| && Groups(ms, n, ts) && Stands(groups, order, ts)
    ensures if InviteKey(via) in groups then
        && Below(groups[InviteKey(via)], |ms|)
        && (HasFailureResponse(groups[InviteKey(via)], ms) <==> Refused(ms, n, via))
        && (MatchesInvite(groups[InviteKey(via)], number, ms) <==> Invited(ms, n, via, number))
      else !Refused(ms, n, via) && !Invited(ms, n, via, number)
  {
    hide KeyOf, HasInviteCSeq, IsFailure, Said, Ordered;
    var key := InviteKey(via);
    forall j | 0 <= j < n && OfInvite(ms[j], via)
      ensures key in groups && j in groups[key]
    {
      InviteListed(ms, n, ts, via, j);
    }
    if key in groups {
      var a :| 0 <= a < |order| && order[a] == key;
      var indices := groups[key];
      assert indices == ts[a].indices && Belong(ms, n, ts[a]);
      forall k | 0 <= k < |indices|
        ensures indices[k] < n
        ensures IsFailure(ms[indices[k]]) ==> OfInvite(ms[indices[k]], via)
        ensures HasInviteCSeq(ms[indices[k]], number) <==> InviteNumbered(ms[indices[k]], via, number)
      {
        assert indices[k] in indices;
        SpeaksOfInvite(ms, indices[k], via, number);
      }
      if Refused(ms, n, via) {
        var j :| 0 <= j < n && OfInvite(ms[j], via) && IsFailure(ms[j]);
        var k :| 0 <= k < |indices| && indices[k] == j;
      }
      if Invited(ms, n, via, number) {
        var j :| 0 <= j < n && InviteNumbered(ms[j], via, number);
        var k :| 0 <= k < |indices| && indices[k] == j;
      }
    }
  }

  /** Groups one more message. */
  method GroupMessage(ms: seq<SipMessage>, index: nat, groups: map<TransactionKey, seq<nat>>, firstSeenOrder: seq<TransactionKey>)
    returns (groups': map<TransactionKey, seq<nat>>, firstSeenOrder': seq<TransactionKey>)
    requires index < |ms| && Stands(groups, firstSeenOrder, Grouped(ms, index))
    ensures Stands(groups', firstSeenOrder', Grouped(ms, index + 1))
  {
    hide Groups, Stands, AddTo, Refused, Invited, ViaOf, ParseCSeq, HasInviteCSeq;
    groups', firstSeenOrder' := groups, firstSeenOrder;
    ghost var ts := Grouped(ms, index);
    var message := ms[index];
    var viaValue := HeaderValue(message.headers, "Via");
    var cseqValue := HeaderValue(message.headers, "CSeq");
    if viaValue.None? || cseqValue.None? {
      return;
    }
    var via := ParseVia(viaValue.value);
    var cseq := ParseCSeq(cseqValue.value);
    if via.None? || cseq.None? {
      return;
    }
    assert Said(message) == Some((via.value, cseq.value));
    var inviteKey := InviteKey(via.value);
    GroupedIsRight(ms, index);
    GroupSpeaksForTrace(ms, index, ts, groups, firstSeenOrder, via.value, cseq.value.number);
    if message.kind == Request && cseq.value.method_ == "ACK" {
      if inviteKey in groups && HasFailureResponse(groups[inviteKey], ms) {
        groups' := groups[inviteKey := groups[inviteKey] + [index]];
        StandsAdded(groups, firstSeenOrder, ts, inviteKey, index);
      }
      return;
    }
    if message.kind == Request && cseq.value.method_ == "CANCEL" {
      if inviteKey !in groups {
        return;
      }
      var matching := HasMatchingInvite(groups[inviteKey], cseq.value.number, ms);
      if !matching {
        return;
      }
    }
    groups', firstSeenOrder' := AddToGroup(groups, firstSeenOrder,
      TransactionKey(via.value.branch, via.value.sentBy, cseq.value.method_), index, ts);
  }

  /** The transactions of a trace. */
  method FindTransactions(ms: seq<SipMessage>) returns (transactions: seq<Transaction>)
    ensures Groups(ms, |ms|, transactions)
  {
    hide Groups, KeyOf, AddTo;
    var groups: map<TransactionKey, seq<nat>>, firstSeenOrder: seq<TransactionKey> := map[], [];
    for index := 0 to |ms|
      invariant Stands(groups, firstSeenOrder, Grouped(ms, index))
    {
      groups, firstSeenOrder := GroupMessage(ms, index, groups, firstSeenOrder);
    }
    transactions := [];
    ghost var ts := Grouped(ms, |ms|);
    for a := 0 to |firstSeenOrder|
      invariant transactions == ts[..a]
    {
      transactions := transactions + [Transaction(firstSeenOrder[a], groups[firstSeenOrder[a]])];
    }
    assert transactions == ts;
    GroupedIsRight(ms, |ms|);
  }
}
