/** The header fields that decide a transaction, told by how they are written: the Via with its
    parameters, the CSeq, and which of several headers of a name counts. */
module SipFields {
  import opened Collections
  import opened SipMessage
  import opened SipGrammar
  import opened SipTransactions

  // ----- Via -----

  /** One parameter: what is left of the first equals sign and what is right of it, if there is one. */
  datatype Param = Param(left: string, right: Option<string>)

  predicate ProperParam(p: Param) {
    ';' !in p.left && '=' !in p.left && (p.right.Some? ==> ';' !in p.right.value)
  }

  predicate ProperParams(params: seq<Param>) {
    forall i :: 0 <= i < |params| ==> ProperParam(params[i])
  }

  function ParamText(p: Param): string {
    p.left + if p.right.Some? then "=" + p.right.value else ""
  }

  function ParamsText(params: seq<Param>): string {
    if params == [] then "" else ";" + (ParamText(params[0]) + ParamsText(params[1..]))
  }

  function ViaText(transport: string, first: string, params: seq<Param>): string {
    transport + " " + (first + ParamsText(params))
  }

  /** The first parameter named branch that has a value counts. */
  function FirstBranch(params: seq<Param>): string {
    if params == [] then ""
    else if params[0].right.Some? && Trimmed(params[0].left) == "branch" && Trimmed(params[0].right.value) != ""
    then Trimmed(params[0].right.value)
    else FirstBranch(params[1..])
  }

  lemma CutFirst(a: string, b: string)
    requires ';' !in a
    ensures CutAt(a, ";") == (a, []) && CutAt(a + ";" + b, ";") == (a, b)
  {
    hide Find;
    NoneOf(a, ';', 0);
    FirstOf(a, ';', b);
    assert a[0..] == a && ";" == [';'] && (a + ";" + b)[|a| + 1..] == b && (a + ";" + b)[..|a|] == a;
  }

  lemma TrimmedOver(b: string, s: string, c: string)
    requires Blanks(b) && Blanks(c)
    ensures Trimmed(b + s + c) == Trimmed(s)
  {
    hide Trimmed, BlankFree;
    var d, e := TrimmedBetween(s);
    TrimmedExactly(b + d, Trimmed(s), e + c);
    assert b + (d + Trimmed(s) + e) + c == b + d + Trimmed(s) + (e + c);
  }

  /** What is not blank is not in the blanks at the ends. */
  lemma Inside(b: string, t: string, c: string, i: nat)
    requires Blanks(b) && Blanks(c) && i < |b + (t + c)| && (b + (t + c))[i] != ' ' && (b + (t + c))[i] != '\t'
    ensures |b| <= i < |b| + |t|
  {
    var s := b + (t + c);
    assert forall k :: |b| + |t| <= k < |s| ==> s[k] == c[k - |b| - |t|];
  }

  lemma ValueOfParam(p: Param)
    requires ProperParam(p)
    ensures BranchValue(Trimmed(ParamText(p))) ==
      if p.right.Some? && Trimmed(p.left) == "branch" then Trimmed(p.right.value) else ""
  {
    hide Find, Trimmed;
    var text := ParamText(p);
    var b, c := TrimmedBetween(text);
    var t := Trimmed(text);
    BlanksSolid(b);
    BlanksSolid(c);
    if p.right.None? {
      assert '=' !in text && text == b + t + c;
      assert forall x :: x in t ==> x in text;
      assert t[0..] == t;
      NoneOf(t, '=', 0);
    } else {
      var i := |p.left|;
      assert text[i] == '=' && text == b + (t + c);
      Inside(b, t, c, i);
      var j := i - |b|;
      assert t[j] == '=' && text[..i] == b + t[..j] && text[i + 1..] == t[j + 1..] + c;
      assert text[..i] == p.left && text[i + 1..] == p.right.value;
      assert forall x :: x in t[..j] ==> x in p.left;
      assert t[0..j] == t[..j];
      FirstAt(t, '=', 0, j);
      TrimmedOver(b, t[..j], "");
      TrimmedOver("", t[j + 1..], c);
      assert b + t[..j] + "" == p.left && "" + t[j + 1..] + c == p.right.value;
    }
  }

  lemma BlanksSolid(s: string)
    requires Blanks(s)
    ensures '=' !in s && ';' !in s
  {
  }

  lemma ParamHasNoEnd(p: Param)
    requires ProperParam(p)
    ensures ';' !in ParamText(p)
  {
  }

  /** Going through the parameters finds the branch. */
  lemma {:induction false} BranchFound(params: seq<Param>)
    requires params != [] && ProperParams(params)
    ensures BranchOf(ParamText(params[0]) + ParamsText(params[1..])) == FirstBranch(params)
    decreases |params|
  {
    hide BranchValue, Trimmed, ParamText, ProperParam, CutAt;
    var text, more := ParamText(params[0]), params[1..];
    ParamHasNoEnd(params[0]);
    ValueOfParam(params[0]);
    NoParams();
    if more == [] {
      CutFirst(text, "");
      assert text + ParamsText(more) == text;
      if text == "" {
        EmptyParam(params[0]);
      }
    } else {
      var rest := ParamText(more[0]) + ParamsText(more[1..]);
      BranchFound(more);
      CutFirst(text, rest);
      assert text + ParamsText(more) == text + ";" + rest;
    }
  }

  lemma EmptyParam(p: Param)
    requires ParamText(p) == ""
    ensures p.right.None?
  {
  }

  lemma NoParams()
    ensures ParamsText([]) == "" && FirstBranch([]) == "" && BranchOf("") == ""
  {
  }

  /** Blanks at the end of the parameters do not matter. */
  lemma {:induction false} BranchBeforeBlanks(s: string, c: string)
    requires Blanks(c)
    ensures BranchOf(s + c) == BranchOf(s)
    decreases |s|
  {
    hide BranchValue, Trimmed, Find;
    BlanksSolid(c);
    NoParams();
    BeforeFirst(s, ';', 0);
    assert ";" == [';'];
    var found := Find(s, ";", 0);
    if found.Some? {
      var i := found.value;
      var a, b := s[..i], s[i + 1..];
      assert s[0..i] == a && s == a + ";" + b && s + c == a + ";" + (b + c);
      CutFirst(a, b);
      CutFirst(a, b + c);
      BranchBeforeBlanks(b, c);
    } else {
      assert s[0..] == s;
      CutFirst(s, "");
      CutFirst(s + c, "");
      TrimmedOver("", s, c);
      assert "" + s + c == s + c;
      BranchOfOne(s);
      BranchOfOne(s + c);
    }
  }

  lemma BranchOfOne(s: string)
    requires CutAt(s, ";") == (s, [])
    ensures BranchOf(s) == BranchValue(Trimmed(s))
  {
    assert s == "" ==> Trimmed(s) == "" && BranchValue("") == "";
  }

  /** A Via is read as it is written: up to the first blank the transport, up to the first semicolon
      the sent-by, and then parameters, of which the first branch counts. */
  lemma ViaRead(transport: string, first: string, params: seq<Param>)
    requires ' ' !in transport && ';' !in first && ProperParams(params)
    ensures ViaOf(ViaText(transport, first, params)) ==
      if Trimmed(first) == "" || FirstBranch(params) == "" then None else Some(ViaParts(FirstBranch(params), Trimmed(first)))
  {
    hide Find, Trimmed, ParamsText, BranchOf, FirstBranch, CutAt;
    var value, rest := ViaText(transport, first, params), first + ParamsText(params);
    assert value == transport + [' '] + rest;
    FirstOf(transport, ' ', rest);
    assert value[|transport| + 1..] == rest;
    AfterTransport(first, params);
  }

  /** The part after the transport, whose blanks at the ends are taken off before it is cut. */
  lemma AfterTransport(first: string, params: seq<Param>)
    requires ';' !in first && ProperParams(params)
    ensures var t := Trimmed(first + ParamsText(params)); var (sentBy, rest) := CutAt(t, ";");
      Trimmed(sentBy) == Trimmed(first) && BranchOf(rest) == FirstBranch(params) && (t == "" ==> Trimmed(first) == "")
  {
    hide Find, Trimmed, BranchOf, FirstBranch, CutAt, Blanks, ProperParams;
    NoParams();
    EmptyTrimmed();
    var text := first + ParamsText(params);
    var b, c := TrimmedBetween(text);
    if params == [] {
      assert text == first;
      assert forall x :: x in Trimmed(text) ==> x in text;
      CutFirst(Trimmed(text), "");
      TrimmedOver(b, Trimmed(text), c);
    } else {
      var more := ParamText(params[0]) + ParamsText(params[1..]);
      assert text == first + (";" + more) == b + (Trimmed(text) + c);
      TrimmedCut(first, more, b, Trimmed(text), c);
      BranchFound(params);
    }
  }

  /** A text cut at a semicolon is cut there after trimming too, up to blanks at the ends. */
  lemma TrimmedCut(first: string, more: string, b: string, t: string, c: string)
    requires ';' !in first && Blanks(b) && Blanks(c) && first + (";" + more) == b + (t + c)
    ensures t != "" && var (left, right) := CutAt(t, ";"); Trimmed(left) == Trimmed(first) && BranchOf(right) == BranchOf(more)
  {
    hide Find, Trimmed, BranchOf, CutAt, Blanks;
    var text := first + (";" + more);
    var i := |first|;
    assert text[i] == ';';
    Inside(b, t, c, i);
    var j := i - |b|;
    assert t == t[..j] + ";" + t[j + 1..];
    assert text[..i] == first && text[i + 1..] == more;
    assert text[..i] == b + t[..j] + "" && text[i + 1..] == t[j + 1..] + c;
    assert forall x :: x in t[..j] ==> x in first;
    CutFirst(t[..j], t[j + 1..]);
    NoBlanks();
    TrimmedOver(b, t[..j], "");
    BranchBeforeBlanks(t[j + 1..], c);
  }

  lemma NoBlanks()
    ensures Blanks("")
  {
  }

  lemma EmptyTrimmed()
    ensures Trimmed("") == ""
  {
  }

  /** Any text is written with parameters after its first piece. */
  lemma {:induction false} ParamsWritten(s: string) returns (first: string, params: seq<Param>)
    ensures ';' !in first && ProperParams(params) && s == first + ParamsText(params)
    decreases |s|
  {
    hide Find, ProperParam, ParamText;
    BeforeFirst(s, ';', 0);
    assert ";" == [';'];
    var found := Find(s, ";", 0);
    if found.None? {
      assert s[0..] == s;
      first, params := s, [];
      assert s + "" == s;
    } else {
      var i := found.value;
      first := s[..i];
      assert s[0..i] == first && s == first + ";" + s[i + 1..];
      var piece, more := ParamsWritten(s[i + 1..]);
      var p := ParamWritten(piece);
      params := [p] + more;
      assert params[1..] == more;
      assert s == first + (";" + (piece + ParamsText(more)));
    }
  }

  lemma ParamWritten(s: string) returns (p: Param)
    requires ';' !in s
    ensures ProperParam(p) && ParamText(p) == s
  {
    hide Find;
    BeforeFirst(s, '=', 0);
    assert "=" == ['='];
    var found := Find(s, "=", 0);
    if found.None? {
      assert s[0..] == s && s + "" == s;
      p := Param(s, None);
    } else {
      var i := found.value;
      assert s[0..i] == s[..i] && s == s[..i] + ("=" + s[i + 1..]);
      p := Param(s[..i], Some(s[i + 1..]));
    }
  }

  /** Nothing else is a Via: a value without a blank is none, and any other is written so. */
  lemma ViaWritten(value: string) returns (transport: string, first: string, params: seq<Param>)
    ensures ' ' !in value ==> ViaOf(value) == None
    ensures ' ' in value ==> ' ' !in transport && ';' !in first && ProperParams(params) && ViaText(transport, first, params) == value
  {
    hide Find, ProperParams, ParamsText;
    BeforeFirst(value, ' ', 0);
    assert " " == [' '];
    var found := Find(value, " ", 0);
    transport, first, params := "", "", [];
    if found.Some? {
      var i := found.value;
      transport := value[..i];
      first, params := ParamsWritten(value[i + 1..]);
      assert value[0..i] == transport && value == transport + " " + value[i + 1..];
    } else {
      assert value[0..] == value;
    }
  }

  // ----- CSeq -----

  function PowerOfTen(n: nat): nat {
    if n == 0 then 1 else 10 * PowerOfTen(n - 1)
  }

  /** The number that digits write, by the weight of their places. */
  function Written(digits: string): int {
    if digits == [] then 0 else ValueOf(digits[0]) * PowerOfTen(|digits| - 1) + Written(digits[1..])
  }

  predicate Digits(s: string) {
    s != [] && forall i :: 0 <= i < |s| ==> '0' <= s[i] <= '9'
  }

  lemma {:induction false} WrittenLast(s: string, c: char)
    ensures Written(s + [c]) == 10 * Written(s) + ValueOf(c)
    decreases |s|
  {
    if s == [] {
      assert s + [c] == [c] && [c][1..] == [];
    } else {
      assert (s + [c])[1..] == s[1..] + [c];
      WrittenLast(s[1..], c);
    }
  }

  lemma {:induction false} NumberIsWritten(s: string)
    requires forall i :: 0 <= i < |s| ==> IsDigit(s[i])
    ensures Number(s) == Written(s)
    decreases |s|
  {
    if s != [] {
      NumberIsWritten(s[..|s| - 1]);
      WrittenLast(s[..|s| - 1], s[|s| - 1]);
      assert s == s[..|s| - 1] + [s[|s| - 1]];
    }
  }

  predicate OneWord(s: string) {
    s != [] && forall i :: 0 <= i < |s| ==> s[i] != ' ' && s[i] != '\t'
  }

  /** A CSeq as it is written: a number of 32 bits, blanks, and one word, with blanks around. */
  predicate WritesCSeq(value: string, c: CSeqParts, b: string, digits: string, gap: string, e: string) {
    && value == b + (digits + (gap + c.method_)) + e
    && Blanks(b) && Blanks(gap) && gap != [] && Blanks(e)
    && Digits(digits) && Written(digits) == c.number <= 0xFFFF_FFFF && OneWord(c.method_)
  }

  lemma {:induction false} CountsDigits(digits: string, rest: string)
    requires (forall i :: 0 <= i < |digits| ==> IsDigit(digits[i])) && (rest != [] ==> !IsDigit(rest[0]))
    ensures DigitCount(digits + rest) == |digits|
    decreases |digits|
  {
    if digits == [] {
      assert digits + rest == rest;
    } else {
      assert (digits + rest)[1..] == digits[1..] + rest;
      CountsDigits(digits[1..], rest);
    }
  }

  lemma NoBlankInWord(s: string)
    requires OneWord(s)
    ensures FirstBlank(s) == None && BlankFree(s)
  {
  }

  lemma CSeqRead(value: string, c: CSeqParts, b: string, digits: string, gap: string, e: string)
    requires WritesCSeq(value, c, b, digits, gap, e)
    ensures ParseCSeq(value) == Some(c)
  {
    hide Trimmed, FirstBlank, DigitCount, Number, Written;
    var inner := digits + (gap + c.method_);
    NoBlankInWord(c.method_);
    TrimmedExactly(b, inner, e);
    CountsDigits(digits, gap + c.method_);
    NumberIsWritten(digits);
    assert inner[..|digits|] == digits && inner[|digits|..] == gap + c.method_ == gap + c.method_ + "";
    TrimmedExactly(gap, c.method_, "");
  }

  lemma CSeqWritten(value: string, c: CSeqParts) returns (b: string, digits: string, gap: string, e: string)
    requires ParseCSeq(value) == Some(c)
    ensures WritesCSeq(value, c, b, digits, gap, e)
  {
    hide Trimmed, Number, Written;
    b, e := TrimmedBetween(value);
    var t := Trimmed(value);
    var n := DigitCount(t);
    digits := t[..n];
    NumberIsWritten(digits);
    var lead, trail := TrimmedBetween(t[n..]);
    var rest := Trimmed(t[n..]);
    TrailEmpty(t, n, lead, rest, trail);
    OnlyWord(rest);
    gap := lead;
    assert t == digits + t[n..];
  }

  /** Trimming leaves no blank at the end of what follows the number. */
  lemma TrailEmpty(t: string, n: nat, lead: string, rest: string, trail: string)
    requires n < |t| && BlankFree(t) && t[n..] == lead + rest + trail && Blanks(lead) && Blanks(trail) && BlankFree(rest) && rest != []
    requires IsBlank(t[n])
    ensures trail == "" && lead != ""
  {
    var u := lead + rest + trail;
    assert u[0] == t[n] && u[|u| - 1] == t[|t| - 1];
    EndsOf(lead + rest, trail);
  }

  lemma EndsOf(a: string, b: string)
    ensures b != "" ==> (a + b)[|a| + |b| - 1] == b[|b| - 1]
  {
  }

  /** A word followed by nothing but blanks, and ending without one, is all there is. */
  lemma OnlyWord(rest: string)
    requires BlankFree(rest) && rest != []
    ensures FirstBlank(rest).Some? ==> Trimmed(rest[FirstBlank(rest).value..]) != ""
    ensures FirstBlank(rest).None? ==> OneWord(rest)
  {
    hide Trimmed;
    if FirstBlank(rest).Some? {
      var i := FirstBlank(rest).value;
      var tail := rest[i..];
      var b, c := TrimmedBetween(tail);
      assert tail[|tail| - 1] == rest[|rest| - 1];
      assert Blanks(b + c);
      assert Trimmed(tail) == "" ==> tail == b + c;
    }
  }

  /** Exactly what is written as a CSeq is read as one, and as that one. */
  lemma CSeqExactly(value: string, c: CSeqParts)
    ensures ParseCSeq(value) == Some(c) <==> exists b, digits, gap, e :: WritesCSeq(value, c, b, digits, gap, e)
  {
    hide WritesCSeq, ParseCSeq;
    if ParseCSeq(value) == Some(c) {
      var b, digits, gap, e := CSeqWritten(value, c);
    }
    forall b, digits, gap, e | WritesCSeq(value, c, b, digits, gap, e)
      ensures ParseCSeq(value) == Some(c)
    {
      CSeqRead(value, c, b, digits, gap, e);
    }
  }

  // ----- Headers -----

  ghost predicate FirstNamed(headers: seq<SipHeader>, name: string, i: nat) {
    i < |headers| && headers[i].name == name && forall j :: 0 <= j < i ==> headers[j].name != name
  }

  /** Of several headers of a name the first counts; names are compared as they are. */
  lemma {:induction false} FirstCounts(headers: seq<SipHeader>, name: string, i: nat)
    ensures FirstNamed(headers, name, i) ==> HeaderValue(headers, name) == Some(headers[i].value)
    ensures (forall h :: h in headers ==> h.name != name) ==> HeaderValue(headers, name) == None
    decreases |headers|
  {
    if headers != [] {
      FirstCounts(headers[1..], name, if i > 0 then i - 1 else 0);
      if FirstNamed(headers, name, i) && i > 0 {
        assert headers[0].name != name;
        assert FirstNamed(headers[1..], name, i - 1) by {
          assert forall j :: 0 <= j < i - 1 ==> headers[1..][j] == headers[j + 1];
        }
      }
    }
  }
}
