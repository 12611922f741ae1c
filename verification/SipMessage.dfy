/** The SIP parser: a trace is a series of messages, each ended by an empty line. */
module SipMessage {
  import opened Collections

  const CRLF := "\r\n"
  const SEPARATOR := "\r\n\r\n"
  const VERSION := "SIP/2.0"

  datatype SipHeader = SipHeader(name: string, value: string)

  datatype Kind = Request | Response

  datatype SipMessage = SipMessage(kind: Kind, method_: string, requestUri: string, statusCode: nat, headers: seq<SipHeader>)

  // ----- Searching and trimming -----

  predicate Occurs(s: string, pattern: string, i: nat) {
    i + |pattern| <= |s| && s[i..i + |pattern|] == pattern
  }

  /** The first occurrence at or after `from`. */
  function Find(s: string, pattern: string, from: nat): (r: Option<nat>)
    requires from <= |s|
    ensures r.Some? ==> from <= r.value && Occurs(s, pattern, r.value) && forall i :: from <= i < r.value ==> !Occurs(s, pattern, i)
    ensures r.None? ==> forall i :: from <= i ==> !Occurs(s, pattern, i)
    decreases |s| - from
  {
    if Occurs(s, pattern, from) then Some(from)
    else if from == |s| then None
    else Find(s, pattern, from + 1)
  }

  predicate IsBlank(c: char) {
    c == ' ' || c == '\t'
  }

  function TrimFront(s: string): string {
    if s != [] && IsBlank(s[0]) then TrimFront(s[1..]) else s
  }

  function TrimBack(s: string): string {
    if s != [] && IsBlank(s[|s| - 1]) then TrimBack(s[..|s| - 1]) else s
  }

  function Trimmed(s: string): string {
    TrimBack(TrimFront(s))
  }

  method Trim(s: string) returns (t: string)
    ensures t == Trimmed(s)
  {
    t := s;
    while |t| > 0 && IsBlank(t[0])
      invariant TrimFront(t) == TrimFront(s)
      decreases |t|
    {
      t := t[1..];
    }
    while |t| > 0 && IsBlank(t[|t| - 1])
      invariant TrimBack(t) == Trimmed(s)
      decreases |t|
    {
      t := t[..|t| - 1];
    }
  }

  predicate BlankFree(s: string) {
    s == [] || (!IsBlank(s[0]) && !IsBlank(s[|s| - 1]))
  }

  lemma {:induction false} TrimFrontPart(s: string)
    ensures |TrimFront(s)| <= |s| && TrimFront(s) == s[|s| - |TrimFront(s)|..]
    ensures TrimFront(s) == [] || !IsBlank(TrimFront(s)[0])
    decreases |s|
  {
    if s != [] && IsBlank(s[0]) {
      TrimFrontPart(s[1..]);
    }
  }

  lemma {:induction false} TrimBackPart(s: string)
    ensures |TrimBack(s)| <= |s| && TrimBack(s) == s[..|TrimBack(s)|]
    ensures TrimBack(s) == [] || !IsBlank(TrimBack(s)[|TrimBack(s)| - 1])
    decreases |s|
  {
    if s != [] && IsBlank(s[|s| - 1]) {
      TrimBackPart(s[..|s| - 1]);
    }
  }

  /** Trimming leaves no blank at either end and adds no characters. */
  lemma TrimmedPart(s: string)
    ensures BlankFree(Trimmed(s)) && forall c :: c in Trimmed(s) ==> c in s
  {
    TrimFrontPart(s);
    TrimBackPart(TrimFront(s));
  }

  lemma TrimmedSame(s: string)
    requires BlankFree(s)
    ensures Trimmed(s) == s && Trimmed([' '] + s) == s
  {
    assert ([' '] + s)[1..] == s;
  }

  // ----- One message -----

  /** Line breaks are CRLF: no CR without LF, no LF without CR. */
  predicate LineBreaksOk(s: string) {
    forall i :: 0 <= i < |s| ==> BreakOk(s, i)
  }

  predicate BreakOk(s: string, i: nat)
    requires i < |s|
  {
    (s[i] == '\r' ==> i + 1 < |s| && s[i + 1] == '\n') && (s[i] == '\n' ==> i > 0 && s[i - 1] == '\r')
  }

  /** The first line and what follows its line break. */
  function SplitLine(s: string): (r: (string, string))
    ensures s != [] ==> |r.1| < |s|
  {
    match Find(s, CRLF, 0)
    case None => (s, [])
    case Some(i) => (s[..i], s[i + 2..])
  }

  function SplitSpace(line: string): Option<(string, string, string)> {
    var first := Find(line, " ", 0);
    if first.None? then None else
    var second := Find(line, " ", first.value + 1);
    if second.None? then None else
    if Find(line, " ", second.value + 1).Some? then None else
    var a, b, c := line[..first.value], line[first.value + 1..second.value], line[second.value + 1..];
    if a != [] && b != [] && c != [] then Some((a, b, c)) else None
  }

  /** The status code in exactly three digits. */
  function StatusCode(s: string): Option<nat>
    requires |s| == 3
  {
    if IsDigit(s[0]) && IsDigit(s[1]) && IsDigit(s[2])
    then Some(100 * Digit(s[0]) + 10 * Digit(s[1]) + Digit(s[2]))
    else None
  }

  /** A message without headers, from its start line. The reason phrase is dropped. */
  function ParseStartLine(line: string): Option<SipMessage> {
    if VERSION + " " <= line then
      var after := line[8..];
      if |after| < 3 then None else
      var code := StatusCode(after[..3]);
      if code.None? || code.value < 100 || code.value > 699 then None
      else if |after| > 3 && after[3] != ' ' then None
      else Some(SipMessage(Response, "", "", code.value, []))
    else
      match SplitSpace(line)
      case None => None
      case Some((method_, uri, version)) =>
        if version != VERSION then None else Some(SipMessage(Request, method_, uri, 0, []))
  }

  function ParseHeader(line: string): Option<SipHeader> {
    var colon := Find(line, ":", 0);
    if colon.None? then None else
    var name := Trimmed(line[..colon.value]);
    if name == [] then None else Some(SipHeader(name, Trimmed(line[colon.value + 1..])))
  }

  /** The headers, one per line; one empty line is allowed at the very end. */
  function ParseHeaders(s: string): Option<seq<SipHeader>>
    decreases |s|
  {
    if s == [] then Some([]) else
    var (line, rest) := SplitLine(s);
    if line == [] then if rest != [] then None else Some([])
    else
      match ParseHeader(line)
      case None => None
      case Some(h) => Prepend([h], ParseHeaders(rest))
  }

  function ParseOne(segment: string): Option<SipMessage> {
    if segment == [] || !LineBreaksOk(segment) then None else
    var (startLine, rest) := SplitLine(segment);
    if startLine == [] then None else
    match (ParseStartLine(startLine), ParseHeaders(rest))
    case (Some(m), Some(hs)) => Some(m.(headers := hs))
    case _ => None
  }

  method CheckLineBreaks(segment: string) returns (ok: bool)
    ensures ok == LineBreaksOk(segment)
  {
    for i := 0 to |segment|
      invariant forall j :: 0 <= j < i ==> BreakOk(segment, j)
    {
      if segment[i] == '\r' && (i + 1 >= |segment| || segment[i + 1] != '\n') {
        assert !BreakOk(segment, i);
        return false;
      }
      if segment[i] == '\n' && (i == 0 || segment[i - 1] != '\r') {
        assert !BreakOk(segment, i);
        return false;
      }
    }
    ok := true;
  }

  /** Puts what was found before what is still to be found, if that succeeds. */
  function Prepend<T>(found: seq<T>, more: Option<seq<T>>): Option<seq<T>> {
    match more
    case None => None
    case Some(rest) => Some(found + rest)
  }

  lemma PrependNothing<T>(more: Option<seq<T>>)
    ensures Prepend([], more) == more
  {
    if more.Some? {
      assert [] + more.value == more.value;
    }
  }

  lemma PrependStep<T>(found: seq<T>, x: T, more: Option<seq<T>>)
    ensures Prepend(found + [x], more) == Prepend(found, Prepend([x], more))
  {
    if more.Some? {
      assert found + [x] + more.value == found + ([x] + more.value);
    }
  }

  lemma PrependNone<T>(found: seq<T>)
    ensures Prepend(found, None) == None
  {
  }

  lemma PrependLast<T>(found: seq<T>)
    ensures Prepend(found, Some([])) == Some(found)
  {
    assert found + [] == found;
  }

  method ParseHeaderLines(text: string) returns (headers: Option<seq<SipHeader>>)
    ensures headers == ParseHeaders(text)
  {
    hide Prepend;
    var found: seq<SipHeader> := [];
    var rest := text;
    PrependNothing(ParseHeaders(text));
    while |rest| > 0
      invariant Prepend(found, ParseHeaders(rest)) == ParseHeaders(text)
      decreases |rest|
    {
      PrependNone(found);
      ghost var before := rest;
      var lineEnd := Find(rest, CRLF, 0);
      var line;
      if lineEnd.None? {
        line := rest;
        rest := [];
      } else {
        line := rest[..lineEnd.value];
        rest := rest[lineEnd.value + 2..];
      }
      assert (line, rest) == SplitLine(before);
      if |line| == 0 {
        if |rest| > 0 {
          return None;
        }
        PrependLast(found);
        return Some(found);
      }
      var colon := Find(line, ":", 0);
      if colon.None? {
        return None;
      }
      var name := Trim(line[..colon.value]);
      if |name| == 0 {
        return None;
      }
      var value := Trim(line[colon.value + 1..]);
      assert ParseHeader(line) == Some(SipHeader(name, value));
      PrependStep(found, SipHeader(name, value), ParseHeaders(rest));
      found := found + [SipHeader(name, value)];
    }
    PrependLast(found);
    headers := Some(found);
  }

  method ParseOneMessage(segment: string) returns (msg: Option<SipMessage>)
    ensures msg == ParseOne(segment)
  {
    if |segment| == 0 {
      return None;
    }
    var ok := CheckLineBreaks(segment);
    if !ok {
      return None;
    }
    var (startLine, rest) := SplitLine(segment);
    if |startLine| == 0 {
      return None;
    }
    var start := ParseStartLine(startLine);
    if start.None? {
      return None;
    }
    var headers := ParseHeaderLines(rest);
    if headers.None? {
      return None;
    }
    msg := Some(start.value.(headers := headers.value));
  }

  // ----- A series -----

  /** The next message and what follows its empty line; the last may omit that line. */
  function CutSegment(s: string): (r: (string, string))
    ensures s != [] ==> |r.1| < |s|
  {
    match Find(s, SEPARATOR, 0)
    case None => (s, [])
    case Some(i) => (s[..i], s[i + 4..])
  }

  function Series(s: string): Option<seq<SipMessage>>
    decreases |s|
  {
    if s == [] then Some([]) else
    var (segment, rest) := CutSegment(s);
    match ParseOne(segment)
    case None => None
    case Some(m) => Prepend([m], Series(rest))
  }

  function ParseSeries(trace: string): (r: Option<seq<SipMessage>>)
    ensures r.Some? ==> r.value != []
  {
    if trace == [] then None else Series(trace)
  }

  lemma FindSuffix(s: string, pattern: string, pos: nat)
    requires pos <= |s|
    ensures Find(s, pattern, pos).Some? == Find(s[pos..], pattern, 0).Some?
    ensures Find(s, pattern, pos).Some? ==> Find(s, pattern, pos).value == pos + Find(s[pos..], pattern, 0).value
  {
    assert forall i: nat :: Occurs(s[pos..], pattern, i) ==> Occurs(s, pattern, pos + i) by {
      forall i: nat | Occurs(s[pos..], pattern, i)
        ensures Occurs(s, pattern, pos + i)
      {
        assert s[pos..][i..i + |pattern|] == s[pos + i..pos + i + |pattern|];
      }
    }
    forall i: nat | pos <= i && Occurs(s, pattern, i)
      ensures Occurs(s[pos..], pattern, i - pos)
    {
      assert s[pos..][i - pos..i - pos + |pattern|] == s[i..i + |pattern|];
    }
  }

  method NextSegment(trace: string, pos: nat) returns (segment: string, next: nat)
    requires pos < |trace|
    ensures pos < next <= |trace| && (segment, trace[next..]) == CutSegment(trace[pos..])
  {
    FindSuffix(trace, SEPARATOR, pos);
    var sep := Find(trace, SEPARATOR, pos);
    if sep.None? {
      segment := trace[pos..];
      next := |trace|;
      assert trace[next..] == [];
    } else {
      segment := trace[pos..sep.value];
      next := sep.value + 4;
      assert trace[pos..][..sep.value - pos] == segment;
      assert trace[pos..][sep.value - pos + 4..] == trace[next..];
    }
  }

  method ParseMessageSeries(trace: string) returns (messages: Option<seq<SipMessage>>)
    ensures messages == ParseSeries(trace)
  {
    hide Prepend, CutSegment;
    if |trace| == 0 {
      return None;
    }
    var found: seq<SipMessage> := [];
    var pos := 0;
    assert trace[0..] == trace;
    PrependNothing(Series(trace));
    while pos < |trace|
      invariant 0 <= pos <= |trace|
      invariant Prepend(found, Series(trace[pos..])) == Series(trace)
    {
      PrependNone(found);
      var segment, next := NextSegment(trace, pos);
      if |segment| == 0 {
        assert segment == [];
        return None;
      }
      var parsed := ParseOneMessage(segment);
      if parsed.None? {
        return None;
      }
      PrependStep(found, parsed.value, Series(trace[next..]));
      found := found + [parsed.value];
      pos := next;
    }
    assert trace[pos..] == [];
    PrependLast(found);
    messages := Some(found);
  }

  // ----- Serializing -----

  function Character(digit: nat): char
    requires digit < 10
  {
    ('0' as int + digit) as char
  }

  function ThreeDigits(code: nat): (s: string)
    ensures |s| == 3
  {
    [Character(code / 100 % 10), Character(code / 10 % 10), Character(code % 10)]
  }

  function StartLine(m: SipMessage): string {
    match m.kind
    case Response => VERSION + " " + ThreeDigits(m.statusCode)
    case Request => m.method_ + " " + m.requestUri + " " + VERSION
  }

  function HeaderLine(h: SipHeader): string {
    h.name + ": " + h.value
  }

  /** Lines joined by line breaks. */
  function HeaderLines(hs: seq<SipHeader>): string {
    if hs == [] then [] else CRLF + HeaderLine(hs[0]) + HeaderLines(hs[1..])
  }

  function Serialize(m: SipMessage): string {
    StartLine(m) + HeaderLines(m.headers)
  }

  function SerializeSeries(ms: seq<SipMessage>): string {
    if ms == [] then [] else Serialize(ms[0]) + SEPARATOR + SerializeSeries(ms[1..])
  }

  // ----- Well-formed messages -----

  /** Without line breaks. */
  predicate Plain(s: string) {
    forall c :: c in s ==> c != '\r' && c != '\n'
  }

  predicate WellFormedHeader(h: SipHeader) {
    h.name != [] && Plain(h.name) && BlankFree(h.name) && ':' !in h.name && Plain(h.value) && BlankFree(h.value)
  }

  /** A word of the request line. */
  predicate Word(s: string) {
    s != [] && Plain(s) && ' ' !in s
  }

  predicate WellFormedStart(m: SipMessage) {
    match m.kind
    case Response => 100 <= m.statusCode <= 699 && m.method_ == "" && m.requestUri == ""
    case Request => Word(m.method_) && Word(m.requestUri) && m.method_ != VERSION && m.statusCode == 0
  }

  predicate WellFormed(m: SipMessage) {
    WellFormedStart(m) && forall h :: h in m.headers ==> WellFormedHeader(h)
  }

  // ----- Lines -----

  lemma OccursBreak(s: string, i: nat)
    ensures Occurs(s, CRLF, i) ==> s[i] == '\r' && s[i + 1] == '\n'
  {
    if Occurs(s, CRLF, i) {
      assert s[i] == s[i..i + 2][0] && s[i + 1] == s[i..i + 2][1];
    }
  }

  lemma FirstBreak(line: string, more: string)
    requires Plain(line)
    ensures SplitLine(line) == (line, []) && SplitLine(line + CRLF + more) == (line, more)
  {
    var s := line + CRLF + more;
    assert Occurs(s, CRLF, |line|);
    forall i: nat | i < |line|
      ensures !Occurs(s, CRLF, i) && !Occurs(line, CRLF, i)
    {
      assert s[i] == line[i] && line[i] in line;
      OccursBreak(s, i);
      OccursBreak(line, i);
    }
    assert s[|line| + 2..] == more && s[..|line|] == line;
  }

  /** In a text whose line breaks are in order, lines are plain and the rest is in order too. */
  lemma SplitPlain(s: string)
    requires LineBreaksOk(s)
    ensures Plain(SplitLine(s).0) && LineBreaksOk(SplitLine(s).1)
  {
    var (line, rest) := SplitLine(s);
    forall j | 0 <= j < |line|
      ensures line[j] != '\r' && line[j] != '\n'
    {
      assert BreakOk(s, j);
      if s[j] == '\r' {
        assert s[j..j + 2] == CRLF;
        assert Occurs(s, CRLF, j);
      }
      if s[j] == '\n' {
        assert s[j - 1..j + 1] == CRLF;
        assert Occurs(s, CRLF, j - 1);
      }
    }
    if Find(s, CRLF, 0).Some? {
      var k := Find(s, CRLF, 0).value;
      assert s[k + 1] == s[k..k + 2][1];
      forall j | 0 <= j < |rest|
        ensures BreakOk(rest, j)
      {
        assert BreakOk(s, k + 2 + j);
      }
    }
  }

  /** Text that can stand between empty lines: in order, with no break at either end and no
      empty line inside. */
  ghost predicate Solid(s: string) {
    && s != [] && LineBreaksOk(s)
    && s[0] != '\r' && s[0] != '\n' && s[|s| - 1] != '\r' && s[|s| - 1] != '\n'
    && forall i :: 0 <= i && i + 3 < |s| ==> !Empty(s, i)
  }

  predicate Empty(s: string, i: nat)
    requires i + 3 < |s|
  {
    s[i] == '\r' && s[i + 1] == '\n' && s[i + 2] == '\r' && s[i + 3] == '\n'
  }

  lemma PlainIsSolid(s: string)
    requires Plain(s) && s != []
    ensures Solid(s)
  {
    assert forall i :: 0 <= i < |s| ==> s[i] in s;
  }

  lemma SolidLines(a: string, b: string)
    requires Solid(a) && Solid(b)
    ensures Solid(a + CRLF + b)
  {
    var s := a + CRLF + b;
    var n := |a|;
    assert s[n] == '\r' && s[n + 1] == '\n';
    forall i | 0 <= i < |s|
      ensures BreakOk(s, i)
    {
      if i < n {
        assert BreakOk(a, i);
      } else if i > n + 1 {
        assert BreakOk(b, i - n - 2);
      }
    }
    forall i | 0 <= i && i + 3 < |s|
      ensures !Empty(s, i)
    {
      if i + 3 < n {
        assert !Empty(a, i);
      } else if i < n {
        assert s[n - 1] == a[n - 1];
      } else if i > n + 1 {
        assert !Empty(b, i - n - 2);
      } else if i == n {
        assert s[n + 2] == b[0];
      }
    }
  }

  lemma OccursSeparator(s: string, i: nat)
    ensures Occurs(s, SEPARATOR, i) ==> i + 3 < |s| && Empty(s, i)
  {
    if Occurs(s, SEPARATOR, i) {
      var u := s[i..i + 4];
      assert u[0] == s[i] && u[1] == s[i + 1] && u[2] == s[i + 2] && u[3] == s[i + 3];
    }
  }

  lemma CutSolid(s: string, more: string)
    requires Solid(s)
    ensures CutSegment(s + SEPARATOR + more) == (s, more)
  {
    var t := s + SEPARATOR + more;
    var n := |s|;
    assert Occurs(t, SEPARATOR, n);
    forall i: nat | i < n
      ensures !Occurs(t, SEPARATOR, i)
    {
      OccursSeparator(t, i);
      if i + 3 < n {
        assert !Empty(s, i);
      } else {
        assert t[n - 1] == s[n - 1];
      }
    }
    assert t[n + 4..] == more && t[..n] == s;
  }

  // ----- One line each way -----

  lemma FirstOf(a: string, c: char, b: string)
    requires c !in a
    ensures Find(a + [c] + b, [c], 0) == Some(|a|)
  {
    var s := a + [c] + b;
    OccursChar(s, c);
    assert s[|a|] == c && forall i :: 0 <= i < |a| ==> s[i] == a[i];
  }

  lemma OccursChar(s: string, c: char)
    ensures forall i: nat :: Occurs(s, [c], i) <==> i < |s| && s[i] == c
  {
    forall i: nat | i < |s|
      ensures Occurs(s, [c], i) <==> s[i] == c
    {
      assert s[i..i + 1] == [s[i]];
    }
  }

  lemma NoneOf(s: string, c: char, from: nat)
    requires from <= |s| && c !in s[from..]
    ensures Find(s, [c], from) == None
  {
    OccursChar(s, c);
    assert forall i :: from <= i < |s| ==> s[i] == s[from..][i - from];
  }

  lemma BeforeFirst(s: string, c: char, from: nat)
    requires from <= |s|
    ensures var r := Find(s, [c], from);
      if r.Some? then s[r.value] == c && c !in s[from..r.value] else c !in s[from..]
  {
    OccursChar(s, c);
  }

  lemma HeaderRoundTrip(h: SipHeader)
    requires WellFormedHeader(h)
    ensures ParseHeader(HeaderLine(h)) == Some(h) && Plain(HeaderLine(h)) && HeaderLine(h) != []
  {
    var line := HeaderLine(h);
    assert line == h.name + [':'] + ([' '] + h.value);
    FirstOf(h.name, ':', [' '] + h.value);
    assert line[..|h.name|] == h.name;
    assert line[|h.name| + 1..] == [' '] + h.value;
    TrimmedSame(h.name);
    TrimmedSame(h.value);
    PlainJoin(h.name, ": ");
    PlainJoin(h.name + ": ", h.value);
  }

  lemma ParsedHeader(line: string)
    requires Plain(line) && ParseHeader(line).Some?
    ensures WellFormedHeader(ParseHeader(line).value)
  {
    BeforeFirst(line, ':', 0);
    var colon := Find(line, ":", 0).value;
    hide Find, Trimmed;
    assert ":" == [':'];
    TrimmedPart(line[..colon]);
    TrimmedPart(line[colon + 1..]);
    assert line[..colon] == line[0..colon];
    var h := ParseHeader(line).value;
    forall c | c in h.name || c in h.value
      ensures c != '\r' && c != '\n'
    {
      assert c in line[..colon] || c in line[colon + 1..];
      assert c in line;
    }
  }

  lemma RequestLineRoundTrip(m: SipMessage)
    requires m.kind == Request && WellFormedStart(m)
    ensures ParseStartLine(StartLine(m)) == Some(m.(headers := []))
  {
    var a, b, c := m.method_, m.requestUri, VERSION;
    var line := StartLine(m);
    assert line == a + [' '] + (b + [' '] + c);
    FirstOf(a, ' ', b + [' '] + c);
    SecondSpace(a, b, c);
    NotAStatusLine(a, b + [' '] + c);
  }

  lemma NotAStatusLine(a: string, rest: string)
    requires ' ' !in a && a != VERSION
    ensures !(VERSION + " " <= a + [' '] + rest)
  {
    var line, status := a + [' '] + rest, VERSION + " ";
    if |a| == 7 {
      assert line[..7] == a && status[..7] == VERSION;
    } else if |a| < 7 {
      assert line[|a|] == ' ';
    } else {
      assert line[7] == a[7] && status[7] == ' ';
    }
  }

  lemma FirstAt(s: string, c: char, from: nat, i: nat)
    requires from <= i < |s| && s[i] == c && c !in s[from..i]
    ensures Find(s, [c], from) == Some(i)
  {
    OccursChar(s, c);
    assert forall j :: from <= j < i ==> s[j] == s[from..i][j - from];
  }

  lemma SecondSpace(a: string, b: string, c: string)
    requires ' ' !in a && ' ' !in b && ' ' !in c && a != [] && b != [] && c != []
    ensures SplitSpace(a + " " + b + " " + c) == Some((a, b, c))
  {
    hide Find;
    var line := a + " " + b + " " + c;
    var i, j := |a|, |a| + 1 + |b|;
    assert line[i] == ' ' && line[j] == ' ';
    assert line[0..i] == a && line[..i] == a;
    assert line[i + 1..j] == b;
    assert line[j + 1..] == c;
    FirstAt(line, ' ', 0, i);
    FirstAt(line, ' ', i + 1, j);
    NoneOf(line, ' ', j + 1);
  }

  lemma ParsedRequestLine(line: string)
    requires Plain(line) && SplitSpace(line).Some?
    ensures var (a, b, c) := SplitSpace(line).value;
      Word(a) && Word(b) && line == a + " " + b + " " + c
  {
    BeforeFirst(line, ' ', 0);
    var first := Find(line, " ", 0).value;
    BeforeFirst(line, ' ', first + 1);
    var second := Find(line, " ", first + 1).value;
    assert line[..first] == line[0..first];
    var (a, b, c) := SplitSpace(line).value;
    assert line == a + [line[first]] + b + [line[second]] + c;
    assert forall x :: x in a || x in b ==> x in line;
  }

  lemma CodeOfDigits(code: nat)
    requires code < 1000
    ensures StatusCode(ThreeDigits(code)) == Some(code)
    ensures forall c :: c in ThreeDigits(code) ==> IsDigit(c)
  {
    assert 100 * (code / 100 % 10) + 10 * (code / 10 % 10) + code % 10 == code;
  }

  lemma StatusLineRoundTrip(m: SipMessage)
    requires m.kind == Response && WellFormedStart(m)
    ensures ParseStartLine(StartLine(m)) == Some(m.(headers := [])) && Plain(StartLine(m))
  {
    hide ThreeDigits, StatusCode;
    var line := StartLine(m);
    assert VERSION + " " <= line && line[8..] == ThreeDigits(m.statusCode);
    assert line[8..][..3] == ThreeDigits(m.statusCode);
    CodeOfDigits(m.statusCode);
    forall c | c in line
      ensures c != '\r' && c != '\n'
    {
      assert c in VERSION || c == ' ' || c in ThreeDigits(m.statusCode);
    }
  }

  lemma StartRoundTrip(m: SipMessage)
    requires WellFormedStart(m)
    ensures ParseStartLine(StartLine(m)) == Some(m.(headers := []))
    ensures Plain(StartLine(m)) && StartLine(m) != []
  {
    hide ParseStartLine;
    if m.kind == Request {
      RequestLineRoundTrip(m);
      PlainJoin(m.method_, " ");
      PlainJoin(m.method_ + " ", m.requestUri);
      PlainJoin(m.method_ + " " + m.requestUri, " ");
      PlainJoin(m.method_ + " " + m.requestUri + " ", VERSION);
    } else {
      StatusLineRoundTrip(m);
    }
  }

  lemma ParsedStart(line: string)
    requires Plain(line) && ParseStartLine(line).Some?
    ensures WellFormedStart(ParseStartLine(line).value) && ParseStartLine(line).value.headers == []
  {
    if !(VERSION + " " <= line) {
      ParsedRequestLine(line);
    }
  }

  // ----- Messages and series each way -----

  lemma Regroup(a: string, b: string, c: string, d: string)
    ensures a + (b + c + d) == a + b + (c + d)
  {
  }

  lemma PlainJoin(a: string, b: string)
    requires Plain(a) && Plain(b)
    ensures Plain(a + b)
  {
  }

  lemma HeaderLinesFrom(start: string, hs: seq<SipHeader>)
    ensures hs == [] ==> start + HeaderLines(hs) == start
    ensures hs != [] ==> start + HeaderLines(hs) == start + CRLF + (HeaderLine(hs[0]) + HeaderLines(hs[1..]))
  {
    if hs != [] {
      Regroup(start, CRLF, HeaderLine(hs[0]), HeaderLines(hs[1..]));
    }
  }

  lemma ParseHeadersFirst(s: string, line: string, rest: string, h: SipHeader, hs: seq<SipHeader>)
    requires s != [] && SplitLine(s) == (line, rest) && line != []
    requires ParseHeader(line) == Some(h) && ParseHeaders(rest) == Some(hs)
    ensures ParseHeaders(s) == Some([h] + hs)
  {
  }

  lemma {:induction false} HeadersRoundTrip(start: string, hs: seq<SipHeader>)
    requires Plain(start) && start != [] && forall h :: h in hs ==> WellFormedHeader(h)
    ensures Solid(start + HeaderLines(hs))
    ensures SplitLine(start + HeaderLines(hs)).0 == start
    ensures ParseHeaders(SplitLine(start + HeaderLines(hs)).1) == Some(hs)
    decreases |hs|
  {
    hide Solid, SplitLine, ParseHeaders, Plain, HeaderLine, HeaderLines, WellFormedHeader;
    PlainIsSolid(start);
    HeaderLinesFrom(start, hs);
    if hs == [] {
      FirstBreak(start, []);
      NoHeaders();
    } else {
      var line := HeaderLine(hs[0]);
      var below := line + HeaderLines(hs[1..]);
      HeaderRoundTrip(hs[0]);
      HeadersRoundTrip(line, hs[1..]);
      FirstBreak(start, below);
      SolidLines(start, below);
      ParseHeadersFirst(below, line, SplitLine(below).1, hs[0], hs[1..]);
      assert [hs[0]] + hs[1..] == hs;
    }
  }

  lemma NoHeaders()
    ensures ParseHeaders([]) == Some([])
  {
  }

  lemma MessageRoundTrip(m: SipMessage)
    requires WellFormed(m)
    ensures ParseOne(Serialize(m)) == Some(m) && Solid(Serialize(m))
  {
    StartRoundTrip(m);
    HeadersRoundTrip(StartLine(m), m.headers);
  }

  lemma {:induction false} ParsedHeaders(s: string)
    requires LineBreaksOk(s) && ParseHeaders(s).Some?
    ensures forall h :: h in ParseHeaders(s).value ==> WellFormedHeader(h)
    decreases |s|
  {
    if s != [] && SplitLine(s).0 != [] {
      SplitPlain(s);
      ParsedHeader(SplitLine(s).0);
      ParsedHeaders(SplitLine(s).1);
    }
  }

  lemma ParsedMessage(segment: string)
    requires ParseOne(segment).Some?
    ensures WellFormed(ParseOne(segment).value)
  {
    SplitPlain(segment);
    ParsedStart(SplitLine(segment).0);
    ParsedHeaders(SplitLine(segment).1);
  }

  /** Every accepted trace is a non-empty series of well-formed messages. */
  lemma {:induction false} AcceptedIsWellFormed(trace: string)
    ensures Series(trace).Some? ==> forall m :: m in Series(trace).value ==> WellFormed(m)
    decreases |trace|
  {
    if trace != [] && Series(trace).Some? {
      ParsedMessage(CutSegment(trace).0);
      AcceptedIsWellFormed(CutSegment(trace).1);
    }
  }

  lemma {:induction false} SeriesRoundTrip(ms: seq<SipMessage>)
    requires forall m :: m in ms ==> WellFormed(m)
    ensures Series(SerializeSeries(ms)) == Some(ms)
    decreases |ms|
  {
    hide Solid, CutSegment, WellFormed, Serialize, ParseOne;
    if ms != [] {
      MessageRoundTrip(ms[0]);
      SeriesRoundTrip(ms[1..]);
      CutSolid(Serialize(ms[0]), SerializeSeries(ms[1..]));
      assert [ms[0]] + ms[1..] == ms;
    }
  }

  /** Exactly the non-empty series of well-formed messages survive being serialized and parsed.
      A request whose method is the version string is not well-formed. */
  lemma RoundTripExactly(ms: seq<SipMessage>)
    ensures ParseSeries(SerializeSeries(ms)) == Some(ms) <==> ms != [] && forall m :: m in ms ==> WellFormed(m)
  {
    if ParseSeries(SerializeSeries(ms)) == Some(ms) {
      AcceptedIsWellFormed(SerializeSeries(ms));
    } else if ms != [] && forall m :: m in ms ==> WellFormed(m) {
      SeriesRoundTrip(ms);
    }
  }

  /** Parsing, serializing and parsing again gives what parsing gave: nothing kept is lost. */
  lemma ParseTwice(trace: string)
    requires ParseSeries(trace).Some?
    ensures ParseSeries(SerializeSeries(ParseSeries(trace).value)) == ParseSeries(trace)
  {
    AcceptedIsWellFormed(trace);
    RoundTripExactly(ParseSeries(trace).value);
  }
}
