/** What the SIP parser accepts, told by how traces are written: blanks around header names and
    values, reason phrases, and the last message ended by an empty line, a line break or nothing. */
module SipGrammar {
  import opened Collections
  import opened SipMessage

  /** A header line: the name and the value, each between blanks. */
  datatype WrittenHeader = WrittenHeader(before: string, name: string, after: string, lead: string, value: string, trail: string)

  datatype WrittenStart = RequestLine(method_: string, uri: string) | StatusLine(digits: string, reason: Option<string>)

  datatype Writing = Writing(start: WrittenStart, headers: seq<WrittenHeader>)

  datatype End = EmptyLine | LineBreak | Nothing

  predicate Blanks(s: string) {
    forall i :: 0 <= i < |s| ==> s[i] == ' ' || s[i] == '\t'
  }

  predicate ProperHeader(h: WrittenHeader) {
    && h.name != [] && Plain(h.name) && BlankFree(h.name) && ':' !in h.name
    && Plain(h.value) && BlankFree(h.value)
    && Blanks(h.before) && Blanks(h.after) && Blanks(h.lead) && Blanks(h.trail)
  }

  predicate ProperStart(start: WrittenStart) {
    match start
    case RequestLine(method_, uri) => Word(method_) && Word(uri) && method_ != VERSION
    case StatusLine(digits, reason) =>
      && |digits| == 3 && (forall i :: 0 <= i < 3 ==> '0' <= digits[i] <= '9') && '1' <= digits[0] <= '6'
      && (reason.Some? ==> Plain(reason.value))
  }

  predicate Proper(w: Writing) {
    ProperStart(w.start) && forall i :: 0 <= i < |w.headers| ==> ProperHeader(w.headers[i])
  }

  // ----- The text -----

  function HeaderText(h: WrittenHeader): string {
    h.before + h.name + h.after + ":" + (h.lead + h.value + h.trail)
  }

  function HeadersText(headers: seq<WrittenHeader>): string {
    if headers == [] then "" else CRLF + (HeaderText(headers[0]) + HeadersText(headers[1..]))
  }

  function StartText(start: WrittenStart): string {
    match start
    case RequestLine(method_, uri) => method_ + " " + uri + " SIP/2.0"
    case StatusLine(digits, reason) => "SIP/2.0 " + digits + if reason.Some? then " " + reason.value else ""
  }

  function MessageText(w: Writing): string {
    StartText(w.start) + HeadersText(w.headers)
  }

  function EndText(end: End): string {
    match end
    case EmptyLine => "\r\n\r\n"
    case LineBreak => "\r\n"
    case Nothing => ""
  }

  /** An empty line after every message but the last. */
  function TraceText(ws: seq<Writing>, end: End): string
    requires ws != []
  {
    if |ws| == 1 then MessageText(ws[0]) + EndText(end) else MessageText(ws[0]) + SEPARATOR + TraceText(ws[1..], end)
  }

  // ----- What it means -----

  function ValueOf(c: char): int {
    c as int - '0' as int
  }

  function Meaning(w: Writing): SipMessage
    requires Proper(w)
  {
    var headers := HeadersOf(w.headers);
    match w.start
    case RequestLine(method_, uri) => SipMessage(Request, method_, uri, 0, headers)
    case StatusLine(d, _) => SipMessage(Response, "", "", 100 * ValueOf(d[0]) + 10 * ValueOf(d[1]) + ValueOf(d[2]), headers)
  }

  function HeadersOf(headers: seq<WrittenHeader>): seq<SipHeader> {
    if headers == [] then [] else [SipHeader(headers[0].name, headers[0].value)] + HeadersOf(headers[1..])
  }

  function Meanings(ws: seq<Writing>): seq<SipMessage>
    requires forall i :: 0 <= i < |ws| ==> Proper(ws[i])
  {
    if ws == [] then [] else [Meaning(ws[0])] + Meanings(ws[1..])
  }

  // ----- Trimming -----

  lemma {:induction false} TrimFrontOver(b: string, t: string)
    requires Blanks(b) && (t == [] || !(t[0] == ' ' || t[0] == '\t'))
    ensures TrimFront(b + t) == t
    decreases |b|
  {
    if b == [] {
      assert b + t == t;
    } else {
      assert (b + t)[1..] == b[1..] + t;
      TrimFrontOver(b[1..], t);
    }
  }

  lemma {:induction false} TrimBackOver(t: string, b: string)
    requires Blanks(b) && (t == [] || !(t[|t| - 1] == ' ' || t[|t| - 1] == '\t'))
    ensures TrimBack(t + b) == t
    decreases |b|
  {
    if b == [] {
      assert t + b == t;
    } else {
      assert (t + b)[..|t + b| - 1] == t + b[..|b| - 1];
      TrimBackOver(t, b[..|b| - 1]);
    }
  }

  /** Trimming takes off just the blanks at the ends. */
  lemma TrimmedExactly(b: string, s: string, c: string)
    requires Blanks(b) && Blanks(c) && BlankFree(s)
    ensures Trimmed(b + s + c) == s
  {
    if s == [] {
      assert b + s + c == (b + c) + [];
      TrimFrontOver(b + c, []);
    } else {
      assert b + s + c == b + (s + c);
      TrimFrontOver(b, s + c);
      TrimBackOver(s, c);
    }
  }

  lemma {:induction false} FrontBlanks(s: string) returns (b: string)
    ensures Blanks(b) && s == b + TrimFront(s)
    decreases |s|
  {
    if s != [] && IsBlank(s[0]) {
      var rest := FrontBlanks(s[1..]);
      b := [s[0]] + rest;
      assert s == [s[0]] + s[1..];
    } else {
      b := "";
    }
  }

  lemma {:induction false} BackBlanks(s: string) returns (b: string)
    ensures Blanks(b) && s == TrimBack(s) + b
    decreases |s|
  {
    if s != [] && IsBlank(s[|s| - 1]) {
      var init := s[..|s| - 1];
      var rest := BackBlanks(init);
      b := rest + [s[|s| - 1]];
      assert s == init + [s[|s| - 1]];
    } else {
      b := "";
    }
  }

  lemma TrimmedBetween(s: string) returns (b: string, c: string)
    ensures Blanks(b) && Blanks(c) && s == b + Trimmed(s) + c && BlankFree(Trimmed(s))
  {
    b := FrontBlanks(s);
    c := BackBlanks(TrimFront(s));
    TrimmedPart(s);
    assert s == b + (Trimmed(s) + c);
  }

  lemma PlainParts(a: string, b: string)
    ensures Plain(a + b) <==> Plain(a) && Plain(b)
  {
    assert forall c :: c in a + b <==> c in a || c in b;
  }

  lemma BlanksPlain(s: string)
    requires Blanks(s)
    ensures Plain(s) && ':' !in s
  {
  }

  // ----- Lines -----

  lemma HeaderAccepted(h: WrittenHeader)
    requires ProperHeader(h)
    ensures ParseHeader(HeaderText(h)) == Some(SipHeader(h.name, h.value))
    ensures Plain(HeaderText(h)) && HeaderText(h) != []
  {
    var a, b := h.before + h.name + h.after, h.lead + h.value + h.trail;
    var line := HeaderText(h);
    assert line == a + [':'] + b;
    BlanksPlain(h.before);
    BlanksPlain(h.after);
    BlanksPlain(h.lead);
    BlanksPlain(h.trail);
    PlainParts(a + ":", b);
    PlainParts(a, ":");
    PlainParts(h.before + h.name, h.after);
    PlainParts(h.before, h.name);
    PlainParts(h.lead + h.value, h.trail);
    PlainParts(h.lead, h.value);
    hide Plain, Find, Trimmed;
    FirstOf(a, ':', b);
    assert line[..|a|] == a && line[|a| + 1..] == b;
    TrimmedExactly(h.before, h.name, h.after);
    TrimmedExactly(h.lead, h.value, h.trail);
  }

  lemma ColonSplits(line: string) returns (a: string, b: string)
    requires Plain(line) && ParseHeader(line).Some?
    ensures line == a + ":" + b && ParseHeader(line).value == SipHeader(Trimmed(a), Trimmed(b))
    ensures WellFormedHeader(ParseHeader(line).value)
  {
    ParsedHeader(line);
    hide Find, Trimmed, WellFormedHeader, Plain;
    BeforeFirst(line, ':', 0);
    var colon := Find(line, ":", 0).value;
    assert ":" == [':'];
    a, b := line[..colon], line[colon + 1..];
    assert line == a + [line[colon]] + b;
  }

  lemma HeaderWritten(line: string) returns (h: WrittenHeader)
    requires Plain(line) && ParseHeader(line).Some?
    ensures ProperHeader(h) && HeaderText(h) == line && ParseHeader(line).value == SipHeader(h.name, h.value)
  {
    hide ParseHeader, Trimmed, Plain, Blanks, BlankFree;
    var a, b := ColonSplits(line);
    var before, after := TrimmedBetween(a);
    var lead, trail := TrimmedBetween(b);
    h := WrittenHeader(before, Trimmed(a), after, lead, Trimmed(b), trail);
  }

  lemma RequestLineAccepted(a: string, b: string)
    requires Word(a) && Word(b) && a != VERSION
    ensures var line := a + " " + b + " SIP/2.0"; ParseStartLine(line) == Some(SipMessage(Request, a, b, 0, [])) && Plain(line) && line != []
  {
    hide Plain, Find;
    var line := a + " " + b + " SIP/2.0";
    PlainParts(a + " " + b, " SIP/2.0");
    PlainParts(a + " ", b);
    PlainParts(a, " ");
    BlanksPlain(" ");
    WordPlain(" SIP/2.0");
    assert line == a + " " + b + " " + VERSION == a + [' '] + (b + [' '] + VERSION);
    SecondSpace(a, b, VERSION);
    NotAStatusLine(a, b + [' '] + VERSION);
  }

  lemma WordPlain(s: string)
    requires s == " SIP/2.0" || s == "SIP/2.0 "
    ensures Plain(s)
  {
    forall c | c in s
      ensures c != '\r' && c != '\n'
    {
      var i :| 0 <= i < 8 && s[i] == c;
      assert i == 0 || i == 1 || i == 2 || i == 3 || i == 4 || i == 5 || i == 6 || i == 7;
    }
  }

  lemma StatusLineAccepted(digits: string, phrase: string)
    requires |digits| == 3 && (forall i :: 0 <= i < 3 ==> '0' <= digits[i] <= '9') && '1' <= digits[0] <= '6'
    requires Plain(phrase) && (phrase != [] ==> phrase[0] == ' ')
    ensures var line := "SIP/2.0 " + digits + phrase;
      && ParseStartLine(line) ==
           Some(SipMessage(Response, "", "", 100 * ValueOf(digits[0]) + 10 * ValueOf(digits[1]) + ValueOf(digits[2]), []))
      && Plain(line) && line != []
  {
    var line, after := "SIP/2.0 " + digits + phrase, digits + phrase;
    PlainParts("SIP/2.0 " + digits, phrase);
    PlainParts("SIP/2.0 ", digits);
    WordPlain("SIP/2.0 ");
    hide Plain;
    assert line == VERSION + " " + after;
    assert VERSION + " " <= line && line[8..] == after;
    assert after[..3] == digits && (|after| > 3 ==> after[3] == phrase[0]);
  }

  lemma StartAccepted(start: WrittenStart)
    requires ProperStart(start)
    ensures ParseStartLine(StartText(start)) == Some(Meaning(Writing(start, [])))
    ensures Plain(StartText(start)) && StartText(start) != []
  {
    hide ParseStartLine, Word;
    match start
    case RequestLine(a, b) => RequestLineAccepted(a, b);
    case StatusLine(digits, reason) =>
      var phrase := if reason.Some? then " " + reason.value else "";
      if reason.Some? {
        PlainParts(" ", reason.value);
      }
      hide Plain;
      StatusLineAccepted(digits, phrase);
  }

  lemma StatusLineWritten(line: string) returns (start: WrittenStart)
    requires Plain(line) && VERSION + " " <= line && ParseStartLine(line).Some?
    ensures ProperStart(start) && StartText(start) == line && ParseStartLine(line).value == Meaning(Writing(start, []))
  {
    hide Plain;
    var after := line[8..];
    assert line == "SIP/2.0 " + after;
    PlainParts("SIP/2.0 ", after);
    start := StatusLine(after[..3], None);
    if |after| > 3 {
      assert after == after[..3] + " " + after[4..];
      PlainParts(after[..3] + " ", after[4..]);
      start := StatusLine(after[..3], Some(after[4..]));
    } else {
      assert after == after[..3];
    }
  }

  lemma StartWritten(line: string) returns (start: WrittenStart)
    requires Plain(line) && ParseStartLine(line).Some?
    ensures ProperStart(start) && StartText(start) == line && ParseStartLine(line).value == Meaning(Writing(start, []))
  {
    hide Plain, Word, SplitSpace;
    if VERSION + " " <= line {
      start := StatusLineWritten(line);
    } else {
      ParsedRequestLine(line);
      var (a, b, _) := SplitSpace(line).value;
      start := RequestLine(a, b);
      assert a + " " <= line;
    }
  }

  // ----- One message -----

  lemma BreakAdded(s: string)
    requires Solid(s)
    ensures LineBreaksOk(s + CRLF) && CutSegment(s + CRLF) == (s + CRLF, []) && CutSegment(s) == (s, [])
  {
    var t := s + CRLF;
    forall i | 0 <= i < |t|
      ensures BreakOk(t, i)
    {
      assert i < |s| ==> BreakOk(s, i);
    }
    forall i: nat
      ensures !Occurs(t, SEPARATOR, i) && !Occurs(s, SEPARATOR, i)
    {
      OccursSeparator(t, i);
      OccursSeparator(s, i);
      assert i + 3 < |s| ==> !Empty(s, i);
      assert t[|s| - 1] == s[|s| - 1];
    }
  }

  /** Lines below a line, and perhaps a line break at the end. */
  lemma {:induction false} HeadersAccepted(start: string, headers: seq<WrittenHeader>, broken: bool)
    requires Plain(start) && start != [] && forall i :: 0 <= i < |headers| ==> ProperHeader(headers[i])
    ensures Solid(start + HeadersText(headers))
    ensures var s := start + HeadersText(headers) + (if broken then CRLF else "");
      SplitLine(s).0 == start && ParseHeaders(SplitLine(s).1) == Some(HeadersOf(headers))
    decreases |headers|
  {
    hide Solid, SplitLine, ParseHeaders, Plain, HeaderText, ProperHeader;
    var tail := if broken then CRLF else "";
    PlainIsSolid(start);
    NoHeaders();
    if headers == [] {
      FirstBreak(start, "");
      assert start + HeadersText(headers) == start && start + HeadersText(headers) + CRLF == start + CRLF + "";
    } else {
      var line := HeaderText(headers[0]);
      var below := line + HeadersText(headers[1..]);
      HeaderAccepted(headers[0]);
      HeadersAccepted(line, headers[1..], broken);
      assert start + HeadersText(headers) == start + CRLF + below;
      assert start + HeadersText(headers) + tail == start + CRLF + (below + tail);
      FirstBreak(start, below + tail);
      SolidLines(start, below);
      ParseHeadersFirst(below + tail, line, SplitLine(below + tail).1, SipHeader(headers[0].name, headers[0].value), HeadersOf(headers[1..]));
    }
  }

  lemma MessageAccepted(w: Writing)
    requires Proper(w)
    ensures Solid(MessageText(w)) && ParseOne(MessageText(w)) == Some(Meaning(w)) && ParseOne(MessageText(w) + CRLF) == Some(Meaning(w))
  {
    hide Solid, ParseStartLine, StartText, ProperStart, HeadersText, ProperHeader, SplitLine, ParseHeaders, LineBreaksOk, Plain;
    StartAccepted(w.start);
    HeadersAccepted(StartText(w.start), w.headers, false);
    HeadersAccepted(StartText(w.start), w.headers, true);
    assert MessageText(w) + "" == MessageText(w);
    BreakAdded(MessageText(w));
    SolidHasBreaks(MessageText(w));
  }

  lemma SolidHasBreaks(s: string)
    requires Solid(s)
    ensures s != [] && LineBreaksOk(s)
  {
  }

  ghost predicate NoEmptyLine(s: string) {
    forall i :: 0 <= i && i + 3 < |s| ==> !Empty(s, i)
  }

  lemma NoneBelow(a: string, b: string)
    requires NoEmptyLine(a + b)
    ensures NoEmptyLine(b)
  {
    forall i | 0 <= i && i + 3 < |b|
      ensures !Empty(b, i)
    {
      assert !Empty(a + b, |a| + i);
    }
  }

  lemma SplitWhole(s: string)
    ensures var (line, rest) := SplitLine(s); if Find(s, CRLF, 0).Some? then s == line + CRLF + rest else s == line && rest == []
  {
    var found := Find(s, CRLF, 0);
    if found.Some? {
      assert s == s[..found.value] + s[found.value..found.value + 2] + s[found.value + 2..];
    }
  }

  lemma FirstNotEmpty(s: string)
    requires s != [] && NoEmptyLine(CRLF + s)
    ensures SplitLine(s).0 != []
  {
    OccursBreak(s, 0);
    assert |s| >= 2 ==> !Empty(CRLF + s, 0);
  }

  /** The lines after a line break, if none of them is empty. */
  lemma {:induction false} HeadersWritten(s: string) returns (headers: seq<WrittenHeader>, broken: bool)
    requires LineBreaksOk(s) && ParseHeaders(s).Some? && NoEmptyLine(CRLF + s)
    ensures forall i :: 0 <= i < |headers| ==> ProperHeader(headers[i])
    ensures CRLF + s == HeadersText(headers) + (if broken then CRLF else "") && ParseHeaders(s).value == HeadersOf(headers)
    decreases |s|
  {
    hide LineBreaksOk, Plain, ProperHeader, HeaderText, ParseHeader, SplitLine, NoEmptyLine, Find;
    if s == [] {
      headers, broken := [], true;
      return;
    }
    SplitPlain(s);
    SplitWhole(s);
    var (line, rest) := SplitLine(s);
    FirstNotEmpty(s);
    var h := HeaderWritten(line);
    if Find(s, CRLF, 0).None? {
      headers, broken := [h], false;
      assert [h][1..] == [] && HeadersText([]) == "" && HeadersOf([]) == [];
      assert CRLF + s == HeadersText(headers) + "";
    } else {
      assert CRLF + s == CRLF + line + (CRLF + rest);
      NoneBelow(CRLF + line, CRLF + rest);
      var more;
      more, broken := HeadersWritten(rest);
      headers := [h] + more;
      assert headers[1..] == more;
      var tail := if broken then CRLF else "";
      assert CRLF + line + (HeadersText(more) + tail) == CRLF + (line + HeadersText(more)) + tail;
    }
  }

  lemma NoHeaderText()
    ensures HeadersText([]) == "" && HeadersOf([]) == [] && ParseHeaders([]) == Some([])
  {
  }

  lemma MessageWritten(segment: string) returns (w: Writing, broken: bool)
    requires ParseOne(segment).Some? && NoEmptyLine(segment)
    ensures Proper(w) && segment == MessageText(w) + (if broken then CRLF else "") && Meaning(w) == ParseOne(segment).value
  {
    hide LineBreaksOk, Plain, ProperHeader, ProperStart, HeadersText, HeadersOf, ParseStartLine, ParseHeaders, StartText, SplitLine, NoEmptyLine;
    SplitPlain(segment);
    SplitWhole(segment);
    var (line, rest) := SplitLine(segment);
    NoHeaderText();
    var start := StartWritten(line);
    if Find(segment, CRLF, 0).None? {
      w, broken := Writing(start, []), false;
      assert line + "" == line && line + "" + "" == line;
    } else {
      assert segment == line + (CRLF + rest);
      NoneBelow(line, CRLF + rest);
      var headers;
      headers, broken := HeadersWritten(rest);
      w := Writing(start, headers);
      var tail := if broken then CRLF else "";
      assert line + (HeadersText(headers) + tail) == line + HeadersText(headers) + tail;
    }
  }

  // ----- A whole trace -----

  lemma {:induction false} SeriesAccepted(ws: seq<Writing>, end: End)
    requires ws != [] && forall i :: 0 <= i < |ws| ==> Proper(ws[i])
    ensures TraceText(ws, end) != [] && Series(TraceText(ws, end)) == Some(Meanings(ws))
    decreases |ws|
  {
    hide Solid, CutSegment, ParseOne, MessageText, Proper, Meaning;
    var text := MessageText(ws[0]);
    MessageAccepted(ws[0]);
    BreakAdded(text);
    SolidHasBreaks(text);
    assert Meanings([]) == [] && Series([]) == Some([]);
    if |ws| > 1 {
      SeriesAccepted(ws[1..], end);
      CutSolid(text, TraceText(ws[1..], end));
    } else {
      assert ws[1..] == [];
      CutSolid(text, "");
      assert text + SEPARATOR + "" == text + SEPARATOR && text + "" == text;
      OneMessage(text, Meaning(ws[0]));
    }
  }

  lemma OneMessage(text: string, m: SipMessage)
    requires text != []
    ensures CutSegment(text + SEPARATOR) == (text, []) && ParseOne(text) == Some(m) ==> Series(text + SEPARATOR) == Some([m])
    ensures CutSegment(text + CRLF) == (text + CRLF, []) && ParseOne(text + CRLF) == Some(m) ==> Series(text + CRLF) == Some([m])
    ensures CutSegment(text) == (text, []) && ParseOne(text) == Some(m) ==> Series(text) == Some([m])
  {
    hide CutSegment, ParseOne;
    assert Series([]) == Some([]) && [m] + [] == [m];
  }

  lemma EmptyOccurs(s: string, i: nat)
    requires i + 3 < |s|
    ensures Empty(s, i) ==> Occurs(s, SEPARATOR, i)
  {
    if Empty(s, i) {
      assert s[i..i + 4] == SEPARATOR;
    }
  }

  predicate EndsBroken(s: string) {
    |s| >= 2 && s[|s| - 2] == '\r' && s[|s| - 1] == '\n'
  }

  lemma CutWhole(s: string)
    ensures var (segment, rest) := CutSegment(s);
      && NoEmptyLine(segment)
      && if Find(s, SEPARATOR, 0).Some? then s == segment + SEPARATOR + rest && !EndsBroken(segment) else s == segment && rest == []
  {
    var found := Find(s, SEPARATOR, 0);
    var (segment, rest) := CutSegment(s);
    forall i | 0 <= i && i + 3 < |segment|
      ensures !Empty(segment, i)
    {
      EmptyOccurs(s, i);
    }
    if found.Some? {
      var n := found.value;
      OccursSeparator(s, n);
      assert s == s[..n] + s[n..n + 4] + s[n + 4..];
      if n >= 2 {
        EmptyOccurs(s, n - 2);
      }
    }
  }

  lemma TraceParts(w: Writing, more: seq<Writing>, end: End)
    ensures TraceText([w], end) == MessageText(w) + EndText(end)
    ensures more != [] ==> TraceText([w] + more, end) == MessageText(w) + SEPARATOR + TraceText(more, end)
  {
    assert ([w] + more)[1..] == more;
  }

  lemma MeaningParts(w: Writing, more: seq<Writing>)
    requires Proper(w) && forall i :: 0 <= i < |more| ==> Proper(more[i])
    ensures Meanings([w] + more) == [Meaning(w)] + Meanings(more)
  {
    assert ([w] + more)[1..] == more;
  }

  lemma SeriesParts(s: string)
    requires s != [] && Series(s).Some?
    ensures var (segment, rest) := CutSegment(s);
      ParseOne(segment).Some? && Series(rest).Some? && Series(s).value == [ParseOne(segment).value] + Series(rest).value
  {
  }

  lemma {:induction false} SeriesWritten(s: string) returns (ws: seq<Writing>, end: End)
    requires s != [] && Series(s).Some?
    ensures ws != [] && (forall i :: 0 <= i < |ws| ==> Proper(ws[i])) && TraceText(ws, end) == s && Meanings(ws) == Series(s).value
    decreases |s|
  {
    hide NoEmptyLine, ParseOne, MessageText, Proper, Meaning, Meanings, TraceText, CutSegment;
    CutWhole(s);
    SeriesParts(s);
    var (segment, rest) := CutSegment(s);
    hide Series;
    var w, broken := MessageWritten(segment);
    assert broken ==> EndsBroken(segment);
    if rest == [] {
      end := if Find(s, SEPARATOR, 0).Some? then EmptyLine else if broken then LineBreak else Nothing;
      ws := [w];
      TraceParts(w, [], end);
      MeaningParts(w, []);
      NothingMeant();
      assert [w] + [] == [w] && [Meaning(w)] + [] == [Meaning(w)];
    } else {
      var more;
      more, end := SeriesWritten(rest);
      ws := [w] + more;
      TraceParts(w, more, end);
      MeaningParts(w, more);
    }
  }

  lemma NothingMeant()
    ensures Meanings([]) == [] && Series([]) == Some([])
  {
  }

  /** Exactly the proper writings are accepted: a trace is parsed to some messages if and only if it
      is the text of writings that mean them. */
  lemma AcceptedExactly(trace: string, ms: seq<SipMessage>)
    ensures ParseSeries(trace) == Some(ms) <==>
      exists ws, end :: ws != [] && (forall i :: 0 <= i < |ws| ==> Proper(ws[i])) && TraceText(ws, end) == trace && Meanings(ws) == ms
  {
    hide Series, TraceText, Meanings, Proper;
    if ParseSeries(trace) == Some(ms) {
      var ws, end := SeriesWritten(trace);
    }
    forall ws, end | ws != [] && (forall i :: 0 <= i < |ws| ==> Proper(ws[i])) && TraceText(ws, end) == trace && Meanings(ws) == ms
      ensures ParseSeries(trace) == Some(ms)
    {
      SeriesAccepted(ws, end);
    }
  }
}
