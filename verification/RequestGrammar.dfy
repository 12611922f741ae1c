/** What the HTTP request parser accepts, told by how requests are written: version numbers in any
    digits, and header values folded over any number of lines. */
module RequestGrammar {
  import opened Collections
  import opened RequestParser

  /** A continuation line of a header: blanks, and text that goes on with the value. */
  datatype Fold = Fold(blanks: string, text: string)

  datatype WrittenHeader = WrittenHeader(name: string, first: string, folds: seq<Fold>)

  datatype Writing = Writing(method_: string, uri: string, major: string, minor: string, headers: seq<WrittenHeader>)

  predicate IsBlank(c: char) {
    c == ' ' || c == '\t'
  }

  predicate BlankString(s: string) {
    forall i :: 0 <= i < |s| ==> IsBlank(s[i])
  }

  predicate DigitString(s: string) {
    forall i :: 0 <= i < |s| ==> IsDigit(s[i])
  }

  predicate ProperFold(f: Fold) {
    f.blanks != [] && BlankString(f.blanks) && ValueString(f.text) && (f.text != [] ==> !IsBlank(f.text[0]))
  }

  predicate ProperHeader(h: WrittenHeader) {
    h.name != [] && TokenString(h.name) && ValueString(h.first) && forall i :: 0 <= i < |h.folds| ==> ProperFold(h.folds[i])
  }

  predicate ProperLine(w: Writing) {
    && w.method_ != [] && TokenString(w.method_) && UriString(w.uri)
    && w.major != [] && DigitString(w.major) && Eval(0, w.major) <= MAX_VERSION
    && w.minor != [] && DigitString(w.minor) && Eval(0, w.minor) <= MAX_VERSION
  }

  predicate ProperHeaders(headers: seq<WrittenHeader>) {
    forall i :: 0 <= i < |headers| ==> ProperHeader(headers[i])
  }

  predicate Proper(w: Writing) {
    ProperLine(w) && ProperHeaders(w.headers)
  }

  /** The characters of tokens and of values, listed. */
  lemma ClassesMean(c: char)
    ensures IsToken(c) <==> 'a' <= c <= 'z' || 'A' <= c <= 'Z' || '0' <= c <= '9' || c in "!#$%&'*+-.^_`|~"
    ensures !IsCtl(c) <==> c >= ' ' && c as int != 127
    ensures IsDigit(c) <==> '0' <= c <= '9'
  {
    if c as int <= 127 {
      TokenListed(c);
    }
  }

  lemma TokenListed(c: char)
    requires c as int <= 127
    ensures IsToken(c) <==> 'a' <= c <= 'z' || 'A' <= c <= 'Z' || '0' <= c <= '9' || c in "!#$%&'*+-.^_`|~"
  {
    hide IsTspecial;
    SpecialListed(c);
    OthersListed(c);
  }

  lemma SpecialListed(c: char)
    ensures IsTspecial(c) <==>
      || c == '(' || c == ')' || c == '<' || c == '>' || c == '@' || c == ',' || c == ';' || c == ':' || c == '\\' || c == '"'
      || c == '/' || c == '[' || c == ']' || c == '?' || c == '=' || c == '{' || c == '}' || c == ' ' || c == '\t'
  {
    var s := "()<>@,;:\\\"/[]?={} \t";
    assert c in s <==> exists i :: 0 <= i < |s| && s[i] == c;
  }

  lemma OthersListed(c: char)
    ensures c in "!#$%&'*+-.^_`|~" <==>
      || c == '!' || c == '#' || c == '$' || c == '%' || c == '&' || c == '\'' || c == '*' || c == '+'
      || c == '-' || c == '.' || c == '^' || c == '_' || c == '`' || c == '|' || c == '~'
  {
    var s := "!#$%&'*+-.^_`|~";
    assert c in s <==> exists i :: 0 <= i < |s| && s[i] == c;
  }

  // ----- The text -----

  function FoldsText(folds: seq<Fold>): string {
    if folds == [] then ""
    else FoldsText(folds[..|folds| - 1]) + "\r\n" + folds[|folds| - 1].blanks + folds[|folds| - 1].text
  }

  function HeaderText(h: WrittenHeader): string {
    h.name + ": " + h.first + FoldsText(h.folds)
  }

  function HeadersText(headers: seq<WrittenHeader>): string {
    if headers == [] then ""
    else HeadersText(headers[..|headers| - 1]) + HeaderText(headers[|headers| - 1]) + "\r\n"
  }

  function HeadText(w: Writing): string {
    w.method_ + " " + w.uri + " HTTP/"
  }

  function LineText(w: Writing): string {
    HeadText(w) + w.major + "." + w.minor
  }

  /** Everything up to the last header but the empty line. */
  function OpenText(w: Writing): string {
    LineText(w) + "\r\n" + HeadersText(w.headers)
  }

  function Text(w: Writing): string {
    OpenText(w) + "\r\n"
  }

  // ----- What it means -----

  function FoldsValue(folds: seq<Fold>): string {
    if folds == [] then "" else FoldsValue(folds[..|folds| - 1]) + folds[|folds| - 1].text
  }

  function HeaderOf(h: WrittenHeader): Header {
    Header(h.name, h.first + FoldsValue(h.folds))
  }

  function HeadersOf(headers: seq<WrittenHeader>): seq<Header> {
    if headers == [] then [] else HeadersOf(headers[..|headers| - 1]) + [HeaderOf(headers[|headers| - 1])]
  }

  function Meaning(w: Writing): RequestData
    requires DigitString(w.major) && DigitString(w.minor)
  {
    RequestData(w.method_, w.uri, Eval(0, w.major), Eval(0, w.minor), HeadersOf(w.headers))
  }

  // ----- Every proper writing is accepted, with its meaning -----

  lemma {:induction false} LeadsBlanks(r: RequestData, s: string)
    requires r.headers != [] && BlankString(s)
    ensures Leads(Config(HeaderLws, r), s, Config(HeaderLws, r))
    decreases |s|
  {
    if s != [] {
      assert IsBlank(s[0]);
      LeadsBlanks(r, s[1..]);
    }
  }

  /** The state inside a header: after the blanks of a continuation line, or in its value. */
  function InValue(folds: seq<Fold>): State {
    if folds != [] && folds[|folds| - 1].text == [] then HeaderLws else HeaderValue
  }

  lemma LeadsFoldStart(from: State, r: RequestData, blanks: string)
    requires (from == HeaderValue || from == HeaderLws) && r.headers != [] && blanks != [] && BlankString(blanks)
    ensures Leads(Config(from, r), "\r\n" + blanks, Config(HeaderLws, r))
  {
    LeadsTwo(Config(from, r), '\r', '\n');
    assert IsBlank(blanks[0]);
    LeadsBy(Config(HeaderLineStart, r), blanks[0]);
    LeadsTo(Config(from, r), "\r\n", Config(HeaderLineStart, r), [blanks[0]], Config(HeaderLws, r));
    LeadsBlanks(r, blanks[1..]);
    LeadsTo(Config(from, r), "\r\n" + [blanks[0]], Config(HeaderLws, r), blanks[1..], Config(HeaderLws, r));
    assert "\r\n" + [blanks[0]] + blanks[1..] == "\r\n" + blanks;
  }

  /** One continuation line adds just its text to the value. */
  lemma LeadsFold(from: State, r: RequestData, hs: seq<Header>, h: Header, f: Fold)
    requires (from == HeaderValue || from == HeaderLws) && ProperFold(f)
    ensures Leads(Config(from, r.(headers := hs + [h])), "\r\n" + f.blanks + f.text,
                  Config(InValue([f]), r.(headers := hs + [Header(h.name, h.value + f.text)])))
  {
    hide Leads, ValueString, BlankString;
    var g, r1 := Config(from, r.(headers := hs + [h])), r.(headers := hs + [h]);
    LeadsFoldStart(from, r1, f.blanks);
    if f.text == [] {
      assert "\r\n" + f.blanks + f.text == "\r\n" + f.blanks;
      assert Header(h.name, h.value + f.text) == h;
    } else {
      FirstOfText(r, hs, h, f.text);
      LeadsTo(g, "\r\n" + f.blanks, Config(HeaderLws, r1), f.text, Config(HeaderValue, r.(headers := hs + [Header(h.name, h.value + f.text)])));
    }
  }

  lemma FirstOfText(r: RequestData, hs: seq<Header>, h: Header, s: string)
    requires s != [] && ValueString(s) && !IsBlank(s[0])
    ensures Leads(Config(HeaderLws, r.(headers := hs + [h])), s, Config(HeaderValue, r.(headers := hs + [Header(h.name, h.value + s)])))
  {
    var g, h1 := Config(HeaderLws, r.(headers := hs + [h])), Header(h.name, h.value + [s[0]]);
    assert !IsCtl(s[0]);
    LeadsBy(g, s[0]);
    assert SetBack(hs + [h], h1) == hs + [h1];
    LeadsValue(r, hs, h1, s[1..]);
    LeadsTo(g, [s[0]], Config(HeaderValue, r.(headers := hs + [h1])), s[1..], Config(HeaderValue, r.(headers := hs + [Header(h.name, h1.value + s[1..])])));
    assert [s[0]] + s[1..] == s && h1.value + s[1..] == h.value + s;
  }

  lemma {:induction false} LeadsFolds(r: RequestData, hs: seq<Header>, h: Header, folds: seq<Fold>)
    requires forall i :: 0 <= i < |folds| ==> ProperFold(folds[i])
    ensures Leads(Config(HeaderValue, r.(headers := hs + [h])), FoldsText(folds),
                  Config(InValue(folds), r.(headers := hs + [Header(h.name, h.value + FoldsValue(folds))])))
    decreases |folds|
  {
    hide Leads, ProperFold;
    if folds == [] {
      LeadsNothing(Config(HeaderValue, r.(headers := hs + [h])));
      assert Header(h.name, h.value + "") == h;
    } else {
      var init, f := folds[..|folds| - 1], folds[|folds| - 1];
      var h1, h2 := Header(h.name, h.value + FoldsValue(init)), Header(h.name, h.value + FoldsValue(folds));
      LeadsFolds(r, hs, h, init);
      LeadsFold(InValue(init), r, hs, h1, f);
      assert h1.value + f.text == h2.value;
      LeadsTo(Config(HeaderValue, r.(headers := hs + [h])), FoldsText(init), Config(InValue(init), r.(headers := hs + [h1])),
              "\r\n" + f.blanks + f.text, Config(InValue([f]), r.(headers := hs + [h2])));
      assert FoldsText(init) + ("\r\n" + f.blanks + f.text) == FoldsText(folds);
    }
  }

  lemma LeadsNothing(g: Config)
    requires g.Fits()
    ensures Leads(g, "", g)
  {
  }

  /** A header line, folded anyhow, is read as the unfolded one. */
  lemma LeadsWrittenHeader(r: RequestData, h: WrittenHeader)
    requires ProperHeader(h)
    ensures Leads(Config(HeaderLineStart, r), HeaderText(h) + "\r\n", Config(HeaderLineStart, r.(headers := r.headers + [HeaderOf(h)])))
  {
    hide Leads, TokenString, ValueString, ProperFold, FoldsText, FoldsValue;
    var g, hs := Config(HeaderLineStart, r), r.headers;
    var r1, r2, r3 := r.(headers := hs + [Header(h.name, "")]), r.(headers := hs + [Header(h.name, h.first)]), r.(headers := hs + [HeaderOf(h)]);
    LeadsFirstName(r, h.name);
    LeadsColon(r1);
    LeadsTo(g, h.name, Config(HeaderName, r1), ": ", Config(HeaderValue, r1));
    LeadsValue(r, hs, Header(h.name, ""), h.first);
    assert "" + h.first == h.first;
    LeadsTo(g, h.name + ": ", Config(HeaderValue, r1), h.first, Config(HeaderValue, r2));
    LeadsFolds(r, hs, Header(h.name, h.first), h.folds);
    LeadsTo(g, h.name + ": " + h.first, Config(HeaderValue, r2), FoldsText(h.folds), Config(InValue(h.folds), r3));
    LeadsTwo(Config(InValue(h.folds), r3), '\r', '\n');
    LeadsTo(g, HeaderText(h), Config(InValue(h.folds), r3), "\r\n", Config(HeaderLineStart, r3));
  }

  lemma {:induction false} LeadsWrittenHeaders(r: RequestData, headers: seq<WrittenHeader>)
    requires r.headers == [] && ProperHeaders(headers)
    ensures Leads(Config(HeaderLineStart, r), HeadersText(headers), Config(HeaderLineStart, r.(headers := HeadersOf(headers))))
    decreases |headers|
  {
    hide Leads, ProperHeader, HeaderText, HeaderOf;
    if headers == [] {
      LeadsNothing(Config(HeaderLineStart, r));
    } else {
      var init, h := headers[..|headers| - 1], headers[|headers| - 1];
      var r1 := r.(headers := HeadersOf(init));
      LeadsWrittenHeaders(r, init);
      LeadsWrittenHeader(r1, h);
      LeadsTo(Config(HeaderLineStart, r), HeadersText(init), Config(HeaderLineStart, r1), HeaderText(h) + "\r\n",
              Config(HeaderLineStart, r.(headers := HeadersOf(headers))));
      assert HeadersText(init) + (HeaderText(h) + "\r\n") == HeadersText(headers);
    }
  }

  lemma LeadsHead(w: Writing)
    requires ProperLine(w)
    ensures Leads(Config(MethodStart, EMPTY), HeadText(w), Config(MajorStart, EMPTY.(method_ := w.method_, uri := w.uri)))
  {
    hide Leads, TokenString, UriString;
    LeadsLineStart(RequestData(w.method_, w.uri, 0, 0, []));
  }

  lemma LeadsLine(w: Writing)
    requires ProperLine(w)
    ensures Leads(Config(MethodStart, EMPTY), LineText(w) + "\r\n", Config(HeaderLineStart, Meaning(w).(headers := [])))
  {
    hide Leads, Eval, TokenString, UriString, HeadText, HeadersOf;
    var g, r1 := Config(MethodStart, EMPTY), EMPTY.(method_ := w.method_, uri := w.uri);
    var r2, r3 := r1.(major := Eval(0, w.major)), Meaning(w).(headers := []);
    LeadsHead(w);
    LeadsMajor(r1, w.major, MajorStart);
    LeadsTo(g, HeadText(w), Config(MajorStart, r1), w.major, Config(Major, r2));
    LeadsBy(Config(Major, r2), '.');
    LeadsTo(g, HeadText(w) + w.major, Config(Major, r2), ".", Config(MinorStart, r2));
    LeadsMinor(r2, w.minor, MinorStart);
    LeadsTo(g, HeadText(w) + w.major + ".", Config(MinorStart, r2), w.minor, Config(Minor, r3));
    LeadsTwo(Config(Minor, r3), '\r', '\n');
    LeadsTo(g, LineText(w), Config(Minor, r3), "\r\n", Config(HeaderLineStart, r3));
  }

  /** Every proper writing is accepted with its meaning, the verdict falling on the last character. */
  lemma WritingAccepted(w: Writing)
    requires Proper(w)
    ensures Feed(Config(MethodStart, EMPTY), Text(w)) == Outcome(Good, Config(Newline3, Meaning(w)), |Text(w)|)
  {
    hide LineText, HeadersText, HeadersOf, ProperHeaders;
    var g, r := Config(MethodStart, EMPTY), Meaning(w).(headers := []);
    LeadsLine(w);
    LeadsWrittenHeaders(r, w.headers);
    LeadsTo(g, LineText(w) + "\r\n", Config(HeaderLineStart, r), HeadersText(w.headers), Config(HeaderLineStart, Meaning(w)));
    FeedAppend(g, OpenText(w), "\r\n");
    EndsGood(Meaning(w));
  }

  // ----- Whatever is accepted is a proper writing -----

  /** The text of a writing up to its last header, whose line is not ended yet. */
  function Unended(w: Writing): string
    requires w.headers != []
  {
    LineText(w) + "\r\n" + HeadersText(w.headers[..|w.headers| - 1]) + HeaderText(w.headers[|w.headers| - 1])
  }

  lemma Ended(w: Writing)
    requires w.headers != []
    ensures OpenText(w) == Unended(w) + "\r\n"
  {
  }

  function LastFolds(w: Writing): seq<Fold>
    requires w.headers != []
  {
    w.headers[|w.headers| - 1].folds
  }

  ghost predicate NamedBy(req: RequestData, w: Writing) {
    && w.method_ != [] && TokenString(w.method_) && UriString(w.uri)
    && req == EMPTY.(method_ := w.method_, uri := w.uri, major := req.major)
  }

  /** The characters read so far are the beginning of the writing `w`, up to `part` of what comes next. */
  ghost predicate SpellsLine(g: Config, read: string, w: Writing, part: string) {
    match g.state
    case MethodStart => read == "" && g.req == EMPTY
    case Method => read == part && part != [] && TokenString(part) && g.req == EMPTY.(method_ := part)
    case Uri => NamedBy(g.req, w) && g.req.major == 0 && read == w.method_ + " " + w.uri
    case VersionH => NamedBy(g.req, w) && g.req.major == 0 && read == w.method_ + " " + w.uri + " "
    case VersionT1 => NamedBy(g.req, w) && g.req.major == 0 && read == w.method_ + " " + w.uri + " H"
    case VersionT2 => NamedBy(g.req, w) && g.req.major == 0 && read == w.method_ + " " + w.uri + " HT"
    case VersionP => NamedBy(g.req, w) && g.req.major == 0 && read == w.method_ + " " + w.uri + " HTT"
    case VersionSlash => NamedBy(g.req, w) && g.req.major == 0 && read == w.method_ + " " + w.uri + " HTTP"
    case MajorStart => NamedBy(g.req, w) && g.req.major == 0 && read == HeadText(w)
    case Major => NamedBy(g.req, w) && part != [] && DigitString(part) && g.req.major == Eval(0, part) <= MAX_VERSION && read == HeadText(w) + part
    case MinorStart =>
      && NamedBy(g.req, w) && w.major != [] && DigitString(w.major) && g.req.major == Eval(0, w.major) <= MAX_VERSION
      && read == HeadText(w) + w.major + "."
    case Minor =>
      && NamedBy(g.req.(minor := 0), w) && w.major != [] && DigitString(w.major) && g.req.major == Eval(0, w.major) <= MAX_VERSION
      && part != [] && DigitString(part) && g.req.minor == Eval(0, part) <= MAX_VERSION && read == HeadText(w) + w.major + "." + part
    case Newline1 => ProperLine(w) && w.headers == [] && g.req == Meaning(w) && read == LineText(w) + "\r"
    case _ => false
  }

  ghost predicate SpellsHeaders(g: Config, read: string, w: Writing, part: string) {
    && Proper(w)
    && match g.state
       case HeaderLineStart => g.req == Meaning(w) && read == OpenText(w)
       case HeaderName =>
         part != [] && TokenString(part) && g.req == Meaning(w).(headers := HeadersOf(w.headers) + [Header(part, "")]) && read == OpenText(w) + part
       case SpaceBeforeValue =>
         part != [] && TokenString(part) && g.req == Meaning(w).(headers := HeadersOf(w.headers) + [Header(part, "")]) && read == OpenText(w) + part + ":"
       case HeaderValue | HeaderLws => w.headers != [] && g.state == InValue(LastFolds(w)) && g.req == Meaning(w) && read == Unended(w)
       case Newline2 => w.headers != [] && g.req == Meaning(w) && read == Unended(w) + "\r"
       case Newline3 => g.req == Meaning(w) && read == OpenText(w) + "\r"
       case _ => false
  }

  ghost predicate Spells(g: Config, read: string, w: Writing, part: string) {
    SpellsLine(g, read, w, part) || SpellsHeaders(g, read, w, part)
  }

  /** A method and URI, with the numbers not known yet. */
  function Begun(m: string, u: string): Writing {
    Writing(m, u, "0", "0", [])
  }

  lemma NextInLine(g: Config, read: string, w: Writing, part: string, c: char) returns (w': Writing, part': string)
    requires g.Fits() && SpellsLine(g, read, w, part) && Step(g, c).result == Indeterminate
    requires !(g.state.Newline1? || g.state.Major? || g.state.MajorStart? || g.state.Minor? || g.state.MinorStart?)
    ensures SpellsLine(Step(g, c).config, read + [c], w', part')
  {
    w', part' := w, part;
    match g.state
    case MethodStart => part' := [c];
    case Method => if c == ' ' { w' := Begun(part, ""); } else { part' := part + [c]; }
    case Uri => if c != ' ' { w' := w.(uri := w.uri + [c]); }
    case _ =>
  }

  lemma NextInNumbers(g: Config, read: string, w: Writing, part: string, c: char) returns (w': Writing, part': string)
    requires g.Fits() && SpellsLine(g, read, w, part) && Step(g, c).result == Indeterminate
    requires g.state.Major? || g.state.MajorStart? || g.state.Minor? || g.state.MinorStart?
    ensures SpellsLine(Step(g, c).config, read + [c], w', part')
  {
    hide TokenString, UriString;
    w', part' := w, part;
    if IsDigit(c) {
      var before := if g.state.MajorStart? || g.state.MinorStart? then "" else part;
      EvalLast(0, before, c);
      part' := before + [c];
    } else if g.state.Major? {
      w' := w.(major := part);
    } else {
      w' := w.(minor := part, headers := []);
    }
  }

  // ----- Changing the last header of a writing -----

  function Changed(w: Writing, h: WrittenHeader): Writing
    requires w.headers != []
  {
    w.(headers := w.headers[..|w.headers| - 1] + [h])
  }

  lemma LastChanged(w: Writing, h: WrittenHeader, more: string, value: string)
    requires Proper(w) && w.headers != [] && ProperHeader(h)
    requires var last := w.headers[|w.headers| - 1];
      HeaderText(h) == HeaderText(last) + more && h.name == last.name && HeaderOf(h).value == HeaderOf(last).value + value
    ensures Proper(Changed(w, h)) && Unended(Changed(w, h)) == Unended(w) + more && LastFolds(Changed(w, h)) == h.folds
    ensures HeadersOf(w.headers) != [] && Meaning(Changed(w, h)) ==
      var last := Back(HeadersOf(w.headers)); Meaning(w).(headers := SetBack(HeadersOf(w.headers), Header(last.name, last.value + value)))
  {
    hide HeaderText, ProperHeader, Eval, FoldsValue, TokenString, UriString, DigitString;
    var init := w.headers[..|w.headers| - 1];
    assert Changed(w, h).headers[..|w.headers| - 1] == init;
    assert HeadersOf(w.headers) == HeadersOf(init) + [HeaderOf(w.headers[|w.headers| - 1])];
    assert HeadersOf(Changed(w, h).headers) == HeadersOf(init) + [HeaderOf(h)];
    var before, last := LineText(w) + "\r\n" + HeadersText(init), w.headers[|w.headers| - 1];
    assert before + (HeaderText(last) + more) == before + HeaderText(last) + more;
  }

  lemma FoldAdded(folds: seq<Fold>, f: Fold)
    ensures FoldsText(folds + [f]) == FoldsText(folds) + "\r\n" + f.blanks + f.text && FoldsValue(folds + [f]) == FoldsValue(folds) + f.text
  {
    assert (folds + [f])[..|folds|] == folds;
  }

  /** One more character of the value. */
  lemma LongerValue(w: Writing, c: char) returns (w': Writing)
    requires Proper(w) && w.headers != [] && !IsCtl(c) && (InValue(LastFolds(w)) == HeaderLws ==> !IsBlank(c))
    ensures Proper(w') && w'.headers != [] && InValue(LastFolds(w')) == HeaderValue && Unended(w') == Unended(w) + [c]
    ensures HeadersOf(w.headers) != [] && Meaning(w') ==
      var last := Back(HeadersOf(w.headers)); Meaning(w).(headers := SetBack(HeadersOf(w.headers), Header(last.name, last.value + [c])))
  {
    hide FoldsText, FoldsValue, Eval, HeadersOf, LineText, ProperLine, TokenString, BlankString;
    var h := w.headers[|w.headers| - 1];
    assert ProperHeader(h);
    var h' := LongerHeader(h, c);
    LastChanged(w, h', [c], [c]);
    w' := Changed(w, h');
  }

  lemma LongerHeader(h: WrittenHeader, c: char) returns (h': WrittenHeader)
    requires ProperHeader(h) && !IsCtl(c) && (InValue(h.folds) == HeaderLws ==> !IsBlank(c))
    ensures ProperHeader(h') && h'.name == h.name && InValue(h'.folds) == HeaderValue
    ensures HeaderText(h') == HeaderText(h) + [c] && HeaderOf(h').value == HeaderOf(h).value + [c]
  {
    hide FoldsText, FoldsValue, TokenString, BlankString;
    if h.folds == [] {
      h' := h.(first := h.first + [c]);
      NoFolds();
    } else {
      var init, f := h.folds[..|h.folds| - 1], h.folds[|h.folds| - 1];
      var f' := f.(text := f.text + [c]);
      assert h.folds == init + [f] && ProperFold(f) && ProperFold(f');
      h' := h.(folds := init + [f']);
      FoldAdded(init, f);
      FoldAdded(init, f');
    }
  }

  lemma NoFolds()
    ensures FoldsText([]) == "" && FoldsValue([]) == ""
  {
  }

  /** A blank after the end of a header line starts a continuation line, or makes its blanks longer. */
  lemma FoldStarted(w: Writing, c: char) returns (w': Writing)
    requires Proper(w) && w.headers != [] && IsBlank(c)
    ensures Proper(w') && w'.headers != [] && InValue(LastFolds(w')) == HeaderLws && Unended(w') == OpenText(w) + [c] && Meaning(w') == Meaning(w)
  {
    hide FoldsText, FoldsValue, Eval, LineText, ProperLine, TokenString, HeadersText;
    var h, f := w.headers[|w.headers| - 1], Fold([c], "");
    assert ProperHeader(h) && ProperFold(f);
    FoldAdded(h.folds, f);
    var h' := h.(folds := h.folds + [f]);
    assert HeaderText(h') == HeaderText(h) + ("\r\n" + [c]);
    LastChanged(w, h', "\r\n" + [c], "");
    SameBack(HeadersOf(w.headers));
    w' := Changed(w, h');
    Ended(w);
    assert Unended(w) + ("\r\n" + [c]) == Unended(w) + "\r\n" + [c];
  }

  lemma SameBack(headers: seq<Header>)
    ensures headers != [] ==> SetBack(headers, Header(Back(headers).name, Back(headers).value + "")) == headers
  {
    if headers != [] {
      assert Back(headers).value + "" == Back(headers).value;
    }
  }

  lemma LongerBlanks(w: Writing, c: char) returns (w': Writing)
    requires Proper(w) && w.headers != [] && InValue(LastFolds(w)) == HeaderLws && IsBlank(c)
    ensures Proper(w') && w'.headers != [] && InValue(LastFolds(w')) == HeaderLws && Unended(w') == Unended(w) + [c] && Meaning(w') == Meaning(w)
  {
    hide FoldsText, FoldsValue, Eval, LineText, ProperLine, TokenString, ValueString, HeadersText;
    var h := w.headers[|w.headers| - 1];
    var init, f := h.folds[..|h.folds| - 1], h.folds[|h.folds| - 1];
    var f' := f.(blanks := f.blanks + [c]);
    assert ProperHeader(h) && h.folds == init + [f] && ProperFold(f) && ProperFold(f');
    FoldAdded(init, f);
    FoldAdded(init, f');
    var h' := h.(folds := init + [f']);
    assert HeaderText(h') == HeaderText(h) + [c];
    LastChanged(w, h', [c], "");
    SameBack(HeadersOf(w.headers));
    w' := Changed(w, h');
  }

  /** A name and its colon start a header. */
  lemma HeaderStarted(w: Writing, name: string) returns (w': Writing)
    requires Proper(w) && name != [] && TokenString(name)
    ensures Proper(w') && w'.headers != [] && InValue(LastFolds(w')) == HeaderValue && Unended(w') == OpenText(w) + name + ": "
    ensures Meaning(w') == Meaning(w).(headers := HeadersOf(w.headers) + [Header(name, "")])
  {
    hide Eval, TokenString, UriString, DigitString;
    var h := WrittenHeader(name, "", []);
    w' := w.(headers := w.headers + [h]);
    assert w'.headers[..|w.headers|] == w.headers;
    NoFolds();
    assert HeaderText(h) == name + ": ";
    assert OpenText(w) + (name + ": ") == OpenText(w) + name + ": ";
    assert HeaderOf(h) == Header(name, "");
    assert HeadersOf(w'.headers) == HeadersOf(w.headers) + [HeaderOf(h)];
  }

  lemma NextInHeaders(g: Config, read: string, w: Writing, part: string, c: char) returns (w': Writing, part': string)
    requires g.Fits() && SpellsHeaders(g, read, w, part) && Step(g, c).result == Indeterminate
    ensures SpellsHeaders(Step(g, c).config, read + [c], w', part')
  {
    hide Proper, HeadersOf, OpenText, Unended, InValue, Eval, SetBack, Back, IsToken;
    w', part' := w, part;
    match g.state
    case HeaderLineStart =>
      if c == '\r' {
      } else if IsBlank(c) && g.req.headers != [] {
        HeadersMatch(w.headers);
        w' := FoldStarted(w, c);
      } else {
        part' := [c];
      }
    case HeaderName =>
      if c != ':' {
        part' := part + [c];
        LongerName(HeadersOf(w.headers), part, c);
      }
    case SpaceBeforeValue => w' := HeaderStarted(w, part);
    case HeaderLws =>
      if IsBlank(c) { w' := LongerBlanks(w, c); } else if c != '\r' { w' := LongerValue(w, c); }
    case HeaderValue =>
      if c != '\r' { w' := LongerValue(w, c); }
    case Newline2 => Ended(w);
    case _ =>
  }

  lemma {:induction false} HeadersMatch(headers: seq<WrittenHeader>)
    ensures |HeadersOf(headers)| == |headers|
  {
    if headers != [] {
      HeadersMatch(headers[..|headers| - 1]);
    }
  }

  lemma LongerName(headers: seq<Header>, part: string, c: char)
    ensures SetBack(headers + [Header(part, "")], Header(part + [c], "")) == headers + [Header(part + [c], "")]
    ensures Back(headers + [Header(part, "")]) == Header(part, "")
    ensures TokenString(part) && IsToken(c) ==> TokenString(part + [c])
  {
  }

  lemma NextSpells(g: Config, read: string, w: Writing, part: string, c: char) returns (w': Writing, part': string)
    requires g.Fits() && Spells(g, read, w, part) && Step(g, c).result == Indeterminate
    ensures Spells(Step(g, c).config, read + [c], w', part')
  {
    hide SpellsHeaders, SpellsLine, Step;
    if SpellsHeaders(g, read, w, part) {
      w', part' := NextInHeaders(g, read, w, part, c);
    } else if g.state.Newline1? {
      w', part' := w, part;
      LineEnds(g, read, w, part, c);
    } else if g.state.Major? || g.state.MajorStart? || g.state.Minor? || g.state.MinorStart? {
      w', part' := NextInNumbers(g, read, w, part, c);
    } else {
      w', part' := NextInLine(g, read, w, part, c);
    }
  }

  lemma LineEnds(g: Config, read: string, w: Writing, part: string, c: char)
    requires g.Fits() && SpellsLine(g, read, w, part) && g.state.Newline1? && Step(g, c).result == Indeterminate
    ensures SpellsHeaders(Step(g, c).config, read + [c], w, part)
  {
  }

  /** What an accepted input writes. */
  lemma {:induction false} AcceptedWrites(g: Config, read: string, rest: string, w: Writing, part: string) returns (w': Writing)
    requires g.Fits() && Spells(g, read, w, part) && Feed(g, rest).result == Good
    ensures Proper(w') && Text(w') == read + rest[..Feed(g, rest).consumed] && Meaning(w') == Feed(g, rest).config.req
    decreases |rest|
  {
    hide SpellsLine, SpellsHeaders, Proper, Meaning;
    var c, o := rest[0], Step(g, rest[0]);
    if o.result == Indeterminate {
      var w1, part1 := NextSpells(g, read, w, part, c);
      w' := AcceptedWrites(o.config, read + [c], rest[1..], w1, part1);
      assert read + [c] + rest[1..][..Feed(o.config, rest[1..]).consumed] == read + rest[..Feed(g, rest).consumed];
    } else {
      LastCharacter(g, read, w, part, c);
      w' := w;
      assert rest[..1] == [c];
    }
  }

  lemma LastCharacter(g: Config, read: string, w: Writing, part: string, c: char)
    requires g.Fits() && Spells(g, read, w, part) && Step(g, c).result == Good
    ensures Proper(w) && Text(w) == read + [c] && Meaning(w) == g.req && Step(g, c).config == g
  {
    hide Proper, OpenText;
    assert OpenText(w) + "\r" + "\n" == OpenText(w) + "\r\n";
  }

  /** Exactly the proper writings are accepted: an input is accepted as a whole, with a request, if
      and only if it is the text of a proper writing that means that request. */
  lemma AcceptedExactly(input: string, r: RequestData)
    ensures Feed(Config(MethodStart, EMPTY), input) == Outcome(Good, Config(Newline3, r), |input|)
      <==> exists w :: Proper(w) && Text(w) == input && Meaning(w) == r
  {
    hide Text, Meaning, Feed, TokenString, UriString, ValueString, ProperHeaders, Eval;
    var o := Feed(Config(MethodStart, EMPTY), input);
    if o == Outcome(Good, Config(Newline3, r), |input|) {
      var w := AcceptedWrites(Config(MethodStart, EMPTY), "", input, Begun("", ""), "");
      assert "" + input[..|input|] == input;
    }
    forall w | Proper(w) && Text(w) == input && Meaning(w) == r
      ensures o == Outcome(Good, Config(Newline3, r), |input|)
    {
      WritingAccepted(w);
    }
  }
}
