/** The push-style HTTP request parser: one byte at a time, into a request under construction.
    The version numbers of the source are 32-bit integers; where their arithmetic would overflow,
    which C++ leaves undefined, the verdict here is Overflow.
    Bytes are characters here; those above 127 stand for the bytes that C++ may see as negative. */
module RequestParser {
  import opened Collections

  datatype Header = Header(name: string, value: string)

  datatype RequestData = RequestData(method_: string, uri: string, major: nat, minor: nat, headers: seq<Header>)

  datatype State =
    | MethodStart | Method | Uri
    | VersionH | VersionT1 | VersionT2 | VersionP | VersionSlash
    | MajorStart | Major | MinorStart | Minor
    | Newline1 | HeaderLineStart | HeaderLws | HeaderName | SpaceBeforeValue | HeaderValue
    | Newline2 | Newline3

  datatype Result = Good | Bad | Indeterminate | Overflow

  const MAX_INT := 0x7FFF_FFFF

  /** The source adds the character to ten times the number before it takes off the code of zero,
      so numbers overflow a little below the largest integer. */
  const MAX_VERSION := MAX_INT - '0' as int

  const EMPTY := RequestData("", "", 0, 0, [])

  // ----- Character classes -----

  predicate IsChar(c: char) {
    c as int <= 127
  }

  predicate IsCtl(c: char) {
    c as int <= 31 || c as int == 127
  }

  predicate IsTspecial(c: char) {
    c in "()<>@,;:\\\"/[]?={} \t"
  }

  predicate IsToken(c: char) {
    IsChar(c) && !IsCtl(c) && !IsTspecial(c)
  }

  // ----- The state machine as a function -----

  datatype Config = Config(state: State, req: RequestData) {
    /** In the states that extend the last header there is one. */
    predicate Fits() {
      state.HeaderLws? || state.HeaderName? || state.SpaceBeforeValue? || state.HeaderValue? ==> req.headers != []
    }
  }

  function Expect(c: char, wanted: char, next: State): Option<State> {
    if c == wanted then Some(next) else None
  }

  /** Where a character leads; nowhere if it is refused or if it completes the request. */
  function Next(state: State, afterHeader: bool, c: char): Option<State> {
    match state
    case MethodStart => if IsToken(c) then Some(Method) else None
    case Method => if c == ' ' then Some(Uri) else if IsToken(c) then Some(Method) else None
    case Uri => if c == ' ' then Some(VersionH) else if IsCtl(c) then None else Some(Uri)
    case VersionH => Expect(c, 'H', VersionT1)
    case VersionT1 => Expect(c, 'T', VersionT2)
    case VersionT2 => Expect(c, 'T', VersionP)
    case VersionP => Expect(c, 'P', VersionSlash)
    case VersionSlash => Expect(c, '/', MajorStart)
    case MajorStart => if IsDigit(c) then Some(Major) else None
    case Major => if c == '.' then Some(MinorStart) else if IsDigit(c) then Some(Major) else None
    case MinorStart => if IsDigit(c) then Some(Minor) else None
    case Minor => if c == '\r' then Some(Newline1) else if IsDigit(c) then Some(Minor) else None
    case Newline1 => Expect(c, '\n', HeaderLineStart)
    case HeaderLineStart =>
      if c == '\r' then Some(Newline3)
      else if afterHeader && (c == ' ' || c == '\t') then Some(HeaderLws)
      else if IsToken(c) then Some(HeaderName)
      else None
    case HeaderLws =>
      if c == '\r' then Some(Newline2)
      else if c == ' ' || c == '\t' then Some(HeaderLws)
      else if IsCtl(c) then None
      else Some(HeaderValue)
    case HeaderName => if c == ':' then Some(SpaceBeforeValue) else if IsToken(c) then Some(HeaderName) else None
    case SpaceBeforeValue => Expect(c, ' ', HeaderValue)
    case HeaderValue => if c == '\r' then Some(Newline2) else if IsCtl(c) then None else Some(HeaderValue)
    case Newline2 => Expect(c, '\n', HeaderLineStart)
    case Newline3 => None
  }

  /** Adding this character to a version number overflows. */
  predicate Overflows(g: Config, c: char) {
    IsDigit(c) &&
    match g.state
    case MajorStart | Major => g.req.major * 10 + c as int > MAX_INT
    case MinorStart | Minor => g.req.minor * 10 + c as int > MAX_INT
    case _ => false
  }

  function Back(headers: seq<Header>): Header
    requires headers != []
  {
    headers[|headers| - 1]
  }

  function SetBack(headers: seq<Header>, h: Header): seq<Header>
    requires headers != []
  {
    headers[|headers| - 1 := h]
  }

  /** What a character that leads from one state to the next adds to the request. */
  function Update(from: State, to: State, req: RequestData, c: char): RequestData
    requires Config(from, req).Fits() && Next(from, req.headers != [], c) == Some(to)
  {
    match to
    case Method => req.(method_ := req.method_ + [c])
    case Uri => if from.Uri? then req.(uri := req.uri + [c]) else req
    case MajorStart => req.(major := 0, minor := 0)
    case Major => req.(major := req.major * 10 + Digit(c))
    case Minor => req.(minor := req.minor * 10 + Digit(c))
    case HeaderName =>
      if from.HeaderLineStart? then req.(headers := req.headers + [Header([c], "")])
      else req.(headers := SetBack(req.headers, Header(Back(req.headers).name + [c], Back(req.headers).value)))
    case HeaderValue =>
      if from.SpaceBeforeValue? then req
      else req.(headers := SetBack(req.headers, Header(Back(req.headers).name, Back(req.headers).value + [c])))
    case _ => req
  }

  datatype Outcome = Outcome(result: Result, config: Config, consumed: nat)

  function Step(g: Config, c: char): (o: Outcome)
    requires g.Fits()
    ensures o.config.Fits() && o.consumed == 1
  {
    if Overflows(g, c) then Outcome(Overflow, g, 1) else
    match Next(g.state, g.req.headers != [], c)
    case None => Outcome(if g.state == Newline3 && c == '\n' then Good else Bad, g, 1)
    case Some(next) => Outcome(Indeterminate, Config(next, Update(g.state, next, g.req, c)), 1)
  }

  /** Feeds characters until the request is complete or refused, or they run out. */
  function Feed(g: Config, input: string): (o: Outcome)
    requires g.Fits()
    ensures o.config.Fits() && o.consumed <= |input|
    decreases |input|
  {
    if input == [] then Outcome(Indeterminate, g, 0)
    else
      var o := Step(g, input[0]);
      if o.result != Indeterminate then o
      else
        var rest := Feed(o.config, input[1..]);
        rest.(consumed := rest.consumed + 1)
  }

  // ----- The parser -----

  /** A request under construction. */
  class Request {
    var method_: string
    var uri: string
    var major: nat
    var minor: nat
    var headers: seq<Header>

    constructor ()
      ensures Data() == EMPTY
    {
      method_, uri, major, minor, headers := "", "", 0, 0, [];
    }

    function Data(): RequestData
      reads this
    {
      RequestData(method_, uri, major, minor, headers)
    }

    method StartHeader(c: char)
      modifies `headers
      ensures headers == old(headers) + [Header([c], "")]
    {
      headers := headers + [Header([c], "")];
    }

    method ExtendName(c: char)
      requires headers != []
      modifies `headers
      ensures headers == SetBack(old(headers), Header(Back(old(headers)).name + [c], Back(old(headers)).value))
    {
      headers := SetBack(headers, Header(Back(headers).name + [c], Back(headers).value));
    }

    method ExtendValue(c: char)
      requires headers != []
      modifies `headers
      ensures headers == SetBack(old(headers), Header(Back(old(headers)).name, Back(old(headers)).value + [c]))
    {
      headers := SetBack(headers, Header(Back(headers).name, Back(headers).value + [c]));
    }
  }

  class Parser {
    var state: State

    constructor ()
      ensures state == MethodStart
    {
      state := MethodStart;
    }

    method Reset()
      modifies `state
      ensures state == MethodStart
    {
      state := MethodStart;
    }

    ghost function At(req: Request): Config
      reads this, req
    {
      Config(state, req.Data())
    }

    /** Moves on if the character is the one expected. */
    method Follow(c: char, wanted: char, next: State) returns (result: Result)
      modifies `state
      ensures c == wanted ==> state == next && result == Indeterminate
      ensures c != wanted ==> state == old(state) && result == Bad
    {
      if c == wanted {
        state := next;
        return Indeterminate;
      }
      result := Bad;
    }

    method ConsumeRequestLine(req: Request, c: char) returns (result: Result)
      requires state.MethodStart? || state.Method? || state.Uri?
      modifies this, req
      ensures Outcome(result, At(req), 1) == Step(old(At(req)), c)
    {
      result := Indeterminate;
      match state
      case MethodStart =>
        if !IsChar(c) || IsCtl(c) || IsTspecial(c) {
          return Bad;
        }
        state := Method;
        req.method_ := req.method_ + [c];
      case Method =>
        if c == ' ' {
          state := Uri;
        } else if !IsChar(c) || IsCtl(c) || IsTspecial(c) {
          return Bad;
        } else {
          req.method_ := req.method_ + [c];
        }
      case Uri =>
        if c == ' ' {
          state := VersionH;
        } else if IsCtl(c) {
          return Bad;
        } else {
          req.uri := req.uri + [c];
        }
    }

    method ConsumeNumber(req: Request, c: char) returns (result: Result)
      requires state.MajorStart? || state.Major? || state.MinorStart? || state.Minor?
      modifies this, req
      ensures Outcome(result, At(req), 1) == Step(old(At(req)), c)
    {
      result := Indeterminate;
      match state
      case MajorStart =>
        if !IsDigit(c) {
          return Bad;
        }
        result := AddDigit(req, c, true);
        state := if result == Overflow then state else Major;
      case Major =>
        if c == '.' {
          state := MinorStart;
        } else if IsDigit(c) {
          result := AddDigit(req, c, true);
        } else {
          return Bad;
        }
      case MinorStart =>
        if !IsDigit(c) {
          return Bad;
        }
        result := AddDigit(req, c, false);
        state := if result == Overflow then state else Minor;
      case Minor =>
        if c == '\r' {
          state := Newline1;
        } else if IsDigit(c) {
          result := AddDigit(req, c, false);
        } else {
          return Bad;
        }
    }

    /** Adds a digit to one of the version numbers, if that does not overflow. */
    method AddDigit(req: Request, c: char, toMajor: bool) returns (result: Result)
      requires IsDigit(c)
      modifies req`major, req`minor
      ensures var number := if toMajor then old(req.major) else old(req.minor);
        result == if number * 10 + c as int > MAX_INT then Overflow else Indeterminate
      ensures req.major == if toMajor && result != Overflow then old(req.major) * 10 + Digit(c) else old(req.major)
      ensures req.minor == if !toMajor && result != Overflow then old(req.minor) * 10 + Digit(c) else old(req.minor)
    {
      var sum := (if toMajor then req.major else req.minor) * 10 + c as int;
      if sum > MAX_INT {
        return Overflow;
      }
      if toMajor {
        req.major := sum - '0' as int;
      } else {
        req.minor := sum - '0' as int;
      }
      result := Indeterminate;
    }

    method ConsumeLineStart(req: Request, c: char) returns (result: Result)
      requires (state.HeaderLineStart? || state.HeaderLws?) && At(req).Fits()
      modifies this, req
      ensures Outcome(result, At(req), 1) == Step(old(At(req)), c)
    {
      result := Indeterminate;
      match state
      case HeaderLineStart =>
        if c == '\r' {
          state := Newline3;
        } else if |req.headers| > 0 && (c == ' ' || c == '\t') {
          state := HeaderLws;
        } else if !IsChar(c) || IsCtl(c) || IsTspecial(c) {
          return Bad;
        } else {
          req.StartHeader(c);
          state := HeaderName;
        }
      case HeaderLws =>
        if c == '\r' {
          state := Newline2;
        } else if c == ' ' || c == '\t' {
          return;
        } else if IsCtl(c) {
          return Bad;
        } else {
          state := HeaderValue;
          req.ExtendValue(c);
        }
    }

    method ConsumeHeader(req: Request, c: char) returns (result: Result)
      requires (state.HeaderName? || state.HeaderValue?) && At(req).Fits()
      modifies this, req
      ensures Outcome(result, At(req), 1) == Step(old(At(req)), c)
    {
      result := Indeterminate;
      match state
      case HeaderName =>
        if c == ':' {
          state := SpaceBeforeValue;
        } else if !IsChar(c) || IsCtl(c) || IsTspecial(c) {
          return Bad;
        } else {
          req.ExtendName(c);
        }
      case HeaderValue =>
        if c == '\r' {
          state := Newline2;
        } else if IsCtl(c) {
          return Bad;
        } else {
          req.ExtendValue(c);
        }
    }

    /** Handles the next character. */
    method Consume(req: Request, c: char) returns (result: Result)
      requires At(req).Fits()
      modifies this, req
      ensures Outcome(result, At(req), 1) == Step(old(At(req)), c)
    {
      match state
      case MethodStart | Method | Uri => result := ConsumeRequestLine(req, c);
      case VersionH => result := Follow(c, 'H', VersionT1);
      case VersionT1 => result := Follow(c, 'T', VersionT2);
      case VersionT2 => result := Follow(c, 'T', VersionP);
      case VersionP => result := Follow(c, 'P', VersionSlash);
      case VersionSlash =>
        result := Follow(c, '/', MajorStart);
        if result == Indeterminate {
          req.major, req.minor := 0, 0;
        }
      case MajorStart | Major | MinorStart | Minor => result := ConsumeNumber(req, c);
      case Newline1 => result := Follow(c, '\n', HeaderLineStart);
      case HeaderLineStart | HeaderLws => result := ConsumeLineStart(req, c);
      case HeaderName | HeaderValue => result := ConsumeHeader(req, c);
      case SpaceBeforeValue => result := Follow(c, ' ', HeaderValue);
      case Newline2 => result := Follow(c, '\n', HeaderLineStart);
      case Newline3 => result := if c == '\n' then Good else Bad;
    }

    /** Parses some data, up to a verdict or the end of the data. */
    method Parse(req: Request, input: string) returns (result: Result, begin: nat)
      requires At(req).Fits()
      modifies this, req
      ensures Outcome(result, At(req), begin) == Feed(old(At(req)), input)
    {
      begin := 0;
      assert input[0..] == input;
      while begin != |input|
        invariant begin <= |input| && At(req).Fits()
        invariant var rest := Feed(At(req), input[begin..]);
          Feed(old(At(req)), input) == rest.(consumed := rest.consumed + begin)
      {
        assert input[begin..][1..] == input[begin + 1..];
        result := Consume(req, input[begin]);
        begin := begin + 1;
        if result == Good || result == Bad || result == Overflow {
          return;
        }
      }
      result := Indeterminate;
    }

    /** Reads chunk after chunk until there is a verdict, as a connection does: how the input is
        split makes no difference to the verdict or to the request. */
    method ParseChunks(req: Request, chunks: seq<string>) returns (result: Result)
      requires At(req).Fits()
      modifies this, req
      ensures result == Feed(old(At(req)), Joined(chunks)).result
      ensures At(req) == Feed(old(At(req)), Joined(chunks)).config
    {
      result := Indeterminate;
      var i := 0;
      assert chunks[0..] == chunks;
      while i < |chunks| && result == Indeterminate
        invariant 0 <= i <= |chunks| && At(req).Fits()
        invariant result != Indeterminate ==> var o := Feed(old(At(req)), Joined(chunks)); result == o.result && At(req) == o.config
        invariant result == Indeterminate ==> SameVerdict(Feed(old(At(req)), Joined(chunks)), Feed(At(req), Joined(chunks[i..])))
      {
        ghost var g := At(req);
        var used;
        result, used := Parse(req, chunks[i]);
        FeedAppend(g, chunks[i], Joined(chunks[i + 1..]));
        assert chunks[i..][1..] == chunks[i + 1..];
        i := i + 1;
      }
    }
  }

  ghost predicate SameVerdict(a: Outcome, b: Outcome) {
    a.result == b.result && a.config == b.config
  }

  function Joined(chunks: seq<string>): string {
    if chunks == [] then "" else chunks[0] + Joined(chunks[1..])
  }

  // ----- Chunks and prefixes -----

  /** Feeding two pieces is feeding the first and then, unless there is a verdict, the second. */
  lemma {:induction false} FeedAppend(g: Config, u: string, v: string)
    requires g.Fits()
    ensures var o := Feed(g, u);
      Feed(g, u + v) == if o.result != Indeterminate then o else
        var rest := Feed(o.config, v); rest.(consumed := o.consumed + rest.consumed)
    ensures Feed(g, u).result == Indeterminate ==> Feed(g, u).consumed == |u|
    decreases |u|
  {
    if u == [] {
      assert u + v == v;
    } else {
      assert (u + v)[1..] == u[1..] + v;
      var o := Step(g, u[0]);
      if o.result == Indeterminate {
        FeedAppend(o.config, u[1..], v);
      }
    }
  }

  /** If the verdict falls on the last character, every strict prefix is indeterminate. */
  lemma PrefixIndeterminate(g: Config, w: string, n: nat)
    requires g.Fits() && n < |w| && Feed(g, w).consumed == |w|
    ensures Feed(g, w[..n]).result == Indeterminate
  {
    assert w == w[..n] + w[n..];
    FeedAppend(g, w[..n], w[n..]);
  }

  // ----- Serializing -----

  function Decimal(n: nat): (s: string)
    ensures s != [] && forall i :: 0 <= i < |s| ==> IsDigit(s[i])
  {
    var last := [('0' as int + n % 10) as char];
    if n < 10 then last else Decimal(n / 10) + last
  }

  function RequestLine(r: RequestData): string {
    r.method_ + " " + r.uri + " HTTP/" + Decimal(r.major) + "." + Decimal(r.minor) + "\r\n"
  }

  function HeaderLine(h: Header): string {
    h.name + ": " + h.value + "\r\n"
  }

  function SerializeHeaders(headers: seq<Header>): string {
    if headers == [] then "" else HeaderLine(headers[0]) + SerializeHeaders(headers[1..])
  }

  function Serialize(r: RequestData): string {
    RequestLine(r) + SerializeHeaders(r.headers) + "\r\n"
  }

  predicate TokenString(s: string) {
    forall i :: 0 <= i < |s| ==> IsToken(s[i])
  }

  predicate ValueString(s: string) {
    forall i :: 0 <= i < |s| ==> !IsCtl(s[i])
  }

  predicate UriString(s: string) {
    ValueString(s) && ' ' !in s
  }

  predicate WellFormedHeader(h: Header) {
    h.name != [] && TokenString(h.name) && ValueString(h.value)
  }

  predicate HeadersOk(headers: seq<Header>) {
    forall i :: 0 <= i < |headers| ==> WellFormedHeader(headers[i])
  }

  /** Well-formed but for the size of the version numbers. */
  predicate WellFormedText(r: RequestData) {
    && r.method_ != [] && TokenString(r.method_)
    && UriString(r.uri)
    && HeadersOk(r.headers)
  }

  predicate WellFormed(r: RequestData) {
    WellFormedText(r) && r.major <= MAX_VERSION && r.minor <= MAX_VERSION
  }

  // ----- Parsing a serialized request -----

  /** All of `w` is accepted without a verdict and leads from one configuration to the other. */
  ghost predicate Leads(g: Config, w: string, h: Config) {
    g.Fits() && Feed(g, w) == Outcome(Indeterminate, h, |w|)
  }

  lemma LeadsTo(g: Config, u: string, h: Config, v: string, k: Config)
    requires Leads(g, u, h) && Leads(h, v, k)
    ensures Leads(g, u + v, k)
  {
    FeedAppend(g, u, v);
  }

  lemma LeadsBy(g: Config, c: char)
    requires g.Fits() && Next(g.state, g.req.headers != [], c).Some? && !Overflows(g, c)
    ensures Leads(g, [c], Step(g, c).config)
  {
    assert [c][1..] == [];
    var o := Step(g, c);
    assert Feed(o.config, []) == Outcome(Indeterminate, o.config, 0);
  }

  /** In these states a character is added to the request and the state stays. */
  lemma {:induction false} LeadsMethod(r: RequestData, s: string)
    requires TokenString(s)
    ensures Leads(Config(Method, r), s, Config(Method, r.(method_ := r.method_ + s)))
    decreases |s|
  {
    if s == [] {
      assert r.method_ + s == r.method_;
    } else {
      assert IsToken(s[0]);
      LeadsMethod(r.(method_ := r.method_ + [s[0]]), s[1..]);
      assert r.method_ + [s[0]] + s[1..] == r.method_ + s;
    }
  }

  lemma {:induction false} LeadsUri(r: RequestData, s: string)
    requires ValueString(s) && ' ' !in s
    ensures Leads(Config(Uri, r), s, Config(Uri, r.(uri := r.uri + s)))
    decreases |s|
  {
    if s == [] {
      assert r.uri + s == r.uri;
    } else {
      assert !IsCtl(s[0]) && s[0] in s;
      LeadsUri(r.(uri := r.uri + [s[0]]), s[1..]);
      assert r.uri + [s[0]] + s[1..] == r.uri + s;
    }
  }

  lemma {:induction false} LeadsName(r: RequestData, hs: seq<Header>, h: Header, s: string)
    requires TokenString(s)
    ensures Leads(Config(HeaderName, r.(headers := hs + [h])), s, Config(HeaderName, r.(headers := hs + [Header(h.name + s, h.value)])))
    decreases |s|
  {
    if s == [] {
      assert h.name + s == h.name;
    } else {
      assert IsToken(s[0]);
      LeadsName(r, hs, Header(h.name + [s[0]], h.value), s[1..]);
      assert SetBack(hs + [h], Header(h.name + [s[0]], h.value)) == hs + [Header(h.name + [s[0]], h.value)];
      assert h.name + [s[0]] + s[1..] == h.name + s;
    }
  }

  lemma {:induction false} LeadsValue(r: RequestData, hs: seq<Header>, h: Header, s: string)
    requires ValueString(s)
    ensures Leads(Config(HeaderValue, r.(headers := hs + [h])), s, Config(HeaderValue, r.(headers := hs + [Header(h.name, h.value + s)])))
    decreases |s|
  {
    if s == [] {
      assert h.value + s == h.value;
    } else {
      assert !IsCtl(s[0]);
      LeadsValue(r, hs, Header(h.name, h.value + [s[0]]), s[1..]);
      assert SetBack(hs + [h], Header(h.name, h.value + [s[0]])) == hs + [Header(h.name, h.value + [s[0]])];
      assert h.value + [s[0]] + s[1..] == h.value + s;
    }
  }

  /** The number that digits lead to, starting from `start`. */
  function Eval(start: nat, digits: string): nat
    requires forall i :: 0 <= i < |digits| ==> IsDigit(digits[i])
    decreases |digits|
  {
    if digits == [] then start else Eval(start * 10 + Digit(digits[0]), digits[1..])
  }

  lemma {:induction false} EvalLast(start: nat, digits: string, c: char)
    requires forall i :: 0 <= i < |digits| ==> IsDigit(digits[i])
    requires IsDigit(c)
    ensures Eval(start, digits + [c]) == Eval(start, digits) * 10 + Digit(c)
    decreases |digits|
  {
    if digits == [] {
      assert (digits + [c])[1..] == [];
    } else {
      assert (digits + [c])[1..] == digits[1..] + [c];
      EvalLast(start * 10 + Digit(digits[0]), digits[1..], c);
    }
  }

  lemma {:induction false} EvalDecimal(n: nat)
    ensures Eval(0, Decimal(n)) == n
  {
    var last := ('0' as int + n % 10) as char;
    if n < 10 {
      EvalLast(0, [], last);
      assert [] + [last] == Decimal(n);
    } else {
      EvalDecimal(n / 10);
      EvalLast(0, Decimal(n / 10), last);
    }
  }

  lemma {:induction false} EvalGrows(start: nat, digits: string)
    requires forall i :: 0 <= i < |digits| ==> IsDigit(digits[i])
    ensures Eval(start, digits) >= start
    decreases |digits|
  {
    if digits != [] {
      EvalGrows(start * 10 + Digit(digits[0]), digits[1..]);
    }
  }

  lemma {:induction false} LeadsMajor(r: RequestData, ds: string, from: State)
    requires forall i :: 0 <= i < |ds| ==> IsDigit(ds[i])
    requires from == Major || (from == MajorStart && ds != [])
    requires Eval(r.major, ds) <= MAX_VERSION
    ensures Leads(Config(from, r), ds, Config(Major, r.(major := Eval(r.major, ds))))
    decreases |ds|
  {
    if ds != [] {
      EvalGrows(r.major * 10 + Digit(ds[0]), ds[1..]);
      LeadsMajor(r.(major := r.major * 10 + Digit(ds[0])), ds[1..], Major);
    }
  }

  lemma {:induction false} LeadsMinor(r: RequestData, ds: string, from: State)
    requires forall i :: 0 <= i < |ds| ==> IsDigit(ds[i])
    requires from == Minor || (from == MinorStart && ds != [])
    requires Eval(r.minor, ds) <= MAX_VERSION
    ensures Leads(Config(from, r), ds, Config(Minor, r.(minor := Eval(r.minor, ds))))
    decreases |ds|
  {
    if ds != [] {
      EvalGrows(r.minor * 10 + Digit(ds[0]), ds[1..]);
      LeadsMinor(r.(minor := r.minor * 10 + Digit(ds[0])), ds[1..], Minor);
    }
  }

  /** Digits of a number that is too large overflow, whatever follows them. */
  lemma {:induction false} MajorOverflows(r: RequestData, ds: string, from: State, more: string)
    requires forall i :: 0 <= i < |ds| ==> IsDigit(ds[i])
    requires (from == Major || from == MajorStart) && r.major <= MAX_VERSION < Eval(r.major, ds)
    ensures Feed(Config(from, r), ds + more).result == Overflow
    decreases |ds|
  {
    assert (ds + more)[1..] == ds[1..] + more;
    var next := r.major * 10 + Digit(ds[0]);
    if next <= MAX_VERSION {
      MajorOverflows(r.(major := next), ds[1..], Major, more);
    }
  }

  lemma {:induction false} MinorOverflows(r: RequestData, ds: string, from: State, more: string)
    requires forall i :: 0 <= i < |ds| ==> IsDigit(ds[i])
    requires (from == Minor || from == MinorStart) && r.minor <= MAX_VERSION < Eval(r.minor, ds)
    ensures Feed(Config(from, r), ds + more).result == Overflow
    decreases |ds|
  {
    assert (ds + more)[1..] == ds[1..] + more;
    var next := r.minor * 10 + Digit(ds[0]);
    if next <= MAX_VERSION {
      MinorOverflows(r.(minor := next), ds[1..], Minor, more);
    }
  }

  lemma LeadsTwo(g: Config, c: char, d: char)
    requires g.Fits() && Next(g.state, g.req.headers != [], c).Some? && !Overflows(g, c)
    requires var h := Step(g, c).config; Next(h.state, h.req.headers != [], d).Some? && !Overflows(h, d)
    ensures Leads(g, [c, d], Step(Step(g, c).config, d).config)
  {
    LeadsBy(g, c);
    LeadsBy(Step(g, c).config, d);
    LeadsTo(g, [c], Step(g, c).config, [d], Step(Step(g, c).config, d).config);
    assert [c] + [d] == [c, d];
  }

  lemma LeadsHttp(r: RequestData)
    ensures Leads(Config(Uri, r), " HTTP/", Config(MajorStart, r.(major := 0, minor := 0)))
  {
    LeadsTwo(Config(Uri, r), ' ', 'H');
    LeadsTwo(Config(VersionT1, r), 'T', 'T');
    LeadsTwo(Config(VersionP, r), 'P', '/');
    LeadsTo(Config(Uri, r), [' ', 'H'], Config(VersionT1, r), ['T', 'T'], Config(VersionP, r));
    LeadsTo(Config(Uri, r), [' ', 'H'] + ['T', 'T'], Config(VersionP, r), ['P', '/'], Config(MajorStart, r.(major := 0, minor := 0)));
    assert [' ', 'H'] + ['T', 'T'] + ['P', '/'] == " HTTP/";
  }

  /** The request line up to the version numbers. */
  function LineStart(r: RequestData): string {
    r.method_ + " " + r.uri + " HTTP/"
  }

  /** The request with its method and URI only. */
  function Named(r: RequestData): RequestData {
    EMPTY.(method_ := r.method_, uri := r.uri)
  }

  lemma LeadsLineStart(r: RequestData)
    requires WellFormedText(r)
    ensures Leads(Config(MethodStart, EMPTY), LineStart(r), Config(MajorStart, Named(r)))
  {
    hide Leads, TokenString, ValueString;
    var g, e := Config(MethodStart, EMPTY), EMPTY;
    var r1 := e.(method_ := r.method_);
    LeadsFirst(r.method_);
    LeadsBy(Config(Method, r1), ' ');
    LeadsTo(g, r.method_, Config(Method, r1), " ", Config(Uri, r1));
    LeadsUri(r1, r.uri);
    assert "" + r.uri == r.uri;
    LeadsTo(g, r.method_ + " ", Config(Uri, r1), r.uri, Config(Uri, Named(r)));
    LeadsHttp(Named(r));
    LeadsTo(g, r.method_ + " " + r.uri, Config(Uri, Named(r)), " HTTP/", Config(MajorStart, Named(r)));
  }

  lemma LeadsMajorNumber(r: RequestData)
    requires WellFormedText(r) && r.major <= MAX_VERSION
    ensures Leads(Config(MethodStart, EMPTY), LineStart(r) + Decimal(r.major) + ".", Config(MinorStart, Named(r).(major := r.major)))
  {
    hide Leads, Eval, Decimal, WellFormedText, LineStart;
    var g, r3 := Config(MethodStart, EMPTY), Named(r).(major := r.major);
    LeadsLineStart(r);
    EvalDecimal(r.major);
    LeadsMajor(Named(r), Decimal(r.major), MajorStart);
    LeadsTo(g, LineStart(r), Config(MajorStart, Named(r)), Decimal(r.major), Config(Major, r3));
    LeadsBy(Config(Major, r3), '.');
    LeadsTo(g, LineStart(r) + Decimal(r.major), Config(Major, r3), ".", Config(MinorStart, r3));
  }

  lemma LeadsRequestLine(r: RequestData)
    requires WellFormed(r)
    ensures Leads(Config(MethodStart, EMPTY), RequestLine(r), Config(HeaderLineStart, r.(headers := [])))
  {
    hide Leads, Eval, Decimal, WellFormedText;
    var g, r3, r4 := Config(MethodStart, EMPTY), Named(r).(major := r.major), r.(headers := []);
    var start := LineStart(r) + Decimal(r.major) + ".";
    LeadsMajorNumber(r);
    EvalDecimal(r.minor);
    LeadsMinor(r3, Decimal(r.minor), MinorStart);
    LeadsTo(g, start, Config(MinorStart, r3), Decimal(r.minor), Config(Minor, r4));
    LeadsTwo(Config(Minor, r4), '\r', '\n');
    LeadsTo(g, start + Decimal(r.minor), Config(Minor, r4), "\r\n", Config(HeaderLineStart, r4));
  }

  lemma LeadsFirst(s: string)
    requires s != [] && TokenString(s)
    ensures Leads(Config(MethodStart, EMPTY), s, Config(Method, EMPTY.(method_ := s)))
  {
    assert IsToken(s[0]);
    LeadsBy(Config(MethodStart, EMPTY), s[0]);
    LeadsMethod(EMPTY.(method_ := [s[0]]), s[1..]);
    LeadsTo(Config(MethodStart, EMPTY), [s[0]], Config(Method, EMPTY.(method_ := [s[0]])), s[1..], Config(Method, EMPTY.(method_ := [s[0]] + s[1..])));
    assert [s[0]] + s[1..] == s;
  }

  lemma LeadsColon(r: RequestData)
    requires r.headers != []
    ensures Leads(Config(HeaderName, r), ": ", Config(HeaderValue, r))
    ensures Leads(Config(HeaderValue, r), "\r\n", Config(HeaderLineStart, r))
  {
    LeadsTwo(Config(HeaderName, r), ':', ' ');
    LeadsTwo(Config(HeaderValue, r), '\r', '\n');
  }

  lemma LeadsFirstName(r: RequestData, name: string)
    requires name != [] && TokenString(name)
    ensures Leads(Config(HeaderLineStart, r), name, Config(HeaderName, r.(headers := r.headers + [Header(name, "")])))
  {
    var c := name[0];
    assert IsToken(c);
    var r0, r1 := r.(headers := r.headers + [Header([c], "")]), r.(headers := r.headers + [Header(name, "")]);
    LeadsBy(Config(HeaderLineStart, r), c);
    LeadsName(r, r.headers, Header([c], ""), name[1..]);
    assert [c] + name[1..] == name;
    LeadsTo(Config(HeaderLineStart, r), [c], Config(HeaderName, r0), name[1..], Config(HeaderName, r1));
  }

  lemma LeadsHeader(r: RequestData, h: Header)
    requires WellFormedHeader(h)
    ensures Leads(Config(HeaderLineStart, r), HeaderLine(h), Config(HeaderLineStart, r.(headers := r.headers + [h])))
  {
    hide Leads, TokenString, ValueString;
    var g, hs := Config(HeaderLineStart, r), r.headers;
    var r1 := r.(headers := hs + [Header(h.name, "")]);
    var r2 := r.(headers := hs + [h]);
    LeadsFirstName(r, h.name);
    LeadsColon(r1);
    LeadsTo(g, h.name, Config(HeaderName, r1), ": ", Config(HeaderValue, r1));
    LeadsValue(r, hs, Header(h.name, ""), h.value);
    assert "" + h.value == h.value;
    LeadsTo(g, h.name + ": ", Config(HeaderValue, r1), h.value, Config(HeaderValue, r2));
    LeadsColon(r2);
    LeadsTo(g, h.name + ": " + h.value, Config(HeaderValue, r2), "\r\n", Config(HeaderLineStart, r2));
  }

  lemma {:induction false} LeadsHeaders(r: RequestData, hs: seq<Header>)
    requires forall i :: 0 <= i < |hs| ==> WellFormedHeader(hs[i])
    ensures Leads(Config(HeaderLineStart, r), SerializeHeaders(hs), Config(HeaderLineStart, r.(headers := r.headers + hs)))
    decreases |hs|
  {
    if hs == [] {
      assert r.headers + hs == r.headers;
    } else {
      var r' := r.(headers := r.headers + [hs[0]]);
      LeadsHeader(r, hs[0]);
      LeadsHeaders(r', hs[1..]);
      assert r.headers + [hs[0]] + hs[1..] == r.headers + hs;
      LeadsTo(Config(HeaderLineStart, r), HeaderLine(hs[0]), Config(HeaderLineStart, r'), SerializeHeaders(hs[1..]),
              Config(HeaderLineStart, r.(headers := r.headers + hs)));
    }
  }

  /** Parsing a serialized well-formed request gives the same request, and the verdict falls on
      the last character: every strict prefix is indeterminate. */
  lemma RoundTrip(r: RequestData)
    requires WellFormed(r)
    ensures Feed(Config(MethodStart, EMPTY), Serialize(r)) == Outcome(Good, Config(Newline3, r), |Serialize(r)|)
    ensures forall n :: 0 <= n < |Serialize(r)| ==> Feed(Config(MethodStart, EMPTY), Serialize(r)[..n]).result == Indeterminate
  {
    var g, r0 := Config(MethodStart, EMPTY), r.(headers := []);
    LeadsRequestLine(r);
    LeadsHeaders(r0, r.headers);
    assert [] + r.headers == r.headers;
    var text := RequestLine(r) + SerializeHeaders(r.headers);
    LeadsTo(g, RequestLine(r), Config(HeaderLineStart, r0), SerializeHeaders(r.headers), Config(HeaderLineStart, r));
    assert Serialize(r) == text + "\r\n";
    FeedAppend(g, text, "\r\n");
    EndsGood(r);
    forall n | 0 <= n < |Serialize(r)|
      ensures Feed(g, Serialize(r)[..n]).result == Indeterminate
    {
      PrefixIndeterminate(g, Serialize(r), n);
    }
  }

  lemma EndsGood(r: RequestData)
    ensures Feed(Config(HeaderLineStart, r), "\r\n") == Outcome(Good, Config(Newline3, r), 2)
  {
    assert "\r\n"[1..] == "\n";
  }

  // ----- What is accepted -----

  /** Whatever was read so far can be part of a well-formed request. */
  ghost predicate SoFar(g: Config) {
    LineSoFar(g) && HeadersSoFar(g)
  }

  ghost predicate LineSoFar(g: Config) {
    && TokenString(g.req.method_) && (g.state == MethodStart || g.req.method_ != [])
    && UriString(g.req.uri)
    && g.req.major <= MAX_VERSION && g.req.minor <= MAX_VERSION
  }

  ghost predicate HeadersSoFar(g: Config) {
    g.Fits() && HeadersOk(g.req.headers)
  }

  lemma LongerMethodOk(s: string, c: char)
    ensures TokenString(s) && IsToken(c) ==> TokenString(s + [c])
  {
  }

  lemma LongerUriOk(s: string, c: char)
    ensures UriString(s) && !IsCtl(c) && c != ' ' ==> UriString(s + [c])
  {
  }

  lemma StepLineSoFar(g: Config, c: char)
    requires g.Fits() && LineSoFar(g)
    ensures LineSoFar(Step(g, c).config)
  {
    hide SetBack, Back, HeadersOk, TokenString, UriString, IsToken, IsCtl;
    LongerMethodOk(g.req.method_, c);
    LongerUriOk(g.req.uri, c);
  }

  lemma LongerNameOk(headers: seq<Header>, c: char)
    requires HeadersOk(headers) && headers != [] && IsToken(c)
    ensures HeadersOk(SetBack(headers, Header(Back(headers).name + [c], Back(headers).value)))
  {
    assert WellFormedHeader(Back(headers));
  }

  lemma LongerValueOk(headers: seq<Header>, c: char)
    requires HeadersOk(headers) && headers != [] && !IsCtl(c)
    ensures HeadersOk(SetBack(headers, Header(Back(headers).name, Back(headers).value + [c])))
  {
    assert WellFormedHeader(Back(headers));
  }

  lemma NewHeaderOk(headers: seq<Header>, c: char)
    requires HeadersOk(headers) && IsToken(c)
    ensures HeadersOk(headers + [Header([c], "")])
  {
  }

  lemma StepHeadersSoFar(g: Config, c: char)
    requires HeadersSoFar(g)
    ensures HeadersSoFar(Step(g, c).config)
  {
    hide HeadersOk, WellFormedHeader, SetBack, Back, IsToken, IsCtl, Overflows;
    var headers := g.req.headers;
    if IsToken(c) {
      NewHeaderOk(headers, c);
      if headers != [] {
        LongerNameOk(headers, c);
      }
    }
    if !IsCtl(c) && headers != [] {
      LongerValueOk(headers, c);
    }
  }

  lemma StepSoFar(g: Config, c: char)
    requires SoFar(g)
    ensures SoFar(Step(g, c).config)
  {
    hide LineSoFar;
    StepLineSoFar(g, c);
    StepHeadersSoFar(g, c);
  }

  lemma {:induction false} FeedSoFar(g: Config, w: string)
    requires SoFar(g)
    ensures SoFar(Feed(g, w).config)
    ensures Feed(g, w).result == Good ==> Feed(g, w).config.state == Newline3
    decreases |w|
  {
    hide LineSoFar, Next, Update;
    if w != [] {
      StepSoFar(g, w[0]);
      if Step(g, w[0]).result == Indeterminate {
        FeedSoFar(Step(g, w[0]).config, w[1..]);
      }
    }
  }

  /** Every accepted input gives a well-formed request, folded header lines and all; so parsing,
      serializing and parsing again gives what parsing gave. */
  lemma AcceptedIsWellFormed(w: string)
    requires Feed(Config(MethodStart, EMPTY), w).result == Good
    ensures var r := Feed(Config(MethodStart, EMPTY), w).config.req;
      WellFormed(r) && Feed(Config(MethodStart, EMPTY), Serialize(r)) == Outcome(Good, Config(Newline3, r), |Serialize(r)|)
  {
    FeedSoFar(Config(MethodStart, EMPTY), w);
    RoundTrip(Feed(Config(MethodStart, EMPTY), w).config.req);
  }

  /** Exactly the well-formed requests survive being serialized and parsed. */
  lemma RoundTripExactly(r: RequestData)
    ensures Feed(Config(MethodStart, EMPTY), Serialize(r)) == Outcome(Good, Config(Newline3, r), |Serialize(r)|) <==> WellFormed(r)
  {
    var o := Feed(Config(MethodStart, EMPTY), Serialize(r));
    if o.result == Good {
      AcceptedIsWellFormed(Serialize(r));
    }
    if WellFormed(r) {
      RoundTrip(r);
    }
  }

  /** What the size of the version numbers decides: a request that is well-formed otherwise is
      accepted exactly if both are at most MAX_VERSION, and else overflows. */
  lemma OverflowExactly(r: RequestData)
    requires WellFormedText(r)
    ensures Feed(Config(MethodStart, EMPTY), Serialize(r)).result == if r.major <= MAX_VERSION && r.minor <= MAX_VERSION then Good else Overflow
  {
    hide WellFormedText, Feed, Eval, Decimal, SerializeHeaders;
    var g, rest := Config(MethodStart, EMPTY), SerializeHeaders(r.headers) + "\r\n";
    if r.major > MAX_VERSION {
      var after := "." + Decimal(r.minor) + "\r\n" + rest;
      assert Serialize(r) == LineStart(r) + (Decimal(r.major) + after);
      LeadsLineStart(r);
      EvalDecimal(r.major);
      MajorOverflows(Named(r), Decimal(r.major), MajorStart, after);
      FeedAppend(g, LineStart(r), Decimal(r.major) + after);
    } else if r.minor > MAX_VERSION {
      var start := LineStart(r) + Decimal(r.major) + ".";
      assert Serialize(r) == start + (Decimal(r.minor) + ("\r\n" + rest));
      LeadsMajorNumber(r);
      EvalDecimal(r.minor);
      MinorOverflows(Named(r).(major := r.major), Decimal(r.minor), MinorStart, "\r\n" + rest);
      FeedAppend(g, start, Decimal(r.minor) + ("\r\n" + rest));
    } else {
      RoundTrip(r);
    }
  }
}
