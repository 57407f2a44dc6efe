/**
 * Reading a whole SIP message: `parse` splits the text into lines, reads the
 * start line and folds each header line into the header map; `parseMessage`
 * first cuts the text at the blank line and attaches the body, trimmed to the
 * Content-Length when there is one.
 */
module MessageParsing {
  import opened Wrappers
  import opened Js
  import opened SipTypes
  import opened Grammar
  import opened HeaderParsers

  // ---------------------------------------------------------------- lines

  /** A line separator of `split(/\r\n(?![ \t])/)` starts at `j`: CRLF not followed by a space or tab. */
  predicate BreakAt(t: string, j: int) {
    0 <= j && j + 2 <= |t| && t[j] == '\r' && t[j + 1] == '\n'
    && (j + 2 == |t| || (t[j + 2] != ' ' && t[j + 2] != '\t'))
  }

  /** The first separator of `t`, or `|t|` when there is none. */
  function LineBreak(t: string): (p: nat)
    ensures p <= |t|
    ensures p < |t| ==> BreakAt(t, p)
    ensures forall j :: 0 <= j < p ==> !BreakAt(t, j)
  {
    if |t| < 2 then |t|
    else if BreakAt(t, 0) then 0
    else
      var p := 1 + LineBreak(t[1..]);
      assert forall j :: 1 <= j < p ==> (BreakAt(t, j) <==> BreakAt(t[1..], j - 1));
      p
  }

  /** `String.prototype.split` with the line separator: a folded line (CRLF then space or tab) stays whole. */
  function SplitLines(t: string): (r: seq<string>)
    ensures |r| > 0
    decreases |t|
  {
    var p := LineBreak(t);
    if p == |t| then [t] else [t[..p]] + SplitLines(t[p + 2..])
  }

  /** Joining the lines with CRLF gives back the text. */
  lemma {:induction false} JoinSplitLines(t: string)
    ensures Join(SplitLines(t), "\r\n") == t
    decreases |t|
  {
    var p := LineBreak(t);
    if p < |t| {
      var rest := t[p + 2..];
      JoinSplitLines(rest);
      assert SplitLines(t) == [t[..p]] + SplitLines(rest);
      assert t == t[..p] + "\r\n" + rest;
    }
  }

  /** The part of a text before its first separator holds no separator of its own. */
  lemma LineHasNoBreak(t: string)
    ensures LineBreak(t[..LineBreak(t)]) == LineBreak(t)
  {
    var p := LineBreak(t);
    var l := t[..p];
    assert forall j :: 0 <= j < p ==> !BreakAt(l, j) by {
      forall j | 0 <= j < p && BreakAt(l, j) ensures BreakAt(t, j) {
      }
    }
  }

  /** No line produced by the split contains a separator. */
  lemma {:induction false} SplitLinesHaveNoBreak(t: string)
    ensures forall i :: 0 <= i < |SplitLines(t)| ==> LineBreak(SplitLines(t)[i]) == |SplitLines(t)[i]|
    decreases |t|
  {
    var p := LineBreak(t);
    if p < |t| {
      SplitLinesHaveNoBreak(t[p + 2..]);
      LineHasNoBreak(t);
      assert SplitLines(t) == [t[..p]] + SplitLines(t[p + 2..]);
    }
  }

  // ---------------------------------------------------------------- start line and header lines

  /**
   * `parseResponse(line) || parseRequest(line)`: a status line gives a response,
   * otherwise a request line gives a request whose URI is kept as text. The
   * message has no headers and no body yet.
   */
  function StartLine(line: string): (r: Option<Message>)
    ensures r.Some? ==> r.value.headers == [] && r.value.content == ""
    ensures r.Some? ==> (r.value.Response? <==> MatchStatusLine(line).Some?)
    ensures r.None? <==> MatchStatusLine(line).None? && MatchRequestLine(line).None?
  {
    match MatchStatusLine(line)
    case Some(sl) => Some(Response(sl.status, sl.reason, sl.version, [], ""))
    case None =>
      match MatchRequestLine(line)
      case Some(rl) => Some(Request(rl.methodName, UriText(rl.uri), rl.version, [], ""))
      case None => None
  }

  /** Every key is a normal header name: in lower case or a long form, never a compact form. */
  ghost predicate NormalKeys(h: Headers) {
    forall k :: HasKey(h, k) ==> !IsCompact(k) && (IsLower(k) || IsLongForm(k))
  }

  /** The key a raw header name is stored under: unescaped, lower-cased, a compact form expanded. */
  function HeaderName(raw: string): (r: string)
    ensures !IsCompact(r) && (IsLower(r) || IsLongForm(r))
    ensures !IsCompact(Lower(Unescape(raw))) ==> r == Lower(Unescape(raw))
    ensures '%' !in raw && !IsCompact(Lower(raw)) ==> r == Lower(raw)
  {
    CompactFormExpands(Lower(Unescape(raw)));
    LowerTwice(Unescape(raw));
    CompactForm(Lower(Unescape(raw)))
  }

  /** A name written with every character escaped as `%XX` is stored under the same key as the plain name. */
  lemma EscapedNameIsUnescaped(name: string)
    requires '%' !in name && forall i :: 0 <= i < |name| ==> name[i] as int < 256
    ensures HeaderName(PercentEscaped(name)) == HeaderName(name)
  {
    UnescapePercentEscaped(name);
  }



  /** The Content-Length slot is absent or holds a number. */
  predicate LengthIsNumber(h: Headers) {
    Lookup(h, "content-length").None? || Lookup(h, "content-length").value.Number?
  }

  /**
   * `m.headers[name] = parser(value, m.headers[name])` inside its `try`: the
   * header is set to what the parser returns, or left as it was when the parser
   * throws. No other header changes.
   */
  function AssignHeader(h: Headers, name: string, value: string): (r: Headers)
    ensures forall k :: k != name ==> Lookup(r, k) == Lookup(h, k)
    ensures HasKey(r, name) ==> HasKey(h, name) || |r| == |h| + 1
    ensures name == "content-length" ==> Lookup(r, name) == Some(Number(ToNumber(value)))
    ensures LengthIsNumber(h) ==> LengthIsNumber(r)
  {
    match HeaderValueOf(name, value, Lookup(h, name))
    case None => h
    case Some(v) => Put(h, name, v)
  }

  /** The header loop of `parse` over the lines after the start line; `None` when a line is not a header. */
  function HeaderLines(lines: seq<string>, h: Headers): (r: Option<Headers>)
    ensures r.None? ==> exists i :: 0 <= i < |lines| && MatchHeaderLine(lines[i]).None?
    decreases |lines|
  {
    if lines == [] then Some(h)
    else
      match HeaderLine(lines[0], h)
      case None => None
      case Some(h') =>
        var r := HeaderLines(lines[1..], h');
        assert r.None? ==> exists i :: 1 <= i < |lines| && lines[i] == lines[1..][i - 1] && MatchHeaderLine(lines[i]).None?;
        r
  }

  /** One header line assigned to `h`; `None` when the line is not `name: value`. */
  function HeaderLine(line: string, h: Headers): (r: Option<Headers>)
    ensures r.None? <==> MatchHeaderLine(line).None?
  {
    match MatchHeaderLine(line)
    case None => None
    case Some((raw, value)) => Some(AssignHeader(h, HeaderName(raw), value))
  }

  /** `parse(text)`: the message, or `None` where the source returns `undefined`. */
  function ParseText(text: string): (r: Option<Message>)
    ensures r.Some? ==> r.value.content == ""
  {
    var lines := SplitLines(text);
    if lines[0] == "" then None
    else
      match StartLine(lines[0])
      case None => None
      case Some(start) =>
        match HeaderLines(lines[1..], [])
        case None => None
        case Some(h) => Some(WithHeaders(start, h))
  }

  /** One turn of the header loop, for the line at the head of `lines`. */
  lemma HeaderLinesStep(lines: seq<string>, h: Headers, raw: string, value: string)
    requires lines != [] && MatchHeaderLine(lines[0]) == Some((raw, value))
    ensures HeaderLines(lines, h) == HeaderLines(lines[1..], AssignHeader(h, HeaderName(raw), value))
  {
  }

  /** `parse`, the way the source does it: the start line, then the header lines. */
  method Parse(text: string) returns (m: Option<Message>)
    ensures m == ParseText(text)
  {
    var lines := SplitLines(text);
    if lines[0] == "" {
      return None;
    }
    var start := StartLine(lines[0]);
    if start.None? {
      return None;
    }
    var h := ParseHeaderLines(lines[1..]);
    if h.None? {
      return None;
    }
    m := Some(WithHeaders(start.value, h.value));
  }

  /** The loop of `parse` that assigns each header line in turn; `None` at the first line that is not a header. */
  method ParseHeaderLines(lines: seq<string>) returns (r: Option<Headers>)
    ensures r == HeaderLines(lines, [])
  {
    var h: Headers := [];
    var i := 0;
    while i < |lines|
      invariant 0 <= i <= |lines|
      invariant HeaderLines(lines[i..], h) == HeaderLines(lines, [])
    {
      var line := MatchHeaderLine(lines[i]);
      if line.None? {
        assert lines[i..][0] == lines[i];
        return None;
      }
      var name := HeaderName(line.value.0);
      var v := ParseHeaderValue(name, line.value.1, Lookup(h, name));
      HeaderLinesStep(lines[i..], h, line.value.0, line.value.1);
      assert lines[i..][1..] == lines[i + 1..];
      AssignOf(h, name, line.value.1, v);
      if v.Some? {
        h := Put(h, name, v.value);
      }
      i := i + 1;
    }
    assert lines[i..] == [];
    return Some(h);
  }

  /** What the loop of `parse` does with a parsed header value is the assignment `AssignHeader` makes. */
  lemma {:induction false} AssignOf(h: Headers, name: string, value: string, v: Option<HeaderValue>)
    requires v == HeaderValueOf(name, value, Lookup(h, name))
    ensures v.None? ==> AssignHeader(h, name, value) == h
    ensures v.Some? ==> AssignHeader(h, name, value) == Put(h, name, v.value)
  {
  }

  // ---------------------------------------------------------------- what parse promises

  /** Assigning a header keeps the keys normal. */
  lemma AssignKeepsNormalKeys(h: Headers, raw: string, value: string)
    requires NormalKeys(h)
    ensures NormalKeys(AssignHeader(h, HeaderName(raw), value))
  {
    var name := HeaderName(raw);
    var r := AssignHeader(h, name, value);
    forall k | HasKey(r, k) ensures !IsCompact(k) && (IsLower(k) || IsLongForm(k)) {
      if k != name {
        assert HasKey(h, k);
      }
    }
  }

  lemma {:induction false} HeaderLinesNormalKeys(lines: seq<string>, h: Headers)
    requires NormalKeys(h)
    ensures HeaderLines(lines, h).Some? ==> NormalKeys(HeaderLines(lines, h).value)
    decreases |lines|
  {
    if lines != [] && MatchHeaderLine(lines[0]).Some? {
      var (raw, value) := MatchHeaderLine(lines[0]).value;
      AssignKeepsNormalKeys(h, raw, value);
      HeaderLinesNormalKeys(lines[1..], AssignHeader(h, HeaderName(raw), value));
    }
  }

  /** Every header of a parsed message is stored under a normal name: lower case, compact forms expanded. */
  lemma ParsedKeysAreNormal(text: string)
    ensures ParseText(text).Some? ==> NormalKeys(ParseText(text).value.headers)
  {
    var lines := SplitLines(text);
    assert NormalKeys([]);
    HeaderLinesNormalKeys(lines[1..], []);
  }

  lemma {:induction false} HeaderLinesLengthIsNumber(lines: seq<string>, h: Headers)
    requires LengthIsNumber(h)
    ensures HeaderLines(lines, h).Some? ==> LengthIsNumber(HeaderLines(lines, h).value)
    decreases |lines|
  {
    if lines != [] && HeaderLine(lines[0], h).Some? {
      LineKeepsLengthNumber(lines[0], h);
      HeaderLinesLengthIsNumber(lines[1..], HeaderLine(lines[0], h).value);
    }
  }

  lemma LineKeepsLengthNumber(line: string, h: Headers)
    requires LengthIsNumber(h) && HeaderLine(line, h).Some?
    ensures LengthIsNumber(HeaderLine(line, h).value)
  {
    var (raw, value) := MatchHeaderLine(line).value;
    assert HeaderLine(line, h).value == AssignHeader(h, HeaderName(raw), value);
  }

  /** A parsed message's Content-Length, when it has one, is a number (`+v.s`). */
  lemma ParsedLengthIsNumber(text: string)
    ensures ParseText(text).Some? ==> LengthIsNumber(ParseText(text).value.headers)
  {
    var lines := SplitLines(text);
    HeaderLinesLengthIsNumber(lines[1..], []);
  }

  lemma {:induction false} HeaderLinesRejectLine(lines: seq<string>, h: Headers, i: nat)
    requires i < |lines| && MatchHeaderLine(lines[i]).None?
    ensures HeaderLines(lines, h) == None
    decreases i
  {
    var step := HeaderLine(lines[0], h);
    if i > 0 && step.Some? {
      assert lines[1..][i - 1] == lines[i];
      HeaderLinesRejectLine(lines[1..], step.value, i - 1);
    }
  }

  /** One line after the start line that is not `name: value` makes the whole message unreadable. */
  lemma ParseRejectsBadHeaderLine(text: string, i: nat)
    requires 1 <= i < |SplitLines(text)| && MatchHeaderLine(SplitLines(text)[i]).None?
    ensures ParseText(text) == None
  {
    var lines := SplitLines(text);
    assert lines[1..][i - 1] == lines[i];
    HeaderLinesRejectLine(lines[1..], [], i - 1);
  }

  /**
   * A header without a parser of its own that appears on two lines is kept
   * once, at the place of its first line, with the two values joined by a comma.
   */
  lemma RepeatedHeaderJoins(l1: string, l2: string, h: Headers, raw1: string, raw2: string, a: string, b: string)
    requires MatchHeaderLine(l1) == Some((raw1, a)) && MatchHeaderLine(l2) == Some((raw2, b))
    requires HeaderName(raw1) == HeaderName(raw2) && !Structured(HeaderName(raw1))
    requires !HasKey(h, HeaderName(raw1)) && a != ""
    ensures HeaderLines([l1, l2], h) == Some(h + [(HeaderName(raw1), Text(a + "," + b))])
  {
    var name := HeaderName(raw1);
    var h1 := AssignHeader(h, name, a);
    assert h1 == h + [(name, Text(a))];
    HeaderLinesStep([l1, l2], h, raw1, a);
    assert [l1, l2][1..] == [l2];
    HeaderLinesStep([l2], h1, raw2, b);
    assert [l2][1..] == [];
    assert Lookup(h1, name) == Some(Text(a));
    PutReplacesLast(h, name, Text(a), Text(a + "," + b));
  }

  /** Assigning the key that was appended last replaces its value in place. */
  lemma {:induction false} PutReplacesLast<V>(h: Dict<V>, k: string, v: V, w: V)
    requires !HasKey(h, k)
    ensures Put(h + [(k, v)], k, w) == h + [(k, w)]
    decreases |h|
  {
    if h != [] {
      assert (h + [(k, v)])[1..] == h[1..] + [(k, v)];
      PutReplacesLast(h[1..], k, v, w);
      assert [h[0]] + (h[1..] + [(k, w)]) == h + [(k, w)];
    }
  }

  // ---------------------------------------------------------------- whole messages

  /** The blank line CRLF CRLF starts at `j`. */
  predicate BlankAt(s: string, j: int) {
    0 <= j && j + 4 <= |s| && s[j] == '\r' && s[j + 1] == '\n' && s[j + 2] == '\r' && s[j + 3] == '\n'
  }

  /** The first blank line at or after `i`, or `|s|`. */
  function FindBlank(s: string, i: nat): (j: nat)
    requires i <= |s|
    ensures i <= j <= |s|
    ensures j < |s| ==> BlankAt(s, j)
    ensures forall k :: i <= k < j ==> !BlankAt(s, k)
    decreases |s| - i
  {
    if i + 4 > |s| then |s| else if BlankAt(s, i) then i else FindBlank(s, i + 1)
  }

  /** The last blank line that starts before `w`. */
  function LastBlankBelow(s: string, w: nat): (r: Option<nat>)
    requires w <= |s|
    ensures r.Some? ==> r.value < w && BlankAt(s, r.value)
    ensures r.Some? ==> forall k :: r.value < k < w ==> !BlankAt(s, k)
    ensures r.None? ==> forall k :: 0 <= k < w ==> !BlankAt(s, k)
    decreases w
  {
    if w == 0 then None else if BlankAt(s, w - 1) then Some(w - 1) else LastBlankBelow(s, w - 1)
  }

  /** A match of the framing expression: the head is `s[start..end]`, the rest follows the blank line at `end`. */
  datatype Frame = Frame(start: nat, end: nat)

  /**
   * `/^\s*([\S\s]*?)\r\n\r\n([\S\s]*)$/`. The leading white space is skipped and
   * the head runs to the first blank line after it. When every blank line lies
   * inside the leading white space, backtracking gives back white space up to
   * the last of them and the head is empty.
   */
  function FrameMatch(s: string): (r: Option<Frame>)
    ensures r.None? <==> forall k :: 0 <= k < |s| ==> !BlankAt(s, k)
    ensures r.Some? ==> r.value.start <= r.value.end && BlankAt(s, r.value.end)
    ensures r.Some? ==> forall k :: 0 <= k < r.value.start ==> IsSpace(s[k])
    ensures r.Some? ==> forall k :: r.value.start <= k < r.value.end ==> !BlankAt(s, k)
  {
    var w := SkipSpace(s, 0);
    var p := FindBlank(s, w);
    if p < |s| then Some(Frame(w, p))
    else
      match LastBlankBelow(s, w)
      case Some(q) => Some(Frame(q, q))
      case None => None
  }

  /**
   * The body kept by `parseMessage`: a Content-Length that is a non-zero number
   * cuts the rest to that many characters (none when it is negative); a missing,
   * zero or NaN length keeps all of it.
   */
  function BodyOf(length: Option<HeaderValue>, rest: string): (r: string)
    ensures r <= rest
    ensures length == Some(Number(Num(|rest|))) ==> r == rest
    ensures length.Some? && length.value.Number? && length.value.num.Num? && 0 < length.value.num.value <= |rest|
      ==> |r| == length.value.num.value
    ensures length.Some? && length.value.Number? && length.value.num.Num? && length.value.num.value < 0 ==> r == ""
  {
    match length
    case Some(Number(Num(n))) =>
      if n == 0 then rest
      else
        var c := if n < 0 then 0 else if n < |rest| then n else |rest|;
        rest[..c]
    case _ => rest
  }

  /** `parseMessage(s)`: the head is parsed, the body attached; `None` where the source returns `undefined`. */
  function ParseMessage(s: string): (r: Option<Message>)
    ensures r.Some? ==> FrameMatch(s).Some?
    ensures r.Some? ==> r.value.content <= s[FrameMatch(s).value.end + 4..]
    ensures r.Some? ==> NormalKeys(r.value.headers)
  {
    match FrameMatch(s)
    case None => None
    case Some(f) =>
      ParsedKeysAreNormal(s[f.start..f.end]);
      match ParseText(s[f.start..f.end])
      case None => None
      case Some(m) =>
        var rest := s[f.end + 4..];
        Some(m.(content := BodyOf(Lookup(m.headers, "content-length"), rest)))
  }
}
