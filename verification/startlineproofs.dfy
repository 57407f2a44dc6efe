/**
 * Reading back the start line the serialiser writes: a status line gives back
 * its version, status code and reason phrase, a request line its method, its
 * URI text and its version.
 *
 * Every matcher is unfolded by a lemma of its own from the run facts it needs;
 * the lemmas that put the steps together only chain those equalities.
 */
module StartLineRoundTrip {
  import opened Wrappers
  import opened Js
  import opened SipTypes
  import opened Grammar
  import opened Uris
  import opened MessageParsing
  import opened MessageText

  // ---------------------------------------------------------------- versions

  /** `\d+\.\d+`: digits, a dot, digits. */
  predicate VersionShape(v: string) {
    var i := IndexOf(v, '.');
    0 < i < |v| - 1 && All(v[..i], Digit) && All(v[i + 1..], Digit)
  }

  /** The version written for a message that has none. */
  lemma DefaultVersionShape()
    ensures VersionShape(VersionText(""))
  {
    var v := VersionText("");
    assert v == "2.0";
    assert v[0] != '.' && v[1] == '.';
    assert v[..1] == "2" && v[2..] == "0";
    assert InAt("2", 0, Digit) && InAt("0", 0, Digit);
  }

  /** The runs of digits on either side of the dot of a version. */
  lemma VersionRuns(v: string, rest: string)
    requires VersionShape(v) && (rest == [] || !IsDigit(rest[0]))
    ensures IndexOf(v, '.') < |v + rest|
    ensures Run(v + rest, Digit) == IndexOf(v, '.') && (v + rest)[IndexOf(v, '.')] == '.'
    ensures Run((v + rest)[IndexOf(v, '.') + 1..], Digit) == |v| - IndexOf(v, '.') - 1
  {
    var i := IndexOf(v, '.');
    var t := v + rest;
    assert t == v[..i] + (v[i..] + rest);
    RunOfConcat(v[..i], v[i..] + rest, Digit);
    assert t[i + 1..] == v[i + 1..] + rest;
    RunOfConcat(v[i + 1..], rest, Digit);
  }

  /** `Version` once the digits before the dot are known. */
  lemma VersionEnters(t: string, i: nat)
    requires 0 < i < |t| && Run(t, Digit) == i && t[i] == '.'
    ensures Version(t) == MinorAt(t, i + 1)
  {
  }

  /** `MinorAt` once the digits after the dot are known. */
  lemma MinorOf(t: string, b: nat, m: nat)
    requires b <= |t| && Run(t[b..], Digit) == m > 0
    ensures MinorAt(t, b) == b + m
  {
  }

  /** A version followed by anything but a digit is matched whole. */
  lemma VersionOf(v: string, rest: string)
    requires VersionShape(v) && (rest == [] || !IsDigit(rest[0]))
    ensures Version(v + rest) == |v|
  {
    var i := IndexOf(v, '.');
    VersionRuns(v, rest);
    VersionEnters(v + rest, i);
    MinorOf(v + rest, i + 1, |v| - i - 1);
  }

  /** A version the pattern takes whole has the shape of one. */
  lemma WholeVersionShape(v: string)
    requires 0 < Version(v) == |v|
    ensures VersionShape(v)
  {
    var d1 := Run(v, Digit);
    var d2 := Run(v[d1 + 1..], Digit);
    assert d1 < |v| && v[d1] == '.' && d1 + 1 + d2 == |v|;
    RunFacts(v, Digit);
    RunFacts(v[d1 + 1..], Digit);
    assert v[d1 + 1..][..d2] == v[d1 + 1..];
    var i := IndexOf(v, '.');
    assert i < d1 ==> InAt(v[..d1], i, Digit);
    assert i == d1;
  }

  /**
   * The version a message is written with: its own when the pattern
   * `\d+\.\d+` takes it whole, 2.0 when it has none.
   */
  predicate WritableVersion(version: string) {
    version == "" || 0 < Version(version) == |version|
  }

  lemma WrittenVersionShape(version: string)
    requires WritableVersion(version)
    ensures VersionShape(VersionText(version))
  {
    if version == "" {
      DefaultVersionShape();
    } else {
      WholeVersionShape(version);
    }
  }

  /** The written version is one the pattern takes whole. */
  lemma WrittenVersionWhole(version: string)
    requires WritableVersion(version)
    ensures 0 < Version(VersionText(version)) == |VersionText(version)|
  {
    if version == "" {
      DefaultVersionShape();
      assert VersionText(version) + [] == VersionText(version);
      VersionOf(VersionText(version), []);
    }
  }

  // ---------------------------------------------------------------- status lines

  /** A reason phrase that reads back unchanged: one line, not starting with white space. */
  predicate ReasonOk(reason: string) {
    All(reason, NotLineTerminator) && (reason == [] || !IsSpace(reason[0]))
  }

  /** The status line with its pieces: `SIP/`, the version, the code and the reason. */
  function StatusLineOf(v: string, d: string, reason: string): string {
    "SIP/" + v + " " + d + " " + reason
  }

  /** The digits of a status code, which no class but `\d` and `\S` takes. */
  lemma CodeDigits(status: nat)
    ensures NatToString(status) != [] && All(NatToString(status), Digit) && !IsSpace(NatToString(status)[0])
  {
    var d := NatToString(status);
    DigitsAreAll(d);
    assert DigitAt(d, 0);
  }

  // A status line is `SIP/`, the version, white space at `ve`, the code, white
  // space at `se` and the reason; the lemmas below name the pieces by those
  // two positions so that every step speaks of the same slices.

  /** `SIP/` and a version that ends at `ve`. */
  predicate StatusHead(line: string, ve: int) {
    4 < ve <= |line| && line[..4] == "SIP/" && Version(line[4..]) == ve - 4
  }

  /** One white-space character at `ve`, then the digits of the code up to `se`. */
  predicate StatusCode(line: string, ve: int, se: int) {
    4 < ve && ve + 1 < se < |line| && Spaces(line[ve..]) == 1 && Run(line[ve + 1..], Digit) == se - (ve + 1)
  }

  /** One white-space character at `se`, then the reason up to the end of the line. */
  predicate StatusReasonAt(line: string, se: int) {
    0 <= se < |line| && Spaces(line[se..]) == 1 && Run(line[se + 1..], NotLineTerminator) == |line| - (se + 1)
  }

  /** A status line whose white space is at `ve` and `se`. */
  predicate StatusLayout(line: string, ve: int, se: int) {
    StatusHead(line, ve) && StatusCode(line, ve, se) && StatusReasonAt(line, se)
  }

  /** The three groups of a line laid out as a status line. */
  function StatusPieces(line: string, ve: int, se: int): StatusLine
    requires 4 < ve && ve + 1 < se < |line|
  {
    StatusLine(line[4..ve], DigitsValue(line[ve + 1..se]), line[se + 1..])
  }

  /** The version of a written status line, right after `SIP/`. */
  lemma StatusVersionRuns(v: string, d: string, reason: string)
    requires VersionShape(v)
    ensures StatusHead(StatusLineOf(v, d, reason), 4 + |v|)
    ensures StatusLineOf(v, d, reason)[4..4 + |v|] == v
  {
    var line := StatusLineOf(v, d, reason);
    assert line[4..] == v + (" " + d + " " + reason);
    VersionOf(v, " " + d + " " + reason);
  }

  /** The white space and the digits of the code after the version. */
  lemma StatusCodeRuns(v: string, d: string, reason: string)
    requires VersionShape(v) && d != [] && All(d, Digit)
    ensures StatusCode(StatusLineOf(v, d, reason), 4 + |v|, 4 + |v| + 1 + |d|)
    ensures StatusLineOf(v, d, reason)[4 + |v| + 1..4 + |v| + 1 + |d|] == d
  {
    var line := StatusLineOf(v, d, reason);
    var ve := 4 + |v|;
    assert |v| > 0;
    assert line[ve..] == " " + (d + " " + reason);
    assert InAt(" ", 0, Space) && InAt(d, 0, Digit);
    RunOfConcat(" ", d + " " + reason, Space);
    assert line[ve + 1..] == d + (" " + reason);
    assert InAt(" ", 0, Digit) == false;
    RunOfConcat(d, " " + reason, Digit);
  }

  /** The white space and the reason phrase after the code, up to the end of the line. */
  lemma StatusReasonRuns(v: string, d: string, reason: string)
    requires ReasonOk(reason)
    ensures StatusReasonAt(StatusLineOf(v, d, reason), 4 + |v| + 1 + |d|)
    ensures StatusLineOf(v, d, reason)[4 + |v| + 1 + |d| + 1..] == reason
  {
    var line := StatusLineOf(v, d, reason);
    var se := 4 + |v| + 1 + |d|;
    assert line[se..] == " " + reason;
    assert InAt(" ", 0, Space);
    RunOfConcat(" ", reason, Space);
    assert line[se + 1..] == reason + [];
    RunOfConcat(reason, [], NotLineTerminator);
  }

  /** `MatchStatusLine` reaches what follows the version. */
  lemma StatusLineEnters(line: string, ve: int)
    requires StatusHead(line, ve)
    ensures MatchStatusLine(line) == StatusAfterVersion(line, ve)
  {
  }

  /** `StatusAfterVersion` reaches the reason once the white space and the code are known. */
  lemma StatusCodeEnters(line: string, ve: int, se: int)
    requires StatusCode(line, ve, se)
    ensures StatusAfterVersion(line, ve) == StatusReason(line, ve, ve + 1, se)
  {
  }

  /** `StatusReason` once the white space and the reason are known. */
  lemma StatusReasonOf(line: string, ve: int, sb: int, se: int)
    requires 4 < ve < sb < se && StatusReasonAt(line, se)
    ensures StatusReason(line, ve, sb, se) == Some(StatusLine(line[4..ve], DigitsValue(line[sb..se]), line[se + 1..]))
  {
    assert line[|line|..] == [];
    assert line[se + 1..|line|] == line[se + 1..];
  }

  /** What follows the version of a line laid out as a status line is matched as the groups. */
  lemma StatusTailMatched(line: string, ve: int, se: int)
    requires StatusCode(line, ve, se) && StatusReasonAt(line, se)
    ensures StatusAfterVersion(line, ve) == Some(StatusPieces(line, ve, se))
  {
    StatusCodeEnters(line, ve, se);
    StatusReasonOf(line, ve, ve + 1, se);
  }

  /** A line laid out as a status line is matched as its three groups. */
  lemma StatusLayoutMatched(line: string, ve: int, se: int)
    requires StatusLayout(line, ve, se)
    ensures MatchStatusLine(line) == Some(StatusPieces(line, ve, se))
  {
    StatusLineEnters(line, ve);
    StatusTailMatched(line, ve, se);
  }

  /** The layout of a written status line, and its groups. */
  lemma StatusLineFacts(line: string, ve: int, se: int, v: string, d: string, reason: string)
    requires VersionShape(v) && d != [] && All(d, Digit) && ReasonOk(reason)
    requires line == StatusLineOf(v, d, reason) && ve == 4 + |v| && se == ve + 1 + |d|
    ensures StatusLayout(line, ve, se) && line[4..ve] == v && line[ve + 1..se] == d && line[se + 1..] == reason
  {
    StatusVersionRuns(v, d, reason);
    StatusCodeRuns(v, d, reason);
    StatusReasonRuns(v, d, reason);
  }

  /** A written status line is matched as its version, its code and its reason. */
  lemma StatusLineOfReadsBack(v: string, d: string, reason: string)
    requires VersionShape(v) && d != [] && All(d, Digit) && ReasonOk(reason)
    ensures MatchStatusLine(StatusLineOf(v, d, reason)) == Some(StatusLine(v, DigitsValue(d), reason))
  {
    var line, ve := StatusLineOf(v, d, reason), 4 + |v|;
    var se := ve + 1 + |d|;
    StatusLineFacts(line, ve, se, v, d, reason);
    StatusLayoutReadsAs(line, ve, se, v, d, reason);
  }

  /** A line laid out as a status line with these groups is matched as them. */
  lemma StatusLayoutReadsAs(line: string, ve: int, se: int, v: string, d: string, reason: string)
    requires StatusLayout(line, ve, se) && line[4..ve] == v && line[ve + 1..se] == d && line[se + 1..] == reason
    ensures MatchStatusLine(line) == Some(StatusLine(v, DigitsValue(d), reason))
  {
    StatusLayoutMatched(line, ve, se);
  }

  /**
   * The status line of a response with a non-zero code reads back as a
   * response with that code and reason, and with the version it was written
   * with (2.0 for a response that had none).
   */
  lemma StatusLineReadsBack(m: Message)
    requires m.Response? && m.status > 0 && WritableVersion(m.version) && ReasonOk(m.reason)
    ensures StartLineText(m) == Some(StatusLineText(m.version, m.status, m.reason) + "\r\n")
    ensures StartLine(StatusLineText(m.version, m.status, m.reason))
         == Some(Response(m.status, m.reason, VersionText(m.version), [], ""))
  {
    var v := VersionText(m.version);
    var d := NatToString(m.status);
    WrittenVersionShape(m.version);
    CodeDigits(m.status);
    assert StatusLineText(m.version, m.status, m.reason) == StatusLineOf(v, d, m.reason);
    StatusLineOfReadsBack(v, d, m.reason);
    DigitsOfNatToString(m.status);
  }

  // ---------------------------------------------------------------- request lines

  /** The request line with its pieces: the method, the URI text and the version. */
  function RequestLineOf(methodName: string, uri: string, v: string): string {
    methodName + " " + uri + " SIP/" + v
  }

  /** No request line starts the way a status line does: a method has no `/`. */
  lemma RequestIsNoStatusLine(methodName: string, uri: string, v: string)
    requires methodName != [] && All(methodName, Token)
    ensures MatchStatusLine(RequestLineOf(methodName, uri, v)).None?
  {
    var line := RequestLineOf(methodName, uri, v);
    if |line| >= 4 {
      if |methodName| >= 4 {
        assert InAt(methodName, 3, Token);
        assert line[..4][3] == methodName[3];
        assert line[..4] != "SIP/";
      } else {
        assert line[|methodName|] == ' ';
        assert line[..4][|methodName|] != "SIP/"[|methodName|];
      }
    }
  }

  // A request line is the method, white space at `mn`, the URI, white space
  // at `ue`, `SIP`, a slash and the version; as for status lines, the pieces
  // are named by those two positions.

  /** A method that ends at `mn`, then white space. */
  predicate RequestHead(line: string, mn: int) {
    0 < mn < |line| && Run(line, Token) == mn && IsSpace(line[mn])
  }

  /** A URI from `mn + 1` to `ue`, then white space. */
  predicate RequestUriAt(line: string, mn: int, ue: int) {
    0 < mn && mn + 1 < ue < |line| && Run(line[mn + 1..], NonSpace) == ue - (mn + 1) && IsSpace(line[ue])
  }

  /** `SIP`, a slash and a version up to the end, after the white space at `ue`. */
  predicate RequestTail(line: string, ue: int) {
    0 <= ue && ue + 5 < |line| && line[ue + 1..ue + 4] == "SIP" && Slash(line[ue + 4..]) == 1
    && Version(line[ue + 5..]) == |line| - (ue + 5)
  }

  /** A request line whose white space is at `mn` and `ue`. */
  predicate RequestLayout(line: string, mn: int, ue: int) {
    RequestHead(line, mn) && RequestUriAt(line, mn, ue) && RequestTail(line, ue)
  }

  /** The three groups of a line laid out as a request line. */
  function RequestPieces(line: string, mn: int, ue: int): RequestLine
    requires 0 <= mn < ue && ue + 5 <= |line|
  {
    RequestLine(line[..mn], line[mn + 1..ue], line[ue + 5..|line|])
  }

  /** The method of a written request line, then one white-space character. */
  lemma RequestMethodRuns(line: string, mn: int, methodName: string, uri: string, v: string)
    requires methodName != [] && All(methodName, Token)
    requires line == RequestLineOf(methodName, uri, v) && mn == |methodName|
    ensures RequestHead(line, mn) && line[..mn] == methodName
  {
    assert line == methodName + (" " + uri + " SIP/" + v);
    RunOfConcat(methodName, " " + uri + " SIP/" + v, Token);
  }

  /** The URI of a written request line, then one white-space character. */
  lemma RequestUriRuns(line: string, mn: int, ue: int, methodName: string, uri: string, v: string)
    requires methodName != [] && uri != [] && All(uri, NonSpace)
    requires line == RequestLineOf(methodName, uri, v) && mn == |methodName| && ue == mn + 1 + |uri|
    ensures RequestUriAt(line, mn, ue) && line[mn + 1..ue] == uri
  {
    assert line[mn + 1..] == uri + (" SIP/" + v);
    assert !In(' ', NonSpace);
    RunOfConcat(uri, " SIP/" + v, NonSpace);
  }

  /** What follows the URI of a written request line. */
  lemma RequestSuffix(line: string, ue: int, methodName: string, uri: string, v: string)
    requires line == RequestLineOf(methodName, uri, v) && ue == |methodName| + 1 + |uri|
    ensures 0 <= ue <= |line| && line[ue..] == " SIP/" + v
  {
  }

  /** `SIP`, the slash and the version after white space, at the start of `q`. */
  lemma TailOf(q: string, v: string)
    requires VersionShape(v) && q == " SIP/" + v
    ensures RequestTail(q, 0) && q[5..|q|] == v
  {
    assert q[1..4] == "SIP";
    assert q[4..] == "/" + v;
    assert q[5..] == v;
    assert q[5..|q|] == v;
    SlashThenVersion(v);
  }

  /** `RequestTail` only looks at what follows `ue`. */
  lemma TailShift(line: string, ue: int, q: string)
    requires 0 <= ue <= |line| && line[ue..] == q && RequestTail(q, 0)
    ensures RequestTail(line, ue) && line[ue + 5..|line|] == q[5..|q|]
  {
    assert line[ue + 1..ue + 4] == q[1..4];
    assert line[ue + 4..] == q[4..];
    assert line[ue + 5..] == q[5..];
    assert line[ue + 5..|line|] == q[5..|q|];
  }

  /** `SIP`, the slash and the version at the end of a written request line. */
  lemma RequestVersionRuns(line: string, ue: int, methodName: string, uri: string, v: string)
    requires VersionShape(v)
    requires line == RequestLineOf(methodName, uri, v) && ue == |methodName| + 1 + |uri|
    ensures RequestTail(line, ue) && line[ue + 5..|line|] == v
  {
    RequestSuffix(line, ue, methodName, uri, v);
    TailOf(line[ue..], v);
    TailShift(line, ue, line[ue..]);
  }

  /** A version after a slash: the slash is one character and the version is read whole. */
  lemma SlashThenVersion(v: string)
    requires VersionShape(v)
    ensures Slash("/" + v) == 1 && Version(v) == |v|
  {
    assert IndexOf(v, '.') > 0;
    assert IsDigit(v[0]) by { assert InAt(v[..IndexOf(v, '.')], 0, Digit); }
    assert ("/" + v)[1..] == v;
    assert v + [] == v;
    VersionOf(v, []);
  }

  /** `MatchRequestLine` reaches the URI once the method run is known. */
  lemma RequestLineEnters(line: string, mn: int)
    requires RequestHead(line, mn)
    ensures MatchRequestLine(line) == RequestUri(line, mn)
  {
  }

  /** `RequestUri` reaches the version once the URI run is known. */
  lemma RequestUriEnters(line: string, mn: int, ue: int)
    requires RequestUriAt(line, mn, ue)
    ensures RequestUri(line, mn) == RequestVersion(line, mn, ue)
  {
    assert mn + 1 + Run(line[mn + 1..], NonSpace) == ue;
  }

  /** `RequestVersion` once `SIP`, the slash and the version are known. */
  lemma RequestVersionOf(line: string, mn: int, ue: int)
    requires 0 < mn < mn + 1 < ue && RequestTail(line, ue)
    ensures RequestVersion(line, mn, ue) == Some(RequestPieces(line, mn, ue))
  {
  }

  /** What follows the method of a line laid out as a request line is matched as the groups. */
  lemma RequestRestMatched(line: string, mn: int, ue: int)
    requires RequestUriAt(line, mn, ue) && RequestTail(line, ue)
    ensures RequestUri(line, mn) == Some(RequestPieces(line, mn, ue))
  {
    RequestUriEnters(line, mn, ue);
    RequestVersionOf(line, mn, ue);
  }

  /** A line laid out as a request line is matched as its three groups. */
  lemma RequestLayoutMatched(line: string, mn: int, ue: int)
    requires RequestLayout(line, mn, ue)
    ensures MatchRequestLine(line) == Some(RequestPieces(line, mn, ue))
  {
    RequestLineEnters(line, mn);
    RequestRestMatched(line, mn, ue);
  }

  /** The layout of a written request line, and its groups. */
  lemma RequestLineFacts(line: string, mn: int, ue: int, methodName: string, uri: string, v: string)
    requires methodName != [] && All(methodName, Token) && uri != [] && All(uri, NonSpace) && VersionShape(v)
    requires line == RequestLineOf(methodName, uri, v) && mn == |methodName| && ue == mn + 1 + |uri|
    ensures RequestLayout(line, mn, ue) && line[..mn] == methodName && line[mn + 1..ue] == uri && line[ue + 5..|line|] == v
  {
    RequestMethodRuns(line, mn, methodName, uri, v);
    RequestUriRuns(line, mn, ue, methodName, uri, v);
    RequestVersionRuns(line, ue, methodName, uri, v);
  }

  /** A written request line is matched as its method, its URI text and its version. */
  lemma RequestLineOfReadsBack(methodName: string, uri: string, v: string)
    requires methodName != [] && All(methodName, Token) && uri != [] && All(uri, NonSpace) && VersionShape(v)
    ensures MatchRequestLine(RequestLineOf(methodName, uri, v)) == Some(RequestLine(methodName, uri, v))
  {
    var line, mn := RequestLineOf(methodName, uri, v), |methodName|;
    var ue := mn + 1 + |uri|;
    RequestLineFacts(line, mn, ue, methodName, uri, v);
    RequestLayoutReadsAs(line, mn, ue, methodName, uri, v);
  }

  /** A line laid out as a request line with these groups is matched as them. */
  lemma RequestLayoutReadsAs(line: string, mn: int, ue: int, methodName: string, uri: string, v: string)
    requires RequestLayout(line, mn, ue) && line[..mn] == methodName && line[mn + 1..ue] == uri && line[ue + 5..|line|] == v
    ensures MatchRequestLine(line) == Some(RequestLine(methodName, uri, v))
  {
    RequestLayoutMatched(line, mn, ue);
  }

  /**
   * The request line of a request whose method is a token and whose URI text
   * has no white space reads back as a request with that method, that URI
   * text and the version it was written with.
   */
  lemma RequestLineReadsBack(m: Message)
    requires m.Request? && m.methodName != [] && All(m.methodName, Token) && WritableVersion(m.version)
    requires !m.uri.NoUri? && StringifyUriRef(m.uri).value != [] && All(StringifyUriRef(m.uri).value, NonSpace)
    ensures StartLineText(m) == Some(RequestLineText(m.methodName, StringifyUriRef(m.uri).value, m.version) + "\r\n")
    ensures StartLine(RequestLineText(m.methodName, StringifyUriRef(m.uri).value, m.version))
         == Some(Request(m.methodName, UriText(StringifyUriRef(m.uri).value), VersionText(m.version), [], ""))
  {
    var u := StringifyUriRef(m.uri).value;
    var v := VersionText(m.version);
    WrittenVersionShape(m.version);
    assert RequestLineText(m.methodName, u, m.version) == RequestLineOf(m.methodName, u, v);
    RequestIsNoStatusLine(m.methodName, u, v);
    RequestLineOfReadsBack(m.methodName, u, v);
  }
}
