/**
 * Writing a SIP message: `stringify` writes the start line, stamps the
 * Content-Length header with the length of the body, writes every header in
 * key order (through the header's own stringifier when it has one and the
 * value is not plain text) and appends the blank line and the body.
 *
 * `None` is a write that throws in the source: a missing URI, or a value whose
 * shape its header's stringifier cannot handle. It also stands for the few
 * values of another header's shape that the source writes field by field
 * (an address under Authentication-Info, an element of a list that
 * is neither a Via entry nor an address under Via, or that is not an
 * authentication header under one), which the model does not write.
 */
module MessageText {
  import opened Wrappers
  import opened Js
  import opened SipTypes
  import opened Parameters
  import opened Uris

  // ---------------------------------------------------------------- header names

  /** `\b` before position `k` of a header name, where `k` holds a word character. */
  predicate WordStart(s: string, k: int) {
    0 <= k < |s| && (k == 0 || !IsWordChar(s[k - 1]))
  }

  /** `s.replace(/\b([a-z])/g, toUpperCase)`: each lower-case letter that starts a word is raised. */
  function Capitalized(s: string): (r: string)
    ensures |r| == |s|
    ensures forall k :: 0 <= k < |s| ==> r[k] == if WordStart(s, k) then UpperChar(s[k]) else s[k]
    decreases |s|
  {
    if s == [] then []
    else
      var init := s[..|s| - 1];
      var last := if WordStart(s, |s| - 1) then UpperChar(s[|s| - 1]) else s[|s| - 1];
      assert forall k :: 0 <= k < |init| ==> (WordStart(init, k) <==> WordStart(s, k));
      Capitalized(init) + [last]
  }

  /** `prettifyHeaderName`: the header name as it is written on the wire. */
  function PrettifyHeaderName(name: string): (r: string)
    ensures |r| == |name|
  {
    if name == "call-id" then "Call-ID" else Capitalized(name)
  }

  /** Lower-casing a written header name gives back the stored name. */
  lemma PrettifyLowersBack(name: string)
    requires IsLower(name)
    ensures Lower(PrettifyHeaderName(name)) == name
  {
    if name == "call-id" {
      CallIdLowersBack();
    } else {
      CapitalizedLowersBack(name);
    }
  }

  /** Raising the first letter of each word is undone by lower-casing, on a lower-case name. */
  lemma CapitalizedLowersBack(name: string)
    requires IsLower(name)
    ensures Lower(Capitalized(name)) == name
  {
    var r := Capitalized(name);
    forall k | 0 <= k < |name| ensures Lower(r)[k] == name[k] {
      assert Lower(name)[k] == name[k];
      UpperLowersBack(name[k]);
    }
  }

  lemma UpperLowersBack(c: char)
    requires LowerChar(c) == c
    ensures LowerChar(UpperChar(c)) == c
  {
  }

  lemma CallIdLowersBack()
    ensures Lower("Call-ID") == "call-id"
  {
    var r := Lower("Call-ID");
    assert r[0] == 'c' && r[5] == 'i' && r[6] == 'd';
  }

  lemma ContentLengthName()
    ensures PrettifyHeaderName("content-length") == "Content-Length"
  {
    var r := PrettifyHeaderName("content-length");
    assert WordStart("content-length", 0) && WordStart("content-length", 8);
    assert forall k :: 0 <= k < 14 && k != 0 && k != 8 ==> !WordStart("content-length", k);
  }

  // ---------------------------------------------------------------- values

  /** `stringifyVersion`: a missing version is written as 2.0. */
  function VersionText(v: string): (r: string)
    ensures r != ""
  {
    if v == "" then "2.0" else v
  }

  /** A text that ends with a line end. */
  predicate EndsWithCrlf(s: string) {
    |s| >= 2 && s[|s| - 2] == '\r' && s[|s| - 1] == '\n'
  }

  /** Text that is empty or ends with a line end: what every header writes. */
  predicate WholeLines(s: string) {
    s == "" || EndsWithCrlf(s)
  }

  /** Appending whole lines to whole lines gives whole lines. */
  lemma WholeLinesAppend(a: string, b: string)
    requires WholeLines(a) && WholeLines(b)
    ensures WholeLines(a + b)
  {
    if b != "" {
      assert (a + b)[|a + b| - 2] == b[|b| - 2] && (a + b)[|a + b| - 1] == b[|b| - 1];
    }
  }

  /** One header line `Name: value` and its line end. */
  function Line(name: string, value: string): (r: string)
    ensures EndsWithCrlf(r)
  {
    name + ": " + value + "\r\n"
  }

  /** `String(v)`: what the generic rule writes for a value. Objects print as `[object Object]`. */
  function ValueString(v: HeaderValue): (r: string)
    ensures r == "" <==> v == Text("") || v == List([])
    ensures v.Text? ==> r == v.text
  {
    match v
    case Undefined => "undefined"
    case Text(s) => s
    case Number(x) => NumberToString(x)
    case List(items) => Join(seq(|items|, _ => "[object Object]"), ",")
    case _ => "[object Object]"
  }

  /** `stringifyAOR`: optional display name, the URI in angle brackets, then the parameters. */
  function AorText(a: Aor): (r: Option<string>)
    ensures r.None? <==> a.uri.NoUri?
  {
    match StringifyUriRef(a.uri)
    case None => None
    case Some(u) => Some(a.name.GetOr("") + " <" + u + ">" + StringifyParams(a.params))
  }

  /** `h.map(stringifyAOR).join(', ')` over the elements of an address list. */
  function AorsText(items: seq<Item>): (r: Option<string>)
    ensures r.Some? <==> forall i :: 0 <= i < |items| ==> items[i].AorItem? && !items[i].aor.uri.NoUri?
    ensures r.Some? && items != [] ==> r.value != ""
  {
    if items == [] then Some("")
    else if !items[0].AorItem? then None
    else
      match AorText(items[0].aor)
      case None => None
      case Some(first) =>
        if |items| == 1 then Some(first)
        else
          match AorsText(items[1..])
          case None => None
          case Some(rest) => Some(first + ", " + rest)
  }

  /** The address list is written as the text of each address, in order, joined by `, `. */
  lemma {:induction false} AorsTextJoins(items: seq<Item>, texts: seq<string>)
    requires |texts| == |items|
    requires forall i :: 0 <= i < |items| ==> items[i].AorItem? && AorText(items[i].aor) == Some(texts[i])
    ensures AorsText(items) == Some(Join(texts, ", "))
    decreases |items|
  {
    if |items| > 1 {
      AorsTextJoins(items[1..], texts[1..]);
    }
  }

  /** The value of a Via line: `SIP/version/PROTOCOL host[:port]` and the parameters. */
  function ViaValue(v: Via): (r: string)
    ensures |r| > 6 && r[..4] == "SIP/"
  {
    "SIP/" + VersionText(v.version) + "/" + Upper(v.protocol) + " " + v.host + PortText(v.port) + StringifyParams(v.params)
  }

  /** One Via line; an entry without a host is skipped. */
  function ViaLine(v: Via): (r: string)
    ensures r == "" <==> v.host == ""
    ensures r != "" ==> r == Line("Via", ViaValue(v))
    ensures WholeLines(r)
  {
    if v.host == "" then "" else Line("Via", ViaValue(v))
  }

  /**
   * What the Via stringifier writes for one element of the list: a Via entry
   * its line; an address, which has no `host`, nothing; an authentication
   * header nothing unless it has a `host` field, which is not modelled.
   */
  function ViaItemText(item: Item): (r: Option<string>)
    ensures r.Some? ==> WholeLines(r.value)
    ensures item.ViaItem? ==> r == Some(ViaLine(item.via))
    ensures item.AorItem? ==> r == Some("")
  {
    match item
    case ViaItem(v) => Some(ViaLine(v))
    case AorItem(_) => Some("")
    case AuthItem(a) => if Lookup(a, "host").None? || Lookup(a, "host") == Some("") then Some("") else None
  }

  /** The Via lines of a Via list, in order. */
  function ViasText(items: seq<Item>): (r: Option<string>)
    ensures r.Some? ==> WholeLines(r.value)
    ensures (forall i :: 0 <= i < |items| ==> !items[i].AuthItem?) ==> r.Some?
    ensures r.Some? <==> forall i :: 0 <= i < |items| ==> ViaItemText(items[i]).Some?
    ensures r.Some? && items != [] ==>
      ViasText(items[1..]).Some? && r.value == ViaItemText(items[0]).value + ViasText(items[1..]).value
  {
    if items == [] then Some("")
    else
      match ViaItemText(items[0])
      case None => None
      case Some(first) =>
        match ViasText(items[1..])
        case None => None
        case Some(rest) =>
          WholeLinesAppend(first, rest);
          Some(first + rest)
  }

  /** The `name=value` pairs of an authentication header, every field but the scheme, in key order. */
  function AuthPairs(a: AuthFields): (r: seq<string>)
    ensures |r| == |Remove(a, "scheme")|
    ensures forall i :: 0 <= i < |r| ==> r[i] == Remove(a, "scheme")[i].0 + "=" + Remove(a, "scheme")[i].1
  {
    if a == [] then []
    else if a[0].0 == "scheme" then AuthPairs(a[1..])
    else [a[0].0 + "=" + a[0].1] + AuthPairs(a[1..])
  }

  /** `stringifyAuthHeader`: the scheme, a space and the pairs joined by commas; no scheme, just the pairs. */
  function AuthText(a: AuthFields): (r: string)
    ensures Lookup(a, "scheme").Some? && Lookup(a, "scheme").value != "" ==>
      var scheme := Lookup(a, "scheme").value; |scheme| < |r| && r[..|scheme|] == scheme && r[|scheme|] == ' '
    ensures Lookup(a, "scheme").None? ==> r == Join(AuthPairs(a), ",")
  {
    var pairs := Join(AuthPairs(a), ",");
    match Lookup(a, "scheme")
    case Some(scheme) => if scheme != "" then scheme + " " + pairs else pairs
    case None => pairs
  }

  /** One `Name: credentials` line per element of an authentication header list. */
  function AuthsText(name: string, items: seq<Item>): (r: Option<string>)
    ensures r.Some? ==> WholeLines(r.value)
    ensures r.Some? <==> forall i :: 0 <= i < |items| ==> items[i].AuthItem?
    ensures r.Some? && items != [] ==>
      AuthsText(name, items[1..]).Some? && r.value == Line(name, AuthText(items[0].auth)) + AuthsText(name, items[1..]).value
  {
    if items == [] then Some("")
    else if !items[0].AuthItem? then None
    else
      match AuthsText(name, items[1..])
      case None => None
      case Some(rest) =>
        var line := Line(name, AuthText(items[0].auth));
        WholeLinesAppend(line, rest);
        Some(line + rest)
  }

  /**
   * The fields a `for ... in` loop sees on an array of `n` objects: each index,
   * with the object written as `String` writes it.
   */
  function IndexFields(n: nat): (r: AuthFields)
    ensures |r| == n && Lookup(r, "scheme").None?
    ensures forall i :: 0 <= i < n ==> r[i] == (NatToString(i), "[object Object]")
  {
    if n == 0 then []
    else
      var r := IndexFields(n - 1) + [(NatToString(n - 1), "[object Object]")];
      assert DigitAt(NatToString(n - 1), 0);
      LookupAppend(IndexFields(n - 1), NatToString(n - 1), "[object Object]", "scheme");
      r
  }

  /** Looking a key up past the end of a dictionary that lacks it finds the appended pair only. */
  lemma {:induction false} LookupAppend(d: AuthFields, k: string, v: string, key: string)
    requires Lookup(d, key).None? && k != key
    ensures Lookup(d + [(k, v)], key).None?
    decreases |d|
  {
    if d != [] {
      assert (d + [(k, v)])[1..] == d[1..] + [(k, v)];
      LookupAppend(d[1..], k, v, key);
    }
  }

  // ---------------------------------------------------------------- the stringifiers table

  predicate HasStringifier(name: string) {
    name in {"via", "to", "from", "contact", "route", "record-route", "path", "cseq", "www-authenticate",
      "proxy-authenticate", "authorization", "proxy-authorization", "authentication-info", "refer-to"}
  }

  /** The written name of the headers that hold an address. */
  function AddressName(name: string): string {
    if name == "to" then "To"
    else if name == "from" then "From"
    else if name == "refer-to" then "Refer-To"
    else if name == "route" then "Route"
    else if name == "record-route" then "Record-Route"
    else "Path"
  }

  /** The written name of the authentication headers. */
  function AuthName(name: string): string {
    if name == "www-authenticate" then "WWW-Authenticate"
    else if name == "proxy-authenticate" then "Proxy-Authenticate"
    else if name == "authorization" then "Authorization"
    else "Proxy-Authorization"
  }

  /** What a header's own stringifier writes. */
  function StructuredText(name: string, v: HeaderValue): (r: Option<string>)
    requires HasStringifier(name)
    ensures r.Some? ==> WholeLines(r.value)
  {
    if name == "via" then
      if v.List? then ViasText(v.items) else None
    else if name in {"to", "from", "refer-to"} then
      if v.Address? then
        match AorText(v.aor) case None => None case Some(a) => Some(Line(AddressName(name), a))
      else None
    else if name == "contact" then
      if v.List? && v.items != [] then
        match AorsText(v.items) case None => None case Some(a) => Some(Line("Contact", a))
      else Some(Line("Contact", "*"))
    else if name in {"route", "record-route", "path"} then
      if v.List? && v.items != [] then
        match AorsText(v.items) case None => None case Some(a) => Some(Line(AddressName(name), a))
      else Some("")
    else if name == "cseq" then
      if v.Sequence? then Some(Line("CSeq", NatToString(v.cseq.number) + " " + v.cseq.methodName))
      else Some(Line("CSeq", "undefined undefined"))
    else if name == "authentication-info" then
      match v
      case Credentials(fields) => Some(Line("Authentication-Info", AuthText(fields)))
      case Number(_) => Some(Line("Authentication-Info", ""))
      case List(items) => Some(Line("Authentication-Info", AuthText(IndexFields(|items|))))
      case Sequence(cseq) =>
        Some(Line("Authentication-Info", AuthText([("seq", NatToString(cseq.number)), ("method", cseq.methodName)])))
      case _ => None
    else
      if v.List? then AuthsText(AuthName(name), v.items) else None
  }

  /**
   * What `stringify` writes for one header: nothing for `undefined`, the
   * generic `Name: value` line for text and for headers without a stringifier,
   * the header's own stringifier otherwise.
   */
  function HeaderText(name: string, v: HeaderValue): (r: Option<string>)
    ensures v.Undefined? ==> r == Some("")
    ensures !v.Undefined? && (v.Text? || !HasStringifier(name)) ==> r == Some(Line(PrettifyHeaderName(name), ValueString(v)))
    ensures r.Some? ==> WholeLines(r.value)
  {
    if v.Undefined? then Some("")
    else if v.Text? || !HasStringifier(name) then Some(Line(PrettifyHeaderName(name), ValueString(v)))
    else StructuredText(name, v)
  }

  /** The headers in key order, each as `HeaderText` writes it. */
  function HeadersText(h: Headers): (r: Option<string>)
    ensures r.Some? ==> WholeLines(r.value)
  {
    if h == [] then Some("")
    else
      match HeaderText(h[0].0, h[0].1)
      case None => None
      case Some(first) =>
        match HeadersText(h[1..])
        case None => None
        case Some(rest) =>
          WholeLinesAppend(first, rest);
          Some(first + rest)
  }

  /** One turn of the header loop of `stringify`, for the header at the head of `h`. */
  lemma HeadersTextStep(h: Headers)
    requires h != []
    ensures HeadersText(h).Some? <==> HeaderText(h[0].0, h[0].1).Some? && HeadersText(h[1..]).Some?
    ensures HeadersText(h).Some? ==> HeadersText(h).value == HeaderText(h[0].0, h[0].1).value + HeadersText(h[1..]).value
  {
  }

  // ---------------------------------------------------------------- messages

  /**
   * The start line. A message with a non-zero status is a response; any other
   * message is written as a request, which throws when it has no URI (a
   * response with status 0 has none).
   */
  function StartLineText(m: Message): (r: Option<string>)
    ensures r.Some? ==> EndsWithCrlf(r.value)
    ensures r.None? <==> (m.Response? && m.status == 0) || (m.Request? && m.uri.NoUri?)
    ensures m.Response? && m.status != 0 ==> r == Some(StatusLineText(m.version, m.status, m.reason) + "\r\n")
    ensures m.Request? && !m.uri.NoUri? ==>
      r == Some(RequestLineText(m.methodName, StringifyUriRef(m.uri).value, m.version) + "\r\n")
  {
    if m.Response? then
      if m.status != 0 then Some(StatusLineText(m.version, m.status, m.reason) + "\r\n")
      else None
    else
      match StringifyUriRef(m.uri)
      case None => None
      case Some(u) => Some(RequestLineText(m.methodName, u, m.version) + "\r\n")
  }

  /** `'SIP/' + stringifyVersion(m.version) + ' ' + m.status + ' ' + m.reason`. */
  function StatusLineText(version: string, status: int, reason: string): (r: string)
    ensures |r| > 4 && r[..4] == "SIP/"
  {
    "SIP/" + VersionText(version) + " " + NumberToString(Num(status)) + " " + reason
  }

  /** `m.method + ' ' + stringifyUri(m.uri) + ' SIP/' + stringifyVersion(m.version)`. */
  function RequestLineText(methodName: string, uri: string, version: string): (r: string)
    ensures |r| == |methodName| + |uri| + 6 + |VersionText(version)|
  {
    methodName + " " + uri + " SIP/" + VersionText(version)
  }

  /** `m.headers['content-length'] = (m.content || '').length`. */
  function StampLength(m: Message): (r: Message)
    ensures Header(r, "content-length") == Some(Number(Num(|m.content|)))
    ensures forall k :: k != "content-length" ==> Header(r, k) == Header(m, k)
    ensures r.content == m.content
  {
    WithHeaders(m, Put(m.headers, "content-length", Number(Num(|m.content|))))
  }

  /** `stringify(m)`: the start line, the stamped headers, a blank line and the body. */
  function MessageText(m: Message): (r: Option<string>)
    ensures r.Some? <==> StartLineText(m).Some? && HeadersText(StampLength(m).headers).Some?
    ensures r.Some? ==> |StartLineText(m).value| + 2 + |m.content| <= |r.value|
  {
    match StartLineText(m)
    case None => None
    case Some(start) =>
      match HeadersText(StampLength(m).headers)
      case None => None
      case Some(h) => Some(start + h + "\r\n" + m.content)
  }

  /**
   * `stringify`, the way the source does it: the start line, the Content-Length
   * stamp (which stays on the message, even when a header then fails to
   * write), and a loop over the headers. `stamped` is the message afterwards.
   */
  method Stringify(m: Message) returns (s: Option<string>, stamped: Message)
    ensures s == MessageText(m)
    ensures stamped == if StartLineText(m).Some? then StampLength(m) else m
  {
    var start := StartLineText(m);
    if start.None? {
      return None, m;
    }
    stamped := StampLength(m);
    var written := WriteHeaders(stamped.headers);
    if written.None? {
      return None, stamped;
    }
    s := Some(start.value + written.value + "\r\n" + m.content);
  }

  /** The `for ... in` loop of `stringify` over the headers. */
  method WriteHeaders(h: Headers) returns (written: Option<string>)
    ensures written.Some? <==> HeadersText(h).Some?
    ensures written.Some? ==> written.value == HeadersText(h).value
  {
    var rest := h;
    var text := "";
    ghost var ok := HeadersText(h).Some?;
    ghost var total := if ok then HeadersText(h).value else "";
    while rest != []
      invariant ok <==> HeadersText(rest).Some?
      invariant ok ==> total == text + HeadersText(rest).value
      decreases |rest|
    {
      var line := HeaderText(rest[0].0, rest[0].1);
      if line.None? {
        WriteFails(rest);
        return None;
      }
      WriteStep(rest, text, line.value, ok, total);
      text := text + line.value;
      rest := rest[1..];
    }
    assert text + "" == text;
    written := Some(text);
  }

  /** A header that cannot be written stops the loop: the whole header text fails. */
  lemma WriteFails(rest: Headers)
    requires rest != [] && HeaderText(rest[0].0, rest[0].1).None?
    ensures HeadersText(rest).None?
  {
  }

  /** One turn of the header loop: `total` is the text being built, `text` what was written before. */
  lemma {:induction false} WriteStep(rest: Headers, text: string, line: string, ok: bool, total: string)
    requires rest != [] && HeaderText(rest[0].0, rest[0].1) == Some(line)
    requires ok <==> HeadersText(rest).Some?
    requires ok ==> total == text + HeadersText(rest).value
    ensures ok <==> HeadersText(rest[1..]).Some?
    ensures ok ==> total == (text + line) + HeadersText(rest[1..]).value
  {
    HeadersTextStep(rest);
  }

  // ---------------------------------------------------------------- what stringify promises

  /** Whole lines followed by a blank line and a body: the part before the blank line. */
  lemma FramedLayout(lines: string, body: string)
    requires EndsWithCrlf(lines)
    ensures lines + "\r\n" + body == lines[..|lines| - 2] + "\r\n\r\n" + body
  {
    assert lines == lines[..|lines| - 2] + "\r\n";
  }

  /**
   * The written message is the head, a blank line and the body: the head ends
   * with the line end of its last header (or of the start line).
   */
  lemma MessageTextFrames(m: Message)
    requires MessageText(m).Some?
    ensures exists head :: MessageText(m).value == head + "\r\n\r\n" + m.content
  {
    var start := StartLineText(m).value;
    var h := HeadersText(StampLength(m).headers).value;
    WholeLinesAppend(start, h);
    FramedLayout(start + h, m.content);
    var head := (start + h)[..|start + h| - 2];
    assert MessageText(m).value == head + "\r\n\r\n" + m.content;
  }

  /** `x` occurs in `s` as a contiguous piece. */
  ghost predicate Occurs(x: string, s: string) {
    exists i :: 0 <= i <= |s| && x <= s[i..]
  }

  /** A piece of `s` is a piece of any text that contains `s`. */
  lemma OccursInside(x: string, a: string, s: string, b: string)
    requires Occurs(x, s)
    ensures Occurs(x, a + s + b)
  {
    var i :| 0 <= i <= |s| && x <= s[i..];
    assert (a + s + b)[|a| + i..] == s[i..] + b;
  }

  /** Every header of the map is written, as one contiguous piece of the header text. */
  lemma {:induction false} HeadersTextHasHeader(h: Headers, k: string)
    requires HeadersText(h).Some? && HasKey(h, k)
    ensures HeaderText(k, Lookup(h, k).value).Some?
    ensures Occurs(HeaderText(k, Lookup(h, k).value).value, HeadersText(h).value)
    decreases |h|
  {
    var first := HeaderText(h[0].0, h[0].1).value;
    var rest := HeadersText(h[1..]).value;
    HeadersTextStep(h);
    if h[0].0 == k {
      assert first <= (first + rest)[0..];
    } else {
      HeadersTextHasHeader(h[1..], k);
      OccursInside(HeaderText(k, Lookup(h, k).value).value, first, rest, "");
      assert first + rest + "" == first + rest;
    }
  }

  /** The line the generic rule writes for the stamped length. */
  lemma ContentLengthLine(n: nat)
    ensures HeaderText("content-length", Number(Num(n))) == Some(Line("Content-Length", NatToString(n)))
  {
    ContentLengthName();
  }

  /** A written message carries its body length in a `Content-Length` line. */
  lemma MessageTextHasContentLength(m: Message)
    requires MessageText(m).Some?
    ensures Occurs(Line("Content-Length", NatToString(|m.content|)), MessageText(m).value)
  {
    var start := StartLineText(m).value;
    var stamped := StampLength(m).headers;
    var h := HeadersText(stamped).value;
    ContentLengthLine(|m.content|);
    HeadersTextHasHeader(stamped, "content-length");
    OccursInside(Line("Content-Length", NatToString(|m.content|)), start, h, "\r\n" + m.content);
    assert MessageText(m).value == start + h + ("\r\n" + m.content);
  }
}
