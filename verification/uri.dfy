/**
 * SIP URIs: `parseUri` reads `sip:` / `sips:` URIs with optional user info,
 * port, parameters and headers; `stringifyUri` writes them back. The parser is
 * one anchored regular expression; its pieces are matched here one at a time,
 * in the order the backtracking engine tries them.
 */
module Uris {
  import opened Wrappers
  import opened Js
  import opened SipTypes
  import opened Grammar
  import opened Parameters

  // ---------------------------------------------------------------- pieces of the URI expression

  datatype UserInfo = UserInfo(user: string, password: Option<string>, len: nat)

  /** `([^\s>:@]+)(?::([^\s@>]+))?@`: the user info, always ending in `@`. */
  function MatchUserInfo(t: string): (r: Option<UserInfo>)
    ensures r.Some? ==> 0 < r.value.len <= |t| && t[r.value.len - 1] == '@'
  {
    var n := Run(t, User);
    if n == 0 || n == |t| then None
    else if t[n] == '@' then Some(UserInfo(t[..n], None, n + 1))
    else if t[n] == ':' then
      var p := Run(t[n + 1..], Password);
      if p > 0 && n + 1 + p < |t| && t[n + 1 + p] == '@' then
        Some(UserInfo(t[..n], Some(t[n + 1..n + 1 + p]), n + 2 + p))
      else None
    else None
  }

  /**
   * `([\w\-\.]+)(?::(\d+))?`: host, port and the characters consumed. A colon
   * without digits cannot be consumed by anything that follows in the
   * expression, so it makes the URI fail here already.
   */
  function MatchHostPort(t: string): (r: Option<(string, Option<nat>, nat)>)
    ensures r.Some? ==> 0 < r.value.2 <= |t| && r.value.0 != []
  {
    var h := Run(t, Host);
    if h == 0 then None
    else if h < |t| && t[h] == ':' then
      var d := Run(t[h + 1..], Digit);
      if d > 0 then Some((t[..h], Some(DigitsValue(t[h + 1..h + 1 + d])), h + 1 + d)) else None
    else Some((t[..h], None, h))
  }

  /** Length of one `;[^\s=\?>;]+(?:=[^\s?\;]+)?` at the start of `t`, 0 if there is none. */
  function UriParamUnit(t: string): (n: nat)
    ensures n <= |t|
    ensures n > 0 ==> t[0] == ';'
  {
    if t != [] && t[0] == ';' then
      var a := Run(t[1..], UriParamName);
      if a == 0 then 0
      else if 1 + a < |t| && t[1 + a] == '=' && Run(t[2 + a..], UriParamValue) > 0 then
        2 + a + Run(t[2 + a..], UriParamValue)
      else 1 + a
    else 0
  }

  /** Length of the parameter section `(?:;...)*`: as many parameters as follow each other. */
  function UriParamsLen(t: string): (n: nat)
    ensures n <= |t|
    decreases |t|
  {
    var u := UriParamUnit(t);
    if u == 0 then 0 else u + UriParamsLen(t[u..])
  }

  /** `[^\s&=>]+=[^\s&=>]+`: one header of the URI. */
  function MatchUriHeader(t: string): (r: Option<(string, string, nat)>)
    ensures r.Some? ==> 0 < r.value.2 <= |t|
  {
    var k := Run(t, UriHeader);
    if k > 0 && k < |t| && t[k] == '=' then
      var v := Run(t[k + 1..], UriHeader);
      if v > 0 then Some((t[..k], t[k + 1..k + 1 + v], k + 1 + v)) else None
    else None
  }

  /**
   * `([^\s&=>]+=[^\s&=>]+)(&[^\s&=>]+=[^\s&=>]+)*$`: a header, then further
   * headers each after an `&`, up to the end of the text.
   */
  function UriHeaderList(t: string): (r: Option<Dict<string>>)
    decreases |t|
  {
    var m := MatchUriHeader(t);
    if m.None? then None
    else
      var n := m.value.2;
      if n == |t| then Some([(m.value.0, m.value.1)])
      else if t[n] == '&' then
        var more := UriHeaderList(t[n + 1..]);
        if more.None? then None else Some([(m.value.0, m.value.1)] + more.value)
      else None
  }

  /** `(?:\?(...))?$`: the header section and the end of the URI. */
  function UriHeadersToEnd(t: string): (r: Option<Dict<string>>)
  {
    if t == [] then Some([])
    else if t[0] == '?' then UriHeaderList(t[1..])
    else None
  }

  /**
   * The parameter map built from the parameter section: a global
   * `([^;=]+)(=([^;=]+))?` match, each match split at `=`, a missing value
   * stored as null and a repeated name overwriting the earlier one.
   */
  function UriParams(t: string, acc: Params): Params
    decreases |t|
  {
    if t == [] then acc
    else if !In(t[0], NotSemiEq) then UriParams(t[1..], acc)
    else
      var n := Run(t, NotSemiEq);
      if n < |t| && t[n] == '=' && Run(t[n + 1..], NotSemiEq) > 0 then
        var v := Run(t[n + 1..], NotSemiEq);
        UriParams(t[n + 1 + v..], Put(acc, t[..n], Some(t[n + 1..n + 1 + v])))
      else UriParams(t[n..], Put(acc, t[..n], None))
  }

  /** Host, port, parameters and headers up to the end of the text. */
  function UriTail(schema: string, user: Option<string>, password: Option<string>, t: string): (r: Option<Uri>)
    ensures r.Some? ==> r.value.schema == schema && r.value.user == user && r.value.password == password
    ensures r.Some? ==> r.value.host != []
  {
    match MatchHostPort(t)
    case None => None
    case Some((host, port, n)) => UriSections(schema, user, password, host, port, t[n..])
  }

  /** The parameter section, then the header section up to the end of the text `s` after the host and port. */
  function UriSections(schema: string, user: Option<string>, password: Option<string>, host: string, port: Option<nat>, s: string): (r: Option<Uri>)
    ensures r.Some? ==> r.value.schema == schema && r.value.user == user && r.value.password == password
    ensures r.Some? ==> r.value.host == host && r.value.port == port
  {
    var pl := UriParamsLen(s);
    match UriHeadersToEnd(s[pl..])
    case None => None
    case Some(headers) => Some(Uri(schema, user, password, host, port, UriParams(s[..pl], []), PutAll([], headers)))
  }

  /**
   * `parseUri` on a string: `None` when the text is not a SIP URI. The
   * expression starts with `(sips?):`.
   */
  function ParseUri(s: string): (r: Option<Uri>)
    ensures r.Some? ==> r.value.schema in {"sip", "sips"} && r.value.host != []
    ensures r.Some? && r.value.password.Some? ==> r.value.user.Some?
  {
    if |s| >= 5 && s[..5] == "sips:" then UriAfterSchema("sips", s[5..])
    else if |s| >= 4 && s[..4] == "sip:" then UriAfterSchema("sip", s[4..])
    else None
  }

  /**
   * The URI after `schema:`. The user info is tried first; when the rest of the
   * URI does not match after it, the URI is read again without user info.
   */
  function UriAfterSchema(schema: string, t: string): (r: Option<Uri>)
    ensures r.Some? ==> r.value.schema == schema && r.value.host != []
    ensures r.Some? && r.value.password.Some? ==> r.value.user.Some?
  {
    var plain := UriTail(schema, None, None, t);
    match MatchUserInfo(t)
    case None => plain
    case Some(ui) =>
      match UriTail(schema, Some(ui.user), ui.password, t[ui.len..])
      case Some(uri) => Some(uri)
      case None => plain
  }

  /** `parseUri` on any URI value: a parsed URI is returned as it is, a missing one fails. */
  function UriOf(u: UriRef): (r: Option<Uri>)
    ensures u.UriObject? ==> r == Some(u.uri)
    ensures u.NoUri? ==> r == None
  {
    match u
    case UriObject(uri) => Some(uri)
    case UriText(text) => ParseUri(text)
    case NoUri => None
  }

  // ---------------------------------------------------------------- writing

  /** `k=v` pairs joined with `&`. */
  function UriHeadersText(h: Dict<string>): (r: string)
    ensures h == [] <==> r == []
  {
    if h == [] then ""
    else if |h| == 1 then h[0].0 + "=" + h[0].1
    else h[0].0 + "=" + h[0].1 + "&" + UriHeadersText(h[1..])
  }

  function UserText(user: Option<string>, password: Option<string>): string {
    if user.Some? && user.value != "" then
      if password.Some? && password.value != "" then user.value + ":" + password.value + "@" else user.value + "@"
    else ""
  }

  function PortText(port: Option<nat>): string {
    if port.Some? && port.value != 0 then ":" + NatToString(port.value) else ""
  }

  /** `stringifyUri` on a parsed URI. */
  function StringifyUri(u: Uri): (r: string)
    ensures var schema := if u.schema == "" then "sip" else u.schema;
      |schema| < |r| && r[..|schema| + 1] == schema + ":"
  {
    (if u.schema == "" then "sip" else u.schema) + ":" + UserText(u.user, u.password) + u.host + PortText(u.port)
      + StringifyParams(u.params) + (if u.headers == [] then "" else "?" + UriHeadersText(u.headers))
  }

  /** `stringifyUri` on any URI value: text is written as it is, a missing URI throws. */
  function StringifyUriRef(u: UriRef): (r: Option<string>)
    ensures r.None? <==> u.NoUri?
    ensures u.UriText? ==> r == Some(u.text)
  {
    match u
    case UriText(text) => Some(text)
    case UriObject(uri) => Some(StringifyUri(uri))
    case NoUri => None
  }
}
