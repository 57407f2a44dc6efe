/**
 * Reading back what `stringifyUri` writes: for every well-formed URI,
 * `parseUri(stringifyUri(u))` is `u` again.
 *
 * Each step is proved in layers that keep every proof small: a layout lemma
 * turns a concatenation into facts about indices and slices, a run lemma turns
 * character classes into the lengths of greedy runs, and an unfolding lemma
 * evaluates one matcher from those facts alone.
 */
module UriRoundTrip {
  import opened Wrappers
  import opened Js
  import opened SipTypes
  import opened Grammar
  import opened Parameters
  import opened Uris

  // ---------------------------------------------------------------- what reads back

  /** A parameter `stringifyUri` writes and `parseUri` reads back unchanged. */
  predicate UriParamOk(name: string, value: Option<string>) {
    && name != [] && All(name, UriParamName) && All(name, NotSemiEq) && All(name, NotAt)
    && (value.Some? ==>
          value.value != [] && All(value.value, UriParamValue) && All(value.value, NotSemiEq) && All(value.value, NotAt))
  }

  predicate UriParamsOk(p: Params) {
    p == [] || (UriParamOk(p[0].0, p[0].1) && UriParamsOk(p[1..]))
  }

  /** A URI header written as `k=v` that reads back unchanged. */
  predicate UriHeaderOk(k: string, v: string) {
    && k != [] && All(k, UriHeader) && All(k, NotAt)
    && v != [] && All(v, UriHeader) && All(v, NotAt)
  }

  predicate UriHeadersOk(h: Dict<string>) {
    h == [] || (UriHeaderOk(h[0].0, h[0].1) && UriHeadersOk(h[1..]))
  }

  /**
   * The URIs `stringifyUri` writes in a form `parseUri` reads back: every
   * component non-empty and free of the characters that delimit it, no port 0
   * (which is not written), no `@` outside the user info, and parameter and
   * header names that are not repeated.
   */
  predicate WellFormedUri(u: Uri) {
    && u.schema in {"sip", "sips"}
    && (u.user.Some? ==> u.user.value != [] && All(u.user.value, User))
    && (u.password.Some? ==> u.user.Some? && u.password.value != [] && All(u.password.value, Password))
    && u.host != [] && All(u.host, Host)
    && u.port != Some(0)
    && UniqueKeys(u.params) && UriParamsOk(u.params)
    && UniqueKeys(u.headers) && UriHeadersOk(u.headers)
  }

  /** Index `i` of `t` is its end or a `;` or `?`, where a parameter ends. */
  predicate Delimiter(t: string, i: nat) {
    i == |t| || (i < |t| && (t[i] == ';' || t[i] == '?'))
  }

  /** `t` starts with `x`. */
  predicate StartsWith(t: string, x: string) {
    |x| <= |t| && t[..|x|] == x
  }

  lemma StartsWithAt(t: string, x: string, i: nat, y: string)
    requires StartsWith(t, x + y) && i == |x|
    ensures StartsWith(t, x) && StartsWith(t[i..], y)
  {
    assert t[..|x|] == (x + y)[..|x|];
    assert t[i..][..|y|] == (x + y)[|x|..];
  }

  // ---------------------------------------------------------------- host and port

  lemma HostPortOf(host: string, port: Option<nat>, rest: string, t: string)
    requires host != [] && All(host, Host) && port != Some(0)
    requires rest == [] || rest[0] == ';' || rest[0] == '?'
    requires t == host + PortText(port) + rest
    ensures MatchHostPort(t) == Some((host, port, |host| + |PortText(port)|))
  {
    if port.Some? {
      HostPortNumberOf(host, port.value, rest, t);
    } else {
      assert host + PortText(port) == host;
      HostOnlyOf(host, rest, t);
    }
  }

  lemma HostPortNumberOf(host: string, n: nat, rest: string, t: string)
    requires host != [] && All(host, Host) && n != 0
    requires rest == [] || rest[0] == ';' || rest[0] == '?'
    requires t == host + (":" + NatToString(n)) + rest
    ensures MatchHostPort(t) == Some((host, Some(n), |host| + 1 + |NatToString(n)|))
  {
    DigitsOfNatToString(n);
    HostDigitsOf(host, NatToString(n), rest, t);
  }

  lemma HostDigitsOf(host: string, d: string, rest: string, t: string)
    requires host != [] && All(host, Host) && d != [] && AllDigits(d)
    requires rest == [] || rest[0] == ';' || rest[0] == '?'
    requires t == host + (":" + d) + rest
    ensures MatchHostPort(t) == Some((host, Some(DigitsValue(d)), |host| + 1 + |d|))
  {
    HostDigitsLayout(host, d, rest, t);
    HostDigitsRuns(t, host, d);
    HostDigitsMatch(t, host, d);
  }

  /** `t` holds `host`, a colon and the digits `d`, then its end or a delimiter. */
  predicate HostDigitsAt(t: string, host: string, d: string) {
    && |host| + 1 + |d| <= |t| && t[..|host|] == host && t[|host|] == ':' && t[|host| + 1..|host| + 1 + |d|] == d
    && Delimiter(t, |host| + 1 + |d|)
  }

  lemma HostDigitsLayout(host: string, d: string, rest: string, t: string)
    requires t == host + (":" + d) + rest
    requires rest == [] || rest[0] == ';' || rest[0] == '?'
    ensures HostDigitsAt(t, host, d)
  {
    assert rest != [] ==> t[|host| + 1 + |d|] == rest[0];
  }

  lemma HostDigitsRuns(t: string, host: string, d: string)
    requires host != [] && All(host, Host) && d != [] && AllDigits(d)
    requires HostDigitsAt(t, host, d)
    ensures Run(t, Host) == |host| && Run(t[|host| + 1..], Digit) == |d|
  {
    RunPrefix(t, host, Host);
    DigitsAreAll(d);
    RunAt(t, |host| + 1, d, Digit);
  }

  lemma HostDigitsMatch(t: string, host: string, d: string)
    requires host != [] && d != [] && HostDigitsAt(t, host, d)
    requires Run(t, Host) == |host| && Run(t[|host| + 1..], Digit) == |d|
    ensures MatchHostPort(t) == Some((host, Some(DigitsValue(d)), |host| + 1 + |d|))
  {
    HostPortWithPort(t, |host|, |d|);
  }

  /** `MatchHostPort` when the host run is followed by a colon and digits. */
  lemma HostPortWithPort(t: string, h: nat, d: nat)
    requires 0 < h < |t| && Run(t, Host) == h && t[h] == ':'
    requires Run(t[h + 1..], Digit) == d > 0
    ensures MatchHostPort(t) == Some((t[..h], Some(DigitsValue(t[h + 1..h + 1 + d])), h + 1 + d))
  {
  }

  lemma HostOnlyOf(host: string, rest: string, t: string)
    requires host != [] && All(host, Host)
    requires rest == [] || rest[0] == ';' || rest[0] == '?'
    requires t == host + rest
    ensures MatchHostPort(t) == Some((host, None, |host|))
  {
    assert t[..|host|] == host;
    assert rest != [] ==> t[|host|] == rest[0];
    RunPrefix(t, host, Host);
  }

  // ---------------------------------------------------------------- parameters

  /** Dropping `i` and then `j` characters drops `i + j`. */
  lemma DropDrop(t: string, i: nat, j: nat)
    requires i + j <= |t|
    ensures t[i..][j..] == t[i + j..]
  {
  }

  /** Length of a parameter's text after its `;`. */
  function BodyLen(name: string, value: Option<string>): nat {
    if value.Some? then |name| + 1 + |value.value| else |name|
  }

  /** `u` starts with `name=v`. */
  predicate ValueBodyAt(u: string, name: string, v: string) {
    |name| + 1 + |v| <= |u| && u[..|name|] == name && u[|name|] == '=' && u[|name| + 1..|name| + 1 + |v|] == v
  }

  /** `u` starts with `name`. */
  predicate NameBodyAt(u: string, name: string) {
    |name| <= |u| && u[..|name|] == name
  }

  /** Index `i` of `t` is its end or a `;`. */
  predicate SemiOrEnd(t: string, i: nat) {
    i == |t| || (i < |t| && t[i] == ';')
  }

  /** The pieces of one written parameter at the start of `t`. */
  lemma ParamPieces(t: string, name: string, value: Option<string>)
    requires StartsWith(t, ParamText(name, value))
    requires value.Some? ==> value.value != []
    ensures t[0] == ';' && |ParamText(name, value)| == 1 + BodyLen(name, value)
    ensures value.Some? ==> ValueBodyAt(t[1..], name, value.value)
    ensures value.None? ==> NameBodyAt(t[1..], name)
  {
    var p := ParamText(name, value);
    assert t[..|p|] == p;
    var u := t[1..];
    assert u[..|name|] == p[1..|name| + 1];
    if value.Some? {
      var v := value.value;
      assert p == ";" + name + "=" + v;
      assert u[|name| + 1..|name| + 1 + |v|] == p[|name| + 2..];
    }
  }

  lemma DelimiterShift(t: string, i: nat)
    requires t != [] && Delimiter(t, i + 1)
    ensures Delimiter(t[1..], i)
  {
  }

  lemma SemiShift(t: string, i: nat)
    requires t != [] && SemiOrEnd(t, i + 1)
    ensures SemiOrEnd(t[1..], i)
  {
  }

  /** The separators of the parameter section are outside the classes that stop at them. */
  lemma SeparatorsOutside()
    ensures !In(';', NotSemiEq) && !In('=', NotSemiEq)
    ensures !In(';', UriParamName) && !In('?', UriParamName) && !In('=', UriParamName)
    ensures !In(';', UriParamValue) && !In('?', UriParamValue)
  {
  }

  /** The runs of a name class and a value class over `name=v`, then a character outside the value class. */
  lemma NameValueRuns(u: string, name: string, v: string, kn: CharClass, kv: CharClass)
    requires All(name, kn) && All(v, kv) && !In('=', kn)
    requires ValueBodyAt(u, name, v)
    requires |name| + 1 + |v| == |u| || !In(u[|name| + 1 + |v|], kv)
    ensures Run(u, kn) == |name| && Run(u[|name| + 1..], kv) == |v|
  {
    RunPrefix(u, name, kn);
    RunAt(u, |name| + 1, v, kv);
  }

  /** The run of a name class over `name`, then a character outside it. */
  lemma NameRun(u: string, name: string, k: CharClass)
    requires All(name, k) && NameBodyAt(u, name)
    requires |name| == |u| || !In(u[|name|], k)
    ensures Run(u, k) == |name|
  {
    RunPrefix(u, name, k);
  }

  lemma ParamUnitWithValue(t: string, a: nat, b: nat)
    requires 0 < a && 0 < b && t != [] && t[0] == ';' && a < |t[1..]| && t[1..][a] == '='
    requires Run(t[1..], UriParamName) == a && Run(t[1..][a + 1..], UriParamValue) == b
    ensures UriParamUnit(t) == 2 + a + b
  {
    DropDrop(t, 1, a + 1);
  }

  lemma ParamUnitWithoutValue(t: string, a: nat)
    requires 0 < a && t != [] && t[0] == ';' && a <= |t[1..]| && (a == |t[1..]| || t[1..][a] != '=')
    requires Run(t[1..], UriParamName) == a
    ensures UriParamUnit(t) == 1 + a
  {
  }

  /** `;name=v` followed by a delimiter is one unit of the parameter section. */
  lemma ParamUnitValueOf(t: string, name: string, v: string)
    requires UriParamOk(name, Some(v)) && t != [] && t[0] == ';'
    requires ValueBodyAt(t[1..], name, v) && Delimiter(t[1..], |name| + 1 + |v|)
    ensures UriParamUnit(t) == 2 + |name| + |v|
  {
    SeparatorsOutside();
    NameValueRuns(t[1..], name, v, UriParamName, UriParamValue);
    ParamUnitWithValue(t, |name|, |v|);
  }

  /** `;name` followed by a delimiter is one unit of the parameter section. */
  lemma ParamUnitNameOf(t: string, name: string)
    requires UriParamOk(name, None) && t != [] && t[0] == ';'
    requires NameBodyAt(t[1..], name) && Delimiter(t[1..], |name|)
    ensures UriParamUnit(t) == 1 + |name|
  {
    SeparatorsOutside();
    NameRun(t[1..], name, UriParamName);
    ParamUnitWithoutValue(t, |name|);
  }

  /** One written parameter is one unit of the parameter section. */
  lemma ParamUnitOf(t: string, name: string, value: Option<string>)
    requires UriParamOk(name, value)
    requires StartsWith(t, ParamText(name, value)) && Delimiter(t, |ParamText(name, value)|)
    ensures UriParamUnit(t) == |ParamText(name, value)|
  {
    ParamPieces(t, name, value);
    DelimiterShift(t, BodyLen(name, value));
    if value.Some? {
      ParamUnitValueOf(t, name, value.value);
    } else {
      ParamUnitNameOf(t, name);
    }
  }

  lemma ParamsLenEnd(t: string)
    requires t == [] || t[0] == '?'
    ensures UriParamsLen(t) == 0
  {
  }

  lemma ParamsLenStep(t: string, n: nat)
    requires UriParamUnit(t) == n > 0
    ensures UriParamsLen(t) == n + UriParamsLen(t[n..])
  {
  }

  /** Where the first parameter of a written list ends. */
  lemma ParamsSplit(t: string, p: Params)
    requires p != [] && UriParamsOk(p)
    requires StartsWith(t, StringifyParams(p)) && (|StringifyParams(p)| == |t| || t[|StringifyParams(p)|] == '?')
    ensures StartsWith(t, ParamText(p[0].0, p[0].1))
    ensures StartsWith(t[|ParamText(p[0].0, p[0].1)|..], StringifyParams(p[1..]))
    ensures |StringifyParams(p)| == |ParamText(p[0].0, p[0].1)| + |StringifyParams(p[1..])|
    ensures Delimiter(t, |ParamText(p[0].0, p[0].1)|)
    ensures
      var u := t[|ParamText(p[0].0, p[0].1)|..];
      |StringifyParams(p[1..])| == |u| || u[|StringifyParams(p[1..])|] == '?'
  {
    var head := ParamText(p[0].0, p[0].1);
    var more := StringifyParams(p[1..]);
    assert StringifyParams(p) == head + more;
    StartsWithAt(t, head, |head|, more);
    if more != [] {
      assert t[|head|] == more[0];
    }
  }

  /** The parameter section of a written URI is exactly the written parameters. */
  lemma {:induction false} ParamsLenOf(t: string, p: Params)
    requires UriParamsOk(p)
    requires StartsWith(t, StringifyParams(p)) && (|StringifyParams(p)| == |t| || t[|StringifyParams(p)|] == '?')
    ensures UriParamsLen(t) == |StringifyParams(p)|
    decreases |p|
  {
    if p == [] {
      ParamsLenEnd(t);
    } else {
      var head := ParamText(p[0].0, p[0].1);
      ParamsSplit(t, p);
      ParamUnitOf(t, p[0].0, p[0].1);
      ParamsLenStep(t, |head|);
      ParamsLenOf(t[|head|..], p[1..]);
    }
  }

  // ---------------------------------------------------------------- the parameter map

  lemma UriParamsSkip(t: string, acc: Params)
    requires t != [] && t[0] == ';'
    ensures UriParams(t, acc) == UriParams(t[1..], acc)
  {
  }

  lemma UriParamsNameOnly(u: string, a: nat, acc: Params)
    requires 0 < a <= |u| && (a == |u| || u[a] != '=')
    requires Run(u, NotSemiEq) == a
    ensures UriParams(u, acc) == UriParams(u[a..], Put(acc, u[..a], None))
  {
  }

  /** Reading `;name=v` stores `v` under `name`. */
  lemma UriParamValueStep(t: string, name: string, v: string, acc: Params)
    requires UriParamOk(name, Some(v)) && t != [] && t[0] == ';'
    requires ValueBodyAt(t[1..], name, v) && SemiOrEnd(t[1..], |name| + 1 + |v|)
    ensures UriParams(t, acc) == UriParams(t[1..][|name| + 1 + |v|..], Put(acc, name, Some(v)))
  {
    SemiValueRuns(t[1..], name, v);
    UriParamValueRead(t, name, v, acc);
  }

  lemma SemiValueRuns(u: string, name: string, v: string)
    requires UriParamOk(name, Some(v)) && ValueBodyAt(u, name, v) && SemiOrEnd(u, |name| + 1 + |v|)
    ensures Run(u, NotSemiEq) == |name| && Run(u[|name| + 1..], NotSemiEq) == |v|
  {
    SeparatorsOutside();
    NameValueRuns(u, name, v, NotSemiEq, NotSemiEq);
  }

  lemma UriParamValueRead(t: string, name: string, v: string, acc: Params)
    requires name != [] && v != [] && t != [] && t[0] == ';' && ValueBodyAt(t[1..], name, v)
    requires Run(t[1..], NotSemiEq) == |name| && Run(t[1..][|name| + 1..], NotSemiEq) == |v|
    ensures UriParams(t, acc) == UriParams(t[1..][|name| + 1 + |v|..], Put(acc, name, Some(v)))
  {
    UriParamsSkip(t, acc);
    UriParamsValueAt(t[1..], name, v, acc);
  }

  lemma UriParamsValueAt(u: string, name: string, v: string, acc: Params)
    requires name != [] && v != [] && ValueBodyAt(u, name, v)
    requires Run(u, NotSemiEq) == |name| && Run(u[|name| + 1..], NotSemiEq) == |v|
    ensures UriParams(u, acc) == UriParams(u[|name| + 1 + |v|..], Put(acc, name, Some(v)))
  {
  }

  /** Reading `;name` stores null under `name`. */
  lemma UriParamNameStep(t: string, name: string, acc: Params)
    requires UriParamOk(name, None) && t != [] && t[0] == ';'
    requires NameBodyAt(t[1..], name) && SemiOrEnd(t[1..], |name|)
    ensures UriParams(t, acc) == UriParams(t[1..][|name|..], Put(acc, name, None))
  {
    SeparatorsOutside();
    NameRun(t[1..], name, NotSemiEq);
    UriParamsSkip(t, acc);
    UriParamsNameOnly(t[1..], |name|, acc);
  }

  /** Reading one written parameter stores it in the map. */
  lemma UriParamStep(t: string, name: string, value: Option<string>, acc: Params)
    requires UriParamOk(name, value)
    requires StartsWith(t, ParamText(name, value)) && SemiOrEnd(t, |ParamText(name, value)|)
    ensures UriParams(t, acc) == UriParams(t[|ParamText(name, value)|..], Put(acc, name, value))
  {
    ParamPieces(t, name, value);
    SemiShift(t, BodyLen(name, value));
    DropDrop(t, 1, BodyLen(name, value));
    if value.Some? {
      UriParamValueStep(t, name, value.value, acc);
    } else {
      UriParamNameStep(t, name, acc);
    }
  }

  /** Where the first parameter of a written list ends, for the map. */
  lemma ParamsSplitForMap(p: Params)
    requires p != [] && UriParamsOk(p)
    ensures StartsWith(StringifyParams(p), ParamText(p[0].0, p[0].1))
    ensures SemiOrEnd(StringifyParams(p), |ParamText(p[0].0, p[0].1)|)
    ensures StringifyParams(p)[|ParamText(p[0].0, p[0].1)|..] == StringifyParams(p[1..])
  {
    var head := ParamText(p[0].0, p[0].1);
    var more := StringifyParams(p[1..]);
    var t := StringifyParams(p);
    assert t == head + more;
    assert t[..|head|] == head && t[|head|..] == more;
    assert more != [] ==> t[|head|] == more[0];
  }

  /** Reading a written parameter section back gives the parameters, assigned in order. */
  lemma {:induction false} UriParamsOf(p: Params, acc: Params)
    requires UriParamsOk(p)
    ensures UriParams(StringifyParams(p), acc) == PutAll(acc, p)
    decreases |p|
  {
    if p != [] {
      ParamsSplitForMap(p);
      UriParamStep(StringifyParams(p), p[0].0, p[0].1, acc);
      UriParamsOf(p[1..], Put(acc, p[0].0, p[0].1));
    }
  }

  // ---------------------------------------------------------------- headers

  lemma HeaderSeparatorsOutside()
    ensures !In('=', UriHeader) && !In('&', UriHeader)
  {
  }

  lemma MatchUriHeaderUnfold(t: string, a: nat, b: nat)
    requires 0 < a < |t| && t[a] == '=' && 0 < b
    requires Run(t, UriHeader) == a && Run(t[a + 1..], UriHeader) == b
    ensures MatchUriHeader(t) == Some((t[..a], t[a + 1..a + 1 + b], a + 1 + b))
  {
  }

  /** `k=v` followed by the end or `&` is one header of the header section. */
  lemma MatchUriHeaderOf(t: string, k: string, v: string)
    requires UriHeaderOk(k, v) && ValueBodyAt(t, k, v)
    requires |k| + 1 + |v| == |t| || t[|k| + 1 + |v|] == '&'
    ensures MatchUriHeader(t) == Some((k, v, |k| + 1 + |v|))
  {
    HeaderSeparatorsOutside();
    NameValueRuns(t, k, v, UriHeader, UriHeader);
    MatchUriHeaderUnfold(t, |k|, |v|);
  }

  /** The layout of `k=v`. */
  lemma HeaderLastLayout(t: string, k: string, v: string)
    requires t == k + "=" + v
    ensures ValueBodyAt(t, k, v) && |k| + 1 + |v| == |t|
  {
    assert t[..|k|] == k;
    assert t[|k| + 1..|k| + 1 + |v|] == v;
  }

  /** The layout of `k=v&r`. */
  lemma HeaderConsLayout(t: string, k: string, v: string, r: string)
    requires t == k + "=" + v + "&" + r
    ensures ValueBodyAt(t, k, v) && |k| + 1 + |v| < |t| && t[|k| + 1 + |v|] == '&' && t[|k| + 1 + |v| + 1..] == r
  {
    assert t[..|k|] == k;
    assert t[|k| + 1..|k| + 1 + |v|] == v;
    assert t[|k| + 1 + |v| + 1..] == r;
  }

  lemma UriHeaderListLast(t: string, k: string, v: string)
    requires MatchUriHeader(t) == Some((k, v, |t|))
    ensures UriHeaderList(t) == Some([(k, v)])
  {
  }

  lemma UriHeaderListMore(t: string, k: string, v: string, n: nat, r: string, more: Dict<string>)
    requires MatchUriHeader(t) == Some((k, v, n)) && n < |t| && t[n] == '&'
    requires t[n + 1..] == r && UriHeaderList(r) == Some(more)
    ensures UriHeaderList(t) == Some([(k, v)] + more)
  {
  }

  /** Reading a written header section back gives its headers in order. */
  lemma {:induction false} UriHeaderListOf(h: Dict<string>)
    requires h != [] && UriHeadersOk(h)
    ensures UriHeaderList(UriHeadersText(h)) == Some(h)
    decreases |h|
  {
    if |h| == 1 {
      UriHeaderListOne(h);
    } else {
      UriHeaderListOf(h[1..]);
      UriHeaderListCons(h);
    }
  }

  lemma UriHeaderListOne(h: Dict<string>)
    requires |h| == 1 && UriHeaderOk(h[0].0, h[0].1)
    ensures UriHeaderList(UriHeadersText(h)) == Some(h)
  {
    var t := UriHeadersText(h);
    HeaderLastLayout(t, h[0].0, h[0].1);
    MatchUriHeaderOf(t, h[0].0, h[0].1);
    UriHeaderListLast(t, h[0].0, h[0].1);
    assert h == [(h[0].0, h[0].1)];
  }

  lemma UriHeaderListCons(h: Dict<string>)
    requires |h| > 1 && UriHeaderOk(h[0].0, h[0].1)
    requires UriHeaderList(UriHeadersText(h[1..])) == Some(h[1..])
    ensures UriHeaderList(UriHeadersText(h)) == Some(h)
  {
    var t := UriHeadersText(h);
    var r := UriHeadersText(h[1..]);
    HeaderConsLayout(t, h[0].0, h[0].1, r);
    UriHeaderListAt(t, h[0].0, h[0].1, r, h[1..]);
    HeadAndTail(h);
  }

  lemma HeadAndTail<V>(d: Dict<V>)
    requires d != []
    ensures [(d[0].0, d[0].1)] + d[1..] == d
  {
  }

  /** `k=v&` followed by a header section `r` that reads back as `more`. */
  lemma UriHeaderListAt(t: string, k: string, v: string, r: string, more: Dict<string>)
    requires UriHeaderOk(k, v) && ValueBodyAt(t, k, v)
    requires |k| + 1 + |v| < |t| && t[|k| + 1 + |v|] == '&' && t[|k| + 1 + |v| + 1..] == r
    requires UriHeaderList(r) == Some(more)
    ensures UriHeaderList(t) == Some([(k, v)] + more)
  {
    MatchUriHeaderOf(t, k, v);
    UriHeaderListMore(t, k, v, |k| + 1 + |v|, r, more);
  }

  /** The text after the parameters: nothing, or `?` and the headers. */
  function HeadersPart(h: Dict<string>): string {
    if h == [] then "" else "?" + UriHeadersText(h)
  }

  lemma UriHeadersToEndOf(h: Dict<string>)
    requires UriHeadersOk(h)
    ensures UriHeadersToEnd(HeadersPart(h)) == Some(h)
  {
    if h != [] {
      var t := HeadersPart(h);
      assert t[1..] == UriHeadersText(h);
      UriHeaderListOf(h);
    }
  }

  // ---------------------------------------------------------------- host to end

  /** What follows the host and port: parameters, headers or nothing. */
  lemma RestStart(P: string, H: string, p: Params, h: Dict<string>)
    requires P == StringifyParams(p) && H == HeadersPart(h)
    ensures P + H == [] || (P + H)[0] == ';' || (P + H)[0] == '?'
  {
    if P == [] {
      assert P + H == H;
    }
  }

  /** `t` holds `P` and then `H` from index `n` to its end. */
  predicate PiecesAt(t: string, n: nat, P: string, H: string) {
    n <= |t| && t[n..] == P + H
  }

  lemma TailLayout(t: string, host: string, pt: string, P: string, H: string)
    requires t == host + pt + P + H
    ensures t == host + pt + (P + H) && PiecesAt(t, |host| + |pt|, P, H)
  {
  }

  /** The parameter section runs up to the headers. */
  lemma ParamsSectionOf(u: string, P: string, H: string, p: Params, h: Dict<string>)
    requires u == P + H && P == StringifyParams(p) && H == HeadersPart(h) && UriParamsOk(p)
    ensures UriParamsLen(u) == |P|
  {
    assert u[..|P|] == P;
    if H != [] {
      assert u[|P|] == '?';
    }
    ParamsLenOf(u, p);
  }

  /** `P` is read as the parameters `p` and `H` as the headers `h`, with `H` right after `P`. */
  predicate ReadsBack(P: string, H: string, p: Params, h: Dict<string>) {
    UriParamsLen(P + H) == |P| && UriParams((P + H)[..|P|], []) == p && UriHeadersToEnd(H) == Some(h)
  }

  /** The parameter section of `s` has length `pl` and reads as `p`, and the headers after it read as `h`. */
  predicate SectionsAt(s: string, pl: nat, p: Params, h: Dict<string>) {
    && pl <= |s| && UriParamsLen(s) == pl
    && UriHeadersToEnd(s[pl..]) == Some(h) && UriParams(s[..pl], []) == p
  }

  lemma UriTailUnfold(
    schema: string, user: Option<string>, password: Option<string>, t: string,
    host: string, port: Option<nat>, n: nat, pl: nat, pmap: Params, headers: Dict<string>)
    requires MatchHostPort(t) == Some((host, port, n)) && SectionsAt(t[n..], pl, pmap, headers)
    ensures UriTail(schema, user, password, t) == Some(Uri(schema, user, password, host, port, pmap, PutAll([], headers)))
  {
    SectionsUnfold(schema, user, password, host, port, t[n..], pl, pmap, headers);
  }

  lemma SectionsUnfold(
    schema: string, user: Option<string>, password: Option<string>,
    host: string, port: Option<nat>, s: string, pl: nat, pmap: Params, headers: Dict<string>)
    requires SectionsAt(s, pl, pmap, headers)
    ensures UriSections(schema, user, password, host, port, s) == Some(Uri(schema, user, password, host, port, pmap, PutAll([], headers)))
  {
  }

  /** What is known of the parameter and header text carries over to the same text inside `t`. */
  lemma TailTransfer(t: string, n: nat, P: string, H: string, p: Params, h: Dict<string>)
    requires PiecesAt(t, n, P, H) && ReadsBack(P, H, p, h)
    ensures SectionsAt(t[n..], |P|, p, h)
  {
    assert (P + H)[|P|..] == H;
  }

  /** Host, port, parameters and headers as `stringifyUri` writes them read back as they were. */
  lemma UriTailOf(
    schema: string, user: Option<string>, password: Option<string>,
    host: string, port: Option<nat>, p: Params, h: Dict<string>, t: string)
    requires host != [] && All(host, Host) && port != Some(0)
    requires UriParamsOk(p) && UniqueKeys(p) && UriHeadersOk(h) && UniqueKeys(h)
    requires t == host + PortText(port) + StringifyParams(p) + HeadersPart(h)
    ensures UriTail(schema, user, password, t) == Some(Uri(schema, user, password, host, port, p, h))
  {
    var P := StringifyParams(p);
    var H := HeadersPart(h);
    RestStart(P, H, p, h);
    TailParams(P + H, P, H, p, h);
    UriHeadersToEndOf(h);
    PutAllIntoEmpty(h);
    UriTailAt(schema, user, password, host, port, P, H, p, h, t);
  }

  /** `UriTail` over host, port and a parameter and header text whose reading is known. */
  lemma UriTailAt(
    schema: string, user: Option<string>, password: Option<string>,
    host: string, port: Option<nat>, P: string, H: string, p: Params, h: Dict<string>, t: string)
    requires host != [] && All(host, Host) && port != Some(0)
    requires P + H == [] || (P + H)[0] == ';' || (P + H)[0] == '?'
    requires ReadsBack(P, H, p, h) && PutAll([], h) == h
    requires t == host + PortText(port) + P + H
    ensures UriTail(schema, user, password, t) == Some(Uri(schema, user, password, host, port, p, h))
  {
    var pt := PortText(port);
    var n: nat := |host| + |pt|;
    TailLayout(t, host, pt, P, H);
    HostPortOf(host, port, P + H, t);
    TailTransfer(t, n, P, H, p, h);
    UriTailUnfold(schema, user, password, t, host, port, n, |P|, p, h);
  }

  lemma TailParams(u: string, P: string, H: string, p: Params, h: Dict<string>)
    requires UriParamsOk(p) && UniqueKeys(p)
    requires u == P + H && P == StringifyParams(p) && H == HeadersPart(h)
    ensures UriParamsLen(u) == |P| && UriParams(u[..|P|], []) == p
  {
    ParamsSectionOf(u, P, H, p, h);
    assert u[..|P|] == P;
    UriParamsOf(p, []);
    PutAllIntoEmpty(p);
  }

  // ---------------------------------------------------------------- user info

  lemma UserSeparatorsOutside()
    ensures !In('@', User) && !In(':', User) && !In('@', Password)
  {
  }

  lemma MatchUserInfoPlain(t: string, n: nat)
    requires 0 < n < |t| && Run(t, User) == n && t[n] == '@'
    ensures MatchUserInfo(t) == Some(UserInfo(t[..n], None, n + 1))
  {
  }

  lemma MatchUserInfoPassword(t: string, n: nat, p: nat)
    requires 0 < n && 0 < p && n + 1 + p < |t| && t[n] == ':' && t[n + 1 + p] == '@'
    requires Run(t, User) == n && Run(t[n + 1..], Password) == p
    ensures MatchUserInfo(t) == Some(UserInfo(t[..n], Some(t[n + 1..n + 1 + p]), n + 2 + p))
  {
  }

  /** `user@` at the start of `t` is its user info. */
  lemma UserInfoPlainOf(t: string, user: string, rest: string)
    requires user != [] && All(user, User) && t == user + "@" + rest
    ensures MatchUserInfo(t) == Some(UserInfo(user, None, |user| + 1)) && t[|user| + 1..] == rest
  {
    assert t[..|user|] == user && t[|user|] == '@';
    UserSeparatorsOutside();
    RunPrefix(t, user, User);
    MatchUserInfoPlain(t, |user|);
  }

  /** `user:password@` at the start of `t`: indices and slices. */
  lemma UserPasswordLayout(t: string, user: string, pw: string, rest: string)
    requires t == user + ":" + pw + "@" + rest
    ensures |user| + 1 + |pw| < |t| && t[..|user|] == user && t[|user|] == ':'
    ensures t[|user| + 1..|user| + 1 + |pw|] == pw && t[|user| + 1 + |pw|] == '@'
    ensures t[|user| + 2 + |pw|..] == rest
  {
    assert t[..|user|] == user;
    assert t[|user| + 1..|user| + 1 + |pw|] == pw;
    assert t[|user| + 2 + |pw|..] == rest;
  }

  lemma UserPasswordRuns(t: string, user: string, pw: string)
    requires All(user, User) && All(pw, Password)
    requires |user| + 1 + |pw| < |t| && t[..|user|] == user && t[|user|] == ':'
    requires t[|user| + 1..|user| + 1 + |pw|] == pw && t[|user| + 1 + |pw|] == '@'
    ensures Run(t, User) == |user| && Run(t[|user| + 1..], Password) == |pw|
  {
    UserSeparatorsOutside();
    RunPrefix(t, user, User);
    RunAt(t, |user| + 1, pw, Password);
  }

  /** `user:password@` at the start of `t` is its user info. */
  lemma UserInfoPasswordOf(t: string, user: string, pw: string, rest: string)
    requires user != [] && All(user, User) && pw != [] && All(pw, Password)
    requires t == user + ":" + pw + "@" + rest
    ensures MatchUserInfo(t) == Some(UserInfo(user, Some(pw), |user| + 2 + |pw|)) && t[|user| + 2 + |pw|..] == rest
  {
    UserPasswordLayout(t, user, pw, rest);
    UserPasswordRuns(t, user, pw);
    MatchUserInfoPassword(t, |user|, |pw|);
  }

  /** Text without `@` has no user info. */
  lemma NoUserInfo(t: string)
    requires '@' !in t
    ensures MatchUserInfo(t) == None
  {
  }

  // ---------------------------------------------------------------- no `@` after the user info

  lemma NotAtSingle(c: char)
    requires c != '@'
    ensures All([c], NotAt)
  {
    assert InAt([c], 0, NotAt);
  }

  lemma HostNotAt(host: string)
    requires All(host, Host)
    ensures All(host, NotAt)
  {
    forall i | 0 <= i < |host| ensures InAt(host, i, NotAt) {
      assert InAt(host, i, Host);
    }
  }

  lemma PortNotAt(port: Option<nat>)
    ensures All(PortText(port), NotAt)
  {
    var t := PortText(port);
    if port.Some? && port.value != 0 {
      var d := NatToString(port.value);
      assert t == ":" + d;
      forall i | 0 <= i < |t| ensures InAt(t, i, NotAt) {
        if i > 0 {
          assert DigitAt(d, i - 1);
        }
      }
    }
  }

  lemma ParamNotAt(name: string, value: Option<string>)
    requires UriParamOk(name, value)
    ensures All(ParamText(name, value), NotAt)
  {
    NotAtSingle(';');
    AllConcat(";", name, NotAt);
    if value.Some? {
      NotAtSingle('=');
      AllConcat("=", value.value, NotAt);
      AllConcat(";" + name, "=" + value.value, NotAt);
      assert ParamText(name, value) == (";" + name) + ("=" + value.value);
    } else {
      assert ParamText(name, value) == ";" + name;
    }
  }

  lemma {:induction false} ParamsNotAt(p: Params)
    requires UriParamsOk(p)
    ensures All(StringifyParams(p), NotAt)
    decreases |p|
  {
    if p != [] {
      ParamNotAt(p[0].0, p[0].1);
      ParamsNotAt(p[1..]);
      AllConcat(ParamText(p[0].0, p[0].1), StringifyParams(p[1..]), NotAt);
    }
  }

  lemma HeaderNotAt(k: string, v: string)
    requires UriHeaderOk(k, v)
    ensures All(k + "=" + v, NotAt)
  {
    NotAtSingle('=');
    AllConcat(k, "=", NotAt);
    AllConcat(k + "=", v, NotAt);
  }

  lemma {:induction false} HeadersTextNotAt(h: Dict<string>)
    requires UriHeadersOk(h)
    ensures All(UriHeadersText(h), NotAt)
    decreases |h|
  {
    if h != [] {
      HeaderNotAt(h[0].0, h[0].1);
      if |h| > 1 {
        HeadersTextNotAt(h[1..]);
        NotAtSingle('&');
        var kv := h[0].0 + "=" + h[0].1;
        AllConcat(kv, "&", NotAt);
        AllConcat(kv + "&", UriHeadersText(h[1..]), NotAt);
        assert UriHeadersText(h) == kv + "&" + UriHeadersText(h[1..]);
      }
    }
  }

  lemma HeadersPartNotAt(h: Dict<string>)
    requires UriHeadersOk(h)
    ensures All(HeadersPart(h), NotAt)
  {
    if h != [] {
      NotAtSingle('?');
      HeadersTextNotAt(h);
      AllConcat("?", UriHeadersText(h), NotAt);
    }
  }

  /** Host, port, parameters and headers as written hold no `@`. */
  lemma TailNoAt(host: string, port: Option<nat>, p: Params, h: Dict<string>)
    requires All(host, Host) && UriParamsOk(p) && UriHeadersOk(h)
    ensures '@' !in host + PortText(port) + StringifyParams(p) + HeadersPart(h)
  {
    HostNotAt(host);
    PortNotAt(port);
    ParamsNotAt(p);
    HeadersPartNotAt(h);
    AllConcat(host, PortText(port), NotAt);
    AllConcat(host + PortText(port), StringifyParams(p), NotAt);
    AllConcat(host + PortText(port) + StringifyParams(p), HeadersPart(h), NotAt);
    NotInAll(host + PortText(port) + StringifyParams(p) + HeadersPart(h), NotAt, '@');
  }

  // ---------------------------------------------------------------- the whole URI

  /** What `stringifyUri` writes after the user info. */
  function TailText(u: Uri): string {
    u.host + PortText(u.port) + StringifyParams(u.params) + HeadersPart(u.headers)
  }

  lemma StringifyUriLayout(u: Uri)
    requires u.schema in {"sip", "sips"}
    ensures StringifyUri(u) == u.schema + ":" + (UserText(u.user, u.password) + TailText(u))
  {
  }

  lemma SchemaOf(schema: string, t: string)
    requires schema in {"sip", "sips"}
    ensures ParseUri(schema + ":" + t) == UriAfterSchema(schema, t)
  {
    var s := schema + ":" + t;
    if schema == "sips" {
      assert s[..5] == "sips:" && s[5..] == t;
      ParseUriSips(s);
    } else {
      assert s[3] == ':';
      assert s[..4] == "sip:" && s[4..] == t;
      ParseUriSip(s);
    }
  }

  lemma ParseUriSips(s: string)
    requires |s| >= 5 && s[..5] == "sips:"
    ensures ParseUri(s) == UriAfterSchema("sips", s[5..])
  {
  }

  lemma ParseUriSip(s: string)
    requires |s| >= 4 && s[..4] == "sip:"
    ensures ParseUri(s) == UriAfterSchema("sip", s[4..])
  {
    NotSips(s);
  }

  lemma NotSips(s: string)
    requires |s| >= 4 && s[..4] == "sip:"
    ensures !(|s| >= 5 && s[..5] == "sips:")
  {
    assert s[3] == ':';
    if |s| >= 5 {
      assert s[..5][3] == ':';
    }
  }

  lemma AfterSchemaPlain(schema: string, t: string)
    requires MatchUserInfo(t) == None
    ensures UriAfterSchema(schema, t) == UriTail(schema, None, None, t)
  {
  }

  lemma AfterSchemaUser(schema: string, t: string, ui: UserInfo, uri: Uri)
    requires MatchUserInfo(t) == Some(ui) && ui.len <= |t|
    requires UriTail(schema, Some(ui.user), ui.password, t[ui.len..]) == Some(uri)
    ensures UriAfterSchema(schema, t) == Some(uri)
  {
  }

  lemma ParseUriNoUser(u: Uri)
    requires WellFormedUri(u) && u.user.None?
    ensures UriAfterSchema(u.schema, UserText(u.user, u.password) + TailText(u)) == Some(u)
  {
    var tail := TailText(u);
    assert UserText(u.user, u.password) + tail == tail;
    TailNoAt(u.host, u.port, u.params, u.headers);
    NoUserInfo(tail);
    UriTailOf(u.schema, None, None, u.host, u.port, u.params, u.headers, tail);
    AfterSchemaPlain(u.schema, tail);
  }

  lemma ParseUriWithUser(u: Uri)
    requires WellFormedUri(u) && u.user.Some?
    ensures UriAfterSchema(u.schema, UserText(u.user, u.password) + TailText(u)) == Some(u)
  {
    var tail := TailText(u);
    var user := u.user.value;
    var t := UserText(u.user, u.password) + tail;
    UriTailOf(u.schema, u.user, u.password, u.host, u.port, u.params, u.headers, tail);
    if u.password.Some? {
      var pw := u.password.value;
      assert t == user + ":" + pw + "@" + tail;
      UserInfoPasswordOf(t, user, pw, tail);
      AfterSchemaUser(u.schema, t, UserInfo(user, Some(pw), |user| + 2 + |pw|), u);
    } else {
      assert t == user + "@" + tail;
      UserInfoPlainOf(t, user, tail);
      AfterSchemaUser(u.schema, t, UserInfo(user, None, |user| + 1), u);
    }
  }

  /** `parseUri(stringifyUri(u))` gives back every well-formed URI. */
  lemma ParseStringifyUri(u: Uri)
    requires WellFormedUri(u)
    ensures ParseUri(StringifyUri(u)) == Some(u)
  {
    StringifyUriLayout(u);
    SchemaOf(u.schema, UserText(u.user, u.password) + TailText(u));
    if u.user.None? {
      ParseUriNoUser(u);
    } else {
      ParseUriWithUser(u);
    }
  }
}
