/**
 * The cursor-driven header parsers of the codec. Each parser starts at a
 * position of the header value, consumes what its expression matches there
 * and leaves the cursor after it. A parser whose expression does not match
 * throws in the source (it indexes the missing match); that is `None` here.
 *
 * Every parser has a specification function over the text from the cursor
 * onwards, returning the value and the number of characters consumed, and a
 * method that works the way the source does: a cursor that a loop advances.
 */
module HeaderParsers {
  import opened Wrappers
  import opened Js
  import opened SipTypes
  import opened Grammar
  import opened Uris

  // ---------------------------------------------------------------- parameters

  /** Every key of the map is in lower case. */
  ghost predicate LowerKeys<V>(d: Dict<V>) {
    forall k :: HasKey(d, k) ==> IsLower(k)
  }

  lemma LowerTwice(s: string)
    ensures IsLower(Lower(s))
  {
    var l := Lower(s);
    assert forall k :: 0 <= k < |l| ==> Lower(l)[k] == l[k];
    assert Lower(l) == l;
  }

  /** Assigning a lower-case key keeps every key in lower case. */
  lemma PutKeepsLowerKeys<V>(d: Dict<V>, k: string, v: V)
    requires LowerKeys(d) && IsLower(k)
    ensures LowerKeys(Put(d, k, v))
  {
    forall k' | HasKey(Put(d, k, v), k') ensures IsLower(k') {
      if k' != k {
        assert HasKey(d, k');
      }
    }
  }

  /**
   * The parameter loop of `parseParams` from the start of `t`: each
   * `;name[=value]` is stored under its lower-cased name, a missing value as
   * null, a repeated name overwriting. The loop stops at the first text that
   * is not a parameter; the second component is the length it consumed.
   */
  function ParamsFrom(t: string, acc: Params): (r: (Params, nat))
    ensures r.1 <= |t|
    ensures r.1 == 0 ==> r.0 == acc
    decreases |t|
  {
    match MatchParam(t)
    case None => (acc, 0)
    case Some(pm) =>
      var rest := ParamsFrom(t[pm.len..], Put(acc, Lower(pm.name), pm.value));
      (rest.0, pm.len + rest.1)
  }

  /** Parameter names come out in lower case. */
  lemma {:induction false} ParamsFromLowerKeys(t: string, acc: Params)
    requires LowerKeys(acc)
    ensures LowerKeys(ParamsFrom(t, acc).0)
    decreases |t|
  {
    match MatchParam(t)
    case None =>
    case Some(pm) =>
      LowerTwice(pm.name);
      PutKeepsLowerKeys(acc, Lower(pm.name), pm.value);
      ParamsFromLowerKeys(t[pm.len..], Put(acc, Lower(pm.name), pm.value));
  }

  /**
   * One turn of the parameter loop on the rest `t` of the text: the parameter
   * is assigned and the rest moves past it (`x` and `n` are the result and the
   * length being built, `c` what was consumed before).
   */
  lemma ParamsStep(t: string, params: Params, pm: ParamMatch, x: Params, n: nat, c: nat)
    requires MatchParam(t) == Some(pm)
    requires x == ParamsFrom(t, params).0 && n == c + ParamsFrom(t, params).1
    ensures x == ParamsFrom(t[pm.len..], Put(params, Lower(pm.name), pm.value)).0
    ensures n == c + pm.len + ParamsFrom(t[pm.len..], Put(params, Lower(pm.name), pm.value)).1
  {
  }

  /**
   * `parseParams(data, hdr)` on the rest `t` of the text from the cursor: the
   * loop over `applyRegex`, adding to `acc`. `n` is how far the cursor moves.
   */
  method ParseParams(t0: string, acc: Params) returns (params: Params, n: nat)
    ensures params == ParamsFrom(t0, acc).0 && n == ParamsFrom(t0, acc).1
  {
    var t := t0;
    params, n := acc, 0;
    ghost var x, total := ParamsFrom(t, acc).0, ParamsFrom(t, acc).1;
    while true
      invariant x == ParamsFrom(t, params).0 && total == n + ParamsFrom(t, params).1
      decreases |t|
    {
      var m := MatchParam(t);
      if m.None? {
        return;
      }
      ParamsStep(t, params, m.value, x, total, n);
      params := Put(params, Lower(m.value.name), m.value.value);
      n := n + m.value.len;
      t := t[m.value.len..];
    }
  }

  // ---------------------------------------------------------------- address-of-record

  /**
   * `parseAOR` from the start of `t`: the display name, the URI text (bracketed
   * or bare) and the parameters after it.
   */
  function AorFrom(t: string): (r: Option<(Aor, nat)>)
    ensures r.Some? ==> 0 < r.value.1 <= |t| && r.value.0.uri.UriText?
  {
    match MatchAorHead(t)
    case None => None
    case Some(h) => Some(AorWithParams(h, t[h.len..]))
  }

  /** The address of a matched head, with the parameters that follow it in `rest`. */
  function AorWithParams(h: AorHead, rest: string): (r: (Aor, nat))
    ensures h.len <= r.1 <= h.len + |rest|
    ensures r.0.name == h.name && r.0.uri == UriText(h.uri)
    ensures LowerKeys(r.0.params)
  {
    ParamsFromLowerKeys(rest, []);
    var p := ParamsFrom(rest, []);
    (Aor(h.name, UriText(h.uri), p.0), h.len + p.1)
  }

  /** `parseAorWithUri`: as `parseAOR`, then the URI text is parsed (`NoUri` when it is not a SIP URI). */
  function AorWithUriFrom(t: string): (r: Option<(Aor, nat)>)
    ensures r.None? <==> AorFrom(t).None?
    ensures r.Some? ==> r.value.1 == AorFrom(t).value.1 && r.value.0.params == AorFrom(t).value.0.params
    ensures r.Some? ==> (r.value.0.uri.UriObject? <==> ParseUri(AorFrom(t).value.0.uri.text).Some?) && !r.value.0.uri.UriText?
  {
    match AorFrom(t)
    case None => None
    case Some((aor, n)) =>
      var uri := match ParseUri(aor.uri.text) case Some(u) => UriObject(u) case None => NoUri;
      Some((aor.(uri := uri), n))
  }

  method ParseAor(t: string) returns (r: Option<Aor>, n: nat)
    ensures AorFrom(t).None? ==> r.None? && n == 0
    ensures AorFrom(t).Some? ==> r == Some(AorFrom(t).value.0) && n == AorFrom(t).value.1
  {
    var h := MatchAorHead(t);
    if h.None? {
      return None, 0;
    }
    var params, k := ParseParams(t[h.value.len..], []);
    r, n := Some(Aor(h.value.name, UriText(h.value.uri), params)), h.value.len + k;
  }

  method ParseAorWithUri(t: string) returns (r: Option<Aor>, n: nat)
    ensures AorWithUriFrom(t).None? ==> r.None? && n == 0
    ensures AorWithUriFrom(t).Some? ==> r == Some(AorWithUriFrom(t).value.0) && n == AorWithUriFrom(t).value.1
  {
    r, n := ParseAor(t);
    if r.Some? {
      var u := ParseUri(r.value.uri.text);
      r := Some(r.value.(uri := if u.Some? then UriObject(u.value) else NoUri));
    }
  }

  // ---------------------------------------------------------------- Via

  /** `parseVia` from the start of `t`: `SIP/version/transport host[:port]` and the parameters. */
  function ViaFrom(t: string): (r: Option<(Via, nat)>)
    ensures r.Some? ==> 0 < r.value.1 <= |t|
  {
    match MatchViaHead(t)
    case None => None
    case Some(h) => Some(ViaWithParams(h, t[h.len..]))
  }

  /** The Via entry of a matched head, with the parameters that follow it in `rest`. */
  function ViaWithParams(h: ViaHead, rest: string): (r: (Via, nat))
    ensures h.len <= r.1 <= h.len + |rest|
    ensures r.0.host == h.host && r.0.protocol == h.protocol
    ensures LowerKeys(r.0.params)
  {
    ParamsFromLowerKeys(rest, []);
    var p := ParamsFrom(rest, []);
    (Via(h.version, h.protocol, h.host, h.port, p.0), h.len + p.1)
  }

  method ParseVia(t: string) returns (r: Option<Via>, n: nat)
    ensures ViaFrom(t).None? ==> r.None? && n == 0
    ensures ViaFrom(t).Some? ==> r == Some(ViaFrom(t).value.0) && n == ViaFrom(t).value.1
  {
    var h := MatchViaHead(t);
    if h.None? {
      return None, 0;
    }
    var params, k := ParseParams(t[h.value.len..], []);
    r, n := Some(Via(h.value.version, h.value.protocol, h.value.host, h.value.port, params)), h.value.len + k;
  }

  // ---------------------------------------------------------------- authentication headers

  /** The further `,key=value` pairs of an authentication header, each assigned in turn. */
  function AuthPairsFrom(t: string, acc: AuthFields): (r: (AuthFields, nat))
    ensures r.1 <= |t|
    decreases |t|
  {
    match MatchAuthPair(t, true)
    case None => (acc, 0)
    case Some(p) =>
      var rest := AuthPairsFrom(t[p.len..], Put(acc, p.key, p.value));
      (rest.0, p.len + rest.1)
  }

  /** A key once present stays present: later pairs only overwrite. */
  lemma {:induction false} AuthPairsKeepKeys(t: string, acc: AuthFields, k: string)
    requires HasKey(acc, k)
    ensures HasKey(AuthPairsFrom(t, acc).0, k)
    decreases |t|
  {
    match MatchAuthPair(t, true)
    case None =>
    case Some(p) =>
      assert HasKey(Put(acc, p.key, p.value), k) by {
        if k != p.key { assert Lookup(Put(acc, p.key, p.value), k) == Lookup(acc, k); }
      }
      AuthPairsKeepKeys(t[p.len..], Put(acc, p.key, p.value), k);
  }

  lemma AuthPairsStep(t: string, a: AuthFields, p: AuthPair, x: AuthFields, total: nat, c: nat)
    requires MatchAuthPair(t, true) == Some(p)
    requires x == AuthPairsFrom(t, a).0 && total == c + AuthPairsFrom(t, a).1
    ensures x == AuthPairsFrom(t[p.len..], Put(a, p.key, p.value)).0
    ensures total == c + p.len + AuthPairsFrom(t[p.len..], Put(a, p.key, p.value)).1
  {
  }

  /** The `while` loop of the two authentication parsers on the rest `t0` of the text. */
  method ParseAuthPairs(t0: string, acc: AuthFields) returns (a: AuthFields, n: nat)
    ensures a == AuthPairsFrom(t0, acc).0 && n == AuthPairsFrom(t0, acc).1
  {
    var t := t0;
    a, n := acc, 0;
    ghost var x, total := AuthPairsFrom(t, acc).0, AuthPairsFrom(t, acc).1;
    while true
      invariant x == AuthPairsFrom(t, a).0 && total == n + AuthPairsFrom(t, a).1
      decreases |t|
    {
      var p := MatchAuthPair(t, true);
      if p.None? {
        return;
      }
      AuthPairsStep(t, a, p.value, x, total, n);
      a := Put(a, p.value.key, p.value.value);
      n := n + p.value.len;
      t := t[p.value.len..];
    }
  }

  /**
   * A required first `key=value` pair assigned into `acc`, then the further
   * pairs: the common part of the two authentication parsers.
   */
  function PairsFrom(t: string, acc: AuthFields): (r: Option<(AuthFields, nat)>)
    ensures r.Some? ==> 0 < r.value.1 <= |t|
    ensures r.None? <==> MatchAuthPair(t, false).None?
  {
    match MatchAuthPair(t, false)
    case None => None
    case Some(p) =>
      var rest := AuthPairsFrom(t[p.len..], Put(acc, p.key, p.value));
      Some((rest.0, p.len + rest.1))
  }

  /**
   * `parseAuthHeader` from the start of `t`: the scheme, a first `key=value`
   * pair (required) and the further pairs. A key named `scheme` overwrites the
   * scheme.
   */
  function AuthFrom(t: string): (r: Option<(AuthFields, nat)>)
    ensures r.Some? ==> 0 < r.value.1 <= |t|
  {
    match MatchAuthScheme(t)
    case None => None
    case Some((scheme, n)) =>
      match PairsFrom(t[n..], [("scheme", scheme)])
      case None => None
      case Some((a, k)) => Some((a, n + k))
  }

  /** A parsed authentication header always has a `scheme` field. */
  lemma AuthHasScheme(t: string)
    requires AuthFrom(t).Some?
    ensures HasKey(AuthFrom(t).value.0, "scheme")
  {
    var (scheme, n) := MatchAuthScheme(t).value;
    var p := MatchAuthPair(t[n..], false).value;
    var first := Put([("scheme", scheme)], p.key, p.value);
    assert HasKey(first, "scheme") by {
      if p.key != "scheme" { assert Lookup(first, "scheme") == Lookup([("scheme", scheme)], "scheme"); }
    }
    AuthPairsKeepKeys(t[n..][p.len..], first, "scheme");
  }

  /** `parseAuthenticationInfoHeader` from the start of `t`: the pairs without a scheme. */
  function AuthInfoFrom(t: string): (r: Option<(AuthFields, nat)>)
    ensures r.Some? ==> 0 < r.value.1 <= |t|
  {
    PairsFrom(t, [])
  }

  method ParsePairs(t: string, acc: AuthFields) returns (r: Option<AuthFields>, n: nat)
    ensures PairsFrom(t, acc).None? ==> r.None? && n == 0
    ensures PairsFrom(t, acc).Some? ==> r == Some(PairsFrom(t, acc).value.0) && n == PairsFrom(t, acc).value.1
  {
    var p := MatchAuthPair(t, false);
    if p.None? {
      return None, 0;
    }
    var a, k := ParseAuthPairs(t[p.value.len..], Put(acc, p.value.key, p.value.value));
    r, n := Some(a), p.value.len + k;
  }

  method ParseAuthHeader(t: string) returns (r: Option<AuthFields>, n: nat)
    ensures AuthFrom(t).None? ==> r.None?
    ensures AuthFrom(t).Some? ==> r == Some(AuthFrom(t).value.0) && n == AuthFrom(t).value.1
  {
    var sc := MatchAuthScheme(t);
    if sc.None? {
      return None, 0;
    }
    var k;
    r, k := ParsePairs(t[sc.value.1..], [("scheme", sc.value.0)]);
    n := sc.value.1 + k;
  }

  method ParseAuthenticationInfo(t: string) returns (r: Option<AuthFields>, n: nat)
    ensures AuthInfoFrom(t).None? ==> r.None? && n == 0
    ensures AuthInfoFrom(t).Some? ==> r == Some(AuthInfoFrom(t).value.0) && n == AuthInfoFrom(t).value.1
  {
    r, n := ParsePairs(t, []);
  }

  // ---------------------------------------------------------------- multi-valued headers

  /** The element parser a multi-valued header is built from. */
  datatype ItemKind = AorItems | AorUriItems | ViaItems | AuthItems

  function ItemFrom(kind: ItemKind, t: string): (r: Option<(Item, nat)>)
    ensures r.Some? ==> 0 < r.value.1 <= |t|
  {
    match kind
    case AorItems => (match AorFrom(t) case Some((a, n)) => Some((AorItem(a), n)) case None => None)
    case AorUriItems => (match AorWithUriFrom(t) case Some((a, n)) => Some((AorItem(a), n)) case None => None)
    case ViaItems => (match ViaFrom(t) case Some((v, n)) => Some((ViaItem(v), n)) case None => None)
    case AuthItems => (match AuthFrom(t) case Some((a, n)) => Some((AuthItem(a), n)) case None => None)
  }

  /** The element parser of a kind, as the function value `parseMultiHeader` is given. */
  function ItemParser(kind: ItemKind): string -> Option<(Item, nat)> {
    t => ItemFrom(kind, t)
  }

  /**
   * The `do ... while` of `parseMultiHeader(parser, d, h)` from the start of
   * `t`: an element, then further elements while text remains and `\s*,\s*`
   * follows. The flag is set when an element parser threw; the elements read
   * before it are kept.
   */
  function ItemsFrom(parser: string -> Option<(Item, nat)>, t: string): (r: (seq<Item>, bool))
    ensures !r.1 ==> |r.0| > 0
    ensures parser(t).None? ==> r.1 && r.0 == []
    decreases |t|
  {
    match parser(t)
    case None => ([], true)
    case Some((item, n)) =>
      if n < |t| then
        var u := t[n..];
        match MatchComma(u)
        case None => ([item], false)
        case Some(c) =>
          var rest := ItemsFrom(parser, u[c..]);
          ([item] + rest.0, rest.1)
      else ([item], false)
  }

  method ParseItem(kind: ItemKind, t: string) returns (r: Option<Item>, n: nat)
    ensures ItemFrom(kind, t).None? ==> r.None?
    ensures ItemFrom(kind, t).Some? ==> r == Some(ItemFrom(kind, t).value.0) && n == ItemFrom(kind, t).value.1
  {
    match kind
    case AorItems =>
      var a; a, n := ParseAor(t);
      r := if a.Some? then Some(AorItem(a.value)) else None;
    case AorUriItems =>
      var a; a, n := ParseAorWithUri(t);
      r := if a.Some? then Some(AorItem(a.value)) else None;
    case ViaItems =>
      var v; v, n := ParseVia(t);
      r := if v.Some? then Some(ViaItem(v.value)) else None;
    case AuthItems =>
      var a; a, n := ParseAuthHeader(t);
      r := if a.Some? then Some(AuthItem(a.value)) else None;
  }

  /** One element and its comma: the list read from `t` is that element followed by the list after the comma. */
  lemma ItemsStep(parser: string -> Option<(Item, nat)>, t: string, item: Item, n: nat, c: nat, xs: seq<Item>, threw: bool, pushed: seq<Item>)
    requires parser(t) == Some((item, n)) && n < |t| && MatchComma(t[n..]) == Some(c)
    requires xs == pushed + ItemsFrom(parser, t).0 && threw == ItemsFrom(parser, t).1
    ensures xs == (pushed + [item]) + ItemsFrom(parser, t[n..][c..]).0 && threw == ItemsFrom(parser, t[n..][c..]).1
  {
  }

  /** The last element: no comma follows it. */
  lemma ItemsLast(parser: string -> Option<(Item, nat)>, t: string, item: Item, n: nat, xs: seq<Item>, threw: bool, pushed: seq<Item>)
    requires parser(t) == Some((item, n)) && (n >= |t| || MatchComma(t[n..]).None?)
    requires xs == pushed + ItemsFrom(parser, t).0 && threw == ItemsFrom(parser, t).1
    ensures xs == pushed + [item] && !threw
  {
  }

  /**
   * `parseMultiHeader(parser, d, h)` on the value `s`: the elements are pushed
   * onto `h` (the earlier value of the header). The flag reports an exception.
   */
  method ParseMultiHeader(kind: ItemKind, s: string, h: seq<Item>) returns (items: seq<Item>, threw: bool)
    ensures items == h + ItemsFrom(ItemParser(kind), s).0 && threw == ItemsFrom(ItemParser(kind), s).1
  {
    var parser := ItemParser(kind);
    items := h;
    var t := s;
    ghost var xs, fails := h + ItemsFrom(parser, t).0, ItemsFrom(parser, t).1;
    while true
      invariant xs == items + ItemsFrom(parser, t).0 && fails == ItemsFrom(parser, t).1
      decreases |t|
    {
      var item, j := ParseItem(kind, t);
      assert parser(t) == ItemFrom(kind, t);
      if item.None? {
        return items, true;
      }
      if j < |t| {
        var c := MatchComma(t[j..]);
        if c.Some? {
          ItemsStep(parser, t, item.value, j, c.value, xs, fails, items);
          items := items + [item.value];
          t := t[j..][c.value..];
          continue;
        }
      }
      ItemsLast(parser, t, item.value, j, xs, fails, items);
      return items + [item.value], false;
    }
  }

  // ---------------------------------------------------------------- the parsers table

  /** The compact forms of section 7.3.3 of RFC 3261. */
  function CompactForm(name: string): (r: string)
    ensures |name| != 1 ==> r == name
  {
    if name == "i" then "call-id"
    else if name == "m" then "contact"
    else if name == "e" then "contact-encoding"
    else if name == "l" then "content-length"
    else if name == "c" then "content-type"
    else if name == "f" then "from"
    else if name == "s" then "subject"
    else if name == "k" then "supported"
    else if name == "t" then "to"
    else if name == "v" then "via"
    else name
  }

  predicate IsCompact(name: string) {
    name in {"i", "m", "e", "l", "c", "f", "s", "k", "t", "v"}
  }

  /** The names the compact forms stand for. */
  predicate IsLongForm(name: string) {
    name in {"call-id", "contact", "contact-encoding", "content-length", "content-type", "from", "subject", "supported", "to", "via"}
  }

  /** A compact name is replaced by its long form; every other name is kept. */
  lemma CompactFormExpands(name: string)
    ensures !IsCompact(CompactForm(name))
    ensures IsCompact(name) ==> IsLongForm(CompactForm(name))
    ensures !IsCompact(name) ==> CompactForm(name) == name
  {
  }

  /** The structured header names that `parseMultiHeader` reads. */
  function MultiKind(name: string): Option<ItemKind> {
    if name == "contact" then Some(AorItems)
    else if name in {"route", "record-route", "path"} then Some(AorUriItems)
    else if name == "via" then Some(ViaItems)
    else if name in {"www-authenticate", "proxy-authenticate", "authorization", "proxy-authorization"} then Some(AuthItems)
    else None
  }

  /** The headers that have a parser of their own; every other name is generic text. */
  predicate Structured(name: string) {
    MultiKind(name).Some? || name in {"to", "from", "refer-to", "cseq", "content-length", "authentication-info"}
  }

  /** The earlier value as the array `h || []` of `parseMultiHeader`. */
  function ItemsOf(prior: Option<HeaderValue>): seq<Item> {
    match prior case Some(List(items)) => items case _ => []
  }

  /**
   * The effect of one header line on `headers[name]`, whose earlier value is
   * `prior`: the new value, or `None` when the slot is left as it was (the parser
   * threw and the assignment did not happen). A multi-valued parser that
   * throws after pushing onto the earlier array leaves that array extended.
   */
  function HeaderValueOf(name: string, s: string, prior: Option<HeaderValue>): (r: Option<HeaderValue>)
    ensures !Structured(name) ==> r.Some? && r.value.Text?
    ensures !Structured(name) && (prior.None? || prior == Some(Text(""))) ==> r == Some(Text(s))
    ensures name == "content-length" ==> r == Some(Number(ToNumber(s)))
  {
    match MultiKind(name)
    case Some(kind) =>
      var (items, threw) := ItemsFrom(ItemParser(kind), s);
      if !threw then Some(List(ItemsOf(prior) + items))
      else if prior.Some? && prior.value.List? then Some(List(prior.value.items + items))
      else None
    case None =>
      if name in {"to", "from", "refer-to"} then
        match AorFrom(s) case Some((aor, _)) => Some(Address(aor)) case None => None
      else if name == "cseq" then
        match MatchCSeq(s) case Some((n, m)) => Some(Sequence(CSeq(n, m))) case None => None
      else if name == "content-length" then Some(Number(ToNumber(s)))
      else if name == "authentication-info" then
        match AuthInfoFrom(s) case Some((a, _)) => Some(Credentials(a)) case None => None
      else
        match prior
        case Some(Text(h)) => if h != "" then Some(Text(h + "," + s)) else Some(Text(s))
        case _ => Some(Text(s))
  }

  method ParseHeaderValue(name: string, s: string, prior: Option<HeaderValue>) returns (r: Option<HeaderValue>)
    ensures r == HeaderValueOf(name, s, prior)
  {
    var kind := MultiKind(name);
    if kind.Some? {
      var items, threw := ParseMultiHeader(kind.value, s, ItemsOf(prior));
      if !threw {
        r := Some(List(items));
      } else if prior.Some? && prior.value.List? {
        r := Some(List(items));
      } else {
        r := None;
      }
    } else if name in {"to", "from", "refer-to"} {
      var a, _ := ParseAor(s);
      r := if a.Some? then Some(Address(a.value)) else None;
    } else if name == "cseq" {
      var c := MatchCSeq(s);
      r := if c.Some? then Some(Sequence(CSeq(c.value.0, c.value.1))) else None;
    } else if name == "content-length" {
      r := Some(Number(ToNumber(s)));
    } else if name == "authentication-info" {
      var a, _ := ParseAuthenticationInfo(s);
      r := if a.Some? then Some(Credentials(a.value)) else None;
    } else if prior.Some? && prior.value.Text? && prior.value.text != "" {
      r := Some(Text(prior.value.text + "," + s));
    } else {
      r := Some(Text(s));
    }
  }
}
