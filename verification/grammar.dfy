/**
 * The regular expressions of the SIP codec, each written out as a matcher over
 * the text that starts at the parser's cursor. A matcher returns what the
 * expression captures and how many characters it consumed, or `None` when the
 * expression does not match at the cursor (which is all `applyRegex` accepts).
 * Every matcher follows the backtracking order of the expression it replaces:
 * greedy quantifiers take the longest run that still lets the rest match.
 */
module Grammar {
  import opened Wrappers
  import opened Js

  // ---------------------------------------------------------------- character classes

  /**
   * A bracketed character class of a regular expression: the characters that
   * are white space (`\s`), word characters (`\w`), digits (`\d`) or listed in
   * `chars`, or, when `negated`, every other character.
   */
  datatype CharClass = CharClass(negated: bool, space: bool, word: bool, digit: bool, chars: string)

  predicate In(c: char, k: CharClass) {
    var listed := (k.space && IsSpace(c)) || (k.word && IsWordChar(c)) || (k.digit && IsDigit(c)) || c in k.chars;
    if k.negated then !listed else listed
  }

  const Space := CharClass(false, true, false, false, "")                  // \s
  const Digit := CharClass(false, false, false, true, "")                  // \d
  const Token := CharClass(false, false, true, false, "-.!%*_+`'~")        // [\w\-.!%*_+`'~]
  const NonSpace := CharClass(true, true, false, false, "")                // \S
  const NotGt := CharClass(true, false, false, false, ">")                 // [^>]
  const NotLineTerminator := CharClass(true, false, false, false, "\n\r\U{2028}\U{2029}")  // .
  const BareUri := CharClass(true, true, false, false, ";")                // [^\s;]
  const ViaHost := CharClass(true, true, false, false, ";:")               // [^\s;:]
  const AuthKey := CharClass(true, true, false, false, ",\"=")             // [^\s,"=]
  const AuthValue := CharClass(true, true, false, false, ",\"")            // [^\s,"]
  const User := CharClass(true, true, false, false, ">:@")                 // [^\s>:@]
  const Password := CharClass(true, true, false, false, "@>")              // [^\s@>]
  const Host := CharClass(false, false, true, false, "-.")                 // [\w\-\.]
  const UriParamName := CharClass(true, true, false, false, "=?>;")        // [^\s=\?>;]
  const UriParamValue := CharClass(true, true, false, false, "?;")         // [^\s?\;]
  const UriHeader := CharClass(true, true, false, false, "&=>")            // [^\s&=>]
  const NotSemiEq := CharClass(true, false, false, false, ";=")            // [^;=]
  /** `[^@]`: not a regular-expression class of the codec; it states where user info can end. */
  const NotAt := CharClass(true, false, false, false, "@")

  /** `s` has a character of the class `k` at index `i`. */
  predicate InAt(s: string, i: int, k: CharClass) { 0 <= i < |s| && In(s[i], k) }

  /**
   * Every character of `s` is in the class `k`. The quantifier is triggered by
   * `InAt` only, so a proof instantiates it where it names an index.
   */
  predicate All(s: string, k: CharClass) { forall i :: 0 <= i < |s| ==> InAt(s, i, k) }

  lemma AllTail(s: string, k: CharClass)
    requires All(s, k) && s != []
    ensures In(s[0], k) && All(s[1..], k)
  {
    assert InAt(s, 0, k);
    forall i | 0 <= i < |s| - 1
      ensures InAt(s[1..], i, k)
    {
      assert InAt(s, i + 1, k);
    }
  }

  lemma AllCons(c: char, s: string, k: CharClass)
    requires In(c, k) && All(s, k)
    ensures All([c] + s, k)
  {
    forall i | 0 <= i < |s| + 1
      ensures InAt([c] + s, i, k)
    {
      if i > 0 {
        assert InAt(s, i - 1, k);
      }
    }
  }

  lemma AllConcat(x: string, y: string, k: CharClass)
    requires All(x, k) && All(y, k)
    ensures All(x + y, k)
  {
    forall i | 0 <= i < |x + y|
      ensures InAt(x + y, i, k)
    {
      if i < |x| {
        assert InAt(x, i, k);
      } else {
        assert InAt(y, i - |x|, k);
      }
    }
  }

  lemma DigitsAreAll(d: string)
    requires AllDigits(d)
    ensures All(d, Digit)
  {
    forall i | 0 <= i < |d|
      ensures InAt(d, i, Digit)
    {
      assert DigitAt(d, i);
    }
  }

  /** A character outside the class does not occur in a string of the class. */
  lemma NotInAll(s: string, k: CharClass, c: char)
    requires All(s, k) && !In(c, k)
    ensures c !in s
  {
    forall i | 0 <= i < |s|
      ensures s[i] != c
    {
      assert InAt(s, i, k);
    }
  }

  /** Length of the longest prefix of `t` in the class `k` (a greedy `k*`). */
  function Run(t: string, k: CharClass): (n: nat)
    ensures n <= |t|
  {
    if t != [] && In(t[0], k) then 1 + Run(t[1..], k) else 0
  }

  /** The run is made of characters of the class and ends at one outside it, or at the end. */
  lemma {:induction false} RunFacts(t: string, k: CharClass)
    ensures All(t[..Run(t, k)], k)
    ensures Run(t, k) < |t| ==> !In(t[Run(t, k)], k)
    decreases |t|
  {
    if t != [] && In(t[0], k) {
      RunFacts(t[1..], k);
      AllCons(t[0], t[1..][..Run(t[1..], k)], k);
      assert t[..Run(t, k)] == [t[0]] + t[1..][..Run(t[1..], k)];
    }
  }

  /** A greedy `\s*`. */
  function Spaces(t: string): (n: nat)
    ensures n <= |t|
  {
    Run(t, Space)
  }

  /** The run over `x + y` is `x` when all of `x` and not the first character of `y` is in the class. */
  lemma {:induction false} RunOfConcat(x: string, y: string, k: CharClass)
    requires All(x, k)
    requires y == [] || !In(y[0], k)
    ensures Run(x + y, k) == |x|
    decreases |x|
  {
    if x == [] {
      assert x + y == y;
    } else {
      AllTail(x, k);
      assert (x + y)[1..] == x[1..] + y;
      RunOfConcat(x[1..], y, k);
    }
  }

  /** The same fact about a prefix of `t` given by its length. */
  lemma RunPrefix(t: string, x: string, k: CharClass)
    requires |x| <= |t| && t[..|x|] == x && All(x, k)
    requires |x| == |t| || !In(t[|x|], k)
    ensures Run(t, k) == |x|
  {
    assert t == x + t[|x|..];
    RunOfConcat(x, t[|x|..], k);
  }

  /** The run that starts at index `i` of `t` is `x`. */
  lemma RunAt(t: string, i: nat, x: string, k: CharClass)
    requires i + |x| <= |t| && t[i..i + |x|] == x && All(x, k)
    requires i + |x| == |t| || !In(t[i + |x|], k)
    ensures Run(t[i..], k) == |x|
  {
    var u := t[i..];
    assert u[..|x|] == x;
    RunPrefix(u, x, k);
  }

  // ---------------------------------------------------------------- quoted strings

  /**
   * The rest of a quoted string `"[^"\\]*(?:\\.[^"\\]*)*"` after its opening
   * quote, up to and including the closing quote.
   */
  function QuotedRest(t: string): (r: Option<nat>)
    ensures r.Some? ==> 0 < r.value <= |t| && t[r.value - 1] == '"'
  {
    if t == [] then None
    else if t[0] == '"' then Some(1)
    else if t[0] == '\\' then
      if |t| >= 2 && !IsLineTerminator(t[1]) then
        match QuotedRest(t[2..]) case None => None case Some(n) => Some(n + 2)
      else None
    else
      match QuotedRest(t[1..]) case None => None case Some(n) => Some(n + 1)
  }

  /** Length of a quoted string at the start of `t`, quotes included. */
  function Quoted(t: string): (r: Option<nat>)
    ensures r.Some? ==> 2 <= r.value <= |t| && t[0] == '"'
  {
    if t != [] && t[0] == '"' then
      match QuotedRest(t[1..]) case None => None case Some(n) => Some(n + 1)
    else None
  }

  // ---------------------------------------------------------------- header parameters

  datatype ParamMatch = ParamMatch(name: string, value: Option<string>, len: nat)

  /**
   * An optional `\s*=\s*(token+|quoted)` parameter value at the start of `u`:
   * the value and the characters consumed.
   */
  function ParamValue(u: string): (r: Option<(string, nat)>)
    ensures r.Some? ==> 0 < |r.value.0| < r.value.1 <= |u|
  {
    var c := Spaces(u);
    if c < |u| && u[c] == '=' then ValueAt(u, c + 1 + Spaces(u[c + 1..])) else None
  }

  /** The value itself, a token run or a quoted string, at index `d` of `u`. */
  function ValueAt(u: string, d: nat): (r: Option<(string, nat)>)
    requires 0 < d <= |u|
    ensures r.Some? ==> 0 < |r.value.0| < r.value.1 <= |u|
  {
    var v := u[d..];
    var tok := Run(v, Token);
    if tok > 0 then Some((v[..tok], d + tok))
    else match Quoted(v)
      case Some(q) => Some((v[..q], d + q))
      case None => None
  }

  /** `\s*;\s*([\w\-.!%*_+`'~]+)(?:\s*=\s*([\w\-.!%*_+`'~]+|"[^"\\]*(\\.[^"\\]*)*"))?` */
  function MatchParam(t: string): (r: Option<ParamMatch>)
    ensures r.Some? ==> 0 < r.value.len <= |t| && r.value.name != []
    ensures r.Some? && r.value.value.Some? ==> r.value.value.value != []
  {
    var a := Spaces(t);
    if a < |t| && t[a] == ';' then NamedParam(t, a + 1 + Spaces(t[a + 1..])) else None
  }

  /** The parameter whose name starts at index `b` of `t`. */
  function NamedParam(t: string, b: nat): (r: Option<ParamMatch>)
    requires 0 < b <= |t|
    ensures r.Some? ==> 0 < r.value.len <= |t| && r.value.name != []
    ensures r.Some? && r.value.value.Some? ==> r.value.value.value != []
  {
    var n := Run(t[b..], Token);
    if n == 0 then None else ValuedParam(t, b, b + n)
  }

  /** The parameter named `t[b..e]` and the optional value after its name. */
  function ValuedParam(t: string, b: nat, e: nat): (r: Option<ParamMatch>)
    requires 0 < b < e <= |t|
    ensures r.Some? ==> 0 < r.value.len <= |t| && r.value.name != []
    ensures r.Some? && r.value.value.Some? ==> r.value.value.value != []
  {
    match ParamValue(t[e..])
    case Some((v, len)) => Some(ParamMatch(t[b..e], Some(v), e + len))
    case None => Some(ParamMatch(t[b..e], None, e))
  }

  /** `\s*,\s*`, the separator between the values of a multi-valued header. */
  function MatchComma(t: string): (r: Option<nat>)
    ensures r.Some? ==> 0 < r.value <= |t|
  {
    var a := Spaces(t);
    if a < |t| && t[a] == ',' then Some(a + 1 + Spaces(t[a + 1..])) else None
  }

  // ---------------------------------------------------------------- address-of-record

  datatype AorHead = AorHead(name: Option<string>, uri: string, len: nat)

  /** Length of `token(\s+token)*` at the start of `t` (greedy). */
  function NameTokens(t: string): (n: nat)
    ensures n <= |t|
    decreases |t|
  {
    var first := Run(t, Token);
    if first == 0 then 0
    else
      var w := Spaces(t[first..]);
      var next := Run(t[first + w..], Token);
      if w > 0 && next > 0 then first + w + NameTokens(t[first + w..]) else first
  }

  /** The display name of `name? \s* < \s* uri \s* >`: a token sequence or a quoted string. */
  function DisplayName(t: string): (n: nat)
    ensures n <= |t|
  {
    if t != [] && IsTokenChar(t[0]) then NameTokens(t)
    else match Quoted(t) case Some(q) => q case None => 0
  }

  /** The angle-bracket form `\s*<\s*([^>]*)\s*>` after the display name. */
  function Bracketed(r: string): (x: Option<(string, nat)>)
    ensures x.Some? ==> 0 < x.value.1 <= |r|
  {
    var a := Spaces(r);
    if a < |r| && r[a] == '<' then BracketedAt(r, a + 1 + Spaces(r[a + 1..])) else None
  }

  /** The URI text from index `b` of `r` up to the closing `>`. */
  function BracketedAt(r: string, b: nat): (x: Option<(string, nat)>)
    requires b <= |r|
    ensures x.Some? ==> 0 < x.value.1 <= |r|
  {
    var c := Run(r[b..], NotGt);
    if b + c < |r| then Some((r[b..b + c], b + c + 1)) else None
  }

  /** The bare form `(?:[^\s@"<]@)?[^\s;]+`. */
  function BareUriLen(t: string): (n: nat)
    ensures n <= |t|
  {
    var run := Run(t, BareUri);
    if run > 0 then run
    else if |t| >= 2 && t[0] == ';' && t[1] == '@' && Run(t[2..], BareUri) > 0 then 2 + Run(t[2..], BareUri)
    else 0
  }

  /**
   * The expression of `parseAOR`: `name? <uri>` is tried first, then a bare
   * URI; `uri` is `r[2] || r[3] || ''`.
   */
  function MatchAorHead(t: string): (r: Option<AorHead>)
    ensures r.Some? ==> 0 < r.value.len <= |t|
  {
    AorHeadAt(t, DisplayName(t))
  }

  /** The address after a display name of length `n`: bracketed, or else bare. */
  function AorHeadAt(t: string, n: nat): (r: Option<AorHead>)
    requires n <= |t|
    ensures r.Some? ==> 0 < r.value.len <= |t|
  {
    match Bracketed(t[n..])
    case Some((uri, len)) => Some(AorHead(if n == 0 then None else Some(t[..n]), uri, n + len))
    case None =>
      var b := BareUriLen(t);
      if b > 0 then Some(AorHead(None, t[..b], b)) else None
  }

  // ---------------------------------------------------------------- Via

  datatype ViaHead = ViaHead(version: string, protocol: string, host: string, port: Option<nat>, len: nat)

  /** `\d+\.\d+`: the length of a version number at the start of `t`. */
  function Version(t: string): (n: nat)
    ensures n <= |t|
  {
    var d1 := Run(t, Digit);
    if d1 > 0 && d1 < |t| && t[d1] == '.' then MinorAt(t, d1 + 1) else 0
  }

  /** The end of the digits after the dot of a version, which start at index `b`; 0 if there are none. */
  function MinorAt(t: string, b: nat): (n: nat)
    requires b <= |t|
    ensures n <= |t|
  {
    var d2 := Run(t[b..], Digit);
    if d2 > 0 then b + d2 else 0
  }

  /** `\s*\/\s*`: the length of a slash with surrounding white space. */
  function Slash(t: string): (n: nat)
    ensures n <= |t|
  {
    var a := Spaces(t);
    if a < |t| && t[a] == '/' then a + 1 + Spaces(t[a + 1..]) else 0
  }

  /** `(?:\s*:\s*(\d+))?`: an optional port. */
  function PortSuffix(t: string): (r: Option<(nat, nat)>)
    ensures r.Some? ==> 0 < r.value.1 <= |t|
  {
    var a := Spaces(t);
    if a < |t| && t[a] == ':' then PortDigits(t, a + 1 + Spaces(t[a + 1..])) else None
  }

  /** The port number whose digits start at index `b` of `t`. */
  function PortDigits(t: string, b: nat): (r: Option<(nat, nat)>)
    requires 0 < b <= |t|
    ensures r.Some? ==> 0 < r.value.1 <= |t|
  {
    var d := Run(t[b..], Digit);
    if d > 0 then Some((DigitsValue(t[b..b + d]), b + d)) else None
  }

  /** `\s*\/\s*(\d+\.\d+)\s*\/\s*` after "SIP": the version and the characters consumed. */
  function ViaVersion(u: string): (r: Option<(string, nat)>)
    ensures r.Some? ==> 0 < r.value.1 <= |u|
  {
    var s1 := Slash(u);
    if s1 == 0 then None else VersionAt(u, s1)
  }

  /** The version that starts at index `s1` of `u`, and the slash after it. */
  function VersionAt(u: string, s1: nat): (r: Option<(string, nat)>)
    requires s1 <= |u|
    ensures r.Some? ==> 0 < r.value.1 <= |u|
  {
    var vn := Version(u[s1..]);
    if vn == 0 then None else VersionEnd(u, s1, s1 + vn)
  }

  /** The slash after the version `u[s1..ve]`. */
  function VersionEnd(u: string, s1: nat, ve: nat): (r: Option<(string, nat)>)
    requires s1 < ve <= |u|
    ensures r.Some? ==> 0 < r.value.1 <= |u|
  {
    var s2 := Slash(u[ve..]);
    if s2 == 0 then None else Some((u[s1..ve], ve + s2))
  }

  datatype SentBy = SentBy(protocol: string, host: string, port: Option<nat>, len: nat)

  /** `([\S]+)\s+([^\s;:]+)(?:\s*:\s*(\d+))?`: transport, host and optional port. */
  function ViaSentBy(u: string): (r: Option<SentBy>)
    ensures r.Some? ==> 0 < r.value.len <= |u| && r.value.protocol != [] && r.value.host != []
  {
    var pn := Run(u, NonSpace);
    if pn == 0 then None else
    var w := Spaces(u[pn..]);
    if w == 0 then None else HostAt(u, pn, pn + w)
  }

  /** The host that starts at index `hb` of `u`, after the transport `u[..pn]`. */
  function HostAt(u: string, pn: nat, hb: nat): (r: Option<SentBy>)
    requires 0 < pn < hb <= |u|
    ensures r.Some? ==> 0 < r.value.len <= |u| && r.value.protocol != [] && r.value.host != []
  {
    var hn := Run(u[hb..], ViaHost);
    if hn == 0 then None else PortAt(u, pn, hb, hb + hn)
  }

  /** The optional port after the host `u[hb..he]`. */
  function PortAt(u: string, pn: nat, hb: nat, he: nat): (r: Option<SentBy>)
    requires 0 < pn < hb < he <= |u|
    ensures r.Some? ==> 0 < r.value.len <= |u| && r.value.protocol != [] && r.value.host != []
  {
    match PortSuffix(u[he..])
    case Some((port, len)) => Some(SentBy(u[..pn], u[hb..he], Some(port), he + len))
    case None => Some(SentBy(u[..pn], u[hb..he], None, he))
  }

  /** `SIP\s*\/\s*(\d+\.\d+)\s*\/\s*([\S]+)\s+([^\s;:]+)(?:\s*:\s*(\d+))?` */
  function MatchViaHead(t: string): (r: Option<ViaHead>)
    ensures r.Some? ==> 0 < r.value.len <= |t| && r.value.protocol != [] && r.value.host != []
  {
    if |t| >= 3 && t[..3] == "SIP" then
      match ViaVersion(t[3..])
      case None => None
      case Some((version, vlen)) => SentByAt(t, version, 3 + vlen)
    else None
  }

  /** The transport, host and port that start at index `s` of `t`, after the version. */
  function SentByAt(t: string, version: string, s: nat): (r: Option<ViaHead>)
    requires 0 < s <= |t|
    ensures r.Some? ==> 0 < r.value.len <= |t| && r.value.protocol != [] && r.value.host != []
  {
    match ViaSentBy(t[s..])
    case None => None
    case Some(sb) => Some(ViaHead(version, sb.protocol, sb.host, sb.port, s + sb.len))
  }

  // ---------------------------------------------------------------- authentication headers

  datatype AuthPair = AuthPair(key: string, value: string, len: nat)

  /** `([^\s]*)\s+`: the scheme of an authentication header and the characters consumed. */
  function MatchAuthScheme(t: string): (r: Option<(string, nat)>)
    ensures r.Some? ==> 0 < r.value.1 <= |t|
  {
    var n := Run(t, NonSpace);
    var w := Spaces(t[n..]);
    if w > 0 then Some((t[..n], n + w)) else None
  }

  /**
   * `([^\s,"=]*)\s*=\s*([^\s,"]+|"[^"\\]*(?:\\.[^"\\]*)*")\s*`, preceded by
   * `,\s*` when `leadingComma` (the expression of the loop that reads the
   * further pairs).
   */
  function MatchAuthPair(t: string, leadingComma: bool): (r: Option<AuthPair>)
    ensures r.Some? ==> 0 < r.value.len <= |t|
  {
    var start := if leadingComma then (if t != [] && t[0] == ',' then 1 + Spaces(t[1..]) else 0) else 0;
    if leadingComma && start == 0 then None else AuthKeyAt(t, start)
  }

  /** The pair whose key starts at index `start` of `t`. */
  function AuthKeyAt(t: string, start: nat): (r: Option<AuthPair>)
    requires start <= |t|
    ensures r.Some? ==> 0 < r.value.len <= |t|
  {
    AuthEqAt(t, start, start + Run(t[start..], AuthKey))
  }

  /** The `\s*=` after the key `t[start..ke]`, then the value. */
  function AuthEqAt(t: string, start: nat, ke: nat): (r: Option<AuthPair>)
    requires start <= ke <= |t|
    ensures r.Some? ==> 0 < r.value.len <= |t|
  {
    var a := Spaces(t[ke..]);
    if ke + a < |t| && t[ke + a] == '=' then AuthValueFrom(t, start, ke, ke + a + 1) else None
  }

  /** The `\s*` after the `=`, then the value of the pair keyed `t[start..ke]`. */
  function AuthValueFrom(t: string, start: nat, ke: nat, e: nat): (r: Option<AuthPair>)
    requires start <= ke < e <= |t|
    ensures r.Some? ==> 0 < r.value.len <= |t|
  {
    AuthValueAt(t, start, ke, e + Spaces(t[e..]))
  }

  /** The value of the pair keyed `t[start..ke]`, which starts at index `vb`. */
  function AuthValueAt(t: string, start: nat, ke: nat, vb: nat): (r: Option<AuthPair>)
    requires start <= ke < vb <= |t|
    ensures r.Some? ==> 0 < r.value.len <= |t|
  {
    var tok := Run(t[vb..], AuthValue);
    var vn := if tok > 0 then tok else match Quoted(t[vb..]) case Some(q) => q case None => 0;
    if vn == 0 then None else AuthPairEnd(t, start, ke, vb, vb + vn)
  }

  /** The pair keyed `t[start..ke]` with the value `t[vb..ve]`, and the white space after it. */
  function AuthPairEnd(t: string, start: nat, ke: nat, vb: nat, ve: nat): (r: Option<AuthPair>)
    requires start <= ke < vb < ve <= |t|
    ensures r.Some? ==> 0 < r.value.len <= |t|
  {
    Some(AuthPair(t[start..ke], t[vb..ve], ve + Spaces(t[ve..])))
  }

  // ---------------------------------------------------------------- CSeq

  /** Index of the first decimal digit in `t`, or `|t|`. */
  function FirstDigit(t: string): (p: nat)
    ensures p <= |t|
    ensures forall k :: 0 <= k < p ==> !IsDigit(t[k])
    ensures p < |t| ==> IsDigit(t[p])
  {
    if t == [] || IsDigit(t[0]) then 0 else 1 + FirstDigit(t[1..])
  }

  /**
   * `/(\d+)\s*([\S]+)/.exec(s)`: an unanchored search. When the digits are
   * followed by nothing but white space, backtracking gives the last digit to
   * the method (`"12"` reads as sequence 1, method `"2"`).
   */
  function MatchCSeq(t: string): (r: Option<(nat, string)>)
  {
    var p := FirstDigit(t);
    if p == |t| then None else
    var d := Run(t[p..], Digit);
    var q := p + d;
    var w := Spaces(t[q..]);
    if q + w < |t| then
      var m := Run(t[q + w..], NonSpace);
      Some((DigitsValue(t[p..q]), t[q + w..q + w + m]))
    else if d >= 2 then Some((DigitsValue(t[p..q - 1]), t[q - 1..q]))
    else None
  }


  // ---------------------------------------------------------------- lines

  /** Index of the first `c` in `t`, or `|t|`. */
  function IndexOf(t: string, c: char): (p: nat)
    ensures p <= |t|
    ensures forall k :: 0 <= k < p ==> t[k] != c
    ensures p < |t| ==> t[p] == c
  {
    if t == [] || t[0] == c then 0 else 1 + IndexOf(t[1..], c)
  }

  /**
   * `^([\S]*?)\s*:\s*([\s\S]*)$`: the raw name and value of a header line. The
   * lazy name stops at the first colon of the leading non-space run; the value
   * loses its leading white space.
   */
  function MatchHeaderLine(line: string): (r: Option<(string, string)>)
    ensures r.Some? ==> |r.value.0| < |line| && line[..|r.value.0|] == r.value.0 && ':' !in r.value.0
    ensures r.Some? ==> |r.value.1| < |line| && line[|line| - |r.value.1|..] == r.value.1
  {
    var n := Run(line, NonSpace);
    var c := IndexOf(line[..n], ':');
    var colon := if c < n then c else n + Spaces(line[n..]);
    if colon < |line| && line[colon] == ':' then
      var name := line[..if c < n then c else n];
      Some((name, line[colon + 1 + Spaces(line[colon + 1..])..]))
    else None
  }

  datatype StatusLine = StatusLine(version: string, status: nat, reason: string)

  /** `^SIP\/(\d+\.\d+)\s+(\d+)\s*(.*)\s*$` */
  function MatchStatusLine(line: string): (r: Option<StatusLine>)
    ensures r.Some? ==> |line| > 4 && line[..4] == "SIP/"
    ensures r.Some? ==> r.value.version != [] && 4 + |r.value.version| <= |line| && r.value.version == line[4..4 + |r.value.version|]
  {
    if |line| >= 4 && line[..4] == "SIP/" then
      var vn := Version(line[4..]);
      if vn == 0 then None else StatusAfterVersion(line, 4 + vn)
    else None
  }

  /** The status code and reason after the version `line[4..ve]`. */
  function StatusAfterVersion(line: string, ve: nat): (r: Option<StatusLine>)
    requires 4 < ve <= |line|
    ensures r.Some? ==> r.value.version == line[4..ve]
  {
    var w := Spaces(line[ve..]);
    if w == 0 then None else
    var sb := ve + w;
    var sn := Run(line[sb..], Digit);
    if sn == 0 then None else StatusReason(line, ve, sb, sb + sn)
  }

  /** The reason phrase after the status code `line[sb..se]`, up to trailing white space and the end. */
  function StatusReason(line: string, ve: nat, sb: nat, se: nat): (r: Option<StatusLine>)
    requires 4 < ve < sb < se <= |line|
    ensures r.Some? ==> r.value.version == line[4..ve]
  {
    var rb := se + Spaces(line[se..]);
    var rn := Run(line[rb..], NotLineTerminator);
    if rb + rn + Spaces(line[rb + rn..]) == |line| then
      Some(StatusLine(line[4..ve], DigitsValue(line[sb..se]), line[rb..rb + rn]))
    else None
  }

  datatype RequestLine = RequestLine(methodName: string, uri: string, version: string)

  /** `^([\w\-.!%*_+`'~]+)\s([^\s]+)\sSIP\s*\/\s*(\d+\.\d+)` (no end anchor). */
  function MatchRequestLine(line: string): (r: Option<RequestLine>)
    ensures r.Some? ==> var n := |r.value.methodName|; 0 < n < |line| && line[..n] == r.value.methodName && IsSpace(line[n])
    ensures r.Some? ==> r.value.uri != [] && r.value.version != []
  {
    var mn := Run(line, Token);
    if mn == 0 || mn >= |line| || !IsSpace(line[mn]) then None else RequestUri(line, mn)
  }

  /** The request URI after the method `line[..mn]` and one white-space character. */
  function RequestUri(line: string, mn: nat): (r: Option<RequestLine>)
    requires 0 < mn < |line|
    ensures r.Some? ==> r.value.methodName == line[..mn] && r.value.uri != [] && r.value.version != []
  {
    var ub := mn + 1;
    var ue := ub + Run(line[ub..], NonSpace);
    if ue == ub || ue >= |line| || !IsSpace(line[ue]) then None else RequestVersion(line, mn, ue)
  }

  /** `SIP`, a slash and the version after the request URI `line[mn + 1..ue]` and one white-space character. */
  function RequestVersion(line: string, mn: nat, ue: nat): (r: Option<RequestLine>)
    requires 0 < mn < mn + 1 < ue < |line|
    ensures r.Some? ==> r.value.methodName == line[..mn] && r.value.uri != [] && r.value.version != []
  {
    var sb := ue + 1;
    if |line| - sb >= 3 && line[sb..sb + 3] == "SIP" then
      var s := Slash(line[sb + 3..]);
      if s == 0 then None else
      var vb := sb + 3 + s;
      var vn := Version(line[vb..]);
      if vn == 0 then None else Some(RequestLine(line[..mn], line[mn + 1..ue], line[vb..vb + vn]))
    else None
  }
}
