/**
 * Reading back a written Via entry: `parseVia` on the text `stringifyVia`
 * writes gives back the version, the (upper-cased) transport, the host, the
 * port and the parameters, and consumes the whole text.
 *
 * The Via matcher works on suffixes (after "SIP", after the version, after
 * the host), so every step is a lemma about the suffix it sees.
 */
module ViaRoundTrip {
  import opened Wrappers
  import opened Js
  import opened SipTypes
  import opened Grammar
  import opened Parameters
  import opened Uris
  import opened HeaderParsers
  import opened MessageText
  import opened HeaderRoundTrip
  import opened StartLineRoundTrip

  /** The port a written entry reads back as: port 0 is not written. */
  function WrittenPort(port: Option<nat>): (r: Option<nat>)
    ensures r.Some? ==> r == port && r.value != 0
    ensures port.Some? && port.value != 0 ==> r == port
  {
    if port == Some(0) then None else port
  }

  /**
   * A Via entry whose text reads back: a well-formed (or missing) version,
   * a transport and a host the head pattern takes whole, and parameters
   * that read back (distinct, lower-case names).
   */
  predicate ViaOk(v: Via) {
    && WritableVersion(v.version)
    && 0 < Run(v.protocol, NonSpace) == |v.protocol|
    && 0 < Run(v.host, ViaHost) == |v.host|
    && HeaderParamsOk(v.params) && UniqueKeys(v.params)
  }

  /** The entry `parseVia` gives back for the text of `v`. */
  function ReadVia(v: Via): (r: Via)
    ensures r.host == v.host && r.params == v.params
  {
    Via(VersionText(v.version), Upper(v.protocol), v.host, WrittenPort(v.port), v.params)
  }

  // ---------------------------------------------------------------- pieces

  /** A string that is one run of a class has every character in it. */
  lemma {:induction false} RunWhole(s: string, k: CharClass)
    requires Run(s, k) == |s|
    ensures All(s, k)
  {
    RunFacts(s, k);
    assert s[..|s|] == s;
  }

  /** The run over `x + y` is `x` when `x` is one run of the class and `y` does not continue it. */
  lemma {:induction false} RunThrough(x: string, y: string, k: CharClass)
    requires Run(x, k) == |x|
    requires y == [] || !In(y[0], k)
    ensures Run(x + y, k) == |x|
    decreases |x|
  {
    if x == [] {
      assert x + y == y;
    } else {
      assert (x + y)[1..] == x[1..] + y;
      RunThrough(x[1..], y, k);
    }
  }

  /** The digits of a port number are one run of `\d`. */
  lemma {:induction false} PortDigitsRun(n: nat)
    ensures 0 < Run(NatToString(n), Digit) == |NatToString(n)|
  {
    var d := NatToString(n);
    CodeDigits(n);
    assert d + [] == d;
    RunOfConcat(d, [], Digit);
  }

  /** Upper-casing keeps a transport free of white space. */
  lemma {:induction false} UpperRun(p: string)
    requires Run(p, NonSpace) == |p|
    ensures Run(Upper(p), NonSpace) == |p|
  {
    var q := Upper(p);
    RunWhole(p, NonSpace);
    forall i | 0 <= i < |q|
      ensures InAt(q, i, NonSpace)
    {
      assert InAt(p, i, NonSpace);
    }
    assert q + [] == q;
    RunOfConcat(q, [], NonSpace);
  }

  /** A version starts with a digit. */
  lemma {:induction false} VersionStart(v: string)
    requires 0 < Version(v)
    ensures v != [] && IsDigit(v[0])
  {
  }

  /** `\s*\/\s*` over a slash that is followed by no white space. */
  lemma {:induction false} SlashOf(rest: string)
    requires rest == [] || !IsSpace(rest[0])
    ensures Slash("/" + rest) == 1
  {
    var t := "/" + rest;
    assert Spaces(t) == 0;
    assert t[1..] == rest;
  }

  // ---------------------------------------------------------------- the version

  /** The first slash after "SIP". */
  lemma {:induction false} FirstSlash(v: string, s: string)
    requires 0 < Version(v)
    ensures Slash("/" + v + "/" + s) == 1
  {
    VersionStart(v);
    assert "/" + v + "/" + s == "/" + (v + "/" + s);
    SlashOf(v + "/" + s);
  }

  /** The version after the first slash. */
  lemma {:induction false} VersionAfterSlash(v: string, s: string)
    requires 0 < Version(v) == |v|
    ensures Version(("/" + v + "/" + s)[1..]) == |v|
  {
    WholeVersionShape(v);
    assert ("/" + v + "/" + s)[1..] == v + ("/" + s);
    VersionOf(v, "/" + s);
  }

  /** The second slash, before the transport. */
  lemma {:induction false} SecondSlash(v: string, s: string)
    requires 0 < Run(s, NonSpace)
    ensures Slash(("/" + v + "/" + s)[1 + |v|..]) == 1
  {
    assert ("/" + v + "/" + s)[1 + |v|..] == "/" + s;
    SlashOf(s);
  }

  /** Where the two slashes and the version sit in the text `u` after "SIP". */
  predicate VersionLayout(u: string, v: string) {
    && 0 < |v| && 1 + |v| <= |u|
    && Slash(u) == 1 && Version(u[1..]) == |v| && Slash(u[1 + |v|..]) == 1 && u[1..1 + |v|] == v
  }

  /** The layout of the written version part. */
  lemma {:induction false} VersionFacts(u: string, v: string, s: string)
    requires 0 < Version(v) == |v| && 0 < Run(s, NonSpace)
    requires u == "/" + v + "/" + s
    ensures VersionLayout(u, v)
  {
    FirstSlash(v, s);
    VersionAfterSlash(v, s);
    SecondSlash(v, s);
    assert u[1..1 + |v|] == v;
  }

  /** `\s*\/\s*(\d+\.\d+)\s*\/\s*` reads the version and both slashes. */
  lemma {:induction false} ViaVersionOf(u: string, v: string)
    requires VersionLayout(u, v)
    ensures ViaVersion(u) == Some((v, 2 + |v|))
  {
  }

  // ---------------------------------------------------------------- transport, host and port

  /**
   * Where the written transport and host sit in the text `s` the head pattern
   * sees after the version: the transport ends at `pn`, one space follows, and
   * the host runs to `he`.
   */
  predicate SentByLayout(s: string, pn: int, he: int) {
    && 0 < pn && pn + 1 < he <= |s|
    && Run(s, NonSpace) == pn && Spaces(s[pn..]) == 1 && Run(s[pn + 1..], ViaHost) == he - (pn + 1)
  }

  /** A string split after its prefix `x`. */
  lemma {:induction false} AfterPrefix(s: string, x: string, y: string)
    requires s == x + y
    ensures s[..|x|] == x && s[|x|..] == y
  {
  }

  /** `\s*` over one space before a character that is not white space. */
  lemma {:induction false} OneSpace(w: string, x: string)
    requires w == " " + x && (x == [] || !IsSpace(x[0]))
    ensures Spaces(w) == 1
  {
    assert w[0] == ' ' && In(w[0], Space);
    assert w[1..] == x;
    assert Run(x, Space) == 0;
  }

  /** The run of the transport, and the one space after it. */
  lemma {:induction false} TransportRun(s: string, p: string, h: string, r: string)
    requires 0 < Run(p, NonSpace) == |p| && h != [] && !IsSpace(h[0])
    requires s == p + " " + h + r
    ensures Run(s, NonSpace) == |p| && Spaces(s[|p|..]) == 1
  {
    var x := h + r;
    var w := " " + x;
    assert s == p + w;
    RunThrough(p, w, NonSpace);
    AfterPrefix(s, p, w);
    OneSpace(w, x);
  }

  /** The run of the host, up to the colon of the port or the semicolon of a parameter. */
  lemma {:induction false} HostRun(s: string, p: string, h: string, r: string)
    requires Run(h, ViaHost) == |h| && (r == [] || r[0] in ";:")
    requires s == p + " " + h + r
    ensures Run(s[|p| + 1..], ViaHost) == |h| && s[|p| + 1 + |h|..] == r
  {
    assert s[|p| + 1..] == h + r;
    RunThrough(h, r, ViaHost);
  }

  /** The layout, with the transport `p`, the host `h` and the rest `r` at its positions. */
  predicate SentByPieces(s: string, pn: int, he: int, p: string, h: string, r: string) {
    SentByLayout(s, pn, he) && s[..pn] == p && s[pn + 1..he] == h && s[he..] == r
  }

  /** The layout of a written transport and host, and the pieces at its positions. */
  lemma {:induction false} SentByFacts(s: string, pn: int, he: int, p: string, h: string, r: string)
    requires 0 < Run(p, NonSpace) == |p| && 0 < Run(h, ViaHost) == |h| && (r == [] || r[0] in ";:")
    requires s == p + " " + h + r && pn == |p| && he == pn + 1 + |h|
    ensures SentByPieces(s, pn, he, p, h, r)
  {
    TransportRun(s, p, h, r);
    HostRun(s, p, h, r);
  }

  /** `([\S]+)\s+([^\s;:]+)`: the matcher reaches the optional port. */
  lemma {:induction false} SentByEnters(s: string, pn: int, he: int)
    requires SentByLayout(s, pn, he)
    ensures ViaSentBy(s) == PortAt(s, pn, pn + 1, he)
  {
  }

  /** No port: the parameters (if any) start with a semicolon. */
  lemma {:induction false} NoPortSuffix(sp: string)
    requires sp == [] || sp[0] == ';'
    ensures PortSuffix(sp).None?
  {
    assert Spaces(sp) == 0;
  }

  /** `\s*:\s*(\d+)`: the written port. */
  lemma {:induction false} PortSuffixOf(n: nat, sp: string)
    requires sp == [] || sp[0] == ';'
    ensures PortSuffix(":" + NatToString(n) + sp) == Some((n, 1 + |NatToString(n)|))
  {
    var d := NatToString(n);
    var t := ":" + d + sp;
    PortDigitsRun(n);
    assert Spaces(t) == 0;
    assert t[1..] == d + sp;
    assert Spaces(d + sp) == 0;
    RunThrough(d, sp, Digit);
    assert t[1..1 + |d|] == d;
    DigitsOfNatToString(n);
  }

  /** The port text is empty or starts with the colon. */
  lemma {:induction false} PortTextStart(port: Option<nat>, sp: string)
    requires sp == [] || sp[0] == ';'
    ensures PortText(port) + sp == [] || (PortText(port) + sp)[0] in ";:"
  {
  }

  /** What the port pattern reads from the text `r` after the host: the port `wp`, in `plen` characters. */
  predicate PortReads(r: string, wp: Option<nat>, plen: nat) {
    if wp.None? then PortSuffix(r).None? && plen == 0 else PortSuffix(r) == Some((wp.value, plen))
  }

  /** The port pattern reads the written port, or nothing for a port that is not written. */
  lemma {:induction false} WrittenPortReads(port: Option<nat>, sp: string)
    requires sp == [] || sp[0] == ';'
    ensures PortReads(PortText(port) + sp, WrittenPort(port), |PortText(port)|)
  {
    if port.Some? && port.value != 0 {
      assert PortText(port) + sp == ":" + NatToString(port.value) + sp;
      PortSuffixOf(port.value, sp);
    } else {
      assert PortText(port) + sp == sp;
      NoPortSuffix(sp);
    }
  }

  /** The optional port after the host. */
  lemma {:induction false} PortAtOf(s: string, pn: int, hb: int, he: int, r: string, wp: Option<nat>, plen: nat)
    requires 0 < pn < hb < he <= |s| && s[he..] == r && PortReads(r, wp, plen)
    ensures PortAt(s, pn, hb, he) == Some(SentBy(s[..pn], s[hb..he], wp, he + plen))
  {
  }

  /** `([\S]+)\s+([^\s;:]+)(?:\s*:\s*(\d+))?` over a laid-out transport, host and port. */
  lemma {:induction false} ViaSentByOf(s: string, pn: int, he: int, p: string, h: string, r: string, wp: Option<nat>, plen: nat)
    requires SentByPieces(s, pn, he, p, h, r) && PortReads(r, wp, plen)
    ensures ViaSentBy(s) == Some(SentBy(p, h, wp, he + plen))
  {
    SentByEnters(s, pn, he);
    PortAtOf(s, pn, pn + 1, he, r, wp, plen);
    SentByRead(s, pn, he, p, h, wp, he + plen);
  }

  /** The matched pieces are the written transport and host. */
  lemma {:induction false} SentByRead(s: string, pn: int, he: int, p: string, h: string, port: Option<nat>, len: nat)
    requires 0 < pn && pn + 1 < he <= |s| && s[..pn] == p && s[pn + 1..he] == h
    requires ViaSentBy(s) == PortAt(s, pn, pn + 1, he)
    requires PortAt(s, pn, pn + 1, he) == Some(SentBy(s[..pn], s[pn + 1..he], port, len))
    ensures ViaSentBy(s) == Some(SentBy(p, h, port, len))
  {
  }

  // ---------------------------------------------------------------- the head

  /** Where "SIP", the version part `u` and the transport part `s` sit in `t`. */
  predicate HeadLayout(t: string, u: string, v: string, s: string) {
    |t| == 5 + |v| + |s| && t[..3] == "SIP" && t[3..] == u && t[5 + |v|..] == s
  }

  lemma {:induction false} HeadFacts(t: string, u: string, v: string, s: string)
    requires u == "/" + v + "/" + s && t == "SIP" + u
    ensures HeadLayout(t, u, v, s)
  {
  }

  /** After "SIP", the version; the transport starts after the second slash. */
  lemma {:induction false} HeadEnters(t: string, u: string, v: string, s: string)
    requires HeadLayout(t, u, v, s) && ViaVersion(u) == Some((v, 2 + |v|))
    ensures MatchViaHead(t) == SentByAt(t, v, 5 + |v|)
  {
  }

  /** The head once the transport, host and port are read. */
  lemma {:induction false} SentByAtOf(t: string, u: string, v: string, s: string, sb: SentBy)
    requires HeadLayout(t, u, v, s) && ViaSentBy(s) == Some(sb)
    ensures SentByAt(t, v, 5 + |v|) == Some(ViaHead(v, sb.protocol, sb.host, sb.port, 5 + |v| + sb.len))
  {
  }

  /** The whole entry once the head and the parameters after it are read. */
  lemma {:induction false} ViaFromHead(t: string, h: ViaHead, sp: string, p: Params)
    requires MatchViaHead(t) == Some(h) && h.len + |sp| == |t| && t[h.len..] == sp
    requires ParamsFrom(sp, []).0 == p && ParamsFrom(sp, []).1 == |sp|
    ensures ViaFrom(t).Some? && ViaFrom(t).value.0 == Via(h.version, h.protocol, h.host, h.port, p) && ViaFrom(t).value.1 == |t|
  {
  }

  /** The head of a text with "SIP", the version part `u` and the transport part `s`. */
  lemma {:induction false} ViaHeadFrom(t: string, u: string, v: string, s: string, sb: SentBy)
    requires HeadLayout(t, u, v, s) && ViaVersion(u) == Some((v, 2 + |v|)) && ViaSentBy(s) == Some(sb)
    ensures MatchViaHead(t) == Some(ViaHead(v, sb.protocol, sb.host, sb.port, 5 + |v| + sb.len))
  {
    HeadEnters(t, u, v, s);
    SentByAtOf(t, u, v, s, sb);
  }

  /** Where the pieces of a written entry sit: the head, then the parameters from `hl` on. */
  lemma {:induction false} ViaTextFacts(t: string, u: string, vt: string, s: string, p: string, h: string, pt: string, sp: string, hl: int)
    requires t == "SIP/" + vt + "/" + p + " " + h + pt + sp
    requires s == p + " " + h + (pt + sp) && u == "/" + vt + "/" + s && hl == 5 + |vt| + |p| + 1 + |h| + |pt|
    ensures HeadLayout(t, u, vt, s) && hl + |sp| == |t| && t[hl..] == sp
  {
    assert t == "SIP" + u;
    HeadFacts(t, u, vt, s);
    assert t == t[..hl] + sp;
  }

  /** A written parameter list is read back whole. */
  lemma {:induction false} ParamsWhole(sp: string, params: Params)
    requires sp == StringifyParams(params) && HeaderParamsOk(params) && UniqueKeys(params)
    ensures ParamsFrom(sp, []).0 == params && ParamsFrom(sp, []).1 == |sp|
  {
    ParamsReadBack(sp, params);
  }

  /** The entry read from a text laid out as a head and a parameter list. */
  lemma {:induction false} ViaTextReads(t: string, u: string, vt: string, s: string, sb: SentBy, sp: string, hl: int, params: Params)
    requires HeadLayout(t, u, vt, s) && ViaVersion(u) == Some((vt, 2 + |vt|)) && ViaSentBy(s) == Some(sb)
    requires hl == 5 + |vt| + sb.len && hl + |sp| == |t| && t[hl..] == sp
    requires ParamsFrom(sp, []).0 == params && ParamsFrom(sp, []).1 == |sp|
    ensures ViaFrom(t).Some? && ViaFrom(t).value.0 == Via(vt, sb.protocol, sb.host, sb.port, params) && ViaFrom(t).value.1 == |t|
  {
    ViaHeadFrom(t, u, vt, s, sb);
    ViaFromHead(t, ViaHead(vt, sb.protocol, sb.host, sb.port, hl), sp, params);
  }

  /** The pieces of a Via entry that reads back. */
  predicate ViaPiecesOk(vt: string, p: string, h: string, sp: string, params: Params) {
    && 0 < Version(vt) == |vt| && 0 < Run(p, NonSpace) == |p| && 0 < Run(h, ViaHost) == |h|
    && sp == StringifyParams(params) && HeaderParamsOk(params) && UniqueKeys(params)
  }

  /** The entry read from a text whose pieces are laid out. */
  lemma {:induction false} ViaLayoutReads(t: string, u: string, vt: string, s: string, pn: int, he: int, p: string, h: string,
                                          r: string, wp: Option<nat>, plen: nat, sp: string, hl: int, params: Params)
    requires HeadLayout(t, u, vt, s) && VersionLayout(u, vt)
    requires SentByPieces(s, pn, he, p, h, r) && PortReads(r, wp, plen)
    requires hl == 5 + |vt| + he + plen && hl + |sp| == |t| && t[hl..] == sp
    requires ParamsFrom(sp, []).0 == params && ParamsFrom(sp, []).1 == |sp|
    ensures ViaFrom(t).Some? && ViaFrom(t).value.0 == Via(vt, p, h, wp, params) && ViaFrom(t).value.1 == |t|
  {
    ViaVersionOf(u, vt);
    ViaSentByOf(s, pn, he, p, h, r, wp, plen);
    ViaTextReads(t, u, vt, s, SentBy(p, h, wp, he + plen), sp, hl, params);
  }

  /** A text made of the pieces of a Via entry is read back as that entry. */
  lemma {:induction false} ViaTextReadsBack(t: string, vt: string, p: string, h: string, port: Option<nat>, sp: string, params: Params)
    requires ViaPiecesOk(vt, p, h, sp, params)
    requires t == "SIP/" + vt + "/" + p + " " + h + PortText(port) + sp
    ensures ViaFrom(t).Some? && ViaFrom(t).value.0 == Via(vt, p, h, WrittenPort(port), params) && ViaFrom(t).value.1 == |t|
  {
    var pt := PortText(port);
    var r := pt + sp;
    var s := p + " " + h + r;
    var u := "/" + vt + "/" + s;
    var pn, he := |p|, |p| + 1 + |h|;
    var hl := 5 + |vt| + he + |pt|;
    PortTextStart(port, sp);
    SentByFacts(s, pn, he, p, h, r);
    WrittenPortReads(port, sp);
    VersionFacts(u, vt, s);
    ViaTextFacts(t, u, vt, s, p, h, pt, sp, hl);
    ParamsWhole(sp, params);
    ViaLayoutReads(t, u, vt, s, pn, he, p, h, r, WrittenPort(port), |pt|, sp, hl, params);
  }

  /**
   * `parseVia` reads a written entry back whole: the version in its written
   * form (2.0 when there was none), the transport upper-cased, the host, the
   * port (none for port 0, which is not written) and the parameters.
   */
  lemma {:induction false} ViaValueReadsBack(v: Via)
    requires ViaOk(v)
    ensures ViaFrom(ViaValue(v)).Some?
    ensures ViaFrom(ViaValue(v)).value.0 == ReadVia(v) && ViaFrom(ViaValue(v)).value.1 == |ViaValue(v)|
  {
    WrittenVersionWhole(v.version);
    UpperRun(v.protocol);
    ViaTextReadsBack(ViaValue(v), VersionText(v.version), Upper(v.protocol), v.host, v.port, StringifyParams(v.params), v.params);
  }

  /**
   * The Via line of a well-formed entry is its value on one line, and the
   * header parser reads that value back as the list of that one entry.
   */
  lemma {:induction false} ViaLineReadsBack(v: Via)
    requires ViaOk(v)
    ensures ViaLine(v) == Line("Via", ViaValue(v))
    ensures ItemsFrom(ItemParser(ViaItems), ViaValue(v)) == ([ViaItem(ReadVia(v))], false)
  {
    ViaValueReadsBack(v);
    assert ItemParser(ViaItems)(ViaValue(v)) == Some((ViaItem(ReadVia(v)), |ViaValue(v)|));
  }
}
