/**
 * Reading back a written address: `parseAOR` on the text `stringifyAOR`
 * writes gives back the display name, the URI text and the parameters, and
 * `parseAorWithUri` gives back the URI object itself when it is well formed.
 *
 * As for Via entries, lemmas that know how the text is put together state
 * where its pieces sit; lemmas that evaluate a matcher see only those facts.
 */
module AorRoundTrip {
  import opened Wrappers
  import opened Js
  import opened SipTypes
  import opened Grammar
  import opened Parameters
  import opened Uris
  import opened UriRoundTrip
  import opened HeaderParsers
  import opened MessageText
  import opened HeaderRoundTrip
  import opened ViaRoundTrip

  /** A display name that reads back: none, one token, or a quoted string without escapes. */
  predicate NameOk(name: Option<string>) {
    name.None? || 0 < Run(name.value, Token) == |name.value| || QuotedString(name.value)
  }

  /** A URI text that reads back between the angle brackets: no `>`, no leading white space. */
  predicate UriTextOk(u: string) {
    Run(u, NotGt) == |u| && (u == [] || !IsSpace(u[0]))
  }

  /** An address whose text reads back. */
  predicate AorOk(a: Aor) {
    && NameOk(a.name) && !a.uri.NoUri? && UriTextOk(StringifyUriRef(a.uri).value)
    && HeaderParamsOk(a.params) && UniqueKeys(a.params)
  }

  // ---------------------------------------------------------------- the display name

  /** No name: the text starts with the space before `<`. */
  lemma {:induction false} NoNameDisplay(r: string, w: string)
    requires r == " <" + w
    ensures DisplayName(r) == 0
  {
    assert r[0] == ' ';
  }

  /** A token name is followed by a space and `<`, which ends the token sequence. */
  lemma {:induction false} TokenNameLayout(t: string, nm: string, r: string, w: string)
    requires 0 < Run(nm, Token) == |nm| && t == nm + r && r == " <" + w
    ensures IsTokenChar(t[0]) && Run(t, Token) == |nm| && Spaces(t[|nm|..]) == 1 && Run(t[|nm| + 1..], Token) == 0
  {
    assert In(nm[0], Token) && t[0] == nm[0];
    RunThrough(nm, r, Token);
    AfterPrefix(t, nm, r);
    OneSpace(r, "<" + w);
    assert t[|nm| + 1..] == "<" + w;
  }

  /** `token(\s+token)*` stops before `<`. */
  lemma {:induction false} TokenNameRuns(t: string, n: int)
    requires 0 < n < |t| && IsTokenChar(t[0]) && Run(t, Token) == n && Spaces(t[n..]) == 1 && Run(t[n + 1..], Token) == 0
    ensures DisplayName(t) == n
  {
  }

  /** A quoted name is matched as a quoted string. */
  lemma {:induction false} QuotedNameDisplay(t: string, nm: string, r: string)
    requires QuotedString(nm) && t == nm + r
    ensures DisplayName(t) == |nm|
  {
    QuotedOf(nm, r);
    assert t[0] == '"';
  }

  /** The display name of a written address is the written name. */
  lemma {:induction false} NameFacts(t: string, nm: string, r: string, w: string, name: Option<string>)
    requires NameOk(name) && nm == name.GetOr("") && (name.Some? ==> nm != [])
    requires t == nm + r && r == " <" + w
    ensures NameRead(t, nm, r, name)
  {
    AfterPrefix(t, nm, r);
    if name.None? {
      assert t == r;
      NoNameDisplay(r, w);
    } else if QuotedString(nm) {
      QuotedNameDisplay(t, nm, r);
    } else {
      TokenNameLayout(t, nm, r, w);
      TokenNameRuns(t, |nm|);
    }
  }

  // ---------------------------------------------------------------- the bracketed URI

  /** Where `<`, the URI and `>` sit in the text `r` after the name. */
  predicate BracketLayout(r: string, n: int) {
    0 <= n && 2 + n < |r| && Spaces(r) == 1 && r[1] == '<' && Spaces(r[2..]) == 0 && Run(r[2..], NotGt) == n
  }

  /** The layout of a written ` <uri>`. */
  lemma {:induction false} BracketFacts(r: string, u: string, sp: string)
    requires UriTextOk(u) && r == " <" + u + ">" + sp
    ensures BracketLayout(r, |u|) && r[2..2 + |u|] == u
  {
    OneSpace(r, "<" + u + ">" + sp);
    assert r[2..] == u + (">" + sp);
    RunThrough(u, ">" + sp, NotGt);
  }

  /** `\s*<\s*([^>]*)\s*>` over a laid-out bracket. */
  lemma {:induction false} BracketedOf(r: string, n: int)
    requires BracketLayout(r, n)
    ensures Bracketed(r) == Some((r[2..2 + n], 3 + n))
  {
  }

  // ---------------------------------------------------------------- the address

  /** The head: the name, then the bracketed URI. */
  lemma {:induction false} AorHeadOf(t: string, n: int, r: string, u: string)
    requires 0 <= n <= |t| && DisplayName(t) == n && t[n..] == r && Bracketed(r) == Some((u, 3 + |u|))
    ensures MatchAorHead(t) == Some(AorHead(if n == 0 then None else Some(t[..n]), u, n + 3 + |u|))
  {
  }

  /** The whole address once the head and the parameters after it are read. */
  lemma {:induction false} AorFromHead(t: string, h: AorHead, sp: string, p: Params)
    requires MatchAorHead(t) == Some(h) && h.len + |sp| == |t| && t[h.len..] == sp
    requires ParamsFrom(sp, []).0 == p && ParamsFrom(sp, []).1 == |sp|
    ensures AorFrom(t).Some? && AorFrom(t).value.0 == Aor(h.name, UriText(h.uri), p) && AorFrom(t).value.1 == |t|
  {
  }

  /** How the written name sits at the start of the text `t`, followed by `r`. */
  predicate NameRead(t: string, nm: string, r: string, name: Option<string>) {
    && |nm| <= |t| && DisplayName(t) == |nm| && t[..|nm|] == nm && t[|nm|..] == r
    && ((name.None? && nm == []) || (name.Some? && name.value == nm && nm != []))
  }

  /** The head read from a laid-out name and bracket. */
  lemma {:induction false} AorHeadRead(t: string, nm: string, r: string, u: string, name: Option<string>)
    requires NameRead(t, nm, r, name) && BracketLayout(r, |u|) && r[2..2 + |u|] == u
    ensures MatchAorHead(t) == Some(AorHead(name, u, |nm| + 3 + |u|))
  {
    BracketedOf(r, |u|);
    AorHeadOf(t, |nm|, r, u);
  }

  /** Where the parameters start in a written address. */
  lemma {:induction false} AorTextFacts(t: string, nm: string, r: string, u: string, sp: string, hl: int)
    requires t == nm + " <" + u + ">" + sp && r == " <" + u + ">" + sp && hl == |nm| + 3 + |u|
    ensures t == nm + r && hl + |sp| == |t| && t[hl..] == sp
  {
    assert t == (nm + " <" + u + ">") + sp;
  }

  /** The head of a text made of a name, a bracketed URI and the parameter text. */
  lemma {:induction false} AorHeadReadBack(t: string, name: Option<string>, nm: string, u: string, sp: string)
    requires NameOk(name) && nm == name.GetOr("") && (name.Some? ==> nm != [])
    requires UriTextOk(u) && t == nm + " <" + u + ">" + sp
    ensures MatchAorHead(t) == Some(AorHead(name, u, |nm| + 3 + |u|))
    ensures |nm| + 3 + |u| + |sp| == |t| && t[|nm| + 3 + |u|..] == sp
  {
    var r := " <" + u + ">" + sp;
    AorTextFacts(t, nm, r, u, sp, |nm| + 3 + |u|);
    NameFacts(t, nm, r, u + ">" + sp, name);
    BracketFacts(r, u, sp);
    AorHeadRead(t, nm, r, u, name);
  }

  /** A text made of the pieces of an address is read back as that address. */
  lemma {:induction false} AorPiecesReadBack(t: string, name: Option<string>, nm: string, u: string, sp: string, params: Params)
    requires NameOk(name) && nm == name.GetOr("") && (name.Some? ==> nm != [])
    requires UriTextOk(u) && sp == StringifyParams(params) && HeaderParamsOk(params) && UniqueKeys(params)
    requires t == nm + " <" + u + ">" + sp
    ensures AorFrom(t).Some? && AorFrom(t).value.0 == Aor(name, UriText(u), params) && AorFrom(t).value.1 == |t|
  {
    AorHeadReadBack(t, name, nm, u, sp);
    ParamsWhole(sp, params);
    AorFromHead(t, AorHead(name, u, |nm| + 3 + |u|), sp, params);
  }

  /**
   * `parseAOR` reads a written address back whole: the display name, the
   * URI as the text between the angle brackets, and the parameters.
   */
  lemma {:induction false} AorTextReadsBack(a: Aor)
    requires AorOk(a) && (a.name.Some? ==> a.name.value != [])
    ensures AorText(a).Some? && AorFrom(AorText(a).value).Some?
    ensures AorFrom(AorText(a).value).value.0 == Aor(a.name, UriText(StringifyUriRef(a.uri).value), a.params)
    ensures AorFrom(AorText(a).value).value.1 == |AorText(a).value|
  {
    var u := StringifyUriRef(a.uri).value;
    AorPiecesReadBack(AorText(a).value, a.name, a.name.GetOr(""), u, StringifyParams(a.params), a.params);
  }

  /**
   * `parseAorWithUri` gives back a written address whole when its URI is a
   * well-formed URI object: the name, the same URI object and the parameters.
   */
  lemma {:induction false} AorWithUriReadsBack(a: Aor)
    requires AorOk(a) && (a.name.Some? ==> a.name.value != []) && a.uri.UriObject? && WellFormedUri(a.uri.uri)
    ensures AorText(a).Some? && AorWithUriFrom(AorText(a).value).Some?
    ensures AorWithUriFrom(AorText(a).value).value.0 == a
    ensures AorWithUriFrom(AorText(a).value).value.1 == |AorText(a).value|
  {
    AorTextReadsBack(a);
    ParseStringifyUri(a.uri.uri);
  }
}
