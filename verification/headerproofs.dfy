/**
 * Reading back what the header stringifiers write: for well-formed values,
 * the parser of each structured header gives back the value that was written
 * (with the version and transport of a Via entry in their written forms).
 *
 * As in the URI round trip, every step is split into a layout lemma (where
 * the pieces of the written text sit), run lemmas (the greedy runs of the
 * character classes over them) and an unfolding lemma (one matcher evaluated
 * from those facts), which keeps each proof small.
 */
module HeaderRoundTrip {
  import opened Wrappers
  import opened Js
  import opened SipTypes
  import opened Grammar
  import opened Parameters
  import opened Uris
  import opened UriRoundTrip
  import opened HeaderParsers
  import opened MessageText

  // ---------------------------------------------------------------- quoted strings

  /** The characters a quoted string holds here: anything but a quote or a backslash. */
  const Unquoted := CharClass(true, false, false, false, "\"\\")

  /** A quoted string without escapes, quotes included. */
  predicate QuotedString(s: string) {
    |s| >= 2 && s[0] == '"' && s[|s| - 1] == '"' && All(s[1..|s| - 1], Unquoted)
  }

  /** The rest of a quoted string after its opening quote ends at the closing quote. */
  lemma {:induction false} QuotedRestOf(inner: string, after: string)
    requires All(inner, Unquoted)
    ensures QuotedRest(inner + "\"" + after) == Some(|inner| + 1)
    decreases |inner|
  {
    var t := inner + "\"" + after;
    if inner != [] {
      AllTail(inner, Unquoted);
      assert t[1..] == inner[1..] + "\"" + after;
      QuotedRestOf(inner[1..], after);
    }
  }

  /** A quoted string at the start of a text is matched as a whole. */
  lemma QuotedOf(s: string, after: string)
    requires QuotedString(s)
    ensures Quoted(s + after) == Some(|s|)
  {
    var inner := s[1..|s| - 1];
    assert (s + after)[1..] == inner + "\"" + after;
    QuotedRestOf(inner, after);
  }

  // ---------------------------------------------------------------- header parameters

  /** A value the parameter expression reads back whole: a token or a quoted string. */
  predicate ParamValueOk(v: string) {
    v != [] && (All(v, Token) || QuotedString(v))
  }

  /**
   * A header parameter that reads back unchanged: a token name and no value
   * or a non-empty one (an empty value is written as a flag). In a list the
   * names are also lower-case, since they are stored lower-cased.
   */
  predicate HeaderParamOk(name: string, value: Option<string>) {
    name != [] && All(name, Token) && (value.Some? ==> ParamValueOk(value.value))
  }

  predicate HeaderParamsOk(p: Params) {
    p == [] || (HeaderParamOk(p[0].0, p[0].1) && IsLower(p[0].0) && HeaderParamsOk(p[1..]))
  }

  /** Where a parameter may end: the end of the text, or a character no part of it can take. */
  predicate ParamStop(t: string, i: nat) {
    i == |t| || (i < |t| && !IsSpace(t[i]) && !In(t[i], Token) && t[i] != '=')
  }

  /** Where the parameter list ends: a stop that is not the `;` of another parameter. */
  predicate ParamsStop(t: string, i: nat) {
    ParamStop(t, i) && (i < |t| ==> t[i] != ';')
  }

  /** No greedy white space at a character that is not white space. */
  lemma NoSpaces(t: string)
    requires t == [] || !IsSpace(t[0])
    ensures Spaces(t) == 0
  {
  }

  /** The text after the `=` of a parameter: no white space, then the value. */
  lemma ValueAfterEquals(u: string, v: string)
    requires ParamValueOk(v) && |v| + 1 <= |u| && u[0] == '=' && u[1..|v| + 1] == v
    ensures Spaces(u) == 0 && 1 + Spaces(u[1..]) == 1 && StartsWith(u[1..], v)
  {
    NoSpaces(u);
    assert u[1..][..|v|] == v;
    assert !IsSpace(v[0]) by { if All(v, Token) { assert InAt(v, 0, Token); } }
    NoSpaces(u[1..]);
  }

  /** `ParamValue` once the white space around `=` is known: the value starts right after it. */
  lemma ParamValueEnters(u: string)
    requires u != [] && u[0] == '=' && Spaces(u) == 0 && Spaces(u[1..]) == 0
    ensures ParamValue(u) == ValueAt(u, 1)
  {
  }

  /** A token value at index 1. */
  lemma ValueAtToken(u: string, m: nat)
    requires 1 <= |u| && Run(u[1..], Token) == m > 0
    ensures ValueAt(u, 1) == Some((u[1..][..m], 1 + m))
  {
  }

  /** A quoted value at index 1. */
  lemma ValueAtQuoted(u: string, q: nat)
    requires 1 <= |u| && Run(u[1..], Token) == 0 && Quoted(u[1..]) == Some(q)
    ensures ValueAt(u, 1) == Some((u[1..][..q], 1 + q))
  {
  }

  /** A token value is the token run at the start of the text. */
  lemma TokenValueRun(w: string, v: string)
    requires v != [] && All(v, Token) && StartsWith(w, v) && (|v| == |w| || !In(w[|v|], Token))
    ensures Run(w, Token) == |v|
  {
    RunPrefix(w, v, Token);
  }

  /** A quoted value is no token run: it is matched as a quoted string. */
  lemma QuotedValueRun(w: string, v: string)
    requires QuotedString(v) && StartsWith(w, v)
    ensures Run(w, Token) == 0 && Quoted(w) == Some(|v|)
  {
    assert w[0] == '"';
    assert w == v + w[|v|..];
    QuotedOf(v, w[|v|..]);
  }

  /** The value of a written parameter: a token run, or a quoted string. */
  lemma ValueRuns(w: string, v: string)
    requires ParamValueOk(v) && StartsWith(w, v) && (|v| == |w| || !In(w[|v|], Token))
    ensures All(v, Token) ==> Run(w, Token) == |v|
    ensures !All(v, Token) ==> Run(w, Token) == 0 && Quoted(w) == Some(|v|)
  {
    if All(v, Token) {
      TokenValueRun(w, v);
    } else {
      QuotedValueRun(w, v);
    }
  }

  /** An optional value `=v` after the name of a parameter, then where it stops. */
  lemma ParamValueOf(u: string, v: string)
    requires ParamValueOk(v) && |v| + 1 <= |u| && u[0] == '=' && u[1..|v| + 1] == v
    requires ParamStop(u, |v| + 1)
    ensures ParamValue(u) == Some((v, |v| + 1))
  {
    ValueAfterEquals(u, v);
    ValueRuns(u[1..], v);
    ParamValueEnters(u);
    if All(v, Token) {
      ValueAtToken(u, |v|);
    } else {
      ValueAtQuoted(u, |v|);
    }
  }

  /** No value follows a parameter name when what comes next is a stop. */
  lemma NoParamValue(u: string)
    requires ParamStop(u, 0)
    ensures ParamValue(u).None?
  {
    NoSpaces(u);
  }

  /** `MatchParam` once the white space around `;` is known: the name starts right after it. */
  lemma MatchParamEnters(t: string)
    requires t != [] && t[0] == ';' && Spaces(t) == 0 && Spaces(t[1..]) == 0
    ensures MatchParam(t) == NamedParam(t, 1)
  {
  }

  /** A name run of length `n` at index 1. */
  lemma NamedParamRuns(t: string, n: nat)
    requires 1 <= |t| && Run(t[1..], Token) == n > 0
    ensures NamedParam(t, 1) == ValuedParam(t, 1, 1 + n)
  {
  }

  lemma ValuedParamSome(t: string, n: nat, v: string, len: nat)
    requires 0 < n && 1 + n <= |t| && ParamValue(t[1 + n..]) == Some((v, len))
    ensures ValuedParam(t, 1, 1 + n) == Some(ParamMatch(t[1..1 + n], Some(v), 1 + n + len))
  {
  }

  lemma ValuedParamNone(t: string, n: nat)
    requires 0 < n && 1 + n <= |t| && ParamValue(t[1 + n..]).None?
    ensures ValuedParam(t, 1, 1 + n) == Some(ParamMatch(t[1..1 + n], None, 1 + n))
  {
  }

  /** A parameter `;name=v` at the start of `t`, piece by piece, and where it stops. */
  predicate ValueParamAt(t: string, name: string, v: string) {
    t != [] && t[0] == ';' && ValueBodyAt(t[1..], name, v) && ParamStop(t, 2 + |name| + |v|)
  }

  /** A flag `;name` at the start of `t`, and where it stops. */
  predicate FlagParamAt(t: string, name: string) {
    t != [] && t[0] == ';' && NameBodyAt(t[1..], name) && ParamStop(t, 1 + |name|)
  }

  /** Where the pieces of a written parameter sit. */
  lemma ParamLayout(t: string, name: string, value: Option<string>)
    requires HeaderParamOk(name, value)
    requires StartsWith(t, ParamText(name, value)) && ParamStop(t, |ParamText(name, value)|)
    ensures |ParamText(name, value)| == 1 + BodyLen(name, value)
    ensures value.Some? ==> ValueParamAt(t, name, value.value)
    ensures value.None? ==> FlagParamAt(t, name)
  {
    ParamPieces(t, name, value);
  }

  /** A token name right after a `;`, followed by a character that cannot continue it. */
  predicate NameAt(t: string, name: string) {
    name != [] && All(name, Token) && t != [] && t[0] == ';' && NameBodyAt(t[1..], name)
    && (1 + |name| == |t| || !In(t[1 + |name|], Token))
  }

  /** The name of a parameter is a run of token characters right after its `;`. */
  lemma NameRuns(t: string, name: string)
    requires NameAt(t, name)
    ensures t != [] && t[0] == ';' && Spaces(t) == 0 && Spaces(t[1..]) == 0 && Run(t[1..], Token) == |name| > 0
  {
    NoSpaces(t);
    var u := t[1..];
    assert InAt(name, 0, Token);
    NoSpaces(u);
    RunPrefix(u, name, Token);
  }

  /** `MatchParam` on a written name reaches the optional value after it. */
  lemma NamedParamOf(t: string, name: string)
    requires NameAt(t, name)
    ensures 1 + |name| <= |t|
    ensures MatchParam(t) == ValuedParam(t, 1, 1 + |name|)
  {
    NameRuns(t, name);
    MatchParamEnters(t);
    NamedParamRuns(t, |name|);
  }

  /** A `;name=v` parameter has its name where `MatchParam` looks for one. */
  lemma ValueNameAt(t: string, name: string, v: string)
    requires HeaderParamOk(name, Some(v)) && ValueParamAt(t, name, v)
    ensures NameAt(t, name)
  {
  }

  /** A `;name` flag has its name where `MatchParam` looks for one. */
  lemma FlagNameAt(t: string, name: string)
    requires HeaderParamOk(name, None) && FlagParamAt(t, name)
    ensures NameAt(t, name)
  {
  }

  /** The name slice of a written parameter. */
  lemma NameSlice(t: string, name: string)
    requires NameAt(t, name)
    ensures 0 < |name| && 1 + |name| <= |t| && t[1..1 + |name|] == name
  {
    assert t[1..][..|name|] == t[1..1 + |name|];
  }

  /** The value after the name of a `;name=v` parameter. */
  lemma ValueAfterName(t: string, name: string, v: string)
    requires HeaderParamOk(name, Some(v)) && ValueParamAt(t, name, v)
    ensures 1 + |name| <= |t| && ParamValue(t[1 + |name|..]) == Some((v, |v| + 1))
  {
    var w := t[1 + |name|..];
    assert w[1..|v| + 1] == v;
    ParamValueOf(w, v);
  }

  /** No value after the name of a `;name` flag. */
  lemma NoValueAfterName(t: string, name: string)
    requires HeaderParamOk(name, None) && FlagParamAt(t, name)
    ensures 1 + |name| <= |t| && ParamValue(t[1 + |name|..]).None?
  {
    NoParamValue(t[1 + |name|..]);
  }

  /** The parameter `ValuedParam` builds from a name and a value, in the terms they were written in. */
  lemma ValuedParamOf(t: string, name: string, v: string, n: nat, len: nat)
    requires 0 < n == |name| && 1 + n <= |t| && t[1..1 + n] == name && len == |v| + 1
    requires ParamValue(t[1 + n..]) == Some((v, len))
    ensures ValuedParam(t, 1, 1 + n) == Some(ParamMatch(name, Some(v), 2 + n + |v|))
  {
    ValuedParamSome(t, n, v, len);
  }

  /** The flag `ValuedParam` builds from a name, in the terms it was written in. */
  lemma ValuedFlagOf(t: string, name: string, n: nat)
    requires 0 < n == |name| && 1 + n <= |t| && t[1..1 + n] == name
    requires ParamValue(t[1 + n..]).None?
    ensures ValuedParam(t, 1, 1 + n) == Some(ParamMatch(name, None, 1 + n))
  {
    ValuedParamNone(t, n);
  }

  /** A written parameter with a value: `MatchParam` reaches the value after its name. */
  lemma ValueParamNamed(t: string, name: string, v: string)
    requires HeaderParamOk(name, Some(v)) && ValueParamAt(t, name, v)
    ensures 1 + |name| <= |t|
    ensures MatchParam(t) == ValuedParam(t, 1, 1 + |name|)
  {
    ValueNameAt(t, name, v);
    NamedParamOf(t, name);
  }

  /** A written parameter with a value: its name and its value as written. */
  lemma ValueParamValued(t: string, name: string, v: string)
    requires HeaderParamOk(name, Some(v)) && ValueParamAt(t, name, v)
    ensures 1 + |name| <= |t|
    ensures ValuedParam(t, 1, 1 + |name|) == Some(ParamMatch(name, Some(v), 2 + |name| + |v|))
  {
    ValueNameAt(t, name, v);
    NameSlice(t, name);
    ValueAfterName(t, name, v);
    ValuedParamOf(t, name, v, |name|, |v| + 1);
  }

  /** A written flag: `MatchParam` reaches what follows its name. */
  lemma FlagParamNamed(t: string, name: string)
    requires HeaderParamOk(name, None) && FlagParamAt(t, name)
    ensures 1 + |name| <= |t|
    ensures MatchParam(t) == ValuedParam(t, 1, 1 + |name|)
  {
    FlagNameAt(t, name);
    NamedParamOf(t, name);
  }

  /** A written flag: its name as written, and no value. */
  lemma FlagParamValued(t: string, name: string)
    requires HeaderParamOk(name, None) && FlagParamAt(t, name)
    ensures 1 + |name| <= |t|
    ensures ValuedParam(t, 1, 1 + |name|) == Some(ParamMatch(name, None, 1 + |name|))
  {
    FlagNameAt(t, name);
    NameSlice(t, name);
    NoValueAfterName(t, name);
    ValuedFlagOf(t, name, |name|);
  }

  /** A written parameter with a value is read as its name, its value and its length. */
  lemma MatchValueParamOf(t: string, name: string, v: string)
    requires HeaderParamOk(name, Some(v)) && ValueParamAt(t, name, v)
    ensures MatchParam(t) == Some(ParamMatch(name, Some(v), 2 + |name| + |v|))
  {
    ValueParamNamed(t, name, v);
    ValueParamValued(t, name, v);
  }

  /** A written flag is read as its name and its length. */
  lemma MatchFlagParamOf(t: string, name: string)
    requires HeaderParamOk(name, None) && FlagParamAt(t, name)
    ensures MatchParam(t) == Some(ParamMatch(name, None, 1 + |name|))
  {
    FlagParamNamed(t, name);
    FlagParamValued(t, name);
  }

  /** One written parameter at the start of `t` is read as its name, its value and its length. */
  lemma MatchParamOf(t: string, name: string, value: Option<string>)
    requires HeaderParamOk(name, value)
    requires StartsWith(t, ParamText(name, value)) && ParamStop(t, |ParamText(name, value)|)
    ensures MatchParam(t) == Some(ParamMatch(name, value, |ParamText(name, value)|))
  {
    ParamLayout(t, name, value);
    if value.Some? {
      MatchValueParamOf(t, name, value.value);
    } else {
      MatchFlagParamOf(t, name);
    }
  }

  /** The parameter loop stops where the parameter list stops. */
  lemma NoMatchParam(t: string)
    requires ParamsStop(t, 0)
    ensures MatchParam(t).None?
  {
    NoSpaces(t);
  }

  /** A stop seen from further along the text. */
  lemma StopShift(t: string, i: nat, j: nat)
    requires i <= |t| && ParamsStop(t, i + j)
    ensures ParamsStop(t[i..], j)
  {
  }

  /** The `;` of the next parameter is a stop for the one before it. */
  lemma SemiIsStop(t: string, i: nat)
    requires i < |t| && t[i] == ';'
    ensures ParamStop(t, i)
  {
  }

  /** The layout of a written list: its first parameter, then the rest of the list. */
  lemma FirstParamLayout(t: string, p: Params)
    requires p != [] && StartsWith(t, StringifyParams(p))
    ensures StringifyParams(p) == ParamText(p[0].0, p[0].1) + StringifyParams(p[1..])
    ensures StartsWith(t, ParamText(p[0].0, p[0].1))
    ensures StartsWith(t[|ParamText(p[0].0, p[0].1)|..], StringifyParams(p[1..]))
  {
    StartsWithAt(t, ParamText(p[0].0, p[0].1), |ParamText(p[0].0, p[0].1)|, StringifyParams(p[1..]));
  }

  /** The stop after one parameter of a written list: the next `;`, or the stop of the list. */
  lemma StopAfterFirst(t: string, p: Params)
    requires p != [] && StartsWith(t, StringifyParams(p)) && ParamsStop(t, |StringifyParams(p)|)
    ensures StartsWith(t, ParamText(p[0].0, p[0].1))
    ensures StartsWith(t[|ParamText(p[0].0, p[0].1)|..], StringifyParams(p[1..]))
    ensures ParamStop(t, |ParamText(p[0].0, p[0].1)|)
    ensures ParamsStop(t[|ParamText(p[0].0, p[0].1)|..], |StringifyParams(p[1..])|)
  {
    var first := ParamText(p[0].0, p[0].1);
    FirstParamLayout(t, p);
    StopShift(t, |first|, |StringifyParams(p[1..])|);
    if p[1..] != [] {
      var u := t[|first|..];
      assert u[0] == StringifyParams(p[1..])[0] == ';';
      SemiIsStop(t, |first|);
    }
  }

  /**
   * The parameter loop reads a written parameter list back: each parameter is
   * assigned in turn, and the loop consumes exactly the written text.
   */
  lemma {:induction false} ParamsOf(t: string, p: Params, acc: Params)
    requires HeaderParamsOk(p)
    requires StartsWith(t, StringifyParams(p)) && ParamsStop(t, |StringifyParams(p)|)
    ensures ParamsFrom(t, acc).0 == PutAll(acc, p)
    ensures ParamsFrom(t, acc).1 == |StringifyParams(p)|
    decreases |p|
  {
    if p == [] {
      NoMatchParam(t);
    } else {
      var first := ParamText(p[0].0, p[0].1);
      StopAfterFirst(t, p);
      MatchParamOf(t, p[0].0, p[0].1);
      assert Lower(p[0].0) == p[0].0;
      ParamsOf(t[|first|..], p[1..], Put(acc, p[0].0, p[0].1));
    }
  }

  /** Read into an empty object, a written list of distinct parameters is the list itself. */
  lemma ParamsReadBack(t: string, p: Params)
    requires HeaderParamsOk(p) && UniqueKeys(p)
    requires StartsWith(t, StringifyParams(p)) && ParamsStop(t, |StringifyParams(p)|)
    ensures ParamsFrom(t, []) == (p, |StringifyParams(p)|)
  {
    ParamsOf(t, p, []);
    PutAllIntoEmpty(p);
  }
}
