/**
 * Reading back written authentication headers: `parseAuthHeader` on the text
 * `stringifyAuthHeader` writes gives back the scheme and the other fields in
 * order, and `parseAuthenticationInfoHeader` gives back the fields of a header
 * written without a scheme.
 *
 * As for Via entries and addresses, lemmas that know how the text is put
 * together state where its pieces sit; lemmas that evaluate a matcher see
 * only those facts.
 */
module AuthRoundTrip {
  import opened Wrappers
  import opened Js
  import opened SipTypes
  import opened Grammar
  import opened HeaderParsers
  import opened MessageText
  import opened HeaderRoundTrip
  import opened ViaRoundTrip

  /** A value that reads back: a run of `[^\s,"]`, or a quoted string without escapes. */
  predicate AuthValueOk(v: string) {
    0 < Run(v, AuthValue) == |v| || QuotedString(v)
  }

  /** Fields whose `key=value` pairs read back: keys made of `[^\s,"=]`, values as above, each key once. */
  predicate FieldsOk(f: AuthFields) {
    f == [] || (Run(f[0].0, AuthKey) == |f[0].0| && AuthValueOk(f[0].1) && !HasKey(f[1..], f[0].0) && FieldsOk(f[1..]))
  }

  /** A pair as written: `key=value`. */
  function PairText(p: (string, string)): string { p.0 + "=" + p.1 }

  /** The pairs of `f`, each written after a comma. */
  function CommaText(f: AuthFields): string {
    if f == [] then "" else "," + PairText(f[0]) + CommaText(f[1..])
  }

  // ---------------------------------------------------------------- the written text

  /** The pairs of a header: the fields without the scheme. */
  lemma {:induction false} PairsWithoutScheme(a: AuthFields)
    ensures AuthPairs(a) == AuthPairs(Remove(a, "scheme"))
    decreases |a|
  {
    if a != [] {
      PairsWithoutScheme(a[1..]);
      if a[0].0 != "scheme" {
        var r := Remove(a, "scheme");
        assert r == [a[0]] + Remove(a[1..], "scheme") && r[1..] == Remove(a[1..], "scheme");
      }
    }
  }

  /** Joining the pairs of fields without a scheme: the first pair, then each further one after a comma. */
  lemma {:induction false} JoinedPairs(f: AuthFields)
    requires f != [] && Lookup(f, "scheme").None?
    ensures Join(AuthPairs(f), ",") == PairText(f[0]) + CommaText(f[1..])
    decreases |f|
  {
    assert AuthPairs(f) == [PairText(f[0])] + AuthPairs(f[1..]);
    if f[1..] != [] {
      JoinedPairs(f[1..]);
      assert AuthPairs(f[1..]) == [PairText(f[1..][0])] + AuthPairs(f[1..][1..]);
      assert (AuthPairs(f))[1..] == AuthPairs(f[1..]);
    }
  }

  /** A written pair starts with a key character or `=`, neither of them white space. */
  lemma {:induction false} PairsStart(f: AuthFields, rest: string)
    requires f != [] && Run(f[0].0, AuthKey) == |f[0].0|
    ensures var t := PairText(f[0]) + rest; t != [] && !IsSpace(t[0])
  {
    var t := PairText(f[0]) + rest;
    assert t == f[0].0 + ("=" + f[0].1 + rest);
    if f[0].0 == [] {
      assert t[0] == '=';
    } else {
      assert In(f[0].0[0], AuthKey) && t[0] == f[0].0[0];
    }
  }

  // ---------------------------------------------------------------- one pair

  /** The value at the start of `w` is `n` characters long, as the value expression reads it. */
  predicate ValueRead(w: string, n: int) {
    0 < Run(w, AuthValue) == n || (Run(w, AuthValue) == 0 && Quoted(w) == Some(n))
  }

  /** The pair expression matched, reading the key `k` and the value `v` and consuming `n` characters. */
  predicate PairIs(r: Option<AuthPair>, k: string, v: string, n: int) {
    r.Some? && r.value.key == k && r.value.value == v && r.value.len == n
  }

  /** Where the key, the `=` and the value of a pair sit in `t`, from index `start`. */
  predicate PairLayout(t: string, start: int, ke: int, ve: int) {
    && 0 <= start <= ke && ke + 1 < ve <= |t| && t[ke] == '='
    && Run(t[start..], AuthKey) == ke - start && Spaces(t[ke..]) == 0
    && Spaces(t[ke + 1..]) == 0 && ValueRead(t[ke + 1..], ve - (ke + 1)) && Spaces(t[ve..]) == 0
  }

  /** The key run of a written pair, starting at index `i` of `t`, stops at `=`. */
  lemma {:induction false} KeyFacts(t: string, i: int, k: string, x: string)
    requires 0 <= i <= |t| && Run(k, AuthKey) == |k| && t[i..] == k + "=" + x
    ensures i + |k| < |t| && t[i + |k|] == '=' && Run(t[i..], AuthKey) == |k| && Spaces(t[i + |k|..]) == 0
    ensures t[i..i + |k|] == k && t[i + |k| + 1..] == x
  {
    var w := t[i..];
    assert w == k + ("=" + x);
    RunThrough(k, "=" + x, AuthKey);
    assert t[i + |k|..] == "=" + x;
  }

  /** The value of a written pair, starting at index `j` of `t`, is read whole and is followed by a comma or the end. */
  lemma {:induction false} ValueFacts(t: string, j: int, v: string, rest: string)
    requires 0 <= j <= |t| && AuthValueOk(v) && t[j..] == v + rest && (rest == [] || rest[0] == ',')
    ensures j + |v| <= |t| && Spaces(t[j..]) == 0 && ValueRead(t[j..], |v|) && Spaces(t[j + |v|..]) == 0
    ensures t[j..j + |v|] == v && t[j + |v|..] == rest
  {
    var w := t[j..];
    if 0 < Run(v, AuthValue) == |v| {
      RunThrough(v, rest, AuthValue);
      assert In(w[0], AuthValue);
    } else {
      QuotedOf(v, rest);
      assert w[0] == '"';
    }
    assert t[j + |v|..] == rest;
  }

  /** The layout of the text `pre + key=value + rest`. */
  lemma {:induction false} PairFacts(t: string, pre: string, k: string, v: string, rest: string)
    requires Run(k, AuthKey) == |k| && AuthValueOk(v) && (rest == [] || rest[0] == ',')
    requires t == pre + (k + "=" + v) + rest
    ensures PairLayout(t, |pre|, |pre| + |k|, |pre| + |k| + 1 + |v|)
    ensures t[|pre|..|pre| + |k|] == k && t[|pre| + |k| + 1..|pre| + |k| + 1 + |v|] == v
    ensures t[|pre| + |k| + 1 + |v|..] == rest
  {
    assert t[|pre|..] == k + "=" + (v + rest);
    KeyFacts(t, |pre|, k, v + rest);
    ValueFacts(t, |pre| + |k| + 1, v, rest);
  }

  /** The value expression over a laid-out value, and the white space after it. */
  lemma {:induction false} ValueAtOf(t: string, start: int, ke: int, vb: int, ve: int)
    requires 0 <= start <= ke < vb < ve <= |t| && ValueRead(t[vb..], ve - vb) && Spaces(t[ve..]) == 0
    ensures PairIs(AuthValueAt(t, start, ke, vb), t[start..ke], t[vb..ve], ve)
  {
  }

  /** The white space after `=` is empty: the value starts at index `e`. */
  lemma {:induction false} ValueFromOf(t: string, start: int, ke: int, e: int, ve: int)
    requires 0 <= start <= ke < e < ve <= |t| && Spaces(t[e..]) == 0 && ValueRead(t[e..], ve - e) && Spaces(t[ve..]) == 0
    ensures PairIs(AuthValueFrom(t, start, ke, e), t[start..ke], t[e..ve], ve)
  {
    ValueAtOf(t, start, ke, e, ve);
  }

  /** The key stops at `=` at index `ke`, and the value follows it. */
  lemma {:induction false} EqAtOf(t: string, start: int, ke: int, ve: int)
    requires 0 <= start <= ke && ke + 1 < ve <= |t| && t[ke] == '=' && Spaces(t[ke..]) == 0
    requires Spaces(t[ke + 1..]) == 0 && ValueRead(t[ke + 1..], ve - (ke + 1)) && Spaces(t[ve..]) == 0
    ensures PairIs(AuthEqAt(t, start, ke), t[start..ke], t[ke + 1..ve], ve)
  {
    ValueFromOf(t, start, ke, ke + 1, ve);
  }

  /** The pair expression over a laid-out pair. */
  lemma {:induction false} PairOf(t: string, start: int, ke: int, ve: int)
    requires PairLayout(t, start, ke, ve)
    ensures PairIs(AuthKeyAt(t, start), t[start..ke], t[ke + 1..ve], ve)
  {
    EqAtOf(t, start, ke, ve);
  }

  /** After a comma, the pair starts right away. */
  lemma {:induction false} CommaStart(t: string, ke: int, ve: int)
    requires PairLayout(t, 1, ke, ve) && t[0] == ','
    ensures MatchAuthPair(t, true) == AuthKeyAt(t, 1)
  {
    if ke > 1 {
      assert In(t[1..][0], AuthKey);
    } else {
      assert t[1..] == t[ke..];
    }
  }

  // ---------------------------------------------------------------- the pairs

  /** The pair expression over the text `pre + key=value + rest`, from the end of `pre`. */
  lemma {:induction false} PairRead(t: string, pre: string, k: string, v: string, rest: string)
    requires Run(k, AuthKey) == |k| && AuthValueOk(v) && (rest == [] || rest[0] == ',')
    requires t == pre + (k + "=" + v) + rest
    ensures PairIs(AuthKeyAt(t, |pre|), k, v, |pre| + |k| + 1 + |v|)
    ensures PairLayout(t, |pre|, |pre| + |k|, |pre| + |k| + 1 + |v|) && t[|pre| + |k| + 1 + |v|..] == rest
  {
    PairFacts(t, pre, k, v, rest);
    PairOf(t, |pre|, |pre| + |k|, |pre| + |k| + 1 + |v|);
  }

  /** The written pairs after the first one start with a comma, if there are any. */
  lemma {:induction false} CommaTextStart(f: AuthFields)
    ensures CommaText(f) == [] || CommaText(f)[0] == ','
  {
  }

  /** The first pair of the written pairs. */
  lemma {:induction false} FirstPairRead(f: AuthFields)
    requires f != [] && FieldsOk(f)
    ensures var t := PairText(f[0]) + CommaText(f[1..]); var n := |PairText(f[0])|;
      && PairIs(MatchAuthPair(t, false), f[0].0, f[0].1, n) && t[n..] == CommaText(f[1..])
  {
    var k, v, rest := f[0].0, f[0].1, CommaText(f[1..]);
    CommaTextStart(f[1..]);
    PairRead(PairText(f[0]) + rest, "", k, v, rest);
  }

  /** A further pair of the written pairs, after its comma. */
  lemma {:induction false} CommaPairRead(f: AuthFields)
    requires f != [] && FieldsOk(f)
    ensures var t := CommaText(f); var n := 1 + |PairText(f[0])|;
      && PairIs(MatchAuthPair(t, true), f[0].0, f[0].1, n) && t[n..] == CommaText(f[1..])
  {
    var k, v, rest := f[0].0, f[0].1, CommaText(f[1..]);
    CommaTextStart(f[1..]);
    PairRead(CommaText(f), ",", k, v, rest);
    CommaStart(CommaText(f), 1 + |k|, 2 + |k| + |v|);
  }

  /** One turn of the loop over the further pairs. */
  lemma {:induction false} CommaStep(t: string, acc: AuthFields, k: string, v: string, n: int)
    requires PairIs(MatchAuthPair(t, true), k, v, n)
    ensures AuthPairsFrom(t, acc).0 == AuthPairsFrom(t[n..], Put(acc, k, v)).0
    ensures AuthPairsFrom(t, acc).1 == n + AuthPairsFrom(t[n..], Put(acc, k, v)).1
  {
  }

  /** The required first pair, then the loop over the further pairs. */
  lemma {:induction false} FirstStep(t: string, acc: AuthFields, k: string, v: string, n: int)
    requires PairIs(MatchAuthPair(t, false), k, v, n)
    ensures PairsFrom(t, acc).Some?
    ensures PairsFrom(t, acc).value.0 == AuthPairsFrom(t[n..], Put(acc, k, v)).0
    ensures PairsFrom(t, acc).value.1 == n + AuthPairsFrom(t[n..], Put(acc, k, v)).1
  {
  }

  /** Assigning a new key appends it, and the rest of `f` stays disjoint from the result. */
  lemma {:induction false} PutFirst(f: AuthFields, acc: AuthFields)
    requires f != [] && FieldsOk(f) && Disjoint(acc, f)
    ensures Put(acc, f[0].0, f[0].1) + f[1..] == acc + f
    ensures FieldsOk(f[1..]) && Disjoint(Put(acc, f[0].0, f[0].1), f[1..])
  {
    var k, v := f[0].0, f[0].1;
    DisjointAfterPut(acc, k, v, f[1..]);
    assert Put(acc, k, v) == acc + [(k, v)];
    assert acc + [(k, v)] + f[1..] == acc + f;
  }

  /** A dictionary sharing no key with `f` gets the fields of `f` appended by the further pairs. */
  lemma {:induction false} CommaPairsRead(f: AuthFields, acc: AuthFields)
    requires FieldsOk(f) && Disjoint(acc, f)
    ensures AuthPairsFrom(CommaText(f), acc).0 == acc + f
    ensures AuthPairsFrom(CommaText(f), acc).1 == |CommaText(f)|
    decreases |f|
  {
    if f == [] {
      assert MatchAuthPair(CommaText(f), true).None?;
    } else {
      var t, n := CommaText(f), 1 + |PairText(f[0])|;
      CommaPairRead(f);
      CommaStep(t, acc, f[0].0, f[0].1, n);
      PutFirst(f, acc);
      CommaPairsRead(f[1..], Put(acc, f[0].0, f[0].1));
    }
  }

  /** The first pair and the further pairs, assigned into a dictionary sharing no key with `f`. */
  lemma {:induction false} PairsRead(f: AuthFields, acc: AuthFields)
    requires f != [] && FieldsOk(f) && Disjoint(acc, f)
    ensures var t := PairText(f[0]) + CommaText(f[1..]);
      PairsFrom(t, acc).Some? && PairsFrom(t, acc).value.0 == acc + f && PairsFrom(t, acc).value.1 == |t|
  {
    var t, n := PairText(f[0]) + CommaText(f[1..]), |PairText(f[0])|;
    FirstPairRead(f);
    FirstStep(t, acc, f[0].0, f[0].1, n);
    PutFirst(f, acc);
    CommaPairsRead(f[1..], Put(acc, f[0].0, f[0].1));
  }

  lemma {:induction false} DisjointFromEmpty(f: AuthFields)
    ensures Disjoint([], f)
    decreases |f|
  {
    if f != [] {
      DisjointFromEmpty(f[1..]);
    }
  }

  lemma {:induction false} DisjointFromOne(k: string, v: string, f: AuthFields)
    requires !HasKey(f, k)
    ensures Disjoint([(k, v)], f)
  {
    DisjointFromEmpty(f);
    DisjointAfterPut([], k, v, f);
    assert Put([], k, v) == [(k, v)];
  }

  // ---------------------------------------------------------------- the scheme

  /** The scheme is the run before the one space that the writer puts after it. */
  lemma {:induction false} SchemeOf(t: string, s: string, p: string)
    requires 0 < Run(s, NonSpace) == |s| && t == s + " " + p && p != [] && !IsSpace(p[0])
    ensures MatchAuthScheme(t).Some? && MatchAuthScheme(t).value.0 == s && MatchAuthScheme(t).value.1 == |s| + 1 && t[|s| + 1..] == p
  {
    assert t == s + (" " + p);
    RunThrough(s, " " + p, NonSpace);
    OneSpace(" " + p, p);
    assert t[|s|..] == " " + p;
  }

  // ---------------------------------------------------------------- the headers

  /** A header with a scheme is written as the scheme, one space and the other fields' pairs. */
  lemma {:induction false} SchemeText(a: AuthFields, s: string)
    requires Lookup(a, "scheme") == Some(s) && s != [] && Remove(a, "scheme") != []
    ensures var f := Remove(a, "scheme"); AuthText(a) == s + " " + (PairText(f[0]) + CommaText(f[1..]))
  {
    var f := Remove(a, "scheme");
    PairsWithoutScheme(a);
    JoinedPairs(f);
  }

  /** `parseAuthHeader` once the scheme and the pairs after it are read. */
  lemma {:induction false} AuthFromParts(t: string, s: string, n: int, p: string, x: AuthFields)
    requires MatchAuthScheme(t).Some? && MatchAuthScheme(t).value.0 == s && MatchAuthScheme(t).value.1 == n
    requires n <= |t| && t[n..] == p
    requires PairsFrom(p, [("scheme", s)]).Some? && PairsFrom(p, [("scheme", s)]).value.0 == x
    ensures AuthFrom(t).Some? && AuthFrom(t).value.0 == x
    ensures AuthFrom(t).value.1 == n + PairsFrom(p, [("scheme", s)]).value.1
  {
  }

  /**
   * `parseAuthHeader` reads a written header with a scheme back: the scheme
   * first, then every other field in the order the header held them.
   */
  lemma {:induction false} AuthTextReadsBack(a: AuthFields, s: string)
    requires Lookup(a, "scheme") == Some(s) && 0 < Run(s, NonSpace) == |s|
    requires Remove(a, "scheme") != [] && FieldsOk(Remove(a, "scheme"))
    ensures AuthFrom(AuthText(a)).Some?
    ensures AuthFrom(AuthText(a)).value.0 == [("scheme", s)] + Remove(a, "scheme")
    ensures AuthFrom(AuthText(a)).value.1 == |AuthText(a)|
  {
    var f := Remove(a, "scheme");
    var p := PairText(f[0]) + CommaText(f[1..]);
    SchemeText(a, s);
    PairsStart(f, CommaText(f[1..]));
    SchemeOf(AuthText(a), s, p);
    DisjointFromOne("scheme", s, f);
    PairsRead(f, [("scheme", s)]);
    AuthFromParts(AuthText(a), s, |s| + 1, p, [("scheme", s)] + f);
  }

  /**
   * `parseAuthenticationInfoHeader` reads a header written without a scheme
   * (none, or an empty one) back: every other field, in order.
   */
  lemma {:induction false} AuthInfoTextReadsBack(a: AuthFields)
    requires Lookup(a, "scheme").None? || Lookup(a, "scheme") == Some("")
    requires Remove(a, "scheme") != [] && FieldsOk(Remove(a, "scheme"))
    ensures AuthInfoFrom(AuthText(a)).Some?
    ensures AuthInfoFrom(AuthText(a)).value.0 == Remove(a, "scheme") && AuthInfoFrom(AuthText(a)).value.1 == |AuthText(a)|
  {
    var f := Remove(a, "scheme");
    PairsWithoutScheme(a);
    JoinedPairs(f);
    DisjointFromEmpty(f);
    PairsRead(f, []);
    assert [] + f == f;
  }
}
