/**
 * What the CSeq grammar of `parseCSeq` reads back from the value that
 * `stringifiers.cseq` writes, and what it makes of a value without a method.
 */
module CSeqRoundTrip {
  import opened Wrappers
  import opened Js
  import opened Grammar

  /**
   * The value `stringifiers.cseq` writes (the number, a space, the method)
   * reads back as the same number and method.
   */
  lemma WrittenCSeqReadsBack(n: nat, m: string)
    requires m != [] && All(m, NonSpace)
    ensures MatchCSeq(NatToString(n) + " " + m) == Some((n, m))
  {
    var d := NatToString(n);
    var t := d + " " + m;
    var q := |d|;
    assert DigitAt(d, 0);
    DigitsAreAll(d);
    assert t[..q] == d;
    RunPrefix(t, d, Digit);
    assert InAt(" ", 0, Space) && InAt(m, 0, NonSpace);
    assert t[q..q + 1] == " " && t[q + 1] == m[0];
    RunAt(t, q, " ", Space);
    assert t[q + 1..] == m + [];
    RunOfConcat(m, [], NonSpace);
    assert t[q + 1..q + 1 + |m|] == m;
    DigitsOfNatToString(n);
    assert t[0..] == t && t[0..q] == d;
    CSeqFrom(t, q, m);
  }

  /** `MatchCSeq` on a text that starts with `q` digits, one space and a method `m`. */
  lemma CSeqFrom(t: string, q: nat, m: string)
    requires q < |t| && FirstDigit(t) == 0 && Run(t[0..], Digit) == q
    requires Spaces(t[q..]) == 1 && q + 1 < |t| && q + 1 + |m| <= |t| && Run(t[q + 1..], NonSpace) == |m|
    ensures MatchCSeq(t) == Some((DigitsValue(t[0..q]), t[q + 1..q + 1 + |m|]))
  {
    var w := Spaces(t[q..]);
    assert q + w == q + 1;
    assert Run(t[q + w..], NonSpace) == |m|;
  }

  /** A CSeq value without a method still parses: the last digit becomes the method. */
  lemma CSeqWithoutMethod()
    ensures MatchCSeq("12") == Some((1, "2"))
  {
    var t := "12";
    assert FirstDigit(t) == 0 && t[0..] == t;
    assert Run(t[1..], Digit) == 1;
    assert Run(t, Digit) == 2;
    assert Spaces(t[2..]) == 0;
    assert t[0..1] == "1" && t[1..2] == "2";
    assert DigitsValue("1") == 1 by {
      assert "1"[..0] == [];
    }
  }
}
