/** The parameter list of a header or URI as the serialiser writes it: `;name=value;flag`. */
module Parameters {
  import opened Wrappers
  import opened SipTypes

  /** One parameter: `;name=value`, or `;name` when the value is null or empty. */
  function ParamText(name: string, value: Option<string>): (r: string)
    ensures |r| > |name| && r[0] == ';' && r[1..|name| + 1] == name
  {
    ";" + name + (if value.Some? && value.value != "" then "=" + value.value else "")
  }

  /** The text `stringifyParams` builds: every parameter in key order. */
  function StringifyParams(p: Params): (r: string)
    ensures p == [] <==> r == []
    ensures p != [] ==> r[0] == ';'
  {
    if p == [] then "" else ParamText(p[0].0, p[0].1) + StringifyParams(p[1..])
  }

  /** The `for ... in` loop of `stringifyParams`, appending one parameter per key. */
  method WriteParams(p: Params) returns (s: string)
    ensures s == StringifyParams(p)
  {
    s := "";
    var k := 0;
    while k < |p|
      invariant 0 <= k <= |p|
      invariant s + StringifyParams(p[k..]) == StringifyParams(p)
    {
      assert p[k..][1..] == p[k + 1..];
      s := s + ParamText(p[k].0, p[k].1);
      k := k + 1;
    }
    assert p[k..] == [];
  }
}
