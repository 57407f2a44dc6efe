/**
 * The SIP message model: URIs, addresses-of-record, Via entries, CSeq,
 * authentication headers and the header map of a message. Header values are
 * a tagged union: a raw string or one of the structured shapes produced by
 * the per-header parsers.
 */
module SipTypes {
  import opened Wrappers
  import opened Js

  // ---------------------------------------------------------------- dictionaries

  /**
   * A JavaScript object used as a dictionary: its keys in insertion order.
   * Assigning to an existing key keeps its position.
   */
  type Dict<V> = seq<(string, V)>

  /** `d[k]`, `None` when the key is absent. */
  function Lookup<V>(d: Dict<V>, k: string): Option<V> {
    if d == [] then None
    else if d[0].0 == k then Some(d[0].1)
    else Lookup(d[1..], k)
  }

  predicate HasKey<V>(d: Dict<V>, k: string) { Lookup(d, k).Some? }

  /** No key occurs twice (what a JavaScript object guarantees). */
  predicate UniqueKeys<V>(d: Dict<V>) {
    d == [] || (!HasKey(d[1..], d[0].0) && UniqueKeys(d[1..]))
  }

  /** The assignment `d[k] = v`: replaces in place, or appends a new key. */
  function Put<V>(d: Dict<V>, k: string, v: V): (r: Dict<V>)
    ensures Lookup(r, k) == Some(v)
    ensures forall k' :: k' != k ==> Lookup(r, k') == Lookup(d, k')
    ensures !HasKey(d, k) ==> r == d + [(k, v)]
    ensures |r| == if HasKey(d, k) then |d| else |d| + 1
  {
    if d == [] then [(k, v)]
    else if d[0].0 == k then [(k, v)] + d[1..]
    else [d[0]] + Put(d[1..], k, v)
  }

  /** The statement `delete d[k]`. */
  function Remove<V>(d: Dict<V>, k: string): (r: Dict<V>)
    ensures Lookup(r, k) == None
    ensures forall k' :: k' != k ==> Lookup(r, k') == Lookup(d, k')
  {
    if d == [] then []
    else if d[0].0 == k then Remove(d[1..], k)
    else [d[0]] + Remove(d[1..], k)
  }

  /** The assignments `d[k] = v` for each pair of `kvs`, in order (a `reduce` over pairs). */
  function PutAll<V>(d: Dict<V>, kvs: Dict<V>): Dict<V>
    decreases |kvs|
  {
    if kvs == [] then d else PutAll(Put(d, kvs[0].0, kvs[0].1), kvs[1..])
  }

  /** No key of `kvs` is a key of `d`. */
  predicate Disjoint<V>(d: Dict<V>, kvs: Dict<V>) {
    kvs == [] || (!HasKey(d, kvs[0].0) && Disjoint(d, kvs[1..]))
  }

  /** Assigning keys that are pairwise distinct and new to `d` appends them in order. */
  lemma {:induction false} PutAllFresh<V>(d: Dict<V>, kvs: Dict<V>)
    requires UniqueKeys(kvs) && Disjoint(d, kvs)
    ensures PutAll(d, kvs) == d + kvs
    decreases |kvs|
  {
    if kvs != [] {
      var d' := Put(d, kvs[0].0, kvs[0].1);
      DisjointAfterPut(d, kvs[0].0, kvs[0].1, kvs[1..]);
      PutAllFresh(d', kvs[1..]);
      assert d' + kvs[1..] == d + kvs;
    }
  }

  lemma {:induction false} DisjointAfterPut<V>(d: Dict<V>, k: string, v: V, kvs: Dict<V>)
    requires Disjoint(d, kvs) && !HasKey(kvs, k)
    ensures Disjoint(Put(d, k, v), kvs)
    decreases |kvs|
  {
    if kvs != [] {
      DisjointAfterPut(d, k, v, kvs[1..]);
    }
  }

  lemma {:induction false} DisjointFromEmpty<V>(kvs: Dict<V>)
    ensures Disjoint([], kvs)
    decreases |kvs|
  {
    if kvs != [] {
      DisjointFromEmpty(kvs[1..]);
    }
  }

  /** Assigning pairwise distinct keys to an empty object gives back the pairs. */
  lemma PutAllIntoEmpty<V>(kvs: Dict<V>)
    requires UniqueKeys(kvs)
    ensures PutAll([], kvs) == kvs
  {
    DisjointFromEmpty(kvs);
    PutAllFresh([], kvs);
    assert [] + kvs == kvs;
  }

  // ---------------------------------------------------------------- URI and headers

  /** Parameter map: a value-less parameter (`;lr`) is stored as `null`. */
  type Params = Dict<Option<string>>

  /**
   * A parsed SIP URI. An absent port is `None` (the source stores NaN); user
   * and password are absent unless the URI has user info.
   */
  datatype Uri = Uri(
    schema: string,
    user: Option<string>,
    password: Option<string>,
    host: string,
    port: Option<nat>,
    params: Params,
    headers: Dict<string>)

  /** A URI-valued field: the raw text, a parsed URI, or `undefined`. */
  datatype UriRef = UriText(text: string) | UriObject(uri: Uri) | NoUri

  /** An address-of-record: optional display name, URI and parameters (`tag`, `expires`, ...). */
  datatype Aor = Aor(name: Option<string>, uri: UriRef, params: Params)

  /**
   * A Via entry. The source leaves `version`, `protocol` and `host` undefined in
   * the placeholder entry the sender inserts; they are "" here.
   */
  datatype Via = Via(version: string, protocol: string, host: string, port: Option<nat>, params: Params)

  datatype CSeq = CSeq(number: nat, methodName: string)

  /** An authentication header: its fields, `scheme` among them, in insertion order. */
  type AuthFields = Dict<string>

  /** One element of a multi-valued header (JavaScript arrays are untyped). */
  datatype Item = AorItem(aor: Aor) | ViaItem(via: Via) | AuthItem(auth: AuthFields)

  /**
   * A header value: a raw string or the structured value of a known header.
   * `Undefined` is a key that is present with the value `undefined` (what
   * `makeResponse` copies from a request that lacks the header).
   */
  datatype HeaderValue =
    | Undefined
    | Text(text: string)
    | Number(num: JsNumber)
    | Address(aor: Aor)
    | Sequence(cseq: CSeq)
    | Credentials(fields: AuthFields)
    | List(items: seq<Item>)

  /** The header map: lower-case names, in the order they were first set. */
  type Headers = Dict<HeaderValue>

  /** A SIP message; `content` is "" when there is no body. */
  datatype Message =
    | Request(methodName: string, uri: UriRef, version: string, headers: Headers, content: string)
    | Response(status: int, reason: string, version: string, headers: Headers, content: string)

  function Header(m: Message, name: string): Option<HeaderValue> {
    Lookup(m.headers, name)
  }

  function WithHeaders(m: Message, h: Headers): (r: Message)
    ensures r.headers == h && r.content == m.content && r.version == m.version
    ensures r.Request? == m.Request?
  {
    match m
    case Request(methodName, uri, version, _, content) => Request(methodName, uri, version, h, content)
    case Response(status, reason, version, _, content) => Response(status, reason, version, h, content)
  }

  /** The Via list of a message, when its `via` header holds one. */
  function ViaList(m: Message): Option<seq<Item>> {
    match Header(m, "via")
    case Some(List(items)) => Some(items)
    case _ => None
  }

  /** `m.status >= k` in JavaScript: false for a request, whose status is undefined. */
  predicate StatusAtLeast(m: Message, k: int) { m.Response? && m.status >= k }

  /** `m.status < k` in JavaScript: false for a request. */
  predicate StatusBelow(m: Message, k: int) { m.Response? && m.status < k }

  /** `m.method === name`: false for a response, whose method is undefined. */
  predicate IsMethod(m: Message, name: string) { m.Request? && m.methodName == name }

  /** `if(m.method)`: a request with a non-empty method. */
  predicate HasMethod(m: Message) { m.Request? && m.methodName != "" }

  /** `m.headers.via[0]` is a Via entry, with `params` to read and assign. */
  predicate HasTopVia(m: Message) {
    ViaList(m).Some? && |ViaList(m).value| > 0 && ViaList(m).value[0].ViaItem?
  }

  /** `m.headers.via[0]`. */
  function TopVia(m: Message): Via
    requires HasTopVia(m)
  {
    ViaList(m).value[0].via
  }

  /** `m.headers[name] = v`: the start line, the body and every other header stay. */
  function SetHeader(m: Message, name: string, v: HeaderValue): (r: Message)
    ensures Header(r, name) == Some(v)
    ensures forall k :: k != name ==> Header(r, k) == Header(m, k)
    ensures r.Request? == m.Request? && (m.Request? ==> r.methodName == m.methodName && r.uri == m.uri)
    ensures r.Response? ==> r.status == m.status
    ensures r.content == m.content
  {
    WithHeaders(m, Put(m.headers, name, v))
  }

  /** Assigning to the fields of `m.headers.via[0]`: the entry becomes `v`, the rest of the list stays. */
  function SetTopVia(m: Message, v: Via): (r: Message)
    requires HasTopVia(m)
    ensures HasTopVia(r) && TopVia(r) == v
    ensures |ViaList(r).value| == |ViaList(m).value| && ViaList(r).value[1..] == ViaList(m).value[1..]
    ensures forall k :: k != "via" ==> Header(r, k) == Header(m, k)
    ensures r.Request? == m.Request? && (m.Request? ==> r.methodName == m.methodName && r.uri == m.uri)
  {
    var items := ViaList(m).value;
    SetHeader(m, "via", List([ViaItem(v)] + items[1..]))
  }
}
