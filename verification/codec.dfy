/**
 * The message helpers around the codec: `makeResponse` builds a response to a
 * request, `checkMessage` tells whether a message carries the headers every
 * SIP message needs, `makeTransactionId` keys the transaction tables and
 * `defaultPort` gives the port of a transport protocol.
 */
module Codec {
  import opened Wrappers
  import opened Js
  import opened SipTypes
  import opened MessageText

  // ---------------------------------------------------------------- makeResponse

  /** The headers a response copies from its request, in this order. */
  predicate Copied(name: string) {
    name in {"via", "to", "from", "call-id", "cseq"}
  }

  /** `rq.headers[name]`: a header the request lacks is copied as `undefined`. */
  function CopyHeader(rq: Message, name: string): HeaderValue {
    Header(rq, name).GetOr(Undefined)
  }

  /**
   * `makeResponse(rq, status, reason, extension)`: status, reason (empty when
   * missing) and the request's version; the five headers of the request; then
   * every header of the extension assigned over them, and the extension's body.
   * A missing extension is one with no headers and an empty body.
   */
  function MakeResponse(rq: Message, status: int, reason: string, extraHeaders: Headers, content: string): (r: Message)
    ensures r.Response? && r.status == status && r.reason == reason && r.version == rq.version && r.content == content
    ensures forall k :: !HasKey(extraHeaders, k) && Copied(k) ==> Header(r, k) == Some(CopyHeader(rq, k))
    ensures forall k :: !HasKey(extraHeaders, k) && !Copied(k) ==> !HasKey(r.headers, k)
  {
    var base := CopiedHeaders(rq);
    PutAllKeeps(base, extraHeaders);
    Response(status, reason, rq.version, PutAll(base, extraHeaders), content)
  }

  /** The header object literal of `makeResponse`. */
  function CopiedHeaders(rq: Message): (r: Headers)
    ensures forall k :: Lookup(r, k) == if Copied(k) then Some(CopyHeader(rq, k)) else None
  {
    var r5: Headers := [("cseq", CopyHeader(rq, "cseq"))];
    var r4 := [("call-id", CopyHeader(rq, "call-id"))] + r5;
    var r3 := [("from", CopyHeader(rq, "from"))] + r4;
    var r2 := [("to", CopyHeader(rq, "to"))] + r3;
    var r1 := [("via", CopyHeader(rq, "via"))] + r2;
    assert r1[1..] == r2 && r2[1..] == r3 && r3[1..] == r4 && r4[1..] == r5 && r5[1..] == [];
    assert forall k :: Lookup(r5, k) == if k == "cseq" then Some(CopyHeader(rq, k)) else None;
    assert forall k :: Lookup(r4, k) == if k == "call-id" then Some(CopyHeader(rq, k)) else Lookup(r5, k);
    assert forall k :: Lookup(r3, k) == if k == "from" then Some(CopyHeader(rq, k)) else Lookup(r4, k);
    assert forall k :: Lookup(r2, k) == if k == "to" then Some(CopyHeader(rq, k)) else Lookup(r3, k);
    assert forall k :: Lookup(r1, k) == if k == "via" then Some(CopyHeader(rq, k)) else Lookup(r2, k);
    r1
  }

  /** Keys the assignments do not name keep their value. */
  lemma {:induction false} PutAllKeeps<V>(d: Dict<V>, kvs: Dict<V>)
    ensures forall k :: !HasKey(kvs, k) ==> Lookup(PutAll(d, kvs), k) == Lookup(d, k)
    decreases |kvs|
  {
    if kvs != [] {
      PutAllKeeps(Put(d, kvs[0].0, kvs[0].1), kvs[1..]);
      forall k | !HasKey(kvs, k) ensures Lookup(PutAll(d, kvs), k) == Lookup(d, k) {
        assert kvs[0].0 != k && !HasKey(kvs[1..], k);
      }
    }
  }

  /** A key the assignments name ends up with the value they give it (JavaScript keys are unique). */
  lemma {:induction false} PutAllSets<V>(d: Dict<V>, kvs: Dict<V>, k: string)
    requires UniqueKeys(kvs) && HasKey(kvs, k)
    ensures Lookup(PutAll(d, kvs), k) == Lookup(kvs, k)
    decreases |kvs|
  {
    var d' := Put(d, kvs[0].0, kvs[0].1);
    if kvs[0].0 == k {
      PutAllKeeps(d', kvs[1..]);
    } else {
      PutAllSets(d', kvs[1..], k);
    }
  }

  // ---------------------------------------------------------------- checkMessage

  /** JavaScript truthiness of a header slot. */
  predicate Truthy(v: Option<HeaderValue>) {
    match v
    case None => false
    case Some(Undefined) => false
    case Some(Text(s)) => s != ""
    case Some(Number(n)) => n.Num? && n.value != 0
    case Some(_) => true
  }

  /**
   * `checkMessage(m)` as a truth value: a request with a method or a response
   * whose status is in [100, 999], with a non-empty Via list and a Call-ID, To,
   * From and CSeq.
   */
  predicate CheckMessage(m: Message) {
    ((m.Request? && m.methodName != "") || (m.Response? && 100 <= m.status <= 999))
    && ViaList(m).Some? && |ViaList(m).value| > 0
    && Truthy(Header(m, "call-id")) && Truthy(Header(m, "to")) && Truthy(Header(m, "from")) && Truthy(Header(m, "cseq"))
  }

  /** Each condition of `checkMessage` is necessary, and together they are sufficient. */
  lemma CheckMessageMeans(m: Message)
    ensures CheckMessage(m) <==>
      (m.Request? ==> m.methodName != "") && (m.Response? ==> 100 <= m.status <= 999)
      && (exists items :: Header(m, "via") == Some(List(items)) && items != [])
      && forall name :: name in {"call-id", "to", "from", "cseq"} ==> Truthy(Header(m, name))
  {
    if CheckMessage(m) {
      var items := ViaList(m).value;
      assert Header(m, "via") == Some(List(items));
    }
  }

  /**
   * A response made for a valid request, with a status in [100, 999] and no
   * extension header named like one of the copied five, passes the check.
   */
  lemma MakeResponseChecks(rq: Message, status: int, reason: string, extraHeaders: Headers, content: string)
    requires CheckMessage(rq) && 100 <= status <= 999
    requires forall k :: Copied(k) ==> !HasKey(extraHeaders, k)
    ensures CheckMessage(MakeResponse(rq, status, reason, extraHeaders, content))
  {
    var r := MakeResponse(rq, status, reason, extraHeaders, content);
    assert Copied("via") && Copied("call-id") && Copied("to") && Copied("from") && Copied("cseq");
    assert Header(r, "via") == Header(rq, "via");
  }

  // ---------------------------------------------------------------- makeTransactionId

  /** An array element as `Array.prototype.join` writes it: `undefined` and `null` are empty. */
  function JoinPart(v: Option<HeaderValue>): (r: string)
    ensures v.Some? && !v.value.Undefined? ==> r == ValueString(v.value)
    ensures r == "" <==> v.None? || v == Some(Undefined) || v == Some(Text("")) || v == Some(List([]))
  {
    match v
    case None => ""
    case Some(Undefined) => ""
    case Some(x) => ValueString(x)
  }

  /** `via[0].params.branch` as `join` writes it; `None` when there is no first Via entry to read. */
  function TopBranch(m: Message): (r: Option<string>)
    ensures r.Some? ==> ViaList(m).Some? && |ViaList(m).value| > 0
  {
    match ViaList(m)
    case None => None
    case Some(items) =>
      if items == [] || !items[0].ViaItem? then None
      else
        var b := Lookup(items[0].via.params, "branch");
        if b.Some? && b.value.Some? then Some(b.value.value) else Some("")
  }

  /** The method part of the id: INVITE for an ACK, otherwise the method of the CSeq header. */
  function IdMethod(m: Message): (r: Option<string>)
    ensures m.Request? && m.methodName == "ACK" ==> r == Some("INVITE")
    ensures (m.Request? ==> m.methodName != "ACK") && Header(m, "cseq").Some? && Header(m, "cseq").value.Sequence?
      ==> r == Some(Header(m, "cseq").value.cseq.methodName)
  {
    if m.Request? && m.methodName == "ACK" then Some("INVITE")
    else
      match Header(m, "cseq")
      case None => None
      case Some(Undefined) => None
      case Some(Sequence(c)) => Some(c.methodName)
      case Some(_) => Some("")
  }

  /**
   * `makeTransactionId(m)`: method, Call-ID and top branch joined by commas;
   * `None` where the source throws (no first Via entry, or no CSeq on a message
   * that is not an ACK).
   */
  function TransactionId(m: Message): (r: Option<string>)
    ensures r.Some? <==> IdMethod(m).Some? && TopBranch(m).Some?
  {
    match IdMethod(m)
    case None => None
    case Some(verb) =>
      match TopBranch(m)
      case None => None
      case Some(branch) => Some(verb + "," + JoinPart(Header(m, "call-id")) + "," + branch)
  }

  /**
   * An ACK has the id of the INVITE it acknowledges: same Call-ID and same top
   * branch give the same key, so the ACK finds the INVITE's transaction.
   */
  lemma AckMatchesInvite(ack: Message, invite: Message, seqNo: nat)
    requires ack.Request? && ack.methodName == "ACK"
    requires invite.Request? && invite.methodName == "INVITE"
    requires Header(invite, "cseq") == Some(Sequence(CSeq(seqNo, "INVITE")))
    requires Header(ack, "call-id") == Header(invite, "call-id")
    requires TopBranch(invite).Some? && TopBranch(ack) == TopBranch(invite)
    ensures TransactionId(ack).Some? && TransactionId(ack) == TransactionId(invite)
  {
  }

  /** Two requests whose CSeq methods differ get different ids, unless one of them is an ACK. */
  lemma IdSeparatesMethods(a: Message, b: Message)
    requires a.Request? && b.Request? && a.methodName != "ACK" && b.methodName != "ACK"
    requires Header(a, "cseq").Some? && Header(a, "cseq").value.Sequence?
    requires Header(b, "cseq").Some? && Header(b, "cseq").value.Sequence?
    requires Header(a, "call-id") == Header(b, "call-id") && TopBranch(a) == TopBranch(b) && TopBranch(a).Some?
    requires Header(a, "cseq").value.cseq.methodName != Header(b, "cseq").value.cseq.methodName
    ensures TransactionId(a) != TransactionId(b)
  {
    var ma := Header(a, "cseq").value.cseq.methodName;
    var mb := Header(b, "cseq").value.cseq.methodName;
    var c := JoinPart(Header(a, "call-id"));
    var br := TopBranch(a).value;
    var tail := "," + c + "," + br;
    assert ma + "," + c + "," + br == ma + tail;
    assert mb + "," + c + "," + br == mb + tail;
    if ma + tail == mb + tail {
      SuffixCancels(ma, mb, tail);
    }
  }

  /** Texts that are equal after the same suffix are equal. */
  lemma SuffixCancels(x: string, y: string, t: string)
    requires x + t == y + t
    ensures x == y
  {
    assert |x| == |y|;
    assert x == (x + t)[..|x|];
  }

  // ---------------------------------------------------------------- defaultPort

  /** `defaultPort(proto)`: 5061 for TLS in any letter case, 5060 for everything else. */
  function DefaultPort(proto: string): (r: nat)
    ensures r == 5061 <==> Upper(proto) == "TLS"
    ensures r == 5060 <==> Upper(proto) != "TLS"
  {
    if Upper(proto) == "TLS" then 5061 else 5060
  }
}
