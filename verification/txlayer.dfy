/**
 * `makeTransactionLayer`: the two tables that route messages to their
 * transactions, keyed by `makeTransactionId`. A table is a JavaScript object,
 * so its keys keep the order they were first assigned in; it holds handles
 * of the transaction objects, whose behaviour the four transaction modules
 * describe. Each transaction's `cleanup` callback deletes its key and
 * releases its connection.
 */
module TransactionLayer {
  import opened Wrappers
  import opened SipTypes
  import opened MessageText
  import opened Js
  import Grammar
  import Codec
  import InviteClientTransaction
  import ClientTransaction

  /** A transaction object: when it was made, its key, its table, and whether it is an INVITE one. */
  datatype Handle = Handle(serial: nat, id: string, server: bool, invite: bool)

  /** What the layer makes a transaction do: `shutdown()`, and its `cleanup` releasing the connection. */
  datatype Event = ShutDown(handle: Handle) | Released(handle: Handle)

  /** What `createClientTransaction` starts: the request as it left it, the transport's reliability, the handle. */
  datatype NewClient = NewClient(rq: Message, reliable: bool, handle: Handle)

  /** `typeof v === 'object'`: the structured header values. */
  predicate IsObject(v: Option<HeaderValue>) {
    v.Some? && (v.value.Address? || v.value.Sequence? || v.value.Credentials? || v.value.List?)
  }

  /** `rq.headers.via[0].params.branch = branch`; `None` where that assignment throws. */
  function StampBranch(rq: Message, branch: string): (r: Option<Message>)
    ensures r.Some? <==> HasTopVia(rq)
    ensures r.Some? ==> Codec.TopBranch(r.value) == Some(branch)
    ensures r.Some? ==> r.value.Request? == rq.Request? && (rq.Request? ==> r.value.methodName == rq.methodName && r.value.uri == rq.uri)
    ensures r.Some? ==> forall k :: k != "via" ==> Header(r.value, k) == Header(rq, k)
    ensures r.Some? ==> (|ViaList(r.value).value| == |ViaList(rq).value|
      && ViaList(r.value).value[1..] == ViaList(rq).value[1..])
  {
    if !HasTopVia(rq) then None
    else
      var v := TopVia(rq);
      Some(SetTopVia(rq, v.(params := Put(v.params, "branch", Some(branch)))))
  }

  /**
   * `rq.headers.cseq = parseCSeq({s: rq.headers.cseq, i: 0})` when the CSeq is
   * not an object: the text (`"undefined"` when absent) must match the CSeq
   * grammar, or the parser throws.
   */
  function NormalizeCSeq(rq: Message): (r: Option<Message>)
    ensures r.Some? ==> IsObject(Header(r.value, "cseq"))
    ensures r.Some? ==> Header(r.value, "via") == Header(rq, "via")
    ensures IsObject(Header(rq, "cseq")) ==> r == Some(rq)
    ensures !IsObject(Header(rq, "cseq")) ==>
      (r.Some? <==> Grammar.MatchCSeq(ValueString(Header(rq, "cseq").GetOr(Undefined))).Some?)
  {
    var v := Header(rq, "cseq");
    if IsObject(v) then Some(rq)
    else
      var c := Grammar.MatchCSeq(ValueString(v.GetOr(Undefined)));
      if c.None? then None
      else
        Some(WithCSeq(rq, c.value.0, c.value.1))
  }

  /** The request with its CSeq replaced by the parsed number and method. */
  function WithCSeq(rq: Message, n: nat, name: string): (r: Message)
    ensures Header(r, "cseq") == Some(Sequence(CSeq(n, name)))
    ensures Header(r, "via") == Header(rq, "via")
  {
    var r := SetHeader(rq, "cseq", Sequence(CSeq(n, name)));
    assert Header(r, "via") == Header(rq, "via");
    r
  }

  /** Parsing the CSeq touches nothing else: start line, other headers and top branch stay. */
  lemma NormalizeCSeqKeeps(rq: Message)
    requires NormalizeCSeq(rq).Some?
    ensures var r := NormalizeCSeq(rq).value;
      r.Request? == rq.Request? && (rq.Request? ==> r.methodName == rq.methodName && r.uri == rq.uri)
      && (forall k :: k != "cseq" ==> Header(r, k) == Header(rq, k))
      && Codec.TopBranch(r) == Codec.TopBranch(rq)
  {
    var r := NormalizeCSeq(rq).value;
    if !IsObject(Header(rq, "cseq")) {
      var c := Grammar.MatchCSeq(ValueString(Header(rq, "cseq").GetOr(Undefined))).value;
      assert r == WithCSeq(rq, c.0, c.1) == SetHeader(rq, "cseq", Sequence(CSeq(c.0, c.1)));
      SameViaSameBranch(r, rq);
    }
  }

  /** The top branch depends on the Via header alone. */
  lemma SameViaSameBranch(a: Message, b: Message)
    requires Header(a, "via") == Header(b, "via")
    ensures Codec.TopBranch(a) == Codec.TopBranch(b)
  {
    assert ViaList(a) == ViaList(b);
  }

  /** What `createClientTransaction` does to the request before it keys it: branch (not for CANCEL), then CSeq. */
  function PrepareClient(rq: Message, branch: string): (r: Option<Message>)
    ensures r.Some? ==> IsObject(Header(r.value, "cseq"))
    ensures IsMethod(rq, "CANCEL") ==> r == NormalizeCSeq(rq)
  {
    var stamped := if IsMethod(rq, "CANCEL") then Some(rq) else StampBranch(rq, branch);
    if stamped.None? then None else NormalizeCSeq(stamped.value)
  }

  /**
   * `createClientTransaction` throws exactly when the Via it must stamp is
   * missing or the CSeq text does not parse.
   */
  lemma PrepareClientFails(rq: Message, branch: string)
    ensures PrepareClient(rq, branch).None? <==>
      (!IsMethod(rq, "CANCEL") && !HasTopVia(rq))
      || (!IsObject(Header(rq, "cseq")) && Grammar.MatchCSeq(ValueString(Header(rq, "cseq").GetOr(Undefined))).None?)
  {
    if !IsMethod(rq, "CANCEL") && HasTopVia(rq) {
      assert Header(StampBranch(rq, branch).value, "cseq") == Header(rq, "cseq");
    }
  }

  /**
   * A request `createClientTransaction` gets through carries the new branch,
   * unless it is a CANCEL, which keeps the branch of the request it cancels;
   * its CSeq is structured.
   */
  lemma PrepareClientBranch(rq: Message, branch: string)
    requires PrepareClient(rq, branch).Some?
    ensures !IsMethod(rq, "CANCEL") ==> Codec.TopBranch(PrepareClient(rq, branch).value) == Some(branch)
    ensures IsMethod(rq, "CANCEL") ==> Codec.TopBranch(PrepareClient(rq, branch).value) == Codec.TopBranch(rq)
    ensures IsObject(Header(PrepareClient(rq, branch).value, "cseq"))
  {
    var stamped := if IsMethod(rq, "CANCEL") then rq else StampBranch(rq, branch).value;
    NormalizeCSeqKeeps(stamped);
  }

  /** Its method, URI and every header other than Via and CSeq are those of the request given. */
  lemma PrepareClientKeeps(rq: Message, branch: string)
    requires rq.Request? && PrepareClient(rq, branch).Some?
    ensures var r := PrepareClient(rq, branch).value;
      r.Request? && r.methodName == rq.methodName && r.uri == rq.uri
      && forall k :: k != "via" && k != "cseq" ==> Header(r, k) == Header(rq, k)
  {
    var stamped := if IsMethod(rq, "CANCEL") then rq else StampBranch(rq, branch).value;
    NormalizeCSeqKeeps(stamped);
  }

  /**
   * A request `createClientTransaction` gets through has a transaction id
   * (a CANCEL needs a top Via of its own for that), and, when its CSeq is a
   * sequence, it is one the transaction it gets can be created from: the
   * INVITE client for an INVITE, the non-INVITE client otherwise.
   */
  lemma PreparedIsCreatable(rq: Message, branch: string)
    requires rq.Request? && PrepareClient(rq, branch).Some?
    requires IsMethod(rq, "CANCEL") ==> HasTopVia(rq)
    ensures var p := PrepareClient(rq, branch).value;
      Codec.TransactionId(p).Some?
      && (Header(p, "cseq").value.Sequence? ==>
            if rq.methodName == "INVITE" then InviteClientTransaction.CanCreate(p) else ClientTransaction.CanCreate(p))
  {
    PreparedHasTopVia(rq, branch);
    PrepareClientBranch(rq, branch);
    PrepareClientKeeps(rq, branch);
    ObjectCSeqHasId(PrepareClient(rq, branch).value);
  }

  /** The Via entry a prepared request's branch sits in is there. */
  lemma PreparedHasTopVia(rq: Message, branch: string)
    requires PrepareClient(rq, branch).Some?
    requires IsMethod(rq, "CANCEL") ==> HasTopVia(rq)
    ensures HasTopVia(PrepareClient(rq, branch).value)
  {
    if IsMethod(rq, "CANCEL") {
      NormalizeKeepsTopVia(rq);
    } else {
      StampKeepsTopVia(rq, branch);
      NormalizeKeepsTopVia(StampBranch(rq, branch).value);
    }
  }

  lemma StampKeepsTopVia(rq: Message, branch: string)
    requires HasTopVia(rq)
    ensures StampBranch(rq, branch).Some? && HasTopVia(StampBranch(rq, branch).value)
  {
  }

  lemma NormalizeKeepsTopVia(m: Message)
    requires HasTopVia(m) && NormalizeCSeq(m).Some?
    ensures HasTopVia(NormalizeCSeq(m).value)
  {
  }

  /** A message with a first Via entry and a structured CSeq has a transaction id. */
  lemma ObjectCSeqHasId(m: Message)
    requires HasTopVia(m) && IsObject(Header(m, "cseq"))
    ensures Codec.TransactionId(m).Some?
  {
  }

  // ---------------------------------------------------------------- the tables

  /** `table[id(m)]`: `None` when there is no entry, or when `makeTransactionId` throws. */
  function Find(table: Dict<Handle>, m: Message): (r: Option<Handle>)
    ensures r.Some? ==> Codec.TransactionId(m).Some?
  {
    match Codec.TransactionId(m)
    case None => None
    case Some(id) => Lookup(table, id)
  }

  /** Every handle sits under its own id in its own table, and no id occurs twice. */
  predicate Keyed(table: Dict<Handle>, server: bool) {
    UniqueKeys(table) && forall e :: e in table ==> e.1.id == e.0 && e.1.server == server
  }

  /** What `Lookup` finds is an entry of the table. */
  lemma {:induction false} LookupEntry<V>(d: Dict<V>, k: string)
    ensures Lookup(d, k).Some? ==> (k, Lookup(d, k).value) in d
  {
    if d != [] && d[0].0 != k {
      LookupEntry(d[1..], k);
    }
  }

  /** A handle found in a keyed table belongs to that table and carries the message's transaction id. */
  lemma FoundIsKeyed(table: Dict<Handle>, server: bool, m: Message)
    ensures Keyed(table, server) && Find(table, m).Some? ==>
      Find(table, m).value.server == server && Codec.TransactionId(m) == Some(Find(table, m).value.id)
  {
    if Codec.TransactionId(m).Some? {
      LookupEntry(table, Codec.TransactionId(m).value);
    }
  }

  lemma {:induction false} PutEntries<V>(d: Dict<V>, k: string, v: V)
    ensures forall e :: e in Put(d, k, v) ==> e == (k, v) || e in d
    ensures UniqueKeys(d) ==> UniqueKeys(Put(d, k, v))
  {
    if d != [] && d[0].0 != k {
      PutEntries(d[1..], k, v);
      var r := Put(d, k, v);
      assert r[0] == d[0] && r[1..] == Put(d[1..], k, v);
      assert Lookup(Put(d[1..], k, v), d[0].0) == Lookup(d[1..], d[0].0);
    } else if d != [] {
      assert Put(d, k, v)[1..] == d[1..];
    }
  }

  lemma {:induction false} RemoveEntries<V>(d: Dict<V>, k: string)
    ensures forall e :: e in Remove(d, k) ==> e in d
    ensures UniqueKeys(d) ==> UniqueKeys(Remove(d, k))
  {
    if d != [] {
      RemoveEntries(d[1..], k);
      if d[0].0 != k {
        var r := Remove(d, k);
        assert r[0] == d[0] && r[1..] == Remove(d[1..], k);
        if d[0].0 != k && UniqueKeys(d) {
          assert Lookup(Remove(d[1..], k), d[0].0) == Lookup(d[1..], d[0].0);
        }
      }
    }
  }

  /** Deleting a key that is absent changes nothing. */
  lemma {:induction false} RemoveAbsent<V>(d: Dict<V>, k: string)
    requires !HasKey(d, k)
    ensures Remove(d, k) == d
  {
    if d != [] {
      RemoveAbsent(d[1..], k);
      assert [d[0]] + d[1..] == d;
    }
  }

  /** Deleting the first key of a table with unique keys drops its first entry. */
  lemma RemoveFirst<V>(d: Dict<V>)
    requires UniqueKeys(d) && d != []
    ensures Remove(d, d[0].0) == d[1..]
  {
    RemoveAbsent(d[1..], d[0].0);
  }

  /**
   * A transaction created under a fresh id and then cleaned up leaves its
   * table exactly as it was, entry order included.
   */
  lemma {:induction false} CreateThenCleanupRestores(table: Dict<Handle>, h: Handle)
    requires !HasKey(table, h.id)
    ensures Remove(Put(table, h.id, h), h.id) == table
  {
    if table == [] {
    } else {
      assert table[0].0 != h.id;
      var p := Put(table, h.id, h);
      assert p[0] == table[0] && p[1..] == Put(table[1..], h.id, h);
      CreateThenCleanupRestores(table[1..], h);
      assert [table[0]] + table[1..] == table;
    }
  }

  /**
   * An ACK finds the server transaction of the INVITE it acknowledges (same
   * Call-ID, same top branch), whatever else the table holds.
   */
  lemma AckFindsInviteServer(table: Dict<Handle>, invite: Message, ack: Message, seqNo: nat, h: Handle)
    requires IsMethod(ack, "ACK") && IsMethod(invite, "INVITE")
    requires Header(invite, "cseq") == Some(Sequence(CSeq(seqNo, "INVITE")))
    requires Header(ack, "call-id") == Header(invite, "call-id")
    requires Codec.TopBranch(invite).Some? && Codec.TopBranch(ack) == Codec.TopBranch(invite)
    ensures Find(Put(table, Codec.TransactionId(invite).value, h), ack) == Some(h)
  {
    Codec.AckMatchesInvite(ack, invite, seqNo);
  }

  /** The entries `destroy` shuts down, in key order, each followed by its cleanup's release. */
  function Teardown(table: Dict<Handle>): (r: seq<Event>)
    ensures |r| == 2 * |table|
  {
    if table == [] then []
    else
      var h := table[|table| - 1].1;
      Teardown(table[..|table| - 1]) + [ShutDown(h), Released(h)]
  }

  /** Shutting down one more entry extends the log by that entry's shutdown and release. */
  lemma TeardownNext(table: Dict<Handle>, i: nat)
    requires i < |table|
    ensures Teardown(table[..i + 1]) == Teardown(table[..i]) + [ShutDown(table[i].1), Released(table[i].1)]
  {
    assert table[..i + 1][..i] == table[..i];
  }

  /** `Object.keys(table)`. */
  function Keys(table: Dict<Handle>): (r: seq<string>)
    ensures |r| == |table| && forall i :: 0 <= i < |table| ==> r[i] == table[i].0
  {
    seq(|table|, i requires 0 <= i < |table| => table[i].0)
  }

  // ---------------------------------------------------------------- the layer object

  /** The object `makeTransactionLayer` returns. */
  class Layer {
    var servers: Dict<Handle>
    var clients: Dict<Handle>
    /** How many transactions have been made: the next handle's serial. */
    var made: nat
    var log: seq<Event>

    predicate Valid()
      reads this
    {
      Keyed(servers, true) && Keyed(clients, false)
    }

    function Table(server: bool): Dict<Handle>
      reads this
    {
      if server then servers else clients
    }

    constructor()
      ensures servers == [] && clients == [] && made == 0 && log == [] && Valid()
    {
      servers, clients, made, log := [], [], 0, [];
    }

    /** Puts a new handle under its id, replacing whatever was there. */
    method Register(id: string, server: bool, invite: bool) returns (h: Handle)
      requires Valid()
      modifies this
      ensures h == Handle(old(made), id, server, invite) && made == old(made) + 1
      ensures Table(server) == Put(old(Table(server)), id, h)
      ensures Table(!server) == old(Table(!server)) && log == old(log)
      ensures Lookup(Table(server), id) == Some(h)
      ensures Valid()
    {
      h := Handle(made, id, server, invite);
      PutEntries(Table(server), id, h);
      if server {
        servers := Put(servers, id, h);
      } else {
        clients := Put(clients, id, h);
      }
      made := made + 1;
    }

    /**
     * `createServerTransaction(rq, cn)`: keys the request and registers the
     * new transaction (an INVITE one for an INVITE), replacing any entry
     * under that key; nothing happens when `makeTransactionId` throws.
     */
    method CreateServer(rq: Message) returns (h: Option<Handle>)
      requires Valid()
      modifies this
      ensures h.Some? <==> Codec.TransactionId(rq).Some?
      ensures h.Some? ==> (h.value == Handle(old(made), Codec.TransactionId(rq).value, true, IsMethod(rq, "INVITE"))
        && servers == Put(old(servers), h.value.id, h.value) && made == old(made) + 1
        && Find(servers, rq) == h)
      ensures h.None? ==> servers == old(servers) && made == old(made)
      ensures clients == old(clients) && log == old(log) && Valid()
    {
      var id := Codec.TransactionId(rq);
      if id.None? {
        return None;
      }
      var t := Register(id.value, true, IsMethod(rq, "INVITE"));
      h := Some(t);
    }

    /**
     * `createClientTransaction(connection, rq, callback)`: stamps the branch
     * and parses a textual CSeq (both in place), takes reliability from the
     * connection's protocol, keys the request and registers the new
     * transaction. `None` where the source throws, before any entry changes.
     */
    method CreateClient(rq: Message, protocol: string, branch: string) returns (r: Option<NewClient>)
      requires Valid()
      modifies this
      ensures r.Some? <==> PrepareClient(rq, branch).Some? && Codec.TransactionId(PrepareClient(rq, branch).value).Some?
      ensures r.Some? ==> var p := PrepareClient(rq, branch).value;
        r.value.rq == p
        && r.value.reliable == (Upper(protocol) != "UDP")
        && r.value.handle == Handle(old(made), Codec.TransactionId(p).value, false, IsMethod(rq, "INVITE"))
        && clients == Put(old(clients), r.value.handle.id, r.value.handle) && made == old(made) + 1
        && Find(clients, p) == Some(r.value.handle)
      ensures r.None? ==> clients == old(clients) && made == old(made)
      ensures servers == old(servers) && log == old(log) && Valid()
    {
      var p := PrepareClient(rq, branch);
      if p.None? {
        return None;
      }
      var reliable := Upper(protocol) != "UDP";
      var id := Codec.TransactionId(p.value);
      if id.None? {
        return None;
      }
      var h := Register(id.value, false, IsMethod(rq, "INVITE"));
      r := Some(NewClient(p.value, reliable, h));
    }

    /** `getServer(m)`. */
    function GetServer(m: Message): (r: Option<Handle>)
      reads this
      ensures r.Some? ==> Codec.TransactionId(m).Some?
      ensures Valid() && r.Some? ==> r.value.server == true && r.value.id == Codec.TransactionId(m).value
    {
      FoundIsKeyed(servers, true, m);
      Find(servers, m)
    }

    /** `getClient(m)`. */
    function GetClient(m: Message): (r: Option<Handle>)
      reads this
      ensures r.Some? ==> Codec.TransactionId(m).Some?
      ensures Valid() && r.Some? ==> r.value.server == false && r.value.id == Codec.TransactionId(m).value
    {
      FoundIsKeyed(clients, false, m);
      Find(clients, m)
    }

    /**
     * The `cleanup` callback of transaction `h`: deletes its key, whichever
     * transaction the key holds by now, and releases its connection.
     */
    method Release(h: Handle)
      requires Valid()
      modifies this
      ensures Table(h.server) == Remove(old(Table(h.server)), h.id)
      ensures Lookup(Table(h.server), h.id) == None
      ensures Table(!h.server) == old(Table(!h.server))
      ensures made == old(made) && log == old(log) + [Released(h)]
      ensures Valid()
    {
      RemoveEntries(Table(h.server), h.id);
      if h.server {
        servers := Remove(servers, h.id);
      } else {
        clients := Remove(clients, h.id);
      }
      log := log + [Released(h)];
    }

    /**
     * Shuts down every transaction of one table in key order. Shutting down
     * enters Terminated, whose `cleanup` deletes the entry, so the table ends
     * up empty.
     */
    method ShutDownTable(server: bool)
      requires Valid()
      modifies this
      ensures Table(server) == [] && Table(!server) == old(Table(!server))
      ensures made == old(made) && log == old(log) + Teardown(old(Table(server)))
      ensures Valid()
    {
      var keys := Keys(Table(server));
      var i := 0;
      while i < |keys|
        invariant 0 <= i <= |keys| == |old(Table(server))|
        invariant Valid()
        invariant Table(server) == old(Table(server))[i..] && Table(!server) == old(Table(!server))
        invariant made == old(made) && log == old(log) + Teardown(old(Table(server))[..i])
      {
        ShutDownFirst(server);
        TeardownNext(old(Table(server)), i);
        i := i + 1;
      }
      assert old(Table(server))[..i] == old(Table(server));
    }

    /** `table[x].shutdown()` for the first key `x`: its `cleanup` deletes `x` and releases the connection. */
    method ShutDownFirst(server: bool)
      requires Valid() && Table(server) != []
      modifies this
      ensures Table(server) == old(Table(server))[1..] && Table(!server) == old(Table(!server))
      ensures var h := old(Table(server))[0].1; log == old(log) + [ShutDown(h), Released(h)]
      ensures made == old(made) && Valid()
    {
      var table := Table(server);
      assert table[0] in table;
      var h := table[0].1;
      log := log + [ShutDown(h)];
      RemoveFirst(table);
      Release(h);
    }

    /** `destroy()`: shuts down every client transaction, then every server transaction. */
    method Destroy()
      requires Valid()
      modifies this
      ensures servers == [] && clients == []
      ensures log == old(log) + Teardown(old(clients)) + Teardown(old(servers))
      ensures made == old(made) && Valid()
    {
      ShutDownTable(false);
      ShutDownTable(true);
    }
  }
}
