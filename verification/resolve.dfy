/**
 * Where a request goes: `resolve(uri, action)` turns the next-hop URI into
 * a list of transport targets to try in order. DNS itself (SRV, A and AAAA
 * lookups, and `net.isIP`) is outside the model; its answers are inputs.
 * `makeWellBehavingResolver` coalesces concurrent lookups of one name.
 */
module Resolution {
  import opened Wrappers
  import opened SipTypes
  import Codec

  /** A place to send to: protocol, address, port, and whether it is an existing flow with a local end. */
  datatype Target = Target(protocol: string, address: string, port: nat, local: bool)

  /** `p || d` on a port: an absent port and port 0 both give the default. */
  function PortOr(p: Option<nat>, d: nat): (r: nat)
    ensures p.Some? && p.value != 0 ==> r == p.value
    ensures p.None? || p.value == 0 ==> r == d
  {
    if p.Some? && p.value != 0 then p.value else d
  }

  /** `uri.params.transport`, when it is a non-empty text (a truthy value). */
  function Transport(uri: Uri): (r: Option<string>)
    ensures r.Some? ==> r.value != "" && Lookup(uri.params, "transport") == Some(r)
    ensures forall t :: Lookup(uri.params, "transport") == Some(Some(t)) && t != "" ==> r == Some(t)
  {
    var t := Lookup(uri.params, "transport");
    if t.Some? && t.value.Some? && t.value.value != "" then t.value else None
  }

  // ---------------------------------------------------------------- the WebSocket port

  /** The default port of a `transport=ws` URI as written: 433 for `sips`, 80 otherwise. */
  function WsDefaultPortAsWritten(schema: string): (r: nat)
    ensures r == if schema == "sips" then 433 else 80
  {
    if schema == "sips" then 433 else 80
  }

  /** The default port of WebSocket over TLS (section 3 of RFC 6455). */
  const WssPort: nat := 443

  /**
   * `transport=ws` on a `sips` URI with no port goes to 433, a port that
   * differs by one digit from the WebSocket-over-TLS port.
   */
  lemma WsDefaultPortMissesWss()
    ensures WsDefaultPortAsWritten("sips") != WssPort
    ensures WsDefaultPortAsWritten("sips") == 433
  {
  }

  /** The default port of a `transport=ws` URI: the WebSocket port of its security. */
  function WsDefaultPort(schema: string): (r: nat)
    ensures schema == "sips" ==> r == WssPort
    ensures schema != "sips" ==> r == 80
    ensures schema != "sips" ==> r == WsDefaultPortAsWritten(schema)
  {
    if schema == "sips" then WssPort else 80
  }

  // ---------------------------------------------------------------- resolve without DNS

  /**
   * The branches of `resolve` that need no DNS, with `wsPort` the default port
   * of a `transport=ws` URI: such a URI gives one WebSocket target; an
   * IP-address host (`isIP`, from `net.isIP`) gives one target on the URI's
   * transport, UDP by default. `None` for a host name, which goes to DNS.
   */
  function DirectTargets(uri: Uri, isIP: bool, wsPort: nat): (r: Option<seq<Target>>)
    ensures r.Some? <==> Lookup(uri.params, "transport") == Some(Some("ws")) || isIP
    ensures r.Some? ==> |r.value| == 1 && r.value[0].address == uri.host && !r.value[0].local
    ensures Lookup(uri.params, "transport") == Some(Some("ws")) ==>
      r.value[0].protocol == (if uri.schema == "sips" then "WSS" else "WS")
      && r.value[0].port == PortOr(uri.port, wsPort)
    ensures Lookup(uri.params, "transport") != Some(Some("ws")) && isIP ==>
      r.value[0].protocol == Transport(uri).GetOr("UDP")
      && r.value[0].port == PortOr(uri.port, Codec.DefaultPort(r.value[0].protocol))
  {
    if Lookup(uri.params, "transport") == Some(Some("ws")) then
      Some([Target(if uri.schema == "sips" then "WSS" else "WS", uri.host, PortOr(uri.port, wsPort), false)])
    else if isIP then
      var protocol := Transport(uri).GetOr("UDP");
      Some([Target(protocol, uri.host, PortOr(uri.port, Codec.DefaultPort(protocol)), false)])
    else None
  }

  /** `resolve` without DNS as written: a `transport=ws` URI without a port goes to 433 or 80. */
  function ResolveDirect(uri: Uri, isIP: bool): (r: Option<seq<Target>>)
    ensures r.Some? <==> Lookup(uri.params, "transport") == Some(Some("ws")) || isIP
    ensures r.Some? ==> |r.value| == 1 && r.value[0].address == uri.host && !r.value[0].local
    ensures Lookup(uri.params, "transport") == Some(Some("ws")) ==>
      r.value[0].protocol == (if uri.schema == "sips" then "WSS" else "WS")
      && r.value[0].port == PortOr(uri.port, if uri.schema == "sips" then 433 else 80)
    ensures Lookup(uri.params, "transport") != Some(Some("ws")) && isIP ==>
      r.value[0].protocol == Transport(uri).GetOr("UDP")
      && r.value[0].port == PortOr(uri.port, Codec.DefaultPort(r.value[0].protocol))
  {
    DirectTargets(uri, isIP, WsDefaultPortAsWritten(uri.schema))
  }

  /**
   * `resolve` without DNS as intended: the same targets, except that a
   * `transport=ws` URI on `sips` without a port goes to the WSS port.
   */
  function ResolveDirectIntended(uri: Uri, isIP: bool): (r: Option<seq<Target>>)
    ensures !(uri.schema == "sips" && (uri.port.None? || uri.port == Some(0))) ==> r == ResolveDirect(uri, isIP)
    ensures Lookup(uri.params, "transport") == Some(Some("ws")) && uri.schema == "sips" && uri.port.None? ==>
      r == Some([Target("WSS", uri.host, WssPort, false)])
    ensures Lookup(uri.params, "transport") != Some(Some("ws")) ==> r == ResolveDirect(uri, isIP)
  {
    DirectTargets(uri, isIP, WsDefaultPort(uri.schema))
  }

  /** The WebSocket branch as written and as intended disagree on a `sips` URI without a port. */
  lemma SipsWsTargetsDiffer(uri: Uri, isIP: bool)
    requires Lookup(uri.params, "transport") == Some(Some("ws")) && uri.schema == "sips" && uri.port.None?
    ensures ResolveDirect(uri, isIP) == Some([Target("WSS", uri.host, 433, false)])
    ensures ResolveDirectIntended(uri, isIP) == Some([Target("WSS", uri.host, 443, false)])
  {
  }

  /** An IP address with no port and no transport is tried over UDP on 5060. */
  lemma BareAddressIsUdp5060(uri: Uri)
    requires Lookup(uri.params, "transport").None? && uri.port.None?
    ensures ResolveDirect(uri, true) == Some([Target("UDP", uri.host, 5060, false)])
  {
  }

  /** An explicit TLS transport on an IP address defaults to port 5061, in any letter case. */
  lemma TlsAddressDefaultsTo5061(uri: Uri, t: string)
    requires Lookup(uri.params, "transport") == Some(Some(t)) && Js.Upper(t) == "TLS" && uri.port.None?
    ensures ResolveDirect(uri, true).value[0].port == 5061
  {
    assert t != "ws" by {
      assert Js.Upper("ws") == "WS";
    }
  }

  // ---------------------------------------------------------------- A / AAAA answers

  /**
   * `resolve46` as written: the IPv4 answer, when there is one, decides
   * whether anything is returned, so an empty IPv4 list hides every IPv6
   * address.
   */
  function Merge46AsWritten(a4: Option<seq<string>>, a6: Option<seq<string>>): (r: seq<string>)
    ensures a4.Some? && a4.value == [] ==> r == []
  {
    var first := if a4.Some? then a4 else a6;
    if first.Some? && |first.value| > 0 then a4.GetOr([]) + a6.GetOr([]) else []
  }

  /** An empty IPv4 answer with an IPv6 address gives no address at all. */
  lemma Merge46DropsIpv6()
    ensures Merge46AsWritten(Some([]), Some(["::1"])) == []
  {
  }

  /** `resolve46`: every IPv4 address, then every IPv6 address; failed lookups count as empty. */
  function Merge46(a4: Option<seq<string>>, a6: Option<seq<string>>): (r: seq<string>)
    ensures r == a4.GetOr([]) + a6.GetOr([])
    ensures a4.Some? && |a4.value| > 0 ==> r == Merge46AsWritten(a4, a6)
    ensures a4.None? ==> r == Merge46AsWritten(a4, a6)
  {
    if |a4.GetOr([])| + |a6.GetOr([])| > 0 then a4.GetOr([]) + a6.GetOr([]) else []
  }

  // ---------------------------------------------------------------- candidate order

  /** The protocols tried for a host name: the URI's transport, else all three (upper case with a port). */
  function Protocols(uri: Uri): (r: seq<string>)
    ensures |r| > 0
  {
    if Transport(uri).Some? then [Transport(uri).value]
    else if uri.port.Some? && uri.port.value != 0 then ["UDP", "TCP", "TLS"]
    else ["tcp", "udp", "tls"]
  }

  /** Every protocol for one address, in protocol order. */
  function Row(x: string, protocols: seq<string>, port: Option<nat>): (r: seq<Target>)
    ensures |r| == |protocols|
    ensures forall j :: 0 <= j < |protocols| ==>
      r[j] == Target(protocols[j], x, PortOr(port, Codec.DefaultPort(protocols[j])), false)
  {
    seq(|protocols|, j requires 0 <= j < |protocols| => Target(protocols[j], x, PortOr(port, Codec.DefaultPort(protocols[j])), false))
  }

  /** The `map(...).reduce(concat)` over the addresses: address-major, protocol-minor. */
  function Candidates(addresses: seq<string>, protocols: seq<string>, port: Option<nat>): (r: seq<Target>)
    ensures |r| == |addresses| * |protocols|
  {
    if addresses == [] then []
    else
      assert |addresses| * |protocols| == |protocols| + (|addresses| - 1) * |protocols|;
      Row(addresses[0], protocols, port) + Candidates(addresses[1..], protocols, port)
  }

  /**
   * Every address is tried with every protocol: candidate `i * |protocols| + j`
   * is address `i` over protocol `j`, on the URI's port or that protocol's default.
   */
  lemma {:induction false} CandidateAt(addresses: seq<string>, protocols: seq<string>, port: Option<nat>, i: nat, j: nat)
    requires i < |addresses| && j < |protocols|
    ensures |Candidates(addresses, protocols, port)| == |addresses| * |protocols|
    ensures i * |protocols| + j < |addresses| * |protocols|
    ensures Candidates(addresses, protocols, port)[i * |protocols| + j]
      == Target(protocols[j], addresses[i], PortOr(port, Codec.DefaultPort(protocols[j])), false)
  {
    var n := |protocols|;
    IndexBound(i, j, n, |addresses|);
    var row := Row(addresses[0], protocols, port);
    var rest := Candidates(addresses[1..], protocols, port);
    assert Candidates(addresses, protocols, port) == row + rest;
    if i > 0 {
      CandidateAt(addresses[1..], protocols, port, i - 1, j);
      assert (i - 1) * n + j + n == i * n + j;
      assert addresses[1..][i - 1] == addresses[i];
    }
  }

  /** Row `i`, column `j` of an `m` by `n` table lies inside it. */
  lemma IndexBound(i: nat, j: nat, n: nat, m: nat)
    requires i < m && j < n
    ensures i * n + j < m * n
  {
    assert m * n - (i + 1) * n == (m - i - 1) * n;
  }

  /**
   * With a port on the URI, a host name resolved to these A and AAAA answers
   * gives every IPv4 address, then every IPv6 address, each over UDP, TCP and
   * TLS in that order (or over the URI's transport alone), all on that port.
   */
  lemma {:induction false} PortedHostOrder(uri: Uri, a4: seq<string>, a6: seq<string>, i: nat, j: nat)
    requires uri.port.Some? && uri.port.value != 0 && Transport(uri).None?
    requires i < |a4| + |a6| && j < 3
    ensures var c := Candidates(Merge46(Some(a4), Some(a6)), Protocols(uri), uri.port);
      |c| == 3 * (|a4| + |a6|)
      && c[3 * i + j] == Target(["UDP", "TCP", "TLS"][j], if i < |a4| then a4[i] else a6[i - |a4|], uri.port.value, false)
  {
    var addresses := Merge46(Some(a4), Some(a6));
    CandidateAt(addresses, ["UDP", "TCP", "TLS"], uri.port, i, j);
    assert i * 3 + j == 3 * i + j;
  }

  // ---------------------------------------------------------------- the coalescer

  /**
   * The function `makeWellBehavingResolver(resolve)` returns, with its
   * `outstanding` map from name to waiting callbacks. Callbacks are named by
   * numbers; `issued` logs the names handed to the underlying `resolve`, and
   * `answered` the callbacks called, with the answer each got.
   */
  class Coalescer<Answer> {
    var outstanding: map<string, seq<nat>>
    var issued: seq<string>
    var answered: seq<(nat, Answer)>

    /** Every outstanding name has at least the callback that started its lookup. */
    predicate Valid()
      reads this
    {
      forall name :: name in outstanding ==> |outstanding[name]| > 0
    }

    constructor()
      ensures outstanding == map[] && issued == [] && answered == [] && Valid()
    {
      outstanding, issued, answered := map[], [], [];
    }

    /**
     * A lookup of `name` for callback `cb`: queued behind a lookup already
     * outstanding for the name, otherwise handed to `resolve`.
     */
    method Resolve(name: string, cb: nat)
      requires Valid()
      modifies this
      ensures name in old(outstanding) ==>
        outstanding == old(outstanding)[name := old(outstanding)[name] + [cb]] && issued == old(issued)
      ensures name !in old(outstanding) ==>
        outstanding == old(outstanding)[name := [cb]] && issued == old(issued) + [name]
      ensures answered == old(answered) && Valid()
    {
      if name in outstanding {
        outstanding := outstanding[name := outstanding[name] + [cb]];
      } else {
        outstanding := outstanding[name := [cb]];
        issued := issued + [name];
      }
    }

    /**
     * The answer of `resolve` for `name`: the waiters are taken off the map
     * first, then each is called with the answer, in the order they asked.
     * `resolve` answers each lookup it was given once, so the name is outstanding.
     */
    method Complete(name: string, answer: Answer)
      requires Valid() && name in outstanding
      modifies this
      ensures outstanding == old(outstanding) - {name}
      ensures answered == old(answered) + Fanout(old(outstanding)[name], answer)
      ensures issued == old(issued) && Valid()
    {
      var waiters := outstanding[name];
      outstanding := outstanding - {name};
      var i := 0;
      while i < |waiters|
        invariant 0 <= i <= |waiters|
        invariant outstanding == old(outstanding) - {name} && issued == old(issued) && Valid()
        invariant answered == old(answered) + Fanout(waiters[..i], answer)
      {
        FanoutNext(waiters, i, answer);
        answered := answered + [(waiters[i], answer)];
        i := i + 1;
      }
      assert waiters[..i] == waiters;
    }
  }

  /** Each waiter with the one answer, in order. */
  function Fanout<Answer>(waiters: seq<nat>, answer: Answer): (r: seq<(nat, Answer)>)
    ensures |r| == |waiters|
    ensures forall i :: 0 <= i < |waiters| ==> r[i] == (waiters[i], answer)
  {
    seq(|waiters|, i requires 0 <= i < |waiters| => (waiters[i], answer))
  }

  lemma FanoutNext<Answer>(waiters: seq<nat>, i: nat, answer: Answer)
    requires i < |waiters|
    ensures Fanout(waiters[..i + 1], answer) == Fanout(waiters[..i], answer) + [(waiters[i], answer)]
  {
  }
}
