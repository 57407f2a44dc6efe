/**
 * The outbound path of `create(options, callback)`: how `send` picks the next
 * hop from the Route set and the Request-URI, the Via entry it pushes for a
 * new request or an ACK, how every connection stamps the top Via with the
 * local address and protocol (`wrap`), and how the UDP transport annotates
 * the top Via of a request it receives (`received` and `rport`, section 4 of
 * RFC 3581).
 */
module Routing {
  import opened Wrappers
  import opened Js
  import opened SipTypes
  import opened Uris
  import HeaderParsers
  import Codec
  import MessageText
  import Resolution

  /** The options the outbound path reads; `osHostname` is what `os.hostname()` returns. */
  datatype Options = Options(
    publicAddress: string,
    address: string,
    hostname: string,
    osHostname: string,
    port: Option<nat>,
    rport: Option<bool>)

  /** `options.publicAddress || options.address || options.hostname || os.hostname()`. */
  function LocalHost(o: Options): (r: string)
    ensures r in {o.publicAddress, o.address, o.hostname, o.osHostname}
    ensures o.publicAddress != "" ==> r == o.publicAddress
  {
    if o.publicAddress != "" then o.publicAddress
    else if o.address != "" then o.address
    else if o.hostname != "" then o.hostname
    else o.osHostname
  }

  /** `options.port || 5060`: the port `send` compares route URIs against. */
  function LocalPort(o: Options): nat {
    Resolution.PortOr(o.port, 5060)
  }

  // ---------------------------------------------------------------- wrap: stamping the top Via

  /** `rport` is requested over UDP unless `options.rport` is present and false. */
  predicate RportOn(protocol: string, o: Options) {
    protocol == "UDP" && (o.rport.None? || o.rport == Some(true))
  }

  /**
   * The `send` of a wrapped connection whose protocol is `protocol`: the top
   * Via of a request gets the local host, the local port (or the protocol's
   * default) and the protocol, plus a valueless `rport` over UDP. A response
   * is sent untouched. `None` where the assignment throws: a request with no
   * top Via.
   */
  function Stamp(m: Message, protocol: string, o: Options): (r: Option<Message>)
    ensures !HasMethod(m) ==> r == Some(m)
    ensures HasMethod(m) ==> (r.Some? <==> HasTopVia(m))
  {
    if !HasMethod(m) then Some(m)
    else if !HasTopVia(m) then None
    else
      var v := TopVia(m);
      var params := if RportOn(protocol, o) then Put(v.params, "rport", None) else v.params;
      Some(SetTopVia(m, Via(v.version, protocol, LocalHost(o), Some(Resolution.PortOr(o.port, Codec.DefaultPort(protocol))), params)))
  }

  /**
   * A stamped request names this end in its top Via: local host, local or
   * default port, the connection's protocol; `rport` is asked for exactly when
   * `RportOn` holds (or was already there); every other parameter, the other
   * Via entries and every other header stay.
   */
  lemma StampedVia(m: Message, protocol: string, o: Options)
    requires HasMethod(m) && HasTopVia(m)
    ensures var r := Stamp(m, protocol, o).value;
      HasTopVia(r)
      && TopVia(r).host == LocalHost(o)
      && TopVia(r).port == Some(Resolution.PortOr(o.port, Codec.DefaultPort(protocol)))
      && TopVia(r).protocol == protocol && TopVia(r).version == TopVia(m).version
      && Lookup(TopVia(r).params, "rport") == (if RportOn(protocol, o) then Some(None) else Lookup(TopVia(m).params, "rport"))
      && (forall k :: k != "rport" ==> Lookup(TopVia(r).params, k) == Lookup(TopVia(m).params, k))
      && ViaList(r).value[1..] == ViaList(m).value[1..]
      && (forall k :: k != "via" ==> Header(r, k) == Header(m, k))
  {
  }

  // ---------------------------------------------------------------- UDP: received and rport

  /**
   * What the UDP transport does to a request from `address:port` before it
   * passes it on: `received` is set to the address, and `rport`, only when
   * the sender put one there, to the port. A response passes untouched.
   * The transport runs this after `checkMessage`, on a parsed message, whose
   * `via` is a non-empty list of Via entries.
   */
  function Annotate(m: Message, address: string, port: nat): (r: Message)
    requires HasMethod(m) ==> HasTopVia(m)
    ensures !HasMethod(m) ==> r == m
  {
    if !HasMethod(m) then m
    else
      var v := TopVia(m);
      var withReceived := Put(v.params, "received", Some(address));
      var params := if HasKey(v.params, "rport") then Put(withReceived, "rport", Some(NatToString(port))) else withReceived;
      SetTopVia(m, v.(params := params))
  }

  /**
   * After `Annotate` the top Via of a request records the source address in
   * `received`, and the source port in `rport` exactly when the sender asked
   * for it; nothing else in the message changes.
   */
  lemma AnnotatedVia(m: Message, address: string, port: nat)
    requires HasMethod(m) && HasTopVia(m)
    ensures var r := Annotate(m, address, port);
      HasTopVia(r)
      && Lookup(TopVia(r).params, "received") == Some(Some(address))
      && (HasKey(TopVia(m).params, "rport") ==> Lookup(TopVia(r).params, "rport") == Some(Some(NatToString(port))))
      && (!HasKey(TopVia(m).params, "rport") ==> Lookup(TopVia(r).params, "rport") == None)
      && (forall k :: k != "rport" && k != "received" ==> Lookup(TopVia(r).params, k) == Lookup(TopVia(m).params, k))
      && TopVia(r).host == TopVia(m).host && TopVia(r).port == TopVia(m).port && TopVia(r).protocol == TopVia(m).protocol
      && ViaList(r).value[1..] == ViaList(m).value[1..]
      && (forall k :: k != "via" ==> Header(r, k) == Header(m, k))
  {
  }

  /**
   * The two ends of RFC 3581 together: a request this stack sends over UDP
   * with `rport` enabled reaches a peer running the same code with its
   * `rport` filled in with the port it came from, and `received` with the
   * address, under the Via this end stamped.
   */
  lemma RportRoundTrip(m: Message, o: Options, address: string, port: nat)
    requires HasMethod(m) && HasTopVia(m) && RportOn("UDP", o)
    ensures var sent := Stamp(m, "UDP", o).value;
      HasTopVia(sent)
      && var seen := Annotate(sent, address, port);
      Lookup(TopVia(seen).params, "rport") == Some(Some(NatToString(port)))
      && Lookup(TopVia(seen).params, "received") == Some(Some(address))
      && TopVia(seen).host == LocalHost(o) && TopVia(seen).protocol == "UDP"
  {
    StampedVia(m, "UDP", o);
    var sent := Stamp(m, "UDP", o).value;
    AnnotatedVia(sent, address, port);
  }

  /** With `rport` turned off, a request without one reaches the peer without one. */
  lemma NoRportWhenOff(m: Message, o: Options, address: string, port: nat)
    requires HasMethod(m) && HasTopVia(m) && o.rport == Some(false)
    requires !HasKey(TopVia(m).params, "rport")
    ensures var sent := Stamp(m, "UDP", o).value;
      HasTopVia(sent) && Lookup(TopVia(Annotate(sent, address, port)).params, "rport") == None
  {
    StampedVia(m, "UDP", o);
    var sent := Stamp(m, "UDP", o).value;
    AnnotatedVia(sent, address, port);
  }

  // ---------------------------------------------------------------- new Via entries

  /** `{params: {}}`: a Via entry with nothing but empty parameters. */
  const BlankVia: Via := Via("", "", "", None, [])

  /**
   * `sequentialSearch` first pushes a blank Via entry on top of every request
   * but a CANCEL (which must keep the Via of the request it cancels). `None`
   * where `unshift` throws: a Via header that is set but not a list.
   */
  function PushVia(rq: Message): (r: Option<Message>)
    ensures IsMethod(rq, "CANCEL") ==> r == Some(rq)
    ensures !IsMethod(rq, "CANCEL") ==> (r.Some? <==> !Codec.Truthy(Header(rq, "via")) || ViaList(rq).Some?)
    ensures !IsMethod(rq, "CANCEL") && r.Some? ==>
      HasTopVia(r.value) && TopVia(r.value) == BlankVia
      && ViaList(r.value).value[1..] == ViaList(rq).GetOr([])
      && (forall k :: k != "via" ==> Header(r.value, k) == Header(rq, k))
      && r.value.Request? == rq.Request? && (rq.Request? ==> r.value.methodName == rq.methodName)
  {
    if IsMethod(rq, "CANCEL") then Some(rq)
    else if ViaList(rq).Some? then
      var r := SetHeader(rq, "via", List([ViaItem(BlankVia)] + ViaList(rq).value));
      assert ViaList(r).value[1..] == ViaList(rq).value;
      Some(r)
    else if !Codec.Truthy(Header(rq, "via")) then
      var r := SetHeader(rq, "via", List([ViaItem(BlankVia)]));
      assert ViaList(r).value[1..] == [];
      Some(r)
    else None
  }

  /** A blank Via entry that is never stamped is left out of the message text. */
  lemma BlankViaIsNotWritten()
    ensures MessageText.ViaLine(BlankVia) == ""
  {
  }

  /**
   * `send` gives an ACK, which has no transaction, a Via list if it has none
   * and a Via entry carrying `branch` if the list is empty; an ACK with Via
   * entries keeps them.
   */
  function AckVia(m: Message, branch: string): (r: Message)
    ensures ViaList(r).Some? && |ViaList(r).value| > 0
    ensures ViaList(m).Some? && |ViaList(m).value| > 0 ==> r == m
    ensures !(ViaList(m).Some? && |ViaList(m).value| > 0) ==>
      HasTopVia(r) && TopVia(r) == BlankVia.(params := [("branch", Some(branch))]) && |ViaList(r).value| == 1
      && Codec.TopBranch(r) == Some(branch)
    ensures forall k :: k != "via" ==> Header(r, k) == Header(m, k)
    ensures r.Request? == m.Request? && (m.Request? ==> r.methodName == m.methodName && r.uri == m.uri)
  {
    if ViaList(m).Some? && |ViaList(m).value| > 0 then m
    else SetHeader(m, "via", List([ViaItem(BlankVia.(params := [("branch", Some(branch))]))]))
  }

  /**
   * Where `send` puts an ACK once the next hop has resolved: to the first
   * address only, with its Via from `AckVia`; with no address it is dropped
   * (the error is only logged).
   */
  function AckOut(m: Message, addresses: seq<Resolution.Target>, branch: string): (r: Option<(Resolution.Target, Message)>)
    ensures r.None? <==> addresses == []
    ensures r.Some? ==> r.value == (addresses[0], AckVia(m, branch))
  {
    if addresses == [] then None else Some((addresses[0], AckVia(m, branch)))
  }

  /** The ACK that leaves on the first address's connection carries a complete top Via. */
  lemma AckLeavesStamped(m: Message, addresses: seq<Resolution.Target>, branch: string, protocol: string, o: Options)
    requires IsMethod(m, "ACK") && addresses != []
    requires !(ViaList(m).Some? && |ViaList(m).value| > 0) || HasTopVia(m)
    ensures var a := AckOut(m, addresses, branch).value.1;
      Stamp(a, protocol, o).Some?
      && HasTopVia(Stamp(a, protocol, o).value)
      && TopVia(Stamp(a, protocol, o).value).host == LocalHost(o)
      && TopVia(Stamp(a, protocol, o).value).protocol == protocol
  {
    var a := AckVia(m, branch);
    StampedVia(a, protocol, o);
  }

  // ---------------------------------------------------------------- route handling in send

  /** `m.headers.route`, when the application left it as text, parsed; text that does not parse is dropped. */
  function ParsedRoute(m: Message): (r: Message)
    ensures forall k :: k != "route" ==> Header(r, k) == Header(m, k)
    ensures r.Request? == m.Request? && (m.Request? ==> r.methodName == m.methodName && r.uri == m.uri)
    ensures !Header(m, "route").Some? || !Header(m, "route").value.Text? ==> r == m
  {
    match Header(m, "route")
    case Some(Text(s)) =>
      var parsed := HeaderParsers.ItemsFrom(HeaderParsers.ItemParser(HeaderParsers.AorUriItems), s);
      SetHeader(m, "route", if parsed.1 then Undefined else List(parsed.0))
    case _ => m
  }

  /** The request as `send` leaves it, and the URI it resolves next. */
  datatype Hop = Hop(rq: Message, next: Uri)

  /** A URI naming this end: its host and an explicit port equal to the local ones. */
  predicate IsLocal(u: Uri, host: string, port: nat) {
    u.host == host && u.port == Some(port)
  }

  /** The Route list of a message, when it has a non-empty one. */
  function Routes(m: Message): (r: seq<Item>)
    ensures r != [] ==> Header(m, "route").Some? && Header(m, "route").value.List?
  {
    match Header(m, "route")
    case Some(List(items)) => items
    case _ => []
  }

  /**
   * Route handling in `send` for a request. With a Route set, the next hop
   * is its first URI: a route naming this end is popped; a strict router (no
   * `lr` parameter) is popped and becomes the Request-URI, the old
   * Request-URI going to the end of the Route set; a loose router is left in
   * place. Without one the Request-URI is the next hop. `None` where the
   * source throws: a next hop that is not a SIP URI.
   */
  function NextHop(m: Message, host: string, port: nat): (r: Option<Hop>)
    requires m.Request?
    ensures r.Some? ==> r.value.rq.Request? && r.value.rq.methodName == m.methodName
  {
    var p := ParsedRoute(m);
    var items := Routes(p);
    if items == [] then
      match UriOf(p.uri)
      case None => None
      case Some(u) => Some(Hop(p, u))
    else if !items[0].AorItem? then None
    else
      match UriOf(items[0].aor.uri)
      case None => None
      case Some(hop) =>
        if IsLocal(hop, host, port) then Some(Hop(SetHeader(p, "route", List(items[1..])), hop))
        else if Lookup(hop.params, "lr").None? then
          var rotated := SetHeader(p, "route", List(items[1..] + [AorItem(Aor(None, p.uri, []))]));
          Some(Hop(rotated.(uri := UriObject(hop)), hop))
        else Some(Hop(p, hop))
  }

  /** With no Route set, the next hop is the Request-URI and the request is sent as it is. */
  lemma NoRouteUsesRequestUri(m: Message, host: string, port: nat)
    requires m.Request? && Routes(ParsedRoute(m)) == []
    ensures NextHop(m, host, port).Some? <==> UriOf(m.uri).Some?
    ensures NextHop(m, host, port).Some? ==> NextHop(m, host, port).value == Hop(ParsedRoute(m), UriOf(m.uri).value)
  {
  }

  /**
   * A strict router first in the Route set (section 16.12.1.1 of RFC 3261's
   * strict-routing rules): it becomes the Request-URI and the next hop, and
   * the old Request-URI becomes the last route, so the Route set keeps its
   * length.
   */
  lemma StrictRouteRotates(m: Message, host: string, port: nat)
    requires m.Request? && Routes(ParsedRoute(m)) != []
    requires Routes(ParsedRoute(m))[0].AorItem?
    requires UriOf(Routes(ParsedRoute(m))[0].aor.uri).Some?
    requires var hop := UriOf(Routes(ParsedRoute(m))[0].aor.uri).value;
      !IsLocal(hop, host, port) && Lookup(hop.params, "lr").None?
    ensures var items := Routes(ParsedRoute(m));
      var hop := UriOf(items[0].aor.uri).value;
      var r := NextHop(m, host, port);
      r.Some? && r.value.next == hop && r.value.rq.uri == UriObject(hop)
      && Routes(r.value.rq) == items[1..] + [AorItem(Aor(None, m.uri, []))]
      && |Routes(r.value.rq)| == |items|
      && (forall k :: k != "route" ==> Header(r.value.rq, k) == Header(m, k))
  {
    var p := ParsedRoute(m);
    var items := Routes(p);
    var hop := UriOf(items[0].aor.uri).value;
    var rotated := SetHeader(p, "route", List(items[1..] + [AorItem(Aor(None, p.uri, []))]));
    assert Header(rotated.(uri := UriObject(hop)), "route") == Header(rotated, "route");
    assert forall k :: Header(rotated.(uri := UriObject(hop)), k) == Header(rotated, k);
  }

  /** A loose router first in the Route set is the next hop; the request leaves unchanged. */
  lemma LooseRouteKeepsRequest(m: Message, host: string, port: nat)
    requires m.Request? && Routes(ParsedRoute(m)) != []
    requires Routes(ParsedRoute(m))[0].AorItem?
    requires UriOf(Routes(ParsedRoute(m))[0].aor.uri).Some?
    requires var hop := UriOf(Routes(ParsedRoute(m))[0].aor.uri).value;
      !IsLocal(hop, host, port) && Lookup(hop.params, "lr").Some?
    ensures NextHop(m, host, port) == Some(Hop(ParsedRoute(m), UriOf(Routes(ParsedRoute(m))[0].aor.uri).value))
    ensures NextHop(m, host, port).value.rq.uri == m.uri
  {
  }

  /**
   * A first route naming this end with an explicit port is popped and is
   * still the next hop (its user part carries the flow to send on); the
   * Request-URI stays.
   */
  lemma LocalRouteIsPopped(m: Message, host: string, port: nat)
    requires m.Request? && Routes(ParsedRoute(m)) != []
    requires Routes(ParsedRoute(m))[0].AorItem?
    requires UriOf(Routes(ParsedRoute(m))[0].aor.uri).Some?
    requires IsLocal(UriOf(Routes(ParsedRoute(m))[0].aor.uri).value, host, port)
    ensures var r := NextHop(m, host, port);
      r.Some? && Routes(r.value.rq) == Routes(ParsedRoute(m))[1..] && r.value.rq.uri == m.uri
      && r.value.next == UriOf(Routes(ParsedRoute(m))[0].aor.uri).value
  {
    var p := ParsedRoute(m);
    var rest := Routes(p)[1..];
    assert Header(SetHeader(p, "route", List(rest)), "route") == Some(List(rest));
  }

  /**
   * A route naming this end without a port is not recognised as local: the
   * port comparison needs an explicit port, so it is not popped.
   */
  lemma LocalRouteNeedsPort(m: Message, host: string, port: nat)
    requires m.Request? && Routes(ParsedRoute(m)) != []
    requires Routes(ParsedRoute(m))[0].AorItem?
    requires UriOf(Routes(ParsedRoute(m))[0].aor.uri).Some?
    requires var hop := UriOf(Routes(ParsedRoute(m))[0].aor.uri).value;
      hop.host == host && hop.port.None? && Lookup(hop.params, "lr").Some?
    ensures var r := NextHop(m, host, port);
      r.Some? && Routes(r.value.rq) == Routes(ParsedRoute(m))
  {
  }

  /** Route text that does not parse is dropped, and the Request-URI is the next hop. */
  lemma BadRouteTextIsDropped(m: Message, host: string, port: nat, s: string)
    requires m.Request? && Header(m, "route") == Some(Text(s))
    requires HeaderParsers.ItemsFrom(HeaderParsers.ItemParser(HeaderParsers.AorUriItems), s).1
    ensures Header(ParsedRoute(m), "route") == Some(Undefined)
    ensures NextHop(m, host, port).Some? ==> NextHop(m, host, port).value.next == UriOf(m.uri).value
  {
  }
}
