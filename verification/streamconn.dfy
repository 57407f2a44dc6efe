/**
 * The connection bookkeeping of the stream transports (`makeStreamTransport`,
 * used for TCP and TLS), with the sockets themselves reduced to the events
 * they raise. Every stream `init` has seen is known by its serial number.
 * `remotes` maps `remote address,port` to the stream that serves it and
 * `flows` maps `remote address,port,local address,port` to the stream
 * `remotes` held for that remote when the flow was registered. Each open
 * or get of a connection takes a reference, each release gives one back,
 * and the stream is told when no reference is left.
 */
module StreamConnections {
  import opened Wrappers
  import Js
  import Grammar

  /** An address and a port, as `remote` and `local` carry them. */
  datatype Endpoint = Endpoint(address: string, port: nat)

  /** `[remote.address, remote.port].join()`. */
  function RemoteId(e: Endpoint): (r: string)
    ensures |r| > |e.address| && r[..|e.address|] == e.address && r[|e.address|] == ','
  {
    e.address + "," + Js.NatToString(e.port)
  }

  /** `[remoteid, stream.localAddress, stream.localPort].join()`, also the key `get` builds from a flow. */
  function FlowId(remote: Endpoint, local: Endpoint): (r: string)
    ensures |r| > |RemoteId(remote)| && r[..|RemoteId(remote)|] == RemoteId(remote)
  {
    RemoteId(remote) + "," + RemoteId(local)
  }

  /** What a stream has done besides carrying messages. */
  datatype Event =
    | NoReference(stream: nat)   // `stream.emit('no_reference')` on the last release
    | Destroyed(stream: nat)     // `stream.destroy()` on an idle timeout
    | PeerGone(stream: nat)      // the 'error' raised when the peer ends a stream still referenced
    | Ended(stream: nat)         // `stream.end()` in answer to the peer's end

  /** The per-stream variables of `init`: the remote, `flowid` once registered, `refs`. */
  datatype Stream = Stream(remote: Endpoint, flow: Option<string>, refs: int)

  // ---------------------------------------------------------------- properties of the keys

  /** A number's decimal text holds no comma. */
  lemma NoCommaInNumber(n: nat)
    ensures ',' !in Js.NatToString(n)
  {
    var s := Js.NatToString(n);
    forall k | 0 <= k < |s|
      ensures s[k] != ','
    {
      assert Js.DigitAt(s, k);
    }
  }

  /** The index of the first comma in a remote id is the length of its address. */
  lemma FirstComma(e: Endpoint)
    requires ',' !in e.address
    ensures Grammar.IndexOf(RemoteId(e), ',') == |e.address|
  {
    var r := RemoteId(e);
    assert r[|e.address|] == ',';
    forall k | 0 <= k < |e.address|
      ensures r[k] != ','
    {
      assert r[k] == e.address[k];
    }
  }

  /**
   * Two endpoints whose addresses hold no comma (IPv4 and IPv6 addresses
   * hold none) have the same remote id only when they are the same
   * endpoint: `remotes` never lets two remotes share a stream.
   */
  lemma RemoteIdInjective(a: Endpoint, b: Endpoint)
    requires ',' !in a.address && ',' !in b.address
    requires RemoteId(a) == RemoteId(b)
    ensures a == b
  {
    FirstComma(a);
    FirstComma(b);
    var r := RemoteId(a);
    assert a.address == r[..|a.address|] == b.address;
    assert Js.NatToString(a.port) == r[|a.address| + 1..] == Js.NatToString(b.port);
    Js.DigitsOfNatToString(a.port);
    Js.DigitsOfNatToString(b.port);
  }

  // ---------------------------------------------------------------- the registry

  /** The closure state of one `makeStreamTransport` call. */
  class StreamTransport {
    var streams: seq<Stream>
    var remotes: map<string, nat>
    var flows: map<string, nat>
    var events: seq<Event>

    /** Every key leads to a stream `init` has seen, and `remotes` files each stream under its own remote. */
    predicate Valid()
      reads this
    {
      (forall k :: k in remotes ==> remotes[k] < |streams| && RemoteId(streams[remotes[k]].remote) == k)
      && (forall f :: f in flows ==> flows[f] < |streams|)
    }

    constructor()
      ensures streams == [] && remotes == map[] && flows == map[] && events == [] && Valid()
    {
      streams, remotes, flows, events := [], map[], map[], [];
    }

    /**
     * `init(stream, remote)`: a new stream with no reference, filed under its
     * remote id; a stream that already has a local port (one a server
     * accepted) registers its flow at once.
     */
    method Init(remote: Endpoint, local: Option<Endpoint>) returns (i: nat)
      requires Valid()
      modifies this
      ensures i == old(|streams|) && |streams| == i + 1 && streams[..i] == old(streams)
      ensures remotes == old(remotes)[RemoteId(remote) := i]
      ensures local.Some? && local.value.port != 0 ==>
        streams[i] == Stream(remote, Some(FlowId(remote, local.value)), 0)
        && flows == old(flows)[FlowId(remote, local.value) := i]
      ensures !(local.Some? && local.value.port != 0) ==>
        streams[i] == Stream(remote, None, 0) && flows == old(flows)
      ensures events == old(events) && Valid()
    {
      i := |streams|;
      streams := streams + [Stream(remote, None, 0)];
      remotes := remotes[RemoteId(remote) := i];
      if local.Some? && local.value.port != 0 {
        RegisterFlow(i, local.value);
      }
    }

    /**
     * `register_flow`, run by the stream's 'connect' event: the stream
     * records its flow id, and `flows` gets what `remotes` now holds for the
     * stream's remote (nothing, when that entry is gone).
     */
    method RegisterFlow(i: nat, local: Endpoint)
      requires Valid() && i < |streams|
      modifies this
      ensures var id := RemoteId(old(streams)[i].remote);
        var f := FlowId(old(streams)[i].remote, local);
        streams == old(streams)[i := old(streams)[i].(flow := Some(f))]
        && (id in remotes ==> flows == old(flows)[f := remotes[id]])
        && (id !in remotes ==> flows == old(flows) - {f})
      ensures remotes == old(remotes) && events == old(events) && Valid()
    {
      var id := RemoteId(streams[i].remote);
      var f := FlowId(streams[i].remote, local);
      streams := streams[i := streams[i].(flow := Some(f))];
      if id in remotes {
        flows := flows[f := remotes[id]];
      } else {
        flows := flows - {f};
      }
    }

    /**
     * The stream's 'close' event: its flow, when registered, and the entry
     * of its remote id leave the tables, even when that entry has since
     * been taken by another stream.
     */
    method Closed(i: nat)
      requires Valid() && i < |streams|
      modifies this
      ensures old(streams)[i].flow.Some? ==> flows == old(flows) - {old(streams)[i].flow.value}
      ensures old(streams)[i].flow.None? ==> flows == old(flows)
      ensures remotes == old(remotes) - {RemoteId(old(streams)[i].remote)}
      ensures streams == old(streams) && events == old(events) && Valid()
    {
      if streams[i].flow.Some? {
        flows := flows - {streams[i].flow.value};
      }
      remotes := remotes - {RemoteId(streams[i].remote)};
    }

    /**
     * `open(remote, error)`: the stream filed under the remote's id, or a
     * new outgoing stream (which has no local port until it connects), with
     * one more reference.
     */
    method Open(remote: Endpoint) returns (i: nat)
      requires Valid()
      modifies this
      ensures RemoteId(remote) in old(remotes) ==>
        i == old(remotes)[RemoteId(remote)] && |streams| == |old(streams)|
        && remotes == old(remotes) && flows == old(flows)
      ensures RemoteId(remote) !in old(remotes) ==>
        i == |old(streams)| && |streams| == i + 1
        && remotes == old(remotes)[RemoteId(remote) := i] && flows == old(flows)
      ensures i < |streams| && RemoteId(streams[i].remote) == RemoteId(remote)
      ensures i < |old(streams)| ==> streams == old(streams)[i := old(streams)[i].(refs := old(streams)[i].refs + 1)]
      ensures i == |old(streams)| ==> streams == old(streams) + [Stream(remote, None, 1)]
      ensures events == old(events) && Valid()
    {
      var id := RemoteId(remote);
      if id in remotes {
        i := remotes[id];
      } else {
        i := Init(remote, None);
      }
      streams := streams[i := streams[i].(refs := streams[i].refs + 1)];
    }

    /**
     * `get(address, error)`: the stream of the flow when the address has a
     * local end, of the remote otherwise, with one more reference; nothing
     * when the table has no entry.
     */
    method Get(remote: Endpoint, local: Option<Endpoint>) returns (r: Option<nat>)
      requires Valid()
      modifies this
      ensures var key := if local.Some? then FlowId(remote, local.value) else RemoteId(remote);
        var table := if local.Some? then old(flows) else old(remotes);
        (r.Some? <==> key in table) && (r.Some? ==> r.value == table[key])
      ensures r.Some? ==> r.value < |streams| && streams == old(streams)[r.value := old(streams)[r.value].(refs := old(streams)[r.value].refs + 1)]
      ensures r.None? ==> streams == old(streams)
      ensures remotes == old(remotes) && flows == old(flows) && events == old(events) && Valid()
    {
      var table := if local.Some? then flows else remotes;
      var key := if local.Some? then FlowId(remote, local.value) else RemoteId(remote);
      if key in table {
        var i := table[key];
        streams := streams[i := streams[i].(refs := streams[i].refs + 1)];
        r := Some(i);
      } else {
        r := None;
      }
    }

    /** `release()`: one reference less; the release that leaves none tells the stream so. */
    method Release(i: nat)
      requires Valid() && i < |streams|
      modifies this
      ensures streams == old(streams)[i := old(streams)[i].(refs := old(streams)[i].refs - 1)]
      ensures events == old(events) + (if old(streams)[i].refs == 1 then [NoReference(i)] else [])
      ensures remotes == old(remotes) && flows == old(flows) && Valid()
    {
      streams := streams[i := streams[i].(refs := streams[i].refs - 1)];
      if streams[i].refs == 0 {
        events := events + [NoReference(i)];
      }
    }

    /** The stream's 'timeout' event: only a stream nobody references is destroyed. */
    method IdleTimeout(i: nat)
      requires Valid() && i < |streams|
      modifies this
      ensures events == old(events) + (if old(streams)[i].refs == 0 then [Destroyed(i)] else [])
      ensures streams == old(streams) && remotes == old(remotes) && flows == old(flows)
    {
      if streams[i].refs == 0 {
        events := events + [Destroyed(i)];
      }
    }

    /** The stream's 'end' event: an error for whoever still holds it, then the stream ends too. */
    method PeerEnded(i: nat)
      requires Valid() && i < |streams|
      modifies this
      ensures events == old(events) + (if old(streams)[i].refs != 0 then [PeerGone(i)] else []) + [Ended(i)]
      ensures streams == old(streams) && remotes == old(remotes) && flows == old(flows)
    {
      if streams[i].refs != 0 {
        events := events + [PeerGone(i)];
      }
      events := events + [Ended(i)];
    }
  }

  /**
   * Two opens of one remote share a stream, and only the second of the two
   * releases that follow tells the stream that no reference is left.
   */
  method OpenTwiceReleaseTwice(remote: Endpoint) returns (t: StreamTransport, i: nat)
    ensures t.Valid() && |t.streams| == 1 && i == 0 && t.streams[0].refs == 0
    ensures t.events == [NoReference(0)]
  {
    t := new StreamTransport();
    i := t.Open(remote);
    var j := t.Open(remote);
    assert j == i == 0;
    t.Release(i);
    assert t.events == [];
    t.Release(j);
  }
}
