/**
 * The outgoing side of the WebSocket transport (`makeClient` and `open` in
 * `makeWsTransport`): one client socket per `ws://host:port` URI, shared by a
 * reference count. A text sent before the socket has opened waits in a
 * queue; when the socket opens the queue is emptied onto it in the order the
 * texts were sent, and later texts go straight to the socket. The last
 * release terminates the socket; its entry in the client table stays.
 *
 * A text is the `stringify` of a message (module MessageText); the socket is
 * represented by the list of texts handed to its `send`.
 */
module WebSocketClients {
  import Js

  /**
   * One client socket: whether its `open` event has fired (`send` is then
   * `send_open`), the `queue`, the texts handed to `socket.send` so far,
   * `refs`, and whether `terminate` was called.
   */
  datatype Client = Client(open: bool, queue: seq<string>, wire: seq<string>, refs: int, terminated: bool)

  /** A socket just created: connecting, nothing queued or sent, no reference. */
  const Fresh := Client(false, [], [], 0, false)

  /** Once the socket is open nothing waits in the queue. */
  predicate Flushed(c: Client) {
    c.open ==> c.queue == []
  }

  /** Everything sent on the socket so far, in order: what went out and what still waits. */
  function Sent(c: Client): seq<string> {
    c.wire + c.queue
  }

  /** `'ws://' + target.host + ':' + target.port`, the key of the client table. */
  function ClientUri(host: string, port: nat): (r: string)
    ensures |r| > |host| + 6 && r[..5] == "ws://" && r[5..5 + |host|] == host
  {
    "ws://" + host + ":" + Js.NatToString(port)
  }

  /** `send(m)` on a connection: `send_open` writes to the socket, `send_connecting` queues. */
  function Send(c: Client, text: string): (r: Client)
    ensures r.open == c.open && r.refs == c.refs && r.terminated == c.terminated
  {
    if c.open then c.(wire := c.wire + [text]) else c.(queue := c.queue + [text])
  }

  /** `open(onError)`: one more reference. */
  function Acquire(c: Client): (r: Client)
    ensures r.refs == c.refs + 1 && Sent(r) == Sent(c) && r.open == c.open && r.terminated == c.terminated
  {
    c.(refs := c.refs + 1)
  }

  /** `release()`: one reference less; the one that brings the count to zero terminates the socket. */
  function Release(c: Client): (r: Client)
    ensures r.refs == c.refs - 1 && Sent(r) == Sent(c) && r.open == c.open
    ensures r.terminated <==> c.terminated || c.refs == 1
  {
    c.(refs := c.refs - 1, terminated := c.terminated || c.refs - 1 == 0)
  }

  /** The socket's `open` event: `send` becomes `send_open` and the spliced queue is sent in order. */
  function Opened(c: Client): (r: Client)
    ensures r.open && r.refs == c.refs && r.terminated == c.terminated
  {
    c.(open := true, queue := [], wire := c.wire + c.queue)
  }

  /** `texts.forEach(send)`. */
  function SendAll(c: Client, texts: seq<string>): (r: Client)
    ensures r.open == c.open && r.refs == c.refs && r.terminated == c.terminated
    ensures c.open ==> r.wire == c.wire + texts && r.queue == c.queue
    ensures !c.open ==> r.queue == c.queue + texts && r.wire == c.wire
    decreases |texts|
  {
    if texts == [] then c
    else
      assert texts == [texts[0]] + texts[1..];
      SendAll(Send(c, texts[0]), texts[1..])
  }

  // ---------------------------------------------------------------- properties

  /** A send appends its text to what was sent, whether it is written or queued. */
  lemma SendKeepsOrder(c: Client, text: string)
    requires Flushed(c)
    ensures Flushed(Send(c, text)) && Sent(Send(c, text)) == Sent(c) + [text]
  {
  }

  /** Opening writes the whole queue, so what went out is everything sent, in order. */
  lemma OpenedFlushes(c: Client)
    ensures Flushed(Opened(c)) && Opened(c).wire == Sent(c) && Sent(Opened(c)) == Sent(c)
  {
  }

  /** Sending a list of texts appends it, in order, to what was sent. */
  lemma {:induction false} SendAllAppends(c: Client, texts: seq<string>)
    requires Flushed(c)
    ensures Flushed(SendAll(c, texts)) && Sent(SendAll(c, texts)) == Sent(c) + texts
    ensures SendAll(c, texts).open == c.open && SendAll(c, texts).refs == c.refs
    decreases |texts|
  {
    if texts != [] {
      SendKeepsOrder(c, texts[0]);
      SendAllAppends(Send(c, texts[0]), texts[1..]);
      assert Sent(c) + texts == (Sent(c) + [texts[0]]) + texts[1..];
    }
  }

  /**
   * When the socket opens makes no difference to what reaches it: texts
   * sent before the open and texts sent after it reach the socket in the
   * order they were sent.
   */
  lemma OpenTimeInvisible(before: seq<string>, after: seq<string>)
    ensures SendAll(Opened(SendAll(Fresh, before)), after).wire == before + after
  {
    var b := SendAll(Fresh, before);
    SendAllAppends(Fresh, before);
    assert Sent(b) == before;
    var c := Opened(b);
    OpenedFlushes(b);
    assert c.open && Flushed(c) && Sent(c) == before;
    var d := SendAll(c, after);
    SendAllAppends(c, after);
    assert d.open && Flushed(d) && Sent(d) == before + after;
  }

  // ---------------------------------------------------------------- the client table

  /**
   * `makeClient(uri)(onError)` as written: for a URI already in the table,
   * `clients[uri]()` opens a connection (taking a reference) and returns it,
   * and calling that connection object as a function throws. The result is
   * the new table and whether the call threw.
   */
  function OpenAsWritten(clients: map<string, Client>, uri: string): (r: (map<string, Client>, bool))
    ensures r.1 <==> uri in clients
    ensures uri in r.0 && r.0[uri].refs == (if uri in clients then clients[uri].refs else 0) + 1
  {
    if uri in clients then (clients[uri := Acquire(clients[uri])], true)
    else (clients[uri := Acquire(Fresh)], false)
  }

  /**
   * The second open of a URI throws, and the reference it took is never
   * given back: after the first connection's release the socket still
   * counts one reference and is not terminated.
   */
  lemma SecondOpenThrows(clients: map<string, Client>, uri: string)
    requires uri !in clients
    ensures var first := OpenAsWritten(clients, uri);
      var second := OpenAsWritten(first.0, uri);
      !first.1 && second.1
      && Release(second.0[uri]).refs == 1 && !Release(second.0[uri]).terminated
  {
  }

  /** `makeClient(uri)(onError)` as intended: the URI's socket, created when missing, with one more reference. */
  function OpenClient(clients: map<string, Client>, uri: string): (r: map<string, Client>)
    ensures uri in r && r.Keys == clients.Keys + {uri}
    ensures uri in clients ==> r[uri] == Acquire(clients[uri])
    ensures uri !in clients ==> r[uri] == Acquire(Fresh)
    ensures forall u :: u in clients && u != uri ==> r[u] == clients[u]
    ensures r == OpenAsWritten(clients, uri).0
  {
    var c := if uri in clients then clients[uri] else Fresh;
    clients[uri := Acquire(c)]
  }

  /** Two connections to a new URI share one socket, and releasing both terminates it. */
  lemma BalancedReleasesTerminate(clients: map<string, Client>, uri: string)
    requires uri !in clients
    ensures var c := OpenClient(OpenClient(clients, uri), uri)[uri];
      c.refs == 2 && Release(c).refs == 1 && !Release(c).terminated
      && Release(Release(c)).refs == 0 && Release(Release(c)).terminated
  {
  }

  /** The closure state of `makeWsTransport` that outgoing connections use: the `clients` table. */
  class WsTransport {
    var clients: map<string, Client>

    predicate Valid()
      reads this
    {
      forall u :: u in clients ==> Flushed(clients[u])
    }

    constructor()
      ensures clients == map[] && Valid()
    {
      clients := map[];
    }

    /** `open(target, onError)` for a target without a local end, as intended. */
    method Open(host: string, port: nat) returns (uri: string)
      requires Valid()
      modifies this
      ensures uri == ClientUri(host, port)
      ensures clients == OpenClient(old(clients), uri) && Valid()
    {
      uri := ClientUri(host, port);
      var c := if uri in clients then clients[uri] else Fresh;
      clients := clients[uri := c.(refs := c.refs + 1)];
    }

    /** `send(m)` on a connection to `uri`, with `text` the `stringify` of `m`. */
    method SendOn(uri: string, text: string)
      requires Valid() && uri in clients
      modifies this
      ensures clients == old(clients)[uri := Send(old(clients)[uri], text)]
      ensures Sent(clients[uri]) == Sent(old(clients)[uri]) + [text] && Valid()
    {
      var c := clients[uri];
      if c.open {
        c := c.(wire := c.wire + [text]);
      } else {
        c := c.(queue := c.queue + [text]);
      }
      clients := clients[uri := c];
    }

    /** The socket's `open` event: switch to `send_open`, then send the spliced queue one text at a time. */
    method SocketOpened(uri: string)
      requires Valid() && uri in clients
      modifies this
      ensures clients == old(clients)[uri := Opened(old(clients)[uri])]
      ensures clients[uri].wire == Sent(old(clients)[uri]) && Valid()
    {
      var c0 := clients[uri];
      var pending := c0.queue;
      var c := c0.(open := true, queue := []);
      var i := 0;
      while i < |pending|
        invariant i <= |pending|
        invariant c == c0.(open := true, queue := [], wire := c0.wire + pending[..i])
      {
        c := c.(wire := c.wire + [pending[i]]);
        i := i + 1;
        assert pending[..i] == pending[..i - 1] + [pending[i - 1]];
      }
      assert pending[..i] == pending;
      clients := clients[uri := c];
    }

    /** `release()` on a connection to `uri`. The table keeps the entry, terminated or not. */
    method ReleaseOn(uri: string)
      requires Valid() && uri in clients
      modifies this
      ensures clients == old(clients)[uri := Release(old(clients)[uri])]
      ensures uri in clients && clients.Keys == old(clients).Keys && Valid()
    {
      var c := clients[uri];
      clients := clients[uri := c.(refs := c.refs - 1, terminated := c.terminated || c.refs - 1 == 0)];
    }
  }
}
