/**
 * The stream framer of `makeStreamParser`: text arrives in pieces on a
 * connection and the framer cuts it into messages. It reads headers up to a
 * blank line, parses them, and then waits for as many body characters as the
 * Content-Length says. The two callbacks, `onMessage` and `onFlood`, are
 * recorded as a log of events.
 */
module StreamFraming {
  import opened Wrappers
  import opened Js
  import opened SipTypes
  import opened MessageParsing

  /** A callback the framer makes: a message delivered, or a flood reported. */
  datatype Event = Delivered(message: Message) | Flood

  /** The state function in use: reading headers, or reading the body of a parsed head of the given length. */
  datatype Mode = ReadingHeaders | ReadingContent(message: Message, length: JsNumber)

  /** The framer's limits; a limit given as 0 (or not given) takes its default. */
  const DefaultMaxBytesHeaders: nat := 60480
  const DefaultMaxContentLength: nat := 604800

  function OrDefault(n: nat, default: nat): (r: nat)
    ensures r != 0 || default == 0
  {
    if n == 0 then default else n
  }

  /** The body length a head asks for: the number stored under Content-Length, if any. */
  function LengthOf(m: Message): (r: Option<JsNumber>)
    ensures r.None? ==> !HasKey(m.headers, "content-length") || !Header(m, "content-length").value.Number?
  {
    match Header(m, "content-length")
    case Some(Number(x)) => Some(x)
    case _ => None
  }

  /**
   * What the framer does with the buffered text `r` in mode `mode`: the mode
   * and buffer it ends in and the callbacks it makes, in order.
   *
   * Reading headers: more than `maxHeaders` characters clear the buffer and
   * flood. Otherwise, once a blank line is buffered, the head is parsed; a head
   * that fails to parse or has no Content-Length is dropped and reading goes
   * on with the rest. A Content-Length above `maxContent` floods and clears the
   * buffer, and the framer still waits for that body.
   *
   * Reading content: once the buffer holds the body, the message is delivered
   * with the first `length` characters as its body and the rest is read as
   * headers again. A NaN length never completes.
   */
  function Drain(mode: Mode, r: string, maxHeaders: nat, maxContent: nat): (res: (Mode, string, seq<Event>))
    ensures |res.1| <= |r|
    decreases 2 * |r| + if mode.ReadingContent? then 1 else 0
  {
    match mode
    case ReadingHeaders =>
      if |r| > maxHeaders then (ReadingHeaders, "", [Flood])
      else
        match FrameMatch(r) {
        case None => (ReadingHeaders, r, [])
        case Some(f) => AfterHead(ParseText(r[f.start..f.end]), r[f.end + 4..], maxHeaders, maxContent)
        }
    case ReadingContent(m, x) =>
      if x.Num? && |r| >= x.value then
        var c := if x.value < 0 then 0 else x.value;
        var d := Drain(ReadingHeaders, r[c..], maxHeaders, maxContent);
        (d.0, d.1, [Delivered(m.(content := r[..c]))] + d.2)
      else (mode, r, [])
  }

  /**
   * What follows a framed head: a head that parsed with a Content-Length is
   * followed by its body (after a flood when the length is too large); any other
   * head is dropped and the rest is read as headers.
   */
  function AfterHead(head: Option<Message>, rest: string, maxHeaders: nat, maxContent: nat): (res: (Mode, string, seq<Event>))
    ensures |res.1| <= |rest|
    decreases 2 * |rest| + 2
  {
    if head.Some? && LengthOf(head.value).Some? then
      var x := LengthOf(head.value).value;
      if x.Num? && x.value > maxContent then
        var d := Drain(ReadingContent(head.value, x), "", maxHeaders, maxContent);
        (d.0, d.1, [Flood] + d.2)
      else Drain(ReadingContent(head.value, x), rest, maxHeaders, maxContent)
    else Drain(ReadingHeaders, rest, maxHeaders, maxContent)
  }

  /** `(mode, r)` drains like `(mode', r')` after the callbacks `e`. */
  predicate StepsTo(mode: Mode, r: string, mode': Mode, r': string, e: seq<Event>, maxHeaders: nat, maxContent: nat) {
    Drain(mode, r, maxHeaders, maxContent).0 == Drain(mode', r', maxHeaders, maxContent).0
    && Drain(mode, r, maxHeaders, maxContent).1 == Drain(mode', r', maxHeaders, maxContent).1
    && Drain(mode, r, maxHeaders, maxContent).2 == e + Drain(mode', r', maxHeaders, maxContent).2
  }

  /** The framer: its state function, its buffer, and the callbacks made so far. */
  class StreamParser {
    var mode: Mode
    var buffer: string
    var events: seq<Event>
    const maxBytesHeaders: nat
    const maxContentLength: nat

    /** `makeStreamParser(onMessage, onFlood, maxBytesHeaders, maxContentLength)`. */
    constructor(maxBytesHeaders: nat, maxContentLength: nat)
      ensures this.maxBytesHeaders == OrDefault(maxBytesHeaders, DefaultMaxBytesHeaders)
      ensures this.maxContentLength == OrDefault(maxContentLength, DefaultMaxContentLength)
      ensures mode == ReadingHeaders && buffer == "" && events == []
    {
      this.maxBytesHeaders := OrDefault(maxBytesHeaders, DefaultMaxBytesHeaders);
      this.maxContentLength := OrDefault(maxContentLength, DefaultMaxContentLength);
      mode := ReadingHeaders;
      buffer := "";
      events := [];
    }

    /** The function the framer returns: `data` is appended and handed to the current state function. */
    method Feed(data: string)
      modifies this
      ensures mode == Drain(old(mode), old(buffer) + data, maxBytesHeaders, maxContentLength).0
      ensures buffer == Drain(old(mode), old(buffer) + data, maxBytesHeaders, maxContentLength).1
      ensures events == old(events) + Drain(old(mode), old(buffer) + data, maxBytesHeaders, maxContentLength).2
    {
      var md := mode;
      var r := buffer + data;
      var out: seq<Event> := [];
      var logged := events;
      ghost var d := Drain(md, r, maxBytesHeaders, maxContentLength);
      ghost var m0, r0, e0 := d.0, d.1, d.2;
      while true
        invariant Drain(md, r, maxBytesHeaders, maxContentLength).0 == m0
        invariant Drain(md, r, maxBytesHeaders, maxContentLength).1 == r0
        invariant e0 == out + Drain(md, r, maxBytesHeaders, maxContentLength).2
        decreases 2 * |r| + if md.ReadingContent? then 1 else 0
      {
        var md', r', e := Step(md, r);
        if md' == md && r' == r && e == [] {
          Stops(md, r, maxBytesHeaders, maxContentLength);
          assert e0 == out;
          break;
        }
        Chain(md, r, md', r', e, out, m0, r0, e0, maxBytesHeaders, maxContentLength);
        md, r, out := md', r', out + e;
      }
      mode, buffer, events := md, r, logged + out;
    }

    /**
     * One call of a state function, without the calls it makes in turn: the
     * next mode and buffer and the callbacks made. It returns its arguments
     * unchanged when the framer has to wait for more text.
     */
    method Step(md: Mode, r: string) returns (md': Mode, r': string, e: seq<Event>)
      ensures StepsTo(md, r, md', r', e, maxBytesHeaders, maxContentLength)
      ensures md' == md && r' == r && e == [] ==> Idle(md, r, maxBytesHeaders, maxContentLength)
      ensures md' != md || r' != r || e != [] ==> 2 * |r'| + (if md'.ReadingContent? then 1 else 0) < 2 * |r| + (if md.ReadingContent? then 1 else 0)
    {
      if md.ReadingHeaders? {
        md', r', e := ReadHeaders(md, r);
      } else {
        md', r', e := ReadContent(md, r);
      }
    }

    /** The state function `headers`. */
    method ReadHeaders(md: Mode, r: string) returns (md': Mode, r': string, e: seq<Event>)
      requires md.ReadingHeaders?
      ensures StepsTo(md, r, md', r', e, maxBytesHeaders, maxContentLength)
      ensures md' == md && r' == r && e == [] ==> Idle(md, r, maxBytesHeaders, maxContentLength)
      ensures md' != md || r' != r || e != [] ==> 2 * |r'| + (if md'.ReadingContent? then 1 else 0) < 2 * |r| + (if md.ReadingContent? then 1 else 0)
    {
      if |r| > maxBytesHeaders {
        FloodStep(r, maxBytesHeaders, maxContentLength);
        return ReadingHeaders, "", [Flood];
      }
      var f := FrameMatch(r);
      if f.None? {
        return md, r, [];
      }
      md', r', e := ReadHead(r, f.value);
    }

    /** The part of `headers` that handles a buffered blank line: the head before it is parsed. */
    method ReadHead(r: string, f: Frame) returns (md': Mode, r': string, e: seq<Event>)
      requires |r| <= maxBytesHeaders && FrameMatch(r) == Some(f)
      ensures StepsTo(ReadingHeaders, r, md', r', e, maxBytesHeaders, maxContentLength)
      ensures |r'| < |r|
    {
      var rest := r[f.end + 4..];
      var head := Parse(r[f.start..f.end]);
      HeadStep(r, f, maxBytesHeaders, maxContentLength);
      if head.Some? && LengthOf(head.value).Some? {
        var x := LengthOf(head.value).value;
        if x.Num? && x.value > maxContentLength {
          return ReadingContent(head.value, x), "", [Flood];
        }
        return ReadingContent(head.value, x), rest, [];
      }
      return ReadingHeaders, rest, [];
    }

    /** The state function `content`. */
    method ReadContent(md: Mode, r: string) returns (md': Mode, r': string, e: seq<Event>)
      requires md.ReadingContent?
      ensures StepsTo(md, r, md', r', e, maxBytesHeaders, maxContentLength)
      ensures md' == md && r' == r && e == [] ==> Idle(md, r, maxBytesHeaders, maxContentLength)
      ensures md' != md || r' != r || e != [] ==> 2 * |r'| + (if md'.ReadingContent? then 1 else 0) < 2 * |r| + (if md.ReadingContent? then 1 else 0)
    {
      var x := md.length;
      if x.Num? && |r| >= x.value {
        var c := if x.value < 0 then 0 else x.value;
        ContentStep(md.message, x, r, maxBytesHeaders, maxContentLength);
        return ReadingHeaders, r[c..], [Delivered(md.message.(content := r[..c]))];
      }
      return md, r, [];
    }
  }

  /** The framer waits: draining changes nothing and calls nothing. */
  predicate Idle(mode: Mode, r: string, maxHeaders: nat, maxContent: nat) {
    match mode
    case ReadingHeaders => |r| <= maxHeaders && FrameMatch(r).None?
    case ReadingContent(_, x) => !(x.Num? && |r| >= x.value)
  }

  lemma Stops(mode: Mode, r: string, maxHeaders: nat, maxContent: nat)
    requires Idle(mode, r, maxHeaders, maxContent)
    ensures Drain(mode, r, maxHeaders, maxContent).0 == mode
    ensures Drain(mode, r, maxHeaders, maxContent).1 == r
    ensures Drain(mode, r, maxHeaders, maxContent).2 == []
  {
  }

  /** Folding one step into the loop invariant of `Feed`. */
  lemma Chain(md: Mode, r: string, md': Mode, r': string, e: seq<Event>, out: seq<Event>,
              m0: Mode, r0: string, e0: seq<Event>, maxHeaders: nat, maxContent: nat)
    requires StepsTo(md, r, md', r', e, maxHeaders, maxContent)
    requires Drain(md, r, maxHeaders, maxContent).0 == m0 && Drain(md, r, maxHeaders, maxContent).1 == r0
    requires e0 == out + Drain(md, r, maxHeaders, maxContent).2
    ensures Drain(md', r', maxHeaders, maxContent).0 == m0 && Drain(md', r', maxHeaders, maxContent).1 == r0
    ensures e0 == (out + e) + Drain(md', r', maxHeaders, maxContent).2
  {
  }

  /** Too much header text: the buffer is cleared and a flood reported. */
  lemma FloodStep(r: string, maxHeaders: nat, maxContent: nat)
    requires |r| > maxHeaders
    ensures StepsTo(ReadingHeaders, r, ReadingHeaders, "", [Flood], maxHeaders, maxContent)
  {
    assert Drain(ReadingHeaders, "", maxHeaders, maxContent).2 == [];
  }

  /** A framed head is handed on as a parsed message, together with the text after the blank line. */
  lemma FramedHead(r: string, f: Frame, maxHeaders: nat, maxContent: nat)
    requires |r| <= maxHeaders && FrameMatch(r) == Some(f)
    ensures Drain(ReadingHeaders, r, maxHeaders, maxContent) == AfterHead(ParseText(r[f.start..f.end]), r[f.end + 4..], maxHeaders, maxContent)
  {
  }

  /** One framed head, as a step of the framer: followed by its body (after a flood when too long), or dropped. */
  lemma HeadStep(r: string, f: Frame, maxHeaders: nat, maxContent: nat)
    requires |r| <= maxHeaders && FrameMatch(r) == Some(f)
    ensures var head := ParseText(r[f.start..f.end]);
      var rest := r[f.end + 4..];
      if head.Some? && LengthOf(head.value).Some? then
        var x := LengthOf(head.value).value;
        if x.Num? && x.value > maxContent then StepsTo(ReadingHeaders, r, ReadingContent(head.value, x), "", [Flood], maxHeaders, maxContent)
        else StepsTo(ReadingHeaders, r, ReadingContent(head.value, x), rest, [], maxHeaders, maxContent)
      else StepsTo(ReadingHeaders, r, ReadingHeaders, rest, [], maxHeaders, maxContent)
  {
    FramedHead(r, f, maxHeaders, maxContent);
    var head := ParseText(r[f.start..f.end]);
    var rest := r[f.end + 4..];
    if head.Some? && LengthOf(head.value).Some? {
      var x := LengthOf(head.value).value;
      var d := Drain(ReadingContent(head.value, x), rest, maxHeaders, maxContent);
      assert d.2 == [] + d.2;
    } else {
      var d := Drain(ReadingHeaders, rest, maxHeaders, maxContent);
      assert d.2 == [] + d.2;
    }
  }

  /** A complete body: the message is delivered and the rest read as headers. */
  lemma ContentStep(m: Message, x: JsNumber, r: string, maxHeaders: nat, maxContent: nat)
    requires x.Num? && |r| >= x.value
    ensures var c := if x.value < 0 then 0 else x.value;
      StepsTo(ReadingContent(m, x), r, ReadingHeaders, r[c..], [Delivered(m.(content := r[..c]))], maxHeaders, maxContent)
  {
  }

  // ---------------------------------------------------------------- properties

  /** The body length a length asks for: a negative length cuts nothing. */
  function Cut(n: int): (c: nat)
    ensures c == if n < 0 then 0 else n
  {
    if n < 0 then 0 else n
  }

  /** The state the framer keeps is one it can be in: a body is awaited for a head with that length. */
  predicate Consistent(mode: Mode) {
    mode.ReadingContent? ==> LengthOf(mode.message) == Some(mode.length)
  }

  /** A delivered message carries exactly as many body characters as its Content-Length asks for. */
  predicate WellDelivered(e: Event) {
    e.Delivered? ==>
      LengthOf(e.message).Some? && LengthOf(e.message).value.Num?
      && |e.message.content| == Cut(LengthOf(e.message).value.value)
  }

  /**
   * Every message the framer delivers has a body of exactly its Content-Length
   * (none for a negative one), and the framer stays in a consistent state.
   */
  lemma {:induction false} DeliveriesMatchLength(mode: Mode, r: string, maxHeaders: nat, maxContent: nat)
    requires Consistent(mode)
    ensures Consistent(Drain(mode, r, maxHeaders, maxContent).0)
    ensures forall i :: 0 <= i < |Drain(mode, r, maxHeaders, maxContent).2| ==> WellDelivered(Drain(mode, r, maxHeaders, maxContent).2[i])
    decreases 2 * |r| + (if mode.ReadingContent? then 1 else 0), 1
  {
    match mode
    case ReadingHeaders =>
      if |r| <= maxHeaders && FrameMatch(r).Some? {
        var f := FrameMatch(r).value;
        AfterHeadDeliveriesMatchLength(ParseText(r[f.start..f.end]), r[f.end + 4..], maxHeaders, maxContent);
      }
    case ReadingContent(m, x) =>
      if x.Num? && |r| >= x.value {
        ContentDeliveriesMatchLength(m, x, r, maxHeaders, maxContent);
      }
  }

  /** A complete body in front of the rest: its message, then what the rest delivers. */
  lemma {:induction false} ContentDeliveriesMatchLength(m: Message, x: JsNumber, r: string, maxHeaders: nat, maxContent: nat)
    requires LengthOf(m) == Some(x) && x.Num? && |r| >= x.value
    ensures Consistent(Drain(ReadingContent(m, x), r, maxHeaders, maxContent).0)
    ensures forall i :: 0 <= i < |Drain(ReadingContent(m, x), r, maxHeaders, maxContent).2| ==>
      WellDelivered(Drain(ReadingContent(m, x), r, maxHeaders, maxContent).2[i])
    decreases 2 * |r| + 1, 0
  {
    var c := Cut(x.value);
    DeliveriesMatchLength(ReadingHeaders, r[c..], maxHeaders, maxContent);
    ContentStep(m, x, r, maxHeaders, maxContent);
    assert WellDelivered(Delivered(m.(content := r[..c])));
    DeliveredFirst(Delivered(m.(content := r[..c])), Drain(ReadingHeaders, r[c..], maxHeaders, maxContent).2);
  }

  /** A well-delivered message in front of well-delivered messages. */
  lemma {:induction false} DeliveredFirst(e: Event, es: seq<Event>)
    requires WellDelivered(e) && forall i :: 0 <= i < |es| ==> WellDelivered(es[i])
    ensures forall i :: 0 <= i < |[e] + es| ==> WellDelivered(([e] + es)[i])
  {
  }

  lemma {:induction false} AfterHeadDeliveriesMatchLength(head: Option<Message>, rest: string, maxHeaders: nat, maxContent: nat)
    ensures Consistent(AfterHead(head, rest, maxHeaders, maxContent).0)
    ensures forall i :: 0 <= i < |AfterHead(head, rest, maxHeaders, maxContent).2| ==> WellDelivered(AfterHead(head, rest, maxHeaders, maxContent).2[i])
    decreases 2 * |rest| + 2, 1
  {
    if head.Some? && LengthOf(head.value).Some? {
      var x := LengthOf(head.value).value;
      if x.Num? && x.value > maxContent {
        DeliveriesMatchLength(ReadingContent(head.value, x), "", maxHeaders, maxContent);
      } else {
        DeliveriesMatchLength(ReadingContent(head.value, x), rest, maxHeaders, maxContent);
      }
    } else {
      DeliveriesMatchLength(ReadingHeaders, rest, maxHeaders, maxContent);
    }
  }

  /** While reading headers the framer never holds more than `maxHeaders` characters. */
  lemma {:induction false} HeaderBufferBounded(mode: Mode, r: string, maxHeaders: nat, maxContent: nat)
    ensures Drain(mode, r, maxHeaders, maxContent).0.ReadingHeaders? ==> |Drain(mode, r, maxHeaders, maxContent).1| <= maxHeaders
    decreases 2 * |r| + if mode.ReadingContent? then 1 else 0
  {
    match mode
    case ReadingHeaders =>
      if |r| <= maxHeaders && FrameMatch(r).Some? {
        var f := FrameMatch(r).value;
        AfterHeadBufferBounded(ParseText(r[f.start..f.end]), r[f.end + 4..], maxHeaders, maxContent);
      }
    case ReadingContent(m, x) =>
      if x.Num? && |r| >= x.value {
        HeaderBufferBounded(ReadingHeaders, r[Cut(x.value)..], maxHeaders, maxContent);
      }
  }

  lemma {:induction false} AfterHeadBufferBounded(head: Option<Message>, rest: string, maxHeaders: nat, maxContent: nat)
    ensures AfterHead(head, rest, maxHeaders, maxContent).0.ReadingHeaders? ==> |AfterHead(head, rest, maxHeaders, maxContent).1| <= maxHeaders
    decreases 2 * |rest| + 2
  {
    if head.Some? && LengthOf(head.value).Some? {
      var x := LengthOf(head.value).value;
      if x.Num? && x.value > maxContent {
        HeaderBufferBounded(ReadingContent(head.value, x), "", maxHeaders, maxContent);
      } else {
        HeaderBufferBounded(ReadingContent(head.value, x), rest, maxHeaders, maxContent);
      }
    } else {
      HeaderBufferBounded(ReadingHeaders, rest, maxHeaders, maxContent);
    }
  }

  /** Too much header text: the buffer is emptied and one flood reported, whatever the text holds. */
  lemma HeaderFlood(r: string, maxHeaders: nat, maxContent: nat)
    requires |r| > maxHeaders
    ensures Drain(ReadingHeaders, r, maxHeaders, maxContent).0 == ReadingHeaders
    ensures Drain(ReadingHeaders, r, maxHeaders, maxContent).1 == ""
    ensures Drain(ReadingHeaders, r, maxHeaders, maxContent).2 == [Flood]
  {
  }

  /** Until a blank line is buffered, the framer keeps the text and calls nothing. */
  lemma WaitsForBlankLine(r: string, maxHeaders: nat, maxContent: nat)
    requires |r| <= maxHeaders && forall k :: 0 <= k < |r| ==> !BlankAt(r, k)
    ensures Drain(ReadingHeaders, r, maxHeaders, maxContent).0 == ReadingHeaders
    ensures Drain(ReadingHeaders, r, maxHeaders, maxContent).1 == r
    ensures Drain(ReadingHeaders, r, maxHeaders, maxContent).2 == []
  {
  }

  /**
   * A head that does not parse, or parses without a Content-Length, is dropped
   * without a callback, and the text after its blank line is read as headers.
   */
  lemma DropsHeadWithoutLength(r: string, maxHeaders: nat, maxContent: nat)
    requires |r| <= maxHeaders && FrameMatch(r).Some?
    requires var f := FrameMatch(r).value;
      ParseText(r[f.start..f.end]).None? || !HasKey(ParseText(r[f.start..f.end]).value.headers, "content-length")
    ensures var f := FrameMatch(r).value;
      Drain(ReadingHeaders, r, maxHeaders, maxContent) == Drain(ReadingHeaders, r[f.end + 4..], maxHeaders, maxContent)
  {
    var f := FrameMatch(r).value;
    FramedHead(r, f, maxHeaders, maxContent);
  }

  /**
   * A parsed head whose Content-Length exceeds `maxContent` reports a flood and
   * empties the buffer, yet the framer goes on to wait for that body.
   */
  lemma LongContentFloods(r: string, m: Message, n: int, maxHeaders: nat, maxContent: nat)
    requires |r| <= maxHeaders && FrameMatch(r).Some?
    requires ParseText(r[FrameMatch(r).value.start..FrameMatch(r).value.end]) == Some(m)
    requires Header(m, "content-length") == Some(Number(Num(n))) && n > maxContent
    ensures Drain(ReadingHeaders, r, maxHeaders, maxContent).0 == ReadingContent(m, Num(n))
    ensures Drain(ReadingHeaders, r, maxHeaders, maxContent).1 == ""
    ensures Drain(ReadingHeaders, r, maxHeaders, maxContent).2 == [Flood]
  {
    var f := FrameMatch(r).value;
    FramedHead(r, f, maxHeaders, maxContent);
    assert LengthOf(m) == Some(Num(n));
    ContentWaits(m, n, "", maxHeaders, maxContent);
    var d := Drain(ReadingContent(m, Num(n)), "", maxHeaders, maxContent);
    assert d.2 == [];
    var a := AfterHead(Some(m), r[f.end + 4..], maxHeaders, maxContent);
    assert a.0 == d.0 && a.1 == d.1 && a.2 == [Flood] + d.2;
    assert [Flood] + d.2 == [Flood];
  }

  /** With fewer characters buffered than the body needs, the framer waits. */
  lemma ContentWaits(m: Message, n: int, r: string, maxHeaders: nat, maxContent: nat)
    requires |r| < n
    ensures Drain(ReadingContent(m, Num(n)), r, maxHeaders, maxContent).0 == ReadingContent(m, Num(n))
    ensures Drain(ReadingContent(m, Num(n)), r, maxHeaders, maxContent).1 == r
    ensures Drain(ReadingContent(m, Num(n)), r, maxHeaders, maxContent).2 == []
  {
  }

  /**
   * Once the body is buffered the message is delivered first, with the first
   * `n` characters as its body, and the rest is read as headers.
   */
  lemma ContentDelivers(m: Message, n: nat, r: string, maxHeaders: nat, maxContent: nat)
    requires n <= |r|
    ensures var d := Drain(ReadingContent(m, Num(n)), r, maxHeaders, maxContent);
      var after := Drain(ReadingHeaders, r[n..], maxHeaders, maxContent);
      d.0 == after.0 && d.1 == after.1
      && |d.2| > 0 && d.2[0] == Delivered(m.(content := r[..n])) && d.2[1..] == after.2
  {
  }

  /**
   * One whole message, framed and of the length it announces, comes out of the
   * framer as exactly the message `parseMessage` makes of the same text, and
   * leaves nothing behind.
   */
  lemma FramerAgreesWithParseMessage(s: string, maxHeaders: nat, maxContent: nat)
    requires |s| <= maxHeaders && ParseMessage(s).Some?
    requires var f := FrameMatch(s).value;
      LengthOf(ParseMessage(s).value) == Some(Num(|s| - f.end - 4)) && |s| - f.end - 4 <= maxContent
    ensures Drain(ReadingHeaders, s, maxHeaders, maxContent) == (ReadingHeaders, "", [Delivered(ParseMessage(s).value)])
  {
    var f, m := ParsedFrame(s, maxHeaders, maxContent);
    FramedMessage(s, f, m, maxHeaders, maxContent);
  }

  /** `s` is framed by `f` and its head reads as `m`. */
  predicate Framed(s: string, f: Frame, m: Message) {
    FrameMatch(s) == Some(f) && f.end + 4 <= |s| && ParseText(s[f.start..f.end]) == Some(m)
  }

  /** `s` is framed by `f`, its head reads as `m`, and `m` announces exactly what follows the blank line, within the limits. */
  predicate Announces(s: string, f: Frame, m: Message, maxHeaders: nat, maxContent: nat) {
    && |s| <= maxHeaders && Framed(s, f, m)
    && LengthOf(m) == Some(Num(|s| - f.end - 4)) && |s| - f.end - 4 <= maxContent
  }

  /** The frame and head of a message `parseMessage` reads, when its Content-Length is the length of what follows. */
  lemma ParsedFrame(s: string, maxHeaders: nat, maxContent: nat) returns (f: Frame, m: Message)
    requires |s| <= maxHeaders && ParseMessage(s).Some?
    requires var f := FrameMatch(s).value;
      LengthOf(ParseMessage(s).value) == Some(Num(|s| - f.end - 4)) && |s| - f.end - 4 <= maxContent
    ensures Announces(s, f, m, maxHeaders, maxContent) && ParseMessage(s).value == m.(content := s[f.end + 4..])
  {
    ParseMessageOf(s);
    f := FrameMatch(s).value;
    m := ParseText(s[f.start..f.end]).value;
    LengthCarries(ParseMessage(s).value, m, s[f.end + 4..]);
  }

  /** The parsed message has the head's headers, so the head announces the same length, and the body is all of what follows. */
  lemma LengthCarries(p: Message, m: Message, rest: string)
    requires p == m.(content := BodyOf(Lookup(m.headers, "content-length"), rest)) && LengthOf(p) == Some(Num(|rest|))
    ensures LengthOf(m) == Some(Num(|rest|)) && p == m.(content := rest)
  {
    assert LengthOf(m) == LengthOf(p);
    AnnouncedBody(m, rest);
  }

  /** A framed head announcing exactly what follows it, within the limits, is delivered with that body. */
  lemma FramedMessage(s: string, f: Frame, m: Message, maxHeaders: nat, maxContent: nat)
    requires Announces(s, f, m, maxHeaders, maxContent)
    ensures Drain(ReadingHeaders, s, maxHeaders, maxContent) == (ReadingHeaders, "", [Delivered(m.(content := s[f.end + 4..]))])
  {
    var rest := s[f.end + 4..];
    FramedHead(s, f, maxHeaders, maxContent);
    HeadThenBody(m, rest, maxHeaders, maxContent);
    WholeBody(m, rest, maxHeaders, maxContent);
  }

  /** `parseMessage` is the head's parse with the body cut from what follows the blank line. */
  lemma ParseMessageOf(s: string)
    requires ParseMessage(s).Some?
    ensures var f := FrameMatch(s).value;
      var head := ParseText(s[f.start..f.end]);
      Framed(s, f, head.value)
      && ParseMessage(s).value == head.value.(content := BodyOf(Lookup(head.value.headers, "content-length"), s[f.end + 4..]))
  {
  }

  /** A Content-Length equal to the length of what follows takes all of it as the body. */
  lemma AnnouncedBody(m: Message, rest: string)
    requires LengthOf(m) == Some(Num(|rest|))
    ensures BodyOf(Lookup(m.headers, "content-length"), rest) == rest
  {
    assert Lookup(m.headers, "content-length") == Some(Number(Num(|rest|)));
  }

  /** A head announcing a body no longer than the limit hands over to reading that body. */
  lemma HeadThenBody(m: Message, rest: string, maxHeaders: nat, maxContent: nat)
    requires LengthOf(m) == Some(Num(|rest|)) && |rest| <= maxContent
    ensures AfterHead(Some(m), rest, maxHeaders, maxContent) == Drain(ReadingContent(m, Num(|rest|)), rest, maxHeaders, maxContent)
  {
  }

  /** A buffer holding exactly the awaited body delivers it and leaves nothing behind. */
  lemma WholeBody(m: Message, rest: string, maxHeaders: nat, maxContent: nat)
    ensures Drain(ReadingContent(m, Num(|rest|)), rest, maxHeaders, maxContent) == (ReadingHeaders, "", [Delivered(m.(content := rest))])
  {
    var n := |rest|;
    ContentDelivers(m, n, rest, maxHeaders, maxContent);
    assert rest[..n] == rest && rest[n..] == "";
    WaitsForBlankLine("", maxHeaders, maxContent);
    var d := Drain(ReadingContent(m, Num(n)), rest, maxHeaders, maxContent);
    assert d.2[1..] == [];
    assert d.2 == [d.2[0]];
  }
}
