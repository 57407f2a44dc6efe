/**
 * `createInviteClientTransaction`: the INVITE client transaction of section
 * 17.1.1 of RFC 3261 with the Accepted state of section 7.2 of RFC 6026. It
 * starts on the next tick after creation, sends the INVITE, retransmits it on
 * timer A over an unreliable transport, gives up on timer B, passes responses
 * to the transaction user and acknowledges a failure response itself.
 */
module InviteClientTransaction {
  import opened Wrappers
  import opened Js
  import opened SipTypes
  import opened TransactionEffects
  import Codec

  /** `Created` is the state before the first tick, when the state machine has no state yet. */
  datatype State = Created | Calling | Proceeding | Completed | Accepted | Terminated

  /**
   * What the transaction is created with: the INVITE, whether the transport
   * is reliable, and the `max-forwards` option (0 when absent).
   */
  datatype Setup = Setup(rq: Message, reliable: bool, maxForwards: nat)

  /**
   * The state machine's variables: its state, whether the first tick has
   * run, the pending timers, and the To header the ACK carries once a
   * failure response has set it.
   */
  datatype Config = Config(state: State, started: bool, timers: map<Timer, nat>, ackTo: Option<HeaderValue>)

  /**
   * The events: the first tick, `message(m, remote)` from the transport
   * (`remote` says the response came from the network), a timer firing, and
   * `shutdown`.
   */
  datatype Input = Tick | Incoming(message: Message, remote: bool) | Timeout(timer: Timer) | Halt

  const Initial: Config := Config(Created, false, map[], None)

  /** The request has what building its ACK reads: a parsed CSeq and a first Via entry. */
  predicate CanCreate(rq: Message) {
    rq.Request?
    && Header(rq, "cseq").Some? && Header(rq, "cseq").value.Sequence?
    && ViaList(rq).Some? && |ViaList(rq).value| > 0
  }

  // ---------------------------------------------------------------- the ACK

  /**
   * The ACK the transaction builds for a failure response: the INVITE's URI,
   * From, Call-ID and first Via, a CSeq with the INVITE's number and method
   * ACK, Max-Forwards (70 unless the option gives one) and, once known, the
   * response's To.
   */
  function Ack(s: Setup, to: Option<HeaderValue>): (ack: Message)
    requires CanCreate(s.rq)
    ensures ack.Request? && ack.methodName == "ACK" && ack.uri == s.rq.uri && ack.content == ""
  {
    var base: Headers := [
      ("from", Header(s.rq, "from").GetOr(Undefined)),
      ("cseq", Sequence(CSeq(Header(s.rq, "cseq").value.cseq.number, "ACK"))),
      ("call-id", Header(s.rq, "call-id").GetOr(Undefined)),
      ("via", List([ViaList(s.rq).value[0]])),
      ("max-forwards", Number(Num(if s.maxForwards == 0 then 70 else s.maxForwards)))];
    var headers := if to.Some? then base + [("to", to.value)] else base;
    Request("ACK", s.rq.uri, "", headers, "")
  }

  /** The ACK carries the INVITE's URI, From, Call-ID and first Via, the INVITE's CSeq number with method ACK, and the To it was given. */
  lemma AckCarriesInviteFields(s: Setup, to: HeaderValue)
    requires CanCreate(s.rq)
    ensures var ack := Ack(s, Some(to));
      ack.Request? && ack.methodName == "ACK" && ack.uri == s.rq.uri
      && Header(ack, "from") == Some(Header(s.rq, "from").GetOr(Undefined))
      && Header(ack, "call-id") == Some(Header(s.rq, "call-id").GetOr(Undefined))
      && ViaList(ack) == Some([ViaList(s.rq).value[0]])
      && Header(ack, "cseq") == Some(Sequence(CSeq(Header(s.rq, "cseq").value.cseq.number, "ACK")))
      && Header(ack, "to") == Some(to)
  {
    var ack := Ack(s, Some(to));
    var h := ack.headers;
    var h1, h2, h3, h4, h5 := h[1..], h[2..], h[3..], h[4..], h[5..];
    assert h1 == h[1..] && h2 == h1[1..] && h3 == h2[1..] && h4 == h3[1..] && h5 == h4[1..];
    assert h5 == [("to", to)] && h5[1..] == [];
    assert h[0].0 == "from" && h1[0].0 == "cseq" && h2[0].0 == "call-id" && h3[0].0 == "via" && h4[0].0 == "max-forwards";
    assert Lookup(h5, "to") == Some(to);
    assert Lookup(h4, "to") == Some(to);
    assert Lookup(h3, "to") == Some(to);
    assert Lookup(h2, "to") == Some(to);
    assert Lookup(h1, "to") == Some(to);
    assert Lookup(h3, "via") == Some(h3[0].1);
    assert Lookup(h2, "via") == Some(h3[0].1);
    assert Lookup(h1, "via") == Some(h3[0].1);
    assert Lookup(h2, "call-id") == Some(h2[0].1);
    assert Lookup(h1, "call-id") == Some(h2[0].1);
    assert Lookup(h1, "cseq") == Some(h1[0].1);
  }

  /**
   * The ACK has the transaction id of its INVITE, so the server side files it
   * under the INVITE's transaction.
   */
  lemma AckSharesTransactionId(s: Setup, to: HeaderValue)
    requires CanCreate(s.rq) && s.rq.Request? && s.rq.methodName == "INVITE"
    requires Header(s.rq, "cseq").value.cseq.methodName == "INVITE"
    requires ViaList(s.rq).value[0].ViaItem?
    ensures Codec.TransactionId(Ack(s, Some(to))).Some?
    ensures Codec.TransactionId(Ack(s, Some(to))) == Codec.TransactionId(s.rq)
  {
    var ack := Ack(s, Some(to));
    AckCarriesInviteFields(s, to);
    assert Codec.TopBranch(ack) == Codec.TopBranch(s.rq);
    assert Codec.JoinPart(Header(ack, "call-id")) == Codec.JoinPart(Header(s.rq, "call-id"));
  }

  // ---------------------------------------------------------------- the state machine

  /** The timers a state's `leave` clears, in order. */
  function Owned(st: State): seq<Timer> {
    match st
    case Calling => [A, B]
    case Completed => [D]
    case Accepted => [M]
    case _ => []
  }

  /** What a state's `enter` does. Completed's `enter` is given the failure response's To. */
  function Entry(s: Setup, st: State, to: Option<HeaderValue>): seq<Effect>
    requires CanCreate(s.rq)
  {
    match st
    case Calling => [Transmit(s.rq)] + (if s.reliable then [] else [Arm(A, T1)]) + [Arm(B, Long)]
    case Completed => [Transmit(Ack(s, to)), Arm(D, Long)]
    case Accepted => [Arm(M, Long)]
    case Terminated => [Cleanup]
    case _ => []
  }

  /** The variables after `sm.enter(to)` (with the To for Completed), and what it did: `leave`, then `enter`. */
  function Moved(s: Setup, c: Config, to: State, ackTo: Option<HeaderValue>): (r: (Config, seq<Effect>))
    requires CanCreate(s.rq)
    ensures r.1 == Disarms(Owned(c.state)) + Entry(s, to, ackTo)
    ensures r.0.state == to && r.0.started == c.started && r.0.ackTo == ackTo
  {
    var e := Disarms(Owned(c.state)) + Entry(s, to, ackTo);
    (Config(to, c.started, Apply(c.timers, e), ackTo), e)
  }

  /** The variables of a reachable transaction: each state has exactly its own timers pending. */
  predicate Valid(s: Setup, c: Config) {
    CanCreate(s.rq)
    && (c.started ==> c.state != Created)
    && (!c.started ==> c.state == Created || c.state == Terminated)
    && (c.state == Completed ==> c.ackTo.Some?)
    && match c.state
       case Calling =>
         c.timers.Keys == (if s.reliable then {B} else {A, B})
         && c.timers[B] == Long && (A in c.timers ==> IsBackoff(c.timers[A]))
       case Completed => c.timers == map[D := Long]
       case Accepted => c.timers == map[M := Long]
       case _ => c.timers == map[]
  }

  /** The first tick: `sm.enter(calling)`, from whatever state the transaction is in by then. */
  function OnStart(s: Setup, c: Config): (r: (Config, seq<Effect>))
    requires CanCreate(s.rq)
  {
    if c.started then (c, [])
    else
      var n := Moved(s, c, Calling, c.ackTo);
      (n.0.(started := true), n.1)
  }

  /** A response goes to the transaction user first; then a final one moves the state machine on. */
  function OnReceive(s: Setup, c: Config, m: Message, remote: bool): (r: (Config, seq<Effect>))
    requires Valid(s, c)
  {
    match c.state
    case Calling =>
      var n :=
        if StatusBelow(m, 200) then Moved(s, c, Proceeding, c.ackTo)
        else if StatusBelow(m, 300) then Moved(s, c, Accepted, c.ackTo)
        else Moved(s, c, Completed, Some(Header(m, "to").GetOr(Undefined)));
      (n.0, [ToUser(m)] + n.1)
    case Proceeding =>
      if StatusAtLeast(m, 300) then
        var n := Moved(s, c, Completed, Some(Header(m, "to").GetOr(Undefined)));
        (n.0, [ToUser(m)] + n.1)
      else if StatusAtLeast(m, 200) then
        var n := Moved(s, c, Accepted, c.ackTo);
        (n.0, [ToUser(m)] + n.1)
      else (c, [ToUser(m)])
    case Completed => (c, if remote then [Transmit(Ack(s, c.ackTo))] else [])
    case Accepted => (c, if StatusAtLeast(m, 200) && !StatusAtLeast(m, 300) then [ToUser(m)] else [])
    case _ => (c, [])
  }

  /** A pending timer fires: A retransmits and doubles, B times out with a 408, D and M end the transaction. */
  function OnFire(s: Setup, c: Config, t: Timer): (r: (Config, seq<Effect>))
    requires Valid(s, c)
  {
    if t !in c.timers then (c, [])
    else
      var d := c.timers[t];
      var c' := c.(timers := c.timers - {t});
      if t == A then (c'.(timers := c'.timers[A := 2 * d]), [Transmit(s.rq), Arm(A, 2 * d)])
      else if t == B then
        var n := Moved(s, c', Terminated, c.ackTo);
        (n.0, [ToUser(Codec.MakeResponse(s.rq, 408, "", [], ""))] + n.1)
      else Moved(s, c', Terminated, c.ackTo)
  }

  /** One event: the variables afterwards and what the transaction did, in order. */
  function Step(s: Setup, c: Config, input: Input): (r: (Config, seq<Effect>))
    requires Valid(s, c)
    ensures input.Halt? ==> r.0.state == Terminated
  {
    match input
    case Tick => OnStart(s, c)
    case Incoming(m, remote) => OnReceive(s, c, m, remote)
    case Timeout(t) => OnFire(s, c, t)
    case Halt => Moved(s, c, Terminated, c.ackTo)
  }

  // ---------------------------------------------------------------- properties

  /** The timers a state's `enter` leaves pending, when its `leave` is all that ran before. */
  function EntryTimers(s: Setup, st: State): map<Timer, nat> {
    match st
    case Calling => if s.reliable then map[B := Long] else map[A := T1][B := Long]
    case Completed => map[D := Long]
    case Accepted => map[M := Long]
    case _ => map[]
  }

  lemma MovedTimers(s: Setup, timers: map<Timer, nat>, from: State, to: State, ackTo: Option<HeaderValue>)
    requires CanCreate(s.rq)
    requires forall x :: x in timers ==> x in Owned(from)
    ensures Apply(timers, Disarms(Owned(from)) + Entry(s, to, ackTo)) == EntryTimers(s, to)
  {
    var entry := Entry(s, to, ackTo);
    ClearAll(timers, Owned(from), entry);
    match to
    case Calling =>
      ApplyAppend(map[], [Transmit(s.rq)], entry[1..]);
      assert entry == [Transmit(s.rq)] + entry[1..];
      NoTimerEffects(map[], [Transmit(s.rq)]);
      if s.reliable {
        assert entry[1..] == [Arm(B, Long)];
      } else {
        assert entry[1..] == [Arm(A, T1), Arm(B, Long)];
        ArmTwo(A, T1, B, Long);
      }
    case Completed =>
      ApplyAppend(map[], [Transmit(Ack(s, ackTo))], [Arm(D, Long)]);
      NoTimerEffects(map[], [Transmit(Ack(s, ackTo))]);
    case Terminated => NoTimerEffects(map[], [Cleanup]);
    case _ =>
  }

  /** Every event keeps the variables those of a reachable transaction. */
  lemma StepKeepsValid(s: Setup, c: Config, input: Input)
    requires Valid(s, c)
    ensures Valid(s, Step(s, c, input).0)
  {
    match input
    case Tick =>
      MovedTimers(s, c.timers, c.state, Calling, c.ackTo);
    case Incoming(m, remote) =>
      ReceiveKeepsValid(s, c, m, remote);
    case Timeout(t) =>
      FireKeepsValid(s, c, t);
    case Halt =>
      MovedTimers(s, c.timers, c.state, Terminated, c.ackTo);
  }

  lemma ReceiveKeepsValid(s: Setup, c: Config, m: Message, remote: bool)
    requires Valid(s, c)
    ensures Valid(s, OnReceive(s, c, m, remote).0)
  {
    if c.state == Calling || c.state == Proceeding {
      var to := Some(Header(m, "to").GetOr(Undefined));
      MovedTimers(s, c.timers, c.state, Accepted, c.ackTo);
      MovedTimers(s, c.timers, c.state, Completed, to);
      if c.state == Calling {
        MovedTimers(s, c.timers, c.state, Proceeding, c.ackTo);
      }
    }
  }

  lemma FireKeepsValid(s: Setup, c: Config, t: Timer)
    requires Valid(s, c)
    ensures Valid(s, OnFire(s, c, t).0)
  {
    if t == A && t in c.timers {
      DoubleIsBackoff(c.timers[A]);
    } else if t in c.timers {
      MovedTimers(s, c.timers - {t}, c.state, Terminated, c.ackTo);
    }
  }

  /** The first tick sends the INVITE, arms timer A only over an unreliable transport, and arms timer B. */
  lemma StartSendsInvite(s: Setup)
    requires CanCreate(s.rq)
    ensures var r := Step(s, Initial, Tick);
      r.0.state == Calling && r.0.started
      && r.1 == [Transmit(s.rq)] + (if s.reliable then [] else [Arm(A, T1)]) + [Arm(B, Long)]
  {
  }

  /**
   * A response of 300 or more in Calling or Proceeding goes to the
   * transaction user first; then the ACK, carrying that response's To, is
   * sent and the transaction is Completed.
   */
  lemma FailureIsAcknowledged(s: Setup, c: Config, m: Message, remote: bool)
    requires Valid(s, c) && (c.state == Calling || c.state == Proceeding) && StatusAtLeast(m, 300)
    ensures var r := Step(s, c, Incoming(m, remote));
      var ack := Ack(s, Some(Header(m, "to").GetOr(Undefined)));
      r.0.state == Completed && r.0.ackTo == Some(Header(m, "to").GetOr(Undefined))
      && r.1 == [ToUser(m)] + Disarms(Owned(c.state)) + [Transmit(ack), Arm(D, Long)]
  {
  }

  /** In Completed a retransmitted response is acknowledged again only when it came from the network. */
  lemma CompletedResendsAck(s: Setup, c: Config, m: Message, remote: bool)
    requires Valid(s, c) && c.state == Completed
    ensures Step(s, c, Incoming(m, remote)).0 == c
    ensures Step(s, c, Incoming(m, remote)).1 == if remote then [Transmit(Ack(s, c.ackTo))] else []
  {
  }

  /** In Accepted only 2xx responses reach the transaction user, and the state stays. */
  lemma AcceptedPasses2xx(s: Setup, c: Config, m: Message, remote: bool)
    requires Valid(s, c) && c.state == Accepted
    ensures Step(s, c, Incoming(m, remote)).0 == c
    ensures Step(s, c, Incoming(m, remote)).1 == if m.Response? && 200 <= m.status <= 299 then [ToUser(m)] else []
  {
  }

  /** Timer A retransmits the INVITE and re-arms itself at twice its interval. */
  lemma TimerADoubles(s: Setup, c: Config)
    requires Valid(s, c) && c.state == Calling && !s.reliable
    ensures var d := c.timers[A];
      Step(s, c, Timeout(A)).0.timers[A] == 2 * d
      && Step(s, c, Timeout(A)).1 == [Transmit(s.rq), Arm(A, 2 * d)]
  {
  }

  /** Timer B gives the transaction user a 408 made from the INVITE, then ends the transaction. */
  lemma TimerBTimesOut(s: Setup, c: Config)
    requires Valid(s, c) && c.state == Calling
    ensures Step(s, c, Timeout(B)).0.state == Terminated && Step(s, c, Timeout(B)).0.timers == map[]
    ensures Step(s, c, Timeout(B)).1 == [ToUser(Codec.MakeResponse(s.rq, 408, "", [], "")), Disarm(A), Disarm(B), Cleanup]
  {
    MovedTimers(s, c.timers - {B}, Calling, Terminated, c.ackTo);
  }

  /**
   * `shutdown` before the first tick runs `cleanup`, yet the tick still
   * enters Calling: the INVITE is sent and timer B armed after the
   * transaction has been removed from its table.
   */
  lemma ShutdownBeforeStartStillSends(s: Setup)
    requires CanCreate(s.rq)
    ensures var r1 := Step(s, Initial, Halt);
      r1.1 == [Cleanup] && Valid(s, r1.0)
      && var r2 := Step(s, r1.0, Tick);
      r2.0.state == Calling && |r2.1| > 0 && r2.1[0] == Transmit(s.rq) && B in r2.0.timers
  {
    StepKeepsValid(s, Initial, Halt);
    var r1 := Step(s, Initial, Halt);
    StepKeepsValid(s, r1.0, Tick);
  }

  // ---------------------------------------------------------------- the transaction object

  /** The object `createInviteClientTransaction` returns, with the log of what it has done. */
  class InviteClient {
    const setup: Setup
    var state: State
    var started: bool
    var timers: map<Timer, nat>
    var ackTo: Option<HeaderValue>
    var out: seq<Effect>

    function Current(): Config
      reads this
    {
      Config(state, started, timers, ackTo)
    }

    constructor(rq: Message, reliable: bool, maxForwards: nat)
      requires CanCreate(rq)
      ensures setup == Setup(rq, reliable, maxForwards)
      ensures Current() == Initial && out == [] && Valid(setup, Current())
    {
      setup := Setup(rq, reliable, maxForwards);
      state, started, timers, ackTo, out := Created, false, map[], None, [];
    }

    /** `sm.enter(next)`: `leave` of the current state (its timers cleared), then `enter` of the next. */
    method Enter(next: State, to: Option<HeaderValue>)
      requires CanCreate(setup.rq)
      modifies this
      ensures Current() == Moved(setup, old(Current()), next, to).0
      ensures out == old(out) + Moved(setup, old(Current()), next, to).1
    {
      var leaving := Disarms(Owned(state));
      out, timers := out + leaving, Apply(timers, leaving);
      state, ackTo := next, to;
      var entering := Entry(setup, next, to);
      out, timers := out + entering, Apply(timers, entering);
      ApplyAppend(old(timers), leaving, entering);
    }

    /** The `process.nextTick` callback. */
    method Start()
      requires Valid(setup, Current())
      modifies this
      ensures Current() == Step(setup, old(Current()), Tick).0
      ensures out == old(out) + Step(setup, old(Current()), Tick).1
      ensures Valid(setup, Current())
    {
      StepKeepsValid(setup, Current(), Tick);
      if !started {
        Enter(Calling, ackTo);
        started := true;
      }
    }

    /** The `message` of the returned object. */
    method Receive(m: Message, remote: bool)
      requires Valid(setup, Current())
      modifies this
      ensures Current() == Step(setup, old(Current()), Incoming(m, remote)).0
      ensures out == old(out) + Step(setup, old(Current()), Incoming(m, remote)).1
      ensures Valid(setup, Current())
    {
      StepKeepsValid(setup, Current(), Incoming(m, remote));
      match state
      case Calling => ReceiveWhileCalling(m);
      case Proceeding => ReceiveWhileProceeding(m);
      case Completed =>
        if remote {
          out := out + [Transmit(Ack(setup, ackTo))];
        }
      case Accepted =>
        if StatusAtLeast(m, 200) && !StatusAtLeast(m, 300) {
          out := out + [ToUser(m)];
        }
      case _ =>
    }

    /** The `message` handler of `calling`. */
    method ReceiveWhileCalling(m: Message)
      requires Valid(setup, Current()) && state == Calling
      modifies this
      ensures Current() == OnReceive(setup, old(Current()), m, false).0
      ensures out == old(out) + OnReceive(setup, old(Current()), m, false).1
    {
      out := out + [ToUser(m)];
      if StatusBelow(m, 200) {
        Enter(Proceeding, ackTo);
      } else if StatusBelow(m, 300) {
        Enter(Accepted, ackTo);
      } else {
        Enter(Completed, Some(Header(m, "to").GetOr(Undefined)));
      }
    }

    /** The `message` handler of `proceeding`. */
    method ReceiveWhileProceeding(m: Message)
      requires Valid(setup, Current()) && state == Proceeding
      modifies this
      ensures Current() == OnReceive(setup, old(Current()), m, false).0
      ensures out == old(out) + OnReceive(setup, old(Current()), m, false).1
    {
      out := out + [ToUser(m)];
      if StatusAtLeast(m, 300) {
        Enter(Completed, Some(Header(m, "to").GetOr(Undefined)));
      } else if StatusAtLeast(m, 200) {
        Enter(Accepted, ackTo);
      }
    }

    /** A pending timer's callback. */
    method Fire(t: Timer)
      requires Valid(setup, Current())
      modifies this
      ensures Current() == Step(setup, old(Current()), Timeout(t)).0
      ensures out == old(out) + Step(setup, old(Current()), Timeout(t)).1
      ensures Valid(setup, Current())
    {
      StepKeepsValid(setup, Current(), Timeout(t));
      if t in timers {
        var d := timers[t];
        timers := timers - {t};
        if t == A {
          out := out + [Transmit(setup.rq)];
          timers := timers[A := 2 * d];
          out := out + [Arm(A, 2 * d)];
        } else {
          if t == B {
            out := out + [ToUser(Codec.MakeResponse(setup.rq, 408, "", [], ""))];
          }
          Enter(Terminated, ackTo);
        }
      }
    }

    /** The `shutdown` of the returned object. */
    method Shutdown()
      requires Valid(setup, Current())
      modifies this
      ensures Current() == Step(setup, old(Current()), Halt).0
      ensures out == old(out) + Step(setup, old(Current()), Halt).1
      ensures Valid(setup, Current())
    {
      StepKeepsValid(setup, Current(), Halt);
      Enter(Terminated, ackTo);
    }
  }
}
