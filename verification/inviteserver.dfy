/**
 * `createInviteServerTransaction`: the INVITE server transaction of section
 * 17.2.1 of RFC 3261 with the Accepted state of section 7.1 of RFC 6026. The
 * transaction user hands it responses (`send`), the transport hands it
 * retransmitted requests and the ACK (`message`), and timers G, H, I and L
 * fire. `Step` says what one event does; the class `InviteServer` runs the
 * same state machine the way the source does, by updating its variables.
 */
module InviteServerTransaction {
  import opened Wrappers
  import opened SipTypes
  import opened TransactionEffects

  datatype State = Proceeding | Completed | Confirmed | Accepted | Terminated

  /** The state machine's variables: its state, the response last sent, and the pending timers. */
  datatype Config = Config(state: State, rs: Option<Message>, timers: map<Timer, nat>)

  /** The events: `send` from the transaction user, `message` from the transport, a timer firing, `shutdown`. */
  datatype Input = Respond(message: Message) | Incoming(message: Message) | Timeout(timer: Timer) | Halt

  /** The transaction as created: in Proceeding, nothing sent, no timer. */
  const Initial: Config := Config(Proceeding, None, map[])

  /** The timers a state's `leave` clears, in order. */
  function Owned(s: State): seq<Timer> {
    match s
    case Completed => [G, H]
    case Confirmed => [I]
    case Accepted => [L]
    case _ => []
  }

  /** What a state's `enter` does: arm its timers, or run `cleanup` for Terminated. */
  function Entry(s: State): seq<Effect> {
    match s
    case Proceeding => []
    case Completed => [Arm(G, T1), Arm(H, Long)]
    case Confirmed => [Arm(I, T4)]
    case Accepted => [Arm(L, Long)]
    case Terminated => [Cleanup]
  }

  /** `sm.enter(next)` of `makeSM`: the old state's `leave` runs before the new state's `enter`. */
  function Switch(from: State, to: State): (e: seq<Effect>)
    ensures e == Disarms(Owned(from)) + Entry(to)
    ensures |e| == |Owned(from)| + |Entry(to)|
  {
    Disarms(Owned(from)) + Entry(to)
  }

  /** The variables after `sm.enter(to)`, and what it did. */
  function Moved(c: Config, to: State): (r: (Config, seq<Effect>))
    ensures r.1 == Switch(c.state, to)
    ensures r.0 == Config(to, c.rs, Apply(c.timers, r.1))
  {
    var e := Switch(c.state, to);
    (Config(to, c.rs, Apply(c.timers, e)), e)
  }

  /**
   * The variables of a reachable transaction: a response is stored once the
   * transaction has left Proceeding, a final one in Completed; each state has
   * exactly its own timers pending, G at a doubled interval.
   */
  predicate Valid(c: Config) {
    (c.state != Proceeding && c.state != Terminated ==> c.rs.Some?)
    && (c.state == Completed ==> StatusAtLeast(c.rs.value, 300))
    && match c.state
       case Proceeding => c.timers == map[]
       case Completed => c.timers.Keys == {G, H} && IsBackoff(c.timers[G]) && c.timers[H] == Long
       case Confirmed => c.timers == map[I := T4]
       case Accepted => c.timers == map[L := Long]
       case Terminated => c.timers == map[]
  }

  /** `send(m)`: Proceeding stores and transmits the response, moving on a final one; Accepted retransmits 2xx. */
  function OnSend(c: Config, m: Message): (r: (Config, seq<Effect>)) {
    match c.state
    case Proceeding =>
      var c' := c.(rs := Some(m));
      if StatusAtLeast(m, 300) then
        var n := Moved(c', Completed);
        (n.0, n.1 + [Transmit(m)])
      else if StatusAtLeast(m, 200) then
        var n := Moved(c', Accepted);
        (n.0, n.1 + [Transmit(m)])
      else (c', [Transmit(m)])
    case Accepted => (c.(rs := Some(m)), [Transmit(m)])
    case _ => (c, [])
  }

  /** `message(m)`: a retransmitted request gets the last response again; the ACK confirms Completed. */
  function OnReceive(c: Config, m: Message): (r: (Config, seq<Effect>))
    requires Valid(c)
  {
    match c.state
    case Proceeding => (c, if c.rs.Some? then [Transmit(c.rs.value)] else [])
    case Completed =>
      if m.Request? && m.methodName == "ACK" then Moved(c, Confirmed)
      else (c, [Transmit(c.rs.value)])
    case _ => (c, [])
  }

  /** A pending timer fires: G retransmits and doubles; H, I and L end the transaction. */
  function OnFire(c: Config, t: Timer): (r: (Config, seq<Effect>))
    requires Valid(c)
  {
    if t !in c.timers then (c, [])
    else
      var d := c.timers[t];
      var c' := c.(timers := c.timers - {t});
      if t == G then (c'.(timers := c'.timers[G := 2 * d]), [Arm(G, 2 * d), Transmit(c.rs.value)])
      else Moved(c', Terminated)
  }

  /** One event: the variables afterwards and what the transaction did, in order. */
  function Step(c: Config, input: Input): (r: (Config, seq<Effect>))
    requires Valid(c)
    ensures input.Halt? ==> r.0.state == Terminated
    ensures c.state == Terminated ==> r.0.state == Terminated
  {
    match input
    case Respond(m) => OnSend(c, m)
    case Incoming(m) => OnReceive(c, m)
    case Timeout(t) => OnFire(c, t)
    case Halt => Moved(c, Terminated)
  }

  // ---------------------------------------------------------------- properties

  /** The timers a state's `enter` leaves pending, when its `leave` is all that ran before. */
  function EntryTimers(s: State): map<Timer, nat> {
    match s
    case Completed => map[G := T1][H := Long]
    case Confirmed => map[I := T4]
    case Accepted => map[L := Long]
    case _ => map[]
  }

  /** `sm.enter` from a state that owns every pending timer leaves exactly the new state's timers. */
  lemma MovedTimers(timers: map<Timer, nat>, from: State, to: State)
    requires forall x :: x in timers ==> x in Owned(from)
    ensures Apply(timers, Switch(from, to)) == EntryTimers(to)
  {
    ClearAll(timers, Owned(from), Entry(to));
    match to
    case Completed => ArmTwo(G, T1, H, Long);
    case Terminated => NoTimerEffects(map[], [Cleanup]);
    case _ =>
  }

  /** Every event keeps the variables those of a reachable transaction. */
  lemma StepKeepsValid(c: Config, input: Input)
    requires Valid(c)
    ensures Valid(Step(c, input).0)
  {
    match input
    case Respond(m) =>
      if c.state == Proceeding {
        MovedTimers(c.timers, c.state, Completed);
        MovedTimers(c.timers, c.state, Accepted);
      }
    case Incoming(m) =>
      MovedTimers(c.timers, c.state, Confirmed);
    case Timeout(t) =>
      if t == G && t in c.timers {
        DoubleIsBackoff(c.timers[G]);
      } else if t in c.timers {
        MovedTimers(c.timers - {t}, c.state, Terminated);
      }
    case Halt =>
      MovedTimers(c.timers, c.state, Terminated);
  }

  /**
   * In Proceeding every response is transmitted, last: a status of 300 or more
   * moves to Completed, one in [200, 299] to Accepted, and a provisional one
   * leaves the transaction in Proceeding.
   */
  lemma SendInProceeding(c: Config, m: Message)
    requires Valid(c) && c.state == Proceeding
    ensures var r := Step(c, Respond(m));
      r.0.rs == Some(m) && |r.1| > 0 && r.1[|r.1| - 1] == Transmit(m)
      && r.0.state == (if StatusAtLeast(m, 300) then Completed else if StatusAtLeast(m, 200) then Accepted else Proceeding)
      && (StatusAtLeast(m, 300) ==> r.1 == [Arm(G, T1), Arm(H, Long), Transmit(m)])
  {
  }

  /** In Completed the ACK moves to Confirmed without transmitting; any other message gets the final response again. */
  lemma ReceiveInCompleted(c: Config, m: Message)
    requires Valid(c) && c.state == Completed
    ensures var r := Step(c, Incoming(m));
      if m.Request? && m.methodName == "ACK" then
        r.0.state == Confirmed && r.1 == [Disarm(G), Disarm(H), Arm(I, T4)]
      else r.0 == c && r.1 == [Transmit(c.rs.value)]
  {
  }

  /** Once Completed, the stored final response never changes, and it is the only thing transmitted. */
  lemma FinalResponseStays(c: Config, input: Input)
    requires Valid(c) && c.state == Completed
    ensures Step(c, input).0.rs == c.rs
    ensures forall i :: 0 <= i < |Step(c, input).1| && Step(c, input).1[i].Transmit? ==> Step(c, input).1[i].message == c.rs.value
  {
  }

  /** Timer G retransmits the final response and re-arms itself at twice its interval, with no upper bound. */
  lemma TimerGDoubles(c: Config)
    requires Valid(c) && c.state == Completed
    ensures var d := c.timers[G];
      var r := Step(c, Timeout(G));
      r.0.state == Completed && r.0.timers[G] == 2 * d && r.1 == [Arm(G, 2 * d), Transmit(c.rs.value)]
  {
  }

  /** A signal the current state has no handler for changes nothing and does nothing. */
  lemma UnhandledSignalsIgnored(c: Config, m: Message)
    requires Valid(c)
    ensures c.state in {Confirmed, Accepted, Terminated} ==> Step(c, Incoming(m)) == (c, [])
    ensures c.state in {Completed, Confirmed, Terminated} ==> Step(c, Respond(m)) == (c, [])
  {
  }

  /**
   * Entering Terminated clears every timer and runs `cleanup` as the last
   * thing; `shutdown` on a terminated transaction runs `cleanup` again.
   */
  lemma TerminationCleansUp(c: Config, input: Input)
    requires Valid(c)
    requires Step(c, input).0.state == Terminated && (c.state != Terminated || input.Halt?)
    ensures var r := Step(c, input);
      r.0.timers == map[] && |r.1| > 0 && r.1[|r.1| - 1] == Cleanup
  {
    var r := Step(c, input);
    StepKeepsValid(c, input);
  }

  // ---------------------------------------------------------------- the transaction object

  /** The object `createInviteServerTransaction` returns, with the log of what it has done. */
  class InviteServer {
    var state: State
    var rs: Option<Message>
    var timers: map<Timer, nat>
    var out: seq<Effect>

    function Current(): Config
      reads this
    {
      Config(state, rs, timers)
    }

    constructor()
      ensures Current() == Initial && out == []
    {
      state, rs, timers, out := Proceeding, None, map[], [];
    }

    /** `sm.enter(next)`: `leave` of the current state (its timers cleared), then `enter` of the next. */
    method Enter(next: State)
      modifies this
      ensures Current() == Moved(old(Current()), next).0
      ensures out == old(out) + Moved(old(Current()), next).1
    {
      var leaving := Disarms(Owned(state));
      out, timers := out + leaving, Apply(timers, leaving);
      state := next;
      var entering := Entry(next);
      out, timers := out + entering, Apply(timers, entering);
      ApplyAppend(old(timers), leaving, entering);
    }

    /** The `send` of the returned object. */
    method Send(m: Message)
      requires Valid(Current())
      modifies this
      ensures Current() == Step(old(Current()), Respond(m)).0
      ensures out == old(out) + Step(old(Current()), Respond(m)).1
      ensures Valid(Current())
    {
      StepKeepsValid(Current(), Respond(m));
      if state == Proceeding {
        rs := Some(m);
        if StatusAtLeast(m, 300) {
          Enter(Completed);
        } else if StatusAtLeast(m, 200) {
          Enter(Accepted);
        }
        out := out + [Transmit(m)];
      } else if state == Accepted {
        rs := Some(m);
        out := out + [Transmit(m)];
      }
    }

    /** The `message` of the returned object. */
    method Receive(m: Message)
      requires Valid(Current())
      modifies this
      ensures Current() == Step(old(Current()), Incoming(m)).0
      ensures out == old(out) + Step(old(Current()), Incoming(m)).1
      ensures Valid(Current())
    {
      StepKeepsValid(Current(), Incoming(m));
      if state == Proceeding {
        if rs.Some? {
          out := out + [Transmit(rs.value)];
        }
      } else if state == Completed {
        if m.Request? && m.methodName == "ACK" {
          Enter(Confirmed);
        } else {
          out := out + [Transmit(rs.value)];
        }
      }
    }

    /** A pending timer's callback. */
    method Fire(t: Timer)
      requires Valid(Current())
      modifies this
      ensures Current() == Step(old(Current()), Timeout(t)).0
      ensures out == old(out) + Step(old(Current()), Timeout(t)).1
      ensures Valid(Current())
    {
      StepKeepsValid(Current(), Timeout(t));
      if t in timers {
        var d := timers[t];
        timers := timers - {t};
        if t == G {
          timers := timers[G := 2 * d];
          out := out + [Arm(G, 2 * d), Transmit(rs.value)];
        } else {
          Enter(Terminated);
        }
      }
    }

    /** The `shutdown` of the returned object. */
    method Shutdown()
      requires Valid(Current())
      modifies this
      ensures Current() == Step(old(Current()), Halt).0
      ensures out == old(out) + Step(old(Current()), Halt).1
      ensures Valid(Current())
    {
      StepKeepsValid(Current(), Halt);
      Enter(Terminated);
    }
  }
}
