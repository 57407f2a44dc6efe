/**
 * `createServerTransaction`: the non-INVITE server transaction of section
 * 17.2.2 of RFC 3261. It has no Proceeding state: a provisional response
 * leaves it in Trying. `Step` says what one event does; the class
 * `NonInviteServer` runs it by updating its variables.
 */
module ServerTransaction {
  import opened Wrappers
  import opened SipTypes
  import opened TransactionEffects

  datatype State = Trying | Completed | Terminated

  /** The state machine's variables: its state, the response last sent, and the pending timers. */
  datatype Config = Config(state: State, rs: Option<Message>, timers: map<Timer, nat>)

  /** The events: `send` from the transaction user, `message` from the transport, timer J firing, `shutdown`. */
  datatype Input = Respond(message: Message) | Incoming(message: Message) | Timeout(timer: Timer) | Halt

  /** The transaction as created: in Trying, nothing sent, no timer. */
  const Initial: Config := Config(Trying, None, map[])

  /** The timers a state's `leave` clears. */
  function Owned(s: State): seq<Timer> {
    if s == Completed then [J] else []
  }

  /** What a state's `enter` does. */
  function Entry(s: State): seq<Effect> {
    match s
    case Trying => []
    case Completed => [Arm(J, Long)]
    case Terminated => [Cleanup]
  }

  /** `sm.enter(next)` of `makeSM`: the old state's `leave` runs before the new state's `enter`. */
  function Switch(from: State, to: State): (e: seq<Effect>)
    ensures e == Disarms(Owned(from)) + Entry(to)
  {
    Disarms(Owned(from)) + Entry(to)
  }

  /** The variables after `sm.enter(to)`, and what it did. */
  function Moved(c: Config, to: State): (r: (Config, seq<Effect>))
    ensures r.1 == Switch(c.state, to)
    ensures r.0 == Config(to, c.rs, Apply(c.timers, r.1))
  {
    var e := Switch(c.state, to);
    (Config(to, c.rs, Apply(c.timers, e)), e)
  }

  /** The variables of a reachable transaction: Completed holds a final response and timer J. */
  predicate Valid(c: Config) {
    (c.state == Completed ==> c.rs.Some? && StatusAtLeast(c.rs.value, 200))
    && c.timers == (if c.state == Completed then map[J := Long] else map[])
  }

  /** `send(m)` in Trying: store and transmit the response, then complete on a final one. */
  function OnSend(c: Config, m: Message): (r: (Config, seq<Effect>)) {
    if c.state == Trying then
      var c' := c.(rs := Some(m));
      if StatusAtLeast(m, 200) then
        var n := Moved(c', Completed);
        (n.0, [Transmit(m)] + n.1)
      else (c', [Transmit(m)])
    else (c, [])
  }

  /** `message(m)`: a retransmitted request gets the last response again, if there is one. */
  function OnReceive(c: Config, m: Message): (r: (Config, seq<Effect>))
    requires Valid(c)
  {
    match c.state
    case Trying => (c, if c.rs.Some? then [Transmit(c.rs.value)] else [])
    case Completed => (c, [Transmit(c.rs.value)])
    case Terminated => (c, [])
  }

  /** Timer J fires and ends the transaction. */
  function OnFire(c: Config, t: Timer): (r: (Config, seq<Effect>)) {
    if t !in c.timers then (c, [])
    else Moved(c.(timers := c.timers - {t}), Terminated)
  }

  /** One event: the variables afterwards and what the transaction did, in order. */
  function Step(c: Config, input: Input): (r: (Config, seq<Effect>))
    requires Valid(c)
    ensures input.Halt? ==> r.0.state == Terminated
    ensures c.state == Terminated ==> r.0.state == Terminated
  {
    match input
    case Respond(m) => OnSend(c, m)
    case Incoming(m) => OnReceive(c, m)
    case Timeout(t) => OnFire(c, t)
    case Halt => Moved(c, Terminated)
  }

  // ---------------------------------------------------------------- properties

  /** The timers a state's `enter` leaves pending, when its `leave` is all that ran before. */
  function EntryTimers(s: State): map<Timer, nat> {
    if s == Completed then map[J := Long] else map[]
  }

  lemma MovedTimers(timers: map<Timer, nat>, from: State, to: State)
    requires forall x :: x in timers ==> x in Owned(from)
    ensures Apply(timers, Switch(from, to)) == EntryTimers(to)
  {
    ClearAll(timers, Owned(from), Entry(to));
    if to == Terminated {
      NoTimerEffects(map[], [Cleanup]);
    }
  }

  /** Every event keeps the variables those of a reachable transaction. */
  lemma StepKeepsValid(c: Config, input: Input)
    requires Valid(c)
    ensures Valid(Step(c, input).0)
  {
    match input
    case Respond(m) =>
      MovedTimers(c.timers, c.state, Completed);
    case Incoming(m) =>
    case Timeout(t) =>
      if t in c.timers {
        MovedTimers(c.timers - {t}, c.state, Terminated);
      }
    case Halt =>
      MovedTimers(c.timers, c.state, Terminated);
  }

  /**
   * In Trying every response is transmitted first; a status of 200 or more
   * then moves to Completed and arms timer J, and a provisional one leaves the
   * transaction in Trying.
   */
  lemma SendInTrying(c: Config, m: Message)
    requires Valid(c) && c.state == Trying
    ensures var r := Step(c, Respond(m));
      r.0.rs == Some(m) && |r.1| > 0 && r.1[0] == Transmit(m)
      && (r.0.state == Completed <==> StatusAtLeast(m, 200))
      && (!StatusAtLeast(m, 200) ==> r.0.state == Trying && r.1 == [Transmit(m)])
      && (StatusAtLeast(m, 200) ==> r.1 == [Transmit(m), Arm(J, Long)])
  {
  }

  /** In Completed every retransmitted request gets the final response again, and nothing else changes. */
  lemma ReceiveInCompleted(c: Config, m: Message)
    requires Valid(c) && c.state == Completed
    ensures Step(c, Incoming(m)) == (c, [Transmit(c.rs.value)])
  {
  }

  /** Once Completed, the stored final response never changes and no other response is sent. */
  lemma FinalResponseStays(c: Config, input: Input)
    requires Valid(c) && c.state == Completed
    ensures Step(c, input).0.rs == c.rs
    ensures forall i :: 0 <= i < |Step(c, input).1| && Step(c, input).1[i].Transmit? ==> Step(c, input).1[i].message == c.rs.value
  {
  }

  /** Timer J ends a completed transaction: J is cleared and `cleanup` runs. */
  lemma TimerJTerminates(c: Config)
    requires Valid(c) && c.state == Completed
    ensures Step(c, Timeout(J)).0 == Config(Terminated, c.rs, map[])
    ensures Step(c, Timeout(J)).1 == [Disarm(J), Cleanup]
  {
    MovedTimers(c.timers - {J}, Completed, Terminated);
  }

  // ---------------------------------------------------------------- the transaction object

  /** The object `createServerTransaction` returns, with the log of what it has done. */
  class NonInviteServer {
    var state: State
    var rs: Option<Message>
    var timers: map<Timer, nat>
    var out: seq<Effect>

    function Current(): Config
      reads this
    {
      Config(state, rs, timers)
    }

    constructor()
      ensures Current() == Initial && out == []
    {
      state, rs, timers, out := Trying, None, map[], [];
    }

    /** `sm.enter(next)`: `leave` of the current state (its timers cleared), then `enter` of the next. */
    method Enter(next: State)
      modifies this
      ensures Current() == Moved(old(Current()), next).0
      ensures out == old(out) + Moved(old(Current()), next).1
    {
      var leaving := Disarms(Owned(state));
      out, timers := out + leaving, Apply(timers, leaving);
      state := next;
      var entering := Entry(next);
      out, timers := out + entering, Apply(timers, entering);
      ApplyAppend(old(timers), leaving, entering);
    }

    /** The `send` of the returned object. */
    method Send(m: Message)
      requires Valid(Current())
      modifies this
      ensures Current() == Step(old(Current()), Respond(m)).0
      ensures out == old(out) + Step(old(Current()), Respond(m)).1
      ensures Valid(Current())
    {
      StepKeepsValid(Current(), Respond(m));
      if state == Trying {
        rs := Some(m);
        out := out + [Transmit(m)];
        if StatusAtLeast(m, 200) {
          Enter(Completed);
        }
      }
    }

    /** The `message` of the returned object. */
    method Receive(m: Message)
      requires Valid(Current())
      modifies this
      ensures Current() == Step(old(Current()), Incoming(m)).0
      ensures out == old(out) + Step(old(Current()), Incoming(m)).1
      ensures Valid(Current())
    {
      StepKeepsValid(Current(), Incoming(m));
      if state != Terminated && rs.Some? {
        out := out + [Transmit(rs.value)];
      }
    }

    /** Timer J's callback. */
    method Fire(t: Timer)
      requires Valid(Current())
      modifies this
      ensures Current() == Step(old(Current()), Timeout(t)).0
      ensures out == old(out) + Step(old(Current()), Timeout(t)).1
      ensures Valid(Current())
    {
      StepKeepsValid(Current(), Timeout(t));
      if t in timers {
        timers := timers - {t};
        Enter(Terminated);
      }
    }

    /** The `shutdown` of the returned object. */
    method Shutdown()
      requires Valid(Current())
      modifies this
      ensures Current() == Step(old(Current()), Halt).0
      ensures out == old(out) + Step(old(Current()), Halt).1
      ensures Valid(Current())
    {
      StepKeepsValid(Current(), Halt);
      Enter(Terminated);
    }
  }
}
