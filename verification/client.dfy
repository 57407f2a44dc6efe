/**
 * `createClientTransaction`: the non-INVITE client transaction of section
 * 17.1.2 of RFC 3261. It starts on the next tick after creation, sends the
 * request, retransmits it on timer E over an unreliable transport and gives
 * up on timer F. Leaving Trying clears both timers, so in Proceeding the
 * transaction waits for a final response with no timeout.
 */
module ClientTransaction {
  import opened Wrappers
  import opened SipTypes
  import opened TransactionEffects
  import Codec

  /** `Created` is the state before the first tick, when the state machine has no state yet. */
  datatype State = Created | Trying | Proceeding | Completed | Terminated

  /** What the transaction is created with: the request and whether the transport is reliable. */
  datatype Setup = Setup(rq: Message, reliable: bool)

  /** The state machine's variables: its state, whether the first tick has run, and the pending timers. */
  datatype Config = Config(state: State, started: bool, timers: map<Timer, nat>)

  /** The events: the first tick, `message(m)` from the transport, a timer firing, and `shutdown`. */
  datatype Input = Tick | Incoming(message: Message) | Timeout(timer: Timer) | Halt

  const Initial: Config := Config(Created, false, map[])

  /** `createClientTransaction` asserts that it is not given an INVITE. */
  predicate CanCreate(rq: Message) {
    rq.Request? && rq.methodName != "INVITE"
  }

  /** The timers a state's `leave` clears, in order. */
  function Owned(st: State): seq<Timer> {
    match st
    case Trying => [E, F]
    case Completed => [K]
    case _ => []
  }

  /** What a state's `enter` does. */
  function Entry(s: Setup, st: State): seq<Effect> {
    match st
    case Trying => [Transmit(s.rq)] + (if s.reliable then [] else [Arm(E, T1)]) + [Arm(F, Long)]
    case Completed => [Arm(K, T4)]
    case Terminated => [Cleanup]
    case _ => []
  }

  /** The variables after `sm.enter(to)`, and what it did: `leave`, then `enter`. */
  function Moved(s: Setup, c: Config, to: State): (r: (Config, seq<Effect>))
    ensures r.1 == Disarms(Owned(c.state)) + Entry(s, to)
    ensures r.0.state == to && r.0.started == c.started
  {
    var e := Disarms(Owned(c.state)) + Entry(s, to);
    (Config(to, c.started, Apply(c.timers, e)), e)
  }

  /** The variables of a reachable transaction: each state has exactly its own timers pending. */
  predicate Valid(s: Setup, c: Config) {
    CanCreate(s.rq)
    && (c.started ==> c.state != Created)
    && (!c.started ==> c.state == Created || c.state == Terminated)
    && match c.state
       case Trying =>
         c.timers.Keys == (if s.reliable then {F} else {E, F})
         && c.timers[F] == Long && (E in c.timers ==> IsBackoff(c.timers[E]))
       case Completed => c.timers == map[K := T4]
       case _ => c.timers == map[]
  }

  /** The first tick: `sm.enter(trying)`. */
  function OnStart(s: Setup, c: Config): (r: (Config, seq<Effect>)) {
    if c.started then (c, [])
    else
      var n := Moved(s, c, Trying);
      (n.0.(started := true), n.1)
  }

  /** A response moves Trying and Proceeding on; the transaction user is told last. */
  function OnReceive(s: Setup, c: Config, m: Message): (r: (Config, seq<Effect>)) {
    match c.state
    case Trying =>
      var n := Moved(s, c, if StatusAtLeast(m, 200) then Completed else Proceeding);
      (n.0, n.1 + [ToUser(m)])
    case Proceeding =>
      if StatusAtLeast(m, 200) then
        var n := Moved(s, c, Completed);
        (n.0, n.1 + [ToUser(m)])
      else (c, [ToUser(m)])
    case _ => (c, [])
  }

  /** A pending timer fires: E retransmits and doubles, F times out with a 408, K ends the transaction. */
  function OnFire(s: Setup, c: Config, t: Timer): (r: (Config, seq<Effect>)) {
    if t !in c.timers then (c, [])
    else
      var d := c.timers[t];
      var c' := c.(timers := c.timers - {t});
      if t == E then (c'.(timers := c'.timers[E := 2 * d]), [Transmit(s.rq), Arm(E, 2 * d)])
      else if t == F then
        var n := Moved(s, c', Terminated);
        (n.0, [ToUser(Codec.MakeResponse(s.rq, 408, "", [], ""))] + n.1)
      else Moved(s, c', Terminated)
  }

  /** One event: the variables afterwards and what the transaction did, in order. */
  function Step(s: Setup, c: Config, input: Input): (r: (Config, seq<Effect>))
    ensures input.Halt? ==> r.0.state == Terminated
  {
    match input
    case Tick => OnStart(s, c)
    case Incoming(m) => OnReceive(s, c, m)
    case Timeout(t) => OnFire(s, c, t)
    case Halt => Moved(s, c, Terminated)
  }

  // ---------------------------------------------------------------- properties

  /** The timers a state's `enter` leaves pending, when its `leave` is all that ran before. */
  function EntryTimers(s: Setup, st: State): map<Timer, nat> {
    match st
    case Trying => if s.reliable then map[F := Long] else map[E := T1][F := Long]
    case Completed => map[K := T4]
    case _ => map[]
  }

  lemma MovedTimers(s: Setup, timers: map<Timer, nat>, from: State, to: State)
    requires forall x :: x in timers ==> x in Owned(from)
    ensures Apply(timers, Disarms(Owned(from)) + Entry(s, to)) == EntryTimers(s, to)
  {
    var entry := Entry(s, to);
    ClearAll(timers, Owned(from), entry);
    match to
    case Trying =>
      ApplyAppend(map[], [Transmit(s.rq)], entry[1..]);
      assert entry == [Transmit(s.rq)] + entry[1..];
      NoTimerEffects(map[], [Transmit(s.rq)]);
      if s.reliable {
        assert entry[1..] == [Arm(F, Long)];
      } else {
        assert entry[1..] == [Arm(E, T1), Arm(F, Long)];
        ArmTwo(E, T1, F, Long);
      }
    case Terminated => NoTimerEffects(map[], [Cleanup]);
    case _ =>
  }

  /** Every event keeps the variables those of a reachable transaction. */
  lemma StepKeepsValid(s: Setup, c: Config, input: Input)
    requires Valid(s, c)
    ensures Valid(s, Step(s, c, input).0)
  {
    match input
    case Tick =>
      MovedTimers(s, c.timers, c.state, Trying);
    case Incoming(m) =>
      MovedTimers(s, c.timers, c.state, Completed);
      MovedTimers(s, c.timers, c.state, Proceeding);
    case Timeout(t) =>
      if t == E && t in c.timers {
        DoubleIsBackoff(c.timers[E]);
      } else if t in c.timers {
        MovedTimers(s, c.timers - {t}, c.state, Terminated);
      }
    case Halt =>
      MovedTimers(s, c.timers, c.state, Terminated);
  }

  /** The first tick sends the request, arms timer E only over an unreliable transport, and arms timer F. */
  lemma StartSendsRequest(s: Setup)
    requires CanCreate(s.rq)
    ensures var r := Step(s, Initial, Tick);
      r.0.state == Trying && r.0.started
      && r.1 == [Transmit(s.rq)] + (if s.reliable then [] else [Arm(E, T1)]) + [Arm(F, Long)]
  {
  }

  /**
   * In Trying a final response moves to Completed (timer K armed) and any
   * other to Proceeding; timers E and F are cleared either way, and the
   * response reaches the transaction user after the state has changed.
   */
  lemma ReceiveInTrying(s: Setup, c: Config, m: Message)
    requires Valid(s, c) && c.state == Trying
    ensures var r := Step(s, c, Incoming(m));
      if StatusAtLeast(m, 200) then r.0.state == Completed && r.1 == [Disarm(E), Disarm(F), Arm(K, T4), ToUser(m)]
      else r.0.state == Proceeding && r.1 == [Disarm(E), Disarm(F), ToUser(m)]
  {
  }

  /**
   * Proceeding has no timer pending, so no timer event changes anything:
   * only a final response or `shutdown` ends the wait.
   */
  lemma ProceedingNeverTimesOut(s: Setup, c: Config, t: Timer)
    requires Valid(s, c) && c.state == Proceeding
    ensures c.timers == map[]
    ensures Step(s, c, Timeout(t)) == (c, [])
  {
  }

  /** Completed has no `message` handler: retransmitted responses are absorbed. */
  lemma CompletedAbsorbsResponses(s: Setup, c: Config, m: Message)
    requires Valid(s, c) && c.state == Completed
    ensures Step(s, c, Incoming(m)) == (c, [])
  {
  }

  /** Timer E retransmits the request and re-arms itself at twice its interval. */
  lemma TimerEDoubles(s: Setup, c: Config)
    requires Valid(s, c) && c.state == Trying && !s.reliable
    ensures var d := c.timers[E];
      Step(s, c, Timeout(E)).0.timers[E] == 2 * d
      && Step(s, c, Timeout(E)).1 == [Transmit(s.rq), Arm(E, 2 * d)]
  {
  }

  /** Timer F gives the transaction user a 408 made from the request, then ends the transaction. */
  lemma TimerFTimesOut(s: Setup, c: Config)
    requires Valid(s, c) && c.state == Trying
    ensures Step(s, c, Timeout(F)).0.state == Terminated && Step(s, c, Timeout(F)).0.timers == map[]
    ensures Step(s, c, Timeout(F)).1 == [ToUser(Codec.MakeResponse(s.rq, 408, "", [], "")), Disarm(E), Disarm(F), Cleanup]
  {
    MovedTimers(s, c.timers - {F}, Trying, Terminated);
  }

  // ---------------------------------------------------------------- the transaction object

  /** The object `createClientTransaction` returns, with the log of what it has done. */
  class NonInviteClient {
    const setup: Setup
    var state: State
    var started: bool
    var timers: map<Timer, nat>
    var out: seq<Effect>

    function Current(): Config
      reads this
    {
      Config(state, started, timers)
    }

    constructor(rq: Message, reliable: bool)
      requires CanCreate(rq)
      ensures setup == Setup(rq, reliable)
      ensures Current() == Initial && out == [] && Valid(setup, Current())
    {
      setup := Setup(rq, reliable);
      state, started, timers, out := Created, false, map[], [];
    }

    /** `sm.enter(next)`: `leave` of the current state (its timers cleared), then `enter` of the next. */
    method Enter(next: State)
      modifies this
      ensures Current() == Moved(setup, old(Current()), next).0
      ensures out == old(out) + Moved(setup, old(Current()), next).1
    {
      var leaving := Disarms(Owned(state));
      out, timers := out + leaving, Apply(timers, leaving);
      state := next;
      var entering := Entry(setup, next);
      out, timers := out + entering, Apply(timers, entering);
      ApplyAppend(old(timers), leaving, entering);
    }

    /** The `process.nextTick` callback. */
    method Start()
      requires Valid(setup, Current())
      modifies this
      ensures Current() == Step(setup, old(Current()), Tick).0
      ensures out == old(out) + Step(setup, old(Current()), Tick).1
      ensures Valid(setup, Current())
    {
      StepKeepsValid(setup, Current(), Tick);
      if !started {
        Enter(Trying);
        started := true;
      }
    }

    /** The `message` of the returned object. */
    method Receive(m: Message)
      requires Valid(setup, Current())
      modifies this
      ensures Current() == Step(setup, old(Current()), Incoming(m)).0
      ensures out == old(out) + Step(setup, old(Current()), Incoming(m)).1
      ensures Valid(setup, Current())
    {
      StepKeepsValid(setup, Current(), Incoming(m));
      if state == Trying {
        if StatusAtLeast(m, 200) {
          Enter(Completed);
        } else {
          Enter(Proceeding);
        }
        out := out + [ToUser(m)];
      } else if state == Proceeding {
        if StatusAtLeast(m, 200) {
          Enter(Completed);
        }
        out := out + [ToUser(m)];
      }
    }

    /** A pending timer's callback: `timerE` and `timerF` are signals of Trying, K enters Terminated. */
    method Fire(t: Timer)
      requires Valid(setup, Current())
      modifies this
      ensures Current() == Step(setup, old(Current()), Timeout(t)).0
      ensures out == old(out) + Step(setup, old(Current()), Timeout(t)).1
      ensures Valid(setup, Current())
    {
      StepKeepsValid(setup, Current(), Timeout(t));
      if t in timers {
        var d := timers[t];
        timers := timers - {t};
        if t == E {
          out := out + [Transmit(setup.rq)];
          timers := timers[E := 2 * d];
          out := out + [Arm(E, 2 * d)];
        } else {
          if t == F {
            out := out + [ToUser(Codec.MakeResponse(setup.rq, 408, "", [], ""))];
          }
          Enter(Terminated);
        }
      }
    }

    /** The `shutdown` of the returned object. */
    method Shutdown()
      requires Valid(setup, Current())
      modifies this
      ensures Current() == Step(setup, old(Current()), Halt).0
      ensures out == old(out) + Step(setup, old(Current()), Halt).1
      ensures Valid(setup, Current())
    {
      StepKeepsValid(setup, Current(), Halt);
      Enter(Terminated);
    }
  }
}
