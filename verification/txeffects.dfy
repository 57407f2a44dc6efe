/**
 * What a transaction does to the world, as a log. The four transaction state
 * machines talk to the transport (`transport(m)`), to the transaction user
 * (`tu(m)`), to the timer queue (`setTimeout` / `clearTimeout`) and, once, to
 * the layer that owns them (`cleanup()`). Timers are named as in section 17 of
 * RFC 3261 and carry their delay in milliseconds; a timer firing is an input
 * event of the state machine.
 */
module TransactionEffects {
  import opened SipTypes

  datatype Timer = A | B | D | E | F | G | H | I | J | K | L | M

  /** The first retransmission interval of timers A, E and G. */
  const T1: nat := 500
  /** The delay of the transaction timeouts B, D, F, H, J, L and M. */
  const Long: nat := 32000
  /** The delay of timers I and K. */
  const T4: nat := 5000

  datatype Effect =
    | Transmit(message: Message)
    | ToUser(message: Message)
    | Arm(timer: Timer, delay: nat)
    | Disarm(timer: Timer)
    | Cleanup

  /** The timers pending, and their delays, after the effects `e`. */
  function Apply(timers: map<Timer, nat>, e: seq<Effect>): (r: map<Timer, nat>)
    decreases |e|
  {
    if e == [] then timers else Apply(ApplyOne(timers, e[0]), e[1..])
  }

  /** `setTimeout` arms a timer, `clearTimeout` removes it; other effects leave the timers alone. */
  function ApplyOne(timers: map<Timer, nat>, e: Effect): (r: map<Timer, nat>)
    ensures e.Arm? ==> r == timers[e.timer := e.delay]
    ensures e.Disarm? ==> r == timers - {e.timer}
    ensures !e.Arm? && !e.Disarm? ==> r == timers
  {
    match e
    case Arm(x, d) => timers[x := d]
    case Disarm(x) => timers - {x}
    case _ => timers
  }

  lemma {:induction false} ApplyAppend(timers: map<Timer, nat>, e1: seq<Effect>, e2: seq<Effect>)
    ensures Apply(timers, e1 + e2) == Apply(Apply(timers, e1), e2)
    decreases |e1|
  {
    if e1 != [] {
      assert (e1 + e2)[0] == e1[0] && (e1 + e2)[1..] == e1[1..] + e2;
      ApplyAppend(ApplyOne(timers, e1[0]), e1[1..], e2);
    } else {
      assert e1 + e2 == e2;
    }
  }

  /** The `clearTimeout` calls of a state's `leave`, in order. */
  function Disarms(ts: seq<Timer>): (r: seq<Effect>)
    ensures |r| == |ts| && forall i :: 0 <= i < |ts| ==> r[i] == Disarm(ts[i])
  {
    if ts == [] then [] else [Disarm(ts[0])] + Disarms(ts[1..])
  }

  /** Clearing timers leaves exactly the others pending, with their delays. */
  lemma {:induction false} DisarmsClear(timers: map<Timer, nat>, ts: seq<Timer>)
    ensures Apply(timers, Disarms(ts)) == map x | x in timers && x !in ts :: timers[x]
    decreases |ts|
  {
    if ts != [] {
      DisarmsClear(timers - {ts[0]}, ts[1..]);
    }
  }

  /** A retransmission interval: T1 doubled `k` times. */
  function Backoff(k: nat): (d: nat)
    ensures d >= T1
  {
    if k == 0 then T1 else 2 * Backoff(k - 1)
  }

  /**
   * The retransmission interval is never capped: it grows at least linearly,
   * and from the fourth doubling on it is above the four seconds (T2) that
   * RFC 3261 caps timers E and G at.
   */
  lemma {:induction false} BackoffUncapped(k: nat)
    ensures Backoff(k) >= T1 * (k + 1)
    ensures k >= 4 ==> Backoff(k) > 4000
  {
    if k > 0 {
      BackoffUncapped(k - 1);
    }
  }

  /** How many times the log hands `m` to the transport. */
  function Transmissions(e: seq<Effect>): (r: nat)
    ensures r <= |e|
  {
    if e == [] then 0 else (if e[0].Transmit? then 1 else 0) + Transmissions(e[1..])
  }

  /** How many times the log runs `cleanup`. */
  function Cleanups(e: seq<Effect>): (r: nat)
    ensures r <= |e|
  {
    if e == [] then 0 else (if e[0].Cleanup? then 1 else 0) + Cleanups(e[1..])
  }

  /** A delay that is T1 doubled some number of times. */
  predicate IsBackoff(d: nat)
    decreases d
  {
    d == T1 || (d > T1 && d % 2 == 0 && IsBackoff(d / 2))
  }

  lemma {:induction false} BackoffIsBackoff(k: nat)
    ensures IsBackoff(Backoff(k))
  {
    if k > 0 {
      BackoffIsBackoff(k - 1);
    }
  }

  /** Doubling a retransmission interval gives one. */
  lemma DoubleIsBackoff(d: nat)
    requires IsBackoff(d)
    ensures IsBackoff(2 * d)
  {
    assert (2 * d) / 2 == d;
  }

  /** Leaving a state whose timers are all among `ts` clears every timer before the next state's `enter`. */
  lemma ClearAll(timers: map<Timer, nat>, ts: seq<Timer>, entry: seq<Effect>)
    requires forall x :: x in timers ==> x in ts
    ensures Apply(timers, Disarms(ts) + entry) == Apply(map[], entry)
  {
    ApplyAppend(timers, Disarms(ts), entry);
    DisarmsClear(timers, ts);
    assert Apply(timers, Disarms(ts)) == map[];
  }

  /** Arming one timer, then a second, from none. */
  lemma ArmTwo(x: Timer, dx: nat, y: Timer, dy: nat)
    ensures Apply(map[], [Arm(x, dx), Arm(y, dy)]) == map[x := dx][y := dy]
  {
    var e := [Arm(x, dx), Arm(y, dy)];
    assert e[1..] == [Arm(y, dy)] && e[1..][1..] == [];
    assert Apply(map[], e) == Apply(map[x := dx], e[1..]);
    assert Apply(map[x := dx], e[1..]) == Apply(map[x := dx][y := dy], []);
  }

  /** An effect list with no timer in it. */
  lemma NoTimerEffects(timers: map<Timer, nat>, e: seq<Effect>)
    requires forall i :: 0 <= i < |e| ==> !e[i].Arm? && !e[i].Disarm?
    ensures Apply(timers, e) == timers
    decreases |e|
  {
    if e != [] {
      NoTimerEffects(timers, e[1..]);
    }
  }
}
