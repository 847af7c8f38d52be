// How fast a machine can change state (aagent/machine/machine.go, backoffTransition and backoffFunc), over all
// interleavings of transitions with the quiet period timer.
module RateLimit {
  import opened Backoff
  import Runs

  /** The quiet period in milliseconds. */
  const Quiet: int := 60000

  /** The timer is created by the first transition ever; an expired or stopped one stays until it is reset. */
  datatype Timer = Nil | Idle | Due(at: int)

  /**
   * The clock, when the lock of the machine was last released, the timer, how many of its callbacks are waiting for
   * the lock, the transition counter, and the times of the transitions since the counter was last reset. Two facts
   * about the last of these transitions are remembered: whether it (re)started the timer, and whether the timer has
   * expired since.
   */
  datatype State = State(
    clock: int, freed: int, timer: Timer, waiting: nat, counter: nat, since: seq<int>, restarted: bool, expired: bool)

  datatype Event =
    | Admit(at: int, draw: nat)   // a transition done at `at`, after a sleep with that random draw
    | Interrupt(at: int)          // the sleep before a transition was interrupted
    | Expire(at: int)             // the timer expired and its callback waits for the lock
    | Reset(at: int)              // the callback ran
    | Halt(at: int)               // the machine was stopped or deleted

  predicate Init(s: State) {
    s.timer.Nil? && s.waiting == 0 && s.counter == 0 && s.since == [] && s.freed <= s.clock
    && !s.restarted && !s.expired
  }

  /** The sleep before a transition; the first one after a reset has none. */
  function Sleep(counter: nat, draw: nat): nat
    requires IsDraw(FiveSecStartGrace, counter, draw)
  {
    if counter > 0 then Duration(FiveSecStartGrace, counter, draw) else 0
  }

  predicate Next(s: State, e: Event, s': State) {
    && e.at >= s.clock
    && match e
       case Admit(at, draw) =>
         && IsDraw(FiveSecStartGrace, s.counter, draw) && at >= s.freed + Sleep(s.counter, draw)
         && s' == s.(clock := at, freed := at, counter := s.counter + 1, since := s.since + [at],
                     timer := if s.counter > 0 || s.timer.Nil? then Due(at + Quiet) else s.timer,
                     restarted := s.counter > 0 || s.timer.Nil?, expired := false)
       case Interrupt(at) =>
         s.counter > 0 && s' == s.(clock := at, freed := at)
       case Expire(at) =>
         && s.timer.Due? && at >= s.timer.at
         && s' == s.(clock := at, timer := Idle, waiting := s.waiting + 1, expired := true)
       case Reset(at) =>
         && s.waiting > 0
         && s' == State(at, at, Due(at + Quiet), s.waiting - 1, 0, [], false, false)
       case Halt(at) =>
         s' == s.(clock := at, freed := at, timer := if s.timer.Nil? then Nil else Idle)
  }

  ghost predicate Reachable(s: State) {
    exists states, events :: Reaches(states, events, s)
  }

  ghost predicate Reaches(states: seq<State>, events: seq<Event>, s: State) {
    Runs.IsRun(Init, Next, states, events) && states[|states| - 1] == s
  }

  lemma ReachableStart(s: State)
    requires Init(s)
    ensures Reachable(s)
  {
    assert Reaches([s], [], s);
  }

  lemma ReachableStep(s: State, e: Event, s': State)
    requires Reachable(s) && Next(s, e, s')
    ensures Reachable(s')
  {
    var states, events :| Reaches(states, events, s);
    assert Reaches(states + [s'], events + [e], s');
  }

  // ---------------------------------------------------------------------------------------------------------
  // The limit

  /** The least sleep before the n'th transition after the first. */
  function LeastSleep(n: nat): nat {
    Millis(FiveSecStartGrace, n) / 2
  }

  /** The sum of the least sleeps before the second to the n'th transition after the first. */
  function LeastDelay(n: nat): nat {
    if n == 0 then 0 else LeastDelay(n - 1) + LeastSleep(n)
  }

  /** The least sleeps rise with every transition until, from the 19th on, they stay at 2.5 seconds. */
  lemma LeastSleepsRise(n: nat)
    ensures LeastSleep(n) ==
      if n <= 6 then 25 * n / 2 else if n == 7 then 100 else if n == 8 then 125
      else if n <= 11 then 125 * (n - 7) else if n <= 19 then 250 * (n - 9) else 2500
    ensures if n < 19 then LeastSleep(n) < LeastSleep(n + 1) else LeastSleep(n) == LeastSleep(n + 1) == 2500
  {
    StartGraceRises(n);
    StartGraceRises(n + 1);
  }

  lemma SleepAtLeast(counter: nat, draw: nat)
    requires IsDraw(FiveSecStartGrace, counter, draw) && counter > 0
    ensures Sleep(counter, draw) >= LeastSleep(counter)
  {
  }

  ghost predicate Spaced(since: seq<int>) {
    forall k :: 0 < k < |since| ==> since[k] - since[k - 1] >= LeastSleep(k)
  }

  /** A timer that the last transition (re)started runs, or ran, a full quiet period from then. */
  ghost predicate TimerKept(s: State) {
    s.restarted ==>
      && s.since != []
      && (s.timer.Due? ==> s.timer.at >= s.since[|s.since| - 1] + Quiet)
      && (s.expired ==> s.clock >= s.since[|s.since| - 1] + Quiet)
  }

  ghost predicate Kept(s: State) {
    && s.freed <= s.clock && |s.since| == s.counter && Spaced(s.since)
    && (s.since != [] ==> s.since[|s.since| - 1] <= s.freed)
    && TimerKept(s) && (s.counter >= 2 ==> s.restarted)
    && (s.timer.Nil? ==> s.counter == 0)
  }

  lemma AdmitKeeps(s: State, at: int, draw: nat, s': State)
    requires Kept(s) && Next(s, Admit(at, draw), s')
    ensures Kept(s')
  {
    if s.counter > 0 {
      SleepAtLeast(s.counter, draw);
    }
  }

  lemma NextKeeps(s: State, e: Event, s': State)
    requires Kept(s) && Next(s, e, s')
    ensures Kept(s')
  {
    match e
    case Admit(at, draw) => AdmitKeeps(s, at, draw, s');
    case _ =>
  }

  lemma ReachableKept(s: State)
    requires Reachable(s)
    ensures Kept(s)
  {
    var states, events :| Reaches(states, events, s);
    forall a, e, b | Kept(a) && Next(a, e, b) ensures Kept(b) {
      NextKeeps(a, e, b);
    }
    Runs.Always(Init, Next, Kept, states, events, |states| - 1);
  }

  lemma {:induction false} SpacedDelay(since: seq<int>, n: nat)
    requires Spaced(since) && n < |since|
    ensures since[n] - since[0] >= LeastDelay(n)
  {
    if n > 0 {
      SpacedDelay(since, n - 1);
    }
  }

  /** Between two resets the n'th transition after the first is done at least the sum of the least sleeps later. */
  lemma TransitionsAreRateLimited(s: State, n: nat)
    requires Reachable(s) && n < |s.since|
    ensures s.since[n] - s.since[0] >= LeastDelay(n)
    ensures n > 19 ==> s.since[n] - s.since[n - 1] >= 2500
  {
    ReachableKept(s);
    SpacedDelay(s.since, n);
  }

  /** Once the policy is saturated, every further transition costs at least 2.5 seconds. */
  lemma {:induction false} LeastDelaySaturated(n: nat)
    requires n >= 19
    ensures LeastDelay(n) == 14611 + 2500 * (n - 19)
  {
    if n == 19 {
      assert LeastDelay(6) == 261;
      assert LeastDelay(12) == 2361;
      assert LeastDelay(15) == 6111;
    } else {
      LeastDelaySaturated(n - 1);
    }
  }

  // ---------------------------------------------------------------------------------------------------------
  // The limit is reached

  /** The times of transitions that sleep as little as they can. */
  function Fastest(n: nat): (since: seq<int>)
    ensures |since| == n
    ensures n > 0 ==> since[0] == 0 && since[n - 1] == LeastDelay(n - 1)
  {
    if n == 0 then [] else Fastest(n - 1) + [LeastDelay(n - 1)]
  }

  lemma {:induction false} FastestReachable(n: nat) returns (s: State)
    requires n > 0
    ensures Reachable(s) && s.since == Fastest(n) && s.counter == n && s.clock == s.freed == LeastDelay(n - 1)
    ensures s.timer == Due(LeastDelay(n - 1) + Quiet) && s.restarted && !s.expired
  {
    if n == 1 {
      var start := State(0, 0, Nil, 0, 0, [], false, false);
      ReachableStart(start);
      s := State(0, 0, Due(Quiet), 0, 1, [0], true, false);
      assert Fastest(0) == [];
      ReachableStep(start, Admit(0, 0), s);
    } else {
      var before := FastestReachable(n - 1);
      var at := LeastDelay(n - 1);
      s := before.(clock := at, freed := at, counter := n, since := before.since + [at], timer := Due(at + Quiet));
      ReachableStep(before, Admit(at, 0), s);
    }
  }

  /** The n'th transition can come exactly so long after the first as the sum of the least sleeps, or longer. */
  lemma DelaysExactly(n: nat, delay: int)
    requires n > 0
    ensures (exists s :: Reachable(s) && n < |s.since| && s.since[n] - s.since[0] == delay) <==> delay >= LeastDelay(n)
  {
    if delay >= LeastDelay(n) {
      var before := FastestReachable(n);
      var s := before.(clock := delay, freed := delay, counter := n + 1, since := before.since + [delay],
                       timer := Due(delay + Quiet));
      ReachableStep(before, Admit(delay, 0), s);
      assert s.since[n] - s.since[0] == delay;
    }
    forall s | Reachable(s) && n < |s.since| ensures s.since[n] - s.since[0] >= LeastDelay(n) {
      TransitionsAreRateLimited(s, n);
    }
  }

  /**
   * The source promises one transition every 5 seconds; a saturated machine can do two 2.5 seconds apart. The sleep is
   * 5 seconds or more exactly for the random draws of 2500 and more.
   */
  lemma FiveSecondsExactly(counter: nat, draw: nat)
    requires counter >= 19 && draw < 5000
    ensures Sleep(counter, draw) >= 5000 <==> draw >= 2500
    ensures exists s :: Reachable(s) && |s.since| == counter + 1 && s.since[counter] - s.since[counter - 1] == 2500
  {
    var s := FastestReachable(counter + 1);
    var before := Fastest(counter);
    assert s.since == before + [LeastDelay(counter)];
    assert s.since[counter - 1] == LeastDelay(counter - 1);
  }

  // ---------------------------------------------------------------------------------------------------------
  // The quiet period

  /** From the second transition after a reset on the timer expires only a full quiet period after the last one. */
  lemma ExpiresAfterQuiet(s: State, at: int, s': State)
    requires Reachable(s) && Next(s, Expire(at), s') && s.counter >= 2
    ensures |s.since| >= 2 && at >= s.since[|s.since| - 1] + Quiet
  {
    ReachableKept(s);
  }

  /** The timer was (re)started by the last transition, and what waits includes its expiry after that. */
  predicate Assured(s: State) {
    s.restarted && s.expired
  }

  lemma AssuredResetIsQuiet(s: State, at: int, s': State)
    requires Reachable(s) && Assured(s) && Next(s, Reset(at), s')
    ensures |s.since| == s.counter > 0 && at >= s.since[s.counter - 1] + Quiet
  {
    ReachableKept(s);
  }

  /** The timer of the n'th transition has expired, and its callback waits while the next transition sleeps. */
  lemma ExpiredWhileSleeping(n: nat) returns (s: State)
    requires n > 0
    ensures Reachable(s) && s.counter == n + 1 && |s.since| == n + 1 && s.waiting > 0 && !Assured(s)
    ensures s.clock == s.since[n]
  {
    var before := FastestReachable(n);
    var at := LeastDelay(n - 1) + Quiet;
    var late := before.(clock := at, timer := Idle, waiting := before.waiting + 1, expired := true);
    ReachableStep(before, Expire(at), late);
    QuietOutlastsSleep(n);
    s := late.(freed := at, counter := n + 1, since := late.since + [at], timer := Due(at + Quiet), restarted := true,
               expired := false);
    ReachableStep(late, Admit(at, 0), s);
  }

  lemma QuietOutlastsSleep(n: nat)
    requires n > 0
    ensures IsDraw(FiveSecStartGrace, n, 0) && Sleep(n, 0) <= Quiet
  {
  }

  /** A callback waits when the first transition after a reset is done. */
  lemma ExpiredBeforeFirst() returns (s: State)
    ensures Reachable(s) && s.counter == 1 && |s.since| == 1 && s.waiting > 0 && !Assured(s) && s.clock == s.since[0]
  {
    var idle := AfterOneReset();
    var late := idle.(clock := 120000, timer := Idle, waiting := 1, expired := true);
    ReachableStep(idle, Expire(120000), late);
    s := late.(freed := 120000, counter := 1, since := [120000], expired := false);
    assert [] + [120000] == [120000];
    ReachableStep(late, Admit(120000, 0), s);
  }

  /** One transition at 0, and the reset a quiet period later. */
  lemma AfterOneReset() returns (s: State)
    ensures Reachable(s) && s == State(60000, 60000, Due(120000), 0, 0, [], false, false)
  {
    var s0 := State(0, 0, Nil, 0, 0, [], false, false);
    ReachableStart(s0);
    var s1 := State(0, 0, Due(60000), 0, 1, [0], true, false);
    ReachableStep(s0, Admit(0, 0), s1);
    var s2 := s1.(clock := 60000, timer := Idle, waiting := 1, expired := true);
    ReachableStep(s1, Expire(60000), s2);
    s := State(60000, 60000, Due(120000), 0, 0, [], false, false);
    ReachableStep(s2, Reset(60000), s);
  }

  /**
   * When the counter is reset a full quiet period after the last transition for sure: for any number of transitions
   * since the last reset, exactly if the last one (re)started the timer and the timer expired after it. A callback
   * that expired before, while the last transition waited or slept, resets right after it.
   */
  lemma QuietResetsExactly(n: nat, assured: bool)
    requires n > 0
    ensures (forall s, at, s' ::
               Reachable(s) && s.counter == n && |s.since| == n && Assured(s) == assured && Next(s, Reset(at), s') ==>
               at >= s.since[n - 1] + Quiet) <==> assured
  {
    if assured {
      forall s, at, s' |
        Reachable(s) && s.counter == n && |s.since| == n && Assured(s) == assured && Next(s, Reset(at), s')
        ensures at >= s.since[n - 1] + Quiet
      {
        AssuredResetIsQuiet(s, at, s');
      }
    } else {
      var s;
      if n == 1 {
        s := ExpiredBeforeFirst();
      } else {
        s := ExpiredWhileSleeping(n - 1);
      }
      var at := s.clock;
      var s' := State(at, at, Due(at + Quiet), s.waiting - 1, 0, [], false, false);
      assert Next(s, Reset(at), s') && !(at >= s.since[n - 1] + Quiet);
    }
  }

  /**
   * The first transition after a reset does not restart the timer: the counter can be reset any time after it, even
   * in the same millisecond.
   */
  lemma FirstTransitionNeedsNoQuiet(delay: nat)
    requires delay <= Quiet
    ensures exists s, s', at ::
      Reachable(s) && s.counter == 1 && |s.since| == 1 && Next(s, Reset(at), s') && at - s.since[0] == delay
  {
    var s3 := AfterOneReset();
    var first := 120000 - delay;
    var s4 := s3.(clock := first, freed := first, counter := 1, since := [first]);
    assert [] + [first] == [first];
    ReachableStep(s3, Admit(first, 0), s4);
    var s5 := s4.(clock := 120000, timer := Idle, waiting := 1, expired := true);
    ReachableStep(s4, Expire(120000), s5);
    var s6 := State(120000, 120000, Due(180000), 0, 0, [], false, false);
    assert Next(s5, Reset(120000), s6);
  }
}
