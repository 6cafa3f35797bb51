/** The restart machine of one managed process: failure count, permanent failure and capped exponential backoff. */
module ProcessRestart {
  import opened Prelude

  const MAX_BACKOFF := 60.0

  /** `max_restarts` and `restart_delay` of the server; nothing keeps the first from being zero or negative. */
  datatype Config = Config(maxRestarts: int, baseDelay: real)
  {
    predicate Valid() { baseDelay >= 0.0 }

    function Attempts(): nat { if maxRestarts > 0 then maxRestarts else 0 }
  }

  /**
   `slept` is the backoff of the current streak of failures; `recovered` is that of the last streak that ended in a
   reconnect, the sleep before the reconnect included.
   */
  datatype State = State(failures: nat, permanent: bool, busy: bool, restarts: nat, slept: real, recovered: real)

  /** `min(base_delay * (2**failures), 60)` */
  function Delay(c: Config, failures: nat): real {
    var d := c.baseDelay * Pow2(failures) as real;
    if d <= MAX_BACKOFF then d else MAX_BACKOFF
  }

  /** What one turn of the health loop meets: the probe's answer, and how a reconnect would end. */
  datatype Event = Healthy | Unhealthy(reconnects: bool)

  /** One health check of one process, with the restart attempt it may make, run to its end. */
  function Checked(c: Config, s: State, e: Event): State {
    if s.permanent || s.busy || e.Healthy? then s
    else if s.failures >= c.maxRestarts then s.(permanent := true)
    else if e.reconnects then s.(failures := 0, restarts := s.restarts + 1, slept := 0.0, recovered := s.slept + Delay(c, s.failures))
    else s.(failures := s.failures + 1, slept := s.slept + Delay(c, s.failures))
  }

  /** `start_all` counts a failed first connect as one failure. */
  function Initial(connected: bool): nat {
    if connected then 0 else 1
  }

  function Started(connected: bool): State {
    State(Initial(connected), false, false, 0, 0.0, 0.0)
  }

  /** The limit, unless the first connect alone exceeds it. */
  function Limit(c: Config, connected: bool): nat {
    if c.Attempts() >= Initial(connected) then c.Attempts() else Initial(connected)
  }

  /** `ProcessStatus` and the two methods that change it. */
  class Process {
    const config: Config
    var consecutiveFailures: nat
    var permanentlyFailed: bool
    var restartInProgress: bool
    var totalRestarts: nat
    ghost const connected: bool
    ghost var slept: real
    ghost var recovered: real

    ghost function View(): State
      reads this
    {
      State(consecutiveFailures, permanentlyFailed, restartInProgress, totalRestarts, slept, recovered)
    }

    ghost predicate Valid()
      reads this
    {
      config.Valid() && Inv(config, connected, View())
    }

    /** Registration followed by `start_all`. */
    constructor (config: Config, connected: bool)
      requires config.Valid()
      ensures Valid() && this.config == config && this.connected == connected && View() == Started(connected)
    {
      this.config, this.connected := config, connected;
      consecutiveFailures := if connected then 0 else 1;
      permanentlyFailed, restartInProgress, totalRestarts, slept, recovered := false, false, 0, 0.0, 0.0;
      new;
      StartIsOk(config, connected);
    }

    /** The loop body of `_health_loop` for this process. */
    method Check(healthy: bool, reconnects: bool)
      requires Valid()
      modifies this
      ensures Valid() && View() == Checked(config, old(View()), if healthy then Healthy else Unhealthy(reconnects))
    {
      CheckKeeps(config, connected, View(), if healthy then Healthy else Unhealthy(reconnects));
      if permanentlyFailed || restartInProgress {
        return;
      }
      if !healthy {
        TryRestart(reconnects);
      }
    }

    method TryRestart(reconnects: bool)
      requires !permanentlyFailed && !restartInProgress
      modifies this
      ensures View() == Checked(config, old(View()), Unhealthy(reconnects))
    {
      if consecutiveFailures >= config.maxRestarts {
        permanentlyFailed := true;
        return;
      }
      restartInProgress := true;
      var delay := config.baseDelay * Pow2(consecutiveFailures) as real;
      if delay > MAX_BACKOFF {
        delay := MAX_BACKOFF;
      }
      slept := slept + delay;
      if reconnects {
        consecutiveFailures := 0;
        totalRestarts := totalRestarts + 1;
        slept, recovered := 0.0, slept;
      } else {
        consecutiveFailures := consecutiveFailures + 1;
      }
      restartInProgress := false;
    }
  }

  // ------------------------------------------------------------------
  // Bounds
  // ------------------------------------------------------------------

  /** The two bounds on the sleep of a streak of `n` failures. */
  predicate Bounded(c: Config, n: nat, slept: real) {
    && 0.0 <= slept <= c.baseDelay * (Pow2(n) - 1) as real
    && slept <= MAX_BACKOFF * n as real
  }

  /** What the backoff of any one streak keeps to. */
  predicate WithinLimits(c: Config, slept: real) {
    && 0.0 <= slept <= c.baseDelay * (Pow2(c.Attempts()) - 1) as real
    && slept <= MAX_BACKOFF * c.Attempts() as real
  }

  predicate Inv(c: Config, connected: bool, s: State) {
    && s.failures <= Limit(c, connected)
    && (s.permanent ==> s.failures >= c.maxRestarts)
    && !s.busy
    && Bounded(c, s.failures, s.slept)
    && (s.slept == 0.0 || s.failures <= c.Attempts())
    && WithinLimits(c, s.recovered)
  }

  lemma ScaleUp(factor: real, small: real, large: real)
    requires factor >= 0.0 && small <= large
    ensures factor * small <= factor * large
  {
  }

  lemma BoundsOfLimit(c: Config, n: nat, slept: real)
    requires c.Valid() && Bounded(c, n, slept) && (slept == 0.0 || n <= c.Attempts())
    ensures WithinLimits(c, slept)
  {
    var max := c.Attempts();
    Pow2Grows(0, max);
    ScaleUp(c.baseDelay, 0.0, (Pow2(max) - 1) as real);
    if n <= max {
      Pow2Grows(n, max);
      ScaleUp(c.baseDelay, (Pow2(n) - 1) as real, (Pow2(max) - 1) as real);
    }
  }

  lemma StartIsOk(c: Config, connected: bool)
    requires c.Valid()
    ensures Inv(c, connected, Started(connected))
  {
    BoundsOfLimit(c, 0, 0.0);
  }

  lemma OneMoreFailure(c: Config, n: nat, slept: real)
    requires c.Valid() && Bounded(c, n, slept)
    ensures Bounded(c, n + 1, slept + Delay(c, n))
  {
    var base, p := c.baseDelay, Pow2(n) as real;
    assert Pow2(n + 1) as real == 2.0 * p;
    assert base * (p - 1.0) + base * p == base * (2.0 * p - 1.0);
    assert base * p >= 0.0;
    assert Delay(c, n) <= base * p && Delay(c, n) >= 0.0;
  }

  lemma CheckKeeps(c: Config, connected: bool, s: State, e: Event)
    requires c.Valid() && Inv(c, connected, s)
    ensures Inv(c, connected, Checked(c, s, e))
  {
    OneMoreFailure(c, s.failures, s.slept);
    if s.failures < c.maxRestarts {
      BoundsOfLimit(c, s.failures + 1, s.slept + Delay(c, s.failures));
    }
  }

  function Run(c: Config, connected: bool, events: seq<Event>): State {
    if events == [] then Started(connected)
    else Checked(c, Run(c, connected, events[..|events| - 1]), events[|events| - 1])
  }

  lemma {:induction false} RunsKeep(c: Config, connected: bool, events: seq<Event>)
    requires c.Valid()
    ensures Inv(c, connected, Run(c, connected, events))
  {
    if events == [] {
      StartIsOk(c, connected);
    } else {
      RunsKeep(c, connected, events[..|events| - 1]);
      CheckKeeps(c, connected, Run(c, connected, events[..|events| - 1]), events[|events| - 1]);
    }
  }

  /**
   Over any run of health checks: failures stay within the limit, permanent failure means the limit was reached, and
   the backoff of a streak, whether it goes on or ended in a reconnect, is at most base * (2^max - 1) and 60 * max.
   */
  lemma FailuresAndBackoffAreBounded(c: Config, connected: bool, events: seq<Event>)
    requires c.Valid()
    ensures var s := Run(c, connected, events);
            && s.failures <= Limit(c, connected) && (s.permanent ==> s.failures >= c.maxRestarts)
            && WithinLimits(c, s.slept) && WithinLimits(c, s.recovered)
  {
    RunsKeep(c, connected, events);
    var s := Run(c, connected, events);
    BoundsOfLimit(c, s.failures, s.slept);
  }

  // ------------------------------------------------------------------
  // The backoff, exactly
  // ------------------------------------------------------------------

  /** The sleeps before attempts `from` to `to`, added up: base * 2^i before attempt i, but never more than a minute. */
  function StreakSleep(c: Config, from: nat, to: nat): real {
    if to <= from then 0.0
    else StreakSleep(c, from, to - 1)
         + (if c.baseDelay * Pow2(to - 1) as real <= 60.0 then c.baseDelay * Pow2(to - 1) as real else 60.0)
  }

  /** A first connect that failed counts as a failure of the first streak, without a sleep. */
  function FirstOf(connected: bool, s: State): nat {
    if !connected && s.restarts == 0 then 1 else 0
  }

  lemma OneMoreSleep(c: Config, from: nat, n: nat)
    requires from <= n
    ensures StreakSleep(c, from, n + 1) == StreakSleep(c, from, n) + Delay(c, n)
  {
  }

  /** The backoff of the current streak is exactly that of its attempts. */
  predicate Exact(c: Config, connected: bool, s: State) {
    !s.busy && s.failures >= FirstOf(connected, s) && s.slept == StreakSleep(c, FirstOf(connected, s), s.failures)
  }

  /**
   One check. At the limit an unhealthy process is given up. Below it one sleep is taken; a reconnect clears the failures
   and the backoff and counts one restart, and a failed one counts one failure.
   */
  lemma CheckDoes(c: Config, connected: bool, s: State, e: Event)
    requires Exact(c, connected, s)
    ensures var sleep := StreakSleep(c, FirstOf(connected, s), s.failures + 1);
            Checked(c, s, e)
            == if s.permanent || e.Healthy? then s
               else if s.failures >= c.maxRestarts then s.(permanent := true)
               else if e.reconnects then State(0, false, false, s.restarts + 1, 0.0, sleep)
               else State(s.failures + 1, false, false, s.restarts, sleep, s.recovered)
    ensures Exact(c, connected, Checked(c, s, e))
  {
    OneMoreSleep(c, FirstOf(connected, s), s.failures);
  }

  /** In every run, the backoff of the current streak is exactly that of its attempts. */
  lemma {:induction false} StreakSleepsExactly(c: Config, connected: bool, events: seq<Event>)
    ensures Exact(c, connected, Run(c, connected, events))
  {
    if events == [] {
    } else {
      StreakSleepsExactly(c, connected, events[..|events| - 1]);
      CheckDoes(c, connected, Run(c, connected, events[..|events| - 1]), events[|events| - 1]);
    }
  }

  /** The sleep before attempt `n` if it is not cut. */
  function Uncut(c: Config, n: nat): real {
    c.baseDelay * Pow2(n) as real
  }

  lemma UncutDoubles(c: Config, n: nat)
    requires c.Valid()
    ensures Uncut(c, n + 1) == Uncut(c, n) + Uncut(c, n) && Uncut(c, n) >= 0.0
  {
    assert Pow2(n + 1) as real == Pow2(n) as real + Pow2(n) as real;
    ScaleUp(c.baseDelay, 0.0, Pow2(n) as real);
  }

  /** As long as no sleep is cut at a minute, the sum is geometric: base * 2^to - base * 2^from. */
  lemma {:induction false} ShortStreaksAreGeometric(c: Config, from: nat, to: nat)
    requires c.Valid() && from <= to && (to > from ==> Uncut(c, to - 1) <= 60.0)
    ensures StreakSleep(c, from, to) == Uncut(c, to) - Uncut(c, from)
  {
    if from == to {
    } else {
      UncutDoubles(c, to - 1);
      if from < to - 1 {
        UncutDoubles(c, to - 2);
      }
      ShortStreaksAreGeometric(c, from, to - 1);
    }
  }

  /** Once a process has failed permanently, no check changes anything any more. */
  lemma {:induction false} PermanentFailureIsAbsorbing(c: Config, connected: bool, events: seq<Event>, more: seq<Event>)
    requires Run(c, connected, events).permanent
    ensures Run(c, connected, events + more) == Run(c, connected, events)
    decreases |more|
  {
    if more == [] {
      assert events + more == events;
    } else {
      var n := |more| - 1;
      PermanentFailureIsAbsorbing(c, connected, events, more[..n]);
      assert (events + more)[..|events| + n] == events + more[..n];
    }
  }

  /** Checks left before the machine gives up on a process that stays down. */
  function Measure(c: Config, s: State): nat {
    if s.permanent then 0 else if s.failures >= c.maxRestarts then 1 else c.maxRestarts - s.failures + 1
  }

  /** Every unhealthy check that does not reconnect uses the measure up, one at a time. */
  lemma UnhealthyChecksRunOut(c: Config, s: State, e: Event)
    requires !s.busy
    ensures Measure(c, s) == 0 <==> s.permanent
    ensures e == Unhealthy(false) && !s.permanent ==> Measure(c, Checked(c, s, e)) == Measure(c, s) - 1
    ensures e.Healthy? ==> Checked(c, s, e) == s
  {
  }

  function Repeat(n: nat): (r: seq<Event>)
    ensures |r| == n
  {
    if n == 0 then [] else Repeat(n - 1) + [Unhealthy(false)]
  }

  /** From any reachable state, a process that stays down is given up after exactly its measure of checks. */
  lemma {:induction false} DownForGoodIsPermanent(c: Config, connected: bool, events: seq<Event>, n: nat)
    requires c.Valid()
    ensures Run(c, connected, events + Repeat(n)).permanent <==> n >= Measure(c, Run(c, connected, events))
    ensures !Run(c, connected, events + Repeat(n)).permanent ==>
              Measure(c, Run(c, connected, events + Repeat(n))) == Measure(c, Run(c, connected, events)) - n
  {
    if n == 0 {
      assert events + Repeat(0) == events;
    } else {
      DownForGoodIsPermanent(c, connected, events, n - 1);
      var before := events + Repeat(n - 1);
      assert events + Repeat(n) == before + [Unhealthy(false)];
      assert (before + [Unhealthy(false)])[..|before|] == before;
      RunsKeep(c, connected, before);
      UnhealthyChecksRunOut(c, Run(c, connected, before), Unhealthy(false));
    }
  }
}
