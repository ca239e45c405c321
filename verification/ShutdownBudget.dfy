/**
 * The time budget of a shutdown (app/lifecycle.py), and the usage drain that runs inside it
 * (app/app_factory.py, app/jobs/record_usages.py). Times are in seconds, and a wait returns
 * when what it waits for is done or its timeout is over.
 */
module ShutdownBudget {

  const SHUTDOWN_BUDGET_S: real := 7.25
  const SHUTDOWN_FINAL_RESERVE_S: real := 0.5
  const SHUTDOWN_CUT_SETTLE_S: real := 0.2
  const USAGE_DRAIN_TAIL_S: real := 0.25

  type Duration = r: real | r >= 0.0

  function Max(a: real, b: real): real {
    if a >= b then a else b
  }

  function Min(a: real, b: real): real {
    if a <= b then a else b
  }

  /** How long a callback takes to return or fail if let, and how long it takes to end once cancelled. */
  datatype Callback = Callback(runs: Duration, winds: Duration)

  /** When a callback that starts with this much time left is cut. */
  function Budget(remaining: real): real {
    Max(remaining - SHUTDOWN_CUT_SETTLE_S, remaining / 2.0)
  }

  predicate IsCut(now: real, deadline: real, c: Callback) {
    c.runs > Budget(deadline - now)
  }

  // ------------------------------------------------------------------ one phase

  datatype Phase = Phase(end: real, started: nat)

  /** The clock after one callback. */
  function AfterOne(now: real, deadline: real, c: Callback): real {
    if !IsCut(now, deadline, c) then
      now + c.runs
    else
      var cut := now + Budget(deadline - now);
      cut + Min(c.winds, Max(deadline - cut, 0.0))
  }

  /** When a phase ends, and how many callbacks it started. */
  function PhaseOf(now: real, deadline: real, callbacks: seq<Callback>): Phase
    decreases |callbacks|
  {
    if callbacks == [] || deadline - now <= 0.0 then
      Phase(now, 0)
    else
      var rest := PhaseOf(AfterOne(now, deadline, callbacks[0]), deadline, callbacks[1..]);
      Phase(rest.end, 1 + rest.started)
  }

  datatype Deadline = NoDeadline | Until(time: real)

  class Lifecycle {
    var clock: real
    var shutdownDeadline: Deadline

    constructor (clock: real)
      ensures this.clock == clock && shutdownDeadline == NoDeadline
    {
      this.clock, shutdownDeadline := clock, NoDeadline;
    }

    /** shutdown_time_left. */
    function TimeLeft(): real
      requires shutdownDeadline.Until?
      reads this
    {
      Max(shutdownDeadline.time - clock, 0.0)
    }

    /** _usage_drain_timeout: the whole grace outside a shutdown, else no longer than up to the tail. */
    function DrainTimeout(grace: Duration): Duration
      reads this
    {
      if shutdownDeadline.NoDeadline? then grace else UsageDrainTimeout(grace, TimeLeft())
    }

    /** asyncio.wait on one task. */
    method Wait(left: Duration, timeout: Duration) returns (done: bool)
      modifies this`clock
      ensures done <==> left <= timeout
      ensures clock == old(clock) + Min(left, timeout)
    {
      done := left <= timeout;
      clock := clock + Min(left, timeout);
    }

    /**
     * The usage drain inside a callback of the phase that began at `begun`: with at least the tail
     * left it is over strictly before the driver would cut the callback.
     */
    method DrainInCallback(begun: real, grace: Duration, runs: seq<Duration>, retained: bool, flush: Duration)
      returns (drained: bool)
      requires shutdownDeadline.Until? && begun <= clock && begun < shutdownDeadline.time
      modifies this`clock
      ensures old(clock) <= clock <= old(clock) + old(DrainTimeout(grace))
      ensures shutdownDeadline.time - old(clock) >= USAGE_DRAIN_TAIL_S ==>
                clock < begun + Budget(shutdownDeadline.time - begun)
      ensures shutdownDeadline.time - old(clock) >= grace + USAGE_DRAIN_TAIL_S ==>
                Longest(runs) + (if retained then flush else 0.0) < grace ==> drained
    {
      ghost var before := clock;
      var timeout := DrainTimeout(grace);
      WholeGraceWhereItFits(grace, TimeLeft());
      clock, drained := DrainUsageJobs(clock, timeout, runs, retained, flush);
      if shutdownDeadline.time - before >= USAGE_DRAIN_TAIL_S {
        DrainEndsBeforeTheCut(begun, before, shutdownDeadline.time, grace, clock);
      }
    }

    /**
     * _run_shutdown_callbacks: the callbacks that run are the first ones, whatever fails or is
     * cut; each finds the deadline of the phase set, which is cleared when the phase is over.
     */
    method RunShutdownCallbacks(callbacks: seq<Callback>, deadline: real) returns (started: nat, ghost found: seq<Deadline>)
      modifies this
      ensures Phase(clock, started) == PhaseOf(old(clock), deadline, callbacks)
      ensures |found| == started && forall i :: 0 <= i < started ==> found[i] == Until(deadline)
      ensures shutdownDeadline == NoDeadline
    {
      shutdownDeadline := Until(deadline);
      started, found := 0, [];
      for index := 0 to |callbacks|
        invariant started == index && shutdownDeadline == Until(deadline)
        invariant |found| == started && forall i :: 0 <= i < started ==> found[i] == Until(deadline)
        invariant PhaseOf(old(clock), deadline, callbacks)
               == (var rest := PhaseOf(clock, deadline, callbacks[index..]); Phase(rest.end, started + rest.started))
      {
        var remaining := deadline - clock;
        if remaining <= 0.0 {
          shutdownDeadline := NoDeadline;
          return;
        }
        var c := callbacks[index];
        ghost var now := clock;
        assert callbacks[index..][1..] == callbacks[index + 1..];
        started, found := started + 1, found + [shutdownDeadline];
        var done := Wait(c.runs, Max(remaining - SHUTDOWN_CUT_SETTLE_S, remaining / 2.0));
        if !done {
          done := Wait(c.winds, Max(deadline - clock, 0.0));
        }
        assert clock == AfterOne(now, deadline, c);
      }
      shutdownDeadline := NoDeadline;
    }

    /** The shutdown half of lifespan: both phases fit the budget, and the final one has its reserve. */
    method ShutDown(callbacks: seq<Callback>, finals: seq<Callback>) returns (first: nat, finalsBegin: real, last: nat)
      modifies this
      ensures finalsBegin <= old(clock) + SHUTDOWN_BUDGET_S - SHUTDOWN_FINAL_RESERVE_S
      ensures old(clock) <= finalsBegin <= clock <= old(clock) + SHUTDOWN_BUDGET_S
      ensures Phase(finalsBegin, first) == PhaseOf(old(clock), old(clock) + SHUTDOWN_BUDGET_S - SHUTDOWN_FINAL_RESERVE_S, callbacks)
      ensures Phase(clock, last) == PhaseOf(finalsBegin, old(clock) + SHUTDOWN_BUDGET_S, finals)
      ensures first <= |callbacks| && last <= |finals|
      ensures finals != [] ==> last > 0
      ensures shutdownDeadline == NoDeadline
    {
      ghost var found;
      var finalDeadline := clock + SHUTDOWN_BUDGET_S;
      PhaseIsBounded(clock, finalDeadline - SHUTDOWN_FINAL_RESERVE_S, callbacks);
      first, found := RunShutdownCallbacks(callbacks, finalDeadline - SHUTDOWN_FINAL_RESERVE_S);
      finalsBegin := clock;
      PhaseIsBounded(clock, finalDeadline, finals);
      last, found := RunShutdownCallbacks(finals, finalDeadline);
    }
  }

  // ------------------------------------------------------------------ what a phase promises

  /**
   * The driver waits for a callback up to its budget; one that is cut it then gives the time it
   * takes to end, up to the deadline. Something is left for the next one if that is no time at all.
   */
  lemma OneIsBounded(now: real, deadline: real, c: Callback)
    requires now < deadline
    ensures now <= AfterOne(now, deadline, c) <= deadline
    ensures AfterOne(now, deadline, c) == deadline || AfterOne(now, deadline, c) == now + c.runs
            || AfterOne(now, deadline, c) == now + Budget(deadline - now) + c.winds
    ensures c.runs > Budget(deadline - now) ==> AfterOne(now, deadline, c) >= now + Budget(deadline - now)
    ensures c.winds == 0.0 ==> AfterOne(now, deadline, c) < deadline
  {
  }

  /** Where callbacks end as soon as they are cut, none is skipped. */
  lemma {:induction false} PromptCallbacksAllStart(now: real, deadline: real, callbacks: seq<Callback>)
    requires now < deadline && forall i :: 0 <= i < |callbacks| ==> callbacks[i].winds == 0.0
    ensures PhaseOf(now, deadline, callbacks).started == |callbacks|
    decreases |callbacks|
  {
    if callbacks != [] {
      OneIsBounded(now, deadline, callbacks[0]);
      PromptCallbacksAllStart(AfterOne(now, deadline, callbacks[0]), deadline, callbacks[1..]);
    }
  }

  /** A phase ends by its deadline, and leaves callbacks out only once its time is spent. */
  lemma {:induction false} PhaseIsBounded(now: real, deadline: real, callbacks: seq<Callback>)
    requires now <= deadline
    ensures var p := PhaseOf(now, deadline, callbacks);
      && now <= p.end <= deadline
      && p.started <= |callbacks|
      && (p.started < |callbacks| ==> p.end == deadline)
    decreases |callbacks|
  {
    if callbacks != [] && now < deadline {
      OneIsBounded(now, deadline, callbacks[0]);
      PhaseIsBounded(AfterOne(now, deadline, callbacks[0]), deadline, callbacks[1..]);
    }
  }

  function TotalTime(callbacks: seq<Callback>): real {
    if callbacks == [] then 0.0 else callbacks[0].runs + TotalTime(callbacks[1..])
  }

  lemma {:induction false} TotalIsPositive(callbacks: seq<Callback>)
    ensures TotalTime(callbacks) >= 0.0
  {
    if callbacks != [] {
      TotalIsPositive(callbacks[1..]);
    }
  }

  /** Callbacks that fit the phase up to the settling time all run and none is cut. */
  lemma {:induction false} FittingCallbacksAllRun(now: real, deadline: real, callbacks: seq<Callback>)
    requires now + TotalTime(callbacks) <= deadline - SHUTDOWN_CUT_SETTLE_S
    ensures PhaseOf(now, deadline, callbacks) == Phase(now + TotalTime(callbacks), |callbacks|)
    decreases |callbacks|
  {
    if callbacks != [] {
      TotalIsPositive(callbacks[1..]);
      assert !IsCut(now, deadline, callbacks[0]);
      FittingCallbacksAllRun(now + callbacks[0].runs, deadline, callbacks[1..]);
    }
  }

  // ------------------------------------------------------------------ the usage drain

  /** _usage_drain_timeout inside a phase. */
  function UsageDrainTimeout(grace: Duration, timeLeft: real): Duration {
    Max(Min(grace, timeLeft - USAGE_DRAIN_TAIL_S), 0.0)
  }

  /** The drain has its whole grace where that and the tail fit the time left, and else what is left before the tail. */
  lemma WholeGraceWhereItFits(grace: Duration, timeLeft: real)
    ensures grace + USAGE_DRAIN_TAIL_S <= timeLeft ==> UsageDrainTimeout(grace, timeLeft) == grace
    ensures USAGE_DRAIN_TAIL_S <= timeLeft <= grace + USAGE_DRAIN_TAIL_S ==>
              UsageDrainTimeout(grace, timeLeft) + USAGE_DRAIN_TAIL_S == timeLeft
    ensures timeLeft <= USAGE_DRAIN_TAIL_S ==> UsageDrainTimeout(grace, timeLeft) == 0.0
  {
  }

  /** When the last of the running ticks is done. */
  function Longest(runs: seq<Duration>): (longest: Duration)
    ensures forall i :: 0 <= i < |runs| ==> runs[i] <= longest
    ensures runs == [] ==> longest == 0.0
    ensures runs != [] ==> longest in runs
  {
    if runs == [] then 0.0 else Max(runs[0], Longest(runs[1..]))
  }

  /** drain_usage_jobs: both of its waits together take no longer than the grace. */
  method DrainUsageJobs(now: real, grace: Duration, runs: seq<Duration>, retained: bool, flush: Duration)
    returns (end: real, drained: bool)
    ensures now <= end <= now + grace
    ensures drained <==> Longest(runs) <= grace && (retained ==> Longest(runs) < grace && Longest(runs) + flush <= grace)
    ensures drained ==> end == now + Longest(runs) + if retained then flush else 0.0
  {
    var deadline := now + grace;
    end := now + Min(Longest(runs), grace);
    drained := Longest(runs) <= grace;
    if !drained || !retained {
      return;
    }
    var remaining := deadline - end;
    drained := false;
    if remaining > 0.0 {
      drained := flush <= remaining;
      end := end + Min(flush, remaining);
    }
  }

  /**
   * A drain that a callback of the phase begins with at least the tail left returns strictly
   * before the driver would cut that callback.
   */
  lemma DrainEndsBeforeTheCut(started: real, now: real, deadline: real, grace: Duration, end: real)
    requires started <= now && started < deadline && deadline - now >= USAGE_DRAIN_TAIL_S
    requires end <= now + UsageDrainTimeout(grace, Max(deadline - now, 0.0))
    ensures end < started + Budget(deadline - started)
  {
    assert Budget(deadline - started) >= deadline - started - SHUTDOWN_CUT_SETTLE_S;
  }
}
