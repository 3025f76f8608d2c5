/**
 * `debounce` and `throttle` as state machines over an explicit clock. The
 * closure variables of the source are the fields of a class; a call of the
 * returned function, the timer firing, `cancel` and `flush` are its methods.
 * The wrapped function is a function of its context and arguments, and every
 * time it runs is recorded in `runs`.
 */
module Debounce {
  import opened Wrappers
  import opened Js

  type Args = seq<JsValue>

  /** One run of the wrapped function: the `this` it got, its arguments, and the time. */
  datatype Run = Run(context: JsValue, args: Args, at: int)

  /** The wrapped function. */
  type Func = (JsValue, Args) -> JsValue

  /** `debounce(func, wait, {immediate, preserveContext, maxWait})`. */
  class Debouncer {
    const func: Func
    const wait: int
    const immediate: bool
    const preserveContext: bool
    const maxWait: int

    /** `timeoutId !== null`, and when that timer was set. */
    var timerPending: bool
    var timerSetAt: int
    var lastCallTime: int
    var lastArgs: Option<Args>
    var lastThis: JsValue
    var result: JsValue
    var runs: seq<Run>

    /** The arguments and time of the most recent call. */
    ghost var latestArgs: Option<Args>
    ghost var latestCallAt: int

    /**
     * A pending timer always has arguments to run, the stored arguments are
     * those of the most recent call, and the timer was set by that call.
     */
    ghost predicate Valid()
      reads this
    {
      (timerPending ==> lastArgs.Some? && timerSetAt == latestCallAt)
      && (lastArgs.Some? ==> lastArgs == latestArgs)
    }

    constructor(func: Func, wait: int, immediate: bool := false, preserveContext: bool := true, maxWait: int := 0)
      ensures this.func == func && this.wait == wait && this.immediate == immediate
      ensures this.preserveContext == preserveContext && this.maxWait == maxWait
      ensures !timerPending && lastCallTime == 0 && lastArgs == None && result == Undefined && runs == []
      ensures Valid()
    {
      this.func := func;
      this.wait := wait;
      this.immediate := immediate;
      this.preserveContext := preserveContext;
      this.maxWait := maxWait;
      timerPending := false;
      timerSetAt := 0;
      lastCallTime := 0;
      lastArgs := None;
      lastThis := Undefined;
      result := Undefined;
      runs := [];
      latestArgs := None;
      latestCallAt := 0;
    }

    /** The `this` the function runs with. */
    function Context(): JsValue
      reads this
    {
      if preserveContext then lastThis else Undefined
    }

    /** `executeFunc()`: clear the timer, and run with the stored arguments if there are any. */
    method Execute(now: int)
      requires Valid()
      modifies this
      ensures Valid() && !timerPending
      ensures old(lastArgs).Some? ==>
                runs == old(runs) + [Run(old(Context()), old(lastArgs).value, now)]
                && result == func(old(Context()), old(lastArgs).value)
                && lastArgs == None && lastCallTime == now
      ensures old(lastArgs).None? ==>
                runs == old(runs) && result == old(result) && lastArgs == None && lastCallTime == old(lastCallTime)
      ensures lastThis == old(lastThis) && latestArgs == old(latestArgs) && latestCallAt == old(latestCallAt)
    {
      timerPending := false;
      if lastArgs.Some? {
        var context := Context();
        result := func(context, lastArgs.value);
        runs := runs + [Run(context, lastArgs.value, now)];
        lastArgs := None;
        lastCallTime := now;
      }
    }

    /**
     * A call of the debounced function at time `now`: store the arguments,
     * then run at once (immediate with no timer pending, or `maxWait`
     * exceeded), or replace any pending timer with a new one.
     */
    method Call(args: Args, self: JsValue, now: int)
      requires Valid()
      modifies this
      ensures Valid()
      ensures latestArgs == Some(args) && latestCallAt == now && lastThis == self
      ensures var runsNow := (!old(timerPending) && immediate) || (maxWait > 0 && now - old(lastCallTime) >= maxWait);
              if runsNow then
                runs == old(runs) + [Run(Context(), args, now)] && result == func(Context(), args)
                && lastArgs == None && lastCallTime == now && !timerPending
              else
                runs == old(runs) && result == old(result) && lastArgs == Some(args)
                && lastCallTime == old(lastCallTime) && timerPending && timerSetAt == now
    {
      lastArgs := Some(args);
      lastThis := self;
      latestArgs := Some(args);
      latestCallAt := now;
      var isFirstCall := !timerPending && immediate;
      timerPending := false;
      if isFirstCall {
        Execute(now);
        return;
      }
      if maxWait > 0 && now - lastCallTime >= maxWait {
        Execute(now);
        return;
      }
      timerPending := true;
      timerSetAt := now;
    }

    /** The pending timer fires, `wait` or more after it was set: it runs with the most recent call's arguments. */
    method Fire(now: int)
      requires Valid() && timerPending && now >= timerSetAt + wait
      modifies this
      ensures Valid() && !timerPending && lastArgs == None && lastCallTime == now
      ensures runs == old(runs) + [Run(old(Context()), old(latestArgs).value, now)]
      ensures now >= latestCallAt + wait
    {
      Execute(now);
    }

    /** `cancel()`: nothing runs later. */
    method Cancel()
      requires Valid()
      modifies this
      ensures Valid() && !timerPending && lastArgs == None
      ensures runs == old(runs) && result == old(result) && lastCallTime == old(lastCallTime)
    {
      timerPending := false;
      lastArgs := None;
    }

    /** `flush()`: run now if arguments are pending and return the result; otherwise return undefined. */
    method Flush(now: int) returns (r: JsValue)
      requires Valid()
      modifies this
      ensures Valid()
      ensures old(lastArgs).None? ==> r == Undefined && unchanged(this)
      ensures old(lastArgs).Some? ==>
                r == func(old(Context()), old(lastArgs).value) && r == result
                && runs == old(runs) + [Run(old(Context()), old(lastArgs).value, now)]
                && !timerPending && lastArgs == None
    {
      if lastArgs.Some? {
        Execute(now);
        return result;
      }
      return Undefined;
    }
  }

  /**
   * With `immediate`, no call leaves a timer behind, so every call runs at
   * once: two calls one millisecond apart both run.
   */
  method ImmediateRunsEveryCall(func: Func) returns (runs: seq<Run>)
    ensures |runs| == 2
    ensures runs[0].at == 0 && runs[1].at == 1
  {
    var d := new Debouncer(func, 100, true);
    d.Call([Num(1)], Undefined, 0);
    d.Call([Num(2)], Undefined, 1);
    runs := d.runs;
  }

  /** Without `immediate` or `maxWait`, a burst of calls runs once, with the last call's arguments, `wait` after it. */
  method TrailingRunUsesLastArguments(func: Func) returns (runs: seq<Run>)
    ensures runs == [Run(Undefined, [Num(3)], 150)]
  {
    var d := new Debouncer(func, 100);
    d.Call([Num(1)], Undefined, 0);
    d.Call([Num(2)], Undefined, 20);
    d.Call([Num(3)], Undefined, 50);
    d.Fire(150);
    runs := d.runs;
  }

  /**
   * The leading-edge debounce that `immediate` describes: the first call runs
   * at once and starts a quiet period of `wait`; calls during the quiet
   * period restart it and do not run.
   */
  class LeadingDebouncer {
    const func: Func
    const wait: int
    /** The quiet period's timer. */
    var timerPending: bool
    var timerSetAt: int
    var runs: seq<Run>
    ghost var lastCallAt: int

    /** Every call sets the timer, so the timer dates from the most recent call. */
    ghost predicate Valid()
      reads this
    {
      timerPending ==> timerSetAt == lastCallAt
    }

    constructor(func: Func, wait: int)
      ensures this.func == func && this.wait == wait && !timerPending && runs == [] && Valid()
    {
      this.func := func;
      this.wait := wait;
      timerPending := false;
      timerSetAt := 0;
      runs := [];
      lastCallAt := 0;
    }

    method Call(args: Args, self: JsValue, now: int)
      requires Valid()
      modifies this
      ensures Valid() && timerPending && timerSetAt == now && lastCallAt == now
      ensures !old(timerPending) ==> runs == old(runs) + [Run(self, args, now)]
      ensures old(timerPending) ==> runs == old(runs)
    {
      if !timerPending {
        var _ := func(self, args);
        runs := runs + [Run(self, args, now)];
      }
      timerPending := true;
      timerSetAt := now;
      lastCallAt := now;
    }

    /** The quiet period ends, `wait` after the last call. */
    method Fire(now: int)
      requires Valid() && timerPending && now >= timerSetAt + wait
      modifies this
      ensures Valid() && !timerPending && runs == old(runs)
    {
      timerPending := false;
    }
  }

  /** Two calls inside one quiet period run once. */
  method LeadingCallsWithinWaitRunOnce(func: Func) returns (runs: seq<Run>)
    ensures runs == [Run(Undefined, [Num(1)], 0)]
  {
    var d := new LeadingDebouncer(func, 100);
    d.Call([Num(1)], Undefined, 0);
    d.Call([Num(2)], Undefined, 1);
    runs := d.runs;
  }

  // ---------------------------------------------------------------- throttle

  /** Consecutive runs are at least `wait` apart. */
  predicate Spaced(runs: seq<Run>, wait: int)
  {
    forall i :: 0 < i < |runs| ==> runs[i].at - runs[i - 1].at >= wait
  }

  /** `throttle(func, wait)`. */
  class Throttler {
    const func: Func
    const wait: int
    var lastCallTime: int
    var timerPending: bool
    /** When the pending timer is due. */
    var timerDue: int
    var lastArgs: Option<Args>
    var lastThis: JsValue
    var runs: seq<Run>
    ghost var latestArgs: Option<Args>

    /**
     * A pending timer has arguments to run and is due `wait` after the last
     * run; the stored arguments are the most recent call's; the last run was
     * at `lastCallTime`, and runs are spaced by `wait`.
     */
    ghost predicate Valid()
      reads this
    {
      (timerPending ==> lastArgs.Some? && timerDue == lastCallTime + wait)
      && (lastArgs.Some? ==> lastArgs == latestArgs)
      && (runs != [] ==> runs[|runs| - 1].at == lastCallTime)
      && Spaced(runs, wait)
    }

    constructor(func: Func, wait: int)
      ensures this.func == func && this.wait == wait
      ensures lastCallTime == 0 && !timerPending && lastArgs == None && runs == [] && Valid()
    {
      this.func := func;
      this.wait := wait;
      lastCallTime := 0;
      timerPending := false;
      timerDue := 0;
      lastArgs := None;
      lastThis := Undefined;
      runs := [];
      latestArgs := None;
    }

    /** `executeFunc()`, called only at least `wait` after the last run. */
    method Execute(now: int)
      requires Valid() && (runs != [] ==> now - lastCallTime >= wait)
      modifies this
      ensures Valid() && !timerPending && lastArgs == None
      ensures old(lastArgs).Some? ==>
                runs == old(runs) + [Run(lastThis, old(lastArgs).value, now)] && lastCallTime == now
      ensures old(lastArgs).None? ==> runs == old(runs) && lastCallTime == old(lastCallTime)
      ensures lastThis == old(lastThis) && latestArgs == old(latestArgs)
    {
      timerPending := false;
      if lastArgs.Some? {
        var _ := func(lastThis, lastArgs.value);
        runs := runs + [Run(lastThis, lastArgs.value, now)];
        lastCallTime := now;
        lastArgs := None;
      }
    }

    /** A call at `now`: run at once if `wait` has passed since the last run, else set one timer if none is set. */
    method Call(args: Args, self: JsValue, now: int)
      requires Valid()
      modifies this
      ensures Valid() && latestArgs == Some(args) && lastThis == self
      ensures now - old(lastCallTime) >= wait ==>
                runs == old(runs) + [Run(self, args, now)] && lastCallTime == now && !timerPending
      ensures now - old(lastCallTime) < wait ==>
                runs == old(runs) && lastArgs == Some(args) && timerPending
                && timerDue == (if old(timerPending) then old(timerDue) else now + (wait - (now - old(lastCallTime))))
    {
      lastArgs := Some(args);
      lastThis := self;
      latestArgs := Some(args);
      if now - lastCallTime >= wait {
        Execute(now);
      } else if !timerPending {
        timerPending := true;
        timerDue := now + (wait - (now - lastCallTime));
      }
    }

    /** The pending timer fires when due: it runs with the most recent call's arguments. */
    method Fire(now: int)
      requires Valid() && timerPending && now >= timerDue
      modifies this
      ensures Valid() && !timerPending
      ensures runs == old(runs) + [Run(lastThis, old(latestArgs).value, now)]
    {
      Execute(now);
    }

    /** `cancel()`. */
    method Cancel()
      requires Valid()
      modifies this
      ensures Valid() && !timerPending && lastArgs == None && runs == old(runs)
    {
      timerPending := false;
      lastArgs := None;
    }
  }
}
