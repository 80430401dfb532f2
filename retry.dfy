/** The synchronous orchestrator of `pyretries/retry.py`: the `RetryState`
    record, the `Retry` object (`BaseRetry` together with the synchronous
    `exec` and `__call__`), and the retried function. Hooks are user
    callables; each call of one is recorded in the ghost `trace` of the
    orchestrator. Raising `RetryExaustedError` is returning `Failure`. Every
    operation is proved to move the orchestrator as the reference semantics
    of module `RetryModel` says. */
module Retries {
  import opened Outcomes
  import opened StrategyModel
  import opened Strategies
  import opened RetryModel

  /** `list(reversed(s))`. */
  function Reversed<T>(s: seq<T>): (r: seq<T>)
    ensures |r| == |s|
  {
    if s == [] then [] else Reversed(s[1..]) + [s[0]]
  }

  /** The element at position i of the reversal is the one at the mirrored
      position of `s`. */
  lemma {:induction false} ReversedAt<T>(s: seq<T>)
    ensures forall i :: 0 <= i < |s| ==> Reversed(s)[i] == s[|s| - 1 - i]
  {
    if s != [] {
      ReversedAt(s[1..]);
    }
  }

  /** No strategy of a chain is the orchestrator, a record or a retried
      function: updating those leaves every strategy as it was. */
  lemma OutsideChain(ss: seq<AnyStrategy>, r: Retry, st: RetryState, t: Target)
    ensures r !in Objects(ss) && st !in Objects(ss) && t !in Objects(ss)
  {
    forall i | 0 <= i < |ss|
      ensures ss[i].Obj() != r && ss[i].Obj() != st && ss[i].Obj() != t
    {
      match ss[i]
      case StopAfterAttemptRef(_) =>
      case SleepRef(_) =>
      case NoopRef(_) =>
      case StopWhenReturnValueRef(_) =>
      case ExponentialBackoffRef(_) =>
    }
  }

  /** The function being retried. Its k-th call (counting from 0) produces
      `script(k)`; `state` is the attribute that `save_state` sets on it. */
  class Target {
    const script: nat -> Outcome
    var calls: nat
    var state: Option<RetryState>

    constructor (script: nat -> Outcome)
      ensures this.script == script && calls == 0 && state == None
    {
      this.script := script;
      calls := 0;
      state := None;
    }

    method Invoke() returns (o: Outcome)
      modifies this`calls
      ensures o == script(old(calls)) && calls == old(calls) + 1
    {
      o := script(calls);
      calls := calls + 1;
    }
  }

  /** `RetryState`, without its timestamps and the call's arguments. */
  class RetryState {
    const func: Target
    var strategy: Option<AnyStrategy>
    var currentAttempts: nat
    var returnedValue: Value
    var exception: Option<Exc>

    constructor (func: Target)
      ensures this.func == func && strategy == None && currentAttempts == 0
      ensures returnedValue == NoneValue && exception == None
    {
      this.func := func;
      strategy := None;
      currentAttempts := 0;
      returnedValue := NoneValue;
      exception := None;
    }

    predicate Raised()
      reads this
    {
      exception.Some?
    }

    /** Forgets the outcome of the last call, and nothing else. */
    method Clear()
      modifies this`exception, this`returnedValue
      ensures !Raised() && returnedValue == NoneValue
    {
      exception := None;
      returnedValue := NoneValue;
    }
  }

  class Retry {
    var strategies: seq<AnyStrategy>        // the chain, the next one to use last
    const onExceptions: Option<set<ExcClass>>
    const beforeHooks: nat
    const afterHooks: nat
    const exceptionHook: bool
    ghost const chain: seq<AnyStrategy>     // the strategies in the order given
    ghost var pulled: nat                   // how many have been popped
    ghost var trace: seq<Event>             // every hook and function call so far

    /** `strategies` is the unpopped suffix of the chain, reversed, and the
        strategy objects are distinct. */
    ghost predicate Valid()
      reads this
    {
      pulled <= |chain| && strategies == Reversed(chain[pulled..]) && Distinct(chain)
    }

    /** The states of the strategies of the chain, in the order given. */
    ghost function Views(): seq<StrategyView>
      reads Objects(chain)
    {
      ViewsOf(chain)
    }

    function Configured(): Settings
    {
      Settings(onExceptions, beforeHooks, afterHooks, exceptionHook)
    }

    /** The orchestrator and the record `state`, as a reference configuration. */
    ghost function Cfg(state: RetryState): Config
      reads this, Objects(chain), state, state.func
    {
      Config(Views(), pulled, state.strategy.Some?, state.currentAttempts, state.func.calls, trace)
    }

    /** The active strategy of `state` is the one popped last. */
    ghost predicate Tracks(state: RetryState)
      reads this, state
    {
      state.strategy.Some? ==> 0 < pulled <= |chain| && state.strategy.value == chain[pulled - 1]
    }

    /** `BaseRetry.__init__`. An absent or empty exception filter admits every
        exception; absent hooks are no hooks. */
    constructor (strategies: seq<AnyStrategy>, onExceptions: Option<seq<ExcClass>>,
                 beforeHooks: nat, afterHooks: nat, exceptionHook: bool)
      requires Distinct(strategies) && forall i :: 0 <= i < |strategies| ==> strategies[i].Valid()
      ensures Valid() && AllSound(Views()) && chain == strategies && pulled == 0 && trace == []
      ensures this.onExceptions == ExceptionFilter(onExceptions)
      ensures this.beforeHooks == beforeHooks && this.afterHooks == afterHooks
      ensures this.exceptionHook == exceptionHook
    {
      this.strategies := Reversed(strategies);
      this.onExceptions := ExceptionFilter(onExceptions);
      this.beforeHooks := beforeHooks;
      this.afterHooks := afterHooks;
      this.exceptionHook := exceptionHook;
      chain := strategies;
      pulled := 0;
      trace := [];
      new;
      ViewsOfAt(chain);
    }

    /** `save_state`: the record becomes the function's `state` attribute. */
    method SaveState(state: RetryState)
      modifies state.func`state
      ensures state.func.state == Some(state) && Views() == old(Views())
    {
      OutsideChain(chain, this, state, state.func);
      state.func.state := Some(state);
    }

    /** `exec_strategy`. With no active strategy the last of `strategies` is
        popped, and an empty list fails the step; an active strategy that has
        stopped fails it; otherwise the strategy evaluates the returned value,
        the attempt is counted, and a strategy that has now stopped is
        dropped. The whole new configuration is the reference `StrategyStep`. */
    method ExecStrategy(state: RetryState, jitter: real) returns (ok: bool)
      requires Valid() && AllSound(Views()) && Tracks(state) && 0.0 <= jitter <= 1.0
      modifies this, Objects(chain), state`strategy, state`currentAttempts
      ensures Valid() && AllSound(Views()) && Tracks(state)
      ensures var step := StrategyStep(old(Cfg(state)), Returned(old(state.returnedValue)), jitter);
        ok == step.ok && Cfg(state) == step.config
    {
      ghost var c := Cfg(state);
      var value := Returned(state.returnedValue);
      if state.strategy.None? {
        if |strategies| == 0 {
          return false;   // raise RetryExaustedError
        }
        Pop(state);
      }
      ghost var p := pulled - 1;
      assert p == From(c) && Views() == c.views;
      ok := EvalActive(state, value, jitter);
      ghost var v := EvalSpec(c.views[p], value, jitter).view;
      ghost var step := StrategyStep(c, value, jitter);
      if ok {
        ghost var c2 := c.(pulled := p + 1, views := c.views[p := v], attempts := c.attempts + 1,
                           active := !Stopped(v));
        assert step == StepResult(c2, true);
        assert Cfg(state) == c2;
      } else {
        ghost var c2 := c.(pulled := p + 1, active := true);
        assert step == StepResult(c2, false);
        assert Cfg(state) == c2;
      }
    }

    /** The first half of `exec_strategy` when no strategy is active: the
        last of `strategies` becomes the active one. */
    method Pop(state: RetryState)
      requires Valid() && AllSound(Views()) && Tracks(state)
      requires state.strategy.None? && |strategies| > 0
      modifies this`strategies, this`pulled, state`strategy
      ensures Valid() && AllSound(Views()) && Tracks(state) && state.strategy.Some?
      ensures Cfg(state) == old(Cfg(state)).(pulled := old(pulled) + 1, active := true)
    {
      OutsideChain(chain, this, state, state.func);
      assert chain[pulled..][1..] == chain[pulled + 1..];
      state.strategy := Some(strategies[|strategies| - 1]);
      strategies := strategies[..|strategies| - 1];
      pulled := pulled + 1;
    }

    /** The rest of `exec_strategy`, with an active strategy p: a stopped
        one fails the step; otherwise it evaluates, the attempt is counted,
        and it is dropped once it has stopped. */
    method EvalActive(state: RetryState, value: Outcome, jitter: real) returns (ok: bool)
      requires Valid() && AllSound(Views()) && Tracks(state) && 0.0 <= jitter <= 1.0
      requires state.strategy.Some?
      modifies Objects(chain), state`strategy, state`currentAttempts
      ensures Valid() && AllSound(Views()) && Tracks(state) && 0 < pulled
      ensures unchanged(this) && unchanged(state.func)
      ensures var vs := old(Views()); var p := pulled - 1;
        var v := EvalSpec(vs[p], value, jitter).view;
        ok == !Stopped(vs[p])
        && (!ok ==> Views() == vs && state.currentAttempts == old(state.currentAttempts)
                    && state.strategy == old(state.strategy))
        && (ok ==> Views() == vs[p := v] && state.currentAttempts == old(state.currentAttempts) + 1
                   && state.strategy.Some? == !Stopped(v))
    {
      OutsideChain(chain, this, state, state.func);
      ghost var c := Cfg(state);
      ghost var p := pulled - 1;
      var s := state.strategy.value;
      assert s.View() == c.views[p] by { ViewsOfAt(chain); }
      if s.ShouldStop() {
        return false;     // RetryStrategyExausted, re-raised as RetryExaustedError
      }
      assert s.Obj() in Objects(chain);
      assert s.Obj() != this && s.Obj() != state && s.Obj() != state.func;
      var _ := EvalAt(s, chain, p, value, jitter);
      ghost var v := EvalSpec(c.views[p], value, jitter).view;
      EvalSound(c.views[p], value, jitter);
      assert Views() == c.views[p := v] && s.View() == v;
      var stopped := s.ShouldStop();
      CountAttempt(state, stopped);
      ok := true;
    }

    /** The attempt counter of `exec_strategy`, and dropping the active
        strategy once it has stopped. */
    method CountAttempt(state: RetryState, stopped: bool)
      requires Tracks(state)
      modifies state`strategy, state`currentAttempts
      ensures state.currentAttempts == old(state.currentAttempts) + 1
      ensures state.strategy == if stopped then None else old(state.strategy)
      ensures Tracks(state) && Views() == old(Views())
    {
      OutsideChain(chain, this, state, state.func);
      state.currentAttempts := state.currentAttempts + 1;
      if stopped {
        state.strategy := None;
      }
    }

    /** `apply`. An outcome that is not an exception ends the loop; an
        exception whose class the filter does not admit, or a failed strategy
        step, raises `RetryExaustedError` caused by that exception; otherwise
        the strategy step is taken and the outcome is cleared. */
    method Apply(state: RetryState, jitter: real) returns (r: Result<bool, RetryExhausted>)
      requires Valid() && AllSound(Views()) && Tracks(state) && 0.0 <= jitter <= 1.0
      modifies this, Objects(chain), state
      ensures Valid() && AllSound(Views()) && Tracks(state)
      ensures var a := ApplyStep(Configured(), old(Cfg(state)), old(state.exception), old(state.returnedValue), jitter);
        r == a.result && Cfg(state) == a.config
      ensures r == Success(true) ==> !state.Raised() && state.returnedValue == NoneValue
      ensures r != Success(true) ==>
        state.exception == old(state.exception) && state.returnedValue == old(state.returnedValue)
    {
      if !state.Raised() {
        return Success(false);
      }
      if !Eligible(onExceptions, state.exception.value) {
        return Failure(RetryExhausted(state.exception));
      }
      var ok := ExecStrategy(state, jitter);
      if !ok {
        return Failure(RetryExhausted(state.exception));
      }
      ClearRecord(state);
      return Success(true);
    }

    /** `state.clear()`, which leaves the strategies as they were. */
    method ClearRecord(state: RetryState)
      modifies state`exception, state`returnedValue
      ensures !state.Raised() && state.returnedValue == NoneValue && Views() == old(Views())
    {
      OutsideChain(chain, this, state, state.func);
      state.Clear();
    }

    /** `_pre_exec`: every before-hook, in order. */
    method PreExec()
      modifies this`trace
      ensures trace == old(trace) + BeforeEvents(beforeHooks)
    {
      var i := 0;
      while i < beforeHooks
        invariant 0 <= i <= beforeHooks
        invariant trace == old(trace) + BeforeEvents(i)
        modifies this`trace
      {
        trace := trace + [BeforeHook(i)];
        i := i + 1;
      }
    }

    /** `_post_exec`: a raised exception is recorded and handed to the
        exception hook, if there is one; then every after-hook receives the
        recorded exception, or the returned value when there is none. */
    method PostExec(state: RetryState, exception: Option<Exc>)
      modifies this`trace, state`exception
      ensures state.exception == (if exception.Some? then exception else old(state.exception))
      ensures trace == old(trace) + ExceptionHookEvents(exceptionHook, exception)
        + AfterEvents(afterHooks, AfterHookArg(state.exception, state.returnedValue))
    {
      if exception.Some? {
        state.exception := exception;
        if exceptionHook {
          trace := trace + [ExceptionHook(exception.value)];
        }
      }
      ghost var mid := trace;
      var arg := AfterHookArg(state.exception, state.returnedValue);
      var i := 0;
      while i < afterHooks
        invariant 0 <= i <= afterHooks
        invariant trace == mid + AfterEvents(i, arg)
        modifies this`trace
      {
        trace := trace + [AfterHook(i, arg)];
        i := i + 1;
      }
    }

    /** `Retry.exec`: the before-hooks, one call of the function, whose value
        is stored or whose exception is passed on, then `_post_exec`. */
    method Exec(state: RetryState)
      modifies this`trace, state`returnedValue, state`exception, state.func`calls
      ensures state.func.calls == old(state.func.calls) + 1
      ensures var o := state.func.script(old(state.func.calls));
        state.returnedValue == (if o.Returned? then o.value else old(state.returnedValue))
        && state.exception == (if o.Raised? then Some(o.exc) else old(state.exception))
        && trace == old(trace) + BeforeEvents(beforeHooks) + [Called(old(state.func.calls))]
           + ExceptionHookEvents(exceptionHook, CauseOf(o))
           + AfterEvents(afterHooks, AfterHookArg(state.exception, state.returnedValue))
    {
      PreExec();
      trace := trace + [Called(state.func.calls)];
      var o := state.func.Invoke();
      var exception := CauseOf(o);
      if o.Returned? {
        state.returnedValue := o.value;
      }
      PostExec(state, exception);
    }

    /** One round of the `while should_reapply` loop on a cleared record:
        `exec`, then `apply` with the draw for the current attempt count. The
        result and the new configuration are the reference `Round`; a round
        that goes on leaves the record cleared, and one that ends the loop
        leaves in it the value the call returned. */
    method Attempt(state: RetryState, jitter: nat -> real) returns (r: Result<bool, RetryExhausted>)
      requires Valid() && AllSound(Views()) && Tracks(state)
      requires !state.Raised() && state.returnedValue == NoneValue
      requires forall k :: 0.0 <= jitter(k) <= 1.0
      modifies this, Objects(chain), state, state.func`calls
      ensures Valid() && AllSound(Views()) && Tracks(state)
      ensures var a := Round(Configured(), state.func.script, jitter, old(Cfg(state)));
        r == a.result && Cfg(state) == a.config
      ensures r == Success(true) ==> !state.Raised() && state.returnedValue == NoneValue
      ensures r == Success(false) ==>
        !state.Raised() && state.returnedValue == ReturnedOf(state.func.script(old(state.func.calls)))
    {
      OutsideChain(chain, this, state, state.func);
      ghost var c := Cfg(state);
      ghost var o := state.func.script(c.calls);
      Exec(state);
      assert Cfg(state) == c.(calls := c.calls + 1, trace := c.trace + AttemptEvents(Configured(), c.calls, o));
      assert state.exception == CauseOf(o) && state.returnedValue == ReturnedOf(o);
      r := Apply(state, jitter(state.currentAttempts));
    }

    /** `Retry.__call__`: call the function until it returns, or until the
        exception filter or the strategies give up. The result, the new
        states of the strategies, the number of calls and the hooks called
        are those of the reference run `RunFrom` from the current
        configuration; on success the record of the run is saved on the
        function, on failure the function's `state` attribute is untouched. */
    method Call(func: Target, jitter: nat -> real) returns (r: Result<Value, RetryExhausted>)
      requires Valid() && AllSound(Views())
      requires forall i :: pulled <= i < |chain| ==> Views()[i].policy.Bounded()
      requires forall k :: 0.0 <= jitter(k) <= 1.0
      modifies this, Objects(chain), func
      ensures Valid() && AllSound(Views())
      ensures var run := RunFrom(Configured(), func.script, jitter,
                                 old(Config(Views(), pulled, false, 0, func.calls, trace)));
        r == run.result && Views() == run.final.views && pulled == run.final.pulled
        && func.calls == run.final.calls && trace == run.final.trace
        && (r.Success? ==> func.state.Some? && func.state.value.currentAttempts == run.final.attempts
                           && !func.state.value.Raised())
      ensures r.Success? ==>
        func.state.Some? && fresh(func.state.value) && func.state.value.func == func
        && func.state.value.returnedValue == r.value
      ensures r.Failure? ==> func.state == old(func.state)
    {
      ghost var c0 := Config(Views(), pulled, false, 0, func.calls, trace);
      var state := new RetryState(func);
      OutsideChain(chain, this, state, func);
      assert Cfg(state) == c0;
      ghost var run := RunFrom(Configured(), func.script, jitter, c0);
      ghost var cfg := c0;
      while true   // `while should_reapply`, whose test only fails after the `break`
        invariant Valid() && AllSound(Views()) && Tracks(state) && fresh(state) && state.func == func
        invariant func.state == old(func.state)
        invariant cfg == Cfg(state) && Runnable(cfg)
        invariant !state.Raised() && state.returnedValue == NoneValue
        invariant RunFrom(Configured(), func.script, jitter, cfg) == run
        decreases Budget(cfg)
      {
        ghost var a := Round(Configured(), func.script, jitter, cfg);
        RoundDecreases(Configured(), func.script, jitter, cfg);
        var applied := Attempt(state, jitter);
        cfg := a.config;
        match applied
        case Failure(err) =>
          return Failure(err);
        case Success(reapply) =>
          if !reapply {
            break;
          }
      }
      SaveState(state);
      return Success(state.returnedValue);
    }
  }
}
