/** Reference semantics of one run of `Retry.__call__` in `pyretries/retry.py`,
    as values. A `Config` is what the orchestrator and its `RetryState` hold
    between two steps: the states of the strategies of the chain (in the
    order the caller gave them), how many of them have been popped, whether
    the last popped one is still the active `state.strategy`,
    `state.current_attempts`, how many times the retried function has been
    called, and the trace of hook calls. `StrategyStep` is `exec_strategy`,
    `RunFrom` is the `while should_reapply` loop. */
module RetryModel {
  import opened Outcomes
  import opened StrategyModel

  /** What the orchestrator was configured with, hooks reduced to their number. */
  datatype Settings = Settings(
    onExceptions: Option<set<ExcClass>>,
    beforeHooks: nat,
    afterHooks: nat,
    exceptionHook: bool)

  /** `exc.__class__ in (self.on_exceptions or [exc])`: an absent or empty
      filter admits every class, otherwise the class must be listed exactly. */
  predicate Eligible(onExceptions: Option<set<ExcClass>>, e: Exc)
  {
    onExceptions.None? || onExceptions.value == {} || e.cls in onExceptions.value
  }

  /** `set(on_exceptions or []) or None`: an absent or empty sequence of
      classes becomes no filter at all. */
  function ExceptionFilter(onExceptions: Option<seq<ExcClass>>): (f: Option<set<ExcClass>>)
    ensures f != Some({})
  {
    if onExceptions.None? || onExceptions.value == [] then None
    else
      var classes := set c | c in onExceptions.value;
      assert onExceptions.value[0] in classes;
      Some(classes)
  }

  /** The filter admits an exception exactly when no classes were given or
      its class is one of them. */
  lemma FilterAdmits(onExceptions: Option<seq<ExcClass>>, e: Exc)
    ensures Eligible(ExceptionFilter(onExceptions), e)
      <==> onExceptions.None? || onExceptions.value == [] || e.cls in onExceptions.value
  {
    if onExceptions.Some? && onExceptions.value != [] {
      assert onExceptions.value[0] in ExceptionFilter(onExceptions).value;
    }
  }

  /** One observable side effect of an attempt, in the order it happens. */
  datatype Event =
    | BeforeHook(index: nat)              // before_hooks[index]()
    | Called(call: nat)                   // the retried function, for the call-th time (from 0)
    | ExceptionHook(exc: Exc)             // retry_exception_hook(exc)
    | AfterHook(index: nat, arg: Outcome) // after_hooks[index](arg)

  function BeforeEvents(n: nat): seq<Event>
  {
    if n == 0 then [] else BeforeEvents(n - 1) + [BeforeHook(n - 1)]
  }

  function AfterEvents(n: nat, arg: Outcome): seq<Event>
  {
    if n == 0 then [] else AfterEvents(n - 1, arg) + [AfterHook(n - 1, arg)]
  }

  /** The argument of every after-hook: `state.exception or state.returned_value`. */
  function AfterHookArg(exception: Option<Exc>, returned: Value): Outcome
  {
    if exception.Some? then Raised(exception.value) else Returned(returned)
  }

  function ExceptionHookEvents(hook: bool, exception: Option<Exc>): seq<Event>
  {
    if exception.Some? && hook then [ExceptionHook(exception.value)] else []
  }

  /** The events of one attempt whose call (the call-th) produced `o`, the
      record's outcome fields having been cleared before it. */
  function AttemptEvents(s: Settings, call: nat, o: Outcome): seq<Event>
  {
    BeforeEvents(s.beforeHooks) + [Called(call)]
    + ExceptionHookEvents(s.exceptionHook, CauseOf(o)) + AfterEvents(s.afterHooks, o)
  }

  datatype Config = Config(
    views: seq<StrategyView>,  // every strategy of the chain, in caller order
    pulled: nat,               // how many have been popped off the chain
    active: bool,              // state.strategy is views[pulled - 1]; otherwise it is None
    attempts: nat,             // state.current_attempts
    calls: nat,                // calls of the retried function so far
    trace: seq<Event>)

  predicate Consistent(c: Config)
  {
    c.pulled <= |c.views| && (c.active ==> c.pulled >= 1)
  }

  /** The first strategy that may still be consulted. */
  function From(c: Config): nat
    requires Consistent(c)
  {
    if c.active then c.pulled - 1 else c.pulled
  }

  /** Every strategy that may still be consulted has a limit. */
  predicate Runnable(c: Config)
  {
    Consistent(c) && forall i :: From(c) <= i < |c.views| ==> c.views[i].policy.Bounded()
  }

  datatype StepResult = StepResult(config: Config, ok: bool)

  /** `exec_strategy(state)`: with no active strategy, pop the next one, or
      fail when the chain is empty; a strategy that is already stopped fails
      the step; otherwise evaluate it on `value`, count the step, and clear
      the active slot when the strategy has just stopped. `ok` is false
      exactly when `RetryExaustedError` is raised. */
  function StrategyStep(c: Config, value: Outcome, jitter: real): (r: StepResult)
    requires Consistent(c)
    ensures Consistent(r.config)
    ensures |r.config.views| == |c.views|
    ensures r.config.calls == c.calls && r.config.trace == c.trace
  {
    if !c.active && c.pulled == |c.views| then
      StepResult(c, false)
    else
      var p := From(c);
      var c1 := c.(pulled := p + 1, active := true);
      if Stopped(c.views[p]) then
        StepResult(c1, false)
      else
        var v := EvalSpec(c.views[p], value, jitter).view;
        StepResult(c1.(views := c.views[p := v], attempts := c.attempts + 1, active := !Stopped(v)), true)
  }

  /** How many more evaluations a strategy accepts. */
  function Remaining(v: StrategyView): nat
  {
    if v.policy.Bounded() && v.attempt < v.policy.Limit() then v.policy.Limit() - v.attempt else 0
  }

  /** The evaluations strategies from..to-1 still accept, together. */
  function Work(vs: seq<StrategyView>, from: nat, to: nat): nat
    requires from <= to <= |vs|
    decreases (to as int) - (from as int)
  {
    if from == to then 0 else Remaining(vs[from]) + Work(vs, from + 1, to)
  }

  /** The strategy steps a run can still take: the loop's variant. */
  function Budget(c: Config): nat
    requires Consistent(c)
  {
    Work(c.views, From(c), |c.views|)
  }

  lemma {:induction false} WorkUpdateBelow(vs: seq<StrategyView>, p: nat, x: StrategyView, from: nat, to: nat)
    requires p < from <= to <= |vs|
    ensures Work(vs[p := x], from, to) == Work(vs, from, to)
    decreases (to as int) - (from as int)
  {
    if from < to {
      WorkUpdateBelow(vs, p, x, from + 1, to);
    }
  }

  /** A step that goes on consumes one unit of the budget. */
  lemma StepDecreases(c: Config, value: Outcome, jitter: real)
    requires Runnable(c)
    ensures StrategyStep(c, value, jitter).ok ==>
      Runnable(StrategyStep(c, value, jitter).config)
      && Budget(StrategyStep(c, value, jitter).config) < Budget(c)
  {
    var r := StrategyStep(c, value, jitter);
    if r.ok {
      var p := From(c);
      var v := r.config.views[p];
      assert Remaining(c.views[p]) == Remaining(v) + 1;
      WorkUpdateBelow(c.views, p, v, p + 1, |c.views|);
    }
  }

  datatype ApplyResult = ApplyResult(result: Result<bool, RetryExhausted>, config: Config)

  /** `apply(state)` on a record holding `exception` and `returned`: no
      exception ends the loop (`Success(false)`); an exception whose class is
      not admitted, or a failed strategy step, raises `RetryExaustedError`
      caused by it; otherwise the step was taken and the loop goes on. */
  function ApplyStep(s: Settings, c: Config, exception: Option<Exc>, returned: Value, jitter: real): (r: ApplyResult)
    requires Consistent(c)
    ensures Consistent(r.config) && r.config.calls == c.calls && r.config.trace == c.trace
  {
    if exception.None? then
      ApplyResult(Success(false), c)
    else if !Eligible(s.onExceptions, exception.value) then
      ApplyResult(Failure(RetryExhausted(exception)), c)
    else
      var step := StrategyStep(c, Returned(returned), jitter);
      ApplyResult(if step.ok then Success(true) else Failure(RetryExhausted(exception)), step.config)
  }

  /** What the record holds as `returned_value` after a call that produced
      `o`, the record having been cleared before it. */
  function ReturnedOf(o: Outcome): Value
  {
    if o.Returned? then o.value else NoneValue
  }

  /** One round of the loop from `c`, on a cleared record: `exec` (the
      before-hooks, the call, the exception hook, the after-hooks), then
      `apply` with the draw `jitter(current_attempts)`. */
  function Round(s: Settings, script: nat -> Outcome, jitter: nat -> real, c: Config): (r: ApplyResult)
    requires Consistent(c)
    ensures Consistent(r.config) && |r.config.views| == |c.views|
    ensures r.config.calls == c.calls + 1 && c.trace < r.config.trace
  {
    var o := script(c.calls);
    var c1 := c.(calls := c.calls + 1, trace := c.trace + AttemptEvents(s, c.calls, o));
    ApplyStep(s, c1, CauseOf(o), ReturnedOf(o), jitter(c1.attempts))
  }

  /** A round after which the loop goes on has consumed budget. */
  lemma RoundDecreases(s: Settings, script: nat -> Outcome, jitter: nat -> real, c: Config)
    requires Runnable(c)
    ensures var a := Round(s, script, jitter, c);
      a.result == Success(true) ==> Runnable(a.config) && Budget(a.config) < Budget(c)
  {
    var o := script(c.calls);
    var c1 := c.(calls := c.calls + 1, trace := c.trace + AttemptEvents(s, c.calls, o));
    assert From(c1) == From(c) && c1.views == c.views;
    StepDecreases(c1, Returned(ReturnedOf(o)), jitter(c1.attempts));
  }

  datatype RunResult = RunResult(result: Result<Value, RetryExhausted>, final: Config)

  /** The `while should_reapply` loop of `Retry.__call__` from configuration
      `c`: call the function (its k-th call produces `script(k)`), then
      `apply`. When it ends the loop the run returns the value the call
      produced; when it raises the run fails with that error; otherwise
      the loop goes round again. `jitter(k)` is the draw of the strategy
      step that finds `current_attempts == k`. */
  function RunFrom(s: Settings, script: nat -> Outcome, jitter: nat -> real, c: Config): (r: RunResult)
    requires Runnable(c)
    ensures Consistent(r.final) && |r.final.views| == |c.views|
    ensures c.calls < r.final.calls && c.trace < r.final.trace
    decreases Budget(c)
  {
    var a := Round(s, script, jitter, c);
    match a.result
    case Failure(e) => RunResult(Failure(e), a.config)
    case Success(again) =>
      if !again then
        RunResult(Success(ReturnedOf(script(c.calls))), a.config)
      else
        RoundDecreases(s, script, jitter, c);
        RunFrom(s, script, jitter, a.config)
  }

  /** A round that goes on leaves the rest of the run to the next round. */
  lemma RunGoesOn(s: Settings, script: nat -> Outcome, jitter: nat -> real, c: Config)
    requires Runnable(c) && Round(s, script, jitter, c).result == Success(true)
    ensures Runnable(Round(s, script, jitter, c).config)
    ensures RunFrom(s, script, jitter, c) == RunFrom(s, script, jitter, Round(s, script, jitter, c).config)
  {
    RoundDecreases(s, script, jitter, c);
  }
}
