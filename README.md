# pyretries in Dafny

A model of the retry engine of the `pyretries` package. The engine has two parts:

- **Strategies** (`pyretries/strategy.py`). Five stateful classes:
  - `StopAfterAttemptStrategy`, `SleepStrategy`, `NoopStrategy`,
    `StopWhenReturnValueStrategy`, `ExponentialBackoffStrategy`.
  - Each holds a `current_attempt` counter and an optional limit.
  - `should_stop` tells whether the limit is reached.
  - `eval` has two outcomes:
    - It raises `RetryStrategyExausted` and changes nothing.
    - Or it counts one attempt, may sleep, and returns a bool.
- **Orchestrator** (`pyretries/retry.py`). `Retry` calls a function until it returns. It keeps
  its chain of strategies reversed and pops them one at a time, so they are consulted in the
  order given. It gives up with `RetryExaustedError` in three cases:
  - the exception's class is not admitted;
  - the chain is used up;
  - the strategy just pulled has already stopped.

  Before-hooks, the exception hook and after-hooks run around every call.

The project has six files:

| file | module | contents |
|---|---|---|
| `outcomes.dfy` | `Outcomes` | values, exceptions, the two exhaustion errors |
| `strategy_model.dfy` | `StrategyModel` | one strategy as a value (`StrategyView`), one `eval` as `EvalSpec`, and lemmas about repeated evaluation |
| `strategy.dfy` | `Strategies` | the five classes, with fields updated in place. The abstract base class becomes the closed sum `AnyStrategy`, whose `Eval` is proved equal to `EvalSpec` |
| `retry_model.dfy` | `RetryModel` | the orchestrator as values (`Config`): `exec_strategy` is `StrategyStep`, `apply` is `ApplyStep`, one loop round is `Round`, and the `while should_reapply` loop is `RunFrom` |
| `retry.dfy` | `Retries` | the classes `RetryState`, `Retry` and the retried function `Target`, with in-place updates. Each method is proved to move the objects as the reference functions say, and `Retry.Call` returns what `RunFrom` returns |
| `retry_properties.dfy` | `RetryProperties` | what whole runs do: trace shape, one-call runs, consumption order, and the exact call count of an always-failing function |

Modelling choices:

- **Sleeps and randomness.** Sleeping appends the delay to a ghost log `slept`. The draw of
  `random.uniform(0, 1)` is a parameter `jitter` in [0, 1], and floats are `real`.
- **The retried function.** It is a `Target` whose k-th call produces `script(k)`.
- **Hooks.** They are counted, not called. Each hook call, and each call of the function, is
  appended to a ghost `trace` of events on the orchestrator.
- **Errors.** Raising `RetryExaustedError` or `RetryStrategyExausted` is returning `Failure`,
  with the error's `__cause__` as a field.
- **The loop.** `while should_reapply` is a `while true` loop that leaves by `break`. This is
  exact: `should_reapply` is true at every test of the loop condition, because the loop
  breaks as soon as `apply` returns False.

## Model

| member | source | states |
|---|---|---|
| Strategies.StopAfterAttemptStrategy.constructor | pyretries/strategy.py:63-71 | a new strategy has the given limit and a zero counter |
| Strategies.StopAfterAttemptStrategy.Eval | pyretries/strategy.py:84-106 | a stopped strategy raises `RetryStrategyExausted` caused by the value when it is an exception (else None) and keeps its counter; otherwise the counter grows by exactly one and the answer is True; the counter never passes the limit |
| Strategies.StopAfterAttemptStrategy.ShouldStop | pyretries/strategy.py:73-82 | under the class invariant the strategy stops exactly when its counter equals the limit, and at once when the limit is not positive |
| Strategies.SleepStrategy.constructor | pyretries/strategy.py:112-122 | a new strategy has the given delay and limit, a zero counter and has not slept |
| Strategies.SleepStrategy.Eval | pyretries/strategy.py:135-162 | as above, and an accepted evaluation sleeps exactly `seconds` once while a refused one does not sleep; every sleep so far was `seconds`, one per count |
| Strategies.SleepStrategy.ShouldStop | pyretries/strategy.py:124-133 | under the class invariant the strategy stops exactly when its counter equals the limit, and at once when the limit is not positive |
| Strategies.NoopStrategy.constructor | pyretries/strategy.py:168-176 | a new strategy has the given limit and a zero counter |
| Strategies.NoopStrategy.Eval | pyretries/strategy.py:189-208 | refuses with the value as cause once stopped, otherwise counts one attempt and answers True |
| Strategies.NoopStrategy.ShouldStop | pyretries/strategy.py:178-187 | under the class invariant the strategy stops exactly when its counter equals the limit, and at once when the limit is not positive |
| Strategies.StopWhenReturnValueStrategy.constructor | pyretries/strategy.py:214-226 | a new strategy has the expected value, the optional bound and a zero counter |
| Strategies.StopWhenReturnValueStrategy.Eval | pyretries/strategy.py:240-265 | refuses once a bound exists and is reached; otherwise answers `value != expected` and counts only when a bound exists |
| Strategies.StopWhenReturnValueStrategy.ShouldStop | pyretries/strategy.py:228-238 | without `max_attempts` the strategy never stops; with it, under the class invariant, it stops exactly when the counter equals the bound, and at once when the bound is not positive |
| Strategies.ExponentialBackoffStrategy.constructor | pyretries/strategy.py:271-282 | a new strategy has the given limit and base delay, a zero counter and delay, and has not slept |
| Strategies.ExponentialBackoffStrategy.Eval | pyretries/strategy.py:295-323 | an accepted evaluation raises the counter to k, sets `delay` to `base_delay * 2**k + jitter` computed afresh, and sleeps exactly that delay; a refused one changes nothing |
| Strategies.ExponentialBackoffStrategy.ShouldStop | pyretries/strategy.py:284-293 | under the class invariant the strategy stops exactly when its counter equals the limit, and at once when the limit is not positive |
| Strategies.AnyStrategy.ShouldStop | pyretries/strategy.py:34-39 | `should_stop` of every class is the reference `Stopped`: a limit exists and the counter has reached it |
| Strategies.AnyStrategy.Valid | pyretries/strategy.py:58-323 | the invariant of every class is the reference `Sound`: the counter only moves under a limit and never passes it, and there is one sleep per count |
| Strategies.AnyStrategy.Eval | pyretries/strategy.py:41-55 | `eval` of any class produces exactly the result and new state of `EvalSpec` |
| Strategies.EvalAt | pyretries/retry.py:174 | evaluating one strategy of a chain of distinct objects moves that strategy as `EvalSpec` says and leaves the others as they were |
| StrategyModel.EvalSound | pyretries/strategy.py:97-106 | `eval` keeps the strategy invariant |
| StrategyModel.EvalSpec | pyretries/strategy.py:84-323 | the five `eval` bodies as one reference function; an evaluation never changes the strategy's configuration, and `EvalSound`, `BoundedIterate`, `SleepIterate`, `BackoffIterate` and `UnboundedIterate` state what repeated evaluations do |
| StrategyModel.BoundedIterate | tests/test_strategy.py:101-111 | from a fresh bounded strategy with allowance N, the first N evaluations succeed with the class's answer and each counts one; every later one raises with the value as cause and changes nothing; after n evaluations the counter is min(n, N) |
| StrategyModel.SleepIterate | tests/test_strategy.py:16-26 | `SleepStrategy` has slept `seconds` exactly min(n, N) times after n evaluations, never with limit 0 |
| StrategyModel.BackoffIterate | pyretries/strategy.py:313-322 | the k-th sleep of a fresh exponential strategy is `base_delay * 2**(k+1)` plus the k-th draw, and there are min(n, N) of them |
| StrategyModel.UnboundedIterate | pyretries/strategy.py:235-238 | without `max_attempts` the strategy never stops, its counter never moves, and every evaluation answers `value != expected` |
| StrategyModel.BackoffExample | tests/test_strategy.py:52-82 | `ExponentialBackoffStrategy(2, 2)` sleeps `4 + j` then `8 + j`, and the third evaluation raises |
| RetryModel.ExceptionFilter | pyretries/retry.py:114 | the filter built from the configuration is never the empty set |
| RetryModel.FilterAdmits | pyretries/retry.py:200-201 | an exception is admitted exactly when no classes (or an empty list) were given or its exact class is listed |
| RetryModel.Eligible | pyretries/retry.py:200-201 | the class test of `apply`; `FilterAdmits` states which classes it admits for a filter built by `__init__` |
| RetryModel.StrategyStep | pyretries/retry.py:148-181 | a step never changes the number of strategies, the calls or the trace, and keeps the configuration consistent |
| RetryModel.ApplyStep | pyretries/retry.py:183-208 | `apply` keeps the configuration consistent and never calls the function or a hook |
| RetryModel.StepDecreases | pyretries/retry.py:173-181 | a successful strategy step keeps every remaining strategy bounded and uses up one unit of their remaining evaluations |
| RetryModel.RoundDecreases | pyretries/retry.py:371-376 | a round after which the loop goes on has used up budget, so the loop terminates when every remaining strategy is bounded |
| RetryModel.Round | pyretries/retry.py:372-376 | one `exec` then `apply`: exactly one call, the trace strictly grows, the configuration stays consistent and the number of strategies is kept |
| RetryModel.RunFrom | pyretries/retry.py:371-379 | the whole loop of `__call__`: at least one call, the trace strictly grows, the number of strategies is kept; `RunGoesOn` unfolds it one round at a time |
| RetryModel.RunGoesOn | pyretries/retry.py:371-376 | a round that does not end the loop leaves the rest of the run to the next round |
| RetryModel.WorkUpdateBelow | pyretries/retry.py:158-160 | changing a strategy that has already been passed does not change what the later ones can still do |
| Retries.Reversed | pyretries/retry.py:113 | `list(reversed(s))` has the length of `s` |
| Retries.ReversedAt | pyretries/retry.py:113 | element i of the reversal is element `len(s) - 1 - i` of `s` |
| Retries.Target.Invoke | pyretries/retry.py:339-341 | the k-th call of the function produces `script(k)` |
| Retries.RetryState.constructor | pyretries/retry.py:44-52 | a new record holds the function, no strategy, zero attempts, no value and no exception |
| Retries.RetryState.Raised | pyretries/retry.py:54-57 | the record holds an exception; `Clear` makes it false, and after `Exec` on a cleared record it is true exactly when the call raised |
| Retries.RetryState.Clear | pyretries/retry.py:59-62 | `clear()` sets `exception` and `returned_value` to None and changes no other field |
| Retries.Retry.constructor | pyretries/retry.py:95-119 | the strategies are stored reversed, none is pulled, the filter is `ExceptionFilter` of the given classes, and the hooks are kept |
| Retries.Retry.SaveState | pyretries/retry.py:139-146 | the record becomes the function's `state` attribute; no strategy changes |
| Retries.Retry.ExecStrategy | pyretries/retry.py:148-181 | the result and the whole new configuration are those of `StrategyStep`; the stored list stays the reversed unpulled suffix of the chain |
| Retries.Retry.Pop | pyretries/retry.py:158-160 | with no active strategy, the last stored strategy (the next one of the chain) becomes active and is removed from the list |
| Retries.Retry.EvalActive | pyretries/retry.py:164-181 | a stopped active strategy fails the step and changes nothing; otherwise it evaluates as `EvalSpec` says, the attempt count grows by one, and the active slot is cleared exactly when the strategy has now stopped |
| Retries.Retry.Apply | pyretries/retry.py:183-208 | the result and new configuration are `ApplyStep`; on True the record is cleared, otherwise the outcome it holds is kept |
| Retries.Retry.CountAttempt | pyretries/retry.py:175-179 | the attempt count grows by one, the active slot is cleared exactly when the strategy has stopped, and no strategy changes |
| Retries.Retry.ClearRecord | pyretries/retry.py:204 | clearing the record does not change any strategy |
| Retries.Retry.PreExec | pyretries/retry.py:210-218 | every before-hook is called once, in order |
| Retries.Retry.PostExec | pyretries/retry.py:220-240 | a raised exception is recorded and handed to the exception hook if there is one; then every after-hook is called once, in order, with the exception if one is recorded and the returned value otherwise |
| Retries.Retry.Exec | pyretries/retry.py:327-345 | one attempt: the before-hooks, exactly one call, its value or exception recorded, the exception hook, the after-hooks |
| Retries.Retry.Attempt | pyretries/retry.py:371-376 | one round of the loop on a cleared record produces exactly the result and configuration of the reference `Round`; when the loop ends the record holds the call's value and no exception |
| Retries.Retry.Call | pyretries/retry.py:347-379 | the result, the strategies' final states, the strategies pulled, the number of calls and the hook trace are those of the reference `RunFrom`; on success a fresh record of the run is saved on the function, holding the returned value, the run's attempt count and no exception; on failure the function's `state` is untouched |
| RetryProperties.BeforeEventsAt | pyretries/retry.py:217-218 | the i-th before-hook event is before-hook i |
| RetryProperties.AfterEventsAt | pyretries/retry.py:237-238 | the i-th after-hook event is after-hook i with the given argument |
| RetryProperties.AttemptEventsShape | tests/test_retry.py:332-385 | an attempt runs all before-hooks in order, then the call, then the exception hook exactly when the call raised, then all after-hooks in order with the outcome |
| RetryProperties.StepCounts | pyretries/retry.py:158-181 | `exec_strategy` fails exactly when the chain is used up or the next strategy has stopped, and then changes no strategy and no count; otherwise it evaluates exactly that strategy, counts one attempt and keeps it active exactly while it has not stopped |
| RetryProperties.FirstCallReturns | tests/test_retry.py:265-275 | a call that returns ends the run at once with its value: one call, no strategy consulted |
| RetryProperties.IneligibleStops | tests/test_retry.py:304-314 | an exception whose class is not admitted ends the run after that call with `RetryExaustedError` caused by it, and no strategy is consulted |
| RetryProperties.RoundConsumesInOrder | pyretries/retry.py:158-160 | one round calls the function once, only appends to the trace, and only touches the next strategy of the chain |
| RetryProperties.RunConsumesInOrder | pyretries/retry.py:113 | a run never puts a strategy back, never changes one already dropped or any policy, and only appends to the trace |
| RetryProperties.StopIndex | pyretries/retry.py:165-166 | the first strategy from p on that has already stopped, or the end of the chain |
| RetryProperties.UpdateBelow | pyretries/retry.py:158-160 | changing an earlier strategy does not change the later call count or stopping point |
| RetryProperties.EvalAdvances | pyretries/retry.py:174-179 | one evaluation of the next strategy uses up one of the calls still to come and does not move the stopping point |
| RetryProperties.FailingRound | pyretries/retry.py:197-208 | for a failing call, a round goes on exactly when the next strategy has not stopped, counting it once; otherwise it fails with the call's exception and changes no strategy |
| RetryProperties.AlwaysFailingCalls | tests/test_retry.py:388-402 | a function that always fails is called once per evaluation the strategies up to the first stopped one accept, plus once |
| RetryProperties.FailingCallsGoesOn | tests/test_retry.py:405-420 | the same count, when the first round goes on |
| RetryProperties.AlwaysFailingError | tests/test_retry.py:388-402 | a run of a function that always fails ends with `RetryExaustedError` caused by the exception of its last call |
| RetryProperties.FailingErrorGoesOn | tests/test_retry.py:405-420 | the same error, when the first round goes on |
| RetryProperties.AlwaysFailingAttempts | tests/test_retry.py:388-402 | every strategy a failing run goes through ends at its limit; every other keeps its counter |
| RetryProperties.DrainedAdvances | pyretries/retry.py:174-179 | the final counters a failing run leads to are the same before and after one evaluation of the next strategy |
| RetryProperties.FailingAttemptsGoesOn | tests/test_retry.py:405-420 | the final counters, when the first round goes on |
| RetryProperties.TwoNoopsExample | tests/test_retry.py:405-420 | `[NoopStrategy(2), NoopStrategy(4)]` with a function that always fails: 7 calls, counters 2 and 4, the error caused by the seventh exception |
| RetryProperties.FreshFailingCalls | tests/test_retry.py:405-420 | over fresh strategies with positive limits, the failing-call count is one plus the sum of the limits |
| RetryProperties.FreshChainFailingRun | tests/test_retry.py:405-420 | a new orchestrator over fresh strategies with limits n1..nk, all positive, calls an always-failing function exactly 1 + n1 + ... + nk times and fails with the last exception as cause |
| RetryProperties.ZeroLimitExample | tests/test_retry.py:222-232 | a strategy with limit 0 ends the run after one call instead of being skipped |
| RetryProperties.EmptyChainExample | tests/test_retry.py:291-301 | with no strategies a failing function is called exactly once and the error is caused by its exception |

## Left out

- `AsyncRetry` and the `retry` decorator (pyretries/retry.py:243-313 and 382-439) are not modelled.
  The async variant has the same control flow as `Retry`, and the decorator only dispatches
  between the two.
- Logging (`should_log`) and the timestamps `start_time`/`end_time` are left out; they
  do not affect control flow.
- The call's `args`/`kwargs` and `RetryState.__repr__` are left out.
- Real sleeping and randomness: a sleep is a ghost log entry and the random draw is a
  parameter in [0, 1]. Floats are exact reals, so IEEE rounding is not modelled.
- Hooks are user callables. The model records each call of one as an event and takes
  hooks neither raise nor change the orchestrator.
- The retried function only returns or raises, as a script of outcomes; it does not
  re-enter the orchestrator.
- An exception is matched by its exact class name; subclassing plays no part, as
  in the source (`exc.__class__ in ...`). Python truthiness of exception objects is taken to be
  true, as it is for every standard exception.
- Retries.Retry.Call: requires every strategy not yet pulled to have a limit, even when the
  run would end before reaching it. A chain holding a `StopWhenReturnValueStrategy` with the
  default `max_attempts=None` is not covered at all, including runs that would end (such a
  strategy over a function whose first call returns the expected value). The same
  requirement (`Runnable`) is on `RunFrom` and every run lemma.
- Retries.Retry.constructor: requires the strategy objects to be distinct. A chain that holds
  the same strategy object twice, where the two positions share one counter, is not modelled.
- Strategies.ExponentialBackoffStrategy.Eval: the class invariant records one sleep per count
  but not that the last sleep equals `delay`. That link is stated only by the postcondition of
  each `Eval`. `AnyStrategy.View` leaves `delay` out, so after a step taken by the
  orchestrator the model says nothing about that field (the sleep log still records the
  delay slept).
- Only exceptions derived from `Exception` are modelled (pyretries/retry.py:342). A
  `BaseException` such as `KeyboardInterrupt` or `SystemExit` escapes the loop in the source
  unrecorded, with no after-hook called and no `save_state`; in the model every raised
  outcome is caught and recorded.
- Default arguments are not modelled: every constructor takes all its arguments. The defaults
  are `SleepStrategy(attempts=1)` (pyretries/strategy.py:112), `NoopStrategy(attempts=1)`
  (pyretries/strategy.py:168), `StopWhenReturnValueStrategy(max_attempts=None)`
  (pyretries/strategy.py:214-226), and `strategies=[]` and absent hooks for `BaseRetry`
  (pyretries/retry.py:95-101), the last given here as an empty chain, zero hook counts and
  no exception hook.
- Strategies.StopWhenReturnValueStrategy.Eval: values are `None` or integers, and equality
  of returned values is Dafny equality, not a user `__eq__`.
- The package's `exceptions` module is not part of this model. Only the two error names and
  the `__cause__` they carry are used.
- The superseded `retries/` package, the example scripts and the test fixtures are not
  modelled.
