/** Reference semantics of the five retry strategies of `pyretries/strategy.py`,
    as values. A `StrategyView` is what a strategy object holds at one moment
    (its configuration, its attempt counter and the log of the sleeps it has
    performed); `EvalSpec` is one call of `eval`. The classes of module
    `Strategies` are proved to behave as `EvalSpec` says, and the lemmas below
    state what repeated evaluation does. */
module StrategyModel {
  import opened Outcomes

  /** Python's `2**k` for a natural exponent. */
  function Pow2(k: nat): nat
  {
    if k == 0 then 1 else 2 * Pow2(k - 1)
  }

  function Min(a: nat, b: nat): nat
  {
    if a <= b then a else b
  }

  /** The configuration of a strategy, one variant per class. */
  datatype Policy =
    | StopAfterAttempt(attempts: int)
    | Sleep(seconds: real, attempts: int)
    | Noop(attempts: int)
    | StopWhenReturnValue(expected: Value, maxAttempts: Option<int>)
    | ExponentialBackoff(attempts: int, baseDelay: real)   // `max_attempts`, `base_delay`
  {
    /** Every strategy counts its evaluations against a limit, except
        `StopWhenReturnValueStrategy` with `max_attempts=None`. */
    predicate Bounded()
    {
      !(StopWhenReturnValue? && maxAttempts.None?)
    }

    function Limit(): int
      requires Bounded()
    {
      match this
      case StopAfterAttempt(n) => n
      case Sleep(_, n) => n
      case Noop(n) => n
      case StopWhenReturnValue(_, m) => m.value
      case ExponentialBackoff(n, _) => n
    }

    /** How many evaluations a fresh strategy accepts before it stops
        (a limit of zero or below accepts none). */
    function Allowance(): nat
      requires Bounded()
    {
      if Limit() > 0 then Limit() else 0
    }

    /** The boolean a successful `eval` of `value` returns. */
    function Answer(value: Outcome): bool
    {
      if StopWhenReturnValue? then value != Returned(expected) else true
    }
  }

  /** A strategy's state: its policy, `current_attempt`, and every delay it
      has passed to `time.sleep`, oldest first. */
  datatype StrategyView = StrategyView(policy: Policy, attempt: nat, slept: seq<real>)

  /** `should_stop`: the counter has reached a limit that exists. */
  predicate Stopped(v: StrategyView)
  {
    v.policy.Bounded() && v.attempt >= v.policy.Limit()
  }

  /** The invariant every strategy keeps: the counter has only moved under a
      limit that exists and never passes it; the two sleeping strategies have
      slept once per count, `SleepStrategy` always for `seconds`; the others
      never sleep. */
  predicate Sound(v: StrategyView)
  {
    (v.attempt == 0 || (v.policy.Bounded() && v.attempt <= v.policy.Limit()))
    && (if v.policy.Sleep? || v.policy.ExponentialBackoff? then |v.slept| == v.attempt else v.slept == [])
    && (v.policy.Sleep? ==> forall i :: 0 <= i < |v.slept| ==> v.slept[i] == v.policy.seconds)
  }

  predicate AllSound(vs: seq<StrategyView>)
  {
    forall i :: 0 <= i < |vs| ==> Sound(vs[i])
  }

  /** The delay of the evaluation that raises the counter to `k`:
      `base_delay * 2**k + random.uniform(0, 1)`, the draw being `jitter`. */
  function BackoffDelay(baseDelay: real, k: nat, jitter: real): real
  {
    baseDelay * (Pow2(k) as real) + jitter
  }

  datatype EvalStep = EvalStep(result: Result<bool, StrategyExhausted>, view: StrategyView)

  /** One `eval(value)`. A stopped strategy raises `RetryStrategyExausted`
      caused by `value` when it is an exception, and changes nothing.
      Otherwise the counter moves first (unless the strategy is unbounded),
      then the strategy sleeps, then it answers. `jitter` is the draw of
      `random.uniform(0, 1)`, used by the exponential strategy only. */
  function EvalSpec(v: StrategyView, value: Outcome, jitter: real): (r: EvalStep)
    ensures r.view.policy == v.policy
  {
    if Stopped(v) then
      EvalStep(Failure(StrategyExhausted(CauseOf(value))), v)
    else
      match v.policy
      case StopAfterAttempt(_) =>
        EvalStep(Success(true), v.(attempt := v.attempt + 1))
      case Noop(_) =>
        EvalStep(Success(true), v.(attempt := v.attempt + 1))
      case Sleep(seconds, _) =>
        EvalStep(Success(true), v.(attempt := v.attempt + 1, slept := v.slept + [seconds]))
      case StopWhenReturnValue(expected, maxAttempts) =>
        EvalStep(Success(value != Returned(expected)),
                 if maxAttempts.Some? then v.(attempt := v.attempt + 1) else v)
      case ExponentialBackoff(_, baseDelay) =>
        var k := v.attempt + 1;
        EvalStep(Success(true), v.(attempt := k, slept := v.slept + [BackoffDelay(baseDelay, k, jitter)]))
  }

  /** `eval` keeps the invariant. */
  lemma EvalSound(v: StrategyView, value: Outcome, jitter: real)
    requires Sound(v)
    ensures Sound(EvalSpec(v, value, jitter).view)
  {
  }

  /** The state after `n` consecutive `eval(value)` calls, the i-th of which
      (from 0) draws `jitter(i)`; evaluations that raise leave the state as it was. */
  function Iterate(v: StrategyView, value: Outcome, jitter: nat -> real, n: nat): StrategyView
  {
    if n == 0 then v else EvalSpec(Iterate(v, value, jitter, n - 1), value, jitter(n - 1)).view
  }

  function Repeat(x: real, n: nat): (r: seq<real>)
    ensures |r| == n
  {
    if n == 0 then [] else Repeat(x, n - 1) + [x]
  }

  /** A fresh bounded strategy with allowance N accepts exactly N evaluations,
      each returning its answer and moving the counter by one; every later
      evaluation raises `RetryStrategyExausted` caused by the value (when it is
      an exception) and changes nothing. The counter never passes N. */
  lemma {:induction false} BoundedIterate(v: StrategyView, value: Outcome, jitter: nat -> real, n: nat)
    requires v.policy.Bounded() && v.attempt == 0
    ensures Iterate(v, value, jitter, n).policy == v.policy
    ensures Iterate(v, value, jitter, n).attempt == Min(n, v.policy.Allowance())
    ensures n < v.policy.Allowance() ==>
      EvalSpec(Iterate(v, value, jitter, n), value, jitter(n)).result == Success(v.policy.Answer(value))
    ensures n >= v.policy.Allowance() ==>
      EvalSpec(Iterate(v, value, jitter, n), value, jitter(n))
        == EvalStep(Failure(StrategyExhausted(CauseOf(value))), Iterate(v, value, jitter, n))
  {
    if n > 0 {
      BoundedIterate(v, value, jitter, n - 1);
    }
  }

  /** `SleepStrategy` sleeps `seconds` once per accepted evaluation and never
      otherwise; with a limit of zero it never sleeps. */
  lemma {:induction false} SleepIterate(v: StrategyView, value: Outcome, jitter: nat -> real, n: nat)
    requires v.policy.Sleep? && v.attempt == 0 && v.slept == []
    ensures Iterate(v, value, jitter, n).slept == Repeat(v.policy.seconds, Min(n, v.policy.Allowance()))
  {
    if n > 0 {
      SleepIterate(v, value, jitter, n - 1);
      BoundedIterate(v, value, jitter, n - 1);
    }
  }

  /** `ExponentialBackoffStrategy`: the k-th sleep (from 0) of a fresh strategy
      is `base_delay * 2**(k+1)` plus the k-th draw. Each delay is computed
      afresh from the counter, never from the previous delay. */
  lemma {:induction false} BackoffIterate(v: StrategyView, value: Outcome, jitter: nat -> real, n: nat)
    requires v.policy.ExponentialBackoff? && v.attempt == 0 && v.slept == []
    ensures |Iterate(v, value, jitter, n).slept| == Min(n, v.policy.Allowance())
    ensures forall k :: 0 <= k < |Iterate(v, value, jitter, n).slept| ==>
      Iterate(v, value, jitter, n).slept[k] == BackoffDelay(v.policy.baseDelay, k + 1, jitter(k))
  {
    if n > 0 {
      BackoffIterate(v, value, jitter, n - 1);
      BoundedIterate(v, value, jitter, n - 1);
    }
  }

  /** With `max_attempts=None`, `StopWhenReturnValueStrategy` never stops and
      its counter never moves; every evaluation answers `value != expected`. */
  lemma {:induction false} UnboundedIterate(v: StrategyView, value: Outcome, jitter: nat -> real, n: nat)
    requires v.policy.StopWhenReturnValue? && v.policy.maxAttempts.None?
    ensures Iterate(v, value, jitter, n) == v
    ensures EvalSpec(Iterate(v, value, jitter, n), value, jitter(n)).result
      == Success(value != Returned(v.policy.expected))
  {
    if n > 0 {
      UnboundedIterate(v, value, jitter, n - 1);
    }
  }

  /** `ExponentialBackoffStrategy(2, 2)` with a fixed draw `j`: two sleeps of
      `4 + j` and `8 + j`, then the third evaluation raises. */
  lemma BackoffExample(value: Outcome, j: real)
    ensures var v := StrategyView(ExponentialBackoff(2, 2.0), 0, []);
      var w := Iterate(v, value, _ => j, 2);
      w.attempt == 2 && w.slept == [4.0 + j, 8.0 + j]
      && EvalSpec(w, value, j).result == Failure(StrategyExhausted(CauseOf(value)))
  {
    var v := StrategyView(ExponentialBackoff(2, 2.0), 0, []);
    BackoffIterate(v, value, _ => j, 2);
    BoundedIterate(v, value, _ => j, 2);
    var w := Iterate(v, value, _ => j, 2);
    assert Pow2(1) == 2 && Pow2(2) == 4;
    assert w.slept == [4.0 + j, 8.0 + j];
  }
}
