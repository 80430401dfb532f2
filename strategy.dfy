/** The five strategy classes of `pyretries/strategy.py`. Each holds its
    configuration as constants and a `currentAttempt` counter that `Eval`
    updates in place; `ShouldStop` is the `should_stop` property. A call to
    `time.sleep` appends the delay to the ghost log `slept`; the draw of
    `random.uniform(0, 1)` is the `jitter` argument. The abstract base class
    `Strategy` is the closed sum `AnyStrategy`, which dispatches to the
    classes and is proved to follow `StrategyModel.EvalSpec`. */
module Strategies {
  import opened Outcomes
  import opened StrategyModel

  class StopAfterAttemptStrategy {
    const attempts: int
    var currentAttempt: nat

    /** The counter never passes the limit. */
    ghost predicate Valid()
      reads this
    {
      currentAttempt == 0 || currentAttempt <= attempts
    }

    constructor (attempts: int)
      ensures Valid() && this.attempts == attempts && currentAttempt == 0
    {
      this.attempts := attempts;
      currentAttempt := 0;
    }

    /** Under the invariant, the strategy stops exactly at its limit, and
        at once when the limit is not positive. */
    predicate ShouldStop()
      reads this
      ensures Valid() ==> (ShouldStop() <==> attempts <= 0 || currentAttempt == attempts)
    {
      currentAttempt >= attempts
    }

    method Eval(value: Outcome) returns (r: Result<bool, StrategyExhausted>)
      requires Valid()
      modifies this
      ensures Valid()
      ensures old(ShouldStop()) ==>
        r == Failure(StrategyExhausted(CauseOf(value))) && currentAttempt == old(currentAttempt)
      ensures !old(ShouldStop()) ==>
        r == Success(true) && currentAttempt == old(currentAttempt) + 1
    {
      if ShouldStop() {
        return Failure(StrategyExhausted(CauseOf(value)));
      }
      currentAttempt := currentAttempt + 1;
      return Success(true);
    }
  }

  class SleepStrategy {
    const seconds: real
    const attempts: int
    var currentAttempt: nat
    ghost var slept: seq<real>

    /** The counter never passes the limit, and there is one sleep per count. */
    ghost predicate Valid()
      reads this
    {
      (currentAttempt == 0 || currentAttempt <= attempts) && |slept| == currentAttempt
      && forall i :: 0 <= i < |slept| ==> slept[i] == seconds
    }

    constructor (seconds: real, attempts: int)
      ensures Valid() && this.seconds == seconds && this.attempts == attempts
      ensures currentAttempt == 0 && slept == []
    {
      this.seconds := seconds;
      this.attempts := attempts;
      currentAttempt := 0;
      slept := [];
    }

    /** Under the invariant, the strategy stops exactly at its limit, and
        at once when the limit is not positive. */
    predicate ShouldStop()
      reads this
      ensures Valid() ==> (ShouldStop() <==> attempts <= 0 || currentAttempt == attempts)
    {
      currentAttempt >= attempts
    }

    method Eval(value: Outcome) returns (r: Result<bool, StrategyExhausted>)
      requires Valid()
      modifies this
      ensures Valid()
      ensures old(ShouldStop()) ==>
        r == Failure(StrategyExhausted(CauseOf(value)))
        && currentAttempt == old(currentAttempt) && slept == old(slept)
      ensures !old(ShouldStop()) ==>
        r == Success(true) && currentAttempt == old(currentAttempt) + 1
        && slept == old(slept) + [seconds]
    {
      if ShouldStop() {
        return Failure(StrategyExhausted(CauseOf(value)));
      }
      currentAttempt := currentAttempt + 1;
      slept := slept + [seconds];   // time.sleep(self.seconds)
      return Success(true);
    }
  }

  class NoopStrategy {
    const attempts: int
    var currentAttempt: nat

    ghost predicate Valid()
      reads this
    {
      currentAttempt == 0 || currentAttempt <= attempts
    }

    constructor (attempts: int)
      ensures Valid() && this.attempts == attempts && currentAttempt == 0
    {
      this.attempts := attempts;
      currentAttempt := 0;
    }

    /** Under the invariant, the strategy stops exactly at its limit, and
        at once when the limit is not positive. */
    predicate ShouldStop()
      reads this
      ensures Valid() ==> (ShouldStop() <==> attempts <= 0 || currentAttempt == attempts)
    {
      currentAttempt >= attempts
    }

    method Eval(value: Outcome) returns (r: Result<bool, StrategyExhausted>)
      requires Valid()
      modifies this
      ensures Valid()
      ensures old(ShouldStop()) ==>
        r == Failure(StrategyExhausted(CauseOf(value))) && currentAttempt == old(currentAttempt)
      ensures !old(ShouldStop()) ==>
        r == Success(true) && currentAttempt == old(currentAttempt) + 1
    {
      if ShouldStop() {
        return Failure(StrategyExhausted(CauseOf(value)));
      }
      currentAttempt := currentAttempt + 1;
      return Success(true);
    }
  }

  class StopWhenReturnValueStrategy {
    const expected: Value
    const maxAttempts: Option<int>
    var currentAttempt: nat

    /** Without a bound the counter stays at zero; with one it never passes it. */
    ghost predicate Valid()
      reads this
    {
      currentAttempt == 0 || (maxAttempts.Some? && currentAttempt <= maxAttempts.value)
    }

    constructor (expected: Value, maxAttempts: Option<int>)
      ensures Valid() && this.expected == expected && this.maxAttempts == maxAttempts
      ensures currentAttempt == 0
    {
      this.expected := expected;
      this.maxAttempts := maxAttempts;
      currentAttempt := 0;
    }

    /** Without a bound the strategy never stops; with one, under the
        invariant, it stops exactly at the bound. */
    predicate ShouldStop()
      reads this
      ensures maxAttempts.None? ==> !ShouldStop()
      ensures Valid() && maxAttempts.Some? ==>
        (ShouldStop() <==> maxAttempts.value <= 0 || currentAttempt == maxAttempts.value)
    {
      maxAttempts.Some? && currentAttempt >= maxAttempts.value
    }

    method Eval(value: Outcome) returns (r: Result<bool, StrategyExhausted>)
      requires Valid()
      modifies this
      ensures Valid()
      ensures old(ShouldStop()) ==>
        r == Failure(StrategyExhausted(CauseOf(value))) && currentAttempt == old(currentAttempt)
      ensures !old(ShouldStop()) ==>
        r == Success(value != Returned(expected))
        && currentAttempt == old(currentAttempt) + (if maxAttempts.Some? then 1 else 0)
    {
      if ShouldStop() {
        return Failure(StrategyExhausted(CauseOf(value)));
      }
      if maxAttempts.Some? {
        currentAttempt := currentAttempt + 1;
      }
      return Success(value != Returned(expected));
    }
  }

  class ExponentialBackoffStrategy {
    const attempts: int      // `max_attempts`
    const baseDelay: real
    var currentAttempt: nat
    var delay: real
    ghost var slept: seq<real>

    /** The counter never passes the limit, and there is one sleep per count. */
    ghost predicate Valid()
      reads this
    {
      (currentAttempt == 0 || currentAttempt <= attempts) && |slept| == currentAttempt
    }

    constructor (attempts: int, baseDelay: real)
      ensures Valid() && this.attempts == attempts && this.baseDelay == baseDelay
      ensures currentAttempt == 0 && delay == 0.0 && slept == []
    {
      this.attempts := attempts;
      this.baseDelay := baseDelay;
      currentAttempt := 0;
      delay := 0.0;
      slept := [];
    }

    /** Under the invariant, the strategy stops exactly at its limit, and
        at once when the limit is not positive. */
    predicate ShouldStop()
      reads this
      ensures Valid() ==> (ShouldStop() <==> attempts <= 0 || currentAttempt == attempts)
    {
      currentAttempt >= attempts
    }

    method Eval(value: Outcome, jitter: real) returns (r: Result<bool, StrategyExhausted>)
      requires Valid() && 0.0 <= jitter <= 1.0
      modifies this
      ensures Valid()
      ensures old(ShouldStop()) ==>
        r == Failure(StrategyExhausted(CauseOf(value)))
        && currentAttempt == old(currentAttempt) && delay == old(delay) && slept == old(slept)
      ensures !old(ShouldStop()) ==>
        r == Success(true) && currentAttempt == old(currentAttempt) + 1
        && delay == baseDelay * (Pow2(currentAttempt) as real) + jitter
        && slept == old(slept) + [delay]
    {
      if ShouldStop() {
        return Failure(StrategyExhausted(CauseOf(value)));
      }
      currentAttempt := currentAttempt + 1;
      delay := baseDelay * (Pow2(currentAttempt) as real) + jitter;
      slept := slept + [delay];   // time.sleep(self.delay)
      return Success(true);
    }
  }

  /** A strategy of any of the five classes, as the orchestrator holds it. */
  datatype AnyStrategy =
    | StopAfterAttemptRef(stopAfter: StopAfterAttemptStrategy)
    | SleepRef(sleep: SleepStrategy)
    | NoopRef(noop: NoopStrategy)
    | StopWhenReturnValueRef(stopWhen: StopWhenReturnValueStrategy)
    | ExponentialBackoffRef(backoff: ExponentialBackoffStrategy)
  {
    /** The object whose fields `Eval` updates. */
    function Obj(): object
    {
      match this
      case StopAfterAttemptRef(s) => s
      case SleepRef(s) => s
      case NoopRef(s) => s
      case StopWhenReturnValueRef(s) => s
      case ExponentialBackoffRef(s) => s
    }

    /** The class invariant, dispatched; it is the reference `Sound` of the state. */
    ghost predicate Valid()
      reads Obj()
      ensures Valid() == Sound(View())
    {
      match this
      case StopAfterAttemptRef(s) => s.Valid()
      case SleepRef(s) => s.Valid()
      case NoopRef(s) => s.Valid()
      case StopWhenReturnValueRef(s) => s.Valid()
      case ExponentialBackoffRef(s) => s.Valid()
    }

    /** The strategy's current state as a value. */
    ghost function View(): StrategyView
      reads Obj()
    {
      match this
      case StopAfterAttemptRef(s) => StrategyView(StopAfterAttempt(s.attempts), s.currentAttempt, [])
      case SleepRef(s) => StrategyView(Sleep(s.seconds, s.attempts), s.currentAttempt, s.slept)
      case NoopRef(s) => StrategyView(Noop(s.attempts), s.currentAttempt, [])
      case StopWhenReturnValueRef(s) =>
        StrategyView(StopWhenReturnValue(s.expected, s.maxAttempts), s.currentAttempt, [])
      case ExponentialBackoffRef(s) =>
        StrategyView(ExponentialBackoff(s.attempts, s.baseDelay), s.currentAttempt, s.slept)
    }

    /** `should_stop`, dispatched; it is the reference `Stopped` of the state. */
    predicate ShouldStop()
      reads Obj()
      ensures ShouldStop() == Stopped(View())
    {
      match this
      case StopAfterAttemptRef(s) => s.ShouldStop()
      case SleepRef(s) => s.ShouldStop()
      case NoopRef(s) => s.ShouldStop()
      case StopWhenReturnValueRef(s) => s.ShouldStop()
      case ExponentialBackoffRef(s) => s.ShouldStop()
    }

    /** `eval`, dispatched: the result and the new state are those of `EvalSpec`. */
    method Eval(value: Outcome, jitter: real) returns (r: Result<bool, StrategyExhausted>)
      requires Valid() && 0.0 <= jitter <= 1.0
      modifies Obj()
      ensures Valid()
      ensures EvalStep(r, View()) == EvalSpec(old(View()), value, jitter)
    {
      ghost var before := View();
      match this
      case StopAfterAttemptRef(s) => r := s.Eval(value);
      case SleepRef(s) => r := s.Eval(value);
      case NoopRef(s) => r := s.Eval(value);
      case StopWhenReturnValueRef(s) => r := s.Eval(value);
      case ExponentialBackoffRef(s) =>
        r := s.Eval(value, jitter);
        assert !Stopped(before) ==> s.delay == BackoffDelay(s.baseDelay, before.attempt + 1, jitter);
    }
  }

  /** No object appears twice in the sequence. */
  ghost predicate Distinct(ss: seq<AnyStrategy>)
  {
    forall i, j :: 0 <= i < j < |ss| ==> ss[i].Obj() != ss[j].Obj()
  }

  ghost function Objects(ss: seq<AnyStrategy>): set<object>
  {
    set i | 0 <= i < |ss| :: ss[i].Obj()
  }

  /** The states of a sequence of strategies, in the same order. */
  ghost function ViewsOf(ss: seq<AnyStrategy>): (vs: seq<StrategyView>)
    reads Objects(ss)
    ensures |vs| == |ss|
  {
    if ss == [] then [] else ViewsOf(ss[..|ss| - 1]) + [ss[|ss| - 1].View()]
  }

  /** The state at position i is that of strategy i. */
  lemma {:induction false} ViewsOfAt(ss: seq<AnyStrategy>)
    ensures forall i :: 0 <= i < |ss| ==> ViewsOf(ss)[i] == ss[i].View()
  {
    if ss != [] {
      ViewsOfAt(ss[..|ss| - 1]);
    }
  }

  /** `eval` of the strategy at position p of a sequence of distinct
      strategies: that strategy moves as `EvalSpec` says, the others do not. */
  method EvalAt(s: AnyStrategy, ghost ss: seq<AnyStrategy>, ghost p: nat, value: Outcome, jitter: real)
    returns (r: Result<bool, StrategyExhausted>)
    requires Distinct(ss) && p < |ss| && ss[p] == s && s.Valid() && 0.0 <= jitter <= 1.0
    modifies s.Obj()
    ensures s.Valid() && s.View() == ViewsOf(ss)[p]
    ensures var step := EvalSpec(old(ViewsOf(ss))[p], value, jitter);
      r == step.result && ViewsOf(ss) == old(ViewsOf(ss))[p := step.view]
  {
    ViewsOfAt(ss);
    ghost var before := ViewsOf(ss);
    r := s.Eval(value, jitter);
    forall i | 0 <= i < |ss| && i != p
      ensures ss[i].View() == before[i]
    {
      assert ss[i].Obj() != s.Obj();
    }
    ViewsOfAt(ss);
    assert ViewsOf(ss) == before[p := s.View()];
  }
}
