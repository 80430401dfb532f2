/** What a whole run of `Retry.__call__` does, stated over the reference
    semantics `RunFrom`: the shape of the hooks' trace, the runs that end
    after one call, the order in which the chain is consumed, and the exact
    number of calls of a function that always fails. */
module RetryProperties {
  import opened Outcomes
  import opened StrategyModel
  import opened RetryModel

  // ---------------------------------------------------------------- hooks

  lemma {:induction false} BeforeEventsAt(n: nat)
    ensures |BeforeEvents(n)| == n
    ensures forall i :: 0 <= i < n ==> BeforeEvents(n)[i] == BeforeHook(i)
  {
    if n > 0 {
      BeforeEventsAt(n - 1);
    }
  }

  lemma {:induction false} AfterEventsAt(n: nat, arg: Outcome)
    ensures |AfterEvents(n, arg)| == n
    ensures forall i :: 0 <= i < n ==> AfterEvents(n, arg)[i] == AfterHook(i, arg)
  {
    if n > 0 {
      AfterEventsAt(n - 1, arg);
    }
  }

  /** One attempt runs every before-hook in order, then the function, then
      the exception hook exactly when the call raised (and there is one),
      then every after-hook in order, each with the exception when the call
      raised and with the returned value otherwise. */
  lemma AttemptEventsShape(s: Settings, call: nat, o: Outcome)
    ensures var t := AttemptEvents(s, call, o);
      var b := s.beforeHooks;
      var x := if o.Raised? && s.exceptionHook then 1 else 0;
      |t| == b + 1 + x + s.afterHooks
      && (forall i :: 0 <= i < b ==> t[i] == BeforeHook(i))
      && t[b] == Called(call)
      && (x == 1 ==> t[b + 1] == ExceptionHook(o.exc))
      && (forall i :: 0 <= i < s.afterHooks ==> t[b + 1 + x + i] == AfterHook(i, o))
  {
    BeforeEventsAt(s.beforeHooks);
    AfterEventsAt(s.afterHooks, o);
  }

  // ------------------------------------------------------ single steps

  /** `exec_strategy` either fails and touches no strategy and no counter,
      or evaluates exactly the first strategy that may still be consulted,
      counts one attempt, and keeps it active exactly while it has not
      stopped. It fails exactly when the chain is used up or that strategy
      has already stopped. */
  lemma StepCounts(c: Config, value: Outcome, jitter: real)
    requires Consistent(c)
    ensures var r := StrategyStep(c, value, jitter);
      var p := From(c);
      (r.ok <==> p < |c.views| && !Stopped(c.views[p]))
      && (!r.ok ==> r.config.views == c.views && r.config.attempts == c.attempts)
      && (r.ok ==>
            r.config.views == c.views[p := EvalSpec(c.views[p], value, jitter).view]
            && r.config.attempts == c.attempts + 1
            && r.config.pulled == p + 1
            && r.config.active == !Stopped(r.config.views[p]))
  {
  }

  /** A call that returns ends the run at once with its value: one call, one
      attempt's events, no strategy consulted. Like every run of the model,
      the strategies not yet pulled must all have a limit. */
  lemma FirstCallReturns(s: Settings, script: nat -> Outcome, jitter: nat -> real, c: Config)
    requires Runnable(c) && script(c.calls).Returned?
    ensures var run := RunFrom(s, script, jitter, c);
      run.result == Success(script(c.calls).value)
      && run.final == c.(calls := c.calls + 1, trace := c.trace + AttemptEvents(s, c.calls, script(c.calls)))
  {
  }

  /** An exception whose class the filter does not admit ends the run at
      once with `RetryExaustedError` caused by it; no strategy is consulted. */
  lemma IneligibleStops(s: Settings, script: nat -> Outcome, jitter: nat -> real, c: Config)
    requires Runnable(c) && script(c.calls).Raised? && !Eligible(s.onExceptions, script(c.calls).exc)
    ensures var run := RunFrom(s, script, jitter, c);
      run.result == Failure(RetryExhausted(Some(script(c.calls).exc)))
      && run.final == c.(calls := c.calls + 1, trace := c.trace + AttemptEvents(s, c.calls, script(c.calls)))
  {
  }

  // ------------------------------------------------------------ whole runs

  /** One round only moves forward along the chain. */
  lemma RoundConsumesInOrder(s: Settings, script: nat -> Outcome, jitter: nat -> real, c: Config)
    requires Runnable(c)
    ensures var f := Round(s, script, jitter, c).config;
      Consistent(f) && |f.views| == |c.views| && c.pulled <= f.pulled && From(c) <= From(f)
      && (forall i :: 0 <= i < |c.views| && i != From(c) ==> f.views[i] == c.views[i])
      && (forall i :: 0 <= i < |c.views| ==> f.views[i].policy == c.views[i].policy)
      && f.calls == c.calls + 1 && c.trace <= f.trace
  {
    var o := script(c.calls);
    var c1 := c.(calls := c.calls + 1, trace := c.trace + AttemptEvents(s, c.calls, o));
    StepCounts(c1, Returned(ReturnedOf(o)), jitter(c1.attempts));
  }

  /** A run only moves forward along the chain: it never puts a strategy
      back, never changes one it has dropped, never changes a policy, calls
      the function at least once and only appends to the trace. */
  lemma {:induction false} RunConsumesInOrder(s: Settings, script: nat -> Outcome, jitter: nat -> real, c: Config)
    requires Runnable(c)
    ensures var f := RunFrom(s, script, jitter, c).final;
      Consistent(f) && |f.views| == |c.views| && c.pulled <= f.pulled
      && (forall i :: 0 <= i < From(c) ==> f.views[i] == c.views[i])
      && (forall i :: 0 <= i < |c.views| ==> f.views[i].policy == c.views[i].policy)
      && c.calls < f.calls && c.trace <= f.trace
    decreases Budget(c)
  {
    var a := Round(s, script, jitter, c);
    RoundConsumesInOrder(s, script, jitter, c);
    if a.result == Success(true) {
      RoundDecreases(s, script, jitter, c);
      RunConsumesInOrder(s, script, jitter, a.config);
    }
  }

  /** Every call from `from` on raises an exception the filter admits. */
  ghost predicate AlwaysFails(s: Settings, script: nat -> Outcome, from: nat)
  {
    forall k :: from <= k ==> script(k).Raised? && Eligible(s.onExceptions, script(k).exc)
  }

  /** The first strategy from `p` on that has already stopped, or the end of
      the chain: where a run that always fails gives up. */
  function StopIndex(vs: seq<StrategyView>, p: nat): (q: nat)
    requires p <= |vs|
    ensures p <= q <= |vs|
    ensures q < |vs| ==> Stopped(vs[q])
    ensures forall i :: p <= i < q ==> !Stopped(vs[i])
    decreases |vs| - p
  {
    if p == |vs| || Stopped(vs[p]) then p else StopIndex(vs, p + 1)
  }

  /** The calls a run that always fails makes from strategy `p` on: one per
      evaluation the strategies before the stopping point still accept, and
      the final call whose exception finds no strategy to consult. */
  function FailingCalls(vs: seq<StrategyView>, p: nat): nat
    requires p <= |vs|
    decreases |vs| - p
  {
    if p == |vs| || Stopped(vs[p]) then 1 else Remaining(vs[p]) + FailingCalls(vs, p + 1)
  }

  lemma {:induction false} UpdateBelow(vs: seq<StrategyView>, p: nat, x: StrategyView, q: nat)
    requires p < q <= |vs|
    ensures FailingCalls(vs[p := x], q) == FailingCalls(vs, q)
    ensures StopIndex(vs[p := x], q) == StopIndex(vs, q)
    decreases |vs| - q
  {
    if q < |vs| {
      UpdateBelow(vs, p, x, q + 1);
    }
  }

  /** Evaluating the strategy at `p` once spends one of the calls still to
      come and moves neither the stopping point nor the strategies after it;
      the next strategy to consult is `p` again until it has stopped. */
  lemma EvalAdvances(vs: seq<StrategyView>, p: nat, v: StrategyView)
    requires p < |vs| && !Stopped(vs[p]) && vs[p].policy.Bounded()
    requires v.policy == vs[p].policy && v.attempt == vs[p].attempt + 1
    ensures var next := if Stopped(v) then p + 1 else p;
      FailingCalls(vs[p := v], next) + 1 == FailingCalls(vs, p)
      && StopIndex(vs[p := v], next) == StopIndex(vs, p)
  {
    var n := FailingCalls(vs, p + 1);
    UpdateBelow(vs, p, v, p + 1);
    assert FailingCalls(vs, p) == Remaining(vs[p]) + n;
    if !Stopped(v) {
      assert FailingCalls(vs[p := v], p) == Remaining(v) + n;
    }
  }

  /** One round of a function that always fails: it goes on exactly when
      the next strategy has not stopped, after evaluating it once; otherwise
      it fails with the call's exception and leaves the strategies as they
      were. */
  lemma FailingRound(s: Settings, script: nat -> Outcome, jitter: nat -> real, c: Config)
    requires Runnable(c) && AlwaysFails(s, script, c.calls)
    ensures var a := Round(s, script, jitter, c); var p := From(c);
      a.config.calls == c.calls + 1
      && (a.result == Success(true) <==> p < |c.views| && !Stopped(c.views[p]))
      && (a.result != Success(true) ==>
            a.result == Failure(RetryExhausted(Some(script(c.calls).exc))) && a.config.views == c.views)
      && (a.result == Success(true) ==>
            var v := a.config.views[p];
            a.config.views == c.views[p := v] && v.attempt == c.views[p].attempt + 1
            && v.policy == c.views[p].policy
            && From(a.config) == if Stopped(v) then p + 1 else p)
  {
    var o := script(c.calls);
    var c1 := c.(calls := c.calls + 1, trace := c.trace + AttemptEvents(s, c.calls, o));
    StepCounts(c1, Returned(ReturnedOf(o)), jitter(c1.attempts));
  }

  /** The run of a function that always fails calls it once for every
      evaluation the strategies from the next one up to the first stopped
      one still accept, plus once more. */
  lemma {:induction false} AlwaysFailingCalls(s: Settings, script: nat -> Outcome, jitter: nat -> real, c: Config)
    requires Runnable(c) && AlwaysFails(s, script, c.calls)
    ensures RunFrom(s, script, jitter, c).final.calls == c.calls + FailingCalls(c.views, From(c))
    decreases Budget(c), 1
  {
    var a := Round(s, script, jitter, c);
    FailingRound(s, script, jitter, c);
    if a.result == Success(true) {
      FailingCallsGoesOn(s, script, jitter, c);
    } else {
      assert RunFrom(s, script, jitter, c).final == a.config;
    }
  }

  /** `AlwaysFailingCalls` when the first round goes on. */
  lemma {:induction false} FailingCallsGoesOn(s: Settings, script: nat -> Outcome, jitter: nat -> real, c: Config)
    requires Runnable(c) && AlwaysFails(s, script, c.calls)
    requires Round(s, script, jitter, c).result == Success(true)
    ensures RunFrom(s, script, jitter, c).final.calls == c.calls + FailingCalls(c.views, From(c))
    decreases Budget(c), 0
  {
    var p := From(c);
    var c2 := Round(s, script, jitter, c).config;
    FailingRound(s, script, jitter, c);
    RoundDecreases(s, script, jitter, c);
    RunGoesOn(s, script, jitter, c);
    EvalAdvances(c.views, p, c2.views[p]);
    AlwaysFailingCalls(s, script, jitter, c2);
  }

  /** The run of a function that always fails ends with
      `RetryExaustedError` caused by the exception of its last call. */
  lemma {:induction false} AlwaysFailingError(s: Settings, script: nat -> Outcome, jitter: nat -> real, c: Config)
    requires Runnable(c) && AlwaysFails(s, script, c.calls)
    ensures var run := RunFrom(s, script, jitter, c);
      c.calls < run.final.calls
      && run.result == Failure(RetryExhausted(Some(script(run.final.calls - 1).exc)))
    decreases Budget(c), 1
  {
    var a := Round(s, script, jitter, c);
    FailingRound(s, script, jitter, c);
    if a.result == Success(true) {
      FailingErrorGoesOn(s, script, jitter, c);
    } else {
      assert RunFrom(s, script, jitter, c) == RunResult(Failure(a.result.error), a.config);
    }
  }

  /** `AlwaysFailingError` when the first round goes on. */
  lemma {:induction false} FailingErrorGoesOn(s: Settings, script: nat -> Outcome, jitter: nat -> real, c: Config)
    requires Runnable(c) && AlwaysFails(s, script, c.calls)
    requires Round(s, script, jitter, c).result == Success(true)
    ensures var run := RunFrom(s, script, jitter, c);
      c.calls < run.final.calls
      && run.result == Failure(RetryExhausted(Some(script(run.final.calls - 1).exc)))
    decreases Budget(c), 0
  {
    var c2 := Round(s, script, jitter, c).config;
    FailingRound(s, script, jitter, c);
    RoundDecreases(s, script, jitter, c);
    RunGoesOn(s, script, jitter, c);
    AlwaysFailingError(s, script, jitter, c2);
  }

  /** In the run of a function that always fails, every strategy from the
      next one up to the first stopped one ends at its limit, and every
      other keeps its counter. */
  lemma {:induction false} AlwaysFailingAttempts(s: Settings, script: nat -> Outcome, jitter: nat -> real, c: Config)
    requires Runnable(c) && AlwaysFails(s, script, c.calls)
    ensures var f := RunFrom(s, script, jitter, c).final;
      |f.views| == |c.views|
      && (forall i :: 0 <= i < |c.views| ==>
            f.views[i].attempt == Drained(c.views, From(c), i))
    decreases Budget(c), 1
  {
    var a := Round(s, script, jitter, c);
    FailingRound(s, script, jitter, c);
    if a.result == Success(true) {
      FailingAttemptsGoesOn(s, script, jitter, c);
    } else {
      assert RunFrom(s, script, jitter, c).final == a.config;
    }
  }

  /** The counter strategy `i` ends with in a run that always fails and
      consults strategies from `p` on. */
  function Drained(vs: seq<StrategyView>, p: nat, i: nat): nat
    requires p <= |vs| && i < |vs|
  {
    if p <= i < StopIndex(vs, p) && vs[i].policy.Bounded() then vs[i].policy.Allowance() else vs[i].attempt
  }

  /** `Drained` after one evaluation of the strategy at `p` is `Drained` before it. */
  lemma DrainedAdvances(vs: seq<StrategyView>, p: nat, v: StrategyView)
    requires p < |vs| && !Stopped(vs[p]) && vs[p].policy.Bounded()
    requires v.policy == vs[p].policy && v.attempt == vs[p].attempt + 1
    ensures var next := if Stopped(v) then p + 1 else p;
      forall i :: 0 <= i < |vs| ==> Drained(vs[p := v], next, i) == Drained(vs, p, i)
  {
    EvalAdvances(vs, p, v);
  }

  /** `AlwaysFailingAttempts` when the first round goes on. */
  lemma {:induction false} FailingAttemptsGoesOn(s: Settings, script: nat -> Outcome, jitter: nat -> real, c: Config)
    requires Runnable(c) && AlwaysFails(s, script, c.calls)
    requires Round(s, script, jitter, c).result == Success(true)
    ensures var f := RunFrom(s, script, jitter, c).final;
      |f.views| == |c.views|
      && (forall i :: 0 <= i < |c.views| ==>
            f.views[i].attempt == Drained(c.views, From(c), i))
    decreases Budget(c), 0
  {
    var p := From(c);
    var c2 := Round(s, script, jitter, c).config;
    FailingRound(s, script, jitter, c);
    RoundDecreases(s, script, jitter, c);
    RunGoesOn(s, script, jitter, c);
    DrainedAdvances(c.views, p, c2.views[p]);
    AlwaysFailingAttempts(s, script, jitter, c2);
  }

  /** A strategy that has not counted anything yet. */
  function Fresh(policy: Policy): StrategyView
  {
    StrategyView(policy, 0, [])
  }

  /** The configuration of a new orchestrator over `vs` before its first call. */
  function Start(vs: seq<StrategyView>): Config
  {
    Config(vs, 0, false, 0, 0, [])
  }

  /** The limits of a chain of bounded strategies, added up. */
  function LimitSum(vs: seq<StrategyView>): nat
    requires forall i :: 0 <= i < |vs| ==> vs[i].policy.Bounded()
  {
    if vs == [] then 0 else vs[0].policy.Allowance() + LimitSum(vs[1..])
  }

  /** Strategies that have counted nothing and whose limits are positive:
      no strategy is stopped, and each accepts exactly its limit. */
  ghost predicate FreshChain(vs: seq<StrategyView>)
  {
    forall i :: 0 <= i < |vs| ==>
      vs[i].attempt == 0 && vs[i].policy.Bounded() && 0 < vs[i].policy.Limit()
  }

  /** Over fresh strategies with positive limits, a function that always
      fails is called once per unit of every limit from `p` on, plus once. */
  lemma {:induction false} FreshFailingCalls(vs: seq<StrategyView>, p: nat)
    requires p <= |vs| && FreshChain(vs)
    ensures FailingCalls(vs, p) == 1 + LimitSum(vs[p..])
    decreases |vs| - p
  {
    if p < |vs| {
      FreshFailingCalls(vs, p + 1);
      assert vs[p..][1..] == vs[p + 1..];
    }
  }

  /** A new orchestrator over fresh strategies `[S(n1), ..., S(nk)]` with
      every limit positive, against a function that always fails: exactly
      1 + n1 + ... + nk calls, and the error is caused by the last
      exception. */
  lemma FreshChainFailingRun(s: Settings, script: nat -> Outcome, jitter: nat -> real, vs: seq<StrategyView>)
    requires AlwaysFails(s, script, 0) && FreshChain(vs)
    ensures var run := RunFrom(s, script, jitter, Start(vs));
      run.final.calls == 1 + LimitSum(vs)
      && run.result == Failure(RetryExhausted(Some(script(LimitSum(vs)).exc)))
  {
    var c := Start(vs);
    assert From(c) == 0 && Runnable(c);
    FreshFailingCalls(vs, 0);
    assert vs[0..] == vs;
    AlwaysFailingCalls(s, script, jitter, c);
    AlwaysFailingError(s, script, jitter, c);
  }

  /** `[NoopStrategy(2), NoopStrategy(4)]` against a function that always
      fails: 1 + 2 + 4 calls, both strategies end at their limits, and the
      error is caused by the exception of the seventh call. */
  lemma TwoNoopsExample(s: Settings, script: nat -> Outcome, jitter: nat -> real)
    requires AlwaysFails(s, script, 0)
    ensures var run := RunFrom(s, script, jitter, Start([Fresh(Noop(2)), Fresh(Noop(4))]));
      var vs := run.final.views;
      run.final.calls == 7 && |vs| == 2 && vs[0].attempt == 2 && vs[1].attempt == 4
      && run.result == Failure(RetryExhausted(Some(script(6).exc)))
  {
    var c := Start([Fresh(Noop(2)), Fresh(Noop(4))]);
    assert FailingCalls(c.views, 2) == 1;
    assert FailingCalls(c.views, 1) == 5;
    assert StopIndex(c.views, 1) == 2;
    AlwaysFailingCalls(s, script, jitter, c);
    AlwaysFailingError(s, script, jitter, c);
    AlwaysFailingAttempts(s, script, jitter, c);
  }

  /** A strategy with limit 0 is already stopped when it is pulled: the run
      fails after one call instead of skipping to the next strategy. */
  lemma ZeroLimitExample(s: Settings, script: nat -> Outcome, jitter: nat -> real)
    requires AlwaysFails(s, script, 0)
    ensures var run := RunFrom(s, script, jitter, Start([Fresh(Noop(0)), Fresh(Noop(3))]));
      var vs := run.final.views;
      run.final.calls == 1 && |vs| == 2 && vs[1].attempt == 0
      && run.result == Failure(RetryExhausted(Some(script(0).exc)))
  {
    var c := Start([Fresh(Noop(0)), Fresh(Noop(3))]);
    AlwaysFailingCalls(s, script, jitter, c);
    AlwaysFailingError(s, script, jitter, c);
    AlwaysFailingAttempts(s, script, jitter, c);
  }

  /** With no strategies, a failing function is called exactly once. */
  lemma EmptyChainExample(s: Settings, script: nat -> Outcome, jitter: nat -> real)
    requires AlwaysFails(s, script, 0)
    ensures var run := RunFrom(s, script, jitter, Start([]));
      run.final.calls == 1 && run.result == Failure(RetryExhausted(Some(script(0).exc)))
  {
    AlwaysFailingCalls(s, script, jitter, Start([]));
    AlwaysFailingError(s, script, jitter, Start([]));
  }
}
