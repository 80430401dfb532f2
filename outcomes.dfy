/** Values that flow through the retry engine: what the retried function
    returns or raises, the argument a strategy evaluates, and the two
    exhaustion errors of the package (`RetryStrategyExausted`, raised by a
    single strategy, and `RetryExaustedError`, raised by the orchestrator).
    The package's `exceptions` file is not part of this model: only the
    names of the two errors and the `__cause__` they carry are used. */
module Outcomes {

  datatype Option<+T> = None | Some(value: T)

  datatype Result<+R, +E> = Success(value: R) | Failure(error: E)

  /** The name of an exception class. The orchestrator compares classes
      exactly (`exc.__class__ in on_exceptions`), never by subclassing. */
  type ExcClass = string

  /** An exception instance: its class, and an identity that tells two
      raised instances apart (a fresh instance is raised on every call). */
  datatype Exc = Exc(cls: ExcClass, id: nat)

  /** An object returned by the retried function; `NoneValue` is Python's None. */
  datatype Value = NoneValue | IntValue(i: int)

  /** What one call of the retried function produced. The same shape is what
      `Strategy.eval` receives ("returned value or exception") and what an
      after-hook receives. */
  datatype Outcome = Returned(value: Value) | Raised(exc: Exc)

  /** The `__cause__` of an error raised `from value if isinstance(value, Exception) else None`. */
  function CauseOf(o: Outcome): Option<Exc>
  {
    match o
    case Raised(e) => Some(e)
    case Returned(_) => None
  }

  /** `RetryStrategyExausted`: a strategy was evaluated after it had already stopped. */
  datatype StrategyExhausted = StrategyExhausted(cause: Option<Exc>)

  /** `RetryExaustedError`: the run gave up; `cause` is the chained `__cause__`. */
  datatype RetryExhausted = RetryExhausted(cause: Option<Exc>)
}
