/** The `@retry(stop=stop_after_attempt(3), ...)` decorator that wraps
    `chat`, `embed_text` and `embed_batch`: the whole decorated call is
    re-run, from the start, after any exception, at most three times in
    all. Attempt `a` (0, 1 or 2) is whatever the wrapped call does on
    that attempt, given as `run(a)`; the waiting between attempts is
    not modelled. */
module Retry {
  import opened Common

  const MaxAttempts: nat := 3

  function RetryFrom<T, E>(run: nat -> Result<T, E>, a: nat): (r: Result<T, E>)
    requires a < MaxAttempts
    ensures r.Success? <==> exists b :: a <= b < MaxAttempts && run(b).Success?
    ensures r.Success? ==> exists b :: a <= b < MaxAttempts && r == run(b)
                                   && forall c :: a <= c < b ==> run(c).Failure?
    ensures r.Failure? ==> r == run(MaxAttempts - 1)
    decreases MaxAttempts - a
  {
    if run(a).Success? || a + 1 == MaxAttempts then run(a) else RetryFrom(run, a + 1)
  }

  /** What a decorated call raises after its third failed attempt:
      tenacity's `RetryError`, which holds the last attempt (the decorator
      is not given `reraise=True`). */
  datatype RetryError<E> = RetryError(last: E)

  /** The decorated call: the value of the first attempt that returns, or
      a `RetryError` over the error of the third attempt when all three
      raise. */
  function Retried<T, E>(run: nat -> Result<T, E>): (r: Result<T, RetryError<E>>)
    ensures r.Success? <==> exists b :: 0 <= b < MaxAttempts && run(b).Success?
    ensures r.Success? ==> exists b :: 0 <= b < MaxAttempts && run(b) == Success(r.value)
                                   && forall c :: 0 <= c < b ==> run(c).Failure?
    ensures r.Failure? ==> run(MaxAttempts - 1).Failure? && r.error == RetryError(run(MaxAttempts - 1).error)
  {
    match RetryFrom(run, 0)
    case Success(v) => Success(v)
    case Failure(e) => Failure(RetryError(e))
  }

  /** A call whose first attempt returns is not retried. */
  lemma RetriedFirstSuccess<T, E>(run: nat -> Result<T, E>)
    requires run(0).Success?
    ensures Retried(run) == Success(run(0).value)
  {
  }

  /** A call that raises the same error on every attempt ends in a
      `RetryError` over that error, whatever the attempts are. */
  lemma RetriedConstantFailure<T, E>(run: nat -> Result<T, E>, e: E)
    requires forall a :: 0 <= a < MaxAttempts ==> run(a) == Failure(e)
    ensures Retried(run) == Failure(RetryError(e))
  {
  }
}
