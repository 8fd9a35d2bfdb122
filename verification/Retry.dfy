/** The retry loop every registry call goes through. */
module Retry {
  import opened Content

  const DEFAULT_RETRIES: int := 3

  /** `ctx.Err()` when it is not nil. */
  datatype ContextError = ContextCanceled | DeadlineExceeded

  /** What the context says before attempt `n`, and while waiting after it. */
  datatype Ctx = Ctx(before: nat -> Option<ContextError>, waiting: nat -> Option<ContextError>)

  datatype Outcome<E> = Succeeded | Aborted(ctx: ContextError) | Exhausted(attempts: nat, last: E)

  function Budget(retries: int): (n: nat)
    ensures n > 0
  {
    if retries <= 0 then DEFAULT_RETRIES else retries
  }

  /** `retry.Operation`: `answers(n)` is the error of the `n`th attempt. Attempts count from 1. */
  method Operation<E>(retries: int, ctx: Ctx, answers: nat -> Option<E>) returns (r: Outcome<E>, calls: nat)
    ensures calls <= Budget(retries) == if retries > 0 then retries else 3
    ensures forall n | 0 < n < calls :: answers(n).Some?
    ensures r.Succeeded? <==> calls > 0 && answers(calls).None?
    ensures r.Exhausted? ==> calls == r.attempts == Budget(retries) && answers(calls) == Some(r.last)
    ensures r.Aborted? ==> calls < Budget(retries)
                           && (ctx.before(calls + 1) == Some(r.ctx) || ctx.waiting(calls) == Some(r.ctx))
  {
    var budget := Budget(retries);
    calls := 0;
    for attempt := 1 to budget + 1
      invariant calls == attempt - 1 && forall n | 0 < n <= calls :: answers(n).Some?
      invariant attempt == budget + 1 ==> calls > 0
    {
      if ctx.before(attempt).Some? {
        return Aborted(ctx.before(attempt).value), calls;
      }
      calls := attempt;
      var err := answers(attempt);
      if err.None? {
        return Succeeded, calls;
      }
      if attempt < budget && ctx.waiting(attempt).Some? {
        return Aborted(ctx.waiting(attempt).value), calls;
      }
    }
    r := Exhausted(budget, answers(budget).value);
  }
}
