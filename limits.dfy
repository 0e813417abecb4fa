/** `clamp_limit` from utils.py: how a `--limit` option becomes a fetch bound. */
module Limits {
  import opened Wrappers
  import Validation

  const DefaultLimit: int := 100
  const MaximumLimit: int := 10000
  const NegativeLimitMessage: string := "Limit must be non-negative or -1 for unlimited"

  function Min(a: int, b: int): int {
    if a <= b then a else b
  }

  /**
   * `None` means the default, `-1` means "unlimited" (the maximum), any other
   * negative value is a `ValueError`, and a non-negative value is capped at the
   * maximum.
   */
  function ClampLimit(limit: Option<int>, default: int, maximum: int): (r: Result<int, string>)
    ensures limit.None? ==> r == Success(default)
    ensures limit == Some(-1) ==> r == Success(maximum)
    ensures r.Failure? <==> limit.Some? && limit.value < -1
    ensures r.Failure? ==> r.error == NegativeLimitMessage
    ensures limit.Some? && limit.value >= 0 ==> r.Success? && r.value == Min(limit.value, maximum)
    ensures limit.Some? && r.Success? ==> r.value <= maximum
    ensures limit.Some? && limit.value >= 0 ==> r.value <= limit.value
  {
    if limit.None? then Success(default)
    else if limit.value == -1 then Success(maximum)
    else if limit.value < 0 then Failure(NegativeLimitMessage)
    else Success(Min(limit.value, maximum))
  }

  /**
   * `validate_limit` and `clamp_limit` reject exactly the same limits, so a
   * limit that passed validation never makes the clamp raise.
   */
  lemma {:induction false} ValidatedLimitClamps(limit: Option<int>, default: int, maximum: int)
    ensures Validation.ValidateLimit(limit, "limit").Success? <==> ClampLimit(limit, default, maximum).Success?
  {
  }
}
