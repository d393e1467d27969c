/** Optional values and the outcome of an operation that may throw. */
module Outcomes {

  datatype Option<T> = None | Some(value: T)

  /** What an awaited JavaScript operation produces: a value, or a thrown
      error carrying its message. */
  datatype Outcome<T> = Success(value: T) | Failure(error: string)

  /** JavaScript's `option || fallback` for an integer option: an absent
      option and the falsy 0 both select the fallback. */
  function IntOr(option: Option<int>, fallback: int): int
  {
    if option.Some? && option.value != 0 then option.value else fallback
  }

  /** The same for a numeric option modelled as a real. */
  function RealOr(option: Option<real>, fallback: real): real
  {
    if option.Some? && option.value != 0.0 then option.value else fallback
  }
}
