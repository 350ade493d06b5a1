/** What an accessor that may throw does: it either returns normally with a
    value, or throws. Exceptions are modelled as values, not as control flow. */
module Outcomes {

  /** `Returned(v)`: the call returned `v`. `Threw(x)`: the call threw `x`. */
  datatype Outcome<T, X> = Returned(value: T) | Threw(thrown: X)
}
