/** Small vocabulary shared by the modules. */
module Basics {
  function Min(a: int, b: int): int { if a <= b then a else b }

  function Max(a: int, b: int): int { if a >= b then a else b }

  /** A call returns a value or throws. */
  datatype Try<+T> = Answered(value: T) | Threw
}
