/** Python's `range`, as far as the loops of the model need it. */
module Ranges {
  /** The number of iterations of `range(n)`. */
  function Count(n: int): nat
  {
    if n < 0 then 0 else n
  }
}
