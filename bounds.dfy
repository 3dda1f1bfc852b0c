// The fixed bounds of the decimal precision and of the iteration limit,
// shared by the render settings and by the `prec` and `max_iter` commands.
module Bounds {

  const MIN_DECIMAL_PREC: int := 8
  const MAX_DECIMAL_PREC: int := 10000

  const MIN_MAX_ITER: int := 8
  const MAX_MAX_ITER: int := 10000
}
