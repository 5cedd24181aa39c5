/** Shared vocabulary: optional values and instants. */
module Common {

  /** A nullable column, or a Go value that may be nil. */
  datatype Option<+T> = None | Some(value: T)

  /** An instant or a duration on an integer clock. Each module says which unit it counts in. */
  type Time = int

  function Max(a: int, b: int): int {
    if a < b then b else a
  }

  function Min(a: int, b: int): int {
    if a < b then a else b
  }

  /** SQL's GREATEST on nullable instants: nulls are ignored. */
  function Greatest(a: Option<Time>, b: Option<Time>): Option<Time> {
    match (a, b)
    case (None, _) => b
    case (_, None) => a
    case (Some(x), Some(y)) => Some(Max(x, y))
  }

  /** SQL's COALESCE of two nullable values. */
  function Coalesce<T>(a: Option<T>, b: Option<T>): Option<T> {
    if a.Some? then a else b
  }
}
