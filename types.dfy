/** Shared vocabulary: optional values, results, money and time. */
module Types {

  /** A value that may be absent: `None` stands for JavaScript's `undefined`,
      and for the NaN that `parseFloat` returns on text that is not a number. */
  datatype Option<T> = None | Some(value: T) {
    function GetOr(default: T): T {
      match this
      case Some(v) => v
      case None => default
    }
  }

  /** The outcome of a call that can fail with an error of type E. */
  datatype Result<T, E> = Ok(value: T) | Err(error: E)

  /** Amounts of money, in euro cents. The application keeps euros in
      JavaScript numbers; cents make the arithmetic exact. */
  type Cents = int

  /** A point in time, in milliseconds since the epoch (a JavaScript Date). */
  type Timestamp = int

  /** The number a form field holds once `parseFloat` has read its text. */
  type Field = Option<Cents>

  /** `isNaN(x) || x <= 0` fails: the field holds a positive number. */
  predicate IsPositive(f: Field) {
    f.Some? && f.value > 0
  }

  function Min(a: int, b: int): int {
    if a < b then a else b
  }

  function Max(a: int, b: int): int {
    if a < b then b else a
  }
}
