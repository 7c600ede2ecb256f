/** Vocabulary shared by the whole project. */
module Common {

  datatype Option<+T> = None | Some(value: T)

  datatype Result<+T, +E> = Ok(value: T) | Err(error: E)

  /** Instants and durations are whole microseconds, as in Python's datetime. */
  type Time = int

  const SECOND: Time := 1_000_000
  const DAY: Time := 86_400 * SECOND

  const PICONERO: int := 1_000_000_000_000

  /** Monero amounts in whole piconero, rounded down. */
  function ToAtomic(xmr: real): int
    requires xmr >= 0.0
  {
    (xmr * PICONERO as real).Floor
  }

  function Max(a: int, b: int): int {
    if a < b then b else a
  }

  function Min(a: int, b: int): int {
    if a < b then a else b
  }
}
