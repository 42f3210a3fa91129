// Vocabulary shared by every module: optional values and time constants.
module Common {
  datatype Option<+T> = None | Some(value: T)

  // Durations and clock readings are integers counting nanoseconds, as time.Duration does.
  const MILLISECOND: int := 1_000_000
  const SECOND: int := 1_000_000_000

  function Min(a: int, b: int): int { if a <= b then a else b }

  function Max(a: int, b: int): int { if a >= b then a else b }
}
