/** Small shared vocabulary: integer helpers and the outcome of an operation
    that can raise one of the Python exceptions the core can raise. */
module Common {

  function Min(a: int, b: int): int { if a <= b then a else b }

  function Max(a: int, b: int): int { if a >= b then a else b }

  /** The exceptions the modelled code can raise: `int(s, 16)` on a string that
      is not hexadecimal (or is empty) raises ValueError, indexing past the end
      of a list raises IndexError. */
  datatype PyError = ValueError | IndexError

  datatype Result<T> = Ok(value: T) | Err(error: PyError)
}
