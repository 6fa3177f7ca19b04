/** Small definitions that client and server share. */
module Common {

  datatype Option<+T> = None | Some(value: T)

  /** What an R entry point gives back: a value, or the R error that it raises. */
  datatype Result<+T> = Ok(value: T) | HandleClosed | ResponseMissing

  type Bytes = seq<bv8>

  function B(b: bool): int { if b then 1 else 0 }

  function Min(a: int, b: int): int { if a < b then a else b }

  function Max(a: int, b: int): int { if a < b then b else a }
}
