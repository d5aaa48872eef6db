/** Vocabulary shared by every module: optional values and operation results. */
module Base {

  datatype Option<+T> = None | Some(value: T)

  /** An operation of the source either returns a value or raises an error. */
  datatype Result<+T, +E> = Ok(value: T) | Err(error: E)

  ghost predicate NoDuplicates<T>(xs: seq<T>) {
    forall i, j :: 0 <= i < j < |xs| ==> xs[i] != xs[j]
  }

  function Max(a: int, b: int): int { if a < b then b else a }
}
