/** Small result types shared by every module. */
module Common {

  datatype Option<+T> = None | Some(value: T)

  /** A promise that resolved with a value, or rejected for a reason. */
  datatype Result<+T, +E> = Ok(value: T) | Rejected(reason: E)

  /** Some element of a set that has one. */
  ghost function AnyOf<T>(s: set<T>): (x: T)
    requires s != {}
    ensures x in s
  {
    var y :| y in s; y
  }

  function Max(a: int, b: int): int { if a < b then b else a }

  function Min(a: int, b: int): int { if a < b then a else b }

}
