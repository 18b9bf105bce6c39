/**
  What every part of the model needs: an optional value, and the identities of objects.
 */
module Basics {

  datatype Option<+T> = None | Some(value: T)

  /** Objects are numbered; a number is never used for a second object. */
  type ObjectId = nat

  /** One element moves from the rest of a scan to what the scan has kept. */
  lemma Regroup<T>(done: seq<T>, x: T, rest: seq<T>)
    ensures done + ([x] + rest) == (done + [x]) + rest
  {
  }
}
