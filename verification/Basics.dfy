/** Small shared vocabulary: optional values, bounds and prefixes. */
module Basics {

  datatype Option<+T> = None | Some(value: T)

  function Max(a: int, b: int): int {
    if a < b then b else a
  }

  // The part of a non-negative budget that is left after `used` units.
  function Left(budget: nat, used: nat): nat {
    if used < budget then budget - used else 0
  }

  predicate IsPrefix<T(==)>(a: seq<T>, b: seq<T>) {
    |a| <= |b| && b[..|a|] == a
  }
}
