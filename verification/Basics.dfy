/** Two definitions shared by modules that otherwise have nothing to do with each other. */
module Basics {

  function Max(a: nat, b: nat): nat {
    if a < b then b else a
  }

  /** No name is listed twice. */
  predicate Distinct(names: seq<string>) {
    forall i, j | 0 <= i < j < |names| :: names[i] != names[j]
  }
}
