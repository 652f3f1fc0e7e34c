/**
  Invariants that are looked into only where that is asked for: they are stated as
  `forall n :: Asked(n) ==> ...`, and `assert Asked(0)` opens them.
*/
module Sealing {
  predicate Asked(n: int) { true }
}
