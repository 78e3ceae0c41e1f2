/** How calls over a connection, or writes to a disk, end. */
module Faults {

  /** A call works, fails before it took effect, or takes effect while its answer is lost. */
  datatype Fault = Works | FailsBefore | FailsAfter

  /** Some call of a stretch of calls fails. */
  ghost predicate Fails(script: nat -> Fault, from: nat, to: nat) {
    exists n :: from <= n < to && !script(n).Works?
  }

  lemma FailsWidens(script: nat -> Fault, from: nat, to: nat, wideFrom: nat, wideTo: nat)
    requires wideFrom <= from && to <= wideTo && Fails(script, from, to)
    ensures Fails(script, wideFrom, wideTo)
  {
  }
}
