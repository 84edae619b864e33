/** What the two step machines share. */
module Runs {

  /** Marks the position of a run that a proof looks at; it keeps all other steps folded. */
  predicate Position(k: int) {
    true
  }
}
