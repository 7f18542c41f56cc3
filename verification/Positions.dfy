/** Positions in a list, for saying which entries are kept and where they go. */
module Positions {

  /** Positions in a list of `bound` entries, each after the one before. */
  predicate Ascending(positions: seq<nat>, bound: nat)
  {
    && (forall j | 0 <= j < |positions| :: positions[j] < bound)
    && (forall i, j | 0 <= i < j < |positions| :: positions[i] < positions[j])
  }
}
