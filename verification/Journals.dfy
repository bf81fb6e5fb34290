/** The history of an object: what it did and the states in between, kept for the proofs only. */
module Journals {

  class Journal<S(!new), A(!new)> {
    ghost var run: seq<S>
    ghost var acts: seq<A>

    constructor (ghost start: S)
      ensures run == [start] && acts == []
    {
      run, acts := [start], [];
    }

    ghost method Note(a: A, s: S)
      modifies this
      ensures run == old(run) + [s] && acts == old(acts) + [a]
    {
      run, acts := run + [s], acts + [a];
    }
  }
}
