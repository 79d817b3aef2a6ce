/** Sequence helpers shared by both rules. */
module Collections {

  /** The set of a sequence's elements (`new Set(xs)`). */
  function Elems<T>(xs: seq<T>): set<T> {
    set x | x in xs
  }

}
