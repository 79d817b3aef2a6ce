/**
  The "break count" of a test body: how many line numbers strictly between
  the first and the last occupied line are occupied by nothing.
 */
module Layout {
  import opened Syntax
  import opened LineSpans
  import opened Collections

  /** Reference definition: the blank lines strictly inside the occupied range. */
  ghost function GapSet(lines: seq<int>): set<int>
    requires |lines| > 0
  {
    set i | Min(lines) < i < Max(lines) && i !in lines
  }

  /** The loop collecting `emptyLines`: lines from `from` up to but not
      including `hi` that are not occupied, in increasing order. */
  function EmptyLinesFrom(occupied: set<int>, from: int, hi: int): (r: seq<int>)
    ensures forall k :: 0 <= k < |r| ==> from <= r[k] < hi && r[k] !in occupied
    ensures forall k, k' :: 0 <= k < k' < |r| ==> r[k] < r[k']
    decreases hi - from
  {
    if from >= hi then []
    else
      var rest := EmptyLinesFrom(occupied, from + 1, hi);
      if from in occupied then rest else [from] + rest
  }

  /** The loop skips no unoccupied line, and collects at most one entry per
      iteration. */
  lemma {:induction false} EmptyLinesComplete(occupied: set<int>, from: int, hi: int)
    ensures forall i :: from <= i < hi && i !in occupied ==> i in EmptyLinesFrom(occupied, from, hi)
    ensures |EmptyLinesFrom(occupied, from, hi)| <= if from < hi then hi - from else 0
    decreases hi - from
  {
    if from < hi {
      EmptyLinesComplete(occupied, from + 1, hi);
    }
  }

  /** A strictly increasing list has as many elements as distinct values. */
  lemma {:induction false} IncreasingCard(xs: seq<int>)
    requires forall k, k' :: 0 <= k < k' < |xs| ==> xs[k] < xs[k']
    ensures |Elems(xs)| == |xs|
  {
    if |xs| > 0 {
      IncreasingCard(xs[1..]);
      assert Elems(xs) == {xs[0]} + Elems(xs[1..]);
      assert xs[0] !in Elems(xs[1..]);
    }
  }

  /** The number of unoccupied lines strictly between the
      minimum and the maximum occupied line. With no occupied line at all the
      loop never runs and the count is 0. */
  function BreakCount(lines: seq<int>): (n: nat)
    ensures |lines| == 0 ==> n == 0
    ensures |lines| > 0 ==> n == |GapSet(lines)|
    ensures |lines| > 0 ==> n == 0 || n <= Max(lines) - Min(lines) - 1
  {
    if |lines| == 0 then 0
    else
      var lo := Min(lines);
      var hi := Max(lines);
      var empty := EmptyLinesFrom(Elems(lines), lo + 1, hi);
      EmptyLinesComplete(Elems(lines), lo + 1, hi);
      IncreasingCard(empty);
      assert Elems(empty) == GapSet(lines);
      |empty|
  }

  /** Every counted line has an occupied line above and below it, so blank
      lines before the first or after the last occupied line never count. */
  lemma GapsAreInterior(lines: seq<int>, x: int)
    requires |lines| > 0
    requires x in GapSet(lines)
    ensures x !in lines
    ensures exists a, b :: a in lines && b in lines && a < x < b
  {
    assert Min(lines) in lines && Max(lines) in lines;
  }

  /** The break count depends only on which lines are occupied, not on the
      order or multiplicity in which the spans list them. */
  lemma BreakCountSameLines(l1: seq<int>, l2: seq<int>)
    requires Elems(l1) == Elems(l2)
    ensures BreakCount(l1) == BreakCount(l2)
  {
    assert |l1| > 0 ==> l1[0] in Elems(l1);
    assert |l2| > 0 ==> l2[0] in Elems(l2);
    if |l1| > 0 {
      assert l1[0] in Elems(l2);
      assert Min(l1) in Elems(l2) && Min(l2) in Elems(l1);
      assert Max(l1) in Elems(l2) && Max(l2) in Elems(l1);
      assert Min(l1) == Min(l2) && Max(l1) == Max(l2);
      forall i
        ensures i in l1 <==> i in l2
      {
        assert i in l1 <==> i in Elems(l1);
        assert i in l2 <==> i in Elems(l2);
      }
      assert GapSet(l1) == GapSet(l2);
    }
  }

}
