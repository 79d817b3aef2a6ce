/**
  Line-number arithmetic of the AAA rule: expanding a span into the lines it
  covers, concatenating those lists for many spans, and the minimum and
  maximum of a non-empty list (`Math.min` / `Math.max`).
 */
module LineSpans {
  import opened Syntax

  /** `getAllLinesFromLocation`: the lines from the start line up to and
      including the end line, in increasing order; none when start > end. */
  function LinesOf(span: Span): (r: seq<int>)
    ensures |r| == if span.startLine <= span.endLine then span.endLine - span.startLine + 1 else 0
    ensures forall k :: 0 <= k < |r| ==> r[k] == span.startLine + k
    ensures forall x :: x in r <==> span.Covers(x)
    decreases span.endLine - span.startLine
  {
    if span.startLine > span.endLine then []
    else [span.startLine] + LinesOf(Span(span.startLine + 1, span.endLine))
  }

  /** Some span of `spans` covers `line`. */
  predicate CoveredBy(spans: seq<Span>, line: int) {
    exists i :: 0 <= i < |spans| && spans[i].Covers(line)
  }

  /** The lines of every span, concatenated in span order (`flatMap`). */
  function FlatLines(spans: seq<Span>): seq<int> {
    if |spans| == 0 then [] else LinesOf(spans[0]) + FlatLines(spans[1..])
  }

  /** Expanding two lists of spans one after the other expands each in turn. */
  lemma {:induction false} FlatLinesAppend(a: seq<Span>, b: seq<Span>)
    ensures FlatLines(a + b) == FlatLines(a) + FlatLines(b)
  {
    if |a| > 0 {
      assert (a + b)[0] == a[0];
      assert (a + b)[1..] == a[1..] + b;
      FlatLinesAppend(a[1..], b);
    } else {
      assert a + b == b;
    }
  }

  /** A line appears in the concatenation exactly when some span covers it. */
  lemma {:induction false} FlatLinesCover(spans: seq<Span>)
    ensures forall x :: x in FlatLines(spans) <==> CoveredBy(spans, x)
  {
    if |spans| > 0 {
      FlatLinesCover(spans[1..]);
      forall x | CoveredBy(spans, x)
        ensures spans[0].Covers(x) || CoveredBy(spans[1..], x)
      {
        var i :| 0 <= i < |spans| && spans[i].Covers(x);
        if i > 0 {
          assert spans[1..][i - 1] == spans[i];
        }
      }
    }
  }

  function Min(xs: seq<int>): (m: int)
    requires |xs| > 0
    ensures m in xs
    ensures forall x :: x in xs ==> m <= x
  {
    if |xs| == 1 then xs[0]
    else
      var rest := Min(xs[1..]);
      assert forall x :: x in xs ==> x == xs[0] || x in xs[1..];
      if xs[0] <= rest then xs[0] else rest
  }

  function Max(xs: seq<int>): (m: int)
    requires |xs| > 0
    ensures m in xs
    ensures forall x :: x in xs ==> x <= m
  {
    if |xs| == 1 then xs[0]
    else
      var rest := Max(xs[1..]);
      assert forall x :: x in xs ==> x == xs[0] || x in xs[1..];
      if xs[0] >= rest then xs[0] else rest
  }

}
