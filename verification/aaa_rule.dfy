/**
  The `enforce-aaa-comments` rule: for each call `it(description, impl)`
  whose implementation has a block body, decide from the blank-line breaks,
  the number of statements and the comment labels whether to report.
 */
module AaaRule {
  import opened Wrappers
  import opened Syntax
  import opened LineSpans
  import opened Collections
  import opened Layout
  import opened AaaLabels

  /** The one message every failure branch reports. */
  const AaaMessage: string :=
    "More than 2 line breaks were found. Provide all AAA comments for better readability or delete redundant line breaks."

  /** The span of each comment, in comment order. */
  function CommentSpans(comments: seq<Comment>): seq<Span> {
    seq(|comments|, i requires 0 <= i < |comments| => comments[i].loc)
  }

  /** Every span of the body: the statements first, then the comments. */
  function AllSpans(b: Block): seq<Span> {
    b.statements + CommentSpans(b.comments)
  }

  /** `allOccupiedLines`: the lines of every statement, then of every comment. */
  function OccupiedLines(b: Block): seq<int> {
    FlatLines(AllSpans(b))
  }

  /** A line is listed exactly when a statement or a comment of the body covers it. */
  lemma OccupiedIff(b: Block)
    ensures forall x :: x in OccupiedLines(b) <==> CoveredBy(AllSpans(b), x)
  {
    FlatLinesCover(AllSpans(b));
  }

  /** `lineBreaksCount`: the lines strictly between the first and the last
      occupied line that no statement or comment covers. */
  function LineBreaks(b: Block): (n: nat)
    ensures |OccupiedLines(b)| == 0 ==> n == 0
    ensures |OccupiedLines(b)| > 0 ==>
              n == |set i | Min(OccupiedLines(b)) < i < Max(OccupiedLines(b)) && !CoveredBy(AllSpans(b), i)|
  {
    var lines := OccupiedLines(b);
    if |lines| == 0 then BreakCount(lines)
    else
      OccupiedIff(b);
      assert GapSet(lines) == set i | Min(lines) < i < Max(lines) && !CoveredBy(AllSpans(b), i);
      BreakCount(lines)
  }

  /** Every span of `s1` also occurs in `s2`. */
  ghost predicate SpansIncluded(s1: seq<Span>, s2: seq<Span>) {
    forall i :: 0 <= i < |s1| ==> s1[i] in s2
  }

  lemma CoverageIncluded(s1: seq<Span>, s2: seq<Span>, x: int)
    requires SpansIncluded(s1, s2)
    requires CoveredBy(s1, x)
    ensures CoveredBy(s2, x)
  {
    var i :| 0 <= i < |s1| && s1[i].Covers(x);
    var j :| 0 <= j < |s2| && s2[j] == s1[i];
  }

  /** Two bodies whose statements and comments cover the same lines have the
      same break count: it depends on which lines are occupied, not on which
      statement or comment occupies them or in what order they come. */
  lemma BreaksSameCoverage(b1: Block, b2: Block)
    requires forall x :: CoveredBy(AllSpans(b1), x) <==> CoveredBy(AllSpans(b2), x)
    ensures LineBreaks(b1) == LineBreaks(b2)
  {
    var o1, o2 := OccupiedLines(b1), OccupiedLines(b2);
    OccupiedIff(b1);
    OccupiedIff(b2);
    assert forall x :: x in Elems(o1) <==> x in Elems(o2);
    assert Elems(o1) == Elems(o2);
    BreakCountSameLines(o1, o2);
  }

  /** Two bodies whose spans include each other's have the same break count. */
  lemma BreaksIgnoreOrder(b1: Block, b2: Block)
    requires SpansIncluded(AllSpans(b1), AllSpans(b2))
    requires SpansIncluded(AllSpans(b2), AllSpans(b1))
    ensures LineBreaks(b1) == LineBreaks(b2)
  {
    forall x
      ensures CoveredBy(AllSpans(b1), x) <==> CoveredBy(AllSpans(b2), x)
    {
      if CoveredBy(AllSpans(b1), x) {
        CoverageIncluded(AllSpans(b1), AllSpans(b2), x);
      }
      if CoveredBy(AllSpans(b2), x) {
        CoverageIncluded(AllSpans(b2), AllSpans(b1), x);
      }
    }
    BreaksSameCoverage(b1, b2);
  }

  /** `getBlockStatement`: only an arrow function with a block body and a
      function expression have a body the rule analyses. */
  function GetBlockStatement(arg: Argument): (r: Option<Block>)
    ensures r.Some? <==> arg.ArrowBlock? || arg.FunctionExpression?
    ensures r.Some? ==> r.value == arg.block
  {
    match arg
    case ArrowBlock(block) => Some(block)
    case FunctionExpression(block) => Some(block)
    case _ => None
  }

  /** The decision table closing the handler, from the break count, the
      number of statements and the comments. One or two breaks always pass;
      a single statement without breaks passes; anything else passes only
      when the comments name each of the three labels exactly once. Every
      failure reports the same message. */
  function Decide(breaks: nat, statementCount: nat, comments: seq<Comment>): (r: Option<Diagnostic>)
    ensures r.Some? ==> r.value == Diagnostic(AaaMessage)
    ensures breaks == 1 || breaks == 2 ==> r.None?
    ensures statementCount == 1 && breaks == 0 ==> r.None?
    ensures breaks != 1 && breaks != 2 && !(statementCount == 1 && breaks == 0) ==>
              (r.Some? <==> !EachLabelOnce(comments))
  {
    if breaks == 1 || breaks == 2 then None
    else if statementCount == 1 && breaks == 0 then None
    else if PresentExactlyOnce(comments) then None
    else Some(Diagnostic(AaaMessage))
  }

  /** The decision for one analysable body. */
  function CheckBody(b: Block): Option<Diagnostic> {
    Decide(LineBreaks(b), |b.statements|, b.comments)
  }

  /** The `CallExpression` handler. Calls to anything but the identifier
      `it`, calls without a second argument and calls whose second argument
      has no block body are skipped; the rest get the body decision. */
  function CheckTestCase(call: CallExpression): (r: Option<Diagnostic>)
    ensures !call.callee.IsIt() ==> r.None?
    ensures |call.arguments| < 2 ==> r.None?
    ensures |call.arguments| >= 2 && (call.arguments[1].ArrowExpression? || call.arguments[1].OtherArgument?) ==>
              r.None?
    ensures call.callee.IsIt() && |call.arguments| >= 2 && GetBlockStatement(call.arguments[1]).Some? ==>
              r == CheckBody(call.arguments[1].block)
  {
    if !call.callee.IsIt() then None
    else if |call.arguments| < 2 then None
    else
      match GetBlockStatement(call.arguments[1])
      case None => None
      case Some(block) => CheckBody(block)
  }

  /** A body with neither statements nor comments is reported: no line is
      occupied, the break count is 0, the statement count is not 1 and no
      label is present. */
  lemma EmptyBodyReported(b: Block)
    requires b.statements == [] && b.comments == []
    ensures CheckBody(b) == Some(Diagnostic(AaaMessage))
  {
    assert Count(b.comments, "arrange") == 0;
  }

  /** Reordering the comments never changes the decision when the
      statements keep their lines. */
  lemma CommentOrderIrrelevant(b1: Block, b2: Block)
    requires b1.statements == b2.statements
    requires multiset(b1.comments) == multiset(b2.comments)
    ensures CheckBody(b1) == CheckBody(b2)
  {
    PermutedCommentsIncluded(b1, b2);
    PermutedCommentsIncluded(b2, b1);
    BreaksIgnoreOrder(b1, b2);
    ReorderKeepsVerdict(b1.comments, b2.comments);
  }

  /** With the same statements and comments drawn from the same multiset,
      every span of the first body occurs in the second. */
  lemma PermutedCommentsIncluded(b1: Block, b2: Block)
    requires b1.statements == b2.statements
    requires multiset(b1.comments) == multiset(b2.comments)
    ensures SpansIncluded(AllSpans(b1), AllSpans(b2))
  {
    var n := |b1.statements|;
    forall i | 0 <= i < |AllSpans(b1)|
      ensures AllSpans(b1)[i] in AllSpans(b2)
    {
      if i < n {
        assert AllSpans(b1)[i] == AllSpans(b2)[i];
      } else {
        var c := b1.comments[i - n];
        assert c in multiset(b2.comments);
        var j :| 0 <= j < |b2.comments| && b2.comments[j] == c;
        assert AllSpans(b2)[n + j] == c.loc;
      }
    }
  }

  /** The decision depends on the body only through its break count, its
      number of statements and whether each label occurs exactly once. */
  lemma SameInputsSameDecision(b1: Block, b2: Block)
    requires LineBreaks(b1) == LineBreaks(b2) && |b1.statements| == |b2.statements|
    requires PresentExactlyOnce(b1.comments) == PresentExactlyOnce(b2.comments)
    ensures CheckBody(b1) == CheckBody(b2)
  {
  }

  /** Inserting a span whose lines are all covered already leaves the
      covered lines as they were. */
  lemma InsertCoveredSpan(xs: seq<Span>, sp: Span, ys: seq<Span>)
    requires forall x :: sp.Covers(x) ==> CoveredBy(xs + ys, x)
    ensures forall x :: CoveredBy(xs + [sp] + ys, x) <==> CoveredBy(xs + ys, x)
  {
    var s1, s2 := xs + [sp] + ys, xs + ys;
    forall x
      ensures CoveredBy(s1, x) <==> CoveredBy(s2, x)
    {
      if CoveredBy(s2, x) {
        var i :| 0 <= i < |s2| && s2[i].Covers(x);
        if i < |xs| {
          assert s1[i] == s2[i];
        } else {
          assert s1[i + 1] == s2[i];
        }
      }
      if CoveredBy(s1, x) {
        var i :| 0 <= i < |s1| && s1[i].Covers(x);
        if i < |xs| {
          assert s2[i] == s1[i];
        } else if i > |xs| {
          assert s2[i - 1] == s1[i];
        }
      }
    }
  }

  /** Inserting a comment that lies only on occupied lines keeps the break
      count. */
  lemma CoveredCommentKeepsBreaks(statements: seq<Span>, before: seq<Comment>, c: Comment, after: seq<Comment>)
    requires forall x :: c.loc.Covers(x) ==> CoveredBy(AllSpans(Block(statements, before + after)), x)
    ensures LineBreaks(Block(statements, before + [c] + after)) == LineBreaks(Block(statements, before + after))
  {
    var b1 := Block(statements, before + [c] + after);
    var b2 := Block(statements, before + after);
    var xs, ys := statements + CommentSpans(before), CommentSpans(after);
    assert AllSpans(b1) == xs + [c.loc] + ys;
    assert AllSpans(b2) == xs + ys;
    InsertCoveredSpan(xs, c.loc, ys);
    BreaksSameCoverage(b1, b2);
  }

  /** Inserting a comment that is not a label and lies only on lines that are
      already occupied never changes the decision. (A comment on a blank line
      can: it removes a break.) */
  lemma UnrelatedCommentKeepsDecision(statements: seq<Span>, before: seq<Comment>, c: Comment, after: seq<Comment>)
    requires Normalize(c.value) !in Labels
    requires forall x :: c.loc.Covers(x) ==> CoveredBy(AllSpans(Block(statements, before + after)), x)
    ensures CheckBody(Block(statements, before + [c] + after)) == CheckBody(Block(statements, before + after))
  {
    var b1 := Block(statements, before + [c] + after);
    var b2 := Block(statements, before + after);
    CoveredCommentKeepsBreaks(statements, before, c, after);
    UnrelatedCommentKeepsVerdict(before, c, after);
    SameInputsSameDecision(b1, b2);
  }

}
