/**
  The rule's own test cases for `enforce-aaa-comments`, as concrete bodies:
  each statement and comment is reduced to the lines it occupies in the
  test's source text, and `//` comments keep their leading space.
 */
module AaaExamples {
  import opened Wrappers
  import opened Syntax
  import opened JsStrings
  import opened LineSpans
  import opened Layout
  import opened AaaLabels
  import opened AaaRule

  function Line(n: int): Span {
    Span(n, n)
  }

  /** `it('works', impl)`. */
  function Call(impl: Argument): CallExpression {
    CallExpression(Identifier("it"), [OtherArgument, impl])
  }

  // Helpers that let the verifier evaluate the concrete bodies cheaply.

  /** The break count from the extreme lines and an explicit set of the
      blank lines between them. */
  lemma BreaksAre(lines: seq<int>, lo: int, hi: int, gaps: set<int>)
    requires lo in lines && hi in lines
    requires forall x :: x in lines ==> lo <= x <= hi
    requires forall i :: i in gaps ==> lo < i < hi && i !in lines
    requires forall i :: lo < i < hi && i !in lines ==> i in gaps
    ensures BreakCount(lines) == |gaps|
  {
    assert Min(lines) == lo && Max(lines) == hi;
    assert GapSet(lines) == gaps;
  }

  /** A `//` comment's text is a space followed by the word. */
  lemma NormalizeSpaced(w: string)
    requires |w| > 0 && !IsTrimmable(w[0]) && !IsTrimmable(w[|w| - 1])
    ensures Normalize(" " + w) == ToLower(w)
  {
    assert (" " + w)[1..] == w;
  }

  /** A `//` comment holding a lower-case word normalizes to that word. */
  lemma SpacedLowerWord(text: string, w: string)
    requires text == " " + w && |w| > 0
    requires forall i :: 0 <= i < |w| ==> 'a' <= w[i] <= 'z'
    ensures Normalize(text) == w
  {
    NormalizeSpaced(w);
  }

  /** A `//` comment holding a capitalised word normalizes to its lower case
      `lw`. */
  lemma SpacedCapitalWord(text: string, c: char, w: string, lw: string)
    requires text == " " + ([c] + w) && 'A' <= c <= 'Z'
    requires forall i :: 0 <= i < |w| ==> 'a' <= w[i] <= 'z'
    requires |lw| == |w| + 1 && lw[0] as int == c as int + 32 && lw[1..] == w
    ensures Normalize(text) == lw
  {
    NormalizeSpaced([c] + w);
    LowerMatch([c] + w, lw);
  }

  lemma CapitalArrange() ensures Normalize(" Arrange") == "arrange" {
    SpacedCapitalWord(" Arrange", 'A', "rrange", "arrange");
  }

  lemma CapitalAct() ensures Normalize(" Act") == "act" {
    SpacedCapitalWord(" Act", 'A', "ct", "act");
  }

  lemma CapitalAssert() ensures Normalize(" Assert") == "assert" {
    SpacedCapitalWord(" Assert", 'A', "ssert", "assert");
  }

  lemma LowerArrange() ensures Normalize(" arrange") == "arrange" {
    SpacedLowerWord(" arrange", "arrange");
  }

  lemma LowerAct() ensures Normalize(" act") == "act" {
    SpacedLowerWord(" act", "act");
  }

  lemma LowerAssert() ensures Normalize(" assert") == "assert" {
    SpacedLowerWord(" assert", "assert");
  }

  lemma CountOfThree(c1: Comment, c2: Comment, c3: Comment, lbl: string)
    ensures Count([c1, c2, c3], lbl)
            == (if Normalize(c1.value) == lbl then 1 else 0) + (if Normalize(c2.value) == lbl then 1 else 0)
               + (if Normalize(c3.value) == lbl then 1 else 0)
  {
    assert [c1, c2, c3][1..] == [c2, c3];
    assert [c2, c3][1..] == [c3];
    assert [c3][1..] == [];
    assert Count([c3], lbl) == (if Normalize(c3.value) == lbl then 1 else 0);
    assert Count([c2, c3], lbl) == (if Normalize(c2.value) == lbl then 1 else 0) + Count([c3], lbl);
  }

  /** Three comments naming the three labels in order pass the label check. */
  lemma LabelTriple(c1: Comment, c2: Comment, c3: Comment)
    requires Normalize(c1.value) == "arrange" && Normalize(c2.value) == "act" && Normalize(c3.value) == "assert"
    ensures EachLabelOnce([c1, c2, c3])
  {
    LabelsDistinct();
    CountOfThree(c1, c2, c3, "arrange");
    CountOfThree(c1, c2, c3, "act");
    CountOfThree(c1, c2, c3, "assert");
  }

  // passes with act and assert
  const ActAndAssert: Block := Block([Line(14), Line(16)], [])

  lemma ActAndAssertSpans()
    ensures AllSpans(ActAndAssert) == [Line(14), Line(16)]
  {
  }

  lemma ActAndAssertLines()
    ensures OccupiedLines(ActAndAssert) == [14, 16]
  {
    ActAndAssertSpans();
    assert FlatLines([Line(14), Line(16)]) == [14, 16];
  }

  lemma ActAndAssertCount(lines: seq<int>)
    requires lines == [14, 16]
    ensures BreakCount(lines) == 1
  {
    BreaksAre(lines, 14, 16, {15});
  }

  lemma ActAndAssertBreaks()
    ensures LineBreaks(ActAndAssert) == 1
  {
    ActAndAssertLines();
    ActAndAssertCount(OccupiedLines(ActAndAssert));
  }

  lemma ActAndAssertPasses()
    ensures CheckTestCase(Call(ArrowBlock(ActAndAssert))).None?
  {
    ActAndAssertBreaks();
  }

  // passes with arrange, act, assert
  const ArrangeActAssert: Block := Block([Line(24), Line(26), Line(28)], [])

  lemma ArrangeActAssertLines()
    ensures OccupiedLines(ArrangeActAssert) == [24, 26, 28]
  {
    assert AllSpans(ArrangeActAssert) == [Line(24), Line(26), Line(28)];
    assert FlatLines([Line(24), Line(26), Line(28)]) == [24, 26, 28];
  }

  lemma ArrangeActAssertCount(lines: seq<int>)
    requires lines == [24, 26, 28]
    ensures BreakCount(lines) == 2
  {
    BreaksAre(lines, 24, 28, {25, 27});
  }

  lemma ArrangeActAssertPasses()
    ensures CheckTestCase(Call(ArrowBlock(ArrangeActAssert))).None?
  {
    ArrangeActAssertLines();
    ArrangeActAssertCount(OccupiedLines(ArrangeActAssert));
  }

  // passes with arrange, act and assert when multiline calls
  const MultilineCall: Block := Block([Line(36), Span(38, 40), Line(42)], [])

  lemma MultilineCallSpans()
    ensures AllSpans(MultilineCall) == [Line(36), Span(38, 40), Line(42)]
  {
  }

  lemma MultilineCallLines()
    ensures OccupiedLines(MultilineCall) == [36, 38, 39, 40, 42]
  {
    MultilineCallSpans();
    assert FlatLines([Line(36), Span(38, 40), Line(42)]) == [36, 38, 39, 40, 42];
  }

  lemma MultilineCallCount(lines: seq<int>)
    requires lines == [36, 38, 39, 40, 42]
    ensures BreakCount(lines) == 2
  {
    BreaksAre(lines, 36, 42, {37, 41});
  }

  lemma MultilineCallBreaks()
    ensures LineBreaks(MultilineCall) == 2
  {
    MultilineCallLines();
    MultilineCallCount(OccupiedLines(MultilineCall));
  }

  lemma MultilineCallPasses()
    ensures CheckTestCase(Call(ArrowBlock(MultilineCall))).None?
  {
    MultilineCallBreaks();
  }

  // passes with random comments: only two of the three labels, two breaks
  const RandomComments: Block :=
    Block([Line(51), Line(54), Line(57)],
          [Comment(" Some comment", Line(50)), Comment(" Act", Line(53)), Comment(" Assert", Line(56))])

  lemma RandomCommentsStatementLines()
    ensures FlatLines(RandomComments.statements) == [51, 54, 57]
  {
  }

  lemma RandomCommentsCommentLines()
    ensures FlatLines(CommentSpans(RandomComments.comments)) == [50, 53, 56]
  {
    assert CommentSpans(RandomComments.comments) == [Line(50), Line(53), Line(56)];
    assert FlatLines([Line(50), Line(53), Line(56)]) == [50, 53, 56];
  }

  lemma RandomCommentsLines()
    ensures OccupiedLines(RandomComments) == [51, 54, 57] + [50, 53, 56]
  {
    FlatLinesAppend(RandomComments.statements, CommentSpans(RandomComments.comments));
    RandomCommentsStatementLines();
    RandomCommentsCommentLines();
  }

  lemma RandomCommentsCount(lines: seq<int>)
    requires lines == [51, 54, 57] + [50, 53, 56]
    ensures BreakCount(lines) == 2
  {
    BreaksAre(lines, 50, 57, {52, 55});
  }

  lemma RandomCommentsPasses()
    ensures CheckTestCase(Call(ArrowBlock(RandomComments))).None?
  {
    RandomCommentsLines();
    RandomCommentsCount(OccupiedLines(RandomComments));
  }

  // passes with multiline comments: a block comment spans three lines
  const MultilineComment: Block :=
    Block([Line(66), Line(72), Line(75)],
          [Comment(" Some comment", Line(65)), Comment(" Act", Line(68)),
           Comment("*\n * Some long comment\n ", Span(69, 71)), Comment(" Assert", Line(74))])

  lemma MultilineCommentStatementLines()
    ensures FlatLines(MultilineComment.statements) == [66, 72, 75]
  {
  }

  lemma MultilineCommentCommentLines()
    ensures FlatLines(CommentSpans(MultilineComment.comments)) == [65, 68, 69, 70, 71, 74]
  {
    assert CommentSpans(MultilineComment.comments) == [Line(65), Line(68), Span(69, 71), Line(74)];
    assert FlatLines([Line(65), Line(68), Span(69, 71), Line(74)]) == [65, 68, 69, 70, 71, 74];
  }

  lemma MultilineCommentLines()
    ensures OccupiedLines(MultilineComment) == [66, 72, 75] + [65, 68, 69, 70, 71, 74]
  {
    FlatLinesAppend(MultilineComment.statements, CommentSpans(MultilineComment.comments));
    MultilineCommentStatementLines();
    MultilineCommentCommentLines();
  }

  lemma MultilineCommentCount(lines: seq<int>)
    requires lines == [66, 72, 75] + [65, 68, 69, 70, 71, 74]
    ensures BreakCount(lines) == 2
  {
    BreaksAre(lines, 65, 75, {67, 73});
  }

  lemma MultilineCommentBreaks()
    ensures LineBreaks(MultilineComment) == 2
  {
    MultilineCommentLines();
    MultilineCommentCount(OccupiedLines(MultilineComment));
  }

  lemma MultilineCommentPasses()
    ensures CheckTestCase(Call(ArrowBlock(MultilineComment))).None?
  {
    MultilineCommentBreaks();
  }

  // passes when AAA comments provided and any line breaks are present
  const LabelledManyBreaks: Block :=
    Block([Line(84), Line(87), Line(89), Line(92)],
          [Comment(" Arrange", Line(83)), Comment(" Act", Line(86)), Comment(" Assert", Line(91))])

  lemma LabelledManyBreaksStatementLines()
    ensures FlatLines(LabelledManyBreaks.statements) == [84, 87, 89, 92]
  {
  }

  lemma LabelledManyBreaksCommentLines()
    ensures FlatLines(CommentSpans(LabelledManyBreaks.comments)) == [83, 86, 91]
  {
    assert CommentSpans(LabelledManyBreaks.comments) == [Line(83), Line(86), Line(91)];
    assert FlatLines([Line(83), Line(86), Line(91)]) == [83, 86, 91];
  }

  lemma LabelledManyBreaksLines()
    ensures OccupiedLines(LabelledManyBreaks) == [84, 87, 89, 92] + [83, 86, 91]
  {
    FlatLinesAppend(LabelledManyBreaks.statements, CommentSpans(LabelledManyBreaks.comments));
    LabelledManyBreaksStatementLines();
    LabelledManyBreaksCommentLines();
  }

  lemma LabelledManyBreaksCount(lines: seq<int>)
    requires lines == [84, 87, 89, 92] + [83, 86, 91]
    ensures BreakCount(lines) == 3
  {
    BreaksAre(lines, 83, 92, {85, 88, 90});
  }

  lemma LabelledManyBreaksBreaks()
    ensures LineBreaks(LabelledManyBreaks) == 3
  {
    LabelledManyBreaksLines();
    LabelledManyBreaksCount(OccupiedLines(LabelledManyBreaks));
  }

  lemma LabelledManyBreaksPasses()
    ensures CheckTestCase(Call(ArrowBlock(LabelledManyBreaks))).None?
  {
    LabelledManyBreaksBreaks();
    CapitalArrange();
    CapitalAct();
    CapitalAssert();
    LabelTriple(Comment(" Arrange", Line(83)), Comment(" Act", Line(86)), Comment(" Assert", Line(91)));
  }

  // passes when single statement
  const SingleStatement: Block := Block([Line(100)], [])

  lemma SingleStatementSpans()
    ensures AllSpans(SingleStatement) == [Line(100)]
  {
  }

  lemma SingleStatementLines()
    ensures OccupiedLines(SingleStatement) == [100]
  {
    SingleStatementSpans();
    assert FlatLines([Line(100)]) == [100];
  }

  lemma SingleStatementCount(lines: seq<int>)
    requires lines == [100]
    ensures BreakCount(lines) == 0
  {
    BreaksAre(lines, 100, 100, {});
  }

  lemma SingleStatementBreaks()
    ensures LineBreaks(SingleStatement) == 0
  {
    SingleStatementLines();
    SingleStatementCount(OccupiedLines(SingleStatement));
  }

  lemma SingleStatementPasses()
    ensures CheckTestCase(Call(ArrowBlock(SingleStatement))).None?
  {
    SingleStatementBreaks();
  }

  // passes when no line breaks and have comments
  const LabelledNoBreaks: Block :=
    Block([Line(109), Line(111), Line(113)],
          [Comment(" arrange", Line(108)), Comment(" act", Line(110)), Comment(" assert", Line(112))])

  lemma LabelledNoBreaksStatementLines()
    ensures FlatLines(LabelledNoBreaks.statements) == [109, 111, 113]
  {
  }

  lemma LabelledNoBreaksCommentLines()
    ensures FlatLines(CommentSpans(LabelledNoBreaks.comments)) == [108, 110, 112]
  {
    assert CommentSpans(LabelledNoBreaks.comments) == [Line(108), Line(110), Line(112)];
    assert FlatLines([Line(108), Line(110), Line(112)]) == [108, 110, 112];
  }

  lemma LabelledNoBreaksLines()
    ensures OccupiedLines(LabelledNoBreaks) == [109, 111, 113] + [108, 110, 112]
  {
    FlatLinesAppend(LabelledNoBreaks.statements, CommentSpans(LabelledNoBreaks.comments));
    LabelledNoBreaksStatementLines();
    LabelledNoBreaksCommentLines();
  }

  lemma LabelledNoBreaksCount(lines: seq<int>)
    requires lines == [109, 111, 113] + [108, 110, 112]
    ensures BreakCount(lines) == 0
  {
    BreaksAre(lines, 108, 113, {});
  }

  lemma LabelledNoBreaksBreaks()
    ensures LineBreaks(LabelledNoBreaks) == 0
  {
    LabelledNoBreaksLines();
    LabelledNoBreaksCount(OccupiedLines(LabelledNoBreaks));
  }

  lemma LabelledNoBreaksPasses()
    ensures CheckTestCase(Call(ArrowBlock(LabelledNoBreaks))).None?
  {
    LabelledNoBreaksBreaks();
    LowerArrange();
    LowerAct();
    LowerAssert();
    LabelTriple(Comment(" arrange", Line(108)), Comment(" act", Line(110)), Comment(" assert", Line(112)));
  }

  // not passes when more than one statement and no line breaks and comments
  const TwoStatements: Block := Block([Line(123), Line(124)], [])

  lemma TwoStatementsSpans()
    ensures AllSpans(TwoStatements) == [Line(123), Line(124)]
  {
  }

  lemma TwoStatementsLines()
    ensures OccupiedLines(TwoStatements) == [123, 124]
  {
    TwoStatementsSpans();
    assert FlatLines([Line(123), Line(124)]) == [123, 124];
  }

  lemma TwoStatementsCount(lines: seq<int>)
    requires lines == [123, 124]
    ensures BreakCount(lines) == 0
  {
    BreaksAre(lines, 123, 124, {});
  }

  lemma TwoStatementsBreaks()
    ensures LineBreaks(TwoStatements) == 0
  {
    TwoStatementsLines();
    TwoStatementsCount(OccupiedLines(TwoStatements));
  }

  lemma TwoStatementsReported()
    ensures CheckTestCase(Call(ArrowBlock(TwoStatements))) == Some(Diagnostic(AaaMessage))
  {
    TwoStatementsBreaks();
  }

  // ... and using function
  const TwoStatementsInFunction: Block := Block([Line(133), Line(134)], [])

  lemma TwoStatementsInFunctionBreaks()
    ensures LineBreaks(TwoStatementsInFunction) == 0
  {
    assert AllSpans(TwoStatementsInFunction) == [Line(133), Line(134)];
    assert OccupiedLines(TwoStatementsInFunction) == [133, 134];
    BreaksAre(OccupiedLines(TwoStatementsInFunction), 133, 134, {});
  }

  lemma TwoStatementsInFunctionReported()
    ensures CheckTestCase(Call(FunctionExpression(TwoStatementsInFunction))) == Some(Diagnostic(AaaMessage))
  {
    TwoStatementsInFunctionBreaks();
  }

  // three blank lines and no comments
  const ThreeBreaks: Block := Block([Line(142), Line(144), Line(146), Line(148)], [])

  lemma ThreeBreaksSpans()
    ensures AllSpans(ThreeBreaks) == [Line(142), Line(144), Line(146), Line(148)]
  {
  }

  lemma ThreeBreaksLines()
    ensures OccupiedLines(ThreeBreaks) == [142, 144, 146, 148]
  {
    ThreeBreaksSpans();
    assert FlatLines([Line(142), Line(144), Line(146), Line(148)]) == [142, 144, 146, 148];
  }

  lemma ThreeBreaksCount(lines: seq<int>)
    requires lines == [142, 144, 146, 148]
    ensures BreakCount(lines) == 3
  {
    BreaksAre(lines, 142, 148, {143, 145, 147});
  }

  lemma ThreeBreaksBreaks()
    ensures LineBreaks(ThreeBreaks) == 3
  {
    ThreeBreaksLines();
    ThreeBreaksCount(OccupiedLines(ThreeBreaks));
  }

  lemma ThreeBreaksReported()
    ensures CheckTestCase(Call(ArrowBlock(ThreeBreaks))) == Some(Diagnostic(AaaMessage))
  {
    ThreeBreaksBreaks();
  }

  // three blank lines, "Assert" label missing
  const MissingAssert: Block :=
    Block([Line(157), Line(160), Line(162), Line(164)],
          [Comment(" Arrange", Line(156)), Comment(" Act", Line(159))])

  lemma MissingAssertStatementLines()
    ensures FlatLines(MissingAssert.statements) == [157, 160, 162, 164]
  {
  }

  lemma MissingAssertCommentLines()
    ensures FlatLines(CommentSpans(MissingAssert.comments)) == [156, 159]
  {
    assert CommentSpans(MissingAssert.comments) == [Line(156), Line(159)];
    assert FlatLines([Line(156), Line(159)]) == [156, 159];
  }

  lemma MissingAssertLines()
    ensures OccupiedLines(MissingAssert) == [157, 160, 162, 164] + [156, 159]
  {
    FlatLinesAppend(MissingAssert.statements, CommentSpans(MissingAssert.comments));
    MissingAssertStatementLines();
    MissingAssertCommentLines();
  }

  lemma MissingAssertCount(lines: seq<int>)
    requires lines == [157, 160, 162, 164] + [156, 159]
    ensures BreakCount(lines) == 3
  {
    BreaksAre(lines, 156, 164, {158, 161, 163});
  }

  lemma MissingAssertBreaks()
    ensures LineBreaks(MissingAssert) == 3
  {
    MissingAssertLines();
    MissingAssertCount(OccupiedLines(MissingAssert));
  }

  lemma MissingAssertLabels()
    ensures !EachLabelOnce(MissingAssert.comments)
  {
    CapitalArrange();
    CapitalAct();
    LabelsDistinct();
    assert MissingAssert.comments[1..] == [Comment(" Act", Line(159))];
    assert Count(MissingAssert.comments, "assert") == 0;
  }

  lemma MissingAssertReported()
    ensures CheckTestCase(Call(ArrowBlock(MissingAssert))) == Some(Diagnostic(AaaMessage))
  {
    MissingAssertBreaks();
    MissingAssertLabels();
  }

  /** A call to something other than `it` is never analysed. */
  lemma OtherCalleeSkipped()
    ensures CheckTestCase(CallExpression(Identifier("describe"), [OtherArgument, ArrowBlock(TwoStatements)])).None?
  {
  }

  /** An arrow function with an expression body is never analysed. */
  lemma ExpressionBodySkipped()
    ensures CheckTestCase(Call(ArrowExpression)).None?
  {
  }

}
