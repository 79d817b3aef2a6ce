# eslint-plugin-aaa-comments in Dafny

A model of the two lint rules of `eslint-plugin-aaa-comments`, with proofs
about the model.

- **`enforce-aaa-comments`** checks each `it(description, impl)` call whose
  implementation has a block body. It counts the blank "line breaks" between
  the first and last occupied line. The body passes if:
  - it has one or two breaks; or
  - it has a single statement and no break; or
  - its comments, trimmed and lower-cased, name `arrange`, `act` and `assert`
    exactly once each.

  Otherwise the rule reports its single message.
- **`enforce-sut-interaction`** is a three-flag state machine
  (`insideItBlock`, `foundSutInteraction`, `foundNonStaticObjectMethodCall`)
  driven by the host's traversal. On leaving an `it` call, it reports when
  the body called a method on an ordinary receiver but never touched `sut`.

The model has no ESLint machinery. A test body is given as the line spans of
its statements and its comments (text plus span). The traversal is given as
a sequence of events:
- `EnterCall(callee)`;
- `ExitCall(callee)`;
- `EnterMember(objectName)`.

A call is modelled as its callee and its arguments' shapes. Reports are
returned as values: an `Option<Diagnostic>` per AAA test case, and a list of
diagnostics for a SUT run.

Modules, one concept each:

| file | module | contents |
|---|---|---|
| `wrappers.dfy` | `Wrappers` | `Option` |
| `collections.dfy` | `Collections` | the set of a sequence's elements (`new Set(...)`) |
| `syntax.dfy` | `Syntax` | spans, comments, blocks, call shapes, diagnostics |
| `js_strings.dfy` | `JsStrings` | `trim`, and ASCII `toLowerCase`/`toUpperCase` |
| `line_spans.dfy` | `LineSpans` | `getAllLinesFromLocation`, the flat list of lines, `Math.min`/`Math.max` |
| `layout.dfy` | `Layout` | the break count over a list of occupied lines |
| `aaa_labels.dfy` | `AaaLabels` | `checkAaaComments` |
| `aaa_rule.dfy` | `AaaRule` | the `CallExpression` handler of `enforce-aaa-comments` and `getBlockStatement` |
| `sut_rule.dfy` | `SutRule` | options, `isLikelyClassName`, the three handlers, the fold over events |
| `aaa_examples.dfy` | `AaaExamples` | the AAA rule's test cases as concrete lemmas |
| `sut_examples.dfy` | `SutExamples` | the SUT rule's test cases as concrete lemmas |

A body with no statements might be expected to be skipped as unanalysable.
The code does not skip it: it analyses such a body like any other, and the
model follows the code:
- A body with no statements and no comments occupies no line. `Math.min`
  and `Math.max` of nothing are ±Infinity, the loop never runs, and the count
  is 0. The statement count is not 1, and no label is present, so the body
  is **reported** (`AaaRule.EmptyBodyReported`).
- A body with only comments is judged on its comment lines and labels.

## Model

| member | source | states |
|---|---|---|
| LineSpans.LinesOf | enforce-aaa-comments.js:94-100 | the lines of a span are start, start+1, …, end: end − start + 1 of them when start ≤ end, none otherwise, and a line is listed exactly when the span covers it |
| LineSpans.FlatLines | enforce-aaa-comments.js:59 | the `flatMap` of `getAllLinesFromLocation` over a list of spans; its meaning is stated by `LineSpans.FlatLinesCover` and `LineSpans.FlatLinesAppend` |
| LineSpans.FlatLinesCover | enforce-aaa-comments.js:59-60 | the concatenated lines of a list of spans contain a line exactly when some span of the list covers it |
| LineSpans.FlatLinesAppend | enforce-aaa-comments.js:59-60 | expanding statements and then comments is expanding each list and concatenating, as `flatMap` followed by `push` does |
| LineSpans.Min | enforce-aaa-comments.js:62 | `Math.min` of a non-empty list is one of its elements and no greater than any element |
| LineSpans.Max | enforce-aaa-comments.js:63 | `Math.max` of a non-empty list is one of its elements and no smaller than any element |
| Layout.EmptyLinesFrom | enforce-aaa-comments.js:66-71 | the loop collects only unoccupied lines of the range `[from, hi)`, in strictly increasing order |
| Layout.EmptyLinesComplete | enforce-aaa-comments.js:66-71 | the loop skips no unoccupied line of the range and collects at most one line per iteration |
| Layout.BreakCount | enforce-aaa-comments.js:59-74 | the count equals the number of integers strictly between the minimum and maximum occupied line that are not occupied, and is therefore at most max − min − 1; with no occupied line it is 0 |
| Layout.GapsAreInterior | enforce-aaa-comments.js:62-71 | every counted line is unoccupied and has an occupied line above and below it, so leading and trailing blank lines never count |
| Layout.BreakCountSameLines | enforce-aaa-comments.js:64-74 | the count depends only on the set of occupied lines, not on their order or repetition |
| AaaRule.OccupiedLines | enforce-aaa-comments.js:59-60 | `allOccupiedLines`: the statements' lines followed by the comments' lines; its meaning is stated by `AaaRule.OccupiedIff` |
| AaaRule.OccupiedIff | enforce-aaa-comments.js:59-60 | a line is in `allOccupiedLines` exactly when a statement or a comment of the body covers it |
| AaaRule.LineBreaks | enforce-aaa-comments.js:59-74 | the body's break count is the number of lines strictly between its first and last occupied line that no statement or comment covers, and 0 when no line is occupied |
| AaaRule.BreaksSameCoverage | enforce-aaa-comments.js:59-74 | two bodies whose statements and comments cover the same lines have the same break count |
| AaaRule.BreaksIgnoreOrder | enforce-aaa-comments.js:59-74 | two bodies whose spans include each other's have the same break count |
| AaaLabels.Collected | enforce-aaa-comments.js:21-23 | the collected texts are label names, at most one per comment |
| AaaLabels.CollectedCounts | enforce-aaa-comments.js:21-23 | each label occurs among the collected texts as often as comments normalize to it |
| AaaLabels.PresentExactlyOnce | enforce-aaa-comments.js:25-29 | "as many collected labels as distinct ones, and three distinct ones" holds exactly when `arrange`, `act` and `assert` each occur exactly once: a duplicate or a missing label fails |
| AaaLabels.PresentExactlyOnceIff | enforce-aaa-comments.js:25-29 | the distinct-and-three test on the collected list agrees with every label being counted exactly once, in both directions |
| AaaLabels.CountAppend | enforce-aaa-comments.js:20-23 | the count over two lists of comments is the sum of their counts |
| AaaLabels.RemoveOne | enforce-aaa-comments.js:20-23 | taking one comment out of a list takes exactly its contribution out of the count |
| AaaLabels.MatchFirst | enforce-aaa-comments.js:20-23 | matching the first comment of a list with an equal one of a permutation leaves two permutations |
| AaaLabels.CountPermutation | enforce-aaa-comments.js:20-23 | how many comments normalize to a label does not depend on the comments' order |
| AaaLabels.ReorderKeepsVerdict | enforce-aaa-comments.js:20-29 | reordering the comments never changes the label verdict |
| AaaLabels.UnrelatedCommentKeepsVerdict | enforce-aaa-comments.js:20-29 | inserting a comment whose normalized text is not a label never changes the label verdict |
| JsStrings.TrimStart | enforce-aaa-comments.js:22 | `trim` removes the leading run of ECMAScript white space and line terminators, and no more |
| JsStrings.TrimEnd | enforce-aaa-comments.js:22 | `trim` removes the trailing run of ECMAScript white space and line terminators, and no more |
| JsStrings.PrefixThenSuffix | enforce-aaa-comments.js:22 | removing a leading run of white space and then a trailing run leaves a middle slice of the input with only white space around it |
| JsStrings.Trim | enforce-aaa-comments.js:22 | the trimmed text is a contiguous slice of the input, everything before and after that slice is white space or a line terminator, and the slice neither starts nor ends with one |
| JsStrings.TrimFixedIff | enforce-aaa-comments.js:22 | trimming leaves a text unchanged exactly when it is empty or neither end is white space |
| JsStrings.TrimIdempotent | enforce-aaa-comments.js:22 | trimming twice is trimming once |
| JsStrings.ToLower | enforce-aaa-comments.js:22 | lower-casing keeps the length, leaves no ASCII capital, turns each ASCII capital into its lower-case letter and leaves every other character unchanged |
| JsStrings.LowerMatch | enforce-aaa-comments.js:22 | a text lower-cases to a lower-case word exactly when it has the word's length and each character is the word's letter or its capital |
| AaaLabels.Normalize | enforce-aaa-comments.js:22 | the comment text trimmed and lower-cased; what it matches is stated by `AaaLabels.NormalizeMatchesLabel` |
| AaaLabels.NormalizeMatchesLabel | enforce-aaa-comments.js:22 | a comment names a label exactly when its trimmed text has the label's length and spells it letter by letter in either case |
| AaaRule.GetBlockStatement | enforce-aaa-comments.js:105-113 | a body is returned exactly for an arrow function with a block body and for a function expression, and it is that function's body |
| AaaRule.Decide | enforce-aaa-comments.js:31-85 | every report carries the single AAA message; 1 or 2 breaks never report; one statement with 0 breaks never reports; in every other case the body is reported exactly when some label is missing or repeated |
| AaaRule.CheckBody | enforce-aaa-comments.js:56-85 | the decision for one analysable body: `AaaRule.Decide` applied to the break count of `AaaRule.LineBreaks`, the number of statements and the comments, so the properties stated for those two hold of it |
| AaaRule.CheckTestCase | enforce-aaa-comments.js:41-54 | a call whose callee is not the identifier `it`, that has no second argument, or whose second argument is an expression-bodied arrow or not a function, is skipped; any other call gets the body decision, so at most one diagnostic per call |
| AaaRule.EmptyBodyReported | enforce-aaa-comments.js:59-85 | a body with no statements and no comments is reported |
| AaaRule.CommentOrderIrrelevant | enforce-aaa-comments.js:20-23 | with the same statements, any reordering of the comments gives the same decision |
| AaaRule.PermutedCommentsIncluded | enforce-aaa-comments.js:59-60 | reordering the comments keeps every occupied span present |
| AaaRule.InsertCoveredSpan | enforce-aaa-comments.js:59-60 | inserting a span whose lines are all occupied already leaves the occupied lines as they were |
| AaaRule.CoveredCommentKeepsBreaks | enforce-aaa-comments.js:59-74 | inserting a comment that lies only on occupied lines keeps the break count |
| AaaRule.SameInputsSameDecision | enforce-aaa-comments.js:56-85 | the decision depends on a body only through its break count, its number of statements and whether each label occurs exactly once |
| AaaRule.UnrelatedCommentKeepsDecision | enforce-aaa-comments.js:20-85 | inserting a comment that is not a label and lies only on occupied lines never changes the decision; a comment on a blank line can, because it removes a break |
| SutRule.IgnoredObjects | enforce-sut-interaction.js:3-35 | with no option object the ignored receivers are exactly `assert`, `expect`, `should`, `sinon`, `jest`, `test`, `chai`; a supplied option object replaces the defaults entirely: exactly its `ignoredObjects` list, or nothing when the key is absent |
| SutRule.IsLikelyClassName | enforce-sut-interaction.js:47-49 | a name is class-like exactly when it is non-empty and its first character is not a lower-case letter, so `_`, `$` and digit-initial names count too |
| SutRule.OnCallEnter | enforce-sut-interaction.js:53-58 | entering `it(...)` sets `insideItBlock` and clears both found-flags; entering any other call changes nothing |
| SutRule.OnCallExit | enforce-sut-interaction.js:62-93 | outside a block nothing happens; `x.m()` raises the ordinary-call flag exactly when `x` is neither ignored nor class-like, and the SUT flag when `x` is also `sut`; leaving `it(...)` reports exactly when an ordinary call was seen and `sut` was not, then closes the block without touching the found-flags |
| SutRule.OnMember | enforce-sut-interaction.js:96-100 | a member access on `sut` inside a block, whether a getter or a callee, raises the SUT flag; nothing else changes |
| SutRule.Step | enforce-sut-interaction.js:53-100 | apart from entering `it`, no event lowers a found-flag; outside a block only entering `it` changes the state; only leaving `it` inside a block can report |
| SutRule.Run | enforce-sut-interaction.js:81-92 | a traversal produces at most one report per `it` exit, each with the SUT message |
| SutRule.RunAppend | enforce-sut-interaction.js:51-101 | handling a traversal in two parts is handling the second part from the state the first left |
| SutRule.SnocEvent | enforce-sut-interaction.js:68-78 | what a block has seen grows by exactly the contribution of each new event |
| SutRule.OpenBlock | enforce-sut-interaction.js:53-100 | after entering `it` and then events without nested `it` calls, the flags say exactly whether an ordinary method call and a `sut` interaction occurred, and nothing has been reported |
| SutRule.SingleTestCase | enforce-sut-interaction.js:53-100 | one `it` call without nested `it` calls reports once exactly when its body has an ordinary method call and no `sut` interaction, whatever the state before; afterwards the block is closed |
| SutRule.OutsideInert | enforce-sut-interaction.js:63-65 | with no open block, events that do not enter `it` change nothing and report nothing |
| SutRule.NestedInOpenBlock | enforce-sut-interaction.js:55-57 | an `it` nested in an open block reports as if it stood alone and leaves the shared block closed |
| SutRule.ClosedTail | enforce-sut-interaction.js:91 | once the block is closed, the rest of the outer body and the outer `it` exit change nothing |
| SutRule.NestedOuterSilenced | enforce-sut-interaction.js:91 | with nested `it` calls only the inner exit can report; the outer exit never reports |
| AaaExamples.ActAndAssertPasses | enforce-aaa-comments.test.js:10-19 | one break, no diagnostic |
| AaaExamples.ArrangeActAssertPasses | enforce-aaa-comments.test.js:20-31 | two breaks, no diagnostic |
| AaaExamples.MultilineCallPasses | enforce-aaa-comments.test.js:32-45 | a statement spanning three lines, two breaks, no diagnostic |
| AaaExamples.RandomCommentsPasses | enforce-aaa-comments.test.js:46-60 | two breaks with two labels only, no diagnostic |
| AaaExamples.MultilineCommentPasses | enforce-aaa-comments.test.js:61-78 | a three-line block comment occupies its lines, two breaks, no diagnostic |
| AaaExamples.LabelledManyBreaksPasses | enforce-aaa-comments.test.js:79-95 | three breaks with `Arrange`, `Act`, `Assert` comments, no diagnostic |
| AaaExamples.SingleStatementPasses | enforce-aaa-comments.test.js:96-103 | a single statement, no diagnostic |
| AaaExamples.LabelledNoBreaksPasses | enforce-aaa-comments.test.js:104-116 | no break with all three lower-case labels, no diagnostic |
| AaaExamples.TwoStatementsReported | enforce-aaa-comments.test.js:119-128 | two statements, no break and no labels are reported |
| AaaExamples.TwoStatementsInFunctionReported | enforce-aaa-comments.test.js:129-138 | the same inside a function expression is reported |
| AaaExamples.ThreeBreaksReported | enforce-aaa-comments.test.js:139-152 | three breaks without labels are reported |
| AaaExamples.MissingAssertReported | enforce-aaa-comments.test.js:153-168 | three breaks with the `Assert` label missing are reported |
| AaaExamples.OtherCalleeSkipped | enforce-aaa-comments.js:42-44 | a call to `describe` is not analysed |
| AaaExamples.ExpressionBodySkipped | enforce-aaa-comments.js:105-113 | an expression-bodied arrow is not analysed |
| SutExamples.FindsSutPasses | enforce-sut-interaction.test.js:10-18 | `sut.invalidate(...)` with `Random.int` and `assert` is not reported |
| SutExamples.OnlyAssertPasses | enforce-sut-interaction.test.js:19-27 | a plain function call and `assert` only is not reported |
| SutExamples.StaticCallPasses | enforce-sut-interaction.test.js:28-36 | a call on class-like `Random` does not count, so it is not reported |
| SutExamples.SutGetterPasses | enforce-sut-interaction.test.js:37-46 | `context.getDefault()` with a getter read of `sut.maxAttempts` is not reported |
| SutExamples.NoSutReported | enforce-sut-interaction.test.js:49-58 | `client.invalidate(...)` without `sut` is reported once |
| SutExamples.OptionsReplaceDefaults | enforce-sut-interaction.js:33-35 | `assert` is ignored by default; supplying `["client"]` ignores `client` and no longer `assert`; an option object without the key ignores nothing |
| SutExamples.OverrideDropsDefaults | enforce-sut-interaction.js:33-35 | because the supplied list is not merged with the defaults, `assert.strictEqual` counts as an ordinary call once `["client"]` is supplied, and the body of enforce-sut-interaction.test.js:19-27 is then reported |
| SutExamples.ClassLikeReceivers | enforce-sut-interaction.js:47-49 | `Random`, `_`, `$el` and `2d` are class-like; `client` and `sut` are not |

## Left out

- ESLint's traversal, visitor dispatch order and `getCommentsInside` are left out. Their results are inputs: the statement and comment spans of a body, and the event sequence of a file. The example event streams follow ESLint's order: a call is entered, then its callee's member access and its arguments, then it is left.
- `context.report` is not modelled as a side effect. It becomes a returned `Option<Diagnostic>` or an appended diagnostic, and the reported node is dropped from the diagnostic.
- The option JSON schema (enforce-sut-interaction.js:13-29) is host-side validation and is left out. It declares the items of `ignoredObjects` as `number` (lines 21-25), so ESLint's schema validation would reject a list of names such as `["client"]` before the rule runs; the defaults and every use in the rule are strings, so the model takes a list of strings, as the rule's code evidently intends. `SutExamples.OverrideDropsDefaults` therefore shows what the rule's code does with such a list once it gets past validation.
- eslint-plugin-aaa-comments.js only packages rule ids and presets, with no logic, so it is not part of this model.
- The `RuleTester` harness and `console.log` of the test files are left out. Their inputs and expected outcomes appear as example lemmas. Lines in the AAA examples are the lines in the test file, which keep the template's relative layout.
- JsStrings.ToLower: case mapping is ASCII only; Unicode `toLowerCase` is not modelled. No character outside ASCII lower-cases to a letter of `arrange`, `act` or `assert`, so which comments match a label is unaffected.
- SutRule.IsLikelyClassName: uses ASCII `toUpperCase`. A name whose first character is non-ASCII and changed by JavaScript's `toUpperCase` counts as class-like here but not in JavaScript: a lower-case letter such as `é`, a title-case letter such as `ǅ`, or `ß`, which upper-cases to `SS`.
- SutRule.IsLikelyClassName: the source's extra `name &&` test is only there for non-string input, which the model's string type excludes.
- Texts are sequences of Dafny `char`s, which are Unicode scalar values, whereas JavaScript strings are UTF-16 code units. No outcome changes: every character `trim` removes and every ASCII letter lies in the Basic Multilingual Plane, where the two agree, and a name whose first character is outside it is class-like both in JavaScript (a lone surrogate is unchanged by `toUpperCase`) and in the model.
- Idempotence of the rules themselves is not stated: every operation is a pure function of its input.
