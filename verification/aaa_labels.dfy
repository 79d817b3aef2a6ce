/**
  The label check of the AAA rule (`checkAaaComments`): after trimming and
  lower-casing, the comments must name "arrange", "act" and "assert" each
  exactly once; comments with any other text are ignored.
 */
module AaaLabels {
  import opened Syntax
  import opened JsStrings
  import opened Collections

  const Labels: set<string> := {"arrange", "act", "assert"}

  /** The text a comment is matched on: `value.trim().toLowerCase()`. */
  function Normalize(text: string): string {
    ToLower(Trim(text))
  }

  /** A comment names a label exactly when its trimmed text spells the label
      in any mix of capital and small letters. */
  lemma NormalizeMatchesLabel(text: string, lbl: string)
    requires lbl in Labels
    ensures Normalize(text) == lbl <==>
              |Trim(text)| == |lbl|
              && forall i :: 0 <= i < |lbl| ==> Trim(text)[i] == lbl[i] || Trim(text)[i] as int == lbl[i] as int - 32
  {
    assert forall i :: 0 <= i < |lbl| ==> 'a' <= lbl[i] <= 'z';
    LowerMatch(Trim(text), lbl);
  }

  /** `comments.map(normalize).filter(isLabel)`: the label texts, in comment
      order, duplicates kept. */
  function Collected(comments: seq<Comment>): (r: seq<string>)
    ensures |r| <= |comments|
    ensures forall k :: 0 <= k < |r| ==> r[k] in Labels
  {
    if |comments| == 0 then []
    else
      var t := Normalize(comments[0].value);
      (if t in Labels then [t] else []) + Collected(comments[1..])
  }

  /** Reference definition: how many comments normalize to `lbl`. */
  function Count(comments: seq<Comment>, lbl: string): nat {
    if |comments| == 0 then 0
    else (if Normalize(comments[0].value) == lbl then 1 else 0) + Count(comments[1..], lbl)
  }

  /** Every label occurs exactly once among the comments. */
  predicate EachLabelOnce(comments: seq<Comment>) {
    Count(comments, "arrange") == 1 && Count(comments, "act") == 1 && Count(comments, "assert") == 1
  }

  /** `collectedAaaCommentsArePresentExactlyOnce`: as many collected labels as
      distinct ones, and three distinct ones. This is the same as every label
      occurring exactly once. */
  function PresentExactlyOnce(comments: seq<Comment>): (r: bool)
    ensures r <==> EachLabelOnce(comments)
  {
    var collected := Collected(comments);
    PresentExactlyOnceIff(comments);
    |collected| == |Elems(collected)| && |Elems(collected)| == 3
  }

  lemma {:induction false} CollectedCounts(comments: seq<Comment>, lbl: string)
    requires lbl in Labels
    ensures multiset(Collected(comments))[lbl] == Count(comments, lbl)
  {
    if |comments| > 0 {
      CollectedCounts(comments[1..], lbl);
      var t := Normalize(comments[0].value);
      assert Collected(comments) == (if t in Labels then [t] else []) + Collected(comments[1..]);
    }
  }

  /** A list with as many elements as distinct values holds each value at most once. */
  lemma {:induction false} DistinctMultiplicity(xs: seq<string>, x: string)
    requires |Elems(xs)| == |xs|
    ensures multiset(xs)[x] <= 1
  {
    if |xs| > 0 {
      var t := xs[1..];
      assert xs == [xs[0]] + t;
      assert Elems(xs) == {xs[0]} + Elems(t);
      SetCardBound(t);
      DistinctMultiplicity(t, x);
    }
  }

  lemma {:induction false} SetCardBound(xs: seq<string>)
    ensures |Elems(xs)| <= |xs|
  {
    if |xs| > 0 {
      SetCardBound(xs[1..]);
      assert Elems(xs) == {xs[0]} + Elems(xs[1..]);
    }
  }

  /** The three labels are different words. */
  lemma LabelsDistinct()
    ensures "arrange" != "act" && "arrange" != "assert" && "act" != "assert"
  {
    assert |"act"| == 3 && |"assert"| == 6 && |"arrange"| == 7;
  }

  lemma LabelsCard()
    ensures |Labels| == 3
  {
    LabelsDistinct();
  }

  /** A three-element subset of the three labels is all of them. */
  lemma ThreeLabels(s: set<string>)
    requires s <= Labels && |s| == 3
    ensures s == Labels
  {
    LabelsCard();
    if s != Labels {
      var missing :| missing in Labels && missing !in s;
      assert s <= Labels - {missing};
      assert |Labels - {missing}| == 2;
      SubsetCard(s, Labels - {missing});
    }
  }

  lemma {:induction false} SubsetCard(a: set<string>, b: set<string>)
    requires a <= b
    ensures |a| <= |b|
    decreases |b|
  {
    if a != {} {
      var x :| x in a;
      SubsetCard(a - {x}, b - {x});
    }
  }

  ghost predicate DistinctThree(s: seq<string>) {
    |s| == |Elems(s)| && |Elems(s)| == 3
  }

  lemma DistinctThreeGivesOnce(s: seq<string>, lbl: string)
    requires forall k :: 0 <= k < |s| ==> s[k] in Labels
    requires DistinctThree(s)
    requires lbl in Labels
    ensures multiset(s)[lbl] == 1
  {
    var distinct := Elems(s);
    ThreeLabels(distinct);
    DistinctMultiplicity(s, lbl);
    assert lbl in distinct;
  }

  lemma OnceGivesDistinctThree(s: seq<string>)
    requires forall k :: 0 <= k < |s| ==> s[k] in Labels
    requires multiset(s)["arrange"] == 1 && multiset(s)["act"] == 1 && multiset(s)["assert"] == 1
    ensures DistinctThree(s)
  {
    LabelsCard();
    assert multiset(s) == multiset{"arrange", "act", "assert"};
    assert Elems(s) == Labels;
  }

  lemma PresentExactlyOnceIff(comments: seq<Comment>)
    ensures DistinctThree(Collected(comments)) <==> EachLabelOnce(comments)
  {
    var s := Collected(comments);
    CollectedCounts(comments, "arrange");
    CollectedCounts(comments, "act");
    CollectedCounts(comments, "assert");
    if DistinctThree(s) {
      DistinctThreeGivesOnce(s, "arrange");
      DistinctThreeGivesOnce(s, "act");
      DistinctThreeGivesOnce(s, "assert");
    }
    if EachLabelOnce(comments) {
      OnceGivesDistinctThree(s);
    }
  }

  lemma {:induction false} CountAppend(a: seq<Comment>, b: seq<Comment>, lbl: string)
    ensures Count(a + b, lbl) == Count(a, lbl) + Count(b, lbl)
  {
    if |a| > 0 {
      assert (a + b)[1..] == a[1..] + b;
      CountAppend(a[1..], b, lbl);
    } else {
      assert a + b == b;
    }
  }

  /** Taking one comment out of a list takes its contribution out of the count. */
  lemma RemoveOne(b: seq<Comment>, k: int, lbl: string)
    requires 0 <= k < |b|
    ensures Count(b, lbl) == Count(b[..k] + b[k + 1..], lbl) + Count([b[k]], lbl)
  {
    assert b == b[..k] + [b[k]] + b[k + 1..];
    CountAppend(b[..k] + [b[k]], b[k + 1..], lbl);
    CountAppend(b[..k], [b[k]], lbl);
    CountAppend(b[..k], b[k + 1..], lbl);
  }

  /** Matching the first comment of `a` with an equal one of `b` leaves two
      permutations of each other. */
  lemma MatchFirst(a: seq<Comment>, b: seq<Comment>, k: int)
    requires multiset(a) == multiset(b) && |a| > 0
    requires 0 <= k < |b| && b[k] == a[0]
    ensures multiset(a[1..]) == multiset(b[..k] + b[k + 1..])
  {
    assert a == [a[0]] + a[1..];
    assert multiset(a) == multiset{a[0]} + multiset(a[1..]);
    assert b == b[..k] + [b[k]] + b[k + 1..];
    assert multiset(b) == multiset(b[..k]) + multiset{b[k]} + multiset(b[k + 1..]);
    var rest := b[..k] + b[k + 1..];
    assert multiset(rest) == multiset(b[..k]) + multiset(b[k + 1..]);
    assert multiset{a[0]} + multiset(a[1..]) == multiset{a[0]} + multiset(rest);
    forall z
      ensures multiset(a[1..])[z] == multiset(rest)[z]
    {
      assert (multiset{a[0]} + multiset(a[1..]))[z] == (multiset{a[0]} + multiset(rest))[z];
    }
  }

  /** The count of a label does not depend on the order of the comments. */
  lemma {:induction false} CountPermutation(a: seq<Comment>, b: seq<Comment>, lbl: string)
    requires multiset(a) == multiset(b)
    ensures Count(a, lbl) == Count(b, lbl)
    decreases |a|
  {
    if |a| == 0 {
      assert |b| == |multiset(b)| == 0;
    } else {
      assert a[0] in multiset(b);
      var k :| 0 <= k < |b| && b[k] == a[0];
      MatchFirst(a, b, k);
      CountPermutation(a[1..], b[..k] + b[k + 1..], lbl);
      RemoveOne(b, k, lbl);
      CountAppend([a[0]], a[1..], lbl);
      assert [a[0]] + a[1..] == a;
    }
  }

  /** Reordering the comments never changes the label verdict. */
  lemma ReorderKeepsVerdict(a: seq<Comment>, b: seq<Comment>)
    requires multiset(a) == multiset(b)
    ensures PresentExactlyOnce(a) == PresentExactlyOnce(b)
  {
    CountPermutation(a, b, "arrange");
    CountPermutation(a, b, "act");
    CountPermutation(a, b, "assert");
  }

  /** Adding a comment whose text is not a label never changes the verdict. */
  lemma UnrelatedCommentKeepsVerdict(before: seq<Comment>, c: Comment, after: seq<Comment>)
    requires Normalize(c.value) !in Labels
    ensures PresentExactlyOnce(before + [c] + after) == PresentExactlyOnce(before + after)
  {
    forall lbl | lbl in Labels
      ensures Count(before + [c] + after, lbl) == Count(before + after, lbl)
    {
      CountAppend(before + [c], after, lbl);
      CountAppend(before, [c], lbl);
      CountAppend(before, after, lbl);
      assert Count([c], lbl) == 0;
    }
  }

}
