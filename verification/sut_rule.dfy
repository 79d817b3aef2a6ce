/**
  The `enforce-sut-interaction` rule as a state machine folded over the
  host's traversal events. Inside an `it(...)` call it records whether some
  method was called on an ordinary receiver and whether `sut` was touched;
  on leaving the `it` call it reports when the first happened without the
  second.
 */
module SutRule {
  import opened Wrappers
  import opened Syntax
  import opened JsStrings
  import opened Collections

  const DefaultIgnoredObjects: seq<string> := ["assert", "expect", "should", "sinon", "jest", "test", "chai"]

  /** The designated system-under-test identifier. */
  const SutName: string := "sut"

  const SutMessage: string := "No interaction with `sut` found."

  /** The rule's first option object, when supplied; its `ignoredObjects`
      key may be absent. */
  datatype RuleOptions = RuleOptions(ignoredObjects: Option<seq<string>>)

  /** The ignored receivers: the supplied list when an option object is
      present (none at all if it lacks the key), otherwise the default list.
      A supplied list replaces the default; nothing is merged. */
  function IgnoredObjects(options: Option<RuleOptions>): (r: set<string>)
    ensures options.None? ==> forall x :: x in r <==> x in DefaultIgnoredObjects
    ensures options.Some? ==> forall x :: x in r <==>
              options.value.ignoredObjects.Some? && x in options.value.ignoredObjects.value
  {
    match options
    case None => Elems(DefaultIgnoredObjects)
    case Some(RuleOptions(None)) => {}
    case Some(RuleOptions(Some(names))) => Elems(names)
  }

  /** `isLikelyClassName`: the first character is its own upper case. With
      ASCII case mapping that is every name not starting with `a`..`z`, so
      `_`, `$` and digits count as class-like as well. */
  function IsLikelyClassName(name: string): (r: bool)
    ensures r <==> |name| > 0 && !('a' <= name[0] <= 'z')
  {
    |name| > 0 && name[0] == ToUpperChar(name[0])
  }

  /** A receiver whose method calls count as ordinary interactions. */
  predicate IsOrdinaryReceiver(ignored: set<string>, name: string) {
    name !in ignored && !IsLikelyClassName(name)
  }

  /** One traversal event. `EnterMember` carries the object's name when the
      object of the member access is a plain identifier. */
  datatype Event =
    | EnterCall(callee: Callee)
    | ExitCall(callee: Callee)
    | EnterMember(objectName: Option<string>)

  /** The three flags of the rule, shared by every `it` call of a file. */
  datatype Tracker = Tracker(insideItBlock: bool, foundSutInteraction: bool, foundNonStaticObjectMethodCall: bool)

  const Initial: Tracker := Tracker(false, false, false)

  datatype StepResult = StepResult(state: Tracker, report: Option<Diagnostic>)

  /** The `CallExpression` handler: entering `it(...)` opens a fresh block. */
  function OnCallEnter(s: Tracker, callee: Callee): (r: Tracker)
    ensures callee.IsIt() ==> r.insideItBlock && !r.foundSutInteraction && !r.foundNonStaticObjectMethodCall
    ensures !callee.IsIt() ==> r == s
  {
    if callee.IsIt() then Tracker(true, false, false) else s
  }

  /** The `CallExpression:exit` handler. Outside a block nothing happens.
      Inside, a call `x.m()` on an ordinary receiver raises the ordinary-call
      flag, and also the SUT flag when `x` is `sut`; leaving `it(...)`
      reports when an ordinary call was seen but no SUT interaction, and
      closes the block. */
  function OnCallExit(ignored: set<string>, s: Tracker, callee: Callee): (r: StepResult)
    ensures !s.insideItBlock ==> r == StepResult(s, None)
    ensures s.insideItBlock && callee.MemberOfIdentifier? ==>
              r.report.None? && r.state.insideItBlock
              && (r.state.foundNonStaticObjectMethodCall <==>
                    s.foundNonStaticObjectMethodCall || IsOrdinaryReceiver(ignored, callee.objectName))
              && (r.state.foundSutInteraction <==>
                    s.foundSutInteraction || (callee.objectName == SutName && IsOrdinaryReceiver(ignored, SutName)))
    ensures s.insideItBlock && callee.IsIt() ==>
              !r.state.insideItBlock
              && r.state.foundSutInteraction == s.foundSutInteraction
              && r.state.foundNonStaticObjectMethodCall == s.foundNonStaticObjectMethodCall
              && (r.report.Some? <==> s.foundNonStaticObjectMethodCall && !s.foundSutInteraction)
    ensures s.insideItBlock && !callee.IsIt() && !callee.MemberOfIdentifier? ==> r == StepResult(s, None)
    ensures r.report.Some? ==> r.report.value == Diagnostic(SutMessage)
  {
    if !s.insideItBlock then StepResult(s, None)
    else
      var s1 :=
        match callee
        case MemberOfIdentifier(objectName) =>
          if IsOrdinaryReceiver(ignored, objectName) then
            s.(foundNonStaticObjectMethodCall := true,
               foundSutInteraction := s.foundSutInteraction || objectName == SutName)
          else s
        case _ => s;
      if callee.IsIt() then
        var report := if s1.foundNonStaticObjectMethodCall && !s1.foundSutInteraction
                      then Some(Diagnostic(SutMessage)) else None;
        StepResult(s1.(insideItBlock := false), report)
      else StepResult(s1, None)
  }

  /** The `MemberExpression` handler: any member access on `sut` inside a
      block, a getter read as much as a method callee, is an interaction. */
  function OnMember(s: Tracker, objectName: Option<string>): (r: Tracker)
    ensures r.insideItBlock == s.insideItBlock
    ensures r.foundNonStaticObjectMethodCall == s.foundNonStaticObjectMethodCall
    ensures r.foundSutInteraction <==> s.foundSutInteraction || (s.insideItBlock && objectName == Some(SutName))
  {
    if s.insideItBlock && objectName == Some(SutName) then s.(foundSutInteraction := true) else s
  }

  /** One event through its handler. Apart from entering `it(...)`, no event
      lowers a found-flag, and only leaving `it(...)` can report. */
  function Step(ignored: set<string>, s: Tracker, e: Event): (r: StepResult)
    ensures !(e.EnterCall? && e.callee.IsIt()) ==>
              (s.foundSutInteraction ==> r.state.foundSutInteraction)
              && (s.foundNonStaticObjectMethodCall ==> r.state.foundNonStaticObjectMethodCall)
    ensures !s.insideItBlock && !(e.EnterCall? && e.callee.IsIt()) ==> r == StepResult(s, None)
    ensures r.report.Some? ==> e.ExitCall? && e.callee.IsIt() && s.insideItBlock
  {
    match e
    case EnterCall(callee) => StepResult(OnCallEnter(s, callee), None)
    case ExitCall(callee) => OnCallExit(ignored, s, callee)
    case EnterMember(objectName) => StepResult(OnMember(s, objectName), None)
  }

  datatype Outcome = Outcome(state: Tracker, diagnostics: seq<Diagnostic>)

  predicate IsItExit(e: Event) {
    e.ExitCall? && e.callee.IsIt()
  }

  function ItExits(events: seq<Event>): nat {
    if |events| == 0 then 0
    else ItExits(events[..|events| - 1]) + (if IsItExit(events[|events| - 1]) then 1 else 0)
  }

  /** The rule over a whole traversal: the events folded through `Step`,
      collecting the reports in order. There is at most one report per exit
      of an `it` call, and every report carries the SUT message. */
  function Run(ignored: set<string>, s: Tracker, events: seq<Event>): (r: Outcome)
    ensures |r.diagnostics| <= ItExits(events)
    ensures forall k :: 0 <= k < |r.diagnostics| ==> r.diagnostics[k] == Diagnostic(SutMessage)
  {
    if |events| == 0 then Outcome(s, [])
    else
      var prev := Run(ignored, s, events[..|events| - 1]);
      var step := Step(ignored, prev.state, events[|events| - 1]);
      Outcome(step.state, prev.diagnostics + (if step.report.Some? then [step.report.value] else []))
  }

  // Reference view of one `it` block: what its events contain.

  const EnterIt: Event := EnterCall(Identifier("it"))
  const ExitIt: Event := ExitCall(Identifier("it"))

  /** The event is the exit of a method call on an ordinary receiver. */
  predicate IsOrdinaryCall(ignored: set<string>, e: Event) {
    e.ExitCall? && e.callee.MemberOfIdentifier? && IsOrdinaryReceiver(ignored, e.callee.objectName)
  }

  /** The event touches `sut`: a member access on it, or a counted call on it. */
  predicate TouchesSut(ignored: set<string>, e: Event) {
    e == EnterMember(Some(SutName)) || (IsOrdinaryCall(ignored, e) && e.callee.objectName == SutName)
  }

  predicate HasOrdinaryCall(ignored: set<string>, events: seq<Event>) {
    exists k :: 0 <= k < |events| && IsOrdinaryCall(ignored, events[k])
  }

  predicate HasSutInteraction(ignored: set<string>, events: seq<Event>) {
    exists k :: 0 <= k < |events| && TouchesSut(ignored, events[k])
  }

  /** No event enters or leaves an `it` call. */
  predicate NoItCalls(events: seq<Event>) {
    forall k :: 0 <= k < |events| ==> events[k] != EnterIt && events[k] != ExitIt
  }

  /** Folding a concatenation is folding the second part from where the
      first part left off. */
  lemma {:induction false} RunAppend(ignored: set<string>, s: Tracker, a: seq<Event>, b: seq<Event>)
    ensures Run(ignored, s, a + b)
            == Outcome(Run(ignored, Run(ignored, s, a).state, b).state,
                       Run(ignored, s, a).diagnostics + Run(ignored, Run(ignored, s, a).state, b).diagnostics)
    decreases |b|
  {
    if |b| == 0 {
      assert a + b == a;
    } else {
      var b' := b[..|b| - 1];
      assert (a + b)[..|a + b| - 1] == a + b';
      assert (a + b)[|a + b| - 1] == b[|b| - 1];
      RunAppend(ignored, s, a, b');
    }
  }

  /** Appending one event adds its own contribution to what a block has seen. */
  lemma SnocEvent(ignored: set<string>, events: seq<Event>, e: Event)
    ensures HasOrdinaryCall(ignored, events + [e]) <==> HasOrdinaryCall(ignored, events) || IsOrdinaryCall(ignored, e)
    ensures HasSutInteraction(ignored, events + [e]) <==> HasSutInteraction(ignored, events) || TouchesSut(ignored, e)
  {
    var all := events + [e];
    assert all[|events|] == e;
    if HasOrdinaryCall(ignored, all) && !IsOrdinaryCall(ignored, e) {
      var k :| 0 <= k < |all| && IsOrdinaryCall(ignored, all[k]);
      assert events[k] == all[k];
    }
    if HasOrdinaryCall(ignored, events) {
      var k :| 0 <= k < |events| && IsOrdinaryCall(ignored, events[k]);
      assert all[k] == events[k];
    }
    if HasSutInteraction(ignored, all) && !TouchesSut(ignored, e) {
      var k :| 0 <= k < |all| && TouchesSut(ignored, all[k]);
      assert events[k] == all[k];
    }
    if HasSutInteraction(ignored, events) {
      var k :| 0 <= k < |events| && TouchesSut(ignored, events[k]);
      assert all[k] == events[k];
    }
  }

  /** While an `it` block is open and no nested `it` call intervenes, the
      flags record exactly whether an ordinary call and a SUT interaction
      have been seen, and nothing is reported. */
  lemma {:induction false} OpenBlock(ignored: set<string>, s: Tracker, inner: seq<Event>)
    requires NoItCalls(inner)
    ensures Run(ignored, s, [EnterIt] + inner)
            == Outcome(Tracker(true, HasSutInteraction(ignored, inner), HasOrdinaryCall(ignored, inner)), [])
    decreases |inner|
  {
    if |inner| == 0 {
      assert [EnterIt] + inner == [EnterIt];
      assert [EnterIt][..0] == [];
    } else {
      var n := |inner|;
      var prefix := inner[..n - 1];
      var e := inner[n - 1];
      assert ([EnterIt] + inner)[..n] == [EnterIt] + prefix;
      assert ([EnterIt] + inner)[n] == e;
      OpenBlock(ignored, s, prefix);
      SnocEvent(ignored, prefix, e);
      assert prefix + [e] == inner;
      assert e != EnterIt && e != ExitIt;
    }
  }

  /** One `it` call with no nested `it`: whatever state the file was in, the
      call reports exactly once when its body calls a method on an ordinary
      receiver and never touches `sut`, and otherwise not at all. Afterwards
      the block is closed. */
  lemma SingleTestCase(ignored: set<string>, s: Tracker, inner: seq<Event>)
    requires NoItCalls(inner)
    ensures Run(ignored, s, [EnterIt] + inner + [ExitIt]).diagnostics
            == (if HasOrdinaryCall(ignored, inner) && !HasSutInteraction(ignored, inner)
                then [Diagnostic(SutMessage)] else [])
    ensures !Run(ignored, s, [EnterIt] + inner + [ExitIt]).state.insideItBlock
  {
    OpenBlock(ignored, s, inner);
    var events := [EnterIt] + inner + [ExitIt];
    assert events[..|events| - 1] == [EnterIt] + inner;
  }

  /** Outside every block, events other than entering `it(...)` change
      nothing and report nothing. */
  lemma {:induction false} OutsideInert(ignored: set<string>, s: Tracker, events: seq<Event>)
    requires !s.insideItBlock
    requires forall k :: 0 <= k < |events| ==> events[k] != EnterIt
    ensures Run(ignored, s, events) == Outcome(s, [])
  {
    if |events| > 0 {
      OutsideInert(ignored, s, events[..|events| - 1]);
    }
  }

  /** An `it` call nested in an open block reports as it would on its own,
      and leaves the block closed. */
  lemma NestedInOpenBlock(ignored: set<string>, s: Tracker, before: seq<Event>, inner: seq<Event>)
    requires NoItCalls(before) && NoItCalls(inner)
    ensures Run(ignored, s, [EnterIt] + before + ([EnterIt] + inner + [ExitIt])).diagnostics
            == Run(ignored, s, [EnterIt] + inner + [ExitIt]).diagnostics
    ensures !Run(ignored, s, [EnterIt] + before + ([EnterIt] + inner + [ExitIt])).state.insideItBlock
  {
    var open := [EnterIt] + before;
    var nested := [EnterIt] + inner + [ExitIt];
    OpenBlock(ignored, s, before);
    RunAppend(ignored, s, open, nested);
    SingleTestCase(ignored, Run(ignored, s, open).state, inner);
    SingleTestCase(ignored, s, inner);
  }

  /** Once the block is closed, the rest of the outer body and the outer exit
      change nothing. */
  lemma ClosedTail(ignored: set<string>, s: Tracker, after: seq<Event>)
    requires !s.insideItBlock && NoItCalls(after)
    ensures Run(ignored, s, after + [ExitIt]) == Outcome(s, [])
  {
    var tail := after + [ExitIt];
    forall k | 0 <= k < |tail|
      ensures tail[k] != EnterIt
    {
      if k < |after| {
        assert tail[k] == after[k];
      }
    }
    OutsideInert(ignored, s, tail);
  }

  /** The flags are not a stack: an `it` nested inside another closes the
      shared block when it exits, so the rest of the outer body is ignored
      and the outer exit never reports. Only the inner call can report. */
  lemma NestedOuterSilenced(ignored: set<string>, s: Tracker, before: seq<Event>, inner: seq<Event>,
                            after: seq<Event>)
    requires NoItCalls(before) && NoItCalls(inner) && NoItCalls(after)
    ensures Run(ignored, s, [EnterIt] + before + ([EnterIt] + inner + [ExitIt]) + after + [ExitIt]).diagnostics
            == Run(ignored, s, [EnterIt] + inner + [ExitIt]).diagnostics
  {
    var head := [EnterIt] + before + ([EnterIt] + inner + [ExitIt]);
    var tail := after + [ExitIt];
    assert head + after + [ExitIt] == head + tail;
    NestedInOpenBlock(ignored, s, before, inner);
    ClosedTail(ignored, Run(ignored, s, head).state, after);
    RunAppend(ignored, s, head, tail);
  }

}
