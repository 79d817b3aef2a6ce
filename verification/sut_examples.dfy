/**
  The rule's own test cases for `enforce-sut-interaction`, as the event
  streams the host's traversal produces for them: a call is entered before
  its callee's member access and its arguments, and left after them.
 */
module SutExamples {
  import opened Wrappers
  import opened Syntax
  import opened SutRule

  function Method(receiver: string): Callee {
    MemberOfIdentifier(receiver)
  }

  /** `receiver.m(...)` with argument events `args`. */
  function MethodCall(receiver: string, args: seq<Event>): seq<Event> {
    [EnterCall(Method(receiver)), EnterMember(Some(receiver))] + args + [ExitCall(Method(receiver))]
  }

  /** The rule with no option object. */
  const Defaults: set<string> := IgnoredObjects(None)

  function TestCase(inner: seq<Event>): seq<Event> {
    [EnterIt] + inner + [ExitIt]
  }

  /** `assert.strictEqual(result.isSuccess, true)` and its variants read a
      property of `result` or pass plain values. */
  const AssertOnResult: seq<Event> := MethodCall("assert", [EnterMember(Some("result"))])
  const AssertOnValue: seq<Event> := MethodCall("assert", [])

  // finds `sut`
  const FindsSut: seq<Event> := MethodCall("sut", MethodCall("Random", [])) + AssertOnResult

  // passes if no object calls except for assert
  const OnlyAssert: seq<Event> := [EnterCall(Identifier("sum")), ExitCall(Identifier("sum"))] + AssertOnValue

  // passes if static method calls
  const StaticCall: seq<Event> := MethodCall("Random", []) + AssertOnValue

  // passes if has `sut` getters
  const SutGetter: seq<Event> := MethodCall("context", []) + MethodCall("assert", [EnterMember(Some("sut"))])

  // error when no `sut`
  const NoSut: seq<Event> := MethodCall("client", MethodCall("Random", [])) + AssertOnResult

  lemma DefaultMembers()
    ensures "assert" in Defaults && "sut" !in Defaults && "context" !in Defaults && "client" !in Defaults
  {
    assert DefaultIgnoredObjects[0] == "assert";
  }

  /** With no option object `assert` is ignored; a supplied list replaces the
      defaults, and an option object without the key ignores nothing. */
  lemma OptionsReplaceDefaults()
    ensures "assert" in IgnoredObjects(None)
    ensures "assert" !in IgnoredObjects(Some(RuleOptions(Some(["client"]))))
    ensures "client" in IgnoredObjects(Some(RuleOptions(Some(["client"]))))
    ensures IgnoredObjects(Some(RuleOptions(None))) == {}
  {
    DefaultMembers();
  }

  lemma ClassLikeReceivers()
    ensures IsLikelyClassName("Random") && !IsLikelyClassName("client") && !IsLikelyClassName("sut")
    ensures IsLikelyClassName("_") && IsLikelyClassName("$el") && IsLikelyClassName("2d")
  {
  }

  lemma FindsSutPasses()
    ensures Run(Defaults, Initial, TestCase(FindsSut)).diagnostics == []
  {
    var inner := FindsSut;
    assert NoItCalls(inner) by {
      forall k | 0 <= k < |inner| ensures inner[k] != EnterIt && inner[k] != ExitIt {
        assert inner[k] in inner;
      }
    }
    DefaultMembers();
    assert TouchesSut(Defaults, inner[1]);
    SingleTestCase(Defaults, Initial, inner);
  }

  lemma OnlyAssertPasses()
    ensures Run(Defaults, Initial, TestCase(OnlyAssert)).diagnostics == []
  {
    var inner := OnlyAssert;
    assert NoItCalls(inner) by {
      forall k | 0 <= k < |inner| ensures inner[k] != EnterIt && inner[k] != ExitIt {
        assert inner[k] in inner;
      }
    }
    DefaultMembers();
    assert !HasOrdinaryCall(Defaults, inner) by {
      forall k | 0 <= k < |inner| ensures !IsOrdinaryCall(Defaults, inner[k]) {
        assert inner[k] in inner;
      }
    }
    SingleTestCase(Defaults, Initial, inner);
  }

  lemma StaticCallPasses()
    ensures Run(Defaults, Initial, TestCase(StaticCall)).diagnostics == []
  {
    var inner := StaticCall;
    assert NoItCalls(inner) by {
      forall k | 0 <= k < |inner| ensures inner[k] != EnterIt && inner[k] != ExitIt {
        assert inner[k] in inner;
      }
    }
    DefaultMembers();
    ClassLikeReceivers();
    assert !HasOrdinaryCall(Defaults, inner) by {
      forall k | 0 <= k < |inner| ensures !IsOrdinaryCall(Defaults, inner[k]) {
        assert inner[k] in inner;
      }
    }
    SingleTestCase(Defaults, Initial, inner);
  }

  lemma SutGetterPasses()
    ensures Run(Defaults, Initial, TestCase(SutGetter)).diagnostics == []
  {
    var inner := SutGetter;
    assert NoItCalls(inner) by {
      forall k | 0 <= k < |inner| ensures inner[k] != EnterIt && inner[k] != ExitIt {
        assert inner[k] in inner;
      }
    }
    assert TouchesSut(Defaults, inner[5]);
    SingleTestCase(Defaults, Initial, inner);
  }

  lemma NoSutReported()
    ensures Run(Defaults, Initial, TestCase(NoSut)).diagnostics == [Diagnostic(SutMessage)]
  {
    var inner := NoSut;
    assert NoItCalls(inner) by {
      forall k | 0 <= k < |inner| ensures inner[k] != EnterIt && inner[k] != ExitIt {
        assert inner[k] in inner;
      }
    }
    DefaultMembers();
    ClassLikeReceivers();
    assert IsOrdinaryCall(Defaults, inner[5]);
    assert !HasSutInteraction(Defaults, inner) by {
      forall k | 0 <= k < |inner| ensures !TouchesSut(Defaults, inner[k]) {
        assert inner[k] in inner;
      }
    }
    SingleTestCase(Defaults, Initial, inner);
  }

  /** Supplying `["client"]` drops `assert` from the ignored receivers, so a
      body that only calls `sum` and `assert.strictEqual` is now reported. */
  lemma OverrideDropsDefaults()
    ensures Run(IgnoredObjects(Some(RuleOptions(Some(["client"])))), Initial, TestCase(OnlyAssert)).diagnostics
            == [Diagnostic(SutMessage)]
  {
    var inner := OnlyAssert;
    var ignored := IgnoredObjects(Some(RuleOptions(Some(["client"]))));
    OptionsReplaceDefaults();
    assert NoItCalls(inner) by {
      forall k | 0 <= k < |inner| ensures inner[k] != EnterIt && inner[k] != ExitIt {
        assert inner[k] in inner;
      }
    }
    assert IsOrdinaryCall(ignored, inner[4]);
    assert !HasSutInteraction(ignored, inner) by {
      forall k | 0 <= k < |inner| ensures !TouchesSut(ignored, inner[k]) {
        assert inner[k] in inner;
      }
    }
    SingleTestCase(ignored, Initial, inner);
  }

}
