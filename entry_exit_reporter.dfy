/** cfg::entry_exit_reporter: a reporter that counts tests and assertions,
    tracks the nesting depth for indentation, and prints one line per event.
    Console output is a list of the strings written, one per output
    statement, without the ANSI colour sequences. */
module EntryExit {
  import Decimal

  /** The events the reporter handles (one `on` overload each). */
  datatype Event =
    | RunBegin
    | SuiteBegin(suite: string)
    | SuiteEnd
    | TestBegin(name: string)
    | TestRun(name: string)
    | TestSkip(name: string)
    | TestEnd
    | TestFinish
    | Log(msg: string)
    | AssertionPass
    | AssertionFail(file: string, line: nat, expr: string)
    | Exception(what: string)
    | FatalAssertion
    | Summary

  /** The reporter's fields (colours aside). */
  datatype ReporterState = ReporterState(
    testCount: nat, passCount: nat, failCount: nat, skipCount: nat,
    assertionCount: nat, assertionFails: nat, currentTestFails: nat,
    currentTestName: string, currentSuiteName: string, indentLevel: int)

  const Initial := ReporterState(0, 0, 0, 0, 0, 0, 0, "", "", 0)

  /** indent(): two spaces per nesting level. */
  function Indent(level: int): (s: string)
    ensures level >= 0 ==> |s| == 2 * level
    ensures forall i :: 0 <= i < |s| ==> s[i] == ' '
  {
    if level <= 0 then "" else "  " + Indent(level - 1)
  }

  /** A test_end counts a failure iff assertions failed since the snapshot
      taken at the latest test_begin. */
  predicate FailedSinceSnapshot(s: ReporterState) {
    s.assertionFails > s.currentTestFails
  }

  /** The state after one event. */
  function Next(s: ReporterState, e: Event): ReporterState {
    match e
    case RunBegin => s
    case SuiteBegin(suite) => s.(currentSuiteName := suite, indentLevel := s.indentLevel + 1)
    case SuiteEnd => s.(indentLevel := s.indentLevel - 1, currentSuiteName := "")
    case TestBegin(name) =>
      s.(currentTestName := name, currentTestFails := s.assertionFails,
         testCount := s.testCount + 1, indentLevel := s.indentLevel + 1)
    case TestRun(_) => s.(indentLevel := s.indentLevel + 1)
    case TestSkip(_) => s.(skipCount := s.skipCount + 1)
    case TestEnd =>
      if FailedSinceSnapshot(s)
      then s.(indentLevel := s.indentLevel - 1, failCount := s.failCount + 1)
      else s.(indentLevel := s.indentLevel - 1, passCount := s.passCount + 1)
    case TestFinish => s.(indentLevel := s.indentLevel - 1)
    case Log(_) => s
    case AssertionPass => s.(assertionCount := s.assertionCount + 1)
    case AssertionFail(_, _, _) =>
      s.(assertionCount := s.assertionCount + 1, assertionFails := s.assertionFails + 1)
    case Exception(_) => s.(assertionFails := s.assertionFails + 1)
    case FatalAssertion => s
    case Summary => s
  }

  function RanLine(n: nat): string { "[==========] " + Decimal.NatToString(n) + " test(s) ran\n" }
  function PassedLine(n: nat): string { "[  PASSED  ] " + Decimal.NatToString(n) + " test(s)\n" }
  function SkippedLine(n: nat): string { "[  SKIPPED ] " + Decimal.NatToString(n) + " test(s)\n" }
  function FailedLine(n: nat): string { "[  FAILED  ] " + Decimal.NatToString(n) + " test(s)\n" }
  function TotalsLine(count: nat, fails: nat): string {
    "\nTotal assertions: " + Decimal.NatToString(count) + " | Failed: " + Decimal.NatToString(fails) + "\n"
  }

  /** What on(summary) prints. */
  function SummaryLines(s: ReporterState): seq<string> {
    [RanLine(s.testCount)] +
    (if s.passCount > 0 then [PassedLine(s.passCount)] else []) +
    (if s.skipCount > 0 then [SkippedLine(s.skipCount)] else []) +
    (if s.failCount > 0 then [FailedLine(s.failCount)] else []) +
    [TotalsLine(s.assertionCount, s.assertionFails)]
  }

  /** What one event prints, given the state before it. */
  function Output(s: ReporterState, e: Event): seq<string> {
    match e
    case RunBegin => ["[==========] Running tests...\n"]
    case SuiteBegin(suite) => ["[----------] Test suite \"" + suite + "\"\n"]
    case SuiteEnd => ["[----------] Test suite \"" + s.currentSuiteName + "\" finished\n\n"]
    case TestBegin(name) => [Indent(s.indentLevel) + "[ RUN      ] " + name + "\n"]
    case TestRun(name) => [Indent(s.indentLevel) + "[ SUBTEST  ] " + name + "\n"]
    case TestSkip(name) => [Indent(s.indentLevel) + "[   SKIP   ] " + name + "\n"]
    case TestEnd =>
      if FailedSinceSnapshot(s)
      then [Indent(s.indentLevel - 1) + "[  FAILED  ] " + s.currentTestName + "\n"]
      else [Indent(s.indentLevel - 1) + "[       OK ] " + s.currentTestName + "\n"]
    case TestFinish => []
    case Log(msg) => [Indent(s.indentLevel) + msg]
    case AssertionPass => []
    case AssertionFail(file, line, expr) =>
      [Indent(s.indentLevel) + file + ":" + Decimal.NatToString(line) + ": Failure\n",
       Indent(s.indentLevel) + "  Condition: " + expr + "\n"]
    case Exception(what) => [Indent(s.indentLevel) + "Unexpected exception: " + what + "\n"]
    case FatalAssertion => []
    case Summary => SummaryLines(s)
  }

  function RunAll(s: ReporterState, es: seq<Event>): ReporterState
    decreases |es|
  {
    if es == [] then s else RunAll(Next(s, es[0]), es[1..])
  }

  class EntryExitReporter {
    var testCount: nat
    var passCount: nat
    var failCount: nat
    var skipCount: nat
    var assertionCount: nat
    var assertionFails: nat
    var currentTestFails: nat
    var currentTestName: string
    var currentSuiteName: string
    var indentLevel: int
    /** Everything written to the console, in order. */
    var out: seq<string>

    ghost function State(): ReporterState
      reads this
    {
      ReporterState(testCount, passCount, failCount, skipCount, assertionCount, assertionFails,
                    currentTestFails, currentTestName, currentSuiteName, indentLevel)
    }

    constructor ()
      ensures State() == Initial && out == []
    {
      testCount, passCount, failCount, skipCount := 0, 0, 0, 0;
      assertionCount, assertionFails, currentTestFails := 0, 0, 0;
      currentTestName, currentSuiteName, indentLevel := "", "", 0;
      out := [];
    }

    function IndentText(): (s: string)
      reads this
      ensures s == Indent(indentLevel)
    {
      Indent(indentLevel)
    }

    method OnRunBegin()
      modifies this`out
      ensures State() == Next(old(State()), RunBegin)
      ensures out == old(out) + Output(old(State()), RunBegin)
    {
      out := out + ["[==========] Running tests...\n"];
    }

    method OnSuiteBegin(suite: string)
      modifies this
      ensures State() == Next(old(State()), SuiteBegin(suite))
      ensures out == old(out) + Output(old(State()), SuiteBegin(suite))
    {
      currentSuiteName := suite;
      out := out + ["[----------] Test suite \"" + suite + "\"\n"];
      indentLevel := indentLevel + 1;
    }

    method OnSuiteEnd()
      modifies this
      ensures State() == Next(old(State()), SuiteEnd)
      ensures out == old(out) + Output(old(State()), SuiteEnd)
    {
      indentLevel := indentLevel - 1;
      out := out + ["[----------] Test suite \"" + currentSuiteName + "\" finished\n\n"];
      currentSuiteName := "";
    }

    method OnTestBegin(name: string)
      modifies this
      ensures State() == Next(old(State()), TestBegin(name))
      ensures out == old(out) + Output(old(State()), TestBegin(name))
    {
      currentTestName := name;
      currentTestFails := assertionFails;
      out := out + [IndentText() + "[ RUN      ] " + name + "\n"];
      testCount := testCount + 1;
      indentLevel := indentLevel + 1;
    }

    method OnTestRun(name: string)
      modifies this
      ensures State() == Next(old(State()), TestRun(name))
      ensures out == old(out) + Output(old(State()), TestRun(name))
    {
      out := out + [IndentText() + "[ SUBTEST  ] " + name + "\n"];
      indentLevel := indentLevel + 1;
    }

    method OnTestSkip(name: string)
      modifies this
      ensures State() == Next(old(State()), TestSkip(name))
      ensures out == old(out) + Output(old(State()), TestSkip(name))
    {
      out := out + [IndentText() + "[   SKIP   ] " + name + "\n"];
      skipCount := skipCount + 1;
    }

    method OnTestEnd()
      modifies this
      ensures State() == Next(old(State()), TestEnd)
      ensures out == old(out) + Output(old(State()), TestEnd)
    {
      indentLevel := indentLevel - 1;
      if assertionFails > currentTestFails {
        out := out + [IndentText() + "[  FAILED  ] " + currentTestName + "\n"];
        failCount := failCount + 1;
      } else {
        out := out + [IndentText() + "[       OK ] " + currentTestName + "\n"];
        passCount := passCount + 1;
      }
    }

    method OnTestFinish()
      modifies this
      ensures State() == Next(old(State()), TestFinish)
      ensures out == old(out) + Output(old(State()), TestFinish)
    {
      indentLevel := indentLevel - 1;
    }

    method OnLog(msg: string)
      modifies this`out
      ensures State() == Next(old(State()), Log(msg))
      ensures out == old(out) + Output(old(State()), Log(msg))
    {
      out := out + [IndentText() + msg];
    }

    method OnAssertionPass()
      modifies this
      ensures State() == Next(old(State()), AssertionPass)
      ensures out == old(out) + Output(old(State()), AssertionPass)
    {
      assertionCount := assertionCount + 1;
    }

    method OnAssertionFail(file: string, line: nat, expr: string)
      modifies this
      ensures State() == Next(old(State()), AssertionFail(file, line, expr))
      ensures out == old(out) + Output(old(State()), AssertionFail(file, line, expr))
    {
      out := out + [IndentText() + file + ":" + Decimal.NatToString(line) + ": Failure\n"];
      out := out + [IndentText() + "  Condition: " + expr + "\n"];
      assertionCount := assertionCount + 1;
      assertionFails := assertionFails + 1;
    }

    method OnException(what: string)
      modifies this
      ensures State() == Next(old(State()), Exception(what))
      ensures out == old(out) + Output(old(State()), Exception(what))
    {
      out := out + [IndentText() + "Unexpected exception: " + what + "\n"];
      assertionFails := assertionFails + 1;
    }

    /** The handler is empty: with the same frame as the other handlers,
        its contract shows that it leaves every field and the output as
        they were. */
    method OnFatalAssertion()
      modifies this
      ensures State() == Next(old(State()), FatalAssertion) && State() == old(State())
      ensures out == old(out) + Output(old(State()), FatalAssertion) && out == old(out)
    {
    }

    method OnSummary()
      modifies this`out
      ensures State() == Next(old(State()), Summary)
      ensures out == old(out) + Output(old(State()), Summary)
    {
      out := out + ["[==========] " + Decimal.NatToString(testCount) + " test(s) ran\n"];
      if passCount > 0 {
        out := out + ["[  PASSED  ] " + Decimal.NatToString(passCount) + " test(s)\n"];
      }
      if skipCount > 0 {
        out := out + ["[  SKIPPED ] " + Decimal.NatToString(skipCount) + " test(s)\n"];
      }
      if failCount > 0 {
        out := out + ["[  FAILED  ] " + Decimal.NatToString(failCount) + " test(s)\n"];
      }
      out := out + ["\nTotal assertions: " + Decimal.NatToString(assertionCount) +
                    " | Failed: " + Decimal.NatToString(assertionFails) + "\n"];
    }
  }

  // ---- Counting events ----

  predicate StartsTest(e: Event) { e.TestBegin? }
  predicate EndsTest(e: Event) { e.TestEnd? }
  predicate SkipsTest(e: Event) { e.TestSkip? }
  predicate IsAssertion(e: Event) { e.AssertionPass? || e.AssertionFail? }
  /** Events that raise the failed-assertion counter. */
  predicate IsFailure(e: Event) { e.AssertionFail? || e.Exception? }

  function Count(es: seq<Event>, p: Event -> bool): nat {
    if es == [] then 0 else (if p(es[0]) then 1 else 0) + Count(es[1..], p)
  }

  lemma {:induction false} NoneCounted(es: seq<Event>, p: Event -> bool)
    requires forall i :: 0 <= i < |es| ==> !p(es[i])
    ensures Count(es, p) == 0
    decreases |es|
  {
    if es != [] {
      assert !p(es[0]);
      NoneCounted(es[1..], p);
    }
  }

  /** +1 for each event that opens a nesting level, -1 for each that closes one. */
  function Depth(es: seq<Event>): int {
    if es == [] then 0
    else
      (match es[0]
       case SuiteBegin(_) => 1 case TestBegin(_) => 1 case TestRun(_) => 1
       case SuiteEnd => -1 case TestEnd => -1 case TestFinish => -1
       case _ => 0) + Depth(es[1..])
  }

  /** Each counter counts its own events: test_begin for tests, test_end
      for passes plus failures, test_skip for skips, both assertion kinds for
      assertions, failed assertions plus exceptions for failures. So none of
      them ever decreases. */
  lemma {:induction false} CountersCountEvents(s: ReporterState, es: seq<Event>)
    ensures var t := RunAll(s, es);
      t.testCount == s.testCount + Count(es, StartsTest) &&
      t.passCount + t.failCount == s.passCount + s.failCount + Count(es, EndsTest) &&
      t.passCount >= s.passCount && t.failCount >= s.failCount &&
      t.skipCount == s.skipCount + Count(es, SkipsTest) &&
      t.assertionCount == s.assertionCount + Count(es, IsAssertion) &&
      t.assertionFails == s.assertionFails + Count(es, IsFailure)
    decreases |es|
  {
    if es != [] {
      CountersCountEvents(Next(s, es[0]), es[1..]);
    }
  }

  /** The indentation level moves by the net nesting depth of the events. */
  lemma {:induction false} IndentFollowsDepth(s: ReporterState, es: seq<Event>)
    ensures RunAll(s, es).indentLevel == s.indentLevel + Depth(es)
    decreases |es|
  {
    if es != [] {
      IndentFollowsDepth(Next(s, es[0]), es[1..]);
    }
  }

  lemma {:induction false} DepthAppend(a: seq<Event>, b: seq<Event>)
    ensures Depth(a + b) == Depth(a) + Depth(b)
  {
    if a != [] {
      DepthAppend(a[1..], b);
      assert (a + b)[1..] == a[1..] + b;
    } else {
      assert a + b == b;
    }
  }

  /** Balanced pairs: a suite, test or subtest around events of net depth 0
      leaves the indentation where it was. */
  lemma BalancedPairs(s: ReporterState, name: string, inner: seq<Event>)
    requires Depth(inner) == 0
    ensures RunAll(s, [SuiteBegin(name)] + inner + [SuiteEnd]).indentLevel == s.indentLevel
    ensures RunAll(s, [TestBegin(name)] + inner + [TestEnd]).indentLevel == s.indentLevel
    ensures RunAll(s, [TestRun(name)] + inner + [TestFinish]).indentLevel == s.indentLevel
  {
    var closers := [SuiteEnd, TestEnd, TestFinish];
    var openers := [SuiteBegin(name), TestBegin(name), TestRun(name)];
    forall i | 0 <= i < 3
      ensures RunAll(s, [openers[i]] + inner + [closers[i]]).indentLevel == s.indentLevel
    {
      var es := [openers[i]] + inner + [closers[i]];
      IndentFollowsDepth(s, es);
      DepthAppend([openers[i]] + inner, [closers[i]]);
      DepthAppend([openers[i]], inner);
      assert [openers[i]][1..] == [] && [closers[i]][1..] == [];
    }
    assert openers[0] == SuiteBegin(name) && closers[0] == SuiteEnd;
    assert openers[1] == TestBegin(name) && closers[1] == TestEnd;
    assert openers[2] == TestRun(name) && closers[2] == TestFinish;
  }

  /** Events that keep the failure snapshot: anything but test_begin. */
  lemma {:induction false} SnapshotKept(s: ReporterState, es: seq<Event>)
    requires forall i :: 0 <= i < |es| ==> !es[i].TestBegin?
    ensures RunAll(s, es).currentTestFails == s.currentTestFails
    ensures RunAll(s, es).currentTestName == s.currentTestName
    decreases |es|
  {
    if es != [] {
      SnapshotKept(Next(s, es[0]), es[1..]);
    }
  }

  lemma {:induction false} RunAllAppend(s: ReporterState, a: seq<Event>, b: seq<Event>)
    ensures RunAll(s, a + b) == RunAll(RunAll(s, a), b)
    decreases |a|
  {
    if a != [] {
      assert (a + b)[1..] == a[1..] + b;
      RunAllAppend(Next(s, a[0]), a[1..], b);
    } else {
      assert a + b == b;
    }
  }

  /** A test with no nested test inside it is counted failed exactly when an
      assertion failed or an exception escaped inside it, passed otherwise. */
  lemma FlatTestVerdict(s: ReporterState, name: string, inner: seq<Event>)
    requires forall i :: 0 <= i < |inner| ==> !inner[i].TestBegin? && !inner[i].TestEnd?
    ensures var t := RunAll(s, [TestBegin(name)] + inner + [TestEnd]);
      var failures := Count(inner, IsFailure);
      t.testCount == s.testCount + 1 &&
      (failures > 0 ==> t.failCount == s.failCount + 1 && t.passCount == s.passCount) &&
      (failures == 0 ==> t.passCount == s.passCount + 1 && t.failCount == s.failCount)
  {
    var s1 := Next(s, TestBegin(name));
    RunAllAppend(s, [TestBegin(name)] + inner, [TestEnd]);
    RunAllAppend(s, [TestBegin(name)], inner);
    assert [TestBegin(name)][1..] == [];
    assert RunAll(s, [TestBegin(name)]) == s1;
    var s2 := RunAll(s1, inner);
    CountersCountEvents(s1, inner);
    NoneCounted(inner, EndsTest);
    NoneCounted(inner, StartsTest);
    SnapshotKept(s1, inner);
    assert [TestEnd][1..] == [];
    assert RunAll(s2, [TestEnd]) == Next(s2, TestEnd);
  }

  /** The snapshot is one field: a nested test_begin overwrites it, so an
      outer test whose only failure happened before a nested test passed
      is still counted as passed. */
  lemma NestedTestHidesOuterFailure(s: ReporterState)
    ensures var t := RunAll(s, [TestBegin("outer"), AssertionFail("f.cpp", 1, "false"),
                                TestBegin("inner"), TestEnd, TestEnd]);
      t.failCount == s.failCount && t.passCount == s.passCount + 2 &&
      t.assertionFails == s.assertionFails + 1
  {
    var es := [TestBegin("outer"), AssertionFail("f.cpp", 1, "false"), TestBegin("inner"), TestEnd, TestEnd];
    var s1 := Next(s, es[0]);
    var s2 := Next(s1, es[1]);
    var s3 := Next(s2, es[2]);
    var s4 := Next(s3, es[3]);
    var s5 := Next(s4, es[4]);
    assert RunAll(s4, es[4..]) == s5 by { assert es[4..][1..] == []; }
    assert RunAll(s3, es[3..]) == s5 by { assert es[3..][1..] == es[4..]; }
    assert RunAll(s2, es[2..]) == s5 by { assert es[2..][1..] == es[3..]; }
    assert RunAll(s1, es[1..]) == s5 by { assert es[1..][1..] == es[2..]; }
  }

  /** String-evaluation helper for SummaryShape: the lines of the summary
      differ in their first or fourth character. */
  lemma SummaryLineMarks(m: nat, a: nat, b: nat)
    ensures RanLine(m)[0] == '[' && RanLine(m)[3] == '='
    ensures PassedLine(m)[0] == '[' && PassedLine(m)[3] == 'P'
    ensures SkippedLine(m)[0] == '[' && SkippedLine(m)[3] == 'S'
    ensures FailedLine(m)[0] == '[' && FailedLine(m)[3] == 'F'
    ensures TotalsLine(a, b)[0] == '\n'
  {
  }

  /** The summary always reports the test count first and the assertion
      totals last; the PASSED, SKIPPED and FAILED lines appear exactly when
      their count is positive, in that order. */
  lemma SummaryShape(s: ReporterState)
    ensures var lines := SummaryLines(s);
      |lines| == 2 + (if s.passCount > 0 then 1 else 0) + (if s.skipCount > 0 then 1 else 0) +
                     (if s.failCount > 0 then 1 else 0) &&
      lines[0] == RanLine(s.testCount) &&
      lines[|lines| - 1] == TotalsLine(s.assertionCount, s.assertionFails) &&
      (PassedLine(s.passCount) in lines <==> s.passCount > 0) &&
      (SkippedLine(s.skipCount) in lines <==> s.skipCount > 0) &&
      (FailedLine(s.failCount) in lines <==> s.failCount > 0)
    ensures var lines := SummaryLines(s);
      var p := if s.passCount > 0 then 1 else 0;
      var k := if s.skipCount > 0 then 1 else 0;
      (s.passCount > 0 ==> lines[1] == PassedLine(s.passCount)) &&
      (s.skipCount > 0 ==> lines[1 + p] == SkippedLine(s.skipCount)) &&
      (s.failCount > 0 ==> lines[1 + p + k] == FailedLine(s.failCount))
  {
    var r := RanLine(s.testCount);
    var p := PassedLine(s.passCount);
    var k := SkippedLine(s.skipCount);
    var f := FailedLine(s.failCount);
    var t := TotalsLine(s.assertionCount, s.assertionFails);
    SummaryLineMarks(s.testCount, s.assertionCount, s.assertionFails);
    SummaryLineMarks(s.passCount, s.assertionCount, s.assertionFails);
    SummaryLineMarks(s.skipCount, s.assertionCount, s.assertionFails);
    SummaryLineMarks(s.failCount, s.assertionCount, s.assertionFails);
    assert p != r && p != k && p != f && p != t by { assert p[3] != r[3] && p[3] != k[3] && p[3] != f[3] && p[0] != t[0]; }
    assert k != r && k != f && k != t by { assert k[3] != r[3] && k[3] != f[3] && k[0] != t[0]; }
    assert f != r && f != t by { assert f[3] != r[3] && f[0] != t[0]; }
    var ps := if s.passCount > 0 then [p] else [];
    var ks := if s.skipCount > 0 then [k] else [];
    var fs := if s.failCount > 0 then [f] else [];
    var lines := SummaryLines(s);
    assert lines == [r] + ps + ks + fs + [t];
    assert p in lines <==> p in ps;
    assert k in lines <==> k in ks;
    assert f in lines <==> f in fs;
  }
}
