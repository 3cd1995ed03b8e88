/** A test registry that owns its tests and hands them to a runner only when
    asked: registration appends, running dispatches every entry in order
    and then lets the runner run. The runner itself is not modelled: what
    it receives is a list of calls, and its verdict is a parameter. */
module NoGlobalState {
  import opened Basics

  /** A test body, kept as an opaque handle. */
  datatype TestFn = TestFn(id: nat)

  /** One registered (name, function) pair. */
  datatype Entry = Entry(name: string, fn: TestFn)

  /** The test event handed to the runner; its tag, location and argument
      are always empty and are not represented. */
  datatype TestEvent = TestEvent(kind: string, name: string, run: TestFn)

  /** A call made on the runner: `on(event)` or `run()`. */
  datatype RunnerCall = On(event: TestEvent) | Run

  /** The event dispatched for one entry. */
  function Dispatch(e: Entry): (ev: TestEvent)
    ensures ev.kind == "test" && ev.name == e.name && ev.run == e.fn
  {
    TestEvent("test", e.name, e.fn)
  }

  /** The `on` calls made for a list of entries, one per entry, in order. */
  function Dispatches(entries: seq<Entry>): (calls: seq<RunnerCall>)
    ensures |calls| == |entries|
    ensures forall i :: 0 <= i < |entries| ==> calls[i] == On(Dispatch(entries[i]))
  {
    if entries == [] then []
    else Dispatches(entries[..|entries| - 1]) + [On(Dispatch(entries[|entries| - 1]))]
  }

  function Names(entries: seq<Entry>): (names: seq<string>)
    ensures |names| == |entries|
    ensures forall i :: 0 <= i < |entries| ==> names[i] == entries[i].name
  {
    if entries == [] then [] else Names(entries[..|entries| - 1]) + [entries[|entries| - 1].name]
  }

  /** The names carried by the `on` calls, in order. */
  function DispatchedNames(calls: seq<RunnerCall>): seq<string> {
    if calls == [] then []
    else
      DispatchedNames(calls[..|calls| - 1]) +
      (match calls[|calls| - 1] case On(ev) => [ev.name] case Run => [])
  }

  class TestRegistry {
    var tests: seq<Entry>

    constructor ()
      ensures tests == []
    {
      tests := [];
    }

    method AddTest(name: string, test: TestFn)
      modifies this
      ensures tests == old(tests) + [Entry(name, test)]
    {
      tests := tests + [Entry(name, test)];
    }

    /** Dispatches every entry, then calls `run()`, whose verdict is
        `runVerdict`. The registry is not changed. */
    method RunAll(runVerdict: bool) returns (calls: seq<RunnerCall>, ok: bool)
      ensures calls == Dispatches(tests) + [Run]
      ensures ok == runVerdict
    {
      calls := [];
      var i := 0;
      while i < |tests|
        invariant 0 <= i <= |tests|
        invariant calls == Dispatches(tests[..i])
      {
        assert tests[..i + 1][..i] == tests[..i];
        calls := calls + [On(TestEvent("test", tests[i].name, tests[i].fn))];
        i := i + 1;
      }
      assert tests[..i] == tests;
      calls := calls + [Run];
      ok := runVerdict;
    }
  }

  /** Adding an entry adds exactly one dispatch, at the end, whatever the
      name: a repeated name is dispatched again, not merged. */
  lemma {:induction false} DispatchesAppend(entries: seq<Entry>, e: Entry)
    ensures Dispatches(entries + [e]) == Dispatches(entries) + [On(Dispatch(e))]
    ensures Names(entries + [e]) == Names(entries) + [e.name]
  {
    assert (entries + [e])[..|entries|] == entries;
  }

  /** `run()` comes after every dispatch, and only once. */
  lemma RunComesLast(entries: seq<Entry>)
    ensures var calls := Dispatches(entries) + [Run];
      calls[|calls| - 1] == Run &&
      forall i :: 0 <= i < |calls| - 1 ==> calls[i].On? && calls[i].event.kind == "test"
  {
  }

  /** The dispatched names are the registered names, in registration order. */
  lemma {:induction false} DispatchedNamesAreNames(entries: seq<Entry>)
    ensures DispatchedNames(Dispatches(entries) + [Run]) == Names(entries)
  {
    var calls := Dispatches(entries) + [Run];
    assert calls[..|calls| - 1] == Dispatches(entries);
    DispatchesHaveNames(entries);
  }

  lemma {:induction false} DispatchesHaveNames(entries: seq<Entry>)
    ensures DispatchedNames(Dispatches(entries)) == Names(entries)
  {
    if entries != [] {
      var init := entries[..|entries| - 1];
      DispatchesHaveNames(init);
      var calls := Dispatches(entries);
      assert calls[..|calls| - 1] == Dispatches(init);
    }
  }

  const ArithmeticTest := TestFn(0)
  const StringTest := TestFn(1)
  const AbsTest := TestFn(2)
  const MinValueTest := TestFn(3)

  const ExampleNames: seq<string> :=
    ["arithmetic operations", "string operations", "math::abs", "math::min_value"]

  /** The registrations made by the example program, in its order: the
      free functions first, then the suite class's two tests. */
  method RegisterExampleTests(registry: TestRegistry)
    modifies registry
    ensures registry.tests == old(registry.tests) +
      [Entry("arithmetic operations", ArithmeticTest), Entry("string operations", StringTest),
       Entry("math::abs", AbsTest), Entry("math::min_value", MinValueTest)]
  {
    registry.AddTest("arithmetic operations", ArithmeticTest);
    registry.AddTest("string operations", StringTest);
    registry.AddTest("math::abs", AbsTest);
    registry.AddTest("math::min_value", MinValueTest);
  }

  /** The example program: a fresh registry, the four registrations, one
      run; the exit status is 0 exactly when the runner reports success. */
  method RegistryProgram(runVerdict: bool) returns (calls: seq<RunnerCall>, code: int)
    ensures DispatchedNames(calls) == ExampleNames
    ensures |calls| == 5 && calls[4] == Run
    ensures code == 0 <==> runVerdict
  {
    var registry := new TestRegistry();
    RegisterExampleTests(registry);
    var ok;
    calls, ok := registry.RunAll(runVerdict);
    DispatchedNamesAreNames(registry.tests);
    assert Names(registry.tests) == ExampleNames;
    code := ExitCode(ok);
  }
}
