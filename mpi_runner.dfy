/** The MPI test catalog and run_mpi_tests: tests are registered in order,
    and every rank walks the catalog in that order, skipping a test when the
    group is smaller than the test requires. The test functions themselves
    are test content; an entry is identified by its index. */
module MpiRunner {
  import opened Basics
  import Decimal
  import MpiRuntime

  /** detail::mpi_test, without its function object. */
  datatype MpiTest = MpiTest(name: string, requiredProcs: int)

  /** The append-only catalog behind detail::mpi_tests(). */
  class MpiCatalog {
    var tests: seq<MpiTest>

    constructor ()
      ensures tests == []
    {
      tests := [];
    }

    /** register_mpi_test: appends; names need not be unique. */
    method Register(name: string, procs: int)
      modifies this
      ensures tests == old(tests) + [MpiTest(name, procs)]
    {
      tests := tests + [MpiTest(name, procs)];
    }
  }

  /** What one rank does for one catalog entry. */
  datatype Action =
    | SkipNotice(text: string)              // rank 0's console line for a skipped test
    | RunTest(runName: string, index: nat)  // the entry's function run as a ut test

  /** Every catalog entry runs under this single test name. */
  const MpiTestName := "MPI test"

  /** The skip decision: a function of the group size alone, which every rank
      knows identically, so no communication is needed to agree on it. */
  predicate ShouldSkip(size: int, t: MpiTest) {
    size < t.requiredProcs
  }

  function SkipNoticeText(t: MpiTest, size: int): string {
    "Skipping \"" + t.name + "\" - requires " + Decimal.IntToString(t.requiredProcs) +
    " processes but only " + Decimal.IntToString(size) + " available\n"
  }

  /** What rank `rank` does for catalog entry `k`. */
  function Step(t: MpiTest, k: nat, rank: nat, size: int): seq<Action> {
    if ShouldSkip(size, t) then (if rank == 0 then [SkipNotice(SkipNoticeText(t, size))] else [])
    else [RunTest(MpiTestName, k)]
  }

  /** What rank `rank` does for the first |tests| entries of the catalog. */
  function Plan(tests: seq<MpiTest>, rank: nat, size: int): seq<Action> {
    if tests == [] then []
    else Plan(tests[..|tests| - 1], rank, size) + Step(tests[|tests| - 1], |tests| - 1, rank, size)
  }

  /** The loop of run_mpi_tests over the catalog, with its `continue`. */
  method PlanMpiTests(tests: seq<MpiTest>, rank: nat, size: int) returns (actions: seq<Action>)
    ensures actions == Plan(tests, rank, size)
  {
    actions := [];
    for i := 0 to |tests|
      invariant actions == Plan(tests[..i], rank, size)
    {
      assert tests[..i + 1][..i] == tests[..i];
      var test := tests[i];
      if size < test.requiredProcs {
        if rank == 0 {
          actions := actions + [SkipNotice(SkipNoticeText(test, size))];
        }
        continue;
      }
      actions := actions + [RunTest(MpiTestName, i)];
    }
    assert tests[..|tests|] == tests;
  }

  /** run_mpi_tests: initialise the context, walk the catalog, let the runner
      run (`runnerSucceeds` is its verdict), finalise, return the exit code.
      The world's rank and size are what MPI_Comm_rank and MPI_Comm_size
      would report. */
  method RunMpiTests(ctx: MpiRuntime.MpiContext, catalog: MpiCatalog, worldRank: nat, worldSize: nat,
                     runnerSucceeds: bool)
    returns (actions: seq<Action>, result: int)
    modifies ctx
    ensures result == 0 <==> runnerSucceeds
    ensures !ctx.initialized
    ensures old(ctx.initialized) ==> ctx.rank == old(ctx.rank) && ctx.size == old(ctx.size)
    ensures !old(ctx.initialized) ==> ctx.rank == worldRank && ctx.size == worldSize
    ensures actions == Plan(catalog.tests, ctx.rank, ctx.size)
  {
    ctx.Init(worldRank, worldSize);
    actions := PlanMpiTests(catalog.tests, ctx.rank, ctx.size);
    result := ExitCode(runnerSucceeds);
    ctx.Finalize();
  }

  /** The catalog indices a plan runs, in order. */
  function RunIndices(actions: seq<Action>): seq<nat> {
    if actions == [] then []
    else
      RunIndices(actions[..|actions| - 1]) +
      (if actions[|actions| - 1].RunTest? then [actions[|actions| - 1].index] else [])
  }

  /** The number of skip notices in a plan. */
  function NoticeCount(actions: seq<Action>): nat {
    if actions == [] then 0
    else NoticeCount(actions[..|actions| - 1]) + (if actions[|actions| - 1].SkipNotice? then 1 else 0)
  }

  /** Reference: the indices of the entries the group is large enough for. */
  function IndicesToRun(tests: seq<MpiTest>, size: int): (ix: seq<nat>)
    ensures forall j :: 0 <= j < |ix| ==> ix[j] < |tests|
  {
    if tests == [] then []
    else
      IndicesToRun(tests[..|tests| - 1], size) +
      (if ShouldSkip(size, tests[|tests| - 1]) then [] else [|tests| - 1])
  }

  /** The number of entries the group is too small for. */
  function SkippedCount(tests: seq<MpiTest>, size: int): nat {
    if tests == [] then 0
    else SkippedCount(tests[..|tests| - 1], size) + (if ShouldSkip(size, tests[|tests| - 1]) then 1 else 0)
  }

  lemma {:induction false} RunIndicesAppend(a: seq<Action>, b: seq<Action>)
    ensures RunIndices(a + b) == RunIndices(a) + RunIndices(b)
    decreases |b|
  {
    if b == [] {
      assert a + b == a;
    } else {
      assert (a + b)[..|a + b| - 1] == a + b[..|b| - 1];
      RunIndicesAppend(a, b[..|b| - 1]);
    }
  }

  lemma {:induction false} NoticeCountAppend(a: seq<Action>, b: seq<Action>)
    ensures NoticeCount(a + b) == NoticeCount(a) + NoticeCount(b)
    decreases |b|
  {
    if b == [] {
      assert a + b == a;
    } else {
      assert (a + b)[..|a + b| - 1] == a + b[..|b| - 1];
      NoticeCountAppend(a, b[..|b| - 1]);
    }
  }

  lemma StepCounts(t: MpiTest, k: nat, rank: nat, size: int)
    ensures RunIndices(Step(t, k, rank, size)) == if ShouldSkip(size, t) then [] else [k]
    ensures NoticeCount(Step(t, k, rank, size)) == if ShouldSkip(size, t) && rank == 0 then 1 else 0
  {
    var st := Step(t, k, rank, size);
    if st != [] {
      assert st[..0] == [];
    }
  }

  /** Every rank runs exactly the entries the group is large enough for, in
      catalog order, whatever its rank. */
  lemma {:induction false} RunsAreIndicesToRun(tests: seq<MpiTest>, rank: nat, size: int)
    ensures RunIndices(Plan(tests, rank, size)) == IndicesToRun(tests, size)
  {
    if tests != [] {
      var k := |tests| - 1;
      RunsAreIndicesToRun(tests[..k], rank, size);
      RunIndicesAppend(Plan(tests[..k], rank, size), Step(tests[k], k, rank, size));
      StepCounts(tests[k], k, rank, size);
    }
  }

  /** The skip decision never depends on the rank, so every rank runs the
      same tests in the same order and the collectives inside stay aligned. */
  lemma SameRunsOnEveryRank(tests: seq<MpiTest>, rank1: nat, rank2: nat, size: int)
    ensures RunIndices(Plan(tests, rank1, size)) == RunIndices(Plan(tests, rank2, size))
  {
    RunsAreIndicesToRun(tests, rank1, size);
    RunsAreIndicesToRun(tests, rank2, size);
  }

  /** An entry is run iff the group is large enough for it, and runs come in
      strictly ascending catalog order, so each runs at most once. */
  lemma {:induction false} IndicesToRunExactly(tests: seq<MpiTest>, size: int)
    ensures var ix := IndicesToRun(tests, size);
      (forall i :: 0 <= i < |tests| ==> (i in ix <==> !ShouldSkip(size, tests[i]))) &&
      (forall j, k :: 0 <= j < k < |ix| ==> ix[j] < ix[k])
  {
    if tests != [] {
      var k := |tests| - 1;
      var init := tests[..k];
      IndicesToRunExactly(init, size);
      var prev := IndicesToRun(init, size);
      var last := if ShouldSkip(size, tests[k]) then [] else [k];
      var ix := IndicesToRun(tests, size);
      assert ix == prev + last;
      assert forall i :: 0 <= i < k ==> init[i] == tests[i];
      assert k !in prev;
      forall i | 0 <= i < |tests|
        ensures i in ix <==> !ShouldSkip(size, tests[i])
      {
        if i < k {
          assert i in ix <==> i in prev;
        }
      }
      forall j, m | 0 <= j < m < |ix|
        ensures ix[j] < ix[m]
      {
        if m >= |prev| {
          assert ix[j] == prev[j] && ix[m] == k;
        }
      }
    }
  }

  /** Every action that runs an entry does so under the name "MPI test". */
  lemma {:induction false} RunsAreNamedMpiTest(tests: seq<MpiTest>, rank: nat, size: int)
    ensures forall a :: a in Plan(tests, rank, size) && a.RunTest? ==> a.runName == MpiTestName
  {
    if tests != [] {
      RunsAreNamedMpiTest(tests[..|tests| - 1], rank, size);
    }
  }

  /** Only rank 0 prints skip notices, exactly one per skipped entry. */
  lemma {:induction false} NoticesOnRootOnly(tests: seq<MpiTest>, rank: nat, size: int)
    ensures NoticeCount(Plan(tests, rank, size)) == if rank == 0 then SkippedCount(tests, size) else 0
  {
    if tests != [] {
      var k := |tests| - 1;
      NoticesOnRootOnly(tests[..k], rank, size);
      NoticeCountAppend(Plan(tests[..k], rank, size), Step(tests[k], k, rank, size));
      StepCounts(tests[k], k, rank, size);
    }
  }

  /** Every skip notice is printed by rank 0 and is the notice of an entry
      the group is too small for, naming it with its required count and the
      group size. */
  lemma {:induction false} NoticesAreSkippedEntries(tests: seq<MpiTest>, rank: nat, size: int)
    ensures forall a :: a in Plan(tests, rank, size) && a.SkipNotice? ==>
      rank == 0 && exists i :: 0 <= i < |tests| && ShouldSkip(size, tests[i]) && a.text == SkipNoticeText(tests[i], size)
  {
    if tests != [] {
      var k := |tests| - 1;
      var init := tests[..k];
      NoticesAreSkippedEntries(init, rank, size);
      var step := Step(tests[k], k, rank, size);
      assert Plan(tests, rank, size) == Plan(init, rank, size) + step;
      forall a | a in Plan(tests, rank, size) && a.SkipNotice?
        ensures rank == 0 && exists i :: 0 <= i < |tests| && ShouldSkip(size, tests[i]) && a.text == SkipNoticeText(tests[i], size)
      {
        if a in Plan(init, rank, size) {
          var i :| 0 <= i < k && ShouldSkip(size, init[i]) && a.text == SkipNoticeText(init[i], size);
          assert init[i] == tests[i];
        } else {
          assert a in step;
          assert ShouldSkip(size, tests[k]) && a.text == SkipNoticeText(tests[k], size);
        }
      }
    }
  }

  /** On rank 0 the notice of every entry the group is too small for is
      printed. */
  lemma {:induction false} SkippedEntriesAreNoticed(tests: seq<MpiTest>, size: int)
    ensures forall i :: 0 <= i < |tests| && ShouldSkip(size, tests[i]) ==>
      SkipNotice(SkipNoticeText(tests[i], size)) in Plan(tests, 0, size)
  {
    if tests != [] {
      var k := |tests| - 1;
      var init := tests[..k];
      SkippedEntriesAreNoticed(init, size);
      var step := Step(tests[k], k, 0, size);
      assert Plan(tests, 0, size) == Plan(init, 0, size) + step;
      forall i | 0 <= i < |tests| && ShouldSkip(size, tests[i])
        ensures SkipNotice(SkipNoticeText(tests[i], size)) in Plan(tests, 0, size)
      {
        if i < k {
          assert init[i] == tests[i];
        } else {
          assert step == [SkipNotice(SkipNoticeText(tests[k], size))];
        }
      }
    }
  }

  /** The catalog of the MPI example program, in registration order. */
  const ExampleCatalog: seq<MpiTest> := [
    MpiTest("rank-dependent values", 2),
    MpiTest("MPI reduction", 4),
    MpiTest("MPI with subcases", 2),
    MpiTest("scatter and gather", 3),
    MpiTest("failure demonstration", 2)
  ]

  /** Registering the example's tests one by one yields that catalog. */
  method RegisterExampleCatalog() returns (catalog: MpiCatalog)
    ensures fresh(catalog) && catalog.tests == ExampleCatalog
  {
    catalog := new MpiCatalog();
    catalog.Register("rank-dependent values", 2);
    catalog.Register("MPI reduction", 4);
    catalog.Register("MPI with subcases", 2);
    catalog.Register("scatter and gather", 3);
    catalog.Register("failure demonstration", 2);
  }

  /** `mpirun -np 2`: entries 0, 2 and 4 run; rank 0 announces the skip of
      "MPI reduction" (4 required) and "scatter and gather" (3 required). */
  lemma ExampleOnTwoRanks(rank: nat)
    ensures Plan(ExampleCatalog, rank, 2) ==
      [RunTest(MpiTestName, 0)] +
      (if rank == 0 then [SkipNotice(SkipNoticeText(ExampleCatalog[1], 2))] else []) +
      [RunTest(MpiTestName, 2)] +
      (if rank == 0 then [SkipNotice(SkipNoticeText(ExampleCatalog[3], 2))] else []) +
      [RunTest(MpiTestName, 4)]
  {
    var c := ExampleCatalog;
    assert c[..1][..0] == [];
    assert c[..2][..1] == c[..1];
    assert c[..3][..2] == c[..2];
    assert c[..4][..3] == c[..3];
    assert c[..5] == c && c[..5][..4] == c[..4];
    assert Plan(c[..1], rank, 2) == [RunTest(MpiTestName, 0)];
    assert Plan(c[..2], rank, 2) == Plan(c[..1], rank, 2) + Step(c[1], 1, rank, 2);
    assert Plan(c[..3], rank, 2) == Plan(c[..2], rank, 2) + [RunTest(MpiTestName, 2)];
    assert Plan(c[..4], rank, 2) == Plan(c[..3], rank, 2) + Step(c[3], 3, rank, 2);
    assert Plan(c, rank, 2) == Plan(c[..4], rank, 2) + [RunTest(MpiTestName, 4)];
  }

  /** The example program under `mpirun -np 2`: the catalog its
      registrations build, planned on either rank, is the plan above. */
  method ExampleProgramOnTwoRanks(rank: nat) returns (actions: seq<Action>)
    ensures actions ==
      [RunTest(MpiTestName, 0)] +
      (if rank == 0 then [SkipNotice(SkipNoticeText(ExampleCatalog[1], 2))] else []) +
      [RunTest(MpiTestName, 2)] +
      (if rank == 0 then [SkipNotice(SkipNoticeText(ExampleCatalog[3], 2))] else []) +
      [RunTest(MpiTestName, 4)]
  {
    var catalog := RegisterExampleCatalog();
    actions := PlanMpiTests(catalog.tests, rank, 2);
    ExampleOnTwoRanks(rank);
  }

  // String-evaluation helpers for the scenario below: they only spell out
  // literal concatenations and decimal texts for the solver.

  lemma SkipNoticeLiteral(name: string)
    ensures "Skipping \"" + name + "\" - requires " + "4" + " processes but only " + "2" + " available\n" ==
            "Skipping \"" + name + "\" - requires 4 processes but only 2 available\n"
  {
    assert "\" - requires " + "4" + " processes but only " + "2" + " available\n" ==
           "\" - requires 4 processes but only 2 available\n";
  }

  lemma FourAndTwoText() ensures Decimal.IntToString(4) == "4" && Decimal.IntToString(2) == "2" {}

  /** A group of 2 and a test that needs 4: both ranks skip it, and rank 0's
      notice names the test, the 4 required and the 2 available. */
  lemma SkipNoticeForTooSmallGroup(name: string)
    ensures Plan([MpiTest(name, 4)], 1, 2) == []
    ensures Plan([MpiTest(name, 4)], 0, 2) ==
      [SkipNotice("Skipping \"" + name + "\" - requires 4 processes but only 2 available\n")]
  {
    FourAndTwoText();
    SkipNoticeLiteral(name);
    assert [MpiTest(name, 4)][..0] == [];
  }

  /** MPI_CHECK / MPI_REQUIRE: the expectation is evaluated only on the rank
      it names; `fatal` marks the MPI_REQUIRE form. */
  datatype RankCheck = RankCheck(rankToTest: int, holds: bool, fatal: bool)

  datatype Expectation = Expectation(holds: bool, fatal: bool)

  /** The expectations one rank evaluates for a body's rank-gated checks. */
  function GatedExpectations(testRank: int, checks: seq<RankCheck>): seq<Expectation> {
    if checks == [] then []
    else
      var c := checks[|checks| - 1];
      GatedExpectations(testRank, checks[..|checks| - 1]) +
      (if c.rankToTest == testRank then [Expectation(c.holds, c.fatal)] else [])
  }

  /** A rank evaluates every check addressed to it and nothing else: each
      expectation it evaluates comes from a check naming it. */
  lemma {:induction false} GatedExpectationsAreThisRanks(testRank: int, checks: seq<RankCheck>)
    ensures forall c :: c in checks && c.rankToTest == testRank ==>
              Expectation(c.holds, c.fatal) in GatedExpectations(testRank, checks)
    ensures forall e :: e in GatedExpectations(testRank, checks) ==>
              exists c :: c in checks && c.rankToTest == testRank && e == Expectation(c.holds, c.fatal)
  {
    if checks != [] {
      var init := checks[..|checks| - 1];
      var last := checks[|checks| - 1];
      GatedExpectationsAreThisRanks(testRank, init);
      assert checks == init + [last];
      var es := GatedExpectations(testRank, checks);
      forall e | e in es
        ensures exists c :: c in checks && c.rankToTest == testRank && e == Expectation(c.holds, c.fatal)
      {
        if e in GatedExpectations(testRank, init) {
          var c :| c in init && c.rankToTest == testRank && e == Expectation(c.holds, c.fatal);
          assert c in checks;
        } else {
          assert last in checks;
        }
      }
    }
  }

  /** A single check contributes its expectation exactly on the rank it
      names. */
  lemma GatedSingleCheck(testRank: int, c: RankCheck)
    ensures GatedExpectations(testRank, [c]) ==
              if c.rankToTest == testRank then [Expectation(c.holds, c.fatal)] else []
  {
    assert [c][..0] == [];
  }

  /** The checks are evaluated in the order they are written: the
      expectations of a body made of two parts are those of the first part
      followed by those of the second. With GatedSingleCheck and the empty
      case this determines the whole list, order and repetitions included. */
  lemma {:induction false} GatedExpectationsInOrder(testRank: int, a: seq<RankCheck>, b: seq<RankCheck>)
    ensures GatedExpectations(testRank, a + b) == GatedExpectations(testRank, a) + GatedExpectations(testRank, b)
    decreases |b|
  {
    if b == [] {
      assert a + b == a;
    } else {
      var init := b[..|b| - 1];
      var last := b[|b| - 1];
      GatedExpectationsInOrder(testRank, a, init);
      var ab := a + b;
      assert ab[..|ab| - 1] == a + init;
      assert ab[|ab| - 1] == last;
      var tail := if last.rankToTest == testRank then [Expectation(last.holds, last.fatal)] else [];
      assert GatedExpectations(testRank, ab) == GatedExpectations(testRank, a + init) + tail;
      assert GatedExpectations(testRank, b) == GatedExpectations(testRank, init) + tail;
    }
  }

  /** A rank no check names evaluates none of them. */
  lemma {:induction false} UnnamedRankEvaluatesNothing(testRank: int, checks: seq<RankCheck>)
    requires forall c :: c in checks ==> c.rankToTest != testRank
    ensures GatedExpectations(testRank, checks) == []
  {
    if checks != [] {
      var init := checks[..|checks| - 1];
      assert forall c :: c in init ==> c in checks;
      UnnamedRankEvaluatesNothing(testRank, init);
    }
  }
}
