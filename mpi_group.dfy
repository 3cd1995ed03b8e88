/** One test_end across the whole group, computed sequentially: the
    MPI_Allreduce sum, the set of ranks that send, and what rank 0 forwards
    to the wrapped reporter. MPI's blocking and matching are abstracted: a
    message a rank sends is available to rank 0's probe, and a probe of a
    rank that sent nothing never returns. */
module MpiGroup {
  import opened Basics
  import opened MpiReporter
  import Decimal
  import MpiRunner

  /** Rank r's state sits at index r, and the group has at least one rank. */
  ghost predicate WellFormedGroup(states: seq<RankState>) {
    |states| >= 1 && forall r :: 0 <= r < |states| ==> states[r].rank == r
  }

  /** MPI_Allreduce(MPI_SUM) of every rank's local_test_fails_. */
  function TotalFails(states: seq<RankState>): nat {
    if states == [] then 0
    else TotalFails(states[..|states| - 1]) + states[|states| - 1].localTestFails
  }

  /** The messages sent to rank 0 by ranks below `k`. */
  function InboxBelow(states: seq<RankState>, k: nat): map<nat, string>
    requires k <= |states|
  {
    map r: nat | r < k && Sends(states[r]) :: FailureMessage(states[r].failures, states[r].currentTest)
  }

  function Inbox(states: seq<RankState>): map<nat, string> {
    InboxBelow(states, |states|)
  }

  datatype TestEndOutcome = TestEndOutcome(total: nat, senders: set<nat>, log: seq<SinkEvent>, blockedAt: Option<nat>)

  /** test_end on every rank of the group. */
  function GroupTestEnd(states: seq<RankState>, name: string): (o: TestEndOutcome)
    ensures forall r: nat :: r in o.senders <==> r < |states| && Sends(states[r])
  {
    var inbox := Inbox(states);
    var g := Rank0TestEnd(TotalFails(states), inbox, |states|, name);
    TestEndOutcome(TotalFails(states), inbox.Keys, g.logs, g.blockedAt)
  }

  /** The total is zero exactly when no rank failed. */
  lemma {:induction false} TotalZeroIff(states: seq<RankState>)
    ensures TotalFails(states) == 0 <==> forall r :: 0 <= r < |states| ==> states[r].localTestFails == 0
  {
    if states != [] {
      var init := states[..|states| - 1];
      TotalZeroIff(init);
      assert forall r :: 0 <= r < |init| ==> init[r] == states[r];
    }
  }

  /** A rank sends exactly when it is not rank 0 and has failures. */
  lemma SendersAreFailingWorkers(states: seq<RankState>, name: string, r: nat)
    requires WellFormedGroup(states)
    ensures r in GroupTestEnd(states, name).senders <==> 1 <= r < |states| && states[r].localTestFails > 0
  {
  }

  lemma {:induction false} ProbeFromCompletes(inbox: map<nat, string>, r: nat, size: nat)
    ensures ProbeFrom(inbox, r, size).blockedAt.None? <==> forall k :: r <= k < size ==> k in inbox
    decreases size - r
  {
    if r < size && r in inbox {
      ProbeFromCompletes(inbox, r + 1, size);
    }
  }

  /** The probe stops at the first rank without a message, and every log it
      forwarded before that is that rank's message, in ascending order. */
  lemma {:induction false} ProbeFromLogs(inbox: map<nat, string>, r: nat, size: nat)
    requires forall k :: k in inbox ==> |inbox[k]| > 0
    ensures var g := ProbeFrom(inbox, r, size);
      var stop := if g.blockedAt.Some? then g.blockedAt.value else if r <= size then size else r;
      r <= stop &&
      (g.blockedAt.Some? ==> stop < size && stop !in inbox) &&
      (forall k :: r <= k < stop ==> k in inbox) &&
      |g.logs| == stop - r &&
      (forall k :: r <= k < stop ==> g.logs[k - r] == Log(inbox[k]))
    decreases size - r
  {
    if r < size && r in inbox {
      ProbeFromLogs(inbox, r + 1, size);
      var rest := ProbeFrom(inbox, r + 1, size);
      var g := ProbeFrom(inbox, r, size);
      assert g.logs == [Log(inbox[r])] + rest.logs;
    }
  }

  lemma InboxNonEmpty(states: seq<RankState>)
    requires forall r :: 0 <= r < |states| ==> Consistent(states[r])
    ensures forall k :: k in Inbox(states) ==> |Inbox(states)[k]| > 0
  {
    forall k | k in Inbox(states)
      ensures |Inbox(states)[k]| > 0
    {
      SentMessageNonEmpty(states[k]);
    }
  }

  /** Rank 0's probe loop finds a message for every rank it visits exactly
      when nothing failed anywhere (it does not probe) or every rank
      1..size-1 failed (each of them sent). A passing worker in a failing
      test leaves rank 0 waiting. */
  lemma ProbeLoopFinishesIff(states: seq<RankState>, name: string)
    requires WellFormedGroup(states)
    ensures GroupTestEnd(states, name).blockedAt.None? <==>
      TotalFails(states) == 0 || forall r :: 1 <= r < |states| ==> states[r].localTestFails > 0
  {
    TotalZeroIff(states);
    ProbeFromCompletes(Inbox(states), 1, |states|);
  }

  /** Nothing failed: no rank sends, rank 0 forwards test_end alone. */
  lemma CleanTestEnd(states: seq<RankState>, name: string)
    requires WellFormedGroup(states)
    requires forall r :: 0 <= r < |states| ==> states[r].localTestFails == 0
    ensures GroupTestEnd(states, name) == TestEndOutcome(0, {}, [TestEnd(name)], None)
  {
    TotalZeroIff(states);
    assert Inbox(states).Keys == {};
  }

  /** Some rank failed and the loop finished: rank 0 forwards every worker's
      message, in ascending rank order, and then test_end. */
  lemma FailingTestEndLog(states: seq<RankState>, name: string)
    requires WellFormedGroup(states)
    requires forall r :: 0 <= r < |states| ==> Consistent(states[r])
    requires TotalFails(states) > 0 && GroupTestEnd(states, name).blockedAt.None?
    ensures var log := GroupTestEnd(states, name).log;
      |log| == |states| && log[|states| - 1] == TestEnd(name) &&
      forall r :: 1 <= r < |states| ==>
        log[r - 1] == Log(FailureMessage(states[r].failures, states[r].currentTest))
  {
    InboxNonEmpty(states);
    ProbeFromLogs(Inbox(states), 1, |states|);
  }

  /** The loop stalled: it waits on the lowest worker that did not fail,
      having forwarded the messages of the workers below it and nothing
      else, and test_end never reaches the wrapped reporter. */
  lemma StalledTestEndLog(states: seq<RankState>, name: string)
    requires WellFormedGroup(states)
    requires forall r :: 0 <= r < |states| ==> Consistent(states[r])
    requires GroupTestEnd(states, name).blockedAt.Some?
    ensures var o := GroupTestEnd(states, name);
      var k := o.blockedAt.value;
      1 <= k < |states| && states[k].localTestFails == 0 &&
      (forall r :: 1 <= r < k ==> states[r].localTestFails > 0) &&
      |o.log| == k - 1 &&
      forall r :: 1 <= r < k ==> o.log[r - 1] == Log(FailureMessage(states[r].failures, states[r].currentTest))
  {
    InboxNonEmpty(states);
    ProbeFromLogs(Inbox(states), 1, |states|);
  }

  /** The states of a group of reporters, rank by rank. */
  ghost function States(reporters: seq<MpiConsoleReporter>): (states: seq<RankState>)
    reads set r | 0 <= r < |reporters| :: reporters[r]
    ensures |states| == |reporters|
  {
    seq(|reporters|, r reads reporters requires 0 <= r < |reporters| => reporters[r].State())
  }

  lemma InboxBelowStep(states: seq<RankState>, r: nat)
    requires r < |states|
    ensures InboxBelow(states, r + 1) ==
      if Sends(states[r])
      then InboxBelow(states, r)[r := FailureMessage(states[r].failures, states[r].currentTest)]
      else InboxBelow(states, r)
  {
  }

  /** MPI_Allreduce of the failure counts, as rank 0 would see it. */
  method AllreduceFails(reporters: seq<MpiConsoleReporter>) returns (total: nat)
    ensures total == TotalFails(States(reporters))
  {
    ghost var states := States(reporters);
    total := 0;
    for r := 0 to |reporters|
      invariant total == TotalFails(states[..r])
    {
      assert states[..r + 1][..r] == states[..r];
      total := total + reporters[r].localTestFails;
    }
    assert states[..|reporters|] == states;
  }

  /** The workers' half of test_end: each of ranks 1..size-1 sends its
      message, or nothing. */
  method WorkersSend(reporters: seq<MpiConsoleReporter>, name: string, total: nat)
    returns (inbox: map<nat, string>)
    requires forall r :: 0 <= r < |reporters| ==> reporters[r].rank == r && reporters[r].Valid()
    requires forall i, j :: 0 <= i < j < |reporters| ==> reporters[i] != reporters[j]
    modifies set r | 1 <= r < |reporters| :: reporters[r]
    ensures forall r :: 0 <= r < |reporters| ==> reporters[r].Valid()
    ensures States(reporters) == old(States(reporters))
    ensures inbox == Inbox(old(States(reporters)))
  {
    ghost var states := States(reporters);
    inbox := map[];
    if |reporters| == 0 {
      return;
    }
    assert inbox == InboxBelow(states, 1);
    for r := 1 to |reporters|
      invariant inbox == InboxBelow(states, r)
      invariant forall k :: 0 <= k < |reporters| ==>
                  reporters[k].Valid() && reporters[k].State() == states[k]
    {
      var sent, _ := reporters[r].OnTestEnd(name, total, map[]);
      InboxBelowStep(states, r);
      if sent.Some? {
        inbox := inbox[r := sent.value];
      }
    }
    assert States(reporters) == states;
  }

  /** test_end on every rank, run one rank after another: the reduction,
      then every worker's send, then rank 0's probe loop. Its effect is the
      group-wide function above. */
  method RunGroupTestEnd(reporters: seq<MpiConsoleReporter>, name: string)
    returns (total: nat, inbox: map<nat, string>, blockedAt: Option<nat>)
    requires |reporters| >= 1
    requires forall r :: 0 <= r < |reporters| ==>
               reporters[r].rank == r && reporters[r].size == |reporters| && reporters[r].Valid()
    requires forall i, j :: 0 <= i < j < |reporters| ==> reporters[i] != reporters[j]
    modifies set r | 0 <= r < |reporters| :: reporters[r]
    ensures forall r :: 0 <= r < |reporters| ==> reporters[r].Valid()
    ensures States(reporters) == old(States(reporters))
    ensures var o := GroupTestEnd(old(States(reporters)), name);
      total == o.total && inbox.Keys == o.senders && blockedAt == o.blockedAt &&
      reporters[0].forwarded == old(reporters[0].forwarded) + o.log
  {
    ghost var states := States(reporters);
    total := AllreduceFails(reporters);
    inbox := WorkersSend(reporters, name, total);
    var root := reporters[0];
    var _, b := root.OnTestEnd(name, total, inbox);
    blockedAt := b;
    assert States(reporters) == states;
  }

  // Scenarios. Each rank runs the same body under the test name "MPI test"
  // (MpiRunner.MpiTestName), which run_mpi_tests gives every catalog entry.

  /** A rank that has begun "MPI test" and then failed at the given lines of
      `file`, in order. */
  function RankFailingAt(rank: nat, file: string, lines: seq<nat>): (s: RankState)
    ensures s.rank == rank && s.currentTest == MpiRunner.MpiTestName && s.localTestFails == |lines|
    ensures |s.failures| == |lines|
    ensures forall i :: 0 <= i < |lines| ==> s.failures[i] == RankFailure(rank, MpiRunner.MpiTestName, Location(file, lines[i]), "")
  {
    if lines == [] then BeginTest(InitialState(rank), MpiRunner.MpiTestName)
    else FailAssertion(RankFailingAt(rank, file, lines[..|lines| - 1]), file, lines[|lines| - 1])
  }

  lemma TotalOfTwo(a: RankState, b: RankState)
    ensures TotalFails([a, b]) == a.localTestFails + b.localTestFails
  {
    assert [a][..0] == [];
    assert TotalFails([a]) == a.localTestFails;
    assert [a, b][..1] == [a];
  }

  lemma TotalOfThree(a: RankState, b: RankState, c: RankState)
    ensures TotalFails([a, b, c]) == a.localTestFails + b.localTestFails + c.localTestFails
  {
    assert [a, b, c][..2] == [a, b];
    TotalOfTwo(a, b);
  }

  /** The message of two records of the current test. */
  lemma MessageOfTwo(f: seq<RankFailure>, test: string)
    requires |f| == 2 && f[0].testName == test && f[1].testName == test
    ensures FailureMessage(f, test) == FailureLine(f[0]) + FailureLine(f[1])
  {
    assert f[..1][..0] == [];
    assert FailureMessage(f[..1], test) == FailureLine(f[0]);
  }

  // String-evaluation helpers for the scenarios below: they only spell out
  // decimal texts and literal concatenations for the solver, one small fact
  // at a time.

  /** The text of one failure line, given the decimal texts of its rank and
      line number. */
  lemma FailureLineText(rank: nat, test: string, file: string, line: nat, rankText: string, lineText: string)
    requires Decimal.NatToString(rank) == rankText && Decimal.NatToString(line) == lineText
    ensures FailureLine(RankFailure(rank, test, Location(file, line), "")) ==
            "[rank " + rankText + "] Failed at " + file + ":" + lineText + "\n"
  {
  }

  lemma Rank1Text() ensures Decimal.NatToString(1) == "1" {}
  lemma Line102Text() ensures Decimal.NatToString(102) == "102" {}
  lemma Line105Text() ensures Decimal.NatToString(105) == "105" {}
  lemma Line10Text() ensures Decimal.NatToString(10) == "10" {}
  lemma Line20Text() ensures Decimal.NatToString(20) == "20" {}

  lemma Demo102Literal()
    ensures "[rank " + "1" + "] Failed at " + "mpi_example.cpp" + ":" + "102" + "\n" ==
            "[rank 1] Failed at mpi_example.cpp:102\n"
  {
  }

  lemma Demo105Literal()
    ensures "[rank " + "1" + "] Failed at " + "mpi_example.cpp" + ":" + "105" + "\n" ==
            "[rank 1] Failed at mpi_example.cpp:105\n"
  {
  }

  lemma DemoLinesText()
    ensures FailureLine(RankFailure(1, MpiRunner.MpiTestName, Location("mpi_example.cpp", 102), "")) ==
            "[rank 1] Failed at mpi_example.cpp:102\n"
    ensures FailureLine(RankFailure(1, MpiRunner.MpiTestName, Location("mpi_example.cpp", 105), "")) ==
            "[rank 1] Failed at mpi_example.cpp:105\n"
  {
    Rank1Text();
    Line102Text();
    Line105Text();
    Demo102Literal();
    Demo105Literal();
    FailureLineText(1, MpiRunner.MpiTestName, "mpi_example.cpp", 102, "1", "102");
    FailureLineText(1, MpiRunner.MpiTestName, "mpi_example.cpp", 105, "1", "105");
  }

  /** "failure demonstration" on two ranks: rank 0 fails only the
      always-false expectation, rank 1 fails both. Three failures in all;
      rank 1 alone sends, and rank 0 forwards its two lines, then test_end. */
  lemma FailureDemonstrationOnTwoRanks()
    ensures var o := GroupTestEnd([RankFailingAt(0, "mpi_example.cpp", [105]),
                                   RankFailingAt(1, "mpi_example.cpp", [102, 105])],
                                  MpiRunner.MpiTestName);
      o.total == 3 && o.senders == {1} && o.blockedAt == None &&
      o.log == [Log("[rank 1] Failed at mpi_example.cpp:102\n" + "[rank 1] Failed at mpi_example.cpp:105\n"),
                TestEnd(MpiRunner.MpiTestName)]
  {
    var r0 := RankFailingAt(0, "mpi_example.cpp", [105]);
    var r1 := RankFailingAt(1, "mpi_example.cpp", [102, 105]);
    var states := [r0, r1];
    TotalOfTwo(r0, r1);
    MessageOfTwo(r1.failures, MpiRunner.MpiTestName);
    DemoLinesText();
    var msg := FailureMessage(r1.failures, MpiRunner.MpiTestName);
    assert Inbox(states) == map[1 := msg];
  }

  /** Three ranks, only rank 2 fails: the total is 1, rank 2 sends, rank 1
      sends nothing, and rank 0's probe waits on rank 1 with nothing
      forwarded. */
  lemma OnlyLastRankFailsStalls()
    ensures var o := GroupTestEnd([RankFailingAt(0, "t.cpp", []), RankFailingAt(1, "t.cpp", []),
                                   RankFailingAt(2, "t.cpp", [7])],
                                  MpiRunner.MpiTestName);
      o.total == 1 && o.senders == {2} && o.blockedAt == Some(1) && o.log == []
  {
    var states := [RankFailingAt(0, "t.cpp", []), RankFailingAt(1, "t.cpp", []), RankFailingAt(2, "t.cpp", [7])];
    TotalOfThree(states[0], states[1], states[2]);
    assert Inbox(states).Keys == {2};
  }

  // String-evaluation helpers for the scenario below.

  lemma Resent10Literal()
    ensures "[rank " + "1" + "] Failed at " + "a.cpp" + ":" + "10" + "\n" == "[rank 1] Failed at a.cpp:10\n"
  {
  }

  lemma Resent20Literal()
    ensures "[rank " + "1" + "] Failed at " + "a.cpp" + ":" + "20" + "\n" == "[rank 1] Failed at a.cpp:20\n"
  {
  }

  lemma ResentLinesText()
    ensures FailureLine(RankFailure(1, MpiRunner.MpiTestName, Location("a.cpp", 10), "")) == "[rank 1] Failed at a.cpp:10\n"
    ensures FailureLine(RankFailure(1, MpiRunner.MpiTestName, Location("a.cpp", 20), "")) == "[rank 1] Failed at a.cpp:20\n"
  {
    Rank1Text();
    Line10Text();
    Line20Text();
    Resent10Literal();
    Resent20Literal();
    FailureLineText(1, MpiRunner.MpiTestName, "a.cpp", 10, "1", "10");
    FailureLineText(1, MpiRunner.MpiTestName, "a.cpp", 20, "1", "20");
  }

  /** Two consecutive MPI tests fail on rank 1: since both run under the
      name "MPI test", the second test's message repeats the first test's
      record before its own. */
  lemma EarlierTestsRecordsAreResent()
    ensures var s := ApplyAll(InitialState(1),
                              [Begin(MpiRunner.MpiTestName), Fail("a.cpp", 10), Begin(MpiRunner.MpiTestName), Fail("a.cpp", 20)]);
      s.localTestFails == 1 &&
      OutgoingMessage(s) == Some("[rank 1] Failed at a.cpp:10\n" + "[rank 1] Failed at a.cpp:20\n")
  {
    var es := [Begin(MpiRunner.MpiTestName), Fail("a.cpp", 10), Begin(MpiRunner.MpiTestName), Fail("a.cpp", 20)];
    var s1 := BeginTest(InitialState(1), MpiRunner.MpiTestName);
    var s2 := FailAssertion(s1, "a.cpp", 10);
    var s3 := BeginTest(s2, MpiRunner.MpiTestName);
    var s4 := FailAssertion(s3, "a.cpp", 20);
    assert ApplyAll(s4, []) == s4;
    assert ApplyAll(s3, [Fail("a.cpp", 20)]) == s4;
    assert ApplyAll(s2, [Begin(MpiRunner.MpiTestName), Fail("a.cpp", 20)]) == s4;
    assert ApplyAll(s1, es[1..]) == s4;
    assert ApplyAll(InitialState(1), es) == s4;
    MessageOfTwo(s4.failures, MpiRunner.MpiTestName);
    ResentLinesText();
  }
}
