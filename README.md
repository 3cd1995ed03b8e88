# boost.ut MPI test aggregation, modelled in Dafny

This project models the MPI extension of the boost.ut unit-test library and
three small programs that use the library's configuration hooks.

- **Launcher probe** (`mpi_env.dfy`): `detect_mpi_size` reads
  `OMPI_COMM_WORLD_SIZE`, then `PMI_SIZE`, then `SLURM_NTASKS`, and parses
  the first one that is set with `atoi` (`decimal.dfy`); 0 when none is set.
- **Process context** (`mpi_context.dfy`): `mpi_context` with its rank, size
  and `initialized` flag; `init` acts only while not initialized, `finalize`
  only while initialized.
- **Rank-aware reporter** (`mpi_reporter.dfy`): one rank's
  `mpi_console_reporter` as a class. It keeps the failure records, counts
  the current test's failures, and forwards events to the wrapped reporter
  on rank 0 only. The wrapped reporter is an event sink whose received
  events are recorded in order.
- **One `test_end` across the group** (`mpi_group.dfy`): the group is a
  sequence of per-rank states. `GroupTestEnd` gives the sum-reduced total,
  the set of ranks that send a message, rank 0's forwarded log, and the
  rank on which rank 0's probe loop would wait forever, if any.
  `RunGroupTestEnd` drives the rank objects through the same steps.
- **Catalog and skip policy** (`mpi_runner.dfy`): registration into the MPI
  test list, `run_mpi_tests` with its skip notices, its exit code, and the
  rank gating of `MPI_CHECK` / `MPI_REQUIRE`.
- **Entry/exit reporter** (`entry_exit_reporter.dfy`): the counters,
  pass/fail snapshot, indentation and console lines of
  `cfg::entry_exit_reporter`.
- **Registry without global state** (`no_global_state.dfy`): `test_registry`
  with `add_test` and `run_all`, and the example's registration order.
- **Stand-alone MPI test program** (`mpi_scatter_gather.dfy`): the rank
  dependent value, the sum reduction and its Gauss-sum expectation, and the
  scatter/double/gather of a vector over nearly equal contiguous slices.

MPI collectives are modelled sequentially. A reduction is a sum over the
ranks' values. A send is an entry in rank 0's inbox, keyed by sender. A
probe on a rank with no entry is a wait that never ends. A scatter is
slicing and a gather is concatenation in rank order.

A worker rank sends in `test_end` only when its own count for the current
test is positive (example/mpi/boost_ut_mpi.hpp:131). So when some rank
fails and some worker has no failures, rank 0's probe loop waits forever on
the lowest such worker. `MpiGroup.ProbeLoopFinishesIff` states exactly when the loop
completes, and `MpiGroup.OnlyLastRankFailsStalls` gives a three-rank group
in which rank 0 waits forever on rank 1.

## Model

| member | source | states |
|---|---|---|
| Basics.ExitCode | example/mpi/boost_ut_mpi.hpp:226 | the exit status is 0 exactly when the run succeeded, 1 otherwise |
| Decimal.NatToString | example/mpi/boost_ut_mpi.hpp:92 | the decimal text of a line number is non-empty, all digits, and has no leading zero unless it is "0" |
| Decimal.IntToString | example/mpi/boost_ut_mpi.hpp:210-213 | the text of an integer is non-empty and starts with '-' exactly for negative values |
| Decimal.LeadingDigits | example/mpi/boost_ut_mpi.hpp:20 | the longest prefix of digits that `atoi` reads: a prefix, all digits, and not followed by a digit |
| Decimal.SkipSpaces | example/mpi/boost_ut_mpi.hpp:20 | the leading white space `atoi` skips: what is dropped is all white space, and the rest is a suffix of the input that does not start with white space |
| Decimal.DigitsValueOfNatToString | example/mpi/boost_ut_mpi.hpp:92 | reading back the decimal text of n gives n |
| Decimal.AtoiOfIntToString | example/mpi/boost_ut_mpi.hpp:20 | `atoi` inverts integer formatting, sign included |
| Decimal.AtoiWithoutDigits | example/mpi/boost_ut_mpi.hpp:20 | `atoi` of text with no number after the spaces is 0 |
| MpiEnv.FirstSet | example/mpi/boost_ut_mpi.hpp:17-31 | reference lookup: None iff no listed variable is set; otherwise the value of the earliest listed variable that is set |
| MpiEnv.DetectIsFirstSetLauncher | example/mpi/boost_ut_mpi.hpp:17-31 | `detect_mpi_size` (modelled by `DetectMpiSize`) parses the value of the first set variable in the order OMPI_COMM_WORLD_SIZE, PMI_SIZE, SLURM_NTASKS, and is 0 when none is set |
| MpiEnv.HigherPrecedenceWins | example/mpi/boost_ut_mpi.hpp:19-21 | when the OpenMPI variable is set, PMI_SIZE and SLURM_NTASKS do not matter |
| MpiEnv.OnlyLauncherVariablesMatter | example/mpi/boost_ut_mpi.hpp:17-31 | two environments that agree on the three launcher variables give the same size |
| MpiEnv.OpenMpiLaunchOfFour | example/mpi/boost_ut_mpi.hpp:19-20 | with OMPI_COMM_WORLD_SIZE=4 and PMI_SIZE=2 the size is 4 |
| MpiRuntime.MpiContext.constructor | example/mpi/boost_ut_mpi.hpp:35-38 | a fresh context has rank 0, size 1 and is not initialized |
| MpiRuntime.MpiContext.Init | example/mpi/boost_ut_mpi.hpp:45-52 | a call while not initialized records the world rank and size and sets the flag; a call while initialized changes nothing |
| MpiRuntime.MpiContext.Finalize | example/mpi/boost_ut_mpi.hpp:54-59 | clears the flag and keeps rank and size |
| MpiRuntime.InitTwice | example/mpi/boost_ut_mpi.hpp:45-52 | after two calls to init the first call's rank and size are kept |
| MpiRuntime.InitFinalizeFinalize | example/mpi/boost_ut_mpi.hpp:54-59 | a second finalize is harmless: the context stays finalized with the same rank and size |
| MpiReporter.FailureLine | example/mpi/boost_ut_mpi.hpp:136 | each record's line is non-empty and ends with a newline |
| MpiReporter.CountMatchingAppend | example/mpi/boost_ut_mpi.hpp:134-138 | counting the records of a test distributes over concatenation of record lists |
| MpiReporter.FailureMessageAppend | example/mpi/boost_ut_mpi.hpp:134-138 | `FailureMessage`, the message a worker builds from its records: the message over two record lists is the first list's message followed by the second's, so records stay in order |
| MpiReporter.FailureMessageEmptyIff | example/mpi/boost_ut_mpi.hpp:134-139 | the message is empty exactly when no record names the current test |
| MpiReporter.OutgoingMessage | example/mpi/boost_ut_mpi.hpp:131-141 | a rank sends a message exactly when it is not rank 0 and its current-test count is positive |
| MpiReporter.FailuresOnlyGrow | example/mpi/boost_ut_mpi.hpp:77-94 | over any events the rank is kept, the records grow by exactly one per failed assertion, and earlier records are never changed or removed |
| MpiReporter.ApplyConsistent | example/mpi/boost_ut_mpi.hpp:77-94 | each event keeps the current-test count at most the number of records naming the current test, with every record tagged by this rank |
| MpiReporter.ApplyAllConsistent | example/mpi/boost_ut_mpi.hpp:77-94 | the same invariant holds after any sequence of events |
| MpiReporter.SentMessageNonEmpty | example/mpi/boost_ut_mpi.hpp:131-140 | a message that is sent is never empty |
| MpiReporter.ProbeRanks | example/mpi/boost_ut_mpi.hpp:115-128 | the loop over ranks 1..size-1 forwards the inbox messages in ascending rank order and stops at the first rank with no message |
| MpiReporter.BuildFailureMessage | example/mpi/boost_ut_mpi.hpp:133-139 | the loop over the records builds the in-order concatenation of the lines of the records naming the current test |
| MpiReporter.MpiConsoleReporter.constructor | example/mpi/boost_ut_mpi.hpp:72-74 | no records, count 0, nothing forwarded |
| MpiReporter.MpiConsoleReporter.OnTestBegin | example/mpi/boost_ut_mpi.hpp:77-83 | records the test name, resets the count to 0, keeps the records; forwards test_begin on rank 0 only |
| MpiReporter.MpiConsoleReporter.OnAssertionFail | example/mpi/boost_ut_mpi.hpp:86-104 | adds 1 to the count and appends one record (rank, test, "file:line", empty expression); on rank 0 forwards a "[rank 0] " log and then the failure |
| MpiReporter.MpiConsoleReporter.OnTestEnd | example/mpi/boost_ut_mpi.hpp:106-142 | rank 0's branch follows `Rank0TestEnd` (lines 112-130): rank 0 forwards the probed messages (only when the total is positive) and then test_end; another rank forwards nothing and sends its message exactly when its count is positive |
| MpiReporter.MpiConsoleReporter.OnSummary | example/mpi/boost_ut_mpi.hpp:144-148 | the summary is forwarded on rank 0 only |
| MpiReporter.MpiConsoleReporter.OnOther | example/mpi/boost_ut_mpi.hpp:151-156 | any other event is forwarded on rank 0 only |
| MpiGroup.GroupTestEnd | example/mpi/boost_ut_mpi.hpp:106-142 | one test_end over the group: a rank is a sender exactly when it sends |
| MpiGroup.TotalZeroIff | example/mpi/boost_ut_mpi.hpp:108-113 | the reduced total is 0 exactly when no rank failed in the current test |
| MpiGroup.SendersAreFailingWorkers | example/mpi/boost_ut_mpi.hpp:131 | the senders are exactly the ranks 1..size-1 whose count is positive |
| MpiGroup.ProbeFromCompletes | example/mpi/boost_ut_mpi.hpp:115-119 | the probe loop from rank r finishes exactly when every rank r..size-1 has a message |
| MpiGroup.ProbeFromLogs | example/mpi/boost_ut_mpi.hpp:115-128 | the loop logs, in rank order, the message of every rank it passes, and stops only on a rank without a message |
| MpiGroup.InboxNonEmpty | example/mpi/boost_ut_mpi.hpp:131-140 | every message in rank 0's inbox is non-empty, so the count check never drops one |
| MpiGroup.ProbeLoopFinishesIff | example/mpi/boost_ut_mpi.hpp:113-131 | rank 0 completes test_end exactly when the total is 0 or every rank 1..size-1 failed |
| MpiGroup.CleanTestEnd | example/mpi/boost_ut_mpi.hpp:112-130 | when nothing failed: total 0, no sender, and rank 0 forwards test_end alone |
| MpiGroup.FailingTestEndLog | example/mpi/boost_ut_mpi.hpp:113-130 | when the loop completes after failures: rank 0 forwards each worker's message in rank order and then test_end |
| MpiGroup.StalledTestEndLog | example/mpi/boost_ut_mpi.hpp:115-119 | when the loop stalls: it waits on the lowest worker without failures, having forwarded only the messages of the workers below it, and test_end is not forwarded |
| MpiGroup.AllreduceFails | example/mpi/boost_ut_mpi.hpp:108-110 | the loop over the ranks computes the sum of the counts |
| MpiGroup.WorkersSend | example/mpi/boost_ut_mpi.hpp:131-141 | the workers' sends produce exactly the inbox of the pure model and change no rank's state |
| MpiGroup.RunGroupTestEnd | example/mpi/boost_ut_mpi.hpp:106-142 | driving the rank objects through one test_end yields the pure model's total, senders, stall point and rank 0 log |
| MpiGroup.FailureDemonstrationOnTwoRanks | example/mpi/mpi_example.cpp:100-106 | two ranks, rank 1 failing at lines 102 and 105, rank 0 at 105: total 3, rank 1 alone sends, and rank 0 forwards its two lines and then test_end |
| MpiGroup.OnlyLastRankFailsStalls | example/mpi/boost_ut_mpi.hpp:115-141 | three ranks with only rank 2 failing: rank 0 waits on rank 1 with nothing forwarded |
| MpiGroup.EarlierTestsRecordsAreResent | example/mpi/boost_ut_mpi.hpp:133-139 | since every MPI test is named "MPI test", the second test's message repeats the first test's record |
| MpiRunner.MpiCatalog.constructor | example/mpi/boost_ut_mpi.hpp:167-170 | the catalog starts empty |
| MpiRunner.MpiCatalog.Register | example/mpi/boost_ut_mpi.hpp:172-175 | appends exactly one entry at the end, duplicates allowed |
| MpiRunner.PlanMpiTests | example/mpi/boost_ut_mpi.hpp:207-223 | the loop with `continue` yields the reference plan of skip notices and runs |
| MpiRunner.RunMpiTests | example/mpi/boost_ut_mpi.hpp:199-232 | initializes the context, plans the tests with its rank and size, returns 0 exactly when the run succeeds, and leaves the context finalized |
| MpiRunner.IndicesToRun | example/mpi/boost_ut_mpi.hpp:207-216 | every index of a test to run lies within the catalog |
| MpiRunner.StepCounts | example/mpi/boost_ut_mpi.hpp:208-222 | one catalog entry either runs or is skipped, and only rank 0 announces a skip |
| MpiRunner.RunsAreIndicesToRun | example/mpi/boost_ut_mpi.hpp:207-223 | the tests run are the non-skipped entries in registration order |
| MpiRunner.SameRunsOnEveryRank | example/mpi/boost_ut_mpi.hpp:208 | with the same size, every rank runs the same tests, so skipping needs no communication |
| MpiRunner.IndicesToRunExactly | example/mpi/boost_ut_mpi.hpp:207-216 | an entry runs exactly when size >= its required count, in strictly ascending order |
| MpiRunner.RunsAreNamedMpiTest | example/mpi/boost_ut_mpi.hpp:218 | every run is registered under the name "MPI test" |
| MpiRunner.NoticesOnRootOnly | example/mpi/boost_ut_mpi.hpp:209-214 | rank 0 prints one notice per skipped entry, other ranks none |
| MpiRunner.NoticesAreSkippedEntries | example/mpi/boost_ut_mpi.hpp:208-215 | every skip notice is printed on rank 0 and is the notice of an entry the group is too small for, naming it with its required count and the group size |
| MpiRunner.SkippedEntriesAreNoticed | example/mpi/boost_ut_mpi.hpp:208-215 | on rank 0, every entry the group is too small for has its notice printed |
| MpiRunner.RegisterExampleCatalog | example/mpi/mpi_example.cpp:25-106 | registering the example's five tests in source order, with their process counts 2, 4, 2, 3 and 2, yields ExampleCatalog |
| MpiRunner.ExampleOnTwoRanks | example/mpi/mpi_example.cpp:25-106 | on two ranks the example runs entries 0, 2 and 4, and rank 0 announces the skips of the entries needing 4 and 3 |
| MpiRunner.ExampleProgramOnTwoRanks | example/mpi/mpi_example.cpp:25-106 | the catalog built by those registrations, planned by the run loop on either of two ranks, runs entries 0, 2 and 4, and rank 0 alone announces the skips of the entries needing 4 and 3 |
| MpiRunner.SkipNoticeForTooSmallGroup | example/mpi/boost_ut_mpi.hpp:208-215 | the notice reads `Skipping "<name>" - requires 4 processes but only 2 available` and appears on rank 0 only |
| MpiRunner.GatedExpectationsAreThisRanks | example/mpi/boost_ut_mpi.hpp:192-196 | `GatedExpectations`, the expectations one rank evaluates under `MPI_CHECK`/`MPI_REQUIRE`: every check naming that rank is handed to expect/fatal, with the fatal form kept, and everything handed over comes from such a check |
| MpiRunner.GatedSingleCheck | example/mpi/boost_ut_mpi.hpp:192-196 | a single check is evaluated exactly on the rank it names |
| MpiRunner.GatedExpectationsInOrder | example/mpi/boost_ut_mpi.hpp:192-196 | checks are evaluated in the order written: the expectations of two consecutive parts of a body are those of the first followed by those of the second |
| MpiRunner.UnnamedRankEvaluatesNothing | example/mpi/boost_ut_mpi.hpp:192-196 | a rank named by no check evaluates nothing |
| EntryExit.Indent | example/cfg/entry_exit_reporter.cpp:42 | two spaces per level, spaces only |
| EntryExit.EntryExitReporter.constructor | example/cfg/entry_exit_reporter.cpp:30-40 | all counters 0, names empty, level 0, nothing printed |
| EntryExit.EntryExitReporter.OnRunBegin | example/cfg/entry_exit_reporter.cpp:45-48 | prints the run banner and changes no field |
| EntryExit.EntryExitReporter.OnSuiteBegin | example/cfg/entry_exit_reporter.cpp:50-55 | records the suite name, prints its header, and adds one level |
| EntryExit.EntryExitReporter.OnSuiteEnd | example/cfg/entry_exit_reporter.cpp:57-62 | removes one level, prints the recorded suite name, and clears it |
| EntryExit.EntryExitReporter.OnTestBegin | example/cfg/entry_exit_reporter.cpp:64-71 | snapshots the failure count, records the name, counts the test, and adds one level |
| EntryExit.EntryExitReporter.OnTestRun | example/cfg/entry_exit_reporter.cpp:73-77 | prints the subtest line and adds one level |
| EntryExit.EntryExitReporter.OnTestSkip | example/cfg/entry_exit_reporter.cpp:79-83 | prints the skip line and increments only the skip count |
| EntryExit.EntryExitReporter.OnTestEnd | example/cfg/entry_exit_reporter.cpp:85-96 | removes one level and counts a failure when failures exceed the snapshot, a pass otherwise |
| EntryExit.EntryExitReporter.OnTestFinish | example/cfg/entry_exit_reporter.cpp:98 | removes one level |
| EntryExit.EntryExitReporter.OnLog | example/cfg/entry_exit_reporter.cpp:100-103 | prints the message at the current indentation |
| EntryExit.EntryExitReporter.OnAssertionPass | example/cfg/entry_exit_reporter.cpp:105-108 | increments only the assertion count |
| EntryExit.EntryExitReporter.OnAssertionFail | example/cfg/entry_exit_reporter.cpp:110-118 | prints the location and condition lines and increments both the assertion count and the failure count |
| EntryExit.EntryExitReporter.OnException | example/cfg/entry_exit_reporter.cpp:120-125 | prints the exception and increments only the failure count |
| EntryExit.EntryExitReporter.OnFatalAssertion | example/cfg/entry_exit_reporter.cpp:127 | changes nothing and prints nothing |
| EntryExit.EntryExitReporter.OnSummary | example/cfg/entry_exit_reporter.cpp:129-150 | prints the summary lines for the current counters |
| EntryExit.CountersCountEvents | example/cfg/entry_exit_reporter.cpp:64-125 | over any events, the test, skip, assertion and failure counters grow by the number of their own events, passes plus failures by the number of test_end events, and no counter decreases |
| EntryExit.IndentFollowsDepth | example/cfg/entry_exit_reporter.cpp:50-98 | the level moves by the number of opening minus closing events |
| EntryExit.BalancedPairs | example/cfg/entry_exit_reporter.cpp:50-98 | a suite, test or subtest pair around balanced events leaves the level unchanged |
| EntryExit.SnapshotKept | example/cfg/entry_exit_reporter.cpp:65-66 | only test_begin changes the snapshot and the test name |
| EntryExit.FlatTestVerdict | example/cfg/entry_exit_reporter.cpp:64-96 | a test with no nested test fails exactly when an assertion failed or an exception escaped inside it, and passes otherwise |
| EntryExit.NestedTestHidesOuterFailure | example/cfg/entry_exit_reporter.cpp:66-87 | a nested test_begin overwrites the snapshot, so an outer test whose only failure came before a passing nested test is counted as passed |
| EntryExit.SummaryShape | example/cfg/entry_exit_reporter.cpp:129-150 | the test count comes first and the assertion totals last; the PASSED, SKIPPED and FAILED lines appear exactly when their count is positive, in that order |
| NoGlobalState.Dispatch | example/cfg/no_global_state.cpp:30-37 | the event for an entry has type "test", the entry's name and its function |
| NoGlobalState.Dispatches | example/cfg/no_global_state.cpp:29-38 | exactly one event per entry, in insertion order |
| NoGlobalState.TestRegistry.constructor | example/cfg/no_global_state.cpp:43 | the registry starts empty |
| NoGlobalState.TestRegistry.AddTest | example/cfg/no_global_state.cpp:23-25 | appends exactly one entry at the end and keeps the earlier ones |
| NoGlobalState.TestRegistry.RunAll | example/cfg/no_global_state.cpp:28-40 | dispatches every entry in order, then calls run once, returns its verdict, and leaves the registry unchanged |
| NoGlobalState.DispatchesAppend | example/cfg/no_global_state.cpp:23-25 | adding an entry adds exactly one dispatch at the end, even for a name already present |
| NoGlobalState.RunComesLast | example/cfg/no_global_state.cpp:29-39 | run is called once, after every test event |
| NoGlobalState.DispatchedNamesAreNames | example/cfg/no_global_state.cpp:29-38 | the dispatched names are the registered names in registration order |
| NoGlobalState.RegisterExampleTests | example/cfg/no_global_state.cpp:47-90 | registration order: "arithmetic operations", "string operations", "math::abs", "math::min_value" |
| NoGlobalState.RegistryProgram | example/cfg/no_global_state.cpp:83-101 | the program dispatches the four names in order, calls run last, and exits with 0 exactly when run succeeds |
| ScatterGather.RankDependentValueIdentifiesRank | example/multiprocess/mpi_test.cpp:24-26 | `RankDependentValue`, the value a rank computes: it is 10 more than the rank, so it identifies the rank |
| ScatterGather.DistributedSum | example/multiprocess/mpi_test.cpp:29-33 | every rank receives the same sum of all contributions |
| ScatterGather.ReductionContributions | example/multiprocess/mpi_test.cpp:92 | rank r contributes r + 1 |
| ScatterGather.GaussSum | example/multiprocess/mpi_test.cpp:91-99 | 1 + 2 + ... + size equals size*(size+1)/2 |
| ScatterGather.AllRanksSeeGaussSum | example/multiprocess/mpi_test.cpp:91-99 | for a group of any size, every rank receives size*(size+1)/2, which is what the reduction test expects |
| ScatterGather.ReductionOnFourRanks | example/multiprocess/mpi_test.cpp:91-99 | four ranks all see 10 |
| ScatterGather.SendCount | example/multiprocess/mpi_test.cpp:40-47 | a count is n/size or n/size + 1, the larger exactly for ranks below n%size |
| ScatterGather.DisplacementClosedForm | example/multiprocess/mpi_test.cpp:48 | the prefix-sum displacement of rank i is i*(n/size) + min(i, n%size) |
| ScatterGather.CountsCoverAll | example/multiprocess/mpi_test.cpp:40-48 | the counts add up to n |
| ScatterGather.CountsBalanced | example/multiprocess/mpi_test.cpp:47 | counts differ by at most one and a lower rank never gets fewer |
| ScatterGather.DisplacementMonotone | example/multiprocess/mpi_test.cpp:48 | displacements never decrease with the rank |
| ScatterGather.SlicesTile | example/multiprocess/mpi_test.cpp:43-48 | the slices start at 0, each ends where the next begins, all lie within n and none overlap |
| ScatterGather.ComputePartition | example/multiprocess/mpi_test.cpp:40-49 | the loop fills the count and displacement tables with the counts and their prefix sums |
| ScatterGather.Doubled | example/multiprocess/mpi_test.cpp:60-62 | each element doubled, length kept |
| ScatterGather.DoubleInPlace | example/multiprocess/mpi_test.cpp:60-62 | the array becomes its old contents doubled |
| ScatterGather.ReceiveSlice | example/multiprocess/mpi_test.cpp:52-57 | a rank receives its slice of root's data |
| ScatterGather.RankContribution | example/multiprocess/mpi_test.cpp:52-62 | what a rank sends back is its slice, doubled |
| ScatterGather.GatherStep | example/multiprocess/mpi_test.cpp:70-72 | gathering the next slice extends the doubled prefix of the data |
| ScatterGather.ScatterGatherTest | example/multiprocess/mpi_test.cpp:36-75 | root's result has the data's length with every element doubled; other ranks get an empty result |
| ScatterGather.PartitionOfEightOverThree | example/multiprocess/mpi_test.cpp:40-49 | eight elements over three ranks: counts 3, 3, 2 at offsets 0, 3, 6 |
| ScatterGather.ScatterGatherOnRoot | example/multiprocess/mpi_test.cpp:113-131 | for the vector 1..8 root gets 8 elements with element i equal to 2*(i+1) |

## Left out

- Real MPI: blocking, matching and timing of init, allreduce, probe, receive, send, scatter, gather, broadcast and barrier are replaced by the sequential operations described above.
- The MPI_Init, MPI_Comm_rank and MPI_Comm_size calls inside `init` are not modelled; the world rank and size are parameters.
- The reporter's rank and size are fixed when it is created, instead of being read from the global context at each event.
- The wrapped boost.ut reporter, the runner, `cfg<override>`, `expect`/`fatal` and the `_test` registration are not modelled. The wrapped reporter is an event sink, the runner's verdict is a parameter, and test bodies are opaque handles or catalog indices.
- The assertion expression forwarded to the wrapped reporter is represented by its location only.
- ANSI colour sequences are left out of the entry/exit reporter's output.
- `std::ostringstream` formatting is modelled only for the exact message shapes used.
- 32-bit `int` arithmetic is unbounded in the model: the reduction sums, the rank-dependent value, the counts and displacements, and `atoi` overflow.
- EntryExit.Indent: a negative level gives an empty string, while the source's `std::string` constructor would be asked for a huge length.
- The main function of the entry/exit example only hands one test event to the runner; the runner is not modelled.
- The broadcast, point-to-point and barrier tests of the stand-alone MPI test program, and the test bodies of the MPI example program, are MPI calls and clocks with no logic of this repository; only their sizes and the "failure demonstration" case are used.
- The file-based multiprocess coordinator and its two processes are not part of this model (file I/O and sleeps).
- The parameterized test files and the explicit runner example are not part of this model (test content and runner internals).
