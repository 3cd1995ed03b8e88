/** One rank's view of mpi_console_reporter: the failure records it keeps,
    its per-test failure count, and what it forwards to the wrapped
    reporter (only rank 0 forwards anything). The wrapped reporter is an
    event sink: the model records, in order, every event it receives. */
module MpiReporter {
  import opened Basics
  import Decimal

  /** rank_failure: who failed, in which test, where ("file:line"), and an
      expression text the source always leaves empty. */
  datatype RankFailure = RankFailure(rank: nat, testName: string, location: string, expr: string)

  /** Events that reach the wrapped reporter. */
  datatype SinkEvent =
    | TestBegin(name: string)
    | AssertionFail(location: string)
    | Log(msg: string)
    | TestEnd(name: string)
    | Summary
    | Other(kind: string)

  function Location(file: string, line: nat): string {
    file + ":" + Decimal.NatToString(line)
  }

  /** The "[rank r] " prefix of every rank-tagged line. */
  function RankTag(rank: nat): string {
    "[rank " + Decimal.NatToString(rank) + "] "
  }

  /** One line of a failure message: "[rank r] Failed at <loc>\n". */
  function FailureLine(f: RankFailure): (line: string)
    ensures |line| > 0 && line[|line| - 1] == '\n'
  {
    RankTag(f.rank) + "Failed at " + f.location + "\n"
  }

  /** How many records name `test`. */
  function CountMatching(failures: seq<RankFailure>, test: string): nat {
    if failures == [] then 0
    else
      CountMatching(failures[..|failures| - 1], test) +
      (if failures[|failures| - 1].testName == test then 1 else 0)
  }

  /** The message a rank sends: the lines of every record named `test`, in
      the order they were recorded. */
  function FailureMessage(failures: seq<RankFailure>, test: string): string {
    if failures == [] then ""
    else
      var last := failures[|failures| - 1];
      FailureMessage(failures[..|failures| - 1], test) +
      (if last.testName == test then FailureLine(last) else "")
  }

  lemma {:induction false} CountMatchingAppend(a: seq<RankFailure>, b: seq<RankFailure>, test: string)
    ensures CountMatching(a + b, test) == CountMatching(a, test) + CountMatching(b, test)
    decreases |b|
  {
    if b != [] {
      assert (a + b)[..|a + b| - 1] == a + b[..|b| - 1];
      CountMatchingAppend(a, b[..|b| - 1], test);
    } else {
      assert a + b == a;
    }
  }

  /** The message of a longer record list extends the message of a shorter
      one: records are never reordered or dropped. */
  lemma {:induction false} FailureMessageAppend(a: seq<RankFailure>, b: seq<RankFailure>, test: string)
    ensures FailureMessage(a + b, test) == FailureMessage(a, test) + FailureMessage(b, test)
    decreases |b|
  {
    if b != [] {
      assert (a + b)[..|a + b| - 1] == a + b[..|b| - 1];
      FailureMessageAppend(a, b[..|b| - 1], test);
    } else {
      assert a + b == a;
    }
  }

  /** The message is empty exactly when no record names the test. */
  lemma {:induction false} FailureMessageEmptyIff(failures: seq<RankFailure>, test: string)
    ensures FailureMessage(failures, test) == "" <==> CountMatching(failures, test) == 0
  {
    if failures != [] {
      FailureMessageEmptyIff(failures[..|failures| - 1], test);
    }
  }

  /** The per-rank state that test_end reads. */
  datatype RankState = RankState(rank: nat, currentTest: string, localTestFails: nat, failures: seq<RankFailure>)

  function InitialState(rank: nat): RankState {
    RankState(rank, "", 0, [])
  }

  /** on(test_begin): the current test is named, its count restarts at 0;
      the records of earlier tests stay. */
  function BeginTest(s: RankState, name: string): RankState {
    s.(currentTest := name, localTestFails := 0)
  }

  /** on(assertion_fail): one more failure, one more record. */
  function FailAssertion(s: RankState, file: string, line: nat): RankState {
    s.(localTestFails := s.localTestFails + 1,
       failures := s.failures + [RankFailure(s.rank, s.currentTest, Location(file, line), "")])
  }

  /** The reporter's invariant: every record is this rank's, and each failure
      counted for the current test has a record naming it. */
  ghost predicate Consistent(s: RankState) {
    s.localTestFails <= CountMatching(s.failures, s.currentTest) &&
    forall i :: 0 <= i < |s.failures| ==> s.failures[i].rank == s.rank
  }

  /** Whether this rank sends in test_end: non-coordinators with failures. */
  predicate Sends(s: RankState) {
    s.rank != 0 && s.localTestFails > 0
  }

  /** What this rank sends to rank 0 in test_end (None: nothing at all). */
  function OutgoingMessage(s: RankState): (m: Option<string>)
    ensures m.Some? <==> Sends(s)
  {
    if Sends(s) then Some(FailureMessage(s.failures, s.currentTest)) else None
  }

  /** The local events of one rank. */
  datatype LocalEvent = Begin(name: string) | Fail(file: string, line: nat)

  function Apply(s: RankState, e: LocalEvent): RankState {
    match e
    case Begin(name) => BeginTest(s, name)
    case Fail(file, line) => FailAssertion(s, file, line)
  }

  function ApplyAll(s: RankState, es: seq<LocalEvent>): RankState
    decreases |es|
  {
    if es == [] then s else ApplyAll(Apply(s, es[0]), es[1..])
  }

  function FailEvents(es: seq<LocalEvent>): nat {
    if es == [] then 0 else (if es[0].Fail? then 1 else 0) + FailEvents(es[1..])
  }

  /** Records are only ever appended, one per failed assertion; the rank is
      never changed. */
  lemma {:induction false} FailuresOnlyGrow(s: RankState, es: seq<LocalEvent>)
    ensures var t := ApplyAll(s, es);
      t.rank == s.rank &&
      |t.failures| == |s.failures| + FailEvents(es) &&
      t.failures[..|s.failures|] == s.failures
    decreases |es|
  {
    if es != [] {
      var s' := Apply(s, es[0]);
      FailuresOnlyGrow(s', es[1..]);
      var t := ApplyAll(s', es[1..]);
      assert t.failures[..|s.failures|] == t.failures[..|s'.failures|][..|s.failures|];
    }
  }

  lemma {:induction false} ApplyConsistent(s: RankState, e: LocalEvent)
    requires Consistent(s)
    ensures Consistent(Apply(s, e))
  {
    match e
    case Begin(name) =>
    case Fail(file, line) =>
      var rec := RankFailure(s.rank, s.currentTest, Location(file, line), "");
      CountMatchingAppend(s.failures, [rec], s.currentTest);
      assert [rec][..0] == [];
  }

  /** Every event sequence keeps the reporter's invariant. */
  lemma {:induction false} ApplyAllConsistent(s: RankState, es: seq<LocalEvent>)
    requires Consistent(s)
    ensures Consistent(ApplyAll(s, es))
    decreases |es|
  {
    if es != [] {
      ApplyConsistent(s, es[0]);
      ApplyAllConsistent(Apply(s, es[0]), es[1..]);
    }
  }

  /** A message that is sent is never empty, so rank 0's `count > 0` test
      always passes for a message that arrives. */
  lemma SentMessageNonEmpty(s: RankState)
    requires Consistent(s) && Sends(s)
    ensures |OutgoingMessage(s).value| > 0
  {
    FailureMessageEmptyIff(s.failures, s.currentTest);
  }

  /** What rank 0's probe loop produced: the logs it forwarded, and the first
      rank whose probe found no message, if any. MPI_Probe blocks until a
      message arrives, so `blockedAt == Some(r)` means rank 0 waits on r. */
  datatype Gathered = Gathered(logs: seq<SinkEvent>, blockedAt: Option<nat>)

  /** Probing ranks r..size-1 in ascending order against the messages that
      were sent (`inbox[k]` is rank k's message). */
  function ProbeFrom(inbox: map<nat, string>, r: nat, size: nat): Gathered
    decreases size - r
  {
    if r >= size then Gathered([], None)
    else if r !in inbox then Gathered([], Some(r))
    else
      var rest := ProbeFrom(inbox, r + 1, size);
      Gathered((if |inbox[r]| > 0 then [Log(inbox[r])] else []) + rest.logs, rest.blockedAt)
  }

  /** Rank 0's part of test_end once the total is known. */
  function Rank0TestEnd(totalFails: int, inbox: map<nat, string>, size: nat, name: string): Gathered {
    if totalFails > 0 then
      var g := ProbeFrom(inbox, 1, size);
      if g.blockedAt.Some? then g else Gathered(g.logs + [TestEnd(name)], None)
    else Gathered([TestEnd(name)], None)
  }

  /** The loop `for r in 1..size-1` of test_end on rank 0. */
  method ProbeRanks(inbox: map<nat, string>, size: nat) returns (g: Gathered)
    ensures g == ProbeFrom(inbox, 1, size)
  {
    var logs: seq<SinkEvent> := [];
    var r := 1;
    while r < size
      invariant 1 <= r
      invariant ProbeFrom(inbox, 1, size) ==
                Gathered(logs + ProbeFrom(inbox, r, size).logs, ProbeFrom(inbox, r, size).blockedAt)
      decreases size - r
    {
      if r !in inbox {
        return Gathered(logs, Some(r));
      }
      var msg := inbox[r];
      if |msg| > 0 {
        logs := logs + [Log(msg)];
      }
      r := r + 1;
    }
    g := Gathered(logs, None);
  }

  /** The loop over failures_ that builds the outgoing message. */
  method BuildFailureMessage(failures: seq<RankFailure>, test: string) returns (msg: string)
    ensures msg == FailureMessage(failures, test)
  {
    msg := "";
    var i := 0;
    while i < |failures|
      invariant 0 <= i <= |failures|
      invariant msg == FailureMessage(failures[..i], test)
    {
      assert failures[..i + 1][..i] == failures[..i];
      if failures[i].testName == test {
        msg := msg + FailureLine(failures[i]);
      }
      i := i + 1;
    }
    assert failures[..i] == failures;
  }

  class MpiConsoleReporter {
    /** The context's rank and size, fixed once MPI is initialised. */
    const rank: nat
    const size: nat
    var failures: seq<RankFailure>
    var localTestFails: nat
    var currentTest: string
    /** Every event the wrapped reporter has received, in order. */
    var forwarded: seq<SinkEvent>

    ghost function State(): RankState
      reads this
    {
      RankState(rank, currentTest, localTestFails, failures)
    }

    /** Besides the state invariant: no rank other than 0 ever reaches the
        wrapped reporter. */
    ghost predicate Valid()
      reads this
    {
      Consistent(State()) && (rank != 0 ==> forwarded == [])
    }

    constructor (rank: nat, size: nat)
      ensures Valid()
      ensures this.rank == rank && this.size == size
      ensures State() == InitialState(rank) && forwarded == []
    {
      this.rank, this.size := rank, size;
      failures, localTestFails, currentTest := [], 0, "";
      forwarded := [];
    }

    method OnTestBegin(name: string)
      requires Valid()
      modifies this
      ensures Valid()
      ensures State() == BeginTest(old(State()), name)
      ensures forwarded == old(forwarded) + (if rank == 0 then [TestBegin(name)] else [])
    {
      currentTest := name;
      localTestFails := 0;
      if rank == 0 {
        forwarded := forwarded + [TestBegin(name)];
      }
    }

    /** on(assertion_fail): recorded on every rank; rank 0 also shows it at
        once, preceded by a "[rank 0] " log. */
    method OnAssertionFail(file: string, line: nat)
      requires Valid()
      modifies this
      ensures Valid()
      ensures State() == FailAssertion(old(State()), file, line)
      ensures forwarded == old(forwarded) +
                (if rank == 0 then [Log(RankTag(0)), AssertionFail(Location(file, line))] else [])
    {
      ApplyConsistent(State(), Fail(file, line));
      localTestFails := localTestFails + 1;
      failures := failures + [RankFailure(rank, currentTest, Location(file, line), "")];
      if rank == 0 {
        forwarded := forwarded + [Log(RankTag(rank)), AssertionFail(Location(file, line))];
      }
    }

    /** on(test_end), given the MPI_Allreduce sum `totalFails` and, for rank
        0, the messages the other ranks sent. A non-coordinator returns the
        message it sends; rank 0 returns the rank its probe would wait on
        forever, if any, in which case test_end is not forwarded. */
    method OnTestEnd(name: string, totalFails: int, inbox: map<nat, string>)
      returns (sent: Option<string>, blockedAt: Option<nat>)
      requires Valid()
      modifies this`forwarded
      ensures Valid() && State() == old(State())
      ensures rank == 0 ==>
        var g := Rank0TestEnd(totalFails, inbox, size, name);
        sent == None && blockedAt == g.blockedAt && forwarded == old(forwarded) + g.logs
      ensures rank != 0 ==>
        sent == OutgoingMessage(State()) && blockedAt == None && forwarded == old(forwarded)
    {
      sent, blockedAt := None, None;
      if rank == 0 {
        if totalFails > 0 {
          var g := ProbeRanks(inbox, size);
          forwarded := forwarded + g.logs;
          if g.blockedAt.Some? {
            blockedAt := g.blockedAt;
            return;
          }
        }
        forwarded := forwarded + [TestEnd(name)];
      } else if localTestFails > 0 {
        var msg := BuildFailureMessage(failures, currentTest);
        sent := Some(msg);
      }
    }

    method OnSummary()
      requires Valid()
      modifies this`forwarded
      ensures Valid()
      ensures forwarded == old(forwarded) + (if rank == 0 then [Summary] else [])
    {
      if rank == 0 {
        forwarded := forwarded + [Summary];
      }
    }

    /** Every other event kind is passed through on rank 0 only. */
    method OnOther(kind: string)
      requires Valid()
      modifies this`forwarded
      ensures Valid()
      ensures forwarded == old(forwarded) + (if rank == 0 then [Other(kind)] else [])
    {
      if rank == 0 {
        forwarded := forwarded + [Other(kind)];
      }
    }
  }
}
