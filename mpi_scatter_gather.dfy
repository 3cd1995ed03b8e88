/** The logic of the stand-alone MPI test program: a rank-dependent value,
    the sum reduction over ranks, and the scatter/double/gather of a vector
    split into nearly equal contiguous slices. The collectives are modelled
    sequentially: a reduction is a sum over the ranks' contributions, a
    scatter is slicing, a gather is concatenation in rank order. */
module ScatterGather {

  function RankDependentValue(rank: int): int {
    10 + rank
  }

  /** The value identifies the rank it was computed on. */
  lemma RankDependentValueIdentifiesRank(r1: int, r2: int)
    ensures RankDependentValue(r1) == RankDependentValue(r2) <==> r1 == r2
    ensures RankDependentValue(r1) - 10 == r1
  {
  }

  function Sum(values: seq<int>): int {
    if values == [] then 0 else Sum(values[..|values| - 1]) + values[|values| - 1]
  }

  /** MPI_Allreduce with MPI_SUM: every rank receives the same total, the
      sum of all ranks' contributions. */
  function DistributedSum(contributions: seq<int>): (perRank: seq<int>)
    ensures |perRank| == |contributions|
    ensures forall r :: 0 <= r < |perRank| ==> perRank[r] == Sum(contributions)
  {
    seq(|contributions|, r => Sum(contributions))
  }

  /** Rank r contributes r + 1 in the reduction test. */
  function ReductionContributions(size: nat): (c: seq<int>)
    ensures |c| == size
    ensures forall r :: 0 <= r < size ==> c[r] == r + 1
  {
    seq(size, r => r + 1)
  }

  /** The reduction test's expectation: 1 + 2 + ... + size == size*(size+1)/2. */
  lemma {:induction false} GaussSum(size: nat)
    ensures Sum(ReductionContributions(size)) == size * (size + 1) / 2
  {
    if size > 0 {
      var c := ReductionContributions(size);
      assert c[..size - 1] == ReductionContributions(size - 1);
      GaussSum(size - 1);
    }
  }

  /** The reduction test's check holds on every rank of a group of any
      size: each rank receives size*(size+1)/2. */
  lemma AllRanksSeeGaussSum(size: nat)
    ensures forall r :: 0 <= r < size ==>
      DistributedSum(ReductionContributions(size))[r] == size * (size + 1) / 2
  {
    GaussSum(size);
  }

  /** Every rank of a group of four sees 10. */
  lemma ReductionOnFourRanks()
    ensures DistributedSum(ReductionContributions(4)) == [10, 10, 10, 10]
  {
    GaussSum(4);
  }

  // ---- Partition ----

  /** Elements sent to rank i: n/size, plus one for the first n%size ranks. */
  function SendCount(n: nat, size: nat, i: nat): (c: nat)
    requires size > 0
    ensures c == n / size || c == n / size + 1
    ensures c == n / size + 1 <==> i < n % size
  {
    n / size + (if i < n % size then 1 else 0)
  }

  /** Where rank i's slice starts: the sum of the counts of the ranks before it. */
  function Displacement(n: nat, size: nat, i: nat): nat
    requires size > 0
  {
    if i == 0 then 0 else Displacement(n, size, i - 1) + SendCount(n, size, i - 1)
  }

  function Min(a: int, b: int): int { if a <= b then a else b }

  lemma {:induction false} DisplacementClosedForm(n: nat, size: nat, i: nat)
    requires size > 0
    ensures Displacement(n, size, i) == i * (n / size) + Min(i, n % size)
  {
    if i > 0 {
      DisplacementClosedForm(n, size, i - 1);
      assert i * (n / size) == (i - 1) * (n / size) + n / size;
    }
  }

  /** The counts add up to the whole vector. */
  lemma CountsCoverAll(n: nat, size: nat)
    requires size > 0
    ensures Displacement(n, size, size) == n
  {
    DisplacementClosedForm(n, size, size);
    assert size * (n / size) + n % size == n;
  }

  /** Any two counts differ by at most one, and a lower rank never gets
      fewer elements than a higher one. */
  lemma CountsBalanced(n: nat, size: nat, i: nat, j: nat)
    requires size > 0 && i <= j
    ensures 0 <= SendCount(n, size, i) - SendCount(n, size, j) <= 1
  {
  }

  lemma {:induction false} DisplacementMonotone(n: nat, size: nat, i: nat, j: nat)
    requires size > 0 && i <= j
    ensures Displacement(n, size, i) <= Displacement(n, size, j)
    decreases j - i
  {
    if i < j {
      DisplacementMonotone(n, size, i, j - 1);
    }
  }

  /** The slices [Displacement(i), Displacement(i) + SendCount(i)) of the
      ranks lie inside [0, n), follow one another without gap, and do not
      overlap. */
  lemma SlicesTile(n: nat, size: nat, i: nat, j: nat)
    requires size > 0 && i < size && j < size
    ensures Displacement(n, size, 0) == 0
    ensures Displacement(n, size, i) + SendCount(n, size, i) == Displacement(n, size, i + 1)
    ensures Displacement(n, size, i + 1) <= n
    ensures i < j ==> Displacement(n, size, i) + SendCount(n, size, i) <= Displacement(n, size, j)
  {
    CountsCoverAll(n, size);
    DisplacementMonotone(n, size, i + 1, size);
    if i < j {
      DisplacementMonotone(n, size, i + 1, j);
    }
  }

  /** The count and displacement tables, filled in one loop where each
      displacement extends the previous one. */
  method ComputePartition(n: nat, size: nat) returns (counts: seq<int>, displs: seq<int>)
    requires size > 0
    ensures |counts| == size && |displs| == size
    ensures forall i :: 0 <= i < size ==> counts[i] == SendCount(n, size, i)
    ensures forall i :: 0 <= i < size ==> displs[i] == Displacement(n, size, i)
  {
    var localSize := n / size;
    var remainder := n % size;
    var sendcounts := new int[size];
    var displacements := new int[size];
    for i := 0 to size
      invariant forall k :: 0 <= k < i ==> sendcounts[k] == SendCount(n, size, k)
      invariant forall k :: 0 <= k < i ==> displacements[k] == Displacement(n, size, k)
    {
      var count := localSize + (if i < remainder then 1 else 0);
      var displ := if i > 0 then displacements[i - 1] + sendcounts[i - 1] else 0;
      assert count == SendCount(n, size, i);
      assert displ == Displacement(n, size, i);
      sendcounts[i] := count;
      displacements[i] := displ;
    }
    counts, displs := sendcounts[..], displacements[..];
  }

  // ---- Doubling and gathering ----

  function Doubled(s: seq<int>): (d: seq<int>)
    ensures |d| == |s|
    ensures forall i :: 0 <= i < |s| ==> d[i] == 2 * s[i]
  {
    if s == [] then [] else Doubled(s[..|s| - 1]) + [2 * s[|s| - 1]]
  }

  lemma DoubledAppend(a: seq<int>, b: seq<int>)
    ensures Doubled(a + b) == Doubled(a) + Doubled(b)
  {
  }

  /** Each rank doubles its received slice in place. */
  method DoubleInPlace(a: array<int>)
    modifies a
    ensures a[..] == Doubled(old(a[..]))
  {
    for i := 0 to a.Length
      invariant forall k :: 0 <= k < i ==> a[k] == 2 * old(a[k])
      invariant forall k :: i <= k < a.Length ==> a[k] == old(a[k])
    {
      a[i] := 2 * a[i];
    }
  }

  /** One rank's part of the scatter: its slice of root's data. */
  method ReceiveSlice(data: seq<int>, offset: nat, count: nat) returns (local: array<int>)
    requires offset + count <= |data|
    ensures fresh(local)
    ensures local[..] == data[offset..offset + count]
  {
    local := new int[count];
    forall k | 0 <= k < count {
      local[k] := data[offset + k];
    }
  }

  /** What rank r contributes to the gather: its slice, doubled. */
  method RankContribution(data: seq<int>, offset: nat, count: nat) returns (part: seq<int>)
    requires offset + count <= |data|
    ensures part == Doubled(data[offset..offset + count])
  {
    var local := ReceiveSlice(data, offset, count);
    DoubleInPlace(local);
    part := local[..];
  }

  /** Gathering one more slice extends the doubled prefix. */
  lemma GatherStep(data: seq<int>, offset: nat, count: nat)
    requires offset + count <= |data|
    ensures Doubled(data[..offset + count]) == Doubled(data[..offset]) + Doubled(data[offset..offset + count])
  {
    assert data[..offset] + data[offset..offset + count] == data[..offset + count];
    DoubledAppend(data[..offset], data[offset..offset + count]);
  }

  /** The whole exchange, seen from `rank`: root's data is scattered by the
      partition, every rank doubles its slice, and the slices are gathered
      in rank order into root's result; other ranks return an empty vector. */
  method ScatterGatherTest(data: seq<int>, rank: nat, size: nat, root: nat) returns (result: seq<int>)
    requires 0 < size && rank < size && root < size
    ensures rank == root ==> |result| == |data| && forall i :: 0 <= i < |data| ==> result[i] == 2 * data[i]
    ensures rank != root ==> result == []
  {
    var n := |data|;
    var counts, displs := ComputePartition(n, size);
    var gathered: seq<int> := [];
    for r := 0 to size
      invariant Displacement(n, size, r) <= n
      invariant gathered == Doubled(data[..Displacement(n, size, r)])
    {
      SlicesTile(n, size, r, r);
      var part := RankContribution(data, displs[r], counts[r]);
      GatherStep(data, displs[r], counts[r]);
      gathered := gathered + part;
    }
    CountsCoverAll(n, size);
    assert data[..n] == data;
    if rank == root {
      result := gathered;
    } else {
      result := [];
    }
  }

  /** Eight elements over three ranks: counts 3, 3, 2 at offsets 0, 3, 6. */
  lemma PartitionOfEightOverThree()
    ensures SendCount(8, 3, 0) == 3 && SendCount(8, 3, 1) == 3 && SendCount(8, 3, 2) == 2
    ensures Displacement(8, 3, 0) == 0 && Displacement(8, 3, 1) == 3 && Displacement(8, 3, 2) == 6
  {
    assert Displacement(8, 3, 1) == 3;
  }

  /** The scatter-gather test's root check for the vector 1..8. */
  method ScatterGatherOnRoot(size: nat) returns (result: seq<int>)
    requires size >= 2
    ensures |result| == 8
    ensures forall i :: 0 <= i < 8 ==> result[i] == 2 * (i + 1)
  {
    result := ScatterGatherTest([1, 2, 3, 4, 5, 6, 7, 8], 0, size, 0);
  }
}
