/**
 * The metadata-discovery pass of the external-memory data matrix: one walk over the
 * external batches that counts batches, rows and non-zeros and keeps the widest batch's
 * column count, followed by a maximum all-reduce of the column count across ranks.
 */
module Metadata {
  import opened Wrappers

  /** Counters kept in uint32_t wrap modulo 2^32, those kept in size_t modulo 2^64. */
  const U32Modulus: nat := 0x1_0000_0000
  const SizeModulus: nat := 0x1_0000_0000_0000_0000

  type Size = n: nat | n < SizeModulus

  /** Where the proxy holds the current external batch. */
  datatype Layout = Host | Device

  /** One external batch as the metadata pass sees it: its shape and non-zero count. */
  datatype Batch = Batch(layout: Layout, rows: Size, cols: Size, nnz: Size)

  /** What the distributed runtime reports: whether this is a distributed run, this
      process's rank, and the column counts the other ranks contribute to the all-reduce. */
  datatype Cluster = Cluster(distributed: bool, rank: nat, peerCols: seq<Size>)

  /** The row, column and non-zero counts of MetaInfo that this core writes. */
  datatype MetaInfo = MetaInfo(numRow: Size, numCol: Size, numNonzero: Size)

  /** What the loop of the metadata pass accumulates. */
  datatype Tally = Tally(nBatches: nat, nSamples: Size, nFeatures: Size, nnz: Size)

  function Max(a: nat, b: nat): nat {
    if a < b then b else a
  }

  /** The device fallback for the row count: in a build without accelerator support it fails. */
  function NSamplesDevice(b: Batch): (r: Result<Size>)
    ensures r == Failure(GpuSupportRequired)
  {
    Failure(GpuSupportRequired)
  }

  /** The device fallback for the column count: in a build without accelerator support it fails. */
  function NFeaturesDevice(b: Batch): (r: Result<Size>)
    ensures r == Failure(GpuSupportRequired)
  {
    Failure(GpuSupportRequired)
  }

  /** Row count of the current batch: read on the host, otherwise by the device fallback. */
  function NumRows(b: Batch): (r: Result<Size>)
    ensures r.Success? <==> b.layout == Host
    ensures r.Success? ==> r.value == b.rows
    ensures r.Failure? ==> r.error == GpuSupportRequired
  {
    if b.layout == Host then Success(b.rows) else NSamplesDevice(b)
  }

  /** Column count of the current batch: read on the host, otherwise by the device fallback. */
  function NumCols(b: Batch): (r: Result<Size>)
    ensures r.Success? <==> b.layout == Host
    ensures r.Success? ==> r.value == b.cols
    ensures r.Failure? ==> r.error == GpuSupportRequired
  {
    if b.layout == Host then Success(b.cols) else NFeaturesDevice(b)
  }

  /** One count per batch, read off by f: the batches' rows, columns or non-zeros. */
  function Counts(bs: seq<Batch>, f: Batch -> Size): seq<Size> {
    seq(|bs|, i requires 0 <= i < |bs| => f(bs[i]))
  }

  lemma CountsElements(bs: seq<Batch>, f: Batch -> Size)
    ensures |Counts(bs, f)| == |bs| && forall i :: 0 <= i < |bs| ==> Counts(bs, f)[i] == f(bs[i])
  {
  }

  function RowsOf(b: Batch): Size { b.rows }
  function ColsOf(b: Batch): Size { b.cols }
  function NnzOf(b: Batch): Size { b.nnz }

  /** The exact (unbounded) total of a sequence of counts. */
  function Sum(s: seq<Size>): nat {
    if s == [] then 0 else Sum(s[..|s| - 1]) + s[|s| - 1]
  }

  /** The largest of a sequence of counts, 0 for none. */
  function SeqMax(s: seq<Size>): Size {
    if s == [] then 0
    else
      var m := SeqMax(s[..|s| - 1]);
      if m < s[|s| - 1] then s[|s| - 1] else m
  }

  function SumRows(bs: seq<Batch>): nat {
    Sum(Counts(bs, RowsOf))
  }

  function SumNnz(bs: seq<Batch>): nat {
    Sum(Counts(bs, NnzOf))
  }

  /** The running maximum of the batches' column counts, 0 for no batch. */
  function MaxCols(bs: seq<Batch>): Size {
    SeqMax(Counts(bs, ColsOf))
  }

  lemma {:induction false} SeqMaxIsMaximum(s: seq<Size>)
    ensures forall i :: 0 <= i < |s| ==> s[i] <= SeqMax(s)
    ensures SeqMax(s) == 0 || SeqMax(s) in s
  {
    if s != [] {
      var init := s[..|s| - 1];
      SeqMaxIsMaximum(init);
      assert forall i :: 0 <= i < |init| ==> init[i] == s[i];
      assert SeqMax(init) in init ==> SeqMax(init) in s;
    }
  }

  /** The running maximum is the widest batch's column count. */
  lemma MaxColsIsMaximum(bs: seq<Batch>)
    ensures forall i :: 0 <= i < |bs| ==> bs[i].cols <= MaxCols(bs)
    ensures MaxCols(bs) == 0 || exists i :: 0 <= i < |bs| && bs[i].cols == MaxCols(bs)
  {
    var cols := Counts(bs, ColsOf);
    SeqMaxIsMaximum(cols);
    assert forall i :: 0 <= i < |bs| ==> cols[i] == bs[i].cols;
    if MaxCols(bs) != 0 {
      var i :| 0 <= i < |cols| && cols[i] == SeqMax(cols);
      assert bs[i].cols == MaxCols(bs);
    }
  }

  predicate AllOnHost(bs: seq<Batch>) {
    forall i :: 0 <= i < |bs| ==> bs[i].layout == Host
  }

  lemma MulAtLeast(d: int, m: int)
    requires d >= 1 && m > 0
    ensures d * m >= m
  {
    assert d * m == (d - 1) * m + m;
    assert (d - 1) * m >= 0;
  }
  lemma ModUnique(x: int, q: int, r: int, m: int)
    requires m > 0 && 0 <= r < m && x == q * m + r
    ensures x % m == r
  {
    var q0, r0 := x / m, x % m;
    assert x == q0 * m + r0;
    if q0 > q {
      assert (q0 - q) * m == q0 * m - q * m;
      MulAtLeast(q0 - q, m);
    } else if q0 < q {
      assert (q - q0) * m == q * m - q0 * m;
      MulAtLeast(q - q0, m);
    }
  }
  lemma ModAdd(a: nat, b: nat, m: nat)
    requires m > 0
    ensures (a % m + b) % m == (a + b) % m
  {
    var q1, r1 := (a % m + b) / m, (a % m + b) % m;
    assert a % m + b == q1 * m + r1;
    assert a == (a / m) * m + a % m;
    assert a + b == (a / m + q1) * m + r1;
    ModUnique(a + b, a / m + q1, r1, m);
  }

  /**
   * The loop of the data matrix constructor over the row pages. It fails at the first
   * batch that lives in device memory; otherwise it counts the batches (uint32_t), sums the
   * rows and the non-zeros (size_t) and takes the largest column count.
   */
  method CountBatches(batches: seq<Batch>) returns (r: Result<Tally>)
    ensures r.Failure? <==> !AllOnHost(batches)
    ensures r.Failure? ==> r.error == GpuSupportRequired
    ensures r.Success? ==> r.value == Tally(|batches| % U32Modulus, SumRows(batches) % SizeModulus,
                                            MaxCols(batches), SumNnz(batches) % SizeModulus)
  {
    var nBatches: nat := 0;
    var nFeatures: Size := 0;
    var nSamples: Size := 0;
    var nnz: Size := 0;
    var i := 0;
    while i < |batches|
      invariant 0 <= i <= |batches|
      invariant AllOnHost(batches[..i])
      invariant nBatches == i % U32Modulus
      invariant nSamples == SumRows(batches[..i]) % SizeModulus
      invariant nnz == SumNnz(batches[..i]) % SizeModulus
      invariant nFeatures == MaxCols(batches[..i])
    {
      var b := batches[i];
      assert batches[..i + 1] == batches[..i] + [b];
      OneBatch(b);
      RowsOfConcatenation(batches[..i], [b]);
      NnzOfConcatenation(batches[..i], [b]);
      MaxColsOfConcatenation(batches[..i], [b]);
      var cols := NumCols(b);
      if cols.Failure? {
        assert !AllOnHost(batches) by { assert batches[i].layout == Device; }
        return Failure(cols.error);
      }
      nFeatures := Max(nFeatures, cols.value);
      var rows := NumRows(b);
      ModAdd(SumRows(batches[..i]), b.rows, SizeModulus);
      nSamples := (nSamples + rows.value) % SizeModulus;
      ModAdd(SumNnz(batches[..i]), b.nnz, SizeModulus);
      nnz := (nnz + b.nnz) % SizeModulus;
      ModAdd(i, 1, U32Modulus);
      nBatches := (nBatches + 1) % U32Modulus;
      i := i + 1;
    }
    assert batches[..i] == batches;
    return Success(Tally(nBatches, nSamples, nFeatures, nnz));
  }

  /**
   * rabit::Allreduce<Max> on the column count: every rank ends up with the largest count
   * any rank contributed; outside a distributed run the local count is kept.
   */
  function AllreduceMax(local: Size, cluster: Cluster): (r: Size)
    ensures r >= local
    ensures cluster.distributed ==> forall i :: 0 <= i < |cluster.peerCols| ==> cluster.peerCols[i] <= r
    ensures r == local || (cluster.distributed && r in cluster.peerCols)
  {
    SeqMaxIsMaximum(cluster.peerCols);
    if cluster.distributed then Max(local, SeqMax(cluster.peerCols)) else local
  }

  /** Reading counts off a concatenation of batch sequences concatenates the readings. */
  lemma CountsOfConcatenation(a: seq<Batch>, b: seq<Batch>, f: Batch -> Size)
    ensures Counts(a + b, f) == Counts(a, f) + Counts(b, f)
  {
    assert forall i :: 0 <= i < |a + b| ==> Counts(a + b, f)[i] == (Counts(a, f) + Counts(b, f))[i];
  }

  lemma {:induction false} SumOfConcatenation(a: seq<Size>, b: seq<Size>)
    ensures Sum(a + b) == Sum(a) + Sum(b)
    decreases |b|
  {
    if b == [] {
      assert a + b == a;
    } else {
      assert (a + b)[..|a + b| - 1] == a + b[..|b| - 1];
      SumOfConcatenation(a, b[..|b| - 1]);
    }
  }

  lemma {:induction false} SeqMaxOfConcatenation(a: seq<Size>, b: seq<Size>)
    ensures SeqMax(a + b) == Max(SeqMax(a), SeqMax(b))
    decreases |b|
  {
    if b == [] {
      assert a + b == a;
    } else {
      assert (a + b)[..|a + b| - 1] == a + b[..|b| - 1];
      SeqMaxOfConcatenation(a, b[..|b| - 1]);
    }
  }

  /** Splitting the data into batches differently does not change the totals: the totals
      over a concatenation of batches combine the totals of its parts. */
  lemma RowsOfConcatenation(a: seq<Batch>, b: seq<Batch>)
    ensures SumRows(a + b) == SumRows(a) + SumRows(b)
  {
    CountsOfConcatenation(a, b, RowsOf);
    SumOfConcatenation(Counts(a, RowsOf), Counts(b, RowsOf));
  }

  lemma NnzOfConcatenation(a: seq<Batch>, b: seq<Batch>)
    ensures SumNnz(a + b) == SumNnz(a) + SumNnz(b)
  {
    CountsOfConcatenation(a, b, NnzOf);
    SumOfConcatenation(Counts(a, NnzOf), Counts(b, NnzOf));
  }

  lemma MaxColsOfConcatenation(a: seq<Batch>, b: seq<Batch>)
    ensures MaxCols(a + b) == Max(MaxCols(a), MaxCols(b))
  {
    CountsOfConcatenation(a, b, ColsOf);
    SeqMaxOfConcatenation(Counts(a, ColsOf), Counts(b, ColsOf));
  }

  /** The totals of one batch are its own counts. */
  lemma OneBatch(b: Batch)
    ensures SumRows([b]) == b.rows && SumNnz([b]) == b.nnz && MaxCols([b]) == b.cols
  {
    OneCount(b.rows);
    OneCount(b.nnz);
    OneCount(b.cols);
    CountsElements([b], RowsOf);
    CountsElements([b], NnzOf);
    CountsElements([b], ColsOf);
    assert Counts([b], RowsOf) == [b.rows];
    assert Counts([b], NnzOf) == [b.nnz];
    assert Counts([b], ColsOf) == [b.cols];
  }

  lemma OneCount(v: Size)
    ensures Sum([v]) == v && SeqMax([v]) == v
  {
    var s: seq<Size> := [v];
    assert s[..0] == [];
  }

  /** The largest value of a sequence with one value picked out. */
  lemma SeqMaxAround(before: seq<Size>, x: Size, after: seq<Size>)
    ensures SeqMax(before + [x] + after) == Max(x, SeqMax(before + after))
  {
    assert (before + [x])[..|before|] == before;
    assert SeqMax(before + [x]) == Max(SeqMax(before), x);
    SeqMaxOfConcatenation(before + [x], after);
    SeqMaxOfConcatenation(before, after);
  }

  /**
   * In a distributed job where rank i contributes cols[i] and receives the others' counts,
   * every rank ends the all-reduce with the same column count: the largest of them all.
   */
  lemma AllRanksAgree(cols: seq<Size>, i: nat)
    requires i < |cols|
    ensures AllreduceMax(cols[i], Cluster(true, i, cols[..i] + cols[i + 1..])) == SeqMax(cols)
  {
    var x, before, after := cols[i], cols[..i], cols[i + 1..];
    SplitAround(cols, i);
    SeqMaxAround(before, x, after);
    var cluster := Cluster(true, i, before + after);
    assert AllreduceMax(x, cluster) == Max(x, SeqMax(before + after));
  }

  lemma SplitAround(cols: seq<Size>, i: nat)
    requires i < |cols|
    ensures cols == cols[..i] + [cols[i]] + cols[i + 1..]
  {
  }
}
