/**
 * Clients of the data matrix that exercise its contracts on concrete request sequences:
 * what a caller can conclude from the specifications alone.
 */
module Scenarios {
  import opened Wrappers
  import opened Metadata
  import opened CacheRegistry
  import opened Data

  /** Four host batches of 2500 rows and 50 columns give 10000 rows, 50 columns, 4 batches. */
  method FourBatchesOfTenThousandRows() returns (m: SparsePageDMatrix)
    ensures m.Valid()
    ensures m.info.numRow == 10000 && m.info.numCol == 50 && m.nBatches == 4
  {
    var b := Batch(Host, 2500, 50, 2500 * 50);
    OneBatch(b);
    assert [b] + [b] == [b, b];
    RowsOfConcatenation([b], [b]);
    MaxColsOfConcatenation([b], [b]);
    RowsOfConcatenation([b, b], [b, b]);
    MaxColsOfConcatenation([b, b], [b, b]);
    assert [b, b] + [b, b] == [b, b, b, b];
    var r := SparsePageDMatrix.Create([b, b, b, b], "", Cluster(false, 0, []));
    m := r.value;
  }

  /** Rank 1 of a two-rank job sees 48 columns locally and ends with the job's 50. */
  method RaggedShardLearnsGlobalWidth() returns (m: SparsePageDMatrix)
    ensures m.Valid() && m.info.numCol == 50
    ensures m.cachePrefix == "DMatrix-r1"
  {
    var b := Batch(Host, 100, 48, 480);
    OneBatch(b);
    OneCount(50);
    var r := SparsePageDMatrix.Create([b], "", Cluster(true, 1, [50]));
    m := r.value;
  }

  /** A batch in device memory makes construction fail in a build without accelerator support. */
  method DeviceBatchFails() returns (r: Result<SparsePageDMatrix>)
    ensures r == Failure(GpuSupportRequired)
  {
    r := SparsePageDMatrix.Create([Batch(Device, 10, 5, 50)], "cache", Cluster(false, 0, []));
  }

  /** Requesting row batches again replays the same row source: nothing is rebuilt. */
  method RowBatchesTwice(m: SparsePageDMatrix) returns (first: BatchSet, second: BatchSet)
    requires m.Valid()
    modifies m
    ensures m.Valid() && m.cacheInfo == old(m.cacheInfo) && m.serials == old(m.serials)
    ensures first.OverSource? && second.OverSource?
    ensures first.source.serial == second.source.serial == old(m.sparsePageSource.value.serial)
    ensures m.iterResets == old(m.iterResets)
  {
    first := m.GetRowBatches();
    second := m.GetRowBatches();
  }

  /** The same single-page request twice: one page at most is built, the second request
      gets the same page, and the cache registry is never touched. */
  method SinglePageTwice(m: SparsePageDMatrix, p: BatchParam) returns (first: BatchSet, second: BatchSet)
    requires m.Valid() && p.maxBin >= 2 && UsesSinglePage(p)
    modifies m
    ensures m.Valid() && m.cacheInfo == old(m.cacheInfo)
    ensures first.OverPage? && first == second
    ensures m.serials <= old(m.serials) + 1 && m.iterResets == old(m.iterResets)
  {
    var r1 := m.GetGradientIndex(p);
    var r2 := m.GetGradientIndex(p);
    ParamsDifferIsInequality(p, p);
    first, second := r1.value, r2.value;
  }

  /** A paged request whose pass completed is served from the cache on repetition: the
      artifact stays written and the same source is reset, not rebuilt. */
  method PagedRepeatIsCacheHit(m: SparsePageDMatrix, p: BatchParam) returns (first: BatchSet, second: BatchSet)
    requires m.Valid() && p.maxBin >= 2 && !UsesSinglePage(p) && !p.regen
    modifies m
    ensures m.Valid() && m.Written(GradientIndexPage)
    ensures first.OverSource? && second.OverSource? && first.source.serial == second.source.serial
    ensures m.iterResets == old(m.iterResets)
  {
    var r1 := m.GetGradientIndex(p);
    m.EndOfStream(GradientIndexPage);
    var r2 := m.GetGradientIndex(p);
    ParamsDifferIsInequality(p, p);
    first, second := r1.value, r2.value;
  }

  /** Changing max_bin between two paged requests discards the first artifact: the second
      request starts an unwritten one with a new source quantising with the new parameters. */
  method ChangedMaxBinRebuilds(m: SparsePageDMatrix, p1: BatchParam, p2: BatchParam)
    returns (first: BatchSet, second: BatchSet)
    requires m.Valid() && !UsesSinglePage(p1) && !UsesSinglePage(p2)
    requires p1.maxBin == 32 && p2.maxBin == 64
    modifies m
    ensures m.Valid() && !m.Written(GradientIndexPage) && m.batchParam == p2
    ensures first.OverSource? && second.OverSource? && first.source.serial != second.source.serial
    ensures second.source.quantiser.Some? && second.source.quantiser.value.param == p2
  {
    var r1 := m.GetGradientIndex(p1);
    m.EndOfStream(GradientIndexPage);
    var r2 := m.GetGradientIndex(p2);
    first, second := r1.value, r2.value;
  }
}
