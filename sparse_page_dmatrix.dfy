/**
 * The external-memory data matrix: its construction-time metadata pass, its cache
 * registry, and the rules by which it builds, reuses or rebuilds its page sources.
 *
 * Page sources are opaque here. A source is a value that records a serial number (the
 * count of sources and index pages the matrix had constructed before it, standing in for
 * object identity), how often it has been reset, what it reads from and, for the
 * histogram-index source, the parameters and cuts it quantises with.
 */
module Data {
  import opened Wrappers
  import opened Metadata
  import opened CacheRegistry
  import CachePrefix

  /** What a page source pulls from: the external iterator (the row source) or the row source. */
  datatype Upstream = ExternalIterator | RowPages(rowSerial: nat)

  /** The quantile cuts of SketchOnDMatrix, kept abstract. */
  datatype Cuts = Cuts(maxBin: int, sortedSketch: bool, hess: Span)

  datatype Quantiser = Quantiser(param: BatchParam, cuts: Cuts)

  datatype Source = Source(serial: nat, resets: nat, upstream: Upstream, quantiser: Option<Quantiser>)

  /** The concatenated in-memory histogram index of the single-page strategy. */
  datatype IndexPage = IndexPage(serial: nat, maxBin: int)

  /** What a batch getter hands back: an iteration over a page source, or over the one page. */
  datatype BatchSet = OverSource(source: Source) | OverPage(page: IndexPage)

  function Reset(s: Source): (r: Source)
    ensures r.serial == s.serial && r.upstream == s.upstream && r.quantiser == s.quantiser
    ensures r.resets == s.resets + 1
  {
    s.(resets := s.resets + 1)
  }

  /** The quantile sketch over the whole matrix; its numerics are not modelled. */
  function SketchOnDMatrix(maxBin: int, sortedSketch: bool, hess: Span): Cuts {
    Cuts(maxBin, sortedSketch, hess)
  }

  predicate IsWritten(registry: Registry, k: PageKind) {
    k in registry && registry[k].written
  }

  /** A written cache of page type k has the source that wrote it, and that source, if any,
      has a serial number below the count of constructions. */
  ghost predicate Bookkept(registry: Registry, k: PageKind, source: Option<Source>, serials: nat) {
    && (IsWritten(registry, k) ==> source.Some?)
    && (source.Some? ==> source.value.serial < serials)
  }

  /** A live derived source of page type k has its registry entry and reads the row source. */
  ghost predicate Wired(registry: Registry, k: PageKind, source: Option<Source>, rows: Option<Source>) {
    source.Some? ==> k in registry && rows.Some? && source.value.upstream == RowPages(rows.value.serial)
  }

  class SparsePageDMatrix {
    /** The external data behind the iterator and proxy handles. */
    const batches: seq<Batch>
    /** What the distributed runtime reports to this process. */
    const cluster: Cluster

    var cachePrefix: string
    var cacheInfo: Registry
    var sparsePageSource: Option<Source>
    var columnSource: Option<Source>
    var sortedColumnSource: Option<Source>
    var ghistIndexPage: Option<IndexPage>
    var ghistIndexSource: Option<Source>
    var batchParam: BatchParam
    var nBatches: nat
    var info: MetaInfo
    /** How many page sources and index pages this matrix has constructed. */
    var serials: nat
    /** How often the matrix itself has rewound the external iterator. */
    var iterResets: nat

    predicate Written(k: PageKind)
      reads this
    {
      IsWritten(cacheInfo, k)
    }

    function SourceOf(k: PageKind): Option<Source>
      reads this
    {
      match k
      case RowPage => sparsePageSource
      case ColumnPage => columnSource
      case SortedColumnPage => sortedColumnSource
      case GradientIndexPage => ghistIndexSource
    }

    /** Holds at every call boundary, during construction too: a written cache has the
        source that wrote it, and every live source's serial number is already used up. */
    ghost predicate Consistent()
      reads this
    {
      && Bookkept(cacheInfo, RowPage, sparsePageSource, serials)
      && Bookkept(cacheInfo, ColumnPage, columnSource, serials)
      && Bookkept(cacheInfo, SortedColumnPage, sortedColumnSource, serials)
      && Bookkept(cacheInfo, GradientIndexPage, ghistIndexSource, serials)
      && (ghistIndexPage.Some? ==> ghistIndexPage.value.serial < serials)
      && (sparsePageSource.Some? ==> sparsePageSource.value.upstream == ExternalIterator)
    }

    /** The invariant of a constructed matrix: the metadata pass wrote the row cache, the
        column count is non-zero, and every derived source has its registry entry and reads
        the one current row source. */
    ghost predicate Valid()
      reads this
    {
      && Consistent()
      && IsWritten(cacheInfo, RowPage)
      && info.numCol != 0
      && nBatches < U32Modulus
      && Wired(cacheInfo, ColumnPage, columnSource, sparsePageSource)
      && Wired(cacheInfo, SortedColumnPage, sortedColumnSource, sparsePageSource)
      && Wired(cacheInfo, GradientIndexPage, ghistIndexSource, sparsePageSource)
      && (ghistIndexSource.Some? ==> ghistIndexSource.value.quantiser.Some?)
    }

    /** The metadata of a constructed matrix always has a column. */
    function Info(): (r: MetaInfo)
      reads this
      ensures Valid() ==> r.numCol != 0
    {
      info
    }

    /** The member initialisers and the cache-prefix normalisation of the constructor. */
    constructor Init(batches: seq<Batch>, cachePrefix: string, cluster: Cluster)
      ensures this.batches == batches && this.cluster == cluster
      ensures this.cachePrefix == CachePrefix.NormalisePrefix(cachePrefix, cluster.distributed, cluster.rank)
      ensures cacheInfo == map[] && serials == 0 && iterResets == 0
      ensures sparsePageSource.None? && columnSource.None? && sortedColumnSource.None?
      ensures ghistIndexPage.None? && ghistIndexSource.None?
      ensures batchParam == DefaultParam && nBatches == 0 && info == MetaInfo(0, 0, 0)
      ensures Consistent()
    {
      this.batches := batches;
      this.cluster := cluster;
      this.cachePrefix := CachePrefix.NormalisePrefix(cachePrefix, cluster.distributed, cluster.rank);
      cacheInfo := map[];
      sparsePageSource, columnSource, sortedColumnSource := None, None, None;
      ghistIndexPage, ghistIndexSource := None, None;
      batchParam := DefaultParam;
      nBatches, info := 0, MetaInfo(0, 0, 0);
      serials, iterResets := 0, 0;
    }

    /** The state the constructor leaves: the normalised prefix, the counts of the metadata
        pass, a written row cache and its row source, and nothing else built yet. */
    ghost predicate JustConstructed(batches: seq<Batch>, cachePrefix: string, cluster: Cluster)
      reads this
    {
      && this.batches == batches && this.cluster == cluster
      && this.cachePrefix == CachePrefix.NormalisePrefix(cachePrefix, cluster.distributed, cluster.rank)
      && nBatches == |batches| % U32Modulus
      && info == MetaInfo(SumRows(batches) % SizeModulus,
                          AllreduceMax(MaxCols(batches), cluster),
                          SumNnz(batches) % SizeModulus)
      && cacheInfo == map[RowPage := Cache(true, this.cachePrefix, Suffix(RowPage))]
      && sparsePageSource == Some(Source(0, 0, ExternalIterator, None))
      && columnSource.None? && sortedColumnSource.None?
      && ghistIndexPage.None? && ghistIndexSource.None?
      && batchParam == DefaultParam && serials == 1 && iterResets == 1
    }

    /**
     * The data matrix constructor: one pass over the row pages fixes the batch, row,
     * column and non-zero counts, the column count is max-reduced across ranks, and
     * construction fails on a device-resident batch or when no rank saw a column.
     */
    static method Create(batches: seq<Batch>, cachePrefix: string, cluster: Cluster)
      returns (r: Result<SparsePageDMatrix>)
      ensures !AllOnHost(batches) ==> r == Failure(GpuSupportRequired)
      ensures AllOnHost(batches) && AllreduceMax(MaxCols(batches), cluster) == 0 ==>
                r == Failure(ZeroColumns)
      ensures r.Success? <==> AllOnHost(batches) && AllreduceMax(MaxCols(batches), cluster) != 0
      ensures r.Success? ==> fresh(r.value) && r.value.Valid()
      ensures r.Success? ==> r.value.JustConstructed(batches, cachePrefix, cluster)
    {
      var m := new SparsePageDMatrix.Init(batches, cachePrefix, cluster);
      var rows := m.GetRowBatchesImpl();
      assert m.cacheInfo == map[RowPage := Cache(false, m.cachePrefix, Suffix(RowPage))];
      var tally := CountBatches(batches);
      if tally.Failure? {
        return Failure(tally.error);
      }
      // The pass ran to the end of the row pages, so the row source wrote its cache.
      m.EndOfStream(RowPage);
      assert m.cacheInfo == map[RowPage := Cache(true, m.cachePrefix, Suffix(RowPage))];
      m.CommitMetadata(tally.value);
      assert m.JustConstructed(batches, cachePrefix, cluster);
      if m.info.numCol == 0 {
        return Failure(ZeroColumns);
      }
      return Success(m);
    }

    /** After the pass: rewind the external iterator, store the counts, and max-reduce the
        column count across ranks. */
    method CommitMetadata(tally: Tally)
      modifies this`iterResets, this`nBatches, this`info
      ensures iterResets == old(iterResets) + 1 && nBatches == tally.nBatches
      ensures info == MetaInfo(tally.nSamples, AllreduceMax(tally.nFeatures, cluster), tally.nnz)
    {
      iterResets := iterResets + 1;
      nBatches := tally.nBatches;
      info := MetaInfo(tally.nSamples, tally.nFeatures, tally.nnz);
      info := info.(numCol := AllreduceMax(info.numCol, cluster));
    }

    /** Construct a new page source: it takes the next serial number and has not been reset. */
    method Construct(upstream: Upstream, quantiser: Option<Quantiser>) returns (s: Source)
      modifies this`serials
      ensures s == Source(old(serials), 0, upstream, quantiser) && serials == old(serials) + 1
    {
      s := Source(serials, 0, upstream, quantiser);
      serials := serials + 1;
    }

    /**
     * A consumer pulled the source of one page type to its end: the source marks that
     * type's cache written, so later requests replay it from disk.
     */
    method EndOfStream(k: PageKind)
      requires Consistent() && k in cacheInfo && SourceOf(k).Some?
      modifies this`cacheInfo
      ensures Consistent() && (old(Valid()) ==> Valid())
      ensures cacheInfo == old(cacheInfo)[k := old(cacheInfo)[k].(written := true)]
    {
      cacheInfo := cacheInfo[k := cacheInfo[k].(written := true)];
    }

    /**
     * Make sure the row source exists: a written row cache means the row source already
     * exists, and it is only reset; otherwise any previous row source is dropped and a new
     * one over the external iterator takes its place.
     */
    method InitializeSparsePage()
      requires Consistent()
      modifies this`cacheInfo, this`sparsePageSource, this`serials
      ensures Consistent()
      ensures cacheInfo == MakeCache(old(cacheInfo), RowPage, cachePrefix)
      ensures old(Written(RowPage)) ==>
                old(sparsePageSource).Some? && sparsePageSource == Some(Reset(old(sparsePageSource).value))
                && serials == old(serials)
      ensures !old(Written(RowPage)) ==>
                sparsePageSource == Some(Source(old(serials), 0, ExternalIterator, None))
                && serials == old(serials) + 1
    {
      cacheInfo := MakeCache(cacheInfo, RowPage, cachePrefix);
      if cacheInfo[RowPage].written {
        assert SourceOf(RowPage).Some?;  // CHECK(sparse_page_source_)
        sparsePageSource := Some(Reset(sparsePageSource.value));
        return;
      }
      sparsePageSource := None;
      var source := Construct(ExternalIterator, None);
      sparsePageSource := Some(source);
    }

    method GetRowBatchesImpl() returns (s: BatchSet)
      requires Consistent()
      modifies this`cacheInfo, this`sparsePageSource, this`serials
      ensures Consistent()
      ensures cacheInfo == MakeCache(old(cacheInfo), RowPage, cachePrefix)
      ensures old(Written(RowPage)) ==>
                old(sparsePageSource).Some? && sparsePageSource == Some(Reset(old(sparsePageSource).value))
                && serials == old(serials)
      ensures !old(Written(RowPage)) ==>
                sparsePageSource == Some(Source(old(serials), 0, ExternalIterator, None))
                && serials == old(serials) + 1
      ensures sparsePageSource.Some? && s == OverSource(sparsePageSource.value)
    {
      InitializeSparsePage();
      s := OverSource(sparsePageSource.value);
    }

    /** Row batches of a constructed matrix: the row cache is written, so the existing row
        source is reset and replayed; nothing is rebuilt and the registry is unchanged. */
    method GetRowBatches() returns (s: BatchSet)
      requires Valid()
      modifies this`cacheInfo, this`sparsePageSource, this`serials
      ensures Valid()
      ensures cacheInfo == old(cacheInfo) && serials == old(serials)
      ensures sparsePageSource == Some(Reset(old(sparsePageSource).value))
      ensures s == OverSource(sparsePageSource.value)
    {
      s := GetRowBatchesImpl();
    }

    /** Column batches: the column source is created on the first request, wired to the
        current row source, and only reset on every later one. */
    method GetColumnBatches() returns (s: BatchSet)
      requires Valid()
      modifies this`cacheInfo, this`sparsePageSource, this`columnSource, this`serials
      ensures Valid()
      ensures cacheInfo == MakeCache(old(cacheInfo), ColumnPage, cachePrefix)
      ensures sparsePageSource == Some(Reset(old(sparsePageSource).value))
      ensures old(columnSource).None? ==>
                columnSource == Some(Source(old(serials), 0, RowPages(sparsePageSource.value.serial), None))
                && serials == old(serials) + 1
      ensures old(columnSource).Some? ==>
                columnSource == Some(Reset(old(columnSource).value)) && serials == old(serials)
      ensures s == OverSource(columnSource.value)
    {
      cacheInfo := MakeCache(cacheInfo, ColumnPage, cachePrefix);
      assert Info().numCol != 0;  // CHECK_NE(Info().num_col_, 0)
      InitializeSparsePage();
      if columnSource.None? {
        var source := Construct(RowPages(sparsePageSource.value.serial), None);
        columnSource := Some(source);
      } else {
        columnSource := Some(Reset(columnSource.value));
      }
      s := OverSource(columnSource.value);
    }

    /** Sorted-column batches: the same create-once-then-reset rule as column batches. */
    method GetSortedColumnBatches() returns (s: BatchSet)
      requires Valid()
      modifies this`cacheInfo, this`sparsePageSource, this`sortedColumnSource, this`serials
      ensures Valid()
      ensures cacheInfo == MakeCache(old(cacheInfo), SortedColumnPage, cachePrefix)
      ensures sparsePageSource == Some(Reset(old(sparsePageSource).value))
      ensures old(sortedColumnSource).None? ==>
                sortedColumnSource == Some(Source(old(serials), 0, RowPages(sparsePageSource.value.serial), None))
                && serials == old(serials) + 1
      ensures old(sortedColumnSource).Some? ==>
                sortedColumnSource == Some(Reset(old(sortedColumnSource).value)) && serials == old(serials)
      ensures s == OverSource(sortedColumnSource.value)
    {
      cacheInfo := MakeCache(cacheInfo, SortedColumnPage, cachePrefix);
      assert Info().numCol != 0;  // CHECK_NE(Info().num_col_, 0)
      InitializeSparsePage();
      if sortedColumnSource.None? {
        var source := Construct(RowPages(sparsePageSource.value.serial), None);
        sortedColumnSource := Some(source);
      } else {
        sortedColumnSource := Some(Reset(sortedColumnSource.value));
      }
      s := OverSource(sortedColumnSource.value);
    }

    /**
     * Histogram-index batches. A request with fewer than two bins fails and changes
     * nothing. A request without hessian and without regen is served by the concatenated
     * single page, any other by the paged source.
     */
    method GetGradientIndex(param: BatchParam) returns (r: Result<BatchSet>)
      requires Valid()
      modifies this`cacheInfo, this`sparsePageSource, this`ghistIndexPage, this`ghistIndexSource
      modifies this`batchParam, this`serials
      ensures Valid()
      ensures param.maxBin < 2 ==>
                && r == Failure(MaxBinTooSmall)
                && cacheInfo == old(cacheInfo) && sparsePageSource == old(sparsePageSource)
                && ghistIndexPage == old(ghistIndexPage) && ghistIndexSource == old(ghistIndexSource)
                && batchParam == old(batchParam) && serials == old(serials)
      ensures param.maxBin >= 2 && UsesSinglePage(param) ==>
                SinglePageServed(param) && r == Success(OverPage(ghistIndexPage.value))
      ensures param.maxBin >= 2 && !UsesSinglePage(param) ==>
                PagedServed(param) && r == Success(OverSource(ghistIndexSource.value))
    {
      if param.maxBin < 2 {
        return Failure(MaxBinTooSmall);
      }
      if UsesSinglePage(param) {
        var page := GetSinglePageIndex(param);
        return Success(OverPage(page));
      }
      var source := GetPagedIndex(param);
      return Success(OverSource(source));
    }

    /**
     * The single-page strategy: the concatenated page is rebuilt when there is none or the
     * parameters changed (and are not the default), with the row source reset before and
     * after; the registry and the paged source are never touched.
     */
    twostate predicate SinglePageServed(param: BatchParam)
      reads this
    {
      && cacheInfo == old(cacheInfo) && ghistIndexSource == old(ghistIndexSource)
      && old(sparsePageSource).Some? && ghistIndexPage.Some?
      && if SinglePageNeedsRebuild(old(ghistIndexPage).Some?, param, old(batchParam)) then
           && ghistIndexPage == Some(IndexPage(old(serials), param.maxBin))
           && batchParam == param && serials == old(serials) + 1
           && sparsePageSource == Some(Reset(Reset(old(sparsePageSource).value)))
         else
           && ghistIndexPage == old(ghistIndexPage) && batchParam == old(batchParam)
           && serials == old(serials) && sparsePageSource == old(sparsePageSource)
    }

    /**
     * The paged strategy: on a rebuild the registry entry is erased and recreated unwritten,
     * the parameters are stored and a new source quantises with fresh cuts; otherwise the
     * entry is left as it is and the existing source is reset.
     */
    twostate predicate PagedServed(param: BatchParam)
      reads this
    {
      && ghistIndexPage == old(ghistIndexPage)
      && old(sparsePageSource).Some? && ghistIndexSource.Some? && sparsePageSource.Some?
      && if PagedNeedsRebuild(old(Written(GradientIndexPage)), param, old(batchParam)) then
           && cacheInfo == old(cacheInfo)[GradientIndexPage := Cache(false, cachePrefix, Suffix(GradientIndexPage))]
           && batchParam == param && serials == old(serials) + 1
           && sparsePageSource == Some(Reset(Reset(old(sparsePageSource).value)))
           && ghistIndexSource == Some(Source(old(serials), 0, RowPages(sparsePageSource.value.serial),
                Some(Quantiser(param, SketchOnDMatrix(param.maxBin, param.regen, param.hess)))))
         else
           && old(ghistIndexSource).Some?
           && cacheInfo == old(cacheInfo) && batchParam == old(batchParam) && serials == old(serials)
           && sparsePageSource == Some(Reset(old(sparsePageSource).value))
           && ghistIndexSource == Some(Reset(old(ghistIndexSource).value))
    }

    method GetSinglePageIndex(param: BatchParam) returns (page: IndexPage)
      requires Valid() && param.maxBin >= 2 && UsesSinglePage(param)
      modifies this`cacheInfo, this`sparsePageSource, this`ghistIndexPage, this`batchParam, this`serials
      ensures Valid()
      ensures SinglePageServed(param) && page == ghistIndexPage.value
    {
      if SinglePageNeedsRebuild(ghistIndexPage.Some?, param, batchParam) {
        InitializeSparsePage();
        var serial := serials;
        serials := serials + 1;
        ghistIndexPage := Some(IndexPage(serial, param.maxBin));
        InitializeSparsePage();
        batchParam := param;
      }
      page := ghistIndexPage.value;
    }

    method GetPagedIndex(param: BatchParam) returns (source: Source)
      requires Valid() && param.maxBin >= 2 && !UsesSinglePage(param)
      modifies this`cacheInfo, this`sparsePageSource, this`ghistIndexSource, this`batchParam, this`serials
      ensures Valid()
      ensures PagedServed(param) && source == ghistIndexSource.value
    {
      ghost var rebuild := PagedNeedsRebuild(Written(GradientIndexPage), param, batchParam);
      cacheInfo := MakeCache(cacheInfo, GradientIndexPage, cachePrefix);
      InitializeSparsePage();
      assert rebuild == PagedNeedsRebuild(cacheInfo[GradientIndexPage].written, param, batchParam);
      if PagedNeedsRebuild(cacheInfo[GradientIndexPage].written, param, batchParam) {
        RebuildGradientIndex(param);
      } else {
        assert SourceOf(GradientIndexPage).Some?;  // CHECK(ghist_index_source_)
        ghistIndexSource := Some(Reset(ghistIndexSource.value));
      }
      source := ghistIndexSource.value;
    }

    /** The rebuild branch of the paged strategy: a fresh registry entry, cuts sketched with
        the sorted sketch when regen is requested, the row source reset after the sketch, the
        request stored, and the old source replaced by one quantising with the new cuts. */
    method RebuildGradientIndex(param: BatchParam)
      requires Valid() && GradientIndexPage in cacheInfo
      modifies this`cacheInfo, this`sparsePageSource, this`ghistIndexSource, this`batchParam, this`serials
      ensures Valid()
      ensures cacheInfo == old(cacheInfo)[GradientIndexPage := Cache(false, cachePrefix, Suffix(GradientIndexPage))]
      ensures batchParam == param && serials == old(serials) + 1
      ensures sparsePageSource == Some(Reset(old(sparsePageSource).value))
      ensures ghistIndexSource == Some(Source(old(serials), 0, RowPages(sparsePageSource.value.serial),
                Some(Quantiser(param, SketchOnDMatrix(param.maxBin, param.regen, param.hess)))))
    {
      // Erase the entry and make it again: the new descriptor is unwritten.
      EraseThenMakeIsUpdate(cacheInfo, GradientIndexPage, cachePrefix);
      cacheInfo := MakeCache(cacheInfo - {GradientIndexPage}, GradientIndexPage, cachePrefix);
      // Use the sorted sketch when regeneration is requested.
      var cuts := SketchOnDMatrix(param.maxBin, param.regen, param.hess);
      MakeCacheOfPresent(cacheInfo, RowPage, cachePrefix);
      InitializeSparsePage();  // reset after use
      InstallIndexSource(param, cuts);
    }

    /** Store the request and replace the histogram-index source by one that quantises
        with the given cuts, reading the current row source. */
    method InstallIndexSource(param: BatchParam, cuts: Cuts)
      requires Valid() && GradientIndexPage in cacheInfo && !Written(GradientIndexPage)
      modifies this`ghistIndexSource, this`batchParam, this`serials
      ensures Valid()
      ensures batchParam == param && serials == old(serials) + 1
      ensures ghistIndexSource == Some(Source(old(serials), 0, RowPages(sparsePageSource.value.serial),
                Some(Quantiser(param, cuts))))
    {
      batchParam := param;
      ghistIndexSource := None;
      var built := Construct(RowPages(sparsePageSource.value.serial), Some(Quantiser(param, cuts)));
      ghistIndexSource := Some(built);
    }

    /** Accelerator pages: in a build without accelerator support every request fails. */
    method GetEllpackBatches(param: BatchParam) returns (r: Result<BatchSet>)
      ensures r == Failure(GpuSupportRequired)
    {
      return Failure(GpuSupportRequired);
    }
  }
}
