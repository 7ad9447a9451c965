# External-memory data matrix of xgboost, modelled in Dafny

This project models the bookkeeping core of xgboost's external-memory `SparsePageDMatrix`
(`src/data/sparse_page_dmatrix.cc`). The matrix pulls a dataset batch by batch from an external
iterator. It fixes the dataset's metadata in one pass at construction. It keeps a registry of
on-disk page caches (row, column, sorted-column and histogram-index pages). For each page type
it decides whether to build a page source, reuse it or rebuild it.

Modules:

- `Wrappers` holds the `Option` and `Result` types and the `Error` type. Each fatal check of the
  source is handled in one of four ways:
  - Three checks are error results:
    - `AssertGPUSupport` (lines 25, 34 and 205) returns `GpuSupportRequired`;
    - `CHECK_NE(info_.num_col_, 0)` in the constructor (line 98) returns `ZeroColumns`;
    - `CHECK_GE(param.max_bin, 2)` (line 161) returns `MaxBinTooSmall`.
  - `CHECK(sparse_page_source_)` (line 106) and `CHECK(ghist_index_source_)` (line 196) are
    asserts. The class invariant proves that they always hold.
  - `CHECK_NE(this->Info().num_col_, 0)` in the column getters (lines 132 and 147) is an assert.
    The invariant discharges it because the model has no way to change the column count after
    construction (see "Left out").
  - `CHECK_NE(cuts.Values().size(), 0)` (line 189) is taken to hold, because the sketch is a
    stub.
- `CachePrefix` holds the cache-prefix normalisation: the `"DMatrix"` default and the `-r<rank>`
  suffix of a distributed run. It includes the decimal rendering of the rank and a parser that
  reads the rank back.
- `Metadata` holds the external batches as `(layout, rows, cols, nnz)` values. The totals over
  the batches are one `Sum` and one `SeqMax` over the counts read off them (`Counts`). It also
  holds the per-batch count dispatch with its device fallbacks, the one-pass counting loop and the
  column-count all-reduce.
  - `n_batches` is a `uint32_t` and the sums are `size_t`, so both are taken modulo 2^32 and
    2^64 explicitly.
- `CacheRegistry` holds the page kinds and their file suffixes, the cache descriptors, and
  `MakeCache`. It also holds the batch parameters, their `!=` comparison, and the two rebuild
  rules of the histogram index.
- `Data` holds the `SparsePageDMatrix` class. Its fields are those of the C++ object: the cache
  prefix, the registry, the row, column, sorted-column and histogram-index sources, the
  single-page index, the stored batch parameters, the batch count and the metadata.
  - A page source is a value recording a serial number (object identity), its reset count, what
    it reads from, and, for the histogram-index source, the parameters and cuts it quantises
    with.
  - `iterResets` counts how often the matrix itself rewinds the external iterator.
  - `Consistent()` is the invariant that holds at every call boundary, during construction too.
    A written cache has the source that wrote it.
  - `Valid()` is the invariant of a constructed matrix. The row cache is written and
    `num_col_ != 0`. Every derived source has its registry entry and reads the current row
    source.
- `Scenarios` holds client methods whose contracts the verifier checks against the matrix's
  contracts, on concrete request sequences:
  - four batches of 2500 rows;
  - a two-rank job with a ragged shard;
  - row batches requested twice;
  - the same single-page request twice;
  - a paged cache hit;
  - a change of `max_bin` from 32 to 64.

The C++ constructor can fail, so it is modelled in two parts:

- `Init` is a constructor that performs the member initialisers and the prefix normalisation.
- `Create` is a static method that performs the metadata pass and returns a
  `Result<SparsePageDMatrix>`.

A page source marks its cache descriptor written once a consumer has pulled it to its end. That
behaviour lives in the page-source header, which is not part of this model. `EndOfStream(k)`
stands for it, so that clients can reach the cache-hit paths.

`BatchParam`'s `operator!=` is also defined in a header that is not part of this model. The model
follows xgboost's definition:

- it compares the device and the bin count;
- it compares the hessian buffer's address unless both buffers are empty;
- it does not compare `regen`.

Every request that passes `CHECK_GE(param.max_bin, 2)` differs from `BatchParam{}`, whose bin
count is 0. So the code's "default parameters do not force a rebuild" clause (lines 165 and 178)
never applies. `CheckedParamIsNeverDefault` proves this, and `SinglePageRule` and `PagedRule`
state the rebuild rules without that clause.

## Model

| member | source | states |
|---|---|---|
| CachePrefix.BasePrefix | src/data/sparse_page_dmatrix.cc:48 | the prefix is never empty: it is the caller's prefix when one was given and "DMatrix" otherwise |
| CachePrefix.NormalisePrefix | src/data/sparse_page_dmatrix.cc:48-51 | the base prefix is kept as a prefix; outside a distributed run nothing is appended; in a distributed run the rest is exactly "-r" followed by the rank's decimal text, and it reads back as the rank |
| CachePrefix.DecimalString | src/data/sparse_page_dmatrix.cc:50 | the rank's decimal text is non-empty, all digits, with no leading zero |
| CachePrefix.DecimalRoundTrip | src/data/sparse_page_dmatrix.cc:50 | parsing the decimal text of a rank gives back the rank |
| CachePrefix.DistinctRanksDistinctPrefixes | src/data/sparse_page_dmatrix.cc:49-51 | two ranks of one distributed job never share a cache prefix |
| Metadata.NSamplesDevice | src/data/sparse_page_dmatrix.cc:20-28 | without accelerator support the device row-count fallback always fails |
| Metadata.NFeaturesDevice | src/data/sparse_page_dmatrix.cc:29-37 | without accelerator support the device column-count fallback always fails |
| Metadata.NumRows | src/data/sparse_page_dmatrix.cc:61-69 | the row count succeeds exactly for a host batch and is its row count; a device batch fails with the accelerator error |
| Metadata.NumCols | src/data/sparse_page_dmatrix.cc:70-78 | the column count succeeds exactly for a host batch and is its column count; a device batch fails with the accelerator error |
| Metadata.MaxColsIsMaximum | src/data/sparse_page_dmatrix.cc:84 | the running maximum bounds every batch's column count and is attained by some batch, or is 0 |
| Metadata.CountBatches | src/data/sparse_page_dmatrix.cc:56-88 | the pass fails exactly when some batch lives in device memory; otherwise it yields the batch count mod 2^32, the row and non-zero sums mod 2^64 and the largest column count |
| Metadata.SeqMaxIsMaximum | src/data/sparse_page_dmatrix.cc:97 | the largest of a sequence of counts (the other ranks' column counts here) bounds each of them and is one of them, or 0 |
| Metadata.AllreduceMax | src/data/sparse_page_dmatrix.cc:97 | the reduced column count is at least the local one and at least every other rank's, and is one of the contributed values |
| Metadata.SeqMaxOfConcatenation | src/data/sparse_page_dmatrix.cc:97 | the maximum over two groups of ranks is the larger of the two groups' maxima |
| Metadata.AllRanksAgree | src/data/sparse_page_dmatrix.cc:97 | whichever rank runs it, the all-reduce ends with the largest column count over all ranks |
| Metadata.SumOfConcatenation | src/data/sparse_page_dmatrix.cc:85-86 | the total of two concatenated count sequences is the sum of their totals |
| Metadata.CountsOfConcatenation | src/data/sparse_page_dmatrix.cc:82 | the counts read off a concatenation of batch sequences are the concatenation of the parts' counts |
| Metadata.OneBatch | src/data/sparse_page_dmatrix.cc:84-86 | the row total, non-zero total and column count of a single batch are its own counts |
| Metadata.RowsOfConcatenation | src/data/sparse_page_dmatrix.cc:85 | the row total of a concatenation of batch sequences is the sum of their totals, so it does not depend on how the data is split into batches |
| Metadata.NnzOfConcatenation | src/data/sparse_page_dmatrix.cc:86 | the non-zero total does not depend on how the data is split into batches |
| Metadata.MaxColsOfConcatenation | src/data/sparse_page_dmatrix.cc:84 | the column count of a concatenation is the larger of the parts' column counts |
| CacheRegistry.MakeCache | src/data/sparse_page_dmatrix.cc:102 | the looked-up type is then registered; an existing descriptor is kept and a missing one is created unwritten with the prefix and the type's suffix; no other type is added |
| CacheRegistry.MakeCacheKeepsOthers | src/data/sparse_page_dmatrix.cc:131 | a lookup leaves every existing entry as it was |
| CacheRegistry.MakeCacheIdempotent | src/data/sparse_page_dmatrix.cc:146 | looking the same type up twice is the same as looking it up once |
| CacheRegistry.MakeCacheOfPresent | src/data/sparse_page_dmatrix.cc:102-105 | looking up a registered type leaves the whole registry unchanged |
| CacheRegistry.EraseThenMakeIsFresh | src/data/sparse_page_dmatrix.cc:180-181 | erasing an entry and looking it up again gives an unwritten descriptor and keeps the other entries |
| CacheRegistry.EraseThenMakeIsUpdate | src/data/sparse_page_dmatrix.cc:180-181 | erase-then-lookup replaces exactly that one entry by a fresh unwritten descriptor |
| CacheRegistry.ParamsDiffer | src/data/sparse_page_dmatrix.cc:178 | `BatchParam`'s `!=`: the device or the bin count differ, or, when either hessian buffer is non-empty, the buffers' addresses differ; `regen` is not compared |
| CacheRegistry.UsesSinglePage | src/data/sparse_page_dmatrix.cc:162 | the single-page strategy serves exactly the requests with an empty hessian buffer and no regen |
| CacheRegistry.SinglePageNeedsRebuild | src/data/sparse_page_dmatrix.cc:165 | the single page is rebuilt when there is none, or when the request differs from the stored parameters and from the default parameters |
| CacheRegistry.PagedNeedsRebuild | src/data/sparse_page_dmatrix.cc:178-179 | the paged source is rebuilt when the artifact is unwritten, when the stored parameters differ from the request and the request differs from the default, or when regen is set |
| CacheRegistry.ParamsDifferIsInequality | src/data/sparse_page_dmatrix.cc:178 | the parameter comparison is irreflexive and symmetric, so both argument orders used by the source agree |
| CacheRegistry.CheckedParamIsNeverDefault | src/data/sparse_page_dmatrix.cc:161-165 | a request with at least two bins always differs from the default parameters |
| CacheRegistry.SinglePageRule | src/data/sparse_page_dmatrix.cc:165 | for a checked request the single page is rebuilt exactly when there is none or the parameters changed |
| CacheRegistry.PagedRule | src/data/sparse_page_dmatrix.cc:178-179 | for a checked request the paged source is rebuilt exactly when the artifact is unwritten, the parameters changed, or regen is set; repeating the stored request on a written artifact rebuilds only under regen |
| CacheRegistry.NewMaxBinRebuilds | src/data/sparse_page_dmatrix.cc:165-179 | a change of bin count forces a rebuild on either path |
| Data.Reset | src/data/sparse_page_dmatrix.cc:107 | resetting a source keeps its identity, upstream and quantiser, and counts one more reset |
| Data.SparsePageDMatrix.Info | src/data/sparse_page_dmatrix.cc:14-16 | the metadata of a constructed matrix always has a column |
| Data.SparsePageDMatrix.Init | src/data/sparse_page_dmatrix.cc:41-51 | the member initialisers: an empty registry, no sources, default parameters, zero counts, and the normalised prefix |
| Data.SparsePageDMatrix.Create | src/data/sparse_page_dmatrix.cc:41-99 | construction fails with the accelerator error when a batch is in device memory, and with the zero-column error when the reduced column count is 0; it succeeds exactly otherwise, with a fresh valid matrix whose row cache is written, whose row source is the first one built, whose counts are those of the pass, and which rewound the external iterator once |
| Data.SparsePageDMatrix.CommitMetadata | src/data/sparse_page_dmatrix.cc:90-97 | the iterator is rewound once, the batch count and totals are stored, and the column count is max-reduced across ranks |
| Data.SparsePageDMatrix.InitializeSparsePage | src/data/sparse_page_dmatrix.cc:101-118 | with a written row cache the existing row source is reset and nothing is constructed; otherwise a new row source over the external iterator replaces any old one; the registry gains the row entry and the invariant is kept |
| Data.SparsePageDMatrix.GetRowBatchesImpl | src/data/sparse_page_dmatrix.cc:120-124 | as InitializeSparsePage, and the batch set iterates the current row source |
| Data.SparsePageDMatrix.GetRowBatches | src/data/sparse_page_dmatrix.cc:126-128 | on a constructed matrix the registry and the constructed sources are unchanged and the same row source is reset and replayed |
| Data.SparsePageDMatrix.GetColumnBatches | src/data/sparse_page_dmatrix.cc:130-143 | the column source is created once, reading the current row source, and only reset afterwards; the row source is reset; the registry gains the column entry |
| Data.SparsePageDMatrix.GetSortedColumnBatches | src/data/sparse_page_dmatrix.cc:145-158 | the sorted-column source is created once, reading the current row source, and only reset afterwards; the row source is reset; the registry gains its entry |
| Data.SparsePageDMatrix.GetGradientIndex | src/data/sparse_page_dmatrix.cc:160-201 | fewer than two bins fails and changes nothing; a request without hessian and regen takes the single-page path; any other request takes the paged path |
| Data.SparsePageDMatrix.GetSinglePageIndex | src/data/sparse_page_dmatrix.cc:161-174 | the registry and the paged source are never touched; the page is rebuilt exactly under the single-page rule, storing the request and resetting the row source before and after; otherwise nothing changes |
| Data.SparsePageDMatrix.GetPagedIndex | src/data/sparse_page_dmatrix.cc:176-200 | under the paged rule the entry is recreated unwritten, the request is stored, and a new source quantises with cuts sketched for it; otherwise the registry and parameters are unchanged and the existing source and row source are reset |
| Data.SparsePageDMatrix.RebuildGradientIndex | src/data/sparse_page_dmatrix.cc:178-194 | the entry becomes a fresh unwritten descriptor, the row source is reset after the sketch, and a new source with the request's parameters and cuts replaces the old one |
| Data.SparsePageDMatrix.InstallIndexSource | src/data/sparse_page_dmatrix.cc:186-193 | the request is stored and the histogram-index source is a newly constructed one reading the current row source |
| Data.SparsePageDMatrix.GetEllpackBatches | src/data/sparse_page_dmatrix.cc:203-208 | without accelerator support every request fails |
| Scenarios.FourBatchesOfTenThousandRows | src/data/sparse_page_dmatrix.cc:82-98 | four host batches of 2500 rows and 50 columns give 10000 rows, 50 columns and 4 batches |
| Scenarios.RaggedShardLearnsGlobalWidth | src/data/sparse_page_dmatrix.cc:48-98 | rank 1 seeing 48 columns ends with the job's 50 and the prefix "DMatrix-r1" |
| Scenarios.DeviceBatchFails | src/data/sparse_page_dmatrix.cc:63-75 | a device-resident batch makes construction fail |
| Scenarios.RowBatchesTwice | src/data/sparse_page_dmatrix.cc:101-128 | two row-batch requests reset and replay the same row source: its serial number is the one from before, no source is constructed, and the registry is unchanged |
| Scenarios.SinglePageTwice | src/data/sparse_page_dmatrix.cc:161-174 | the same single-page request twice returns the same page, builds at most one page and never touches the registry |
| Scenarios.PagedRepeatIsCacheHit | src/data/sparse_page_dmatrix.cc:176-198 | after a completed pass, repeating a paged request keeps the artifact written and resets the same source |
| Scenarios.ChangedMaxBinRebuilds | src/data/sparse_page_dmatrix.cc:176-194 | going from 32 to 64 bins replaces the source by a new one quantising with the new request, and leaves an unwritten artifact |

## Left out

- Page contents and their transforms: the row pages, the transposition into column and sorted-column pages, and the quantised histogram index. A source records only its identity, its reset count and its inputs, so the properties about page bytes and their order are not modelled.
- The quantile sketch (`common::SketchOnDMatrix`) is numeric and external. It is a stub returning an abstract cuts value, and its `CHECK_NE(cuts.Values().size(), 0)` is taken to hold.
- `HostAdapterDispatch`, the proxy and the callback iterator are type-dispatch and C-callback plumbing. The external data is a sequence of batch values, each on the host or on a device.
- `MetaInfo::Extend` (labels, weights and other per-row fields): its merge semantics are in code that is not part of this model.
- The rabit calls (`IsDistributed`, `GetRank`, `Allreduce`) are network transport. They become the `Cluster` input: a distributed flag, the rank, and the other ranks' column counts.
- Disk I/O of the cache files and their binary layout.
- The thread count and the `missing` value are passed through unchanged by this logic.
- The CUDA build paths; the model is the build without accelerator support.
- `BatchIterator` and `BatchSet` plumbing beyond "a set over the current source or page".
- `MakeCache`, the page-source classes and `BatchParam` come from headers that are not part of this model. Their behaviour is modelled as the code here relies on it, including `EndOfStream`, which marks a cache written at the end of a pass.
- Data.SparsePageDMatrix.GetColumnBatches: `Info()` at line 14 hands callers a mutable reference to the metadata, and this model does not include that. A caller could set `num_col_` to 0 through it, and then the check at line 132 aborts. The model has no such caller, so `num_col_ != 0` is part of the class invariant and the abort path is not modelled.
- Data.SparsePageDMatrix.GetSortedColumnBatches: as for the column getter, the abort of line 147 after a caller sets `num_col_` to 0 through the mutable `Info()` is not modelled.
- Data.SparsePageDMatrix.Info: only the read-only accessor of line 16 is modelled. The mutable overload of line 14 is not.
- Data.SparsePageDMatrix.GetSinglePageIndex: the index page's own pass over the row batches is not counted as a row-source reset. Only the two explicit `InitializeSparsePage` calls are.
- Data.SparsePageDMatrix.RebuildGradientIndex: the sketch's own pass over the row batches is not counted as a row-source reset. Only the explicit reset after the sketch is.
- Data.SparsePageDMatrix.Create: the page loop's row-source pull (`GetRowBatchesImpl`) is modelled, but the rows it yields are not. The counts come from the batch values.
