/**
 * The cache registry of one data matrix (its cache_info_ map) and the rules that decide
 * whether a quantised histogram-index page is rebuilt or reused.
 */
module CacheRegistry {

  /** The page types that have an on-disk cache, one registry entry each. */
  datatype PageKind = RowPage | ColumnPage | SortedColumnPage | GradientIndexPage

  function Suffix(k: PageKind): string {
    match k
    case RowPage => ".row.page"
    case ColumnPage => ".col.page"
    case SortedColumnPage => ".sorted.col.page"
    case GradientIndexPage => ".gradient_index.page"
  }

  /** A cache artifact descriptor: whether a full pass has written the file, and its name. */
  datatype Cache = Cache(written: bool, name: string, format: string)

  type Registry = map<PageKind, Cache>

  /**
   * MakeCache: look up the entry of one page type, creating an unwritten descriptor named
   * after the cache prefix when there is none. Every other entry is left as it was.
   */
  function MakeCache(registry: Registry, k: PageKind, prefix: string): (r: Registry)
    ensures k in r && r.Keys == registry.Keys + {k}
    ensures k in registry ==> r[k] == registry[k]
    ensures k !in registry ==> r[k] == Cache(false, prefix, Suffix(k))
  {
    if k in registry then registry else registry[k := Cache(false, prefix, Suffix(k))]
  }

  /** MakeCache leaves every other entry as it was. */
  lemma MakeCacheKeepsOthers(registry: Registry, k: PageKind, prefix: string)
    ensures forall j :: j in registry ==> MakeCache(registry, k, prefix)[j] == registry[j]
  {
  }

  /** Looking an entry up a second time changes nothing. */
  lemma MakeCacheIdempotent(registry: Registry, k: PageKind, prefix: string)
    ensures MakeCache(MakeCache(registry, k, prefix), k, prefix) == MakeCache(registry, k, prefix)
  {
  }

  /** Erasing an entry and looking it up again yields a fresh, unwritten descriptor. */
  lemma EraseThenMakeIsFresh(registry: Registry, k: PageKind, prefix: string)
    ensures MakeCache(registry - {k}, k, prefix)[k] == Cache(false, prefix, Suffix(k))
    ensures forall j :: j in registry && j != k ==> MakeCache(registry - {k}, k, prefix)[j] == registry[j]
  {
  }

  /** Looking up an entry that is already there leaves the registry as it is. */
  lemma MakeCacheOfPresent(registry: Registry, k: PageKind, prefix: string)
    requires k in registry
    ensures MakeCache(registry, k, prefix) == registry
  {
    MakeCacheKeepsOthers(registry, k, prefix);
  }

  /** Erasing an entry and looking it up again replaces it by a fresh, unwritten descriptor. */
  lemma EraseThenMakeIsUpdate(registry: Registry, k: PageKind, prefix: string)
    ensures MakeCache(registry - {k}, k, prefix) == registry[k := Cache(false, prefix, Suffix(k))]
  {
    EraseThenMakeIsFresh(registry, k, prefix);
  }

  /** The per-row hessian buffer of a request, as a span: its start address and its length. */
  datatype Span = Span(data: nat, size: nat)

  /** Batch parameters of a histogram-index request. */
  datatype BatchParam = BatchParam(gpuId: int, maxBin: int, hess: Span, regen: bool)

  /** BatchParam{}: no device, no bin count, no hessian, no regeneration. */
  const DefaultParam: BatchParam := BatchParam(-1, 0, Span(0, 0), false)

  /**
   * BatchParam's operator!=: the device and the bin count are compared, and the hessian
   * buffer's address as well unless both buffers are empty; regen is not compared.
   */
  predicate ParamsDiffer(a: BatchParam, b: BatchParam) {
    if a.hess.size == 0 && b.hess.size == 0 then a.gpuId != b.gpuId || a.maxBin != b.maxBin
    else a.gpuId != b.gpuId || a.maxBin != b.maxBin || a.hess.data != b.hess.data
  }

  /** The concatenated single-page strategy serves requests without hessian and without regen. */
  predicate UsesSinglePage(p: BatchParam) {
    p.hess.size == 0 && !p.regen
  }

  /** Single-page path: rebuild when there is no page yet, or when the request differs from
      the stored parameters and is not the default "don't care" value. */
  predicate SinglePageNeedsRebuild(hasPage: bool, p: BatchParam, stored: BatchParam) {
    !hasPage || (ParamsDiffer(p, stored) && ParamsDiffer(p, DefaultParam))
  }

  /** Paged path: rebuild when the artifact is not written, when the request differs from the
      stored parameters and is not the default value, or when regeneration is requested. */
  predicate PagedNeedsRebuild(written: bool, p: BatchParam, stored: BatchParam) {
    !written || (ParamsDiffer(stored, p) && ParamsDiffer(p, DefaultParam)) || p.regen
  }

  /** ParamsDiffer is an inequality: irreflexive and symmetric. */
  lemma ParamsDifferIsInequality(a: BatchParam, b: BatchParam)
    ensures !ParamsDiffer(a, a)
    ensures ParamsDiffer(a, b) == ParamsDiffer(b, a)
  {
  }

  /**
   * A request that passes CHECK_GE(max_bin, 2) always differs from BatchParam{}, so on both
   * paths the "default means don't care" clause never holds back a rebuild.
   */
  lemma CheckedParamIsNeverDefault(p: BatchParam)
    requires p.maxBin >= 2
    ensures ParamsDiffer(p, DefaultParam)
  {
  }

  /** For a checked request, the single-page rebuild rule is "no page, or parameters changed". */
  lemma SinglePageRule(hasPage: bool, p: BatchParam, stored: BatchParam)
    requires p.maxBin >= 2
    ensures SinglePageNeedsRebuild(hasPage, p, stored) <==> !hasPage || ParamsDiffer(p, stored)
  {
  }

  /** For a checked request, the paged rebuild rule is "not written, parameters changed, or regen";
      repeating the stored request against a written artifact rebuilds only under regen. */
  lemma PagedRule(written: bool, p: BatchParam, stored: BatchParam)
    requires p.maxBin >= 2
    ensures PagedNeedsRebuild(written, p, stored) <==> !written || ParamsDiffer(p, stored) || p.regen
    ensures PagedNeedsRebuild(true, p, p) <==> p.regen
  {
  }

  /** A different bin count always forces a rebuild, on either path. */
  lemma NewMaxBinRebuilds(written: bool, hasPage: bool, p: BatchParam, stored: BatchParam)
    requires p.maxBin >= 2 && p.maxBin != stored.maxBin
    ensures SinglePageNeedsRebuild(hasPage, p, stored)
    ensures PagedNeedsRebuild(written, p, stored)
  {
  }
}
