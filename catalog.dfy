/**
 * Catalog (memoization service) values and the no-op catalog client
 * (pkg/controller/nodes/task/catalog/noop_catalog.go), which stands in when caching is off.
 */
module Catalog {
  import opened Wrappers
  import opened Core
  import opened PluginIo

  /** core.CatalogCacheStatus. */
  datatype CatalogCacheStatus =
    | CacheDisabled | CacheMiss | CacheHit | CachePopulated | CacheLookupFailure | CachePutFailure

  /** core.CatalogMetadata, reduced to the dataset it names. */
  datatype CatalogMetadata = CatalogMetadata(datasetId: Identifier)

  /** catalog.Status. */
  datatype Status = Status(cacheStatus: CatalogCacheStatus, metadata: Option<CatalogMetadata>)

  /** catalog.Entry: the cached outputs, if any, and the status of the lookup. */
  datatype Entry = Entry(outputs: Option<OutputReader>, status: Status)

  /** catalog.Key: what a cached result is looked up by. */
  datatype Key = Key(identifier: Identifier, cacheVersion: string, typedInterface: TypedInterface,
                     inputReader: InputReader)

  /** catalog.Metadata: the executions a cached artifact is attributed to. */
  datatype Metadata = Metadata(workflowExecution: Option<WorkflowExecutionIdentifier>,
                               nodeExecution: Option<NodeExecutionIdentifier>)

  /** disabledStatus, built once: CACHE_DISABLED with no metadata. */
  const DisabledStatus := Status(CacheDisabled, None)

  /** NOOPCatalog: a catalog client that never caches. */
  datatype NoopCatalog = NoopCatalog {

    /** Get: never fails; no outputs, status CACHE_DISABLED. */
    function Get(key: Key): (r: Result<Entry, Error>)
      ensures r.Ok?
      ensures r.value.outputs.None?
      ensures r.value.status.cacheStatus == CacheDisabled && r.value.status.metadata.None?
    {
      Ok(Entry(None, DisabledStatus))
    }

    /** Put: never fails, stores nothing and reports CACHE_DISABLED. */
    function Put(key: Key, reader: OutputReader, metadata: Metadata): (r: Result<Status, Error>)
      ensures r.Ok?
      ensures r.value.cacheStatus == CacheDisabled && r.value.metadata.None?
    {
      Ok(DisabledStatus)
    }
  }

  /** The no-op catalog's answers do not depend on its arguments. */
  lemma NoopIgnoresArguments(c: NoopCatalog, k1: Key, k2: Key, r1: OutputReader, r2: OutputReader,
                             m1: Metadata, m2: Metadata)
    ensures c.Get(k1) == c.Get(k2)
    ensures c.Put(k1, r1, m1) == c.Put(k2, r2, m2)
  {
  }

  /** The status Put reports is the status Get reports: a no-op catalog is disabled, never a miss. */
  lemma NoopNeverMisses(c: NoopCatalog, k: Key, r: OutputReader, m: Metadata)
    ensures c.Get(k).value.status == c.Put(k, r, m).value
    ensures c.Get(k).value.status.cacheStatus != CacheMiss
  {
  }
}
