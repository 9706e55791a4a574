/** The vector-storage engine (`TableOfContent`) and the formatting helpers the bridge
    calls but does not define. Each engine entry point is an uninterpreted, total function
    returning the engine's result or its error; the bridge only routes to them. Every call
    is made with full access (`Access::full("Embedded")`), so access is not a parameter. */
module Engine {
  import opened Wrappers
  import opened Errors
  import Rest
  import opened Internal

  /** A handle on the engine. */
  datatype Toc = Toc(
    // collections and aliases
    allCollections: seq<CollectionPass>,
    passName: CollectionPass -> string,
    checkCollectionAccess: string -> Result<CollectionPass, StorageError>,
    getCollection: CollectionPass -> Result<CollectionHandle, StorageError>,
    collectionInfo: (CollectionHandle, ShardSelectorInternal) -> Result<CollectionInfo, CollectionError>,
    newCreateCollection: (string, CreateCollection) -> Result<CreateCollectionOperation, StorageError>,
    performCollectionMetaOp: CollectionMetaOperations -> Result<bool, StorageError>,
    listAliases: Result<seq<AliasDescription>, StorageError>,
    collectionAliases: CollectionPass -> Result<seq<string>, StorageError>,
    // points
    retrieve: (string, PointRequestInternal, ShardSelectorInternal) -> Result<seq<Record>, StorageError>,
    count: (string, CountRequestInternal, ShardSelectorInternal) -> Result<CountResult, StorageError>,
    update: (string, CollectionUpdateOperations, ShardSelectorInternal) -> Result<UpdateResult, StorageError>,
    // search and query
    coreSearchBatch: (string, seq<CoreSearchRequest>, ShardSelectorInternal) -> Result<seq<seq<ScoredPoint>>, StorageError>,
    searchBatch: (string, seq<(CoreSearchRequest, ShardSelectorInternal)>) -> Result<seq<seq<ScoredPoint>>, StorageError>,
    recommend: (string, RecommendRequestInternal, ShardSelectorInternal) -> Result<seq<ScoredPoint>, StorageError>,
    recommendBatch: (string, seq<(RecommendRequestInternal, ShardSelectorInternal)>) -> Result<seq<seq<ScoredPoint>>, StorageError>,
    group: (string, GroupRequest, ShardSelectorInternal) -> Result<GroupsResult, StorageError>,
    queryBatch: (string, seq<(CollectionQueryRequest, ShardSelectorInternal)>) -> Result<seq<seq<ScoredPoint>>, StorageError>,
    // `From<CollectionError> for StorageError`
    storageFromCollection: CollectionError -> StorageError)

  /** A `serde_json::Value`. */
  type Json(==)

  /** `format!("{:?}", id)` for point ids, and `serde_json::to_value(p).unwrap_or_default()`
      for payloads. */
  datatype Fmt = Fmt(debugId: Rest.PointId -> string, payloadJson: Rest.Payload -> Json)
}
