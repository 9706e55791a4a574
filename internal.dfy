/** The engine-side types the bridge builds requests from and receives results in
    (`collection`, `shard`, `segment` and `storage` crates). They belong to the engine:
    only the shapes the bridge constructs or inspects are spelled out, everything else
    is an opaque carrier. */
module Internal {
  import opened Wrappers
  import Rest

  /** `ShardId = u32`. */
  newtype ShardId = x: int | 0 <= x < 0x1_0000_0000

  /** Which shards an operation addresses. `FromKey` is the external conversion
      `ShardSelectorInternal::from(ShardKeySelector)`, left symbolic. */
  datatype ShardSelectorInternal =
    | Empty
    | All
    | ShardId(shardId: ShardId)
    | FromKey(key: Rest.ShardKeySelector)

  // ---- stored vectors and points -------------------------------------------------

  datatype VectorPersisted =
    | Dense(dense: Rest.DenseVector)
    | Sparse(sparse: Rest.SparseVector)
    | MultiDense(multi: Rest.MultiDenseVector)

  datatype VectorStructPersisted =
    | Single(single: Rest.DenseVector)
    | MultiDense(multi: Rest.MultiDenseVector)
    | Named(named: map<string, VectorPersisted>)

  datatype PointStructPersisted = PointStructPersisted(id: Rest.PointId, vector: VectorStructPersisted, payload: Option<Rest.Payload>)

  datatype PointVectorsPersisted = PointVectorsPersisted(id: Rest.PointId, vector: VectorStructPersisted)

  datatype PointInsertOperationsInternal = PointsList(points: seq<PointStructPersisted>)

  // ---- update operations -----------------------------------------------------------

  datatype PointsSelector =
    | PointIdsSelector(points: seq<Rest.PointId>, shardKey: Option<Rest.ShardKeySelector>)
    | FilterSelector(filter: Rest.Filter, shardKey: Option<Rest.ShardKeySelector>)

  datatype PointOperations =
    | UpsertPoints(upsert: PointInsertOperationsInternal)
    | UpsertPointsConditional(upsert: PointInsertOperationsInternal, condition: Rest.Filter)
    | DeletePoints(ids: seq<Rest.PointId>)
    | DeletePointsByFilter(filter: Rest.Filter)

  /** The request to delete named vectors. The names arrive as a hash set, so only
      their set matters; the order in which they are later listed is unspecified. */
  datatype DeleteVectors = DeleteVectors(
    points: Option<seq<Rest.PointId>>,
    filter: Option<Rest.Filter>,
    vector: set<string>,
    shardKey: Option<Rest.ShardKeySelector>)

  datatype VectorOperations =
    | UpdateVectors(points: seq<PointVectorsPersisted>, updateFilter: Option<Rest.Filter>)
    | DeleteVectorsByIds(ids: seq<Rest.PointId>, names: set<string>)
    | DeleteVectorsByFilter(filter: Rest.Filter, names: set<string>)

  /** `SetPayload`, the request shared by set and overwrite. */
  datatype SetPayload = SetPayload(
    payload: Rest.Payload,
    points: Option<seq<Rest.PointId>>,
    filter: Option<Rest.Filter>,
    shardKey: Option<Rest.ShardKeySelector>,
    key: Option<Rest.JsonPath>)

  datatype SetPayloadOp = SetPayloadOp(
    payload: Rest.Payload,
    points: Option<seq<Rest.PointId>>,
    filter: Option<Rest.Filter>,
    key: Option<Rest.JsonPath>)

  datatype DeletePayload = DeletePayload(
    keys: seq<Rest.JsonPath>,
    points: Option<seq<Rest.PointId>>,
    filter: Option<Rest.Filter>,
    shardKey: Option<Rest.ShardKeySelector>)

  datatype DeletePayloadOp = DeletePayloadOp(
    keys: seq<Rest.JsonPath>,
    points: Option<seq<Rest.PointId>>,
    filter: Option<Rest.Filter>)

  datatype PayloadOps =
    | SetPayload(setOp: SetPayloadOp)
    | OverwritePayload(setOp: SetPayloadOp)
    | DeletePayload(deleteOp: DeletePayloadOp)
    | ClearPayload(points: seq<Rest.PointId>)
    | ClearPayloadByFilter(filter: Rest.Filter)

  datatype CollectionUpdateOperations =
    | PointOperation(pointOp: PointOperations)
    | VectorOperation(vectorOp: VectorOperations)
    | PayloadOperation(payloadOp: PayloadOps)

  /** The engine's acknowledgement of an update. */
  type UpdateResult(==)

  // ---- reads -------------------------------------------------------------------------

  type PointRequestInternal(==)
  datatype PointRequest = PointRequest(pointRequest: PointRequestInternal, shardKey: Option<Rest.ShardKeySelector>)

  datatype CountRequestInternal = CountRequestInternal(filter: Option<Rest.Filter>, exact: bool)
  datatype CountRequest = CountRequest(countRequest: CountRequestInternal, shardKey: Option<Rest.ShardKeySelector>)
  datatype CountResult = CountResult(count: nat)

  /** A stored vector as the engine returns it. */
  type VectorStructInternal(==)

  /** A point as `retrieve` returns it. */
  datatype Record = Record(id: Rest.PointId, payload: Option<Rest.Payload>, vector: Option<VectorStructInternal>)

  /** A point as the search family returns it. */
  datatype ScoredPoint = ScoredPoint(id: Rest.PointId, score: Rest.F32, payload: Option<Rest.Payload>, vector: Option<VectorStructInternal>)

  type SearchRequestInternal(==)
  datatype SearchRequest = SearchRequest(searchRequest: SearchRequestInternal, shardKey: Option<Rest.ShardKeySelector>)
  datatype SearchRequestBatch = SearchRequestBatch(searches: seq<SearchRequest>)

  /** `CoreSearchRequest::from(SearchRequestInternal)`, left symbolic. */
  datatype CoreSearchRequest = FromSearch(search: SearchRequestInternal)

  type SearchGroupsRequestInternal(==)
  datatype SearchGroupsRequest = SearchGroupsRequest(searchGroupRequest: SearchGroupsRequestInternal, shardKey: Option<Rest.ShardKeySelector>)

  type RecommendRequestInternal(==)
  datatype RecommendRequest = RecommendRequest(recommendRequest: RecommendRequestInternal, shardKey: Option<Rest.ShardKeySelector>)
  datatype RecommendRequestBatch = RecommendRequestBatch(searches: seq<RecommendRequest>)

  type RecommendGroupsRequestInternal(==)
  datatype RecommendGroupsRequest = RecommendGroupsRequest(recommendGroupRequest: RecommendGroupsRequestInternal, shardKey: Option<Rest.ShardKeySelector>)

  /** The group request handed to the engine, built by the external `into()` conversions. */
  datatype GroupRequest =
    | FromSearchGroups(searchGroups: SearchGroupsRequestInternal)
    | FromRecommendGroups(recommendGroups: RecommendGroupsRequestInternal)

  type PointGroup(==)
  datatype GroupsResult = GroupsResult(groups: seq<PointGroup>)

  // ---- universal query ---------------------------------------------------------------

  datatype VectorInternal =
    | Dense(dense: Rest.DenseVector)
    | Sparse(sparse: Rest.SparseVector)
    | MultiDense(multi: Rest.MultiDenseVector)

  datatype VectorInputInternal = Id(id: Rest.PointId) | Vector(vector: VectorInternal)

  datatype ContextPair = ContextPair(positive: VectorInputInternal, negative: VectorInputInternal)

  datatype Mmr = Mmr(diversity: Option<Rest.F32>, candidatesLimit: Option<nat>)

  datatype RecoQuery = RecoQuery(positives: seq<VectorInputInternal>, negatives: seq<VectorInputInternal>)
  datatype DiscoveryQuery = DiscoveryQuery(target: VectorInputInternal, pairs: seq<ContextPair>)
  datatype ContextQuery = ContextQuery(pairs: seq<ContextPair>)

  datatype VectorQuery =
    | Nearest(nearest: VectorInputInternal)
    | NearestWithMmr(nearest: VectorInputInternal, mmr: Mmr)
    | RecommendAverageVector(reco: RecoQuery)
    | RecommendBestScore(reco: RecoQuery)
    | RecommendSumScores(reco: RecoQuery)
    | Discover(discover: DiscoveryQuery)
    | Context(context: ContextQuery)

  /** The external conversions of the non-vector queries, left symbolic. */
  datatype OrderBy = FromOrderBy(orderBy: Rest.OrderByInterface)
  datatype FusionInternal = FromFusion(fusion: Rest.FusionSpec) | FromRrf(rrf: Rest.RrfSpec)
  datatype FormulaInternal = FromFormula(formula: Rest.FormulaQuery)
  datatype SampleInternal = FromSample(sample: Rest.SampleSpec)

  /** The engine's universal query (`collection_query::Query`). */
  datatype CollectionQuery =
    | Vector(vectorQuery: VectorQuery)
    | OrderBy(orderBy: OrderBy)
    | Fusion(fusion: FusionInternal)
    | Formula(formula: FormulaInternal)
    | Sample(sample: SampleInternal)

  datatype CollectionPrefetch = CollectionPrefetch(
    prefetch: seq<CollectionPrefetch>,
    query: Option<CollectionQuery>,
    using: string,
    filter: Option<Rest.Filter>,
    scoreThreshold: Option<Rest.F32>,
    limit: nat,
    params: Option<Rest.SearchParams>,
    lookupFrom: Option<Rest.LookupLocation>)

  datatype CollectionQueryRequest = CollectionQueryRequest(
    prefetch: seq<CollectionPrefetch>,
    query: Option<CollectionQuery>,
    using: string,
    filter: Option<Rest.Filter>,
    scoreThreshold: Option<Rest.F32>,
    limit: nat,
    offset: nat,
    params: Option<Rest.SearchParams>,
    withVector: Rest.WithVector,
    withPayload: Rest.WithPayload,
    lookupFrom: Option<Rest.LookupLocation>)

  /** Defaults of the engine crates: `CollectionQueryRequest::DEFAULT_LIMIT`, `DEFAULT_OFFSET`,
      `DEFAULT_WITH_VECTOR`, `DEFAULT_WITH_PAYLOAD` and `DEFAULT_VECTOR_NAME`. */
  const DefaultLimit: nat := 10
  const DefaultOffset: nat := 0
  const DefaultWithVector: Rest.WithVector := Rest.WithVectorFlag(false)
  const DefaultWithPayload: Rest.WithPayload := Rest.WithPayloadFlag(false)
  const DefaultVectorName: string := ""

  // ---- collections and aliases -------------------------------------------------------

  type VectorsConfig(==)
  /** The thirteen optional settings of `CreateCollection` other than `vectors`;
      `None` means every one of them is absent. */
  type CollectionTuning(==)
  datatype CreateCollection = CreateCollection(vectors: VectorsConfig, tuning: Option<CollectionTuning>)
  type UpdateCollection(==)

  /** A creation request that passed the engine's validation (`CreateCollectionOperation::new`). */
  type CreateCollectionOperation(==)

  datatype AliasOperations =
    | CreateAlias(collectionName: string, aliasName: string)
    | DeleteAlias(aliasName: string)
    | RenameAlias(oldAliasName: string, newAliasName: string)

  datatype ChangeAliasesOperation = ChangeAliasesOperation(actions: seq<AliasOperations>)

  datatype CollectionMetaOperations =
    | CreateCollection(create: CreateCollectionOperation)
    | UpdateCollection(updateName: string, update: UpdateCollection)
    | DeleteCollection(deleteName: string)
    | ChangeAliases(aliases: ChangeAliasesOperation)

  datatype AliasDescription = AliasDescription(aliasName: string, collectionName: string)
  datatype CollectionsAliasesResponse = CollectionsAliasesResponse(aliases: seq<AliasDescription>)

  /** The proof of access that `Access::check_collection_access` hands out. */
  type CollectionPass(==)
  /** A collection the engine looked up. */
  type CollectionHandle(==)
  type CollectionInfo(==)
}
