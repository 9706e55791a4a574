/** The REST schema types (`api::rest::schema`) the bridge receives from its caller.
    They belong to an external crate: only their shapes matter here. Floats, payloads,
    filters and the inference inputs are opaque carriers that the bridge never computes with. */
module Rest {
  import opened Wrappers

  /** An `f32`: carried, compared for identity, never computed with. */
  type F32(==)
  /** An extended point id (number or UUID). */
  type PointId(==)
  /** A JSON object payload. */
  type Payload(==)
  /** A JSON path naming a payload key. */
  type JsonPath(==)
  type Filter(==)
  type ShardKeySelector(==)
  type SparseVector(==)
  type SearchParams(==)
  type LookupLocation(==)
  /** Inputs that an inference service would turn into vectors. */
  type DocumentInput(==)
  type ImageInput(==)
  type ObjectInput(==)
  /** The non-vector universal queries, handed to external conversions. */
  type OrderByInterface(==)
  type FusionSpec(==)
  type RrfSpec(==)
  type FormulaQuery(==)
  type SampleSpec(==)

  type DenseVector = seq<F32>
  type MultiDenseVector = seq<seq<F32>>

  /** One vector of a named vector map (`rest::Vector`). */
  datatype Vector =
    | Dense(dense: DenseVector)
    | Sparse(sparse: SparseVector)
    | MultiDense(multi: MultiDenseVector)
    | Document(document: DocumentInput)
    | Image(image: ImageInput)
    | Object(object: ObjectInput)

  /** The vector part of one point (`rest::VectorStruct`). */
  datatype VectorStruct =
    | Single(single: DenseVector)
    | MultiDense(multi: MultiDenseVector)
    | Named(named: map<string, Vector>)
    | Document(document: DocumentInput)
    | Image(image: ImageInput)
    | Object(object: ObjectInput)

  datatype PointStruct = PointStruct(id: PointId, vector: VectorStruct, payload: Option<Payload>)

  datatype PointVectors = PointVectors(id: PointId, vector: VectorStruct)

  /** Column-wise vectors of a batch: entry `i` belongs to the `i`-th id. */
  datatype BatchVectorStruct =
    | Single(singles: seq<DenseVector>)
    | MultiDense(multis: seq<MultiDenseVector>)
    | Named(namedColumns: map<string, seq<Vector>>)
    | Document(documents: seq<DocumentInput>)
    | Image(images: seq<ImageInput>)
    | Object(objects: seq<ObjectInput>)

  datatype Batch = Batch(ids: seq<PointId>, vectors: BatchVectorStruct, payloads: Option<seq<Option<Payload>>>)

  datatype PointInsertOperations =
    | PointsList(points: seq<PointStruct>, shardKey: Option<ShardKeySelector>, updateFilter: Option<Filter>)
    | PointsBatch(batch: Batch, shardKey: Option<ShardKeySelector>, updateFilter: Option<Filter>)

  datatype UpdateVectors = UpdateVectors(points: seq<PointVectors>, shardKey: Option<ShardKeySelector>, updateFilter: Option<Filter>)

  /** Which stored vectors a query result carries. */
  datatype WithVector = WithVectorFlag(enabled: bool) | WithVectorNames(names: seq<string>)

  /** Which payload fields a query result carries. */
  datatype WithPayload = WithPayloadFlag(enabled: bool) | WithPayloadFields(fields: seq<string>)

  /** A query vector given by value or by the id of a stored point (`rest::VectorInput`). */
  datatype VectorInput =
    | Id(id: PointId)
    | DenseVector(dense: DenseVector)
    | SparseVector(sparse: SparseVector)
    | MultiDenseVector(multi: MultiDenseVector)
    | Document(document: DocumentInput)
    | Image(image: ImageInput)
    | Object(object: ObjectInput)

  datatype ContextPair = ContextPair(positive: VectorInput, negative: VectorInput)

  datatype Mmr = Mmr(diversity: Option<F32>, candidatesLimit: Option<nat>)

  datatype RecommendStrategy = AverageVector | BestScore | SumScores

  /** `RecommendStrategy::default()` of the schema crate. */
  const DefaultRecommendStrategy: RecommendStrategy := AverageVector

  /** The universal query (`rest::Query`). */
  datatype Query =
    | Nearest(nearest: VectorInput, mmr: Option<Mmr>)
    | Recommend(positive: Option<seq<VectorInput>>, negative: Option<seq<VectorInput>>, strategy: Option<RecommendStrategy>)
    | Discover(target: VectorInput, discoverContext: Option<seq<ContextPair>>)
    | Context(context: Option<seq<ContextPair>>)
    | OrderBy(orderBy: OrderByInterface)
    | Fusion(fusion: FusionSpec)
    | Rrf(rrf: RrfSpec)
    | Formula(formula: FormulaQuery)
    | Sample(sample: SampleSpec)

  /** The optional list of prefetch stages (`Option<Vec<Prefetch>>`), spelled out as its
      own datatype so that the nesting of stages is visibly well founded. */
  datatype Prefetches = NoPrefetch | SomePrefetch(stages: seq<Prefetch>)

  /** A prefetch stage of a universal query; stages nest. */
  datatype Prefetch = Prefetch(
    prefetch: Prefetches,
    query: Option<Query>,
    using: Option<string>,
    filter: Option<Filter>,
    scoreThreshold: Option<F32>,
    params: Option<SearchParams>,
    limit: Option<nat>,
    lookupFrom: Option<LookupLocation>)

  datatype QueryRequestInternal = QueryRequestInternal(
    prefetch: Prefetches,
    query: Option<Query>,
    using: Option<string>,
    filter: Option<Filter>,
    scoreThreshold: Option<F32>,
    params: Option<SearchParams>,
    limit: Option<nat>,
    offset: Option<nat>,
    withVector: Option<WithVector>,
    withPayload: Option<WithPayload>,
    lookupFrom: Option<LookupLocation>)

  datatype QueryRequest = QueryRequest(internal: QueryRequestInternal, shardKey: Option<ShardKeySelector>)
}
