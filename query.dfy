/** Search, recommend and universal-query requests, the REST-to-engine query conversions,
    and their handler (`ops/query.rs`). */
module Queries {
  import opened Wrappers
  import opened Errors
  import Rest
  import opened Internal
  import opened Engine
  import opened Ops

  datatype QueryRequest =
    | Search(col: ColName, search: SearchRequest)
    | SearchBatch(col: ColName, searchBatch: SearchRequestBatch)
    | SearchGroup(col: ColName, searchGroups: SearchGroupsRequest)
    | Recommend(col: ColName, recommend: RecommendRequest)
    | RecommendBatch(col: ColName, recommendBatch: RecommendRequestBatch)
    | RecommendGroup(col: ColName, recommendGroups: RecommendGroupsRequest)
    | Query(col: ColName, query: Rest.QueryRequest)

  /** A scored point as the bridge hands it back: rendered id, score, JSON payload, no vector. */
  datatype LocalScoredPoint = LocalScoredPoint(id: string, score: Rest.F32, payload: Option<Json>, vector: Option<Rest.DenseVector>)

  datatype QueryResponse =
    | Search(points: seq<LocalScoredPoint>)
    | SearchBatch(batches: seq<seq<LocalScoredPoint>>)
    | SearchGroup(groups: GroupsResult)
    | Recommend(points: seq<LocalScoredPoint>)
    | RecommendBatch(batches: seq<seq<LocalScoredPoint>>)
    | RecommendGroup(groups: GroupsResult)
    | Query(points: seq<LocalScoredPoint>)

  /** The same-named response variant answers each request. */
  predicate QueryAnswers(req: QueryRequest, resp: QueryResponse) {
    match req
    case Search(_, _) => resp.Search?
    case SearchBatch(_, _) => resp.SearchBatch?
    case SearchGroup(_, _) => resp.SearchGroup?
    case Recommend(_, _) => resp.Recommend?
    case RecommendBatch(_, _) => resp.RecommendBatch?
    case RecommendGroup(_, _) => resp.RecommendGroup?
    case Query(_, _) => resp.Query?
  }

  const QueryInferenceMessage: string := "Inference (Document/Image/Object) not supported in embedded mode"
  const EmptySearchMessage: string := "Empty search result"

  /** `LocalScoredPoint::from`: the id rendered, the score kept, the payload as JSON, the
      vector dropped. */
  function FromScored(p: ScoredPoint, fmt: Fmt): (l: LocalScoredPoint)
    ensures l.id == fmt.debugId(p.id) && l.score == p.score && l.vector.None?
    ensures l.payload.Some? <==> p.payload.Some?
    ensures p.payload.Some? ==> l.payload.value == fmt.payloadJson(p.payload.value)
  {
    LocalScoredPoint(fmt.debugId(p.id), p.score, if p.payload.Some? then Some(fmt.payloadJson(p.payload.value)) else None, None)
  }

  /** `into_iter().map(Into::into).collect()` over one result list. */
  function ToLocal(points: seq<ScoredPoint>, fmt: Fmt): (ls: seq<LocalScoredPoint>)
    ensures |ls| == |points| && forall k :: 0 <= k < |points| ==> ls[k] == FromScored(points[k], fmt)
  {
    seq(|points|, k requires 0 <= k < |points| => FromScored(points[k], fmt))
  }

  /** The same, over a list of result lists. */
  function ToLocalBatches(batches: seq<seq<ScoredPoint>>, fmt: Fmt): (ls: seq<seq<LocalScoredPoint>>)
    ensures |ls| == |batches| && forall k :: 0 <= k < |batches| ==> ls[k] == ToLocal(batches[k], fmt)
  {
    seq(|batches|, k requires 0 <= k < |batches| => ToLocal(batches[k], fmt))
  }

  // ---- vector inputs -------------------------------------------------------------------

  predicate InputNeedsInference(v: Rest.VectorInput) {
    v.Document? || v.Image? || v.Object?
  }

  /** The REST input an engine vector input stands for. */
  function RestVectorInput(v: VectorInputInternal): Rest.VectorInput {
    match v
    case Id(id) => Rest.VectorInput.Id(id)
    case Vector(Dense(d)) => Rest.DenseVector(d)
    case Vector(Sparse(s)) => Rest.SparseVector(s)
    case Vector(MultiDense(m)) => Rest.MultiDenseVector(m)
  }

  /** `convert_vector_input`: ids and numeric vectors map one-to-one, the inference kinds are
      refused with `bad_request`. */
  function ConvertVectorInput(v: Rest.VectorInput): (r: Result<VectorInputInternal, StorageError>)
    ensures r.Err? <==> InputNeedsInference(v)
    ensures r.Err? ==> r.error == BadRequest(QueryInferenceMessage)
    ensures r.Ok? ==> RestVectorInput(r.value) == v
  {
    match v
    case Id(id) => Ok(VectorInputInternal.Id(id))
    case DenseVector(d) => Ok(VectorInputInternal.Vector(VectorInternal.Dense(d)))
    case SparseVector(s) => Ok(VectorInputInternal.Vector(VectorInternal.Sparse(s)))
    case MultiDenseVector(m) => Ok(VectorInputInternal.Vector(VectorInternal.MultiDense(m)))
    case _ => Err(BadRequest(QueryInferenceMessage))
  }

  predicate PairConvertible(p: Rest.ContextPair) {
    !InputNeedsInference(p.positive) && !InputNeedsInference(p.negative)
  }

  /** `context_pair_from_rest`: both sides converted, positive first; either side failing
      fails the pair. */
  function ContextPairFromRest(p: Rest.ContextPair): (r: Result<Internal.ContextPair, StorageError>)
    ensures r.Ok? <==> PairConvertible(p)
    ensures r.Err? ==> r.error == BadRequest(QueryInferenceMessage)
    ensures r.Ok? ==> RestVectorInput(r.value.positive) == p.positive && RestVectorInput(r.value.negative) == p.negative
  {
    match ConvertVectorInput(p.positive)
    case Err(e) => Err(e)
    case Ok(positive) =>
      match ConvertVectorInput(p.negative)
      case Err(e) => Err(e)
      case Ok(negative) => Ok(Internal.ContextPair(positive, negative))
  }

  /** `xs` is `ys` converted input by input. */
  predicate InputsConverted(xs: seq<VectorInputInternal>, ys: seq<Rest.VectorInput>) {
    |xs| == |ys| && forall k :: 0 <= k < |xs| ==> RestVectorInput(xs[k]) == ys[k]
  }

  /** `xs` is `ys` converted pair by pair. */
  predicate PairsConverted(xs: seq<Internal.ContextPair>, ys: seq<Rest.ContextPair>) {
    |xs| == |ys| &&
    forall k :: 0 <= k < |xs| ==>
      RestVectorInput(xs[k].positive) == ys[k].positive && RestVectorInput(xs[k].negative) == ys[k].negative
  }

  /** An absent list is the empty list (`into_iter().flatten()`). */
  function OrEmpty<T>(xs: Option<seq<T>>): seq<T> {
    if xs.Some? then xs.value else []
  }

  /** An absent stage list is the empty list (`unwrap_or_default()`). */
  function Stages(ps: Rest.Prefetches): seq<Rest.Prefetch> {
    if ps.SomePrefetch? then ps.stages else []
  }

  function ConvertInputs(xs: seq<Rest.VectorInput>): (r: Result<seq<VectorInputInternal>, StorageError>)
    ensures r.Ok? <==> forall k :: 0 <= k < |xs| ==> !InputNeedsInference(xs[k])
    ensures r.Ok? ==> InputsConverted(r.value, xs)
    ensures r.Err? ==> r.error == BadRequest(QueryInferenceMessage)
  {
    Collect(xs, ConvertVectorInput)
  }

  function ConvertPairs(xs: seq<Rest.ContextPair>): (r: Result<seq<Internal.ContextPair>, StorageError>)
    ensures r.Ok? <==> forall k :: 0 <= k < |xs| ==> PairConvertible(xs[k])
    ensures r.Ok? ==> PairsConverted(r.value, xs)
    ensures r.Err? ==> r.error == BadRequest(QueryInferenceMessage)
  {
    Collect(xs, ContextPairFromRest)
  }

  // ---- queries ---------------------------------------------------------------------------

  /** A query converts unless one of its vector inputs needs inference. */
  predicate QueryConvertible(q: Rest.Query) {
    match q
    case Nearest(nearest, _) => !InputNeedsInference(nearest)
    case Recommend(positive, negative, _) =>
      (forall k :: 0 <= k < |OrEmpty(positive)| ==> !InputNeedsInference(OrEmpty(positive)[k])) &&
      (forall k :: 0 <= k < |OrEmpty(negative)| ==> !InputNeedsInference(OrEmpty(negative)[k]))
    case Discover(target, context) =>
      !InputNeedsInference(target) && forall k :: 0 <= k < |OrEmpty(context)| ==> PairConvertible(OrEmpty(context)[k])
    case Context(context) =>
      forall k :: 0 <= k < |OrEmpty(context)| ==> PairConvertible(OrEmpty(context)[k])
    case _ => true
  }

  /** The recommend strategy a vector query runs, if it is a recommendation. */
  function StrategyOf(q: VectorQuery): Option<Rest.RecommendStrategy> {
    match q
    case RecommendAverageVector(_) => Some(Rest.AverageVector)
    case RecommendBestScore(_) => Some(Rest.BestScore)
    case RecommendSumScores(_) => Some(Rest.SumScores)
    case _ => None
  }

  /** `convert_query`. Nearest keeps its vector and becomes `NearestWithMmr`, copying both mmr
      settings, exactly when mmr is given; Recommend reads absent lists as empty and picks
      its variant by the strategy, defaulted when absent; Discover and Context convert target
      and pairs; the other queries go through their external conversions unchanged. */
  function ConvertQuery(q: Rest.Query): (r: Result<CollectionQuery, StorageError>)
    ensures r.Ok? <==> QueryConvertible(q)
    ensures r.Err? ==> r.error == BadRequest(QueryInferenceMessage)
    ensures q.Nearest? && r.Ok? ==>
      r.value.Vector? && (r.value.vectorQuery.Nearest? || r.value.vectorQuery.NearestWithMmr?) &&
      RestVectorInput(r.value.vectorQuery.nearest) == q.nearest &&
      (r.value.vectorQuery.NearestWithMmr? <==> q.mmr.Some?) &&
      (q.mmr.Some? ==> r.value.vectorQuery.mmr == Internal.Mmr(q.mmr.value.diversity, q.mmr.value.candidatesLimit))
    ensures q.Recommend? && r.Ok? ==>
      r.value.Vector? && StrategyOf(r.value.vectorQuery) == Some(q.strategy.GetOr(Rest.DefaultRecommendStrategy)) &&
      InputsConverted(r.value.vectorQuery.reco.positives, OrEmpty(q.positive)) &&
      InputsConverted(r.value.vectorQuery.reco.negatives, OrEmpty(q.negative))
    ensures q.Discover? && r.Ok? ==>
      r.value.Vector? && r.value.vectorQuery.Discover? &&
      RestVectorInput(r.value.vectorQuery.discover.target) == q.target &&
      PairsConverted(r.value.vectorQuery.discover.pairs, OrEmpty(q.discoverContext))
    ensures q.Context? && r.Ok? ==>
      r.value.Vector? && r.value.vectorQuery.Context? && PairsConverted(r.value.vectorQuery.context.pairs, OrEmpty(q.context))
    ensures q.OrderBy? ==> r == Ok(CollectionQuery.OrderBy(FromOrderBy(q.orderBy)))
    ensures q.Fusion? ==> r == Ok(CollectionQuery.Fusion(FromFusion(q.fusion)))
    ensures q.Rrf? ==> r == Ok(CollectionQuery.Fusion(FromRrf(q.rrf)))
    ensures q.Formula? ==> r == Ok(CollectionQuery.Formula(FromFormula(q.formula)))
    ensures q.Sample? ==> r == Ok(CollectionQuery.Sample(FromSample(q.sample)))
  {
    match q
    case Nearest(nearest, mmr) =>
      (match ConvertVectorInput(nearest)
       case Err(e) => Err(e)
       case Ok(vector) =>
         if mmr.Some? then
           Ok(CollectionQuery.Vector(NearestWithMmr(vector, Internal.Mmr(mmr.value.diversity, mmr.value.candidatesLimit))))
         else
           Ok(CollectionQuery.Vector(VectorQuery.Nearest(vector))))
    case Recommend(positive, negative, strategy) =>
      (match ConvertInputs(OrEmpty(positive))
       case Err(e) => Err(e)
       case Ok(positives) =>
         match ConvertInputs(OrEmpty(negative))
         case Err(e) => Err(e)
         case Ok(negatives) =>
           var reco := RecoQuery(positives, negatives);
           match strategy.GetOr(Rest.DefaultRecommendStrategy)
           case AverageVector => Ok(CollectionQuery.Vector(RecommendAverageVector(reco)))
           case BestScore => Ok(CollectionQuery.Vector(RecommendBestScore(reco)))
           case SumScores => Ok(CollectionQuery.Vector(RecommendSumScores(reco))))
    case Discover(target, context) =>
      (match ConvertVectorInput(target)
       case Err(e) => Err(e)
       case Ok(t) =>
         match ConvertPairs(OrEmpty(context))
         case Err(e) => Err(e)
         case Ok(pairs) => Ok(CollectionQuery.Vector(VectorQuery.Discover(DiscoveryQuery(t, pairs)))))
    case Context(context) =>
      (match ConvertPairs(OrEmpty(context))
       case Err(e) => Err(e)
       case Ok(pairs) => Ok(CollectionQuery.Vector(VectorQuery.Context(ContextQuery(pairs)))))
    case OrderBy(orderBy) => Ok(CollectionQuery.OrderBy(FromOrderBy(orderBy)))
    case Fusion(fusion) => Ok(CollectionQuery.Fusion(FromFusion(fusion)))
    case Rrf(rrf) => Ok(CollectionQuery.Fusion(FromRrf(rrf)))
    case Formula(formula) => Ok(CollectionQuery.Formula(FromFormula(formula)))
    case Sample(sample) => Ok(CollectionQuery.Sample(FromSample(sample)))
  }

  /** `query.map(convert_query).transpose()`. */
  function ConvertQueryOption(q: Option<Rest.Query>): (r: Result<Option<CollectionQuery>, StorageError>)
    ensures r.Ok? <==> (q.Some? ==> QueryConvertible(q.value))
    ensures r.Err? ==> r.error == BadRequest(QueryInferenceMessage)
    ensures r.Ok? ==> (r.value.Some? <==> q.Some?) && (q.Some? ==> r.value.value == ConvertQuery(q.value).value)
  {
    match q
    case None => Ok(None)
    case Some(query) =>
      match ConvertQuery(query)
      case Err(e) => Err(e)
      case Ok(c) => Ok(Some(c))
  }

  // ---- prefetches ------------------------------------------------------------------------

  /** A prefetch converts unless its query or a nested prefetch, at any depth, does not. */
  predicate PrefetchConvertible(p: Rest.Prefetch)
    decreases p
  {
    (p.query.Some? ==> QueryConvertible(p.query.value)) &&
    match p.prefetch
    case NoPrefetch => true
    case SomePrefetch(nested) => forall k :: 0 <= k < |nested| ==> PrefetchConvertible(nested[k])
  }

  /** `c` is `p` converted: at this and every nested depth `using` and `limit` take their
      defaults when absent, the query is converted, the nesting is kept stage by stage and
      every other field is passed through. */
  predicate PrefetchConverted(c: CollectionPrefetch, p: Rest.Prefetch)
    decreases c
  {
    c.using == p.using.GetOr(DefaultVectorName) && c.limit == p.limit.GetOr(DefaultLimit) &&
    c.filter == p.filter && c.scoreThreshold == p.scoreThreshold && c.params == p.params && c.lookupFrom == p.lookupFrom &&
    (c.query.Some? <==> p.query.Some?) &&
    (p.query.Some? && c.query.Some? ==> ConvertQuery(p.query.value) == Ok(c.query.value)) &&
    |c.prefetch| == |Stages(p.prefetch)| &&
    forall k :: 0 <= k < |c.prefetch| ==> PrefetchConverted(c.prefetch[k], Stages(p.prefetch)[k])
  }

  /** `convert_prefetch`: the stage's query is converted before its nested stages. */
  function ConvertPrefetch(p: Rest.Prefetch): (r: Result<CollectionPrefetch, StorageError>)
    ensures r.Ok? <==> PrefetchConvertible(p)
    ensures r.Err? ==> r.error == BadRequest(QueryInferenceMessage)
    ensures r.Ok? ==> PrefetchConverted(r.value, p)
    decreases p, 1
  {
    match ConvertQueryOption(p.query)
    case Err(e) => Err(e)
    case Ok(query) =>
      var stages := match p.prefetch case NoPrefetch => Ok([]) case SomePrefetch(nested) => ConvertPrefetches(nested);
      match stages
      case Err(e) => Err(e)
      case Ok(nested) =>
        Ok(CollectionPrefetch(nested, query, p.using.GetOr(DefaultVectorName), p.filter, p.scoreThreshold,
                              p.limit.GetOr(DefaultLimit), p.params, p.lookupFrom))
  }

  /** `map(convert_prefetch).collect::<Result<Vec<_>, _>>()`: in order, the first failure wins. */
  function ConvertPrefetches(ps: seq<Rest.Prefetch>): (r: Result<seq<CollectionPrefetch>, StorageError>)
    ensures r.Ok? <==> forall k :: 0 <= k < |ps| ==> PrefetchConvertible(ps[k])
    ensures r.Err? ==> r.error == BadRequest(QueryInferenceMessage)
    ensures r.Ok? ==> |r.value| == |ps| && forall k :: 0 <= k < |ps| ==> PrefetchConverted(r.value[k], ps[k])
    decreases ps, 0
  {
    if ps == [] then Ok([])
    else
      match ConvertPrefetch(ps[0])
      case Err(e) => Err(e)
      case Ok(first) =>
        match ConvertPrefetches(ps[1..])
        case Err(e) => Err(e)
        case Ok(rest) => Ok([first] + rest)
  }

  /** `convert_query_request_from_rest`: prefetches first, then the query; `using`, `limit`,
      `offset`, `with_vector` and `with_payload` take the engine's defaults when absent, an
      absent prefetch list is empty, every other field is passed through. */
  function ConvertQueryRequest(req: Rest.QueryRequestInternal): (r: Result<CollectionQueryRequest, StorageError>)
    ensures r.Ok? <==>
      (forall k :: 0 <= k < |Stages(req.prefetch)| ==> PrefetchConvertible(Stages(req.prefetch)[k])) &&
      (req.query.Some? ==> QueryConvertible(req.query.value))
    ensures r.Err? ==> r.error == BadRequest(QueryInferenceMessage)
    ensures r.Ok? ==>
      var c := r.value;
      c.using == req.using.GetOr(DefaultVectorName) && c.limit == req.limit.GetOr(DefaultLimit) &&
      c.offset == req.offset.GetOr(DefaultOffset) && c.withVector == req.withVector.GetOr(DefaultWithVector) &&
      c.withPayload == req.withPayload.GetOr(DefaultWithPayload) &&
      c.filter == req.filter && c.scoreThreshold == req.scoreThreshold && c.params == req.params && c.lookupFrom == req.lookupFrom &&
      (c.query.Some? <==> req.query.Some?) &&
      (req.query.Some? && c.query.Some? ==> ConvertQuery(req.query.value) == Ok(c.query.value)) &&
      |c.prefetch| == |Stages(req.prefetch)| &&
      forall k :: 0 <= k < |c.prefetch| ==> PrefetchConverted(c.prefetch[k], Stages(req.prefetch)[k])
  {
    match ConvertPrefetches(Stages(req.prefetch))
    case Err(e) => Err(e)
    case Ok(prefetch) =>
      match ConvertQueryOption(req.query)
      case Err(e) => Err(e)
      case Ok(query) =>
        Ok(CollectionQueryRequest(prefetch, query, req.using.GetOr(DefaultVectorName), req.filter, req.scoreThreshold,
                                  req.limit.GetOr(DefaultLimit), req.offset.GetOr(DefaultOffset), req.params,
                                  req.withVector.GetOr(DefaultWithVector), req.withPayload.GetOr(DefaultWithPayload),
                                  req.lookupFrom))
  }

  // ---- engine calls ------------------------------------------------------------------------

  /** `do_core_search_points`: a one-element batch is sent and its first result list
      returned; an engine error passes unchanged and an empty answer is a service error. */
  function DoCoreSearchPoints(toc: Toc, col: string, request: CoreSearchRequest, shard: ShardSelectorInternal)
    : (r: Result<seq<ScoredPoint>, StorageError>)
    ensures var batch := toc.coreSearchBatch(col, [request], shard);
      (batch.Err? ==> r == Err(batch.error)) &&
      (batch.Ok? && |batch.value| > 0 ==> r == Ok(batch.value[0])) &&
      (batch.Ok? && |batch.value| == 0 ==> r == Err(ServiceError(EmptySearchMessage)))
  {
    match toc.coreSearchBatch(col, [request], shard)
    case Err(e) => Err(e)
    case Ok(batch) => if |batch| > 0 then Ok(batch[0]) else Err(ServiceError(EmptySearchMessage))
  }

  /** The search batch handed to the engine: one entry per search, in order, each with its own
      shard selection. */
  function SearchBatchRequests(b: SearchRequestBatch): (rs: seq<(CoreSearchRequest, ShardSelectorInternal)>)
    ensures |rs| == |b.searches|
    ensures forall k :: 0 <= k < |rs| ==>
      rs[k].0.search == b.searches[k].searchRequest && rs[k].1 == ShardSelector(b.searches[k].shardKey) &&
      (b.searches[k].shardKey.None? <==> rs[k].1.All?) && SelectedKey(rs[k].1) == b.searches[k].shardKey
  {
    seq(|b.searches|, k requires 0 <= k < |b.searches| =>
      (FromSearch(b.searches[k].searchRequest), ShardSelector(b.searches[k].shardKey)))
  }

  /** The recommend batch handed to the engine by `do_recommend_batch_points`, likewise. */
  function RecommendBatchRequests(b: RecommendRequestBatch): (rs: seq<(RecommendRequestInternal, ShardSelectorInternal)>)
    ensures |rs| == |b.searches|
    ensures forall k :: 0 <= k < |rs| ==>
      rs[k].0 == b.searches[k].recommendRequest && rs[k].1 == ShardSelector(b.searches[k].shardKey) &&
      (b.searches[k].shardKey.None? <==> rs[k].1.All?) && SelectedKey(rs[k].1) == b.searches[k].shardKey
  {
    seq(|b.searches|, k requires 0 <= k < |b.searches| =>
      (b.searches[k].recommendRequest, ShardSelector(b.searches[k].shardKey)))
  }

  /** The points of a universal query: the first result list, or none. */
  function FirstOrEmpty(results: seq<seq<ScoredPoint>>): seq<ScoredPoint> {
    if |results| > 0 then results[0] else []
  }

  // ---- handler -----------------------------------------------------------------------------

  /** `Handler for QueryRequest`: each request is answered by its same-named response
      variant, the engine's error passes unchanged, and every scored point is converted by
      `FromScored`, keeping count and order. */
  function HandleQuery(req: QueryRequest, toc: Toc, fmt: Fmt): (r: Result<QueryResponse, StorageError>)
    ensures r.Ok? ==> QueryAnswers(req, r.value)
    ensures req.Search? ==>
      var got := DoCoreSearchPoints(toc, req.col, FromSearch(req.search.searchRequest), ShardSelector(req.search.shardKey));
      (got.Err? ==> r == Err(got.error)) && (got.Ok? ==> r == Ok(QueryResponse.Search(ToLocal(got.value, fmt))))
    ensures req.SearchBatch? ==>
      var got := toc.searchBatch(req.col, SearchBatchRequests(req.searchBatch));
      (got.Err? ==> r == Err(got.error)) && (got.Ok? ==> r == Ok(QueryResponse.SearchBatch(ToLocalBatches(got.value, fmt))))
    ensures req.SearchGroup? ==>
      var got := toc.group(req.col, FromSearchGroups(req.searchGroups.searchGroupRequest), ShardSelector(req.searchGroups.shardKey));
      (got.Err? ==> r == Err(got.error)) && (got.Ok? ==> r == Ok(QueryResponse.SearchGroup(got.value)))
    ensures req.Recommend? ==>
      var got := toc.recommend(req.col, req.recommend.recommendRequest, ShardSelector(req.recommend.shardKey));
      (got.Err? ==> r == Err(got.error)) && (got.Ok? ==> r == Ok(QueryResponse.Recommend(ToLocal(got.value, fmt))))
    ensures req.RecommendBatch? ==>
      var got := toc.recommendBatch(req.col, RecommendBatchRequests(req.recommendBatch));
      (got.Err? ==> r == Err(got.error)) && (got.Ok? ==> r == Ok(QueryResponse.RecommendBatch(ToLocalBatches(got.value, fmt))))
    ensures req.RecommendGroup? ==>
      var got := toc.group(req.col, FromRecommendGroups(req.recommendGroups.recommendGroupRequest), ShardSelector(req.recommendGroups.shardKey));
      (got.Err? ==> r == Err(got.error)) && (got.Ok? ==> r == Ok(QueryResponse.RecommendGroup(got.value)))
    ensures req.Query? && ConvertQueryRequest(req.query.internal).Err? ==>
      r == Err(ConvertQueryRequest(req.query.internal).error)
    ensures req.Query? && ConvertQueryRequest(req.query.internal).Ok? ==>
      var got := toc.queryBatch(req.col, [(ConvertQueryRequest(req.query.internal).value, ShardSelector(req.query.shardKey))]);
      (got.Err? ==> r == Err(got.error)) && (got.Ok? ==> r == Ok(QueryResponse.Query(ToLocal(FirstOrEmpty(got.value), fmt))))
  {
    match req
    case Search(col, search) =>
      (match DoCoreSearchPoints(toc, col, FromSearch(search.searchRequest), ShardSelector(search.shardKey))
       case Err(e) => Err(e)
       case Ok(ps) => Ok(QueryResponse.Search(ToLocal(ps, fmt))))
    case SearchBatch(col, batch) =>
      (match toc.searchBatch(col, SearchBatchRequests(batch))
       case Err(e) => Err(e)
       case Ok(bs) => Ok(QueryResponse.SearchBatch(ToLocalBatches(bs, fmt))))
    case SearchGroup(col, groups) =>
      (match toc.group(col, FromSearchGroups(groups.searchGroupRequest), ShardSelector(groups.shardKey))
       case Err(e) => Err(e)
       case Ok(g) => Ok(QueryResponse.SearchGroup(g)))
    case Recommend(col, recommend) =>
      (match toc.recommend(col, recommend.recommendRequest, ShardSelector(recommend.shardKey))
       case Err(e) => Err(e)
       case Ok(ps) => Ok(QueryResponse.Recommend(ToLocal(ps, fmt))))
    case RecommendBatch(col, batch) =>
      (match toc.recommendBatch(col, RecommendBatchRequests(batch))
       case Err(e) => Err(e)
       case Ok(bs) => Ok(QueryResponse.RecommendBatch(ToLocalBatches(bs, fmt))))
    case RecommendGroup(col, groups) =>
      (match toc.group(col, FromRecommendGroups(groups.recommendGroupRequest), ShardSelector(groups.shardKey))
       case Err(e) => Err(e)
       case Ok(g) => Ok(QueryResponse.RecommendGroup(g)))
    case Query(col, query) =>
      match ConvertQueryRequest(query.internal)
      case Err(e) => Err(e)
      case Ok(converted) =>
        match toc.queryBatch(col, [(converted, ShardSelector(query.shardKey))])
        case Err(e) => Err(e)
        case Ok(bs) => Ok(QueryResponse.Query(ToLocal(FirstOrEmpty(bs), fmt)))
  }
}
