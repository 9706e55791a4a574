/** The caller's handle (`client.rs`): the round trip of one request, the typed methods
    that accept only their own response variant, the health checks, `RROInstance::start`
    and the shutdown poll of `Drop`. */
module Client {
  import opened Wrappers
  import opened Errors
  import opened Engine
  import Rest
  import Internal
  import Collections
  import Points
  import Queries
  import Instance

  type RroRequest = Instance.RroRequest
  type RroResponse = Instance.RroResponse
  type ColName = string

  /** The timeout `send_request` uses. */
  const RequestTimeout: Duration := FromSecs(30)
  /** The timeout of `health_check`. */
  const HealthTimeout: Duration := FromSecs(5)
  /** The ceiling of the shutdown wait (`SHUTDOWN_TIMEOUT`). */
  const ShutdownTimeout: Duration := FromSecs(30)
  /** The sleep after each empty poll of the termination signal, in milliseconds. */
  const PollSleepMs: nat := 50
  /** The expectation every typed method reports when the wrong variant arrives. */
  const ExpectedResponse: string := "expected response"

  // ---- one round trip ----------------------------------------------------------------------

  /** How one request's round trip ended: the send on the request channel failed; a reply
      arrived; the reply slot was dropped unused; or the timer ran out first. */
  datatype Delivery =
    | SendFailed
    | Replied(result: Result<RroResponse, StorageError>)
    | ReplyDropped
    | Elapsed

  /** What the handle can do with the worker: `deliver` is the outcome of sending a request
      and waiting on its reply slot for at most the given time, and `debug` is the `{:?}`
      rendering `QdrantError::unexpected` records. */
  datatype Endpoint = Endpoint(
    deliver: (RroRequest, Duration) -> Delivery,
    debug: Result<RroResponse, QdrantError> -> string)

  /** `send_request_with_timeout`, folding the four outcomes into one result: only a reply
      that arrived can succeed, an engine error in it comes back wrapped as a storage error,
      and the error kinds the round trip cannot produce never appear. */
  function SendRequestWithTimeout(d: Delivery, timeout: Duration): (r: Result<RroResponse, QdrantError>)
    ensures r.Ok? <==> d.Replied? && d.result.Ok?
    ensures r.Ok? ==> r.value == d.result.value
    ensures forall e :: r == Err(Storage(e)) <==> d == Replied(Err(e))
    ensures r == Err(ChannelClosed) <==> d.SendFailed? || d.ReplyDropped?
    ensures r == Err(Timeout(timeout)) <==> d.Elapsed?
    ensures r.Err? ==> r.error.Storage? || r.error.ChannelClosed? || r.error.Timeout?
  {
    match d
    case SendFailed => Err(ChannelClosed)
    case Replied(result) =>
      (match result
       case Ok(resp) => Ok(resp)
       case Err(e) => Err(FromStorage(e)))
    case ReplyDropped => Err(ChannelClosed)
    case Elapsed => Err(Timeout(timeout))
  }

  /** `send_request`: the round trip with the fixed 30 second timeout. */
  function SendRequest(ep: Endpoint, req: RroRequest): (r: Result<RroResponse, QdrantError>)
    ensures r.Err? && r.error.Timeout? ==> r.error.duration == RequestTimeout && r.error.duration.millis == 30000
    ensures r.Err? ==> !r.error.UnexpectedResponse? && !r.error.Collection?
  {
    SendRequestWithTimeout(ep.deliver(req, RequestTimeout), RequestTimeout)
  }

  /** The match every typed method performs on the round trip's result: an error passes
      through unchanged, a response that answers the request is accepted, and any other
      response is reported as unexpected with its debug rendering. */
  ghost predicate Typed<T>(r: Result<T, QdrantError>, ep: Endpoint, req: RroRequest) {
    var res := SendRequest(ep, req);
    (res.Err? ==> r == Err(res.error)) &&
    (res.Ok? && Instance.Answers(req, res.value) ==> r.Ok?) &&
    (res.Ok? && !Instance.Answers(req, res.value) ==> r == Err(Unexpected(ExpectedResponse, res, ep.debug)))
  }

  // ---- the messages the typed methods send -------------------------------------------------

  function CreateCollectionMessage(name: ColName, config: Internal.VectorsConfig): RroRequest {
    Instance.RroRequest.Collection(Collections.CollectionRequest.Create(name, Internal.CreateCollection.CreateCollection(config, None)))
  }

  function ListCollectionsMessage(): RroRequest {
    Instance.RroRequest.Collection(Collections.CollectionRequest.List)
  }

  function GetCollectionMessage(name: ColName): RroRequest {
    Instance.RroRequest.Collection(Collections.CollectionRequest.Get(name))
  }

  function UpdateCollectionMessage(name: ColName, data: Internal.UpdateCollection): RroRequest {
    Instance.RroRequest.Collection(Collections.CollectionRequest.Update(name, data))
  }

  function DeleteCollectionMessage(name: ColName): RroRequest {
    Instance.RroRequest.Collection(Collections.CollectionRequest.Delete(name))
  }

  function CreateAliasMessage(collectionName: ColName, aliasName: string): RroRequest {
    Instance.RroRequest.Alias(Collections.AliasRequest.Create(collectionName, aliasName))
  }

  function ListAliasesMessage(): RroRequest {
    Instance.RroRequest.Alias(Collections.AliasRequest.List)
  }

  function GetAliasesMessage(collectionName: ColName): RroRequest {
    Instance.RroRequest.Alias(Collections.AliasRequest.Get(collectionName))
  }

  function DeleteAliasMessage(aliasName: string): RroRequest {
    Instance.RroRequest.Alias(Collections.AliasRequest.Delete(aliasName))
  }

  function RenameAliasMessage(oldAliasName: string, newAliasName: string): RroRequest {
    Instance.RroRequest.Alias(Collections.AliasRequest.Rename(oldAliasName, newAliasName))
  }

  function GetPointsMessage(col: ColName, data: Internal.PointRequest): RroRequest {
    Instance.RroRequest.Points(Points.PointsRequest.Get(col, data))
  }

  /** The points go as a list with no shard key and no update filter. */
  function UpsertPointsMessage(col: ColName, points: seq<Rest.PointStruct>): RroRequest {
    Instance.RroRequest.Points(Points.PointsRequest.Upsert(col, Rest.PointInsertOperations.PointsList(points, None, None)))
  }

  function DeletePointsMessage(col: ColName, points: Internal.PointsSelector): RroRequest {
    Instance.RroRequest.Points(Points.PointsRequest.Delete(col, points))
  }

  /** The count request has no shard key. */
  function CountPointsMessage(col: ColName, filter: Option<Rest.Filter>, exact: bool): RroRequest {
    Instance.RroRequest.Points(Points.PointsRequest.Count(col, Internal.CountRequest(Internal.CountRequestInternal(filter, exact), None)))
  }

  /** The vectors go with no shard key and no update filter. */
  function UpdateVectorsMessage(col: ColName, points: seq<Rest.PointVectors>): RroRequest {
    Instance.RroRequest.Points(Points.PointsRequest.UpdateVectors(col, Rest.UpdateVectors(points, None, None)))
  }

  function DeleteVectorsMessage(col: ColName, data: Internal.DeleteVectors): RroRequest {
    Instance.RroRequest.Points(Points.PointsRequest.DeleteVectors(col, data))
  }

  function SetPayloadMessage(col: ColName, data: Internal.SetPayload): RroRequest {
    Instance.RroRequest.Points(Points.PointsRequest.SetPayload(col, data))
  }

  function DeletePayloadMessage(col: ColName, data: Internal.DeletePayload): RroRequest {
    Instance.RroRequest.Points(Points.PointsRequest.DeletePayload(col, data))
  }

  function ClearPayloadMessage(col: ColName, points: Internal.PointsSelector): RroRequest {
    Instance.RroRequest.Points(Points.PointsRequest.ClearPayload(col, points))
  }

  function SearchPointsMessage(col: ColName, data: Internal.SearchRequest): RroRequest {
    Instance.RroRequest.Query(Queries.QueryRequest.Search(col, data))
  }

  function SearchPointsBatchMessage(col: ColName, data: seq<Internal.SearchRequest>): RroRequest {
    Instance.RroRequest.Query(Queries.QueryRequest.SearchBatch(col, Internal.SearchRequestBatch(data)))
  }

  function SearchPointsGroupByMessage(col: ColName, data: Internal.SearchGroupsRequest): RroRequest {
    Instance.RroRequest.Query(Queries.QueryRequest.SearchGroup(col, data))
  }

  function RecommendPointsMessage(col: ColName, data: Internal.RecommendRequest): RroRequest {
    Instance.RroRequest.Query(Queries.QueryRequest.Recommend(col, data))
  }

  function RecommendPointsBatchMessage(col: ColName, data: seq<Internal.RecommendRequest>): RroRequest {
    Instance.RroRequest.Query(Queries.QueryRequest.RecommendBatch(col, Internal.RecommendRequestBatch(data)))
  }

  function RecommendPointsGroupByMessage(col: ColName, data: Internal.RecommendGroupsRequest): RroRequest {
    Instance.RroRequest.Query(Queries.QueryRequest.RecommendGroup(col, data))
  }

  // ---- the typed methods -------------------------------------------------------------------

  function CreateCollection(ep: Endpoint, name: ColName, config: Internal.VectorsConfig): (r: Result<bool, QdrantError>)
    ensures Typed(r, ep, CreateCollectionMessage(name, config))
    ensures r.Ok? ==> r.value == SendRequest(ep, CreateCollectionMessage(name, config)).value.collection.created
  {
    var res := SendRequest(ep, CreateCollectionMessage(name, config));
    if res.Err? then Err(res.error)
    else if res.value.Collection? && res.value.collection.Create? then Ok(res.value.collection.created)
    else Err(Unexpected(ExpectedResponse, res, ep.debug))
  }

  function ListCollections(ep: Endpoint): (r: Result<seq<string>, QdrantError>)
    ensures Typed(r, ep, ListCollectionsMessage())
    ensures r.Ok? ==> r.value == SendRequest(ep, ListCollectionsMessage()).value.collection.names
  {
    var res := SendRequest(ep, ListCollectionsMessage());
    if res.Err? then Err(res.error)
    else if res.value.Collection? && res.value.collection.List? then Ok(res.value.collection.names)
    else Err(Unexpected(ExpectedResponse, res, ep.debug))
  }

  /** Either layer's "not found", which `get_collection` turns into an absent collection. */
  predicate IsNotFound(e: QdrantError) {
    (e.Collection? && e.collectionError.CollectionNotFound?) || (e.Storage? && e.storageError.NotFound?)
  }

  /** `get_collection`: like the other typed methods, except that a "not found" from either
      layer means there is no such collection. */
  function GetCollection(ep: Endpoint, name: ColName): (r: Result<Option<Internal.CollectionInfo>, QdrantError>)
    ensures var res := SendRequest(ep, GetCollectionMessage(name));
      (res.Err? && IsNotFound(res.error) ==> r == Ok(None)) &&
      (res.Err? && !IsNotFound(res.error) ==> r == Err(res.error)) &&
      (res.Ok? && Instance.Answers(GetCollectionMessage(name), res.value) ==> r == Ok(Some(res.value.collection.info))) &&
      (res.Ok? && !Instance.Answers(GetCollectionMessage(name), res.value) ==> r == Err(Unexpected(ExpectedResponse, res, ep.debug)))
    ensures r == Ok(None) <==> SendRequest(ep, GetCollectionMessage(name)).Err? && IsNotFound(SendRequest(ep, GetCollectionMessage(name)).error)
  {
    var res := SendRequest(ep, GetCollectionMessage(name));
    if res.Ok? && res.value.Collection? && res.value.collection.Get? then Ok(Some(res.value.collection.info))
    else if res.Err? && IsNotFound(res.error) then Ok(None)
    else if res.Err? then Err(res.error)
    else Err(Unexpected(ExpectedResponse, res, ep.debug))
  }

  function UpdateCollection(ep: Endpoint, name: ColName, data: Internal.UpdateCollection): (r: Result<bool, QdrantError>)
    ensures Typed(r, ep, UpdateCollectionMessage(name, data))
    ensures r.Ok? ==> r.value == SendRequest(ep, UpdateCollectionMessage(name, data)).value.collection.updated
  {
    var res := SendRequest(ep, UpdateCollectionMessage(name, data));
    if res.Err? then Err(res.error)
    else if res.value.Collection? && res.value.collection.Update? then Ok(res.value.collection.updated)
    else Err(Unexpected(ExpectedResponse, res, ep.debug))
  }

  function DeleteCollection(ep: Endpoint, name: ColName): (r: Result<bool, QdrantError>)
    ensures Typed(r, ep, DeleteCollectionMessage(name))
    ensures r.Ok? ==> r.value == SendRequest(ep, DeleteCollectionMessage(name)).value.collection.deleted
  {
    var res := SendRequest(ep, DeleteCollectionMessage(name));
    if res.Err? then Err(res.error)
    else if res.value.Collection? && res.value.collection.Delete? then Ok(res.value.collection.deleted)
    else Err(Unexpected(ExpectedResponse, res, ep.debug))
  }

  function CreateAlias(ep: Endpoint, collectionName: ColName, aliasName: string): (r: Result<bool, QdrantError>)
    ensures Typed(r, ep, CreateAliasMessage(collectionName, aliasName))
    ensures r.Ok? ==> r.value == SendRequest(ep, CreateAliasMessage(collectionName, aliasName)).value.alias.created
  {
    var res := SendRequest(ep, CreateAliasMessage(collectionName, aliasName));
    if res.Err? then Err(res.error)
    else if res.value.Alias? && res.value.alias.Create? then Ok(res.value.alias.created)
    else Err(Unexpected(ExpectedResponse, res, ep.debug))
  }

  /** The aliases as `(collection_name, alias_name)` pairs, in the order they came. */
  function AliasPairs(aliases: Internal.CollectionsAliasesResponse): (ps: seq<(ColName, string)>)
    ensures |ps| == |aliases.aliases|
    ensures forall k :: 0 <= k < |ps| ==> ps[k] == (aliases.aliases[k].collectionName, aliases.aliases[k].aliasName)
  {
    seq(|aliases.aliases|, k requires 0 <= k < |aliases.aliases| => (aliases.aliases[k].collectionName, aliases.aliases[k].aliasName))
  }

  function ListAliases(ep: Endpoint): (r: Result<seq<(ColName, string)>, QdrantError>)
    ensures Typed(r, ep, ListAliasesMessage())
    ensures r.Ok? ==> r.value == AliasPairs(SendRequest(ep, ListAliasesMessage()).value.alias.aliases)
  {
    var res := SendRequest(ep, ListAliasesMessage());
    if res.Err? then Err(res.error)
    else if res.value.Alias? && res.value.alias.List? then Ok(AliasPairs(res.value.alias.aliases))
    else Err(Unexpected(ExpectedResponse, res, ep.debug))
  }

  function GetAliases(ep: Endpoint, collectionName: ColName): (r: Result<seq<(ColName, string)>, QdrantError>)
    ensures Typed(r, ep, GetAliasesMessage(collectionName))
    ensures r.Ok? ==> r.value == AliasPairs(SendRequest(ep, GetAliasesMessage(collectionName)).value.alias.aliases)
  {
    var res := SendRequest(ep, GetAliasesMessage(collectionName));
    if res.Err? then Err(res.error)
    else if res.value.Alias? && res.value.alias.Get? then Ok(AliasPairs(res.value.alias.aliases))
    else Err(Unexpected(ExpectedResponse, res, ep.debug))
  }

  function DeleteAlias(ep: Endpoint, aliasName: string): (r: Result<bool, QdrantError>)
    ensures Typed(r, ep, DeleteAliasMessage(aliasName))
    ensures r.Ok? ==> r.value == SendRequest(ep, DeleteAliasMessage(aliasName)).value.alias.deleted
  {
    var res := SendRequest(ep, DeleteAliasMessage(aliasName));
    if res.Err? then Err(res.error)
    else if res.value.Alias? && res.value.alias.Delete? then Ok(res.value.alias.deleted)
    else Err(Unexpected(ExpectedResponse, res, ep.debug))
  }

  function RenameAlias(ep: Endpoint, oldAliasName: string, newAliasName: string): (r: Result<bool, QdrantError>)
    ensures Typed(r, ep, RenameAliasMessage(oldAliasName, newAliasName))
    ensures r.Ok? ==> r.value == SendRequest(ep, RenameAliasMessage(oldAliasName, newAliasName)).value.alias.renamed
  {
    var res := SendRequest(ep, RenameAliasMessage(oldAliasName, newAliasName));
    if res.Err? then Err(res.error)
    else if res.value.Alias? && res.value.alias.Rename? then Ok(res.value.alias.renamed)
    else Err(Unexpected(ExpectedResponse, res, ep.debug))
  }

  function GetPoints(ep: Endpoint, col: ColName, data: Internal.PointRequest): (r: Result<seq<Points.LocalRecord>, QdrantError>)
    ensures Typed(r, ep, GetPointsMessage(col, data))
    ensures r.Ok? ==> r.value == SendRequest(ep, GetPointsMessage(col, data)).value.points.records
  {
    var res := SendRequest(ep, GetPointsMessage(col, data));
    if res.Err? then Err(res.error)
    else if res.value.Points? && res.value.points.Get? then Ok(res.value.points.records)
    else Err(Unexpected(ExpectedResponse, res, ep.debug))
  }

  function UpsertPoints(ep: Endpoint, col: ColName, points: seq<Rest.PointStruct>): (r: Result<Internal.UpdateResult, QdrantError>)
    ensures Typed(r, ep, UpsertPointsMessage(col, points))
    ensures r.Ok? ==> r.value == SendRequest(ep, UpsertPointsMessage(col, points)).value.points.result
  {
    var res := SendRequest(ep, UpsertPointsMessage(col, points));
    if res.Err? then Err(res.error)
    else if res.value.Points? && res.value.points.Upsert? then Ok(res.value.points.result)
    else Err(Unexpected(ExpectedResponse, res, ep.debug))
  }

  function DeletePoints(ep: Endpoint, col: ColName, points: Internal.PointsSelector): (r: Result<Internal.UpdateResult, QdrantError>)
    ensures Typed(r, ep, DeletePointsMessage(col, points))
    ensures r.Ok? ==> r.value == SendRequest(ep, DeletePointsMessage(col, points)).value.points.result
  {
    var res := SendRequest(ep, DeletePointsMessage(col, points));
    if res.Err? then Err(res.error)
    else if res.value.Points? && res.value.points.Delete? then Ok(res.value.points.result)
    else Err(Unexpected(ExpectedResponse, res, ep.debug))
  }

  /** `count_points` hands back only the count. */
  function CountPoints(ep: Endpoint, col: ColName, filter: Option<Rest.Filter>, exact: bool): (r: Result<nat, QdrantError>)
    ensures Typed(r, ep, CountPointsMessage(col, filter, exact))
    ensures r.Ok? ==> r.value == SendRequest(ep, CountPointsMessage(col, filter, exact)).value.points.countResult.count
  {
    var res := SendRequest(ep, CountPointsMessage(col, filter, exact));
    if res.Err? then Err(res.error)
    else if res.value.Points? && res.value.points.Count? then Ok(res.value.points.countResult.count)
    else Err(Unexpected(ExpectedResponse, res, ep.debug))
  }

  function UpdateVectors(ep: Endpoint, col: ColName, points: seq<Rest.PointVectors>): (r: Result<Internal.UpdateResult, QdrantError>)
    ensures Typed(r, ep, UpdateVectorsMessage(col, points))
    ensures r.Ok? ==> r.value == SendRequest(ep, UpdateVectorsMessage(col, points)).value.points.result
  {
    var res := SendRequest(ep, UpdateVectorsMessage(col, points));
    if res.Err? then Err(res.error)
    else if res.value.Points? && res.value.points.UpdateVectors? then Ok(res.value.points.result)
    else Err(Unexpected(ExpectedResponse, res, ep.debug))
  }

  function DeleteVectors(ep: Endpoint, col: ColName, data: Internal.DeleteVectors): (r: Result<Internal.UpdateResult, QdrantError>)
    ensures Typed(r, ep, DeleteVectorsMessage(col, data))
    ensures r.Ok? ==> r.value == SendRequest(ep, DeleteVectorsMessage(col, data)).value.points.result
  {
    var res := SendRequest(ep, DeleteVectorsMessage(col, data));
    if res.Err? then Err(res.error)
    else if res.value.Points? && res.value.points.DeleteVectors? then Ok(res.value.points.result)
    else Err(Unexpected(ExpectedResponse, res, ep.debug))
  }

  function SetPayload(ep: Endpoint, col: ColName, data: Internal.SetPayload): (r: Result<Internal.UpdateResult, QdrantError>)
    ensures Typed(r, ep, SetPayloadMessage(col, data))
    ensures r.Ok? ==> r.value == SendRequest(ep, SetPayloadMessage(col, data)).value.points.result
  {
    var res := SendRequest(ep, SetPayloadMessage(col, data));
    if res.Err? then Err(res.error)
    else if res.value.Points? && res.value.points.SetPayload? then Ok(res.value.points.result)
    else Err(Unexpected(ExpectedResponse, res, ep.debug))
  }

  function DeletePayload(ep: Endpoint, col: ColName, data: Internal.DeletePayload): (r: Result<Internal.UpdateResult, QdrantError>)
    ensures Typed(r, ep, DeletePayloadMessage(col, data))
    ensures r.Ok? ==> r.value == SendRequest(ep, DeletePayloadMessage(col, data)).value.points.result
  {
    var res := SendRequest(ep, DeletePayloadMessage(col, data));
    if res.Err? then Err(res.error)
    else if res.value.Points? && res.value.points.DeletePayload? then Ok(res.value.points.result)
    else Err(Unexpected(ExpectedResponse, res, ep.debug))
  }

  function ClearPayload(ep: Endpoint, col: ColName, points: Internal.PointsSelector): (r: Result<Internal.UpdateResult, QdrantError>)
    ensures Typed(r, ep, ClearPayloadMessage(col, points))
    ensures r.Ok? ==> r.value == SendRequest(ep, ClearPayloadMessage(col, points)).value.points.result
  {
    var res := SendRequest(ep, ClearPayloadMessage(col, points));
    if res.Err? then Err(res.error)
    else if res.value.Points? && res.value.points.ClearPayload? then Ok(res.value.points.result)
    else Err(Unexpected(ExpectedResponse, res, ep.debug))
  }

  function SearchPoints(ep: Endpoint, col: ColName, data: Internal.SearchRequest): (r: Result<seq<Queries.LocalScoredPoint>, QdrantError>)
    ensures Typed(r, ep, SearchPointsMessage(col, data))
    ensures r.Ok? ==> r.value == SendRequest(ep, SearchPointsMessage(col, data)).value.query.points
  {
    var res := SendRequest(ep, SearchPointsMessage(col, data));
    if res.Err? then Err(res.error)
    else if res.value.Query? && res.value.query.Search? then Ok(res.value.query.points)
    else Err(Unexpected(ExpectedResponse, res, ep.debug))
  }

  function SearchPointsBatch(ep: Endpoint, col: ColName, data: seq<Internal.SearchRequest>)
    : (r: Result<seq<seq<Queries.LocalScoredPoint>>, QdrantError>)
    ensures Typed(r, ep, SearchPointsBatchMessage(col, data))
    ensures r.Ok? ==> r.value == SendRequest(ep, SearchPointsBatchMessage(col, data)).value.query.batches
  {
    var res := SendRequest(ep, SearchPointsBatchMessage(col, data));
    if res.Err? then Err(res.error)
    else if res.value.Query? && res.value.query.SearchBatch? then Ok(res.value.query.batches)
    else Err(Unexpected(ExpectedResponse, res, ep.debug))
  }

  /** The group-by methods hand back only the groups. */
  function SearchPointsGroupBy(ep: Endpoint, col: ColName, data: Internal.SearchGroupsRequest)
    : (r: Result<seq<Internal.PointGroup>, QdrantError>)
    ensures Typed(r, ep, SearchPointsGroupByMessage(col, data))
    ensures r.Ok? ==> r.value == SendRequest(ep, SearchPointsGroupByMessage(col, data)).value.query.groups.groups
  {
    var res := SendRequest(ep, SearchPointsGroupByMessage(col, data));
    if res.Err? then Err(res.error)
    else if res.value.Query? && res.value.query.SearchGroup? then Ok(res.value.query.groups.groups)
    else Err(Unexpected(ExpectedResponse, res, ep.debug))
  }

  function RecommendPoints(ep: Endpoint, col: ColName, data: Internal.RecommendRequest): (r: Result<seq<Queries.LocalScoredPoint>, QdrantError>)
    ensures Typed(r, ep, RecommendPointsMessage(col, data))
    ensures r.Ok? ==> r.value == SendRequest(ep, RecommendPointsMessage(col, data)).value.query.points
  {
    var res := SendRequest(ep, RecommendPointsMessage(col, data));
    if res.Err? then Err(res.error)
    else if res.value.Query? && res.value.query.Recommend? then Ok(res.value.query.points)
    else Err(Unexpected(ExpectedResponse, res, ep.debug))
  }

  function RecommendPointsBatch(ep: Endpoint, col: ColName, data: seq<Internal.RecommendRequest>)
    : (r: Result<seq<seq<Queries.LocalScoredPoint>>, QdrantError>)
    ensures Typed(r, ep, RecommendPointsBatchMessage(col, data))
    ensures r.Ok? ==> r.value == SendRequest(ep, RecommendPointsBatchMessage(col, data)).value.query.batches
  {
    var res := SendRequest(ep, RecommendPointsBatchMessage(col, data));
    if res.Err? then Err(res.error)
    else if res.value.Query? && res.value.query.RecommendBatch? then Ok(res.value.query.batches)
    else Err(Unexpected(ExpectedResponse, res, ep.debug))
  }

  function RecommendPointsGroupBy(ep: Endpoint, col: ColName, data: Internal.RecommendGroupsRequest)
    : (r: Result<seq<Internal.PointGroup>, QdrantError>)
    ensures Typed(r, ep, RecommendPointsGroupByMessage(col, data))
    ensures r.Ok? ==> r.value == SendRequest(ep, RecommendPointsGroupByMessage(col, data)).value.query.groups.groups
  {
    var res := SendRequest(ep, RecommendPointsGroupByMessage(col, data));
    if res.Err? then Err(res.error)
    else if res.value.Query? && res.value.query.RecommendGroup? then Ok(res.value.query.groups.groups)
    else Err(Unexpected(ExpectedResponse, res, ep.debug))
  }

  /** Through a worker that answers every request with the handler's result, no typed method
      ever reports an unexpected response: what the worker sends answers what was asked. */
  lemma ServedNeverUnexpected<T>(r: Result<T, QdrantError>, ep: Endpoint, req: RroRequest, toc: Toc, fmt: Fmt)
    requires Typed(r, ep, req)
    requires ep.deliver(req, RequestTimeout).Replied? ==>
      ep.deliver(req, RequestTimeout).result == Instance.Handle(req, toc, fmt)
    ensures !(r.Err? && r.error.UnexpectedResponse?)
  {
    var res := SendRequest(ep, req);
    if res.Ok? {
      assert ep.deliver(req, RequestTimeout).Replied?;
      assert Instance.Answers(req, res.value);
    }
  }

  // ---- health ------------------------------------------------------------------------------

  /** `health_check`: a collection listing with a 5 second timeout. Any reply that arrives,
      even an engine error, counts as healthy; a failed send or a dropped slot is a closed
      channel, and an expired timer is a timeout of exactly 5 seconds. */
  function HealthCheck(ep: Endpoint): (r: Result<(), QdrantError>)
    ensures r.Ok? <==> ep.deliver(ListCollectionsMessage(), HealthTimeout).Replied?
    ensures r.Err? ==>
      r.error == (if ep.deliver(ListCollectionsMessage(), HealthTimeout).Elapsed? then Timeout(FromMillis(5000)) else ChannelClosed)
  {
    match ep.deliver(ListCollectionsMessage(), HealthTimeout)
    case SendFailed => Err(ChannelClosed)
    case Replied(_) => Ok(())
    case ReplyDropped => Err(ChannelClosed)
    case Elapsed => Err(Timeout(HealthTimeout))
  }

  // ---- shutdown ----------------------------------------------------------------------------

  /** What one `terminated_rx.try_recv()` sees: the signal, nothing yet, or a sender dropped
      without firing. */
  datatype TryRecv = Fired | Empty | Gone

  /** Why the shutdown wait stopped. */
  datatype Shutdown = Graceful | TimedOut | WorkerGone

  /** The `i`-th poll's observation; past the supplied ones the worker has not finished. */
  function PollAt(polls: seq<TryRecv>, i: nat): TryRecv {
    if i < |polls| then polls[i] else Empty
  }

  /** The shutdown wait from poll `i` on, with `50 * i` milliseconds already slept: why it
      stops and how long it has slept by then. */
  function ShutdownFrom(polls: seq<TryRecv>, i: nat): (Shutdown, nat)
    decreases ShutdownTimeout.millis + PollSleepMs - PollSleepMs * i
  {
    match PollAt(polls, i)
    case Fired => (Graceful, PollSleepMs * i)
    case Gone => (WorkerGone, PollSleepMs * i)
    case Empty =>
      if PollSleepMs * i > ShutdownTimeout.millis then (TimedOut, PollSleepMs * i)
      else ShutdownFrom(polls, i + 1)
  }

  /** The wait always ends within one sleep past the 30 second ceiling. It stops at the first
      poll that sees the signal or a dropped sender, after sleeping once per empty poll before
      it, and it times out only when every poll up to the ceiling was empty. */
  lemma {:induction false} ShutdownFromStops(polls: seq<TryRecv>, i: nat)
    requires PollSleepMs * i <= ShutdownTimeout.millis + PollSleepMs
    ensures var (how, slept) := ShutdownFrom(polls, i);
      PollSleepMs * i <= slept <= ShutdownTimeout.millis + PollSleepMs && slept % PollSleepMs == 0 &&
      (forall j :: i <= j < slept / PollSleepMs ==> PollAt(polls, j) == Empty) &&
      (how.Graceful? <==> PollAt(polls, slept / PollSleepMs) == Fired) &&
      (how.WorkerGone? <==> PollAt(polls, slept / PollSleepMs) == Gone) &&
      (how.TimedOut? ==> slept > ShutdownTimeout.millis && PollAt(polls, slept / PollSleepMs) == Empty)
    decreases ShutdownTimeout.millis + PollSleepMs - PollSleepMs * i
  {
    if PollAt(polls, i) == Empty && PollSleepMs * i <= ShutdownTimeout.millis {
      ShutdownFromStops(polls, i + 1);
    }
  }

  /** The handle: its end of the request channel and of the termination signal, and the worker
      thread they lead to. */
  class RroClient {
    const worker: Instance.Worker

    ghost predicate Valid()
      reads this, worker
    {
      worker.Valid()
    }

    /** `RROInstance::start`: both channels are created and the thread spawned; building the
        engine happens inside the thread later, so nothing here can fail. */
    constructor (fmt: Fmt, startup: Result<Toc, QdrantError>)
      ensures Valid() && fresh(worker)
      ensures worker.startup == startup && worker.serve == Instance.Serving(startup, fmt)
      ensures worker.phase == Instance.Starting && worker.senderOpen && worker.signalReceiverOpen
    {
      worker := new Instance.Worker(fmt, startup);
    }

    /** `is_healthy`: the request channel is not closed, that is, the worker still holds its
        receiver. */
    predicate IsHealthy()
      reads this, worker
      ensures IsHealthy() <==> worker.phase.Starting? || worker.phase.Accepting?
    {
      worker.ReceiverOpen()
    }

    /** `Drop`: the request sender is dropped first, then the termination signal is polled,
        with a 50 ms sleep after every empty poll, until it fires, its sender is gone, or more
        than 30 seconds have passed. The handle's end of the signal goes last. */
    method Drop(polls: seq<TryRecv>) returns (how: Shutdown, slept: nat)
      requires Valid() && worker.senderOpen
      modifies worker
      ensures Valid() && !worker.senderOpen && !worker.signalReceiverOpen
      ensures (how, slept) == ShutdownFrom(polls, 0)
      ensures slept <= ShutdownTimeout.millis + PollSleepMs
      ensures worker.phase == old(worker.phase) && worker.queue == old(worker.queue) && worker.tasks == old(worker.tasks)
      ensures worker.replies == old(worker.replies) && worker.signal == old(worker.signal) && worker.refCount == old(worker.refCount)
    {
      worker.CloseSender();
      var i: nat := 0;
      slept := 0;
      while true
        invariant slept == PollSleepMs * i && slept <= ShutdownTimeout.millis + PollSleepMs
        invariant ShutdownFrom(polls, i) == ShutdownFrom(polls, 0)
        invariant Valid() && !worker.senderOpen
        invariant worker.phase == old(worker.phase) && worker.queue == old(worker.queue) && worker.tasks == old(worker.tasks)
        invariant worker.replies == old(worker.replies) && worker.signal == old(worker.signal) && worker.refCount == old(worker.refCount)
        decreases ShutdownTimeout.millis + PollSleepMs - slept
      {
        var poll := PollAt(polls, i);
        if poll == Fired {
          how := Graceful;
          break;
        } else if poll == Gone {
          how := WorkerGone;
          break;
        }
        if slept > ShutdownTimeout.millis {
          how := TimedOut;
          break;
        }
        slept := slept + PollSleepMs;
        i := i + 1;
      }
      worker.CloseSignalReceiver();
    }
  }

  /** `RROInstance::start` as the caller sees it: always a handle, never an error. */
  method Start(fmt: Fmt, startup: Result<Toc, QdrantError>) returns (r: Result<RroClient, QdrantError>)
    ensures r.Ok? && fresh(r.value) && r.value.Valid()
    ensures r.value.worker.startup == startup && r.value.worker.phase == Instance.Starting
  {
    var client := new RroClient(fmt, startup);
    return Ok(client);
  }
}
