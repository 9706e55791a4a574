/** Point requests, the REST-to-stored conversions they need, and their handler
    (`ops/points.rs`). */
module Points {
  import opened Wrappers
  import opened Errors
  import Rest
  import opened Internal
  import opened Engine
  import opened Ops

  datatype PointsRequest =
    | Get(col: ColName, getRequest: PointRequest)
    | Count(col: ColName, countRequest: CountRequest)
    | Delete(col: ColName, selector: PointsSelector)
    | Upsert(col: ColName, upsert: Rest.PointInsertOperations)
    | UpdateVectors(col: ColName, updateVectors: Rest.UpdateVectors)
    | DeleteVectors(col: ColName, deleteVectors: Internal.DeleteVectors)
    | SetPayload(col: ColName, setPayload: Internal.SetPayload)
    | OverwritePayload(col: ColName, setPayload: Internal.SetPayload)
    | DeletePayload(col: ColName, deletePayload: Internal.DeletePayload)
    | ClearPayload(col: ColName, selector: PointsSelector)

  /** A retrieved point as the bridge hands it back: rendered id, JSON payload, no vector. */
  datatype LocalRecord = LocalRecord(id: string, payload: Option<Json>, vector: Option<Rest.DenseVector>)

  datatype PointsResponse =
    | Get(records: seq<LocalRecord>)
    | Count(countResult: CountResult)
    | Delete(result: UpdateResult)
    | Upsert(result: UpdateResult)
    | UpdateVectors(result: UpdateResult)
    | DeleteVectors(result: UpdateResult)
    | SetPayload(result: UpdateResult)
    | OverwritePayload(result: UpdateResult)
    | DeletePayload(result: UpdateResult)
    | ClearPayload(result: UpdateResult)

  /** The same-named response variant answers each request. */
  predicate PointsAnswers(req: PointsRequest, resp: PointsResponse) {
    match req
    case Get(_, _) => resp.Get?
    case Count(_, _) => resp.Count?
    case Delete(_, _) => resp.Delete?
    case Upsert(_, _) => resp.Upsert?
    case UpdateVectors(_, _) => resp.UpdateVectors?
    case DeleteVectors(_, _) => resp.DeleteVectors?
    case SetPayload(_, _) => resp.SetPayload?
    case OverwritePayload(_, _) => resp.OverwritePayload?
    case DeletePayload(_, _) => resp.DeletePayload?
    case ClearPayload(_, _) => resp.ClearPayload?
  }

  const VectorInferenceMessage: string :=
    "Document, Image, and Object vector types require inference and are not supported in embedded mode."
  const VectorStructInferenceMessage: string :=
    VectorInferenceMessage + " Please provide pre-computed vectors."
  const BatchInferenceMessage: string :=
    "Document, Image, and Object batch vector types require inference and are not supported in embedded mode."
  const NothingToDeleteMessage: string := "No filter or points provided"

  // ---- vectors ----------------------------------------------------------------------

  /** The vector kinds that only an inference service could turn into numbers. */
  predicate NeedsInference(v: Rest.Vector) {
    v.Document? || v.Image? || v.Object?
  }

  /** The REST vector a stored vector stands for. */
  function RestVector(v: VectorPersisted): Rest.Vector {
    match v
    case Dense(d) => Rest.Vector.Dense(d)
    case Sparse(s) => Rest.Vector.Sparse(s)
    case MultiDense(m) => Rest.Vector.MultiDense(m)
  }

  /** `convert_vector`: numeric vectors map one-to-one (nothing gained, nothing lost), the
      inference kinds are refused with `bad_request`. */
  function ConvertVector(v: Rest.Vector): (r: Result<VectorPersisted, StorageError>)
    ensures r.Err? <==> NeedsInference(v)
    ensures r.Err? ==> r.error == BadRequest(VectorInferenceMessage)
    ensures r.Ok? ==> RestVector(r.value) == v
  {
    match v
    case Dense(d) => Ok(VectorPersisted.Dense(d))
    case Sparse(s) => Ok(VectorPersisted.Sparse(s))
    case MultiDense(m) => Ok(VectorPersisted.MultiDense(m))
    case _ => Err(BadRequest(VectorInferenceMessage))
  }

  predicate StructNeedsInference(vs: Rest.VectorStruct) {
    vs.Document? || vs.Image? || vs.Object? ||
    (vs.Named? && exists name :: name in vs.named && NeedsInference(vs.named[name]))
  }

  /** The refusal a vector struct that needs inference gets: a named map fails with the
      message of the entry's conversion, a bare inference input with the longer message. */
  function StructRejection(vs: Rest.VectorStruct): StorageError {
    if vs.Named? then BadRequest(VectorInferenceMessage) else BadRequest(VectorStructInferenceMessage)
  }

  /** The REST vector struct a stored one stands for. */
  function RestVectorStruct(vs: VectorStructPersisted): Rest.VectorStruct {
    match vs
    case Single(v) => Rest.VectorStruct.Single(v)
    case MultiDense(m) => Rest.VectorStruct.MultiDense(m)
    case Named(m) => Rest.VectorStruct.Named(map name | name in m :: RestVector(m[name]))
  }

  /** `convert_vector_struct`: Single and MultiDense map one-to-one, Named converts every entry
      under its own name and fails if any entry fails, the inference kinds are refused. */
  function ConvertVectorStruct(vs: Rest.VectorStruct): (r: Result<VectorStructPersisted, StorageError>)
    ensures r.Err? <==> StructNeedsInference(vs)
    ensures r.Err? ==> r.error == StructRejection(vs)
    ensures r.Ok? ==> RestVectorStruct(r.value) == vs
  {
    match vs
    case Single(v) => Ok(VectorStructPersisted.Single(v))
    case MultiDense(m) => Ok(VectorStructPersisted.MultiDense(m))
    case Named(named) =>
      if exists name :: name in named && NeedsInference(named[name]) then
        Err(BadRequest(VectorInferenceMessage))
      else
        var converted := map name | name in named :: ConvertVector(named[name]).value;
        assert (map name | name in converted :: RestVector(converted[name])) == named;
        Ok(VectorStructPersisted.Named(converted))
    case _ => Err(BadRequest(VectorStructInferenceMessage))
  }

  /** `convert_point_struct`: id and payload kept, the vector converted. */
  function ConvertPointStruct(p: Rest.PointStruct): (r: Result<PointStructPersisted, StorageError>)
    ensures r.Err? <==> StructNeedsInference(p.vector)
    ensures r.Err? ==> r.error == StructRejection(p.vector)
    ensures r.Ok? ==> r.value.id == p.id && r.value.payload == p.payload && RestVectorStruct(r.value.vector) == p.vector
  {
    match ConvertVectorStruct(p.vector)
    case Err(e) => Err(e)
    case Ok(v) => Ok(PointStructPersisted(p.id, v, p.payload))
  }

  /** `convert_point_vectors`: id kept, the vector converted. */
  function ConvertPointVectors(pv: Rest.PointVectors): (r: Result<PointVectorsPersisted, StorageError>)
    ensures r.Err? <==> StructNeedsInference(pv.vector)
    ensures r.Err? ==> r.error == StructRejection(pv.vector)
    ensures r.Ok? ==> r.value.id == pv.id && RestVectorStruct(r.value.vector) == pv.vector
  {
    match ConvertVectorStruct(pv.vector)
    case Err(e) => Err(e)
    case Ok(v) => Ok(PointVectorsPersisted(pv.id, v))
  }

  // ---- batches ----------------------------------------------------------------------

  /** `payloads.get(i).cloned().flatten()`. */
  function PayloadAt(payloads: seq<Option<Rest.Payload>>, i: nat): Option<Rest.Payload> {
    if i < |payloads| then payloads[i] else None
  }

  /** The named vectors of the `i`-th point of a named batch: every name with an `i`-th entry,
      that entry converted, or the refusal if one of those entries needs inference. */
  function NamedPointVectors(named: map<string, seq<Rest.Vector>>, i: nat): (r: Result<map<string, VectorPersisted>, StorageError>)
    ensures r.Err? <==> exists name :: name in named && i < |named[name]| && NeedsInference(named[name][i])
    ensures r.Err? ==> r.error == BadRequest(VectorInferenceMessage)
    ensures r.Ok? ==> r.value.Keys == set name | name in named && i < |named[name]|
    ensures r.Ok? ==> forall name :: name in r.value ==> RestVector(r.value[name]) == named[name][i]
  {
    if exists name :: name in named && i < |named[name]| && NeedsInference(named[name][i]) then
      Err(BadRequest(VectorInferenceMessage))
    else
      Ok(map name | name in named && i < |named[name]| :: ConvertVector(named[name][i]).value)
  }

  /** The `for` loop of the named batch branch: the map of the `i`-th point's vectors is filled
      one name at a time, in the hash map's unspecified order, and the first entry that fails
      to convert ends the loop with its error. */
  method FillPointVectors(named: map<string, seq<Rest.Vector>>, i: nat) returns (r: Result<map<string, VectorPersisted>, StorageError>)
    ensures r == NamedPointVectors(named, i)
  {
    var pointVectors: map<string, VectorPersisted> := map[];
    var remaining := named.Keys;
    while remaining != {}
      invariant remaining <= named.Keys
      invariant forall name :: name in named && name !in remaining && i < |named[name]| ==> !NeedsInference(named[name][i])
      invariant pointVectors.Keys == set name | name in named && name !in remaining && i < |named[name]|
      invariant forall name :: name in pointVectors ==> pointVectors[name] == ConvertVector(named[name][i]).value
      decreases remaining
    {
      var name :| name in remaining;
      var vectors := named[name];
      if i < |vectors| {
        var converted := ConvertVector(vectors[i]);
        if converted.Err? {
          return Err(converted.error);
        }
        pointVectors := pointVectors[name := converted.value];
      }
      remaining := remaining - {name};
    }
    assert pointVectors == map name | name in named && i < |named[name]| :: ConvertVector(named[name][i]).value;
    return Ok(pointVectors);
  }

  predicate BatchNeedsInference(batch: Rest.Batch) {
    match batch.vectors
    case Named(columns) =>
      exists k, name :: 0 <= k < |batch.ids| && name in columns && k < |columns[name]| && NeedsInference(columns[name][k])
    case Single(_) => false
    case MultiDense(_) => false
    case _ => true
  }

  /** Point `k` of a batch carries the `k`-th id and the `k`-th payload, if any. */
  predicate AlignedWithIds(batch: Rest.Batch, points: seq<PointStructPersisted>) {
    |points| <= |batch.ids| &&
    forall k :: 0 <= k < |points| ==>
      points[k].id == batch.ids[k] && points[k].payload == PayloadAt(batch.payloads.GetOr([]), k)
  }

  function Min(a: nat, b: nat): nat {
    if a <= b then a else b
  }

  /** The `k`-th point of a named batch. */
  function NamedBatchPoint(batch: Rest.Batch, k: nat, id: Rest.PointId): Result<PointStructPersisted, StorageError>
    requires batch.vectors.Named?
  {
    match NamedPointVectors(batch.vectors.namedColumns, k)
    case Err(e) => Err(e)
    case Ok(m) => Ok(PointStructPersisted(id, VectorStructPersisted.Named(m), PayloadAt(batch.payloads.GetOr([]), k)))
  }

  /** `(index, element)` pairs, as `enumerate()` yields them. */
  function Enumerate<T>(xs: seq<T>): (r: seq<(nat, T)>)
    ensures |r| == |xs| && forall k :: 0 <= k < |xs| ==> r[k] == (k, xs[k])
  {
    seq(|xs|, k requires 0 <= k < |xs| => (k, xs[k]))
  }

  /** The batch branch of `convert_point_insert_operations`: column-wise vectors become one
      point per id. Single and MultiDense pair ids with vectors up to the shorter list; Named
      gives one point per id holding the names that have an entry at its position; the
      inference kinds are refused. */
  function ConvertBatch(batch: Rest.Batch): (r: Result<seq<PointStructPersisted>, StorageError>)
    ensures r.Err? <==> BatchNeedsInference(batch)
    ensures r.Ok? ==> AlignedWithIds(batch, r.value)
    ensures batch.vectors.Single? ==>
      r.Ok? && |r.value| == Min(|batch.ids|, |batch.vectors.singles|) &&
      forall k :: 0 <= k < |r.value| ==> r.value[k].vector == VectorStructPersisted.Single(batch.vectors.singles[k])
    ensures batch.vectors.MultiDense? ==>
      r.Ok? && |r.value| == Min(|batch.ids|, |batch.vectors.multis|) &&
      forall k :: 0 <= k < |r.value| ==> r.value[k].vector == VectorStructPersisted.MultiDense(batch.vectors.multis[k])
    ensures batch.vectors.Named? && r.Ok? ==>
      |r.value| == |batch.ids| &&
      forall k :: 0 <= k < |r.value| ==> r.value[k].vector == VectorStructPersisted.Named(NamedPointVectors(batch.vectors.namedColumns, k).value)
    ensures batch.vectors.Named? && r.Err? ==> r.error == BadRequest(VectorInferenceMessage)
    ensures !batch.vectors.Named? && r.Err? ==> r.error == BadRequest(BatchInferenceMessage)
  {
    var payloads := batch.payloads.GetOr([]);
    match batch.vectors
    case Single(vectors) =>
      var n := Min(|batch.ids|, |vectors|);
      Ok(seq(n, k requires 0 <= k < n => PointStructPersisted(batch.ids[k], VectorStructPersisted.Single(vectors[k]), PayloadAt(payloads, k))))
    case MultiDense(vectors) =>
      var n := Min(|batch.ids|, |vectors|);
      Ok(seq(n, k requires 0 <= k < n => PointStructPersisted(batch.ids[k], VectorStructPersisted.MultiDense(vectors[k]), PayloadAt(payloads, k))))
    case Named(_) => ConvertNamedBatch(batch)
    case _ => Err(BadRequest(BatchInferenceMessage))
  }

  /** The named branch of the batch conversion: one point per id, in id order, each holding
      the names that have an entry at its position; refused when any such entry needs
      inference. */
  function ConvertNamedBatch(batch: Rest.Batch): (r: Result<seq<PointStructPersisted>, StorageError>)
    requires batch.vectors.Named?
    ensures r.Err? <==> BatchNeedsInference(batch)
    ensures r.Ok? ==> AlignedWithIds(batch, r.value) && |r.value| == |batch.ids|
    ensures r.Ok? ==>
      forall k :: 0 <= k < |r.value| ==> r.value[k].vector == VectorStructPersisted.Named(NamedPointVectors(batch.vectors.namedColumns, k).value)
    ensures r.Err? ==> r.error == BadRequest(VectorInferenceMessage)
  {
    var columns := batch.vectors.namedColumns;
    var r := Collect(Enumerate(batch.ids), (p: (nat, Rest.PointId)) => NamedBatchPoint(batch, p.0, p.1));
    assert r.Err? ==> BatchNeedsInference(batch) by {
      if r.Err? {
        var k :| 0 <= k < |batch.ids| && NamedBatchPoint(batch, k, batch.ids[k]).Err?;
        assert NamedPointVectors(columns, k).Err?;
      }
    }
    assert BatchNeedsInference(batch) ==> r.Err? by {
      if BatchNeedsInference(batch) {
        var k, name :| 0 <= k < |batch.ids| && name in columns && k < |columns[name]| && NeedsInference(columns[name][k]);
        assert Enumerate(batch.ids)[k] == (k, batch.ids[k]);
        assert NamedPointVectors(columns, k).Err?;
      }
    }
    r
  }

  /** `convert_point_insert_operations`: the points to store, with shard key and update filter
      passed through unchanged. A list converts its points in order and fails with the first
      point that fails. */
  function ConvertPointInsertOperations(op: Rest.PointInsertOperations)
    : (r: Result<(PointInsertOperationsInternal, Option<Rest.ShardKeySelector>, Option<Rest.Filter>), StorageError>)
    ensures r.Ok? ==> r.value.1 == op.shardKey && r.value.2 == op.updateFilter
    ensures op.PointsList? ==>
      (r.Ok? <==> forall k :: 0 <= k < |op.points| ==> !StructNeedsInference(op.points[k].vector))
    ensures op.PointsList? && r.Ok? ==>
      var points := r.value.0.points;
      |points| == |op.points| &&
      forall k :: 0 <= k < |points| ==>
        points[k].id == op.points[k].id && points[k].payload == op.points[k].payload &&
        RestVectorStruct(points[k].vector) == op.points[k].vector
    ensures op.PointsList? && r.Err? ==>
      exists k :: 0 <= k < |op.points| && StructNeedsInference(op.points[k].vector) &&
        r.error == StructRejection(op.points[k].vector) &&
        forall j :: 0 <= j < k ==> !StructNeedsInference(op.points[j].vector)
    ensures op.PointsBatch? ==>
      var converted := ConvertBatch(op.batch);
      (converted.Err? ==> r == Err(converted.error)) && (converted.Ok? ==> r.Ok? && r.value.0.points == converted.value)
  {
    match op
    case PointsList(points, shardKey, updateFilter) =>
      (match Collect(points, ConvertPointStruct)
       case Err(e) => Err(e)
       case Ok(converted) => Ok((PointInsertOperationsInternal.PointsList(converted), shardKey, updateFilter)))
    case PointsBatch(batch, shardKey, updateFilter) =>
      match ConvertBatch(batch)
      case Err(e) => Err(e)
      case Ok(converted) => Ok((PointInsertOperationsInternal.PointsList(converted), shardKey, updateFilter))
  }

  // ---- update operations --------------------------------------------------------------

  /** The condition an upsert is made under, if any. */
  function UpsertCondition(op: PointOperations): Option<Rest.Filter> {
    if op.UpsertPointsConditional? then Some(op.condition) else None
  }

  /** The upsert built by `do_upsert_points`: conditional, carrying the filter, exactly when an
      update filter is present; the points are the same either way. */
  function UpsertOperation(points: PointInsertOperationsInternal, updateFilter: Option<Rest.Filter>): (op: PointOperations)
    ensures op.UpsertPoints? || op.UpsertPointsConditional?
    ensures op.upsert == points
    ensures UpsertCondition(op) == updateFilter
  {
    match updateFilter
    case Some(filter) => UpsertPointsConditional(points, filter)
    case None => UpsertPoints(points)
  }

  /** The selection a delete operation stands for, given the shard key it travels with. */
  function DeletedSelection(op: PointOperations, shardKey: Option<Rest.ShardKeySelector>): Option<PointsSelector> {
    match op
    case DeletePoints(ids) => Some(PointIdsSelector(ids, shardKey))
    case DeletePointsByFilter(filter) => Some(FilterSelector(filter, shardKey))
    case _ => None
  }

  /** The delete built by `do_delete_points`: an ids selector becomes the by-id form, a filter
      selector the by-filter form, and the selector can be read back from the result. */
  function DeletePointsOperation(selector: PointsSelector): (r: (PointOperations, Option<Rest.ShardKeySelector>))
    ensures selector.PointIdsSelector? <==> r.0.DeletePoints?
    ensures DeletedSelection(r.0, r.1) == Some(selector)
  {
    match selector
    case PointIdsSelector(ids, shardKey) => (DeletePoints(ids), shardKey)
    case FilterSelector(filter, shardKey) => (DeletePointsByFilter(filter), shardKey)
  }

  /** The selection a clear operation stands for, given the shard key it travels with. */
  function ClearedSelection(op: PayloadOps, shardKey: Option<Rest.ShardKeySelector>): Option<PointsSelector> {
    match op
    case ClearPayload(ids) => Some(PointIdsSelector(ids, shardKey))
    case ClearPayloadByFilter(filter) => Some(FilterSelector(filter, shardKey))
    case _ => None
  }

  /** The clear built by `do_clear_payload`, mirroring `DeletePointsOperation`. */
  function ClearPayloadOperation(selector: PointsSelector): (r: (PayloadOps, Option<Rest.ShardKeySelector>))
    ensures selector.PointIdsSelector? <==> r.0.ClearPayload?
    ensures ClearedSelection(r.0, r.1) == Some(selector)
  {
    match selector
    case PointIdsSelector(ids, shardKey) => (PayloadOps.ClearPayload(ids), shardKey)
    case FilterSelector(filter, shardKey) => (ClearPayloadByFilter(filter), shardKey)
  }

  /** `get_shard_selector_for_update`. An explicit shard id wins (a key given as well trips a
      debug assertion and is ignored); otherwise a key selects as `shard_selector` does; with
      neither, the selector is `Empty` rather than the `All` that `shard_selector` gives. */
  function ShardSelectorForUpdate(shardSelection: Option<Internal.ShardId>, shardKey: Option<Rest.ShardKeySelector>): (s: ShardSelectorInternal)
    ensures shardSelection.Some? ==> s == ShardSelectorInternal.ShardId(shardSelection.value)
    ensures shardSelection.None? && shardKey.Some? ==> s == ShardSelector(shardKey)
    ensures shardSelection.None? && shardKey.None? ==> s.Empty? && s != ShardSelector(shardKey)
  {
    match (shardSelection, shardKey)
    case (Some(id), _) => ShardSelectorInternal.ShardId(id)
    case (None, Some(key)) => FromKey(key)
    case (None, None) => Empty
  }

  /** `do_upsert_points`: a conversion failure is the result and nothing reaches the engine;
      otherwise the engine's answer to the built upsert. */
  function DoUpsertPoints(toc: Toc, col: string, ops: Rest.PointInsertOperations, shardSelection: Option<Internal.ShardId>)
    : (r: Result<UpdateResult, StorageError>)
    ensures ConvertPointInsertOperations(ops).Err? ==> r == Err(ConvertPointInsertOperations(ops).error)
    ensures ConvertPointInsertOperations(ops).Ok? ==>
      var converted := ConvertPointInsertOperations(ops).value;
      r == toc.update(col, PointOperation(UpsertOperation(converted.0, converted.2)), ShardSelectorForUpdate(shardSelection, converted.1))
  {
    match ConvertPointInsertOperations(ops)
    case Err(e) => Err(e)
    case Ok((internalOp, shardKey, updateFilter)) =>
      toc.update(col, PointOperation(UpsertOperation(internalOp, updateFilter)), ShardSelectorForUpdate(shardSelection, shardKey))
  }

  /** `do_delete_points`: one point operation reaches the engine, the deletion of exactly the
      selected points, on the shard the selector's key picks; its answer is the result. */
  function DoDeletePoints(toc: Toc, col: string, selector: PointsSelector, shardSelection: Option<Internal.ShardId>)
    : (r: Result<UpdateResult, StorageError>)
    ensures var op := DeletePointsOperation(selector).0;
      DeletedSelection(op, selector.shardKey) == Some(selector) &&
      r == toc.update(col, PointOperation(op), ShardSelectorForUpdate(shardSelection, selector.shardKey))
  {
    var (op, shardKey) := DeletePointsOperation(selector);
    toc.update(col, PointOperation(op), ShardSelectorForUpdate(shardSelection, shardKey))
  }

  /** The point list of `do_update_vectors`: every point's vectors converted in order, the
      first failure being the result. */
  function ConvertAllPointVectors(points: seq<Rest.PointVectors>): (r: Result<seq<PointVectorsPersisted>, StorageError>)
    ensures r.Ok? <==> forall k :: 0 <= k < |points| ==> !StructNeedsInference(points[k].vector)
    ensures r.Ok? ==>
      |r.value| == |points| &&
      forall k :: 0 <= k < |points| ==>
        r.value[k].id == points[k].id && RestVectorStruct(r.value[k].vector) == points[k].vector
    ensures r.Err? ==>
      exists k :: 0 <= k < |points| && StructNeedsInference(points[k].vector) &&
        r.error == StructRejection(points[k].vector) &&
        forall j :: 0 <= j < k ==> !StructNeedsInference(points[j].vector)
  {
    Collect(points, ConvertPointVectors)
  }

  /** `do_update_vectors`: a conversion failure is the result and nothing reaches the engine;
      otherwise the engine's answer to the update, with the update filter passed through. */
  function DoUpdateVectors(toc: Toc, col: string, op: Rest.UpdateVectors, shardSelection: Option<Internal.ShardId>)
    : (r: Result<UpdateResult, StorageError>)
    ensures ConvertAllPointVectors(op.points).Err? ==> r == Err(ConvertAllPointVectors(op.points).error)
    ensures ConvertAllPointVectors(op.points).Ok? ==>
      r == toc.update(col, VectorOperation(VectorOperations.UpdateVectors(ConvertAllPointVectors(op.points).value, op.updateFilter)),
                      ShardSelectorForUpdate(shardSelection, op.shardKey))
  {
    match ConvertAllPointVectors(op.points)
    case Err(e) => Err(e)
    case Ok(converted) =>
      toc.update(col, VectorOperation(VectorOperations.UpdateVectors(converted, op.updateFilter)), ShardSelectorForUpdate(shardSelection, op.shardKey))
  }

  /** The vector deletions a request issues, in order: by filter first, then by ids. */
  function VectorDeletes(op: Internal.DeleteVectors): (ops: seq<CollectionUpdateOperations>)
    ensures |ops| == (if op.filter.Some? then 1 else 0) + (if op.points.Some? then 1 else 0)
    ensures op.filter.Some? ==> ops[0] == VectorOperation(DeleteVectorsByFilter(op.filter.value, op.vector))
    ensures op.points.Some? ==> ops[|ops| - 1] == VectorOperation(DeleteVectorsByIds(op.points.value, op.vector))
  {
    (if op.filter.Some? then [VectorOperation(DeleteVectorsByFilter(op.filter.value, op.vector))] else []) +
    (if op.points.Some? then [VectorOperation(DeleteVectorsByIds(op.points.value, op.vector))] else [])
  }

  /** What `do_delete_vectors` answers: the deletions are issued in order, the first failure
      aborts the rest and is the result, otherwise the last deletion's result is; a request
      that names neither a filter nor points is refused. */
  function DeleteVectorsOutcome(toc: Toc, col: string, op: Internal.DeleteVectors, shardSelection: Option<Internal.ShardId>)
    : (r: Result<UpdateResult, StorageError>)
    ensures op.filter.None? && op.points.None? ==> r == Err(BadRequest(NothingToDeleteMessage))
    ensures op.filter.Some? && op.points.None? ==>
      r == toc.update(col, VectorOperation(DeleteVectorsByFilter(op.filter.value, op.vector)), ShardSelectorForUpdate(shardSelection, op.shardKey))
    ensures op.filter.None? && op.points.Some? ==>
      r == toc.update(col, VectorOperation(DeleteVectorsByIds(op.points.value, op.vector)), ShardSelectorForUpdate(shardSelection, op.shardKey))
    ensures op.filter.Some? && op.points.Some? ==>
      var selector := ShardSelectorForUpdate(shardSelection, op.shardKey);
      var first := toc.update(col, VectorOperation(DeleteVectorsByFilter(op.filter.value, op.vector)), selector);
      (first.Err? ==> r == first) &&
      (first.Ok? ==> r == toc.update(col, VectorOperation(DeleteVectorsByIds(op.points.value, op.vector)), selector))
  {
    var selector := ShardSelectorForUpdate(shardSelection, op.shardKey);
    var deletes := VectorDeletes(op);
    match Collect(deletes, (u: CollectionUpdateOperations) => toc.update(col, u, selector))
    case Err(e) => Err(e)
    case Ok(results) => if results == [] then Err(BadRequest(NothingToDeleteMessage)) else Ok(results[|results| - 1])
  }

  /** `do_delete_vectors` as written: `result` starts empty, each present selection issues its
      deletion and overwrites `result`, and an empty `result` at the end is refused. */
  method DoDeleteVectors(toc: Toc, col: string, op: Internal.DeleteVectors, shardSelection: Option<Internal.ShardId>)
    returns (r: Result<UpdateResult, StorageError>)
    ensures r == DeleteVectorsOutcome(toc, col, op, shardSelection)
  {
    var result: Option<UpdateResult> := None;
    var selector := ShardSelectorForUpdate(shardSelection, op.shardKey);
    if op.filter.Some? {
      var res := toc.update(col, VectorOperation(DeleteVectorsByFilter(op.filter.value, op.vector)), selector);
      if res.Err? {
        return Err(res.error);
      }
      result := Some(res.value);
    }
    if op.points.Some? {
      var res := toc.update(col, VectorOperation(DeleteVectorsByIds(op.points.value, op.vector)), selector);
      if res.Err? {
        return Err(res.error);
      }
      result := Some(res.value);
    }
    if result.None? {
      return Err(BadRequest(NothingToDeleteMessage));
    }
    return Ok(result.value);
  }

  /** The payload operation a set or overwrite request carries: everything but the shard key. */
  function SetPayloadOperation(p: Internal.SetPayload): (op: SetPayloadOp)
    ensures op.payload == p.payload && op.points == p.points && op.filter == p.filter && op.key == p.key
  {
    SetPayloadOp(p.payload, p.points, p.filter, p.key)
  }

  /** `do_set_payload`: one payload operation reaches the engine, setting the request's
      payload (under its key, if any) on its points or filter, on the shard its key picks. */
  function DoSetPayload(toc: Toc, col: string, p: Internal.SetPayload, shardSelection: Option<Internal.ShardId>)
    : (r: Result<UpdateResult, StorageError>)
    ensures r == toc.update(col, PayloadOperation(PayloadOps.SetPayload(SetPayloadOp(p.payload, p.points, p.filter, p.key))),
                            ShardSelectorForUpdate(shardSelection, p.shardKey))
  {
    toc.update(col, PayloadOperation(PayloadOps.SetPayload(SetPayloadOperation(p))), ShardSelectorForUpdate(shardSelection, p.shardKey))
  }

  /** `do_overwrite_payload`: as `do_set_payload`, with the same operation sent as an
      overwrite. */
  function DoOverwritePayload(toc: Toc, col: string, p: Internal.SetPayload, shardSelection: Option<Internal.ShardId>)
    : (r: Result<UpdateResult, StorageError>)
    ensures r == toc.update(col, PayloadOperation(PayloadOps.OverwritePayload(SetPayloadOp(p.payload, p.points, p.filter, p.key))),
                            ShardSelectorForUpdate(shardSelection, p.shardKey))
  {
    toc.update(col, PayloadOperation(PayloadOps.OverwritePayload(SetPayloadOperation(p))), ShardSelectorForUpdate(shardSelection, p.shardKey))
  }

  /** `do_delete_payload`: one payload operation reaches the engine, deleting the request's
      keys from its points or filter, on the shard its key picks. */
  function DoDeletePayload(toc: Toc, col: string, p: Internal.DeletePayload, shardSelection: Option<Internal.ShardId>)
    : (r: Result<UpdateResult, StorageError>)
    ensures r == toc.update(col, PayloadOperation(PayloadOps.DeletePayload(DeletePayloadOp(p.keys, p.points, p.filter))),
                            ShardSelectorForUpdate(shardSelection, p.shardKey))
  {
    toc.update(col, PayloadOperation(PayloadOps.DeletePayload(DeletePayloadOp(p.keys, p.points, p.filter))), ShardSelectorForUpdate(shardSelection, p.shardKey))
  }

  /** `do_clear_payload`: one payload operation reaches the engine, clearing exactly the
      selected points, on the shard the selector's key picks. */
  function DoClearPayload(toc: Toc, col: string, selector: PointsSelector, shardSelection: Option<Internal.ShardId>)
    : (r: Result<UpdateResult, StorageError>)
    ensures var op := ClearPayloadOperation(selector).0;
      ClearedSelection(op, selector.shardKey) == Some(selector) &&
      r == toc.update(col, PayloadOperation(op), ShardSelectorForUpdate(shardSelection, selector.shardKey))
  {
    var (op, shardKey) := ClearPayloadOperation(selector);
    toc.update(col, PayloadOperation(op), ShardSelectorForUpdate(shardSelection, shardKey))
  }

  // ---- handler ----------------------------------------------------------------------

  /** A retrieved point as handed back: its rendered id, its payload as JSON, no vector. */
  function ToLocalRecord(rec: Record, fmt: Fmt): (l: LocalRecord)
    ensures l.id == fmt.debugId(rec.id) && l.vector.None?
    ensures l.payload.Some? <==> rec.payload.Some?
    ensures rec.payload.Some? ==> l.payload.value == fmt.payloadJson(rec.payload.value)
  {
    LocalRecord(fmt.debugId(rec.id), if rec.payload.Some? then Some(fmt.payloadJson(rec.payload.value)) else None, None)
  }

  /** An update request: every request but `Get` and `Count`. */
  predicate IsUpdate(req: PointsRequest) {
    !req.Get? && !req.Count?
  }

  /** The outcome `ret` of an update arm of the handler: the request goes to its own `do_*`
      function with no explicit shard id. */
  function UpdateOutcome(req: PointsRequest, toc: Toc): (r: Result<UpdateResult, StorageError>)
    requires IsUpdate(req)
    ensures req.Delete? ==> r == DoDeletePoints(toc, req.col, req.selector, None)
    ensures req.Upsert? ==> r == DoUpsertPoints(toc, req.col, req.upsert, None)
    ensures req.UpdateVectors? ==> r == DoUpdateVectors(toc, req.col, req.updateVectors, None)
    ensures req.DeleteVectors? ==> r == DeleteVectorsOutcome(toc, req.col, req.deleteVectors, None)
    ensures req.SetPayload? ==> r == DoSetPayload(toc, req.col, req.setPayload, None)
    ensures req.OverwritePayload? ==> r == DoOverwritePayload(toc, req.col, req.setPayload, None)
    ensures req.DeletePayload? ==> r == DoDeletePayload(toc, req.col, req.deletePayload, None)
    ensures req.ClearPayload? ==> r == DoClearPayload(toc, req.col, req.selector, None)
  {
    match req
    case Delete(col, selector) => DoDeletePoints(toc, col, selector, None)
    case Upsert(col, ops) => DoUpsertPoints(toc, col, ops, None)
    case UpdateVectors(col, ops) => DoUpdateVectors(toc, col, ops, None)
    case DeleteVectors(col, ops) => DeleteVectorsOutcome(toc, col, ops, None)
    case SetPayload(col, p) => DoSetPayload(toc, col, p, None)
    case OverwritePayload(col, p) => DoOverwritePayload(toc, col, p, None)
    case DeletePayload(col, p) => DoDeletePayload(toc, col, p, None)
    case ClearPayload(col, selector) => DoClearPayload(toc, col, selector, None)
  }

  /** The answer of an update arm: the engine's acknowledgement in the same-named variant. */
  function UpdateAnswer(req: PointsRequest, u: UpdateResult): (resp: PointsResponse)
    requires IsUpdate(req)
    ensures PointsAnswers(req, resp) && resp.result == u
  {
    match req
    case Delete(_, _) => PointsResponse.Delete(u)
    case Upsert(_, _) => PointsResponse.Upsert(u)
    case UpdateVectors(_, _) => PointsResponse.UpdateVectors(u)
    case DeleteVectors(_, _) => PointsResponse.DeleteVectors(u)
    case SetPayload(_, _) => PointsResponse.SetPayload(u)
    case OverwritePayload(_, _) => PointsResponse.OverwritePayload(u)
    case DeletePayload(_, _) => PointsResponse.DeletePayload(u)
    case ClearPayload(_, _) => PointsResponse.ClearPayload(u)
  }

  /** `Handler for PointsRequest`: each request is answered by its same-named response
      variant, with the engine's error unchanged; updates go through the `do_*` functions with
      no explicit shard id; retrieved records keep their order and never carry a vector. */
  function HandlePoints(req: PointsRequest, toc: Toc, fmt: Fmt): (r: Result<PointsResponse, StorageError>)
    ensures r.Ok? ==> PointsAnswers(req, r.value)
    ensures req.Get? ==>
      var got := toc.retrieve(req.col, req.getRequest.pointRequest, ShardSelector(req.getRequest.shardKey));
      (got.Err? ==> r == Err(got.error)) &&
      (got.Ok? ==>
         r.Ok? && |r.value.records| == |got.value| &&
         forall k :: 0 <= k < |got.value| ==> r.value.records[k] == ToLocalRecord(got.value[k], fmt) && r.value.records[k].vector.None?)
    ensures req.Count? ==>
      var got := toc.count(req.col, req.countRequest.countRequest, ShardSelector(req.countRequest.shardKey));
      (got.Err? ==> r == Err(got.error)) && (got.Ok? ==> r == Ok(PointsResponse.Count(got.value)))
    ensures IsUpdate(req) ==>
      var got := UpdateOutcome(req, toc);
      (got.Err? ==> r == Err(got.error)) && (got.Ok? ==> r == Ok(UpdateAnswer(req, got.value)))
  {
    match req
    case Get(col, request) =>
      (match toc.retrieve(col, request.pointRequest, ShardSelector(request.shardKey))
       case Err(e) => Err(e)
       case Ok(recs) => Ok(PointsResponse.Get(seq(|recs|, k requires 0 <= k < |recs| => ToLocalRecord(recs[k], fmt)))))
    case Count(col, request) =>
      (match toc.count(col, request.countRequest, ShardSelector(request.shardKey))
       case Err(e) => Err(e)
       case Ok(c) => Ok(PointsResponse.Count(c)))
    case _ =>
      match UpdateOutcome(req, toc)
      case Err(e) => Err(e)
      case Ok(u) => Ok(UpdateAnswer(req, u))
  }
}
