/** Collection and alias requests and their handlers (`ops/collections.rs`). */
module Collections {
  import opened Wrappers
  import opened Errors
  import Rest
  import opened Internal
  import opened Engine
  import opened Ops

  datatype CollectionRequest =
    | List
    | Get(name: ColName)
    | GetWithShard(name: ColName, shardKey: Option<Rest.ShardKeySelector>)
    | Create(name: ColName, create: Internal.CreateCollection)
    | Update(name: ColName, update: Internal.UpdateCollection)
    | Delete(name: ColName)

  datatype AliasRequest =
    | List
    | Get(collectionName: ColName)
    | Create(collectionName: ColName, aliasName: string)
    | Delete(aliasName: string)
    | Rename(oldAliasName: string, newAliasName: string)

  datatype CollectionResponse =
    | List(names: seq<string>)
    | Get(info: CollectionInfo)
    | Create(created: bool)
    | Update(updated: bool)
    | Delete(deleted: bool)

  datatype AliasResponse =
    | List(aliases: CollectionsAliasesResponse)
    | Get(aliases: CollectionsAliasesResponse)
    | Create(created: bool)
    | Delete(deleted: bool)
    | Rename(renamed: bool)

  /** The response variant that answers a collection request; both lookups are answered by `Get`. */
  predicate CollectionAnswers(req: CollectionRequest, resp: CollectionResponse) {
    match req
    case List => resp.List?
    case Get(_) => resp.Get?
    case GetWithShard(_, _) => resp.Get?
    case Create(_, _) => resp.Create?
    case Update(_, _) => resp.Update?
    case Delete(_) => resp.Delete?
  }

  /** The response variant that answers an alias request. */
  predicate AliasAnswers(req: AliasRequest, resp: AliasResponse) {
    match req
    case List => resp.List?
    case Get(_) => resp.Get?
    case Create(_, _) => resp.Create?
    case Delete(_) => resp.Delete?
    case Rename(_, _) => resp.Rename?
  }

  // ---- alias operation builders ---------------------------------------------------

  /** The single alias action a change operation carries, if it carries exactly one. */
  function SoleAction(op: ChangeAliasesOperation): Option<AliasOperations> {
    if |op.actions| == 1 then Some(op.actions[0]) else None
  }

  /** `create_alias_op`: one creation action, names unchanged. */
  function CreateAliasOp(collectionName: string, aliasName: string): (op: ChangeAliasesOperation)
    ensures SoleAction(op) == Some(CreateAlias(collectionName, aliasName))
  {
    ChangeAliasesOperation([CreateAlias(collectionName, aliasName)])
  }

  /** `delete_alias_op`: one deletion action, name unchanged. */
  function DeleteAliasOp(aliasName: string): (op: ChangeAliasesOperation)
    ensures SoleAction(op) == Some(DeleteAlias(aliasName))
  {
    ChangeAliasesOperation([DeleteAlias(aliasName)])
  }

  /** `rename_alias_op`: one rename action, old and new names unchanged and in that order. */
  function RenameAliasOp(oldAliasName: string, newAliasName: string): (op: ChangeAliasesOperation)
    ensures SoleAction(op) == Some(RenameAlias(oldAliasName, newAliasName))
  {
    ChangeAliasesOperation([RenameAlias(oldAliasName, newAliasName)])
  }

  // ---- lookups --------------------------------------------------------------------

  /** The names of the collections the engine lists, one per collection, in its order. */
  function CollectionNames(toc: Toc): (names: seq<string>)
    ensures |names| == |toc.allCollections|
    ensures forall i :: 0 <= i < |names| ==> names[i] == toc.passName(toc.allCollections[i])
  {
    seq(|toc.allCollections|, i requires 0 <= i < |toc.allCollections| => toc.passName(toc.allCollections[i]))
  }

  /** `do_get_collection`: the access check comes first and a refusal is the result; then the
      lookup, whose failure is the result; then the info for the shards `shard_selector` picks,
      whose collection-layer error is converted into a storage error. */
  function DoGetCollection(toc: Toc, name: string, shardKey: Option<Rest.ShardKeySelector>): (r: Result<CollectionInfo, StorageError>)
    ensures toc.checkCollectionAccess(name).Err? ==> r == Err(toc.checkCollectionAccess(name).error)
    ensures toc.checkCollectionAccess(name).Ok? ==>
      var found := toc.getCollection(toc.checkCollectionAccess(name).value);
      (found.Err? ==> r == Err(found.error)) &&
      (found.Ok? ==>
        var info := toc.collectionInfo(found.value, ShardSelector(shardKey));
        (info.Ok? ==> r == Ok(info.value)) &&
        (info.Err? ==> r == Err(toc.storageFromCollection(info.error))))
  {
    match toc.checkCollectionAccess(name)
    case Err(e) => Err(e)
    case Ok(pass) =>
      match toc.getCollection(pass)
      case Err(e) => Err(e)
      case Ok(collection) =>
        match toc.collectionInfo(collection, ShardSelector(shardKey))
        case Err(e) => Err(toc.storageFromCollection(e))
        case Ok(info) => Ok(info)
  }

  /** The aliases of one collection, each paired with the collection name it was asked for,
      in the order the engine lists them; the access check comes first. */
  function CollectionAliases(toc: Toc, collectionName: string): (r: Result<CollectionsAliasesResponse, StorageError>)
    ensures toc.checkCollectionAccess(collectionName).Err? ==> r == Err(toc.checkCollectionAccess(collectionName).error)
    ensures toc.checkCollectionAccess(collectionName).Ok? ==>
      var names := toc.collectionAliases(toc.checkCollectionAccess(collectionName).value);
      (names.Err? ==> r == Err(names.error)) &&
      (names.Ok? ==>
         r.Ok? && |r.value.aliases| == |names.value| &&
         forall i :: 0 <= i < |names.value| ==> r.value.aliases[i] == AliasDescription(names.value[i], collectionName))
  {
    match toc.checkCollectionAccess(collectionName)
    case Err(e) => Err(e)
    case Ok(pass) =>
      match toc.collectionAliases(pass)
      case Err(e) => Err(e)
      case Ok(names) =>
        Ok(CollectionsAliasesResponse(seq(|names|, i requires 0 <= i < |names| => AliasDescription(names[i], collectionName))))
  }

  /** `do_list_collection_aliases`, with its loop: the access check, then one description per
      alias pushed in order. */
  method DoListCollectionAliases(toc: Toc, collectionName: string) returns (r: Result<CollectionsAliasesResponse, StorageError>)
    ensures r == CollectionAliases(toc, collectionName)
  {
    var pass := toc.checkCollectionAccess(collectionName);
    if pass.Err? {
      return Err(pass.error);
    }
    var names := toc.collectionAliases(pass.value);
    if names.Err? {
      return Err(names.error);
    }
    var aliases: seq<AliasDescription> := [];
    var i := 0;
    while i < |names.value|
      invariant 0 <= i <= |names.value|
      invariant |aliases| == i
      invariant forall k :: 0 <= k < i ==> aliases[k] == AliasDescription(names.value[k], collectionName)
    {
      aliases := aliases + [AliasDescription(names.value[i], collectionName)];
      i := i + 1;
    }
    assert aliases == seq(|names.value|, k requires 0 <= k < |names.value| => AliasDescription(names.value[k], collectionName));
    return Ok(CollectionsAliasesResponse(aliases));
  }

  // ---- handlers -------------------------------------------------------------------

  /** `Handler for CollectionRequest`: every request is answered by its own response variant,
      and an error from validation or from the engine is the result, unchanged. */
  function HandleCollection(req: CollectionRequest, toc: Toc): (r: Result<CollectionResponse, StorageError>)
    ensures r.Ok? ==> CollectionAnswers(req, r.value)
    ensures req.List? ==> r == Ok(CollectionResponse.List(CollectionNames(toc)))
    ensures (req.Get? || req.GetWithShard?) ==>
      var found := DoGetCollection(toc, req.name, if req.Get? then None else req.shardKey);
      (found.Ok? ==> r == Ok(CollectionResponse.Get(found.value))) && (found.Err? ==> r == Err(found.error))
    ensures req.Create? ==>
      var valid := toc.newCreateCollection(req.name, req.create);
      (valid.Err? ==> r == Err(valid.error)) &&
      (valid.Ok? ==> MetaOutcome(r, toc.performCollectionMetaOp(CollectionMetaOperations.CreateCollection(valid.value))))
    ensures req.Update? ==>
      MetaOutcome(r, toc.performCollectionMetaOp(CollectionMetaOperations.UpdateCollection(req.name, req.update)))
    ensures req.Delete? ==>
      MetaOutcome(r, toc.performCollectionMetaOp(DeleteCollection(req.name)))
  {
    match req
    case List => Ok(CollectionResponse.List(CollectionNames(toc)))
    case Get(name) =>
      (match DoGetCollection(toc, name, None)
       case Err(e) => Err(e)
       case Ok(info) => Ok(CollectionResponse.Get(info)))
    case GetWithShard(name, shardKey) =>
      (match DoGetCollection(toc, name, shardKey)
       case Err(e) => Err(e)
       case Ok(info) => Ok(CollectionResponse.Get(info)))
    case Create(name, create) =>
      (match toc.newCreateCollection(name, create)
       case Err(e) => Err(e)
       case Ok(op) =>
         match toc.performCollectionMetaOp(CollectionMetaOperations.CreateCollection(op))
         case Err(e) => Err(e)
         case Ok(done) => Ok(CollectionResponse.Create(done)))
    case Update(name, update) =>
      (match toc.performCollectionMetaOp(CollectionMetaOperations.UpdateCollection(name, update))
       case Err(e) => Err(e)
       case Ok(done) => Ok(CollectionResponse.Update(done)))
    case Delete(name) =>
      match toc.performCollectionMetaOp(DeleteCollection(name))
      case Err(e) => Err(e)
      case Ok(done) => Ok(CollectionResponse.Delete(done))
  }

  /** The status flag a collection or alias response reports, if it reports one. */
  function CollectionStatus(resp: CollectionResponse): Option<bool> {
    match resp
    case Create(b) => Some(b)
    case Update(b) => Some(b)
    case Delete(b) => Some(b)
    case _ => None
  }

  function AliasStatus(resp: AliasResponse): Option<bool> {
    match resp
    case Create(b) => Some(b)
    case Delete(b) => Some(b)
    case Rename(b) => Some(b)
    case _ => None
  }

  /** A meta operation's result relayed: its error unchanged, or its status flag. */
  predicate MetaOutcome(r: Result<CollectionResponse, StorageError>, engine: Result<bool, StorageError>) {
    (engine.Err? ==> r == Err(engine.error)) &&
    (engine.Ok? ==> r.Ok? && CollectionStatus(r.value) == Some(engine.value))
  }

  predicate AliasMetaOutcome(r: Result<AliasResponse, StorageError>, engine: Result<bool, StorageError>) {
    (engine.Err? ==> r == Err(engine.error)) &&
    (engine.Ok? ==> r.Ok? && AliasStatus(r.value) == Some(engine.value))
  }

  /** `Handler for AliasRequest`: every request is answered by its own response variant, a
      change is sent to the engine as the one matching alias action, and an engine error is
      the result, unchanged. */
  function HandleAlias(req: AliasRequest, toc: Toc): (r: Result<AliasResponse, StorageError>)
    ensures r.Ok? ==> AliasAnswers(req, r.value)
    ensures req.List? ==>
      (toc.listAliases.Err? ==> r == Err(toc.listAliases.error)) &&
      (toc.listAliases.Ok? ==> r == Ok(AliasResponse.List(CollectionsAliasesResponse(toc.listAliases.value))))
    ensures req.Get? ==>
      var found := CollectionAliases(toc, req.collectionName);
      (found.Err? ==> r == Err(found.error)) && (found.Ok? ==> r == Ok(AliasResponse.Get(found.value)))
    ensures req.Create? ==>
      AliasMetaOutcome(r, toc.performCollectionMetaOp(ChangeAliases(CreateAliasOp(req.collectionName, req.aliasName))))
    ensures req.Delete? ==>
      AliasMetaOutcome(r, toc.performCollectionMetaOp(ChangeAliases(DeleteAliasOp(req.aliasName))))
    ensures req.Rename? ==>
      AliasMetaOutcome(r, toc.performCollectionMetaOp(ChangeAliases(RenameAliasOp(req.oldAliasName, req.newAliasName))))
  {
    match req
    case List =>
      (match toc.listAliases
       case Err(e) => Err(e)
       case Ok(aliases) => Ok(AliasResponse.List(CollectionsAliasesResponse(aliases))))
    case Get(name) =>
      (match CollectionAliases(toc, name)
       case Err(e) => Err(e)
       case Ok(aliases) => Ok(AliasResponse.Get(aliases)))
    case Create(collectionName, aliasName) =>
      (match toc.performCollectionMetaOp(ChangeAliases(CreateAliasOp(collectionName, aliasName)))
       case Err(e) => Err(e)
       case Ok(done) => Ok(AliasResponse.Create(done)))
    case Delete(aliasName) =>
      (match toc.performCollectionMetaOp(ChangeAliases(DeleteAliasOp(aliasName)))
       case Err(e) => Err(e)
       case Ok(done) => Ok(AliasResponse.Delete(done)))
    case Rename(oldName, newName) =>
      match toc.performCollectionMetaOp(ChangeAliases(RenameAliasOp(oldName, newName)))
      case Err(e) => Err(e)
      case Ok(done) => Ok(AliasResponse.Rename(done))
  }
}
