# qdrantrs-port embedding bridge, modelled in Dafny

The repository embeds a vector-storage engine in a process. The caller holds a handle
(`QdrantClient`, also called `RroClient`). The handle sends typed requests over a bounded
channel to a worker thread. The worker thread owns the engine (`TableOfContent`). Each
request travels with a one-shot reply slot. The worker spawns one task per request, and
each task runs the request's handler on its own engine handle and writes the result to the
slot.

When the handle is dropped, it closes its sender. The worker's receive loop then drains the
channel and ends. Afterwards the worker waits until it is the only owner of the engine,
drops the engine and fires a termination signal. The handle polls for that signal every
50 ms, giving up after 30 s.

The model covers four parts:

- **Round trip and response check** (`client.dfy`, `error.dfy`). `SendRequestWithTimeout`
  folds the four ways a round trip can end into one result. Each of the 25 typed methods
  accepts only its own response variant. Any other variant becomes an "unexpected
  response" error.
- **Worker life and shutdown** (`instance.dfy`, `client.dfy`). `Instance.Worker` is a class
  whose fields are the channel buffer, the reply slots, the running tasks, the engine's
  reference count, the termination signal and the time slept. Its methods are the steps
  of `RROInstance::start`'s thread. `Client.RroClient.Drop` is the handle's poll loop.
- **Dispatch** (`instance.dfy`, `collections.dfy`, `points.dfy`, `query.dfy`). Each request
  category, and each operation within it, yields the response variant of the same name.
  Engine errors pass through unchanged.
- **REST-to-internal conversions** (`points.dfy`, `query.dfy`, `ops.dfy`). These include the
  vector, point, batch and query conversions, the shard-selection rules and the
  rejection of vector kinds that need inference.

The engine is the datatype `Engine.Toc`, whose fields are functions returning `Result`.
Each is one engine call; the access check is one of them. Debug rendering of ids and
responses and JSON conversion of payloads are function parameters (`Engine.Fmt`,
`Client.Endpoint.debug`). Schema types the bridge only passes along are abstract types.
Threads, timers and the channels are replaced by fields and by parameters that supply what
the environment does:

- `Client.Endpoint.deliver` gives the outcome of one round trip;
- `Drop`'s `polls` gives what each `try_recv` sees;
- `Reclaim`'s `finishing` gives which tasks finish during each 300 ms wait.

A successful round trip never carries a collection-layer error. `Client.SendRequest`'s
contract states this, so `get_collection`'s first "not found" arm (src/client.rs:137) is
dead as written. The model keeps the arm inside `Client.IsNotFound`.

## Model

| member | source | states |
|---|---|---|
| Errors.Unexpected | src/error.rs:43-49 | the error is `UnexpectedResponse`, with the expectation kept verbatim and the debug rendering of the actual value; it carries no engine error |
| Errors.FromStorage | src/error.rs:14-16 | a storage error is wrapped unchanged and can be recovered; it is not a collection error |
| Errors.FromCollection | src/error.rs:10-12 | a collection error is wrapped unchanged and can be recovered; it is not a storage error |
| Ops.ShardSelector | src/ops/mod.rs:14-19 | no key selects all shards and a key selects exactly that key; the result is never `Empty` or a shard id, so the function is total with no error case |
| Collections.CreateAliasOp | src/ops/collections.rs:178-185 | the operation holds exactly one action, a create with the names unchanged |
| Collections.DeleteAliasOp | src/ops/collections.rs:187-191 | the operation holds exactly one action, a delete of that alias |
| Collections.RenameAliasOp | src/ops/collections.rs:193-200 | the operation holds exactly one action, a rename from the old name to the new one |
| Collections.CollectionNames | src/ops/collections.rs:85-92 | one name per collection, in the order the engine lists them |
| Collections.DoGetCollection | src/ops/collections.rs:227-242 | a failed access check aborts before the lookup; a failed lookup passes its error; the info uses the shard selection of `shard_selector(shard_key)`, and a collection error is converted into a storage error |
| Collections.CollectionAliases | src/ops/collections.rs:210-225 | a failed access check or alias lookup aborts with its error; otherwise each alias name is paired with the queried collection, in order |
| Collections.DoListCollectionAliases | src/ops/collections.rs:210-225 | the push loop builds exactly `CollectionAliases` |
| Collections.HandleCollection | src/ops/collections.rs:81-124 | every success is the matching response variant (`GetWithShard` answered by `Get`); `List` lists the names; both lookups relay `DoGetCollection`; `Create` validates first and aborts on a validation error; create, update and delete relay the engine's meta-operation result |
| Collections.HandleAlias | src/ops/collections.rs:132-163 | every success is the matching variant; listing relays the engine's aliases or its error; `Get` relays `CollectionAliases`; create, delete and rename send the single-action operation and relay the engine's result |
| Points.ConvertVector | src/ops/points.rs:277-289 | dense, sparse and multi-dense vectors convert one-to-one and can be recovered; document, image and object are rejected with the inference `bad_request`, and nothing else is |
| Points.ConvertVectorStruct | src/ops/points.rs:252-274 | single, multi-dense and named convert and can be recovered (every named entry kept under its name); a struct fails exactly when it, or one named entry, needs inference |
| Points.ConvertPointStruct | src/ops/points.rs:292-298 | id and payload are kept and the vector converted; it fails exactly when the vector does, with the vector's error |
| Points.ConvertPointVectors | src/ops/points.rs:301-306 | id kept, vector converted; it fails exactly when the vector does |
| Points.NamedPointVectors | src/ops/points.rs:361-366 | the `i`-th point's map holds exactly the names that have an `i`-th vector, each converted; it fails iff one of them needs inference |
| Points.FillPointVectors | src/ops/points.rs:361-366 | the insertion loop builds exactly `NamedPointVectors` |
| Points.ConvertBatch | src/ops/points.rs:323-379 | Single and MultiDense pair `ids[k]` with `vectors[k]` for the shorter length; Named gives one point per id; every point takes `payloads[k]` when present; inference kinds are rejected with their messages |
| Points.ConvertNamedBatch | src/ops/points.rs:356-372 | one point per id, with the `k`-th named vectors; it fails iff some `k`-th vector needs inference |
| Points.Enumerate | src/ops/points.rs:325-327 | pairs each element with its position |
| Points.ConvertPointInsertOperations | src/ops/points.rs:310-385 | shard key and update filter pass through; a list converts its points in order, keeping id and payload, failing iff one needs inference, with the first failure's error; a batch relays `ConvertBatch` |
| Points.UpsertOperation | src/ops/points.rs:401-409 | the result is the conditional upsert carrying the filter iff an update filter is present, over the same points |
| Points.DeletePointsOperation | src/ops/points.rs:437-444 | an id selector becomes delete-by-ids, a filter selector delete-by-filter; the selection and shard key can be recovered |
| Points.ClearPayloadOperation | src/ops/points.rs:684-691 | an id selector becomes clear-by-ids, a filter selector clear-by-filter; the selection and shard key can be recovered |
| Points.ShardSelectorForUpdate | src/ops/points.rs:708-724 | a shard id wins, with or without a key; otherwise a key converts as `shard_selector` does; with neither, the result is `Empty`, unlike `shard_selector` |
| Points.DoUpsertPoints | src/ops/points.rs:387-424 | a conversion error aborts before the engine is called; otherwise the update is the upsert operation with the update shard selector |
| Points.ConvertAllPointVectors | src/ops/points.rs:472-473 | all points convert in order, or the first failure's error is returned |
| Points.DoUpdateVectors | src/ops/points.rs:460-494 | a conversion error aborts; otherwise one vector update with the filter and the update shard selector |
| Points.VectorDeletes | src/ops/points.rs:512-551 | one update per given selection, the filter's first |
| Points.DeleteVectorsOutcome | src/ops/points.rs:496-554 | filter alone, points alone, or both (filter first, the first error aborting, the second result returned); neither gives `bad_request("No filter or points provided")` |
| Points.DoDeleteVectors | src/ops/points.rs:496-554 | the two-step update of `result` computes exactly `DeleteVectorsOutcome` |
| Points.SetPayloadOperation | src/ops/points.rs:565-580 | the payload, points, filter and key are carried over unchanged |
| Points.DoDeletePoints | src/ops/points.rs:426-458 | one point operation reaches the engine, from which the selector is recovered; the shard selector is the update selector of the selector's own key; the engine's answer is the result |
| Points.DoSetPayload | src/ops/points.rs:556-594 | one set-payload operation with the request's payload, points, filter and key, on the update selector of the request's shard key; the engine's answer is the result |
| Points.DoOverwritePayload | src/ops/points.rs:596-634 | the same operation sent as an overwrite, on the same shard selector |
| Points.DoDeletePayload | src/ops/points.rs:636-672 | one delete-payload operation with the request's keys, points and filter, on the update selector of its shard key |
| Points.DoClearPayload | src/ops/points.rs:674-706 | one clear operation, from which the selector is recovered, on the update selector of the selector's own key |
| Points.UpdateOutcome | src/ops/points.rs:138-239 | each update request goes to its own `do_*` function, with no explicit shard id |
| Points.UpdateAnswer | src/ops/points.rs:138-239 | the engine's acknowledgement comes back in the variant named after the request |
| Points.ToLocalRecord | src/ops/points.rs:114-121 | the id is the debug rendering, the payload is present iff it was (as JSON), and the vector is always absent |
| Points.HandlePoints | src/ops/points.rs:90-242 | every success is the same-named variant; `Get` relays the retrieve error or renders every retrieved record, in order, without its vector; `Count` relays the engine's error or its count; every update arm relays its `do_*` function's error unchanged or wraps its acknowledgement |
| Queries.FromScored | src/ops/query.rs:46-55 | rendered id, score kept, payload as JSON iff present, vector always absent |
| Queries.ToLocal | src/ops/query.rs:119-121 | every scored point converted, in order |
| Queries.ToLocalBatches | src/ops/query.rs:150-154 | every batch converted, in order |
| Queries.ConvertVectorInput | src/ops/query.rs:428-446 | id, dense, sparse and multi-dense inputs convert one-to-one and can be recovered; document, image and object are rejected with `bad_request`, exactly those |
| Queries.ContextPairFromRest | src/ops/query.rs:448-456 | both sides converted; the pair fails iff either side fails |
| Queries.ConvertInputs | src/ops/query.rs:374-383 | all inputs convert in order, or the inference error |
| Queries.ConvertPairs | src/ops/query.rs:400-405 | all pairs convert in order, or the inference error |
| Queries.ConvertQuery | src/ops/query.rs:347-426 | Nearest becomes `NearestWithMmr` iff `mmr` is given, with its fields copied; Recommend treats absent lists as empty and selects the defaulted strategy; Discover and Context convert their pairs; order-by, fusion, RRF, formula and sample always succeed |
| Queries.ConvertQueryOption | src/ops/query.rs:289-291 | an absent query stays absent; a present one converts as `ConvertQuery` does |
| Queries.ConvertPrefetch | src/ops/query.rs:308-345 | the request defaults apply at every depth, the nesting is kept, and any nested failure fails the whole |
| Queries.ConvertPrefetches | src/ops/query.rs:325-333 | each prefetch converts in order; the list fails iff one does |
| Queries.ConvertQueryRequest | src/ops/query.rs:262-306 | `using`, limit, offset, with_vector and with_payload take their defaults; an absent prefetch becomes an empty list; the other fields pass through; it fails iff a stage or the query needs inference |
| Queries.DoCoreSearchPoints | src/ops/query.rs:464-491 | a one-element batch is sent; its first result is returned, or `service_error("Empty search result")` if none |
| Queries.SearchBatchRequests | src/ops/query.rs:125-139 | one engine request per search, in order, each with `shard_selector` of its own key: `All` exactly when no key is given, and the key recoverable otherwise |
| Queries.RecommendBatchRequests | src/ops/query.rs:608-627 | one engine request per recommendation, in order, each with `shard_selector` of its own key: `All` exactly when no key is given, and the key recoverable otherwise |
| Queries.HandleQuery | src/ops/query.rs:98-258 | every success is the same-named variant; in every arm the engine's error comes back unchanged and a success is the engine's answer converted by `ToLocal`, `ToLocalBatches` or kept as groups; a universal query fails with the conversion error before the engine is called, and otherwise returns the first result of its one-element batch, or an empty list |
| Instance.Handle | src/instance.rs:100-119 | every success is the response of the request's own category and operation; for each category, the result is an error exactly when that category's handler gives one, the same error, and otherwise the handler's response wrapped in the category |
| Instance.ServingHandles | src/instance.rs:50-56 | once the engine is up, a spawned task's result is `Handle` on that engine, so it answers its request |
| Instance.Spawned | src/instance.rs:53-60 | one task per buffered message, in order, holding that message's slot and handling |
| Instance.Delivered | src/instance.rs:56-58 | only the finished task's slot changes; an awaited slot takes the result, and one whose caller left is untouched |
| Instance.DroppedUnused | src/instance.rs:50 | every awaited slot becomes unanswered and no slot is awaited any more |
| Instance.RemoveDistinct | src/instance.rs:56-58 | a finished task's slot leaves the pending ones, and every other stays pending |
| Instance.CompleteKeepsSlots | src/instance.rs:54-60 | after a task replies, every pending slot still has its unused responder and every awaited slot is still pending |
| Instance.CompleteKeepsWork | src/instance.rs:54-60 | after a task replies, every result sent or held is the handling of its own slot's request |
| Instance.EnqueueKeepsSlots | src/instance.rs:43 | a new request takes a fresh, awaited slot at the back of the pending ones |
| Instance.EnqueueKeepsWork | src/instance.rs:43 | a new message carries the request its slot is opened for |
| Instance.DropKeepsSlots | src/instance.rs:50 | if startup fails before any task runs, dropping the buffer leaves nothing pending and the invariants hold |
| Instance.Worker.constructor | src/instance.rs:42-46 | both channels are open, nothing is buffered or running, and the signal is armed |
| Instance.Worker.Send | src/client.rs:485 | a closed receiver refuses, changing nothing; with 1024 messages buffered the send cannot complete yet (`Full`: the state is unchanged, and the sender's wait for room is a later `Send`); otherwise the message is buffered with a fresh awaited slot |
| Instance.Worker.Abandon | src/client.rs:488-491 | a caller that stops waiting gives up its slot, which is otherwise unchanged |
| Instance.Worker.CloseSender | src/client.rs:33-35 | only the sender closes |
| Instance.Worker.Boot | src/instance.rs:50-51 | on success the engine is held twice and accepting begins; on failure the buffer is dropped, every awaited slot goes unanswered and the signal is dropped without firing |
| Instance.Worker.Receive | src/instance.rs:53-61 | the oldest message is taken and a task with its handling is spawned on one more engine handle |
| Instance.Worker.Dispatch | src/instance.rs:53-62 | the receive loop spawns a task for every buffered message, in order; it ends iff the sender is closed, and then only the reclaim handle and the tasks' handles remain |
| Instance.Worker.CompleteTask | src/instance.rs:56-60 | the task's slot was open; its result is delivered to exactly that slot, a failed delivery is only counted, and one engine handle is released |
| Instance.Worker.Finish | src/instance.rs:69-76 | with the sole handle, the engine is dropped and then the signal fires, or its failure is only counted; nothing is left running or awaited |
| Instance.Worker.Reclaim | src/instance.rs:54-83 | each unsuccessful try sleeps 300 ms; it stops exactly when the worker terminates, with the engine dropped and no slot awaited; replies already sent are untouched; every caller waiting at the start is still waiting or holds the handling of its own request, and on termination every one of them holds it; the tasks still running are among those running at the start |
| Instance.DeliveredKeepsAnswering | src/instance.rs:56-58 | a task's reply leaves every waiting slot either waiting or answered |
| Instance.AllAnswered | src/instance.rs:54-60 | an answered slot holds the handling of its own request; once none is awaited, every slot that was waiting is answered so |
| Instance.Worker.CloseSignalReceiver | src/lib.rs:51 | only the handle's end of the signal closes |
| Client.SendRequestWithTimeout | src/client.rs:477-492 | success iff a reply arrived carrying success; an engine error is wrapped unchanged; a failed send or a dropped slot is `ChannelClosed`; expiry is `Timeout` of exactly the given duration; no other error kind arises |
| Client.SendRequest | src/client.rs:469-474 | a timeout is exactly 30 s; the round trip never yields an unexpected-response or collection error |
| Client.CreateCollection | src/client.rs:90-119 | the request carries the config and no other settings; an error passes; `Create` gives its flag; any other response is unexpected |
| Client.ListCollections | src/client.rs:122-128 | an error passes; `List` gives the names; any other response is unexpected |
| Client.GetCollection | src/client.rs:131-142 | "not found" from either layer means no collection; other errors pass; `Get` gives the info; anything else is unexpected |
| Client.UpdateCollection | src/client.rs:145-156 | an error passes; `Update` gives its flag; anything else is unexpected |
| Client.DeleteCollection | src/client.rs:159-165 | an error passes; `Delete` gives its flag; anything else is unexpected |
| Client.CreateAlias | src/client.rs:168-179 | an error passes; `Create` gives its flag; anything else is unexpected |
| Client.AliasPairs | src/client.rs:184-190 | one `(collection_name, alias_name)` pair per alias, in order |
| Client.ListAliases | src/client.rs:182-195 | an error passes; `List` gives the alias pairs in order; anything else is unexpected |
| Client.GetAliases | src/client.rs:198-214 | an error passes; `Get` gives the alias pairs in order; anything else is unexpected |
| Client.DeleteAlias | src/client.rs:217-224 | an error passes; `Delete` gives its flag; anything else is unexpected |
| Client.RenameAlias | src/client.rs:227-238 | an error passes; `Rename` gives its flag; anything else is unexpected |
| Client.GetPoints | src/client.rs:241-252 | an error passes; `Get` gives the records; anything else is unexpected |
| Client.UpsertPoints | src/client.rs:255-272 | the points go as a list with no shard key or filter; an error passes; `Upsert` gives the update result; anything else is unexpected |
| Client.DeletePoints | src/client.rs:275-286 | an error passes; `Delete` gives the update result; anything else is unexpected |
| Client.CountPoints | src/client.rs:289-305 | the request has no shard key; an error passes; `Count` gives only the count; anything else is unexpected |
| Client.UpdateVectors | src/client.rs:308-324 | no shard key or filter is sent; an error passes; `UpdateVectors` gives the update result; anything else is unexpected |
| Client.DeleteVectors | src/client.rs:327-338 | an error passes; `DeleteVectors` gives the update result; anything else is unexpected |
| Client.SetPayload | src/client.rs:341-352 | an error passes; `SetPayload` gives the update result; anything else is unexpected |
| Client.DeletePayload | src/client.rs:355-366 | an error passes; `DeletePayload` gives the update result; anything else is unexpected |
| Client.ClearPayload | src/client.rs:369-380 | an error passes; `ClearPayload` gives the update result; anything else is unexpected |
| Client.SearchPoints | src/client.rs:383-394 | an error passes; `Search` gives the points; anything else is unexpected |
| Client.SearchPointsBatch | src/client.rs:397-409 | the searches go as one batch; an error passes; `SearchBatch` gives the batches; anything else is unexpected |
| Client.SearchPointsGroupBy | src/client.rs:412-423 | an error passes; `SearchGroup` gives only the groups; anything else is unexpected |
| Client.RecommendPoints | src/client.rs:426-437 | an error passes; `Recommend` gives the points; anything else is unexpected |
| Client.RecommendPointsBatch | src/client.rs:440-452 | the requests go as one batch; an error passes; `RecommendBatch` gives the batches; anything else is unexpected |
| Client.RecommendPointsGroupBy | src/client.rs:455-466 | an error passes; `RecommendGroup` gives only the groups; anything else is unexpected |
| Client.ServedNeverUnexpected | src/instance.rs:100-119 | through a worker that replies with the handler's result, no typed method reports an unexpected response |
| Client.HealthCheck | src/client.rs:74-87 | healthy iff a reply arrived, even an engine error; otherwise `Timeout` of exactly 5 s on expiry, and `ChannelClosed` otherwise |
| Client.RroClient.IsHealthy | src/client.rs:66-68 | exactly "the worker still holds the request receiver" |
| Client.ShutdownFromStops | src/client.rs:38-57 | the wait stops at the first poll that sees the signal or a closed channel, after one 50 ms sleep per empty poll; it times out only after more than 30 s, and never sleeps past 30.05 s |
| Client.RroClient.Drop | src/client.rs:31-58 | the sender closes before polling; the loop's outcome and time slept are exactly `ShutdownFrom(polls, 0)`; the worker's state is otherwise untouched |
| Client.RroClient.constructor | src/instance.rs:87-91 | a fresh worker that has not yet started its engine, with both channels open |
| Client.Start | src/instance.rs:42-92 | always succeeds with a fresh handle, whatever the engine's startup will give |

## Left out

- `start_rro` (src/instance.rs:123-189) covers settings, the runtime, consensus state and global switches, and is not part of this model. Startup is the parameter `startup`: an engine or an error.
- The engine's own calls and `Access::check_collection_access` are function fields of `Engine.Toc`. Their results are not specified.
- How `do_search_batch_points` groups requests through `batch_requests` (src/ops/query.rs:502-535) is not modelled; the engine's batch search is one function of the requests.
- Threads, `tokio::spawn`, `tokio::time::timeout` and `thread::sleep` are not modelled. Poll observations, round-trip outcomes and the tasks finishing during each reclaim wait are parameters, not a schedule the model derives.
- `ManuallyDrop` and the unsafe drop of the sender are modelled as `CloseSender`.
- Floating-point vectors and scores are opaque values, never computed on.
- `format!("{:?}")`, `serde_json` and the external `From` conversions are uninterpreted functions or symbolic constructors.
- Hardware counters, and the `wait` and ordering defaults passed to the engine, are not modelled.
- The iteration order of a `HashMap` is not modelled: named vectors are a Dafny `map`.
- The `debug_assert!` in `get_shard_selector_for_update` fires only in debug builds; the model follows the release behaviour.
- The `JoinHandle` kept by the handle is never joined and is not modelled.
- Instance.Worker.Reclaim: the retry loop has no upper bound in the source; the model runs it over a finite `finishing` schedule and reports whether the worker terminated within it.
- `Rest.Prefetches` stands for `Option<Vec<Prefetch>>` so that the nesting of stages is well founded.
- The update arms of `Points.HandlePoints` are written as one arm over `UpdateOutcome` and `UpdateAnswer`; the source writes the same `do_*` call, `?` and wrapping out once per variant.
- The `Err` branch of `Instance.Serving` gives a constant service error. It is never applied, because a worker whose startup failed never spawns a task.
- Client.Start: `thread::Builder::spawn(...).unwrap()` (src/instance.rs:46-84) panics when the operating system refuses a new thread; thread creation is not modelled, so the model's start always returns a handle.
- Instance.Worker.Send: tokio's `send().await` waits for room when the buffer is full; the model has no waiting, so `Full` is a send that has not happened yet, and a scheduler that retries it after a `Receive` is not modelled.
- Client.RroClient.Drop: elapsed time is the time slept. The duration of each `try_recv` is not counted.
- Client.Endpoint: the round trip with the worker is the function `deliver`. The model does not derive it from `Instance.Worker`'s steps; `Client.ServedNeverUnexpected` states what follows when `deliver` relays the handler's result.
- `setup_panic_hook`, the re-exports of `src/lib.rs` and `examples/local.rs` are not part of this model.
