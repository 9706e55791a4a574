/** The error vocabulary of the embedded bridge (`QdrantError`, also exported as `RROError`)
    and the two engine error types it wraps. */
module Errors {
  import opened Wrappers

  /** A `std::time::Duration`, kept to the millisecond. */
  datatype Duration = Duration(millis: nat)

  function FromSecs(secs: nat): Duration {
    Duration(1000 * secs)
  }

  function FromMillis(millis: nat): Duration {
    Duration(millis)
  }

  /** `std::io::Error`: never inspected. */
  type IoError(==)

  /** The storage layer's error. The variants the bridge builds or inspects are spelled out;
      the rest of the engine's variants are folded into `OtherStorageError`. */
  datatype StorageError =
    | BadInput(description: string)
    | BadRequest(description: string)
    | NotFound(description: string)
    | AlreadyExists(description: string)
    | ServiceError(description: string)
    | OtherStorageError(kind: string, description: string)

  /** The collection layer's error; only `NotFound` is ever inspected. */
  datatype CollectionError =
    | CollectionNotFound(what: string)
    | OtherCollectionError(description: string)

  /** `tokio::sync::oneshot::error::RecvError`, a unit value. */
  datatype RecvError = RecvError

  datatype QdrantError =
    | Collection(collectionError: CollectionError)
    | Storage(storageError: StorageError)
    | ResponseRecv(recvError: RecvError)
    | Timeout(duration: Duration)
    | ChannelClosed
    | UnexpectedResponse(expected: string, actual: string)
    | Io(ioError: IoError)

  /** The engine error a bridge error carries, if it carries one from the storage layer. */
  function StorageCause(e: QdrantError): Option<StorageError> {
    if e.Storage? then Some(e.storageError) else None
  }

  /** The engine error a bridge error carries, if it carries one from the collection layer. */
  function CollectionCause(e: QdrantError): Option<CollectionError> {
    if e.Collection? then Some(e.collectionError) else None
  }

  /** `From<StorageError>`: the storage error is wrapped, unchanged and recoverable. */
  function FromStorage(e: StorageError): (r: QdrantError)
    ensures StorageCause(r) == Some(e)
    ensures CollectionCause(r) == None
  {
    Storage(e)
  }

  /** `From<CollectionError>`: the collection error is wrapped, unchanged and recoverable. */
  function FromCollection(e: CollectionError): (r: QdrantError)
    ensures CollectionCause(r) == Some(e)
    ensures StorageCause(r) == None
  {
    Collection(e)
  }

  /** `QdrantError::unexpected`: a protocol error that keeps the expectation verbatim and
      records the debug rendering of what actually arrived. */
  function Unexpected<T>(expected: string, actual: T, debug: T -> string): (e: QdrantError)
    ensures e.UnexpectedResponse? && e.expected == expected && e.actual == debug(actual)
    ensures StorageCause(e) == None && CollectionCause(e) == None
  {
    UnexpectedResponse(expected, debug(actual))
  }
}
