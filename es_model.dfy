/**
 * Data model of the Elasticsearch adapter: the adapter's error taxonomy and
 * its display strings, the materialised Index, the exception an error
 * response carries, and the shape of a backend response.
 */
module EsModel {
  import opened Common

  /** The adapter's error kinds, with the fields the source carries.
      `ElasticsearchError` and `JsonDeserializationError` wrap an error of the
      HTTP client, represented here by its display string. */
  datatype Error =
    | InvalidConfiguration(details: string)
    | ElasticsearchError(details: string, source: string)
    | NotCreated(details: string)
    | NotDeleted(details: string)
    | NotAcknowledged(details: string)
    | ElasticsearchFailureWithoutException(details: string)
    | ElasticsearchUnhandledException(details: string)
    | ElasticsearchDuplicateIndex(index: string)
    | ElasticsearchFailedToParse
    | ElasticsearchInvalidMapping(mappingObject: string, reason: string)
    | ElasticsearchUnknownIndex(index: string)
    | ElasticsearchUnknownSetting(setting: string)
    | IndexConversion(details: string)
    | JsonDeserializationError(source: string)
    | Json2DeserializationError(source: string, details: string)
    | JsonDeserializationInvalid(details: string, json: Json)
    | InternalError(reason: string)

  /** The display string of each error kind (the `snafu(display)` headers).
      The two JSON-carrying kinds render their payload abstractly. */
  function Display(e: Error): string
  {
    match e
    case InvalidConfiguration(d) => "Invalid Elasticsearch Index Configuration: " + d
    case ElasticsearchError(d, src) => "Elasticsearch Error: " + src + " [" + d + "]"
    case NotCreated(d) => "Elasticsearch Response: Not Created: " + d
    case NotDeleted(d) => "Elasticsearch Response: Not Deleted: " + d
    case NotAcknowledged(d) => "Elasticsearch Response: Not Acknowledged: " + d
    case ElasticsearchFailureWithoutException(d) => "Elasticsearch Failure without Exception: " + d
    case ElasticsearchUnhandledException(d) => "Elasticsearch Unhandled Exception: " + d
    case ElasticsearchDuplicateIndex(i) => "Elasticsearch Duplicate Index: " + i
    case ElasticsearchFailedToParse => "Elasticsearch Failed to Parse"
    case ElasticsearchInvalidMapping(o, r) => "Elasticsearch Failed to Parse Mapping of " + o + ": " + r
    case ElasticsearchUnknownIndex(i) => "Elasticsearch Unknown Index: " + i
    case ElasticsearchUnknownSetting(s) => "Elasticsearch Unknown Setting: " + s
    case IndexConversion(d) => "Index Conversion Error: " + d
    case JsonDeserializationError(src) => "JSON Elasticsearch Deserialization Error: " + src
    case Json2DeserializationError(src, _) => "JSON Serde Deserialization Error: " + src
    case JsonDeserializationInvalid(d, _) => "JSON Deserialization Invalid: " + d + " <json>"
    case InternalError(r) => "Internal Error: " + r
  }

  /** Errors of the storage port; each wraps an adapter error. */
  datatype StorageError =
    | ContainerCreationError(source: Error)
    | ContainerDeletionError(source: Error)
    | ContainerSearchError(source: Error)
    | IndexPublicationError(source: Error)

  function StorageDisplay(e: StorageError): string
  {
    match e
    case ContainerCreationError(s) => "Container Creation Error: " + Display(s)
    case ContainerDeletionError(s) => "Container Deletion Error: " + Display(s)
    case ContainerSearchError(s) => "Container Search Error: " + Display(s)
    case IndexPublicationError(s) => "Index Refresh Error: " + Display(s)
  }

  datatype IndexStatus = Available | NotAvailable

  datatype IndexVisibility = Private | Public

  /** `IndexVisibility::default()`. */
  const DefaultVisibility: IndexVisibility := Public

  /** The materialised state of one backend index. `docsCount` is a u32. */
  datatype Index = Index(name: string, dataset: string, docType: string, docsCount: nat, status: IndexStatus)

  /** One entry of an exception's `root_cause` list. */
  datatype RootCause = RootCause(reason: Option<string>)

  /** The structured error an unsuccessful backend response carries. */
  datatype Exception = Exception(rootCause: seq<RootCause>, reason: Option<string>)

  /** What one request to the backend produced: a transport failure (the
      client's error display), a success status with a body of type `B`, or
      an error status with an optional exception. */
  datatype Response<B> =
    | TransportFailure(cause: string)
    | Success(body: B)
    | FailureStatus(exception: Option<Exception>)

  /** A success body read as JSON: `NotJson` when the client could not
      decode it (`source` is the client's error display). */
  datatype JsonBody = NotJson(source: string) | JsonValue(json: Json)

  /** The outcome of an operation that may also panic on an `expect` or
      `unwrap` of backend data. */
  datatype Outcome<+T> = Done(value: T) | Failed(error: Error) | Panicked(message: string)
}
