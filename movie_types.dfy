/**
 * The values exchanged between the page, the form and the API client: the
 * movie record as the form reads it, the payload the form submits, what
 * JavaScript can throw, and what the backend can answer.
 */
module MovieTypes {
  import opened Wrappers

  /**
   * A movie record as the backend returns it. Only the fields the form and
   * the page read are kept; any of the form's fields may be missing.
   */
  datatype Movie = Movie(
    id: int,
    title: Option<string>,
    genre: Option<string>,
    rating: Option<int>,
    posterImage: Option<string>)

  /** The body the form submits for a create or an update; `None` is JSON `null`. */
  datatype Payload = Payload(title: string, genre: string, rating: int, posterImage: Option<string>)

  /** Error classes the code distinguishes with `instanceof`. */
  datatype ErrorKind = PlainError | TypeError

  /** A thrown value: an `Error` (or `TypeError`) object with its message, or anything else. */
  datatype Exception = ErrorObject(kind: ErrorKind, message: string) | NonErrorValue

  /** `err instanceof Error ? err.message : fallback` */
  function MessageOr(e: Exception, fallback: string): (m: string)
    ensures e.ErrorObject? ==> m == e.message
    ensures e.NonErrorValue? ==> m == fallback
  {
    match e
    case ErrorObject(_, message) => message
    case NonErrorValue => fallback
  }

  /** An optional JSON property as a string; `None` stands for `undefined`. */
  type JsonField = Option<string>

  /** The outcome of `JSON.parse` on an error body, seen through `.message` and `.title`. */
  datatype Json =
    | JsonObject(message: JsonField, title: JsonField)  // an object (fields may be absent)
    | JsonOther                                          // a number, string, boolean or array
    | JsonNull                                           // `null`: reading a property of it throws
    | Malformed                                          // `JSON.parse` throws

  /** JavaScript truthiness of an optional string. */
  predicate Truthy(f: Option<string>) {
    f.Some? && f.value != ""
  }

  /**
   * What one call to the backend produces. The list, create and update calls
   * return `response.json()` from inside their `try` without awaiting it, so
   * a failed read of an ok body (`BodyRejected`) reaches the caller without
   * passing through their `catch`.
   */
  datatype Fetched<T> =
    | Delivered(data: T)                                                 // `response.ok`, and its body read as `data`
    | HttpError(status: nat, statusText: string, body: string, json: Json)  // not ok; `json` is the parse of `body`
    | Rejected(error: Exception)                                         // `fetch`, or the `response.text()` of a non-ok answer, threw
    | BodyRejected(error: Exception)                                     // `response.ok`, but `response.json()` rejected

  datatype Sort = Asc | Desc

  function SortName(s: Sort): (name: string)
    ensures name == "asc" <==> s == Asc
  {
    match s
    case Asc => "asc"
    case Desc => "desc"
  }

  /** A query-string entry, before `URLSearchParams` encodes it. */
  type Param = (string, string)

  /** The requests the page issues, in the order it issues them. */
  datatype Request =
    | ListRequest(query: seq<Param>)
    | CreateRequest(dto: Payload)
    | UpdateRequest(id: int, dto: Payload)
    | DeleteRequest(id: int)
}
