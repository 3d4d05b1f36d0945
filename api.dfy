/**
 * The API client: the query of the list request, and how each call turns
 * the backend's answer into a value or a thrown error.
 *
 * `fetch` and the reading of bodies are not modelled; each call is given the
 * answer it got, as a `Fetched` value. The `try`/`catch` around a call is
 * `Caught`: it rewrites a browser "failed to fetch" `TypeError` and lets
 * everything else through.
 */
module Api {
  import opened Wrappers
  import opened JsText
  import opened MovieTypes

  /** The built-in backend address (the environment override is not modelled). */
  const ApiBaseUrl := "https://postbackend-y79c.onrender.com"

  const ConnectMessage := "Cannot connect to backend API at " + ApiBaseUrl + ". Make sure the backend is running."

  // ---------------------------------------------------------------- list query

  /** The entries of the list request's query string; an absent sort means ascending. */
  function QueryParams(search: Option<string>, sort: Option<Sort>): (ps: seq<Param>)
    ensures |ps| > 0 && ps[|ps| - 1] == ("sort", SortName(if sort.Some? then sort.value else Asc))
    ensures forall i :: 0 <= i < |ps| - 1 ==> ps[i].0 != "sort"
    ensures (exists i :: 0 <= i < |ps| && ps[i].0 == "search") <==> Truthy(search)
    ensures Truthy(search) ==> |ps| == 2 && ps[0] == ("search", search.value)
    ensures !Truthy(search) ==> |ps| == 1
  {
    var order := if sort.Some? then sort.value else Asc;
    var ps := (if Truthy(search) then [("search", search.value)] else []) + [("sort", SortName(order))];
    assert "sort"[1] != "search"[1];
    assert Truthy(search) ==> ps[0].0 == "search";
    ps
  }

  /** Builds the query by appending to an initially empty parameter list. */
  method BuildQuery(search: Option<string>, sort: Option<Sort>) returns (params: seq<Param>)
    ensures params == QueryParams(search, sort)
  {
    params := [];
    if Truthy(search) {
      params := params + [("search", search.value)];
    }
    var order := Asc;
    if sort.Some? {
      order := sort.value;
    }
    params := params + [("sort", SortName(order))];
  }

  // ---------------------------------------------------------------- connectivity

  /** A connection-level failure as the browser reports it: a `TypeError` mentioning "fetch". */
  predicate IsFetchFailure(e: Exception) {
    e.ErrorObject? && e.kind == TypeError && Contains(e.message, "fetch")
  }

  /** The `catch` block of the list, create and update calls. */
  function Caught<T>(attempt: Result<T, Exception>): (r: Result<T, Exception>)
    ensures r.Success? <==> attempt.Success?
    ensures attempt.Success? ==> r == attempt
    ensures attempt.Failure? && IsFetchFailure(attempt.error) ==>
              r.error == ErrorObject(PlainError, ConnectMessage)
    ensures attempt.Failure? && !IsFetchFailure(attempt.error) ==> r == attempt
  {
    if attempt.Failure? && IsFetchFailure(attempt.error) then
      Failure(ErrorObject(PlainError, ConnectMessage))
    else
      attempt
  }

  // ---------------------------------------------------------------- list

  function FetchMoviesMessage(status: nat, statusText: string, body: string): (message: string) {
    "Failed to fetch movies: " + NatToString(status) + " " + statusText + ". " + body
  }

  /** `getAllMovies` once the answer is in. */
  function AllMoviesResult(response: Fetched<seq<Movie>>): (r: Result<seq<Movie>, Exception>)
    ensures r.Success? <==> response.Delivered?
    ensures response.Delivered? ==> r.value == response.data
    ensures response.HttpError? ==>
              r.error == ErrorObject(PlainError, FetchMoviesMessage(response.status, response.statusText, response.body))
    ensures response.Rejected? ==> r == Caught(Failure(response.error))
    ensures response.BodyRejected? ==> r == Failure(response.error)
  {
    match response
    case Delivered(data) => Success(data)
    case HttpError(status, statusText, body, _) =>
      Caught(Failure(ErrorObject(PlainError, FetchMoviesMessage(status, statusText, body))))
    case Rejected(e) => Caught(Failure(e))
    case BodyRejected(e) => Failure(e)
  }

  /**
   * A status error of the list call says "fetch", yet it is reported as it
   * is: only a `TypeError` is rewritten to the connection message.
   */
  lemma {:induction false} StatusErrorKeepsItsText(status: nat, statusText: string, body: string, json: Json)
    ensures Contains(FetchMoviesMessage(status, statusText, body), "fetch")
    ensures AllMoviesResult(HttpError(status, statusText, body, json)) ==
              Failure(ErrorObject(PlainError, FetchMoviesMessage(status, statusText, body)))
  {
    var m := FetchMoviesMessage(status, statusText, body);
    assert m[10..15] == "fetch";
    assert OccursAt(m, "fetch", 10);
    ContainsIffOccurs(m, "fetch");
  }

  // ---------------------------------------------------------------- create and update

  /** The message of a failed create or update before the body is consulted. */
  function StatusMessage(action: string, status: nat, statusText: string): (message: string) {
    "Failed to " + action + " movie: " + NatToString(status) + " " + statusText
  }

  /**
   * The message of a failed create or update: the body's `message`, else its
   * `title`, else the status message; when the body does not parse (or is
   * JSON `null`, whose properties cannot be read) a non-empty body is
   * appended to the status message.
   */
  function HttpErrorMessage(action: string, status: nat, statusText: string, body: string, json: Json): (msg: string)
    ensures msg != []
    ensures json.JsonObject? && Truthy(json.message) ==> msg == json.message.value
    ensures json.JsonObject? && !Truthy(json.message) && Truthy(json.title) ==> msg == json.title.value
    ensures (json.JsonObject? && !Truthy(json.message) && !Truthy(json.title)) || json.JsonOther? ==>
              msg == StatusMessage(action, status, statusText)
    ensures json.JsonNull? || json.Malformed? ==>
              msg == StatusMessage(action, status, statusText) + (if body == "" then "" else ". " + body)
  {
    var fallback := StatusMessage(action, status, statusText);
    match json
    case JsonObject(message, title) =>
      if Truthy(message) then message.value else if Truthy(title) then title.value else fallback
    case JsonOther => fallback
    case JsonNull => if body == "" then fallback else fallback + ". " + body
    case Malformed => if body == "" then fallback else fallback + ". " + body
  }

  /** The message as the code computes it: assigned, then overwritten by the body's fields or extended by the body. */
  method DeriveHttpErrorMessage(action: string, status: nat, statusText: string, body: string, json: Json)
    returns (errorMessage: string)
    ensures errorMessage == HttpErrorMessage(action, status, statusText, body, json)
  {
    errorMessage := "Failed to " + action + " movie: " + NatToString(status) + " " + statusText;
    var parsed := json.JsonObject? || json.JsonOther?;
    if parsed {
      // `errorJson.message || errorJson.title || errorMessage`
      if json.JsonObject? && Truthy(json.message) {
        errorMessage := json.message.value;
      } else if json.JsonObject? && Truthy(json.title) {
        errorMessage := json.title.value;
      }
    } else {
      // the inner `catch`
      if body != "" {
        errorMessage := errorMessage + ". " + body;
      }
    }
  }

  /** A create or update call once the answer is in; `action` names it in the status message. */
  method SaveMovieResult(action: string, response: Fetched<Movie>) returns (r: Result<Movie, Exception>)
    ensures r.Success? <==> response.Delivered?
    ensures response.Delivered? ==> r.value == response.data
    ensures response.HttpError? ==>
              r.error == ErrorObject(PlainError, HttpErrorMessage(action, response.status, response.statusText,
                                                                  response.body, response.json))
    ensures response.Rejected? ==> r == Caught(Failure(response.error))
    ensures response.BodyRejected? ==> r == Failure(response.error)
  {
    if response.BodyRejected? {
      // the unawaited `response.json()` rejects after the `try` has returned
      return Failure(response.error);
    }
    var attempt: Result<Movie, Exception>;
    match response {
      case Delivered(data) =>
        attempt := Success(data);
      case HttpError(status, statusText, body, json) =>
        var message := DeriveHttpErrorMessage(action, status, statusText, body, json);
        attempt := Failure(ErrorObject(PlainError, message));
      case Rejected(e) =>
        attempt := Failure(e);
    }
    r := Caught(attempt);
  }

  /** `createMovie` once the answer is in. */
  method CreateMovieResult(response: Fetched<Movie>) returns (r: Result<Movie, Exception>)
    ensures r.Success? <==> response.Delivered?
    ensures response.Delivered? ==> r.value == response.data
    ensures response.HttpError? ==>
              r.error == ErrorObject(PlainError, HttpErrorMessage("create", response.status, response.statusText,
                                                                  response.body, response.json))
    ensures response.Rejected? ==> r == Caught(Failure(response.error))
    ensures response.BodyRejected? ==> r == Failure(response.error)
  {
    r := SaveMovieResult("create", response);
  }

  /** `updateMovie` once the answer is in. */
  method UpdateMovieResult(response: Fetched<Movie>) returns (r: Result<Movie, Exception>)
    ensures r.Success? <==> response.Delivered?
    ensures response.Delivered? ==> r.value == response.data
    ensures response.HttpError? ==>
              r.error == ErrorObject(PlainError, HttpErrorMessage("update", response.status, response.statusText,
                                                                  response.body, response.json))
    ensures response.Rejected? ==> r == Caught(Failure(response.error))
    ensures response.BodyRejected? ==> r == Failure(response.error)
  {
    r := SaveMovieResult("update", response);
  }

  // ---------------------------------------------------------------- get by id and delete

  /** `getMovieById` once the answer is in: a fixed message on a status error, no `catch`. */
  function MovieByIdResult(response: Fetched<Movie>): (r: Result<Movie, Exception>)
    ensures r.Success? <==> response.Delivered?
    ensures response.Delivered? ==> r.value == response.data
    ensures response.HttpError? ==> r.error == ErrorObject(PlainError, "Failed to fetch movie")
    ensures response.Rejected? || response.BodyRejected? ==> r.error == response.error
  {
    match response
    case Delivered(data) => Success(data)
    case HttpError(_, _, _, _) => Failure(ErrorObject(PlainError, "Failed to fetch movie"))
    case Rejected(e) => Failure(e)
    case BodyRejected(e) => Failure(e)
  }

  /**
   * `deleteMovie` once the answer is in: a fixed message on a status error,
   * no `catch`. It reads no body, so no body read can fail.
   */
  function DeleteMovieResult(response: Fetched<()>): (r: Result<(), Exception>)
    requires !response.BodyRejected?
    ensures r.Success? <==> response.Delivered?
    ensures response.HttpError? ==> r.error == ErrorObject(PlainError, "Failed to delete movie")
    ensures response.Rejected? ==> r.error == response.error
  {
    match response
    case Delivered(_) => Success(())
    case HttpError(_, _, _, _) => Failure(ErrorObject(PlainError, "Failed to delete movie"))
    case Rejected(e) => Failure(e)
  }
}
