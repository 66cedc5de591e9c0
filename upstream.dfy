/**
  What the two upstream endpoints can answer, and the handler's HTTP response.
  The network calls themselves are not modelled: each call is replaced by its outcome.
 */
module Upstream {
  import opened Wrappers
  import opened Json

  /** One Text Search call (app.py:59-61). `PageTransportFailure` is any
      `requests.exceptions.RequestException`, including the HTTPError raised by
      `raise_for_status()`; `PageUnexpected` is any other exception. A `Page` carries the
      decoded body: `status` (absent as None), `results` (absent as []),
      `next_page_token` (absent as None) and `error_message` (absent as ""). */
  datatype PageOutcome =
    | PageTransportFailure(reason: string)
    | PageUnexpected(reason: string)
    | Page(status: Option<string>, results: seq<JsonObject>, nextPageToken: Option<string>, errorMessage: string)

  /** One Place Details call (app.py:121-122). There is no `raise_for_status()` there, so an
      HTTP error status with a JSON body still arrives as `Details`. `result` is the value
      under the "result" key, None when that key is absent. */
  datatype DetailsOutcome =
    | DetailsTransportFailure(reason: string)
    | DetailsUnexpected(reason: string)
    | Details(status: Option<string>, result: Option<Value>)

  /** The handler's reply: `{"status": "OK", "places": [...]}`,
      `{"status": "ZERO_RESULTS", "places": []}` (both HTTP 200), or `{"error": message}`
      with an HTTP error code. */
  datatype Response =
    | Ok(places: seq<JsonObject>)
    | ZeroResults
    | Error(code: int, message: string)
  {
    /** The HTTP status code the handler returns with this reply. */
    function StatusCode(): int
    {
      match this
      case Ok(_) => 200
      case ZeroResults => 200
      case Error(code, _) => code
    }

    /** The JSON body of this reply. */
    function Body(): JsonObject
    {
      match this
      case Ok(places) => map["status" := Str("OK"), "places" := List(seq(|places|, i requires 0 <= i < |places| => Obj(places[i])))]
      case ZeroResults => map["status" := Str("ZERO_RESULTS"), "places" := List([])]
      case Error(_, message) => map["error" := Str(message)]
    }
  }

  const MissingKeyMessage: string := "API key not configured. Check .env file."
  const MissingQueryMessage: string := "Missing 'query' in request body"

  /** The 503 reply for a `RequestException` (app.py:159-161). */
  function NetworkError(reason: string): Response
  {
    Error(503, "Error calling Google Places API: " + reason)
  }

  /** The 500 reply for any other exception (app.py:162-164). */
  function UnexpectedError(reason: string): Response
  {
    Error(500, "An unexpected error occurred: " + reason)
  }

  /** Python's `str()` of a status read with `.get("status")`. */
  function StatusText(status: Option<string>): string
  {
    match status
    case None => "None"
    case Some(s) => s
  }

  /** The 500 reply for a Text Search error status with nothing collected (app.py:78). */
  function TextSearchError(status: Option<string>, errorMessage: string): Response
  {
    Error(500, "Google Places API (Text Search) error: " + StatusText(status) + " - " + errorMessage)
  }

  /** The message of the AttributeError raised by calling `.get` on a non-dict value. */
  function NoGetAttribute(v: Value): string
  {
    "'" + TypeName(v) + "' object has no attribute 'get'"
  }
}
