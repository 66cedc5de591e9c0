/**
  The `/search` request handler `search_places` (app.py:26-164): the API-key and body
  guards, then pagination, the emptiness check and enrichment, with the exceptions of
  the upstream calls mapped to 503 and 500 replies.
 */
module Handler {
  import opened Wrappers
  import opened Json
  import opened Upstream
  import opened Records
  import opened Pagination
  import opened Enrichment

  /** `if not GOOGLE_PLACES_API_KEY` fails: the key is set and not empty (app.py:28). */
  predicate KeyConfigured(apiKey: Option<string>)
  {
    apiKey.Some? && apiKey.value != ""
  }

  /** `if not data or 'query' not in data` fails (app.py:33). `None` stands for a body
      whose JSON is `null`. The value under "query" is not inspected: an empty string
      passes. */
  predicate HasQuery(body: Option<JsonObject>)
  {
    body.Some? && body.value != map[] && "query" in body.value
  }

  /** What follows pagination (app.py:86-157): the zero-results reply when nothing was
      collected, otherwise the enriched records or the reply of the exception that
      ended enrichment. */
  function Respond(places: seq<JsonObject>, details: DetailsLookup): (r: Response)
    ensures places == [] <==> r == ZeroResults
    ensures r.Ok? ==> |r.places| == |places|
    ensures r.Error? ==> r.code in {500, 503}
  {
    EnrichFailureIsServerError(places, details);
    if places == [] then ZeroResults
    else
      match Enrich(places, Builder(details))
      case Failure(reply) => reply
      case Success(records) => Ok(records)
  }

  /** The reply to `POST /search` with configuration `apiKey` and request body `body`,
      when Text Search answers its successive calls with `pages` and Place Details
      answers a lookup of an id with `details(id)`. */
  function Search(apiKey: Option<string>, body: Option<JsonObject>, pages: seq<PageOutcome>, details: DetailsLookup): Response
    requires MaxPages <= |pages|
  {
    if !KeyConfigured(apiKey) then Error(500, MissingKeyMessage)
    else if !HasQuery(body) then Error(400, MissingQueryMessage)
    else
      match Paginate(pages)
      case Stopped(reply) => reply
      case Collected(places) => Respond(places, details)
  }

  /** `search_places` itself. `calls` counts the Text Search calls and `delays` the
      `time.sleep(2)` calls made. */
  method SearchPlaces(apiKey: Option<string>, body: Option<JsonObject>, pages: seq<PageOutcome>, details: DetailsLookup)
    returns (resp: Response, ghost calls: nat, ghost delays: nat, ghost looked: seq<Value>)
    requires MaxPages <= |pages|
    ensures resp == Search(apiKey, body, pages, details)
    ensures !KeyConfigured(apiKey) ==> resp == Error(500, MissingKeyMessage) && calls == 0
    ensures KeyConfigured(apiKey) && !HasQuery(body) ==> resp == Error(400, MissingQueryMessage) && calls == 0
    ensures KeyConfigured(apiKey) && HasQuery(body) ==> calls == CallCount(pages)
    ensures calls <= MaxPages
    ensures delays == if calls == 0 then 0 else calls - 1
    ensures !(KeyConfigured(apiKey) && HasQuery(body)) ==> looked == []
    ensures KeyConfigured(apiKey) && HasQuery(body) && !Paginate(pages).Collected? ==> looked == []
    ensures KeyConfigured(apiKey) && HasQuery(body) && Paginate(pages) == Collected([]) ==> looked == []
    ensures KeyConfigured(apiKey) && HasQuery(body) && Paginate(pages).Collected? && resp.Ok?
        ==> looked == IdsLookedUp(Paginate(pages).places)
    ensures KeyConfigured(apiKey) && HasQuery(body) && Paginate(pages).Collected? &&
            Enrich(Paginate(pages).places, Builder(details)).Failure?
        ==> exists k :: 0 <= k < |Paginate(pages).places| &&
              FailsFirstAt(Paginate(pages).places, Builder(details), k) &&
              looked == IdsLookedUp(Paginate(pages).places[..k + 1])
  {
    calls, delays, looked := 0, 0, [];
    if !KeyConfigured(apiKey) {
      return Error(500, MissingKeyMessage), calls, delays, looked;
    }
    if body.None? || body.value == map[] || "query" !in body.value {
      return Error(400, MissingQueryMessage), calls, delays, looked;
    }
    var run, sent, waited := FetchPages(pages);
    calls, delays := |sent|, waited;
    match run {
      case Stopped(reply) =>
        resp := reply;
      case Collected(places) =>
        if places == [] {
          resp := ZeroResults;
        } else {
          var enriched;
          enriched, looked := EnrichPlaces(places, details);
          match enriched {
            case Failure(reply) =>
              EnrichFailureIsServerError(places, details);
              resp := reply;
            case Success(records) => resp := Ok(records);
          }
        }
    }
  }

  /** A 400 reply comes exactly from a configured key and a body without "query"; in
      particular a body whose "query" is the empty string is not rejected. */
  lemma ClientErrorExactlyWithoutQuery(apiKey: Option<string>, body: Option<JsonObject>, pages: seq<PageOutcome>, details: DetailsLookup)
    requires MaxPages <= |pages|
    ensures Search(apiKey, body, pages, details).StatusCode() == 400 <==> KeyConfigured(apiKey) && !HasQuery(body)
  {
  }

  /** "ZERO_RESULTS" on the first page answers `{"status": "ZERO_RESULTS", "places": []}`
      with HTTP 200 at once (app.py:71-73). */
  lemma ZeroResultsOnFirstPageReply(apiKey: Option<string>, body: Option<JsonObject>, pages: seq<PageOutcome>, details: DetailsLookup)
    requires MaxPages <= |pages| && KeyConfigured(apiKey) && HasQuery(body)
    requires pages[0].Page? && pages[0].status == Some("ZERO_RESULTS")
    ensures Search(apiKey, body, pages, details) == ZeroResults
    ensures Search(apiKey, body, pages, details).StatusCode() == 200
    ensures Search(apiKey, body, pages, details).Body() == map["status" := Str("ZERO_RESULTS"), "places" := List([])]
  {
  }

  /** An OK first page with no results and no next_page_token ends pagination with nothing
      collected, which gives the same zero-results reply (app.py:86-88). */
  lemma EmptyOkPageIsZeroResults(apiKey: Option<string>, body: Option<JsonObject>, pages: seq<PageOutcome>, details: DetailsLookup)
    requires MaxPages <= |pages| && KeyConfigured(apiKey) && HasQuery(body)
    requires IsOk(pages[0]) && pages[0].results == [] && !TokenPresent(pages[0].nextPageToken)
    ensures Search(apiKey, body, pages, details) == ZeroResults
  {
  }

  /** Partial success (app.py:79-81): page 1 OK with results and a token, page 2 any
      status other than "OK"; the reply is built from exactly page 1's results. */
  lemma PartialSuccessReply(apiKey: Option<string>, body: Option<JsonObject>, pages: seq<PageOutcome>, details: DetailsLookup)
    requires MaxPages <= |pages| && KeyConfigured(apiKey) && HasQuery(body)
    requires Continues(pages[0]) && pages[0].results != []
    requires pages[1].Page? && pages[1].status != Some("OK")
    ensures Search(apiKey, body, pages, details) == Respond(pages[0].results, details)
    ensures Search(apiKey, body, pages, details) != ZeroResults
  {
    PartialSuccessAfterFirstPage(pages);
  }

  /** Page 1 OK with results and a token, then a transport failure on page 2: unlike the
      partial success above, the request answers 503 and page 1's results are dropped
      (app.py:59-60, 159-161). */
  lemma Page2TransportDropsPage1(apiKey: Option<string>, body: Option<JsonObject>, pages: seq<PageOutcome>, details: DetailsLookup, reason: string)
    requires MaxPages <= |pages| && KeyConfigured(apiKey) && HasQuery(body)
    requires Continues(pages[0]) && pages[0].results != []
    requires pages[1] == PageTransportFailure(reason)
    ensures Search(apiKey, body, pages, details) == NetworkError(reason)
    ensures Search(apiKey, body, pages, details).StatusCode() == 503
  {
    LastCallIs(pages, 1);
  }

  /** A transport failure of any Text Search call made answers 503 for the whole request
      (app.py:59-60, 159-161). */
  lemma TextSearchTransportFailureIs503(apiKey: Option<string>, body: Option<JsonObject>, pages: seq<PageOutcome>, details: DetailsLookup, k: nat)
    requires MaxPages <= |pages| && KeyConfigured(apiKey) && HasQuery(body)
    requires k < CallCount(pages) && pages[k].PageTransportFailure?
    ensures Search(apiKey, body, pages, details) == NetworkError(pages[k].reason)
    ensures Search(apiKey, body, pages, details).StatusCode() == 503
  {
  }

  /** A transport failure of the details call of a collected place answers 503 for the
      whole request, once every earlier place got its record (app.py:121, 159-161). */
  lemma DetailsTransportFailureIs503(apiKey: Option<string>, body: Option<JsonObject>, pages: seq<PageOutcome>, details: DetailsLookup, k: nat, reason: string)
    requires MaxPages <= |pages| && KeyConfigured(apiKey) && HasQuery(body)
    requires Paginate(pages).Collected?
    requires k < |Paginate(pages).places|
    requires forall j :: 0 <= j < k ==> BuildRecord(Paginate(pages).places[j], details).Success?
    requires Truthy(PlaceIdOf(Paginate(pages).places[k]))
    requires details(PlaceIdOf(Paginate(pages).places[k])) == DetailsTransportFailure(reason)
    ensures Search(apiKey, body, pages, details) == NetworkError(reason)
  {
    DetailsTransportFailureAborts(Paginate(pages).places, details, k, reason);
  }

  /** An OK reply holds one record per raw place collected from the OK pages fetched, in
      order, each built as `RecordFollows` describes. */
  lemma OkReplyFollowsCollectedPlaces(apiKey: Option<string>, body: Option<JsonObject>, pages: seq<PageOutcome>, details: DetailsLookup)
    requires MaxPages <= |pages|
    requires Search(apiKey, body, pages, details).Ok?
    ensures KeyConfigured(apiKey) && HasQuery(body) && Paginate(pages).Collected?
    ensures var places, records := Gather(pages[..CallCount(pages)]), Search(apiKey, body, pages, details).places;
      && places != []
      && |records| == |places|
      && forall i :: 0 <= i < |places| ==> RecordFollows(places[i], details, records[i])
  {
    CollectedAreFetchedOkResults(pages);
    var places := Paginate(pages).places;
    assert Search(apiKey, body, pages, details) == Respond(places, details);
    EnrichFailureIsServerError(places, details);
    assert Enrich(places, Builder(details)) == Success(Search(apiKey, body, pages, details).places);
    RecordsFollowRawPlaces(places, details, Search(apiKey, body, pages, details).places);
  }
}
