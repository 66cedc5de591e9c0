# search_places: a Dafny model of the LeadDawg `/search` handler

The backend has one piece of logic, the Flask handler `search_places` in `app.py`. It
checks that the Google Places API key is configured and that the request body has a
`query`. It then pages through up to three Text Search pages, following each page's
`next_page_token` after a two-second delay. Each collected place is enriched with a Place
Details lookup. The reply is `{"status": "OK", "places": [...]}`,
`{"status": "ZERO_RESULTS", "places": []}` or `{"error": ...}` with 400, 500 or 503.

The model replaces the two upstream endpoints by their answers:

- Text Search is a sequence of `PageOutcome`s, one per call: a transport failure (any
  `RequestException`, including `raise_for_status`), another exception, or a decoded page
  with `status`, `results`, `next_page_token` and `error_message`.
- Place Details is a function from a place id to a `DetailsOutcome`.
- JSON is a `Value` datatype. Objects are `map<string, Value>`; `jsonify` sorts keys, so
  nothing is lost by using a map.

Modules, in the order of the source:

- `Json`: values, Python's `dict.get` and truthiness.
- `Upstream`: outcomes, the reply type and the fixed error messages.
- `Records`: the three record builders (dict literals, so functions).
- `Pagination`: the `while` loop as the method `FetchPages`. It is proved equal to the
  declarative `Paginate`, which says which calls are made and what they collect.
- `Enrichment`: the `for` loop as the method `EnrichPlaces`. It is proved equal to
  `Enrich`: one record per place, stopping at the first exception.
- `Handler`: the guards, the whole handler `SearchPlaces` and the lemmas about its reply
  `Search`.

Behaviour of the code worth noting:

- The body check (app.py:33) only asks that the key `query` be present. An empty-string
  query is accepted.
- A transport failure of a details call is not absorbed per place. Nothing catches it
  before app.py:159, so the whole request gets a 503 reply. Only a non-OK details status,
  or a reply without `result`, falls back to the raw fields.
- The `else` of app.py:82-83 is unreachable. The condition at app.py:74 is the negation
  of the one at app.py:65. So "ZERO_RESULTS" on a later page takes the error branch. After
  an OK first page with no results but a token, it yields a 500 reply, not the
  zero-results reply (`Pagination.LaterZeroResultsWithNothingCollected`).
- Partial success covers only a page 2 that answers with a non-OK status. A transport
  failure on page 2 raises, so the request answers 503 and page 1's results are dropped
  (`Handler.Page2TransportDropsPage1`).

## Model

| member | source | states |
|---|---|---|
| `Records.MissingIdRecord` | app.py:96-113 | A place without a truthy `place_id` gets a record with exactly the eleven output keys and no `place_id`. Name, address and types come from the raw place, with defaults "N/A (Missing ID)", "N/A" and []. Rating is "N/A", the rating count 0, the business status "UNKNOWN" and every detail-only field "N/A". |
| `Records.FallbackRecord` | app.py:140-155 | When details answer non-OK or have no `result`, the record has the place id plus the raw place's name, address, types, rating, rating count and business status, each with its default. Website, phone, email, opening hours and maps URL are "N/A". |
| `Records.DetailsMerge` | app.py:126-139 | The details-OK record takes every field from the details result or a fixed default ("N/A", [], 0, "UNKNOWN"). Name and address default to null. opening_hours is `weekday_text` of the opening-hours object, and nothing comes from the raw place. |
| `Records.DetailsRecord` | app.py:124-139 | The merge fails, with a 500 reply, exactly when `result` or its `opening_hours` is not a JSON object: `.get` raises AttributeError there, and the reply names the type of the offending value (`result` first, then `opening_hours`). Otherwise it is `DetailsMerge`. |
| `Pagination.LastCall` | app.py:45-70 | The last call index is below 3. Every earlier call returned OK with a token. The last call is the first that does not, or the third call. |
| `Pagination.FetchPages` | app.py:39-83 | The loop's outcome equals `Paginate`. It makes `CallCount` calls, at most 3. The first call carries no pagetoken; call i+1 carries page i's `next_page_token`. There is one delay per token use, so delays = calls - 1. |
| `Pagination.CollectedAreFetchedOkResults` | app.py:65-70 | The collected places are the in-order concatenation of the `results` of every OK page fetched. |
| `Pagination.ZeroResultsOnFirstPage` | app.py:71-73 | "ZERO_RESULTS" on page 1 stops pagination with the zero-results reply. |
| `Pagination.PartialSuccessAfterFirstPage` | app.py:74-81 | Page 1 is OK with results and a token, and page 2 has any non-OK status. Pagination then ends with exactly page 1's results. |
| `Pagination.LaterZeroResultsWithNothingCollected` | app.py:74-83 | After an OK page 1 with no results but a token, "ZERO_RESULTS" on page 2 gives the 500 Text Search error naming "ZERO_RESULTS". |
| `Enrichment.BuildRecord` | app.py:96-155 | A place without a truthy id gets the Missing-ID record. Otherwise the record carries the place's id. Details answering "OK" with a `result` give `DetailsRecord` of that result. A non-OK or result-less details reply gives the fallback record. Only a place with an id can fail. The reply is 503 exactly on a details transport failure. Any other exception of the details call gives the 500 reply with its text. |
| `Enrichment.Enrich` | app.py:93-155 | A complete enrichment has as many records as raw places. |
| `Enrichment.EnrichRecords` | app.py:93-155 | Enrichment succeeds iff every place's record can be built. Record i is the one built from raw place i. |
| `Enrichment.EnrichFailsAtFirst` | app.py:159-164 | A failing enrichment answers the reply of the first place whose record cannot be built. |
| `Enrichment.EnrichPlaces` | app.py:93-155 | The loop computes `Enrich`. On success it looked up exactly the truthy place ids, in order. On failure it looked up the truthy ids up to and including the first place whose record cannot be built. |
| `Enrichment.RecordsFollowRawPlaces` | app.py:94-155 | One record per raw place, in order. It is the Missing-ID record without an id. With an id it carries that id. It is the `DetailsRecord` merge of the details result when details answered "OK" with a result, and the fallback record otherwise. |
| `Enrichment.EmailIsAlwaysNA` | app.py:117-132 | "email" is never requested from the details endpoint. When no details result has one, every record's email is "N/A". |
| `Enrichment.DetailsTransportFailureAborts` | app.py:121-122 | A details transport failure ends the whole enrichment with a 503 reply once the earlier places got their records. It does not fall back per place. |
| `Enrichment.EnrichFailureIsServerError` | app.py:159-164 | A failing enrichment answers 500 or 503, never a client error. |
| `Enrichment.IdsLookedUp` | app.py:96-97 | The ids looked up are all truthy, and there are at most as many as places. |
| `Handler.Respond` | app.py:86-157 | After pagination, an empty accumulator gives exactly the zero-results reply. An OK reply has one record per collected place. An error reply is 500 or 503. |
| `Handler.SearchPlaces` | app.py:27-164 | The handler's reply equals `Search`. An unset or empty key gives 500 before any call. A body without `query` gives 400 before any call. Otherwise it makes `CallCount` Text Search calls (at most 3) and delays = calls - 1. No details lookup happens when a guard fails, when pagination stops or when nothing was collected. An OK reply looked up exactly the truthy ids of the collected places, in order. A failed enrichment looked up the truthy ids up to and including the first failing place. |
| `Handler.ClientErrorExactlyWithoutQuery` | app.py:32-35 | The reply is 400 iff the key is configured and the body has no `query`, so an empty-string query is accepted. |
| `Handler.ZeroResultsOnFirstPageReply` | app.py:71-73 | "ZERO_RESULTS" on page 1 answers HTTP 200 with `{"status": "ZERO_RESULTS", "places": []}`. |
| `Handler.EmptyOkPageIsZeroResults` | app.py:86-88 | An OK first page with empty results and no token answers the zero-results reply. |
| `Handler.PartialSuccessReply` | app.py:79-81 | When page 2 fails after a non-empty page 1 with a token, the reply is built from exactly page 1's results and is not the zero-results reply. |
| `Handler.Page2TransportDropsPage1` | app.py:59-60 | After an OK page 1 with results and a token, a transport failure on page 2 answers 503 with the network-error message; page 1's results are not returned. |
| `Handler.TextSearchTransportFailureIs503` | app.py:59-61 | A transport failure of any Text Search call made answers 503 with the network-error message. |
| `Handler.DetailsTransportFailureIs503` | app.py:159-161 | A details transport failure for a collected place answers 503 for the whole request. |
| `Handler.OkReplyFollowsCollectedPlaces` | app.py:90-157 | An OK reply has one record per place collected from the fetched OK pages, in order, and that collection is non-empty. Each record relates to its place as `RecordsFollowRawPlaces` states, including the details-OK merge. |

## Left out

- Flask routing, `jsonify`, CORS, dotenv loading, the `/` liveness route and the `__main__` block (app.py:1-24, 166-173): framework wiring.
- The HTTP calls (`requests.get`, `response.json()`) are replaced by the outcomes described above. The query string and API key sent with a call are not recorded. The pagetoken sent is recorded.
- `time.sleep(2)` is a ghost delay counter, not a duration. Logging is left out, and with it the details `error_message`, which is only logged.
- Exception texts (`str(e)`) are opaque reason strings in the outcomes. The one exception the handler itself can raise is modelled with Python's own message: `.get` on a non-dict details `result` or `opening_hours`.
- JSON of unexpected shapes is not modelled:
  - a request body that is a list or a string;
  - a Text Search `results` that is not a list of objects;
  - a `status`, `next_page_token` or `error_message` that is not a string;
  - a Flask `get_json()` that raises on a wrong content type or a malformed body (Flask answers 400 BadRequest itself). The model's `None` body is a JSON `null`.
- Place Details is a function of the place id. Two places with the same id get the same details answer, whereas two real calls could differ.
- Floating-point ratings are opaque `Num` values that are copied, never computed with.
- The Text Search outcomes must cover all three possible calls (`|pages| >= 3`). Outcomes after the last call made are ignored.
