/**
  The Text Search pagination loop of `search_places` (app.py:39-83): up to three calls,
  each after the first carrying the previous page's `next_page_token` and preceded by
  the two-second delay. `Paginate` says declaratively which calls are made and what they
  produce; `FetchPages` is the loop, proved to compute it.
 */
module Pagination {
  import opened Wrappers
  import opened Json
  import opened Upstream

  /** `max_pages` (app.py:40). */
  const MaxPages: nat := 3

  /** Python truthiness of the token (`if next_page_token:`, `if not next_page_token`). */
  predicate TokenPresent(token: Option<string>)
  {
    token.Some? && token.value != ""
  }

  /** A page whose status is "OK". */
  predicate IsOk(o: PageOutcome)
  {
    o.Page? && o.status == Some("OK")
  }

  /** A page after which the loop makes another call: status "OK" and a next_page_token. */
  predicate Continues(o: PageOutcome)
  {
    IsOk(o) && TokenPresent(o.nextPageToken)
  }

  /** What one call adds to the accumulator: the results of an OK page, nothing otherwise. */
  function OkResults(o: PageOutcome): seq<JsonObject>
  {
    if IsOk(o) then o.results else []
  }

  /** The in-order concatenation of the results of every OK page in `s`. */
  function Gather(s: seq<PageOutcome>): seq<JsonObject>
  {
    if s == [] then [] else Gather(s[..|s| - 1]) + OkResults(s[|s| - 1])
  }

  /** The index of the last Text Search call, looking from call `i` on: the first call
      whose page does not continue pagination, or the last call allowed. */
  function LastCall(pages: seq<PageOutcome>, i: nat): (k: nat)
    requires i < MaxPages <= |pages|
    ensures i <= k < MaxPages
    ensures forall j :: i <= j < k ==> Continues(pages[j])
    ensures k == MaxPages - 1 || !Continues(pages[k])
    decreases MaxPages - i
  {
    if i == MaxPages - 1 || !Continues(pages[i]) then i else LastCall(pages, i + 1)
  }

  /** The last call is the first one that does not continue pagination, or the last allowed. */
  lemma LastCallIs(pages: seq<PageOutcome>, k: nat)
    requires k < MaxPages <= |pages|
    requires forall j :: 0 <= j < k ==> Continues(pages[j])
    requires k == MaxPages - 1 || !Continues(pages[k])
    ensures LastCall(pages, 0) == k
  {
  }

  /** The number of Text Search calls the loop makes. */
  function CallCount(pages: seq<PageOutcome>): nat
    requires MaxPages <= |pages|
  {
    LastCall(pages, 0) + 1
  }

  /** How pagination ends: with the accumulated raw places, or with a reply sent at once. */
  datatype PageRun = Collected(places: seq<JsonObject>) | Stopped(reply: Response)

  /** What pagination produces when the upstream answers the successive calls with `pages`.
      Every call before the last returned an OK page with a token, so their results are all
      collected; the last call decides the rest. */
  function Paginate(pages: seq<PageOutcome>): PageRun
    requires MaxPages <= |pages|
  {
    var last := LastCall(pages, 0);
    var before := Gather(pages[..last]);
    match pages[last]
    case PageTransportFailure(reason) => Stopped(NetworkError(reason))
    case PageUnexpected(reason) => Stopped(UnexpectedError(reason))
    case Page(status, results, _, message) =>
      if status == Some("OK") then Collected(before + results)
      else if status == Some("ZERO_RESULTS") && last == 0 then Stopped(ZeroResults)
      else if before == [] then Stopped(TextSearchError(status, message))
      else Collected(before)
  }

  /** The places collected are the in-order concatenation of the results of every OK page
      fetched. */
  lemma {:induction false} CollectedAreFetchedOkResults(pages: seq<PageOutcome>)
    requires MaxPages <= |pages|
    ensures Paginate(pages).Collected? ==> Paginate(pages).places == Gather(pages[..CallCount(pages)])
  {
    var last := LastCall(pages, 0);
    assert pages[..last + 1][..last] == pages[..last];
  }

  /** "ZERO_RESULTS" on the first page ends the request with the zero-results reply. */
  lemma ZeroResultsOnFirstPage(pages: seq<PageOutcome>)
    requires MaxPages <= |pages|
    requires pages[0].Page? && pages[0].status == Some("ZERO_RESULTS")
    ensures Paginate(pages) == Stopped(ZeroResults)
  {
  }

  /** Partial success: when page 1 is OK with results and a token and page 2 answers any
      status other than "OK", pagination ends with exactly page 1's results. */
  lemma {:induction false} PartialSuccessAfterFirstPage(pages: seq<PageOutcome>)
    requires MaxPages <= |pages|
    requires Continues(pages[0]) && pages[0].results != []
    requires pages[1].Page? && pages[1].status != Some("OK")
    ensures Paginate(pages) == Collected(pages[0].results)
  {
    LastCallIs(pages, 1);
    assert pages[..1][..0] == [];
    assert Gather(pages[..1]) == pages[0].results;
  }

  /** A "ZERO_RESULTS" page after an OK page that had no results but a token reaches the
      error branch of app.py:74-78 with an empty accumulator, so the request fails with a 500
      reply naming "ZERO_RESULTS". The `else` of app.py:82-83 that was meant for this case is
      never reached, because the condition of app.py:74 holds whenever app.py:65 does not. */
  lemma {:induction false} LaterZeroResultsWithNothingCollected(pages: seq<PageOutcome>)
    requires MaxPages <= |pages|
    requires Continues(pages[0]) && pages[0].results == []
    requires pages[1].Page? && pages[1].status == Some("ZERO_RESULTS")
    ensures Paginate(pages) == Stopped(TextSearchError(Some("ZERO_RESULTS"), pages[1].errorMessage))
  {
    LastCallIs(pages, 1);
    assert pages[..1][..0] == [];
    assert Gather(pages[..1]) == pages[0].results;
  }

  /** The loop of app.py:45-83. `sent` records the pagetoken sent with each call (None
      for none) and `delays` the `time.sleep(2)` calls. Where the source breaks out of the
      loop, this method returns what was collected; the emptiness check that follows the
      loop (app.py:86-88) is made by the caller. */
  method FetchPages(pages: seq<PageOutcome>) returns (run: PageRun, ghost sent: seq<Option<string>>, ghost delays: nat)
    requires MaxPages <= |pages|
    ensures run == Paginate(pages)
    ensures |sent| == CallCount(pages) <= MaxPages
    ensures sent[0] == None
    ensures forall i :: 0 < i < |sent| ==> Continues(pages[i - 1]) && sent[i] == pages[i - 1].nextPageToken
    ensures delays == |sent| - 1
  {
    var acc: seq<JsonObject> := [];
    var currentPage: nat := 0;
    var nextPageToken: Option<string> := None;
    sent, delays := [], 0;
    while currentPage < MaxPages
      invariant currentPage <= MaxPages && |sent| == currentPage
      invariant forall j :: 0 <= j < currentPage ==> Continues(pages[j])
      invariant acc == Gather(pages[..currentPage])
      invariant nextPageToken == if currentPage == 0 then None else pages[currentPage - 1].nextPageToken
      invariant currentPage > 0 ==> sent[0] == None
      invariant forall i :: 0 < i < currentPage ==> sent[i] == pages[i - 1].nextPageToken
      invariant delays == if currentPage == 0 then 0 else currentPage - 1
    {
      currentPage := currentPage + 1;
      var pageToken: Option<string> := None;
      if TokenPresent(nextPageToken) {
        pageToken := nextPageToken;
        delays := delays + 1;
      }
      sent := sent + [pageToken];
      assert pages[..currentPage][..currentPage - 1] == pages[..currentPage - 1];
      if !Continues(pages[currentPage - 1]) || currentPage == MaxPages {
        LastCallIs(pages, currentPage - 1);
      }
      match pages[currentPage - 1] {
        case PageTransportFailure(reason) =>
          return Stopped(NetworkError(reason)), sent, delays;
        case PageUnexpected(reason) =>
          return Stopped(UnexpectedError(reason)), sent, delays;
        case Page(status, results, token, message) =>
          if status == Some("OK") {
            acc := acc + results;
            nextPageToken := token;
            if !TokenPresent(nextPageToken) {
              return Collected(acc), sent, delays;
            }
          } else if status == Some("ZERO_RESULTS") && currentPage == 1 {
            return Stopped(ZeroResults), sent, delays;
          } else if status != Some("OK") {
            if acc == [] {
              return Stopped(TextSearchError(status, message)), sent, delays;
            } else {
              return Collected(acc), sent, delays;
            }
          } else {
            assert false;
          }
      }
    }
    if currentPage == MaxPages {
      LastCallIs(pages, MaxPages - 1);
      assert pages[..MaxPages][..MaxPages - 1] == pages[..MaxPages - 1];
    }
    run := Collected(acc);
  }
}
