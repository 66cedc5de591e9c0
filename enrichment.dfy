/**
  The enrichment loop of `search_places` (app.py:93-155): one record per raw place, in
  order, built by one of the three builders of `Records`. A transport failure of a details
  call is not absorbed per place: it ends the whole request (app.py:121, 159-161).
 */
module Enrichment {
  import opened Wrappers
  import opened Json
  import opened Upstream
  import opened Records

  /** The Place Details call for one place id (app.py:115-122), as a function of the id. */
  type DetailsLookup = Value -> DetailsOutcome

  /** One iteration of the loop: the record for `place`, or the reply for the exception
      that ends the request. */
  function BuildRecord(place: JsonObject, details: DetailsLookup): (r: Result<JsonObject, Response>)
    ensures !Truthy(PlaceIdOf(place)) ==> r == Success(MissingIdRecord(place))
    ensures r.Success? ==> RecordFields <= r.value.Keys
    ensures r.Success? ==> ("place_id" in r.value <==> Truthy(PlaceIdOf(place)))
    ensures r.Success? && Truthy(PlaceIdOf(place)) ==> r.value["place_id"] == PlaceIdOf(place)
    ensures r.Failure? ==> Truthy(PlaceIdOf(place)) && r.error.StatusCode() in {500, 503}
    ensures (r.Failure? && r.error.StatusCode() == 503)
        <==> (Truthy(PlaceIdOf(place)) && details(PlaceIdOf(place)).DetailsTransportFailure?)
    ensures Truthy(PlaceIdOf(place)) && details(PlaceIdOf(place)).Details? &&
            !(details(PlaceIdOf(place)).status == Some("OK") && details(PlaceIdOf(place)).result.Some?)
        ==> r == Success(FallbackRecord(PlaceIdOf(place), place))
    ensures Truthy(PlaceIdOf(place)) && details(PlaceIdOf(place)).Details? &&
            details(PlaceIdOf(place)).status == Some("OK") && details(PlaceIdOf(place)).result.Some?
        ==> r == DetailsRecord(PlaceIdOf(place), details(PlaceIdOf(place)).result.value)
    ensures Truthy(PlaceIdOf(place)) && details(PlaceIdOf(place)).DetailsUnexpected?
        ==> r == Failure(UnexpectedError(details(PlaceIdOf(place)).reason))
  {
    var placeId := PlaceIdOf(place);
    if !Truthy(placeId) then
      Success(MissingIdRecord(place))
    else
      match details(placeId)
      case DetailsTransportFailure(reason) => Failure(NetworkError(reason))
      case DetailsUnexpected(reason) => Failure(UnexpectedError(reason))
      case Details(status, result) =>
        if status == Some("OK") && result.Some? then DetailsRecord(placeId, result.value)
        else Success(FallbackRecord(placeId, place))
  }

  /** One loop iteration for every place, given the details lookup. */
  function Builder(details: DetailsLookup): JsonObject -> Result<JsonObject, Response>
  {
    place => BuildRecord(place, details)
  }

  /** Place `k` is the first whose record cannot be built. */
  predicate FailsFirstAt(raw: seq<JsonObject>, build: JsonObject -> Result<JsonObject, Response>, k: nat)
    requires k < |raw|
  {
    && build(raw[k]).Failure?
    && forall j :: 0 <= j < k ==> build(raw[j]).Success?
  }

  /** What the loop produces for `raw`: one record per raw place, in order, or the reply of
      the first place whose record cannot be built (see `EnrichRecords` and
      `EnrichFailsAtFirst`). */
  function Enrich(raw: seq<JsonObject>, build: JsonObject -> Result<JsonObject, Response>): (r: Result<seq<JsonObject>, Response>)
    ensures r.Success? ==> |r.value| == |raw|
    decreases |raw|
  {
    if raw == [] then Success([])
    else
      var init, last := raw[..|raw| - 1], raw[|raw| - 1];
      match Enrich(init, build)
      case Failure(e) => Failure(e)
      case Success(records) =>
        match build(last)
        case Failure(e) => Failure(e)
        case Success(record) => Success(records + [record])
  }

  /** Enrichment succeeds exactly when every place's record can be built, and then the
      i-th record is the one built from the i-th raw place. */
  lemma {:induction false} EnrichRecords(raw: seq<JsonObject>, build: JsonObject -> Result<JsonObject, Response>)
    ensures Enrich(raw, build).Success? <==> forall i :: 0 <= i < |raw| ==> build(raw[i]).Success?
    ensures Enrich(raw, build).Success? ==>
      forall i :: 0 <= i < |raw| ==> Enrich(raw, build).value[i] == build(raw[i]).value
    decreases |raw|
  {
    if raw != [] {
      var init := raw[..|raw| - 1];
      EnrichRecords(init, build);
      assert forall i :: 0 <= i < |init| ==> init[i] == raw[i];
    }
  }

  /** The reply of a failing enrichment is that of its first failing place. */
  lemma {:induction false} EnrichFailsAtFirst(raw: seq<JsonObject>, build: JsonObject -> Result<JsonObject, Response>, k: nat)
    requires k < |raw| && FailsFirstAt(raw, build, k)
    ensures Enrich(raw, build) == Failure(build(raw[k]).error)
    decreases |raw|
  {
    var init := raw[..|raw| - 1];
    EnrichRecords(init, build);
    if k < |raw| - 1 {
      assert FailsFirstAt(init, build, k);
      EnrichFailsAtFirst(init, build, k);
    }
  }

  /** A complete enrichment emits one record per raw place, in the same order: the
      Missing-ID record for a place without a truthy id, otherwise a record carrying the
      place's own id, which is the record merged from the details result when the lookup
      answered "OK" with a "result", and the fallback record otherwise. */
  lemma RecordsFollowRawPlaces(raw: seq<JsonObject>, details: DetailsLookup, records: seq<JsonObject>)
    requires Enrich(raw, Builder(details)) == Success(records)
    ensures |records| == |raw|
    ensures forall i :: 0 <= i < |raw| ==> RecordFollows(raw[i], details, records[i])
  {
    EnrichRecords(raw, Builder(details));
    forall i | 0 <= i < |raw|
      ensures RecordFollows(raw[i], details, records[i])
    {
      assert Builder(details)(raw[i]) == BuildRecord(raw[i], details);
      BuiltRecordFollows(raw[i], details);
    }
  }

  lemma BuiltRecordFollows(place: JsonObject, details: DetailsLookup)
    requires BuildRecord(place, details).Success?
    ensures RecordFollows(place, details, BuildRecord(place, details).value)
  {
  }

  /** How the record emitted for `place` relates to it. */
  predicate RecordFollows(place: JsonObject, details: DetailsLookup, record: JsonObject)
  {
    var id := PlaceIdOf(place);
    && (!Truthy(id) ==> record == MissingIdRecord(place))
    && (Truthy(id) ==> "place_id" in record && record["place_id"] == id)
    && (Truthy(id) && DetailsFallback(details(id)) ==> record == FallbackRecord(id, place))
    && (Truthy(id) && DetailsFound(details(id)) ==> Success(record) == DetailsRecord(id, details(id).result.value))
  }

  /** A details lookup with status "OK" and a "result": the record merges the details
      result over the place (app.py:123-139). */
  predicate DetailsFound(outcome: DetailsOutcome)
  {
    outcome.Details? && outcome.status == Some("OK") && outcome.result.Some?
  }

  /** A details lookup whose status is not "OK", or that has no "result": the place keeps
      its raw fields (app.py:140-155). */
  predicate DetailsFallback(outcome: DetailsOutcome)
  {
    outcome.Details? && !(outcome.status == Some("OK") && outcome.result.Some?)
  }

  /** The details endpoint is never asked for "email" (app.py:117), so when no details result
      carries one, every record's "email" is "N/A". */
  lemma EmailIsAlwaysNA(raw: seq<JsonObject>, details: DetailsLookup, records: seq<JsonObject>)
    requires Enrich(raw, Builder(details)) == Success(records)
    requires forall id :: details(id).Details? && details(id).result.Some? && details(id).result.value.Obj? ==>
      "email" !in details(id).result.value.fields
    ensures forall i :: 0 <= i < |records| ==> "email" in records[i] && records[i]["email"] == NA
  {
    EnrichRecords(raw, Builder(details));
    forall i | 0 <= i < |records|
      ensures "email" in records[i] && records[i]["email"] == NA
    {
      assert Builder(details)(raw[i]) == BuildRecord(raw[i], details);
    }
  }

  /** A transport failure of the details call for a place ends the whole enrichment with a
      503 reply, once every earlier place got its record: it is not absorbed per place. */
  lemma DetailsTransportFailureAborts(raw: seq<JsonObject>, details: DetailsLookup, k: nat, reason: string)
    requires k < |raw|
    requires forall j :: 0 <= j < k ==> BuildRecord(raw[j], details).Success?
    requires Truthy(PlaceIdOf(raw[k])) && details(PlaceIdOf(raw[k])) == DetailsTransportFailure(reason)
    ensures Enrich(raw, Builder(details)) == Failure(NetworkError(reason))
  {
    assert forall j :: 0 <= j < k ==> Builder(details)(raw[j]) == BuildRecord(raw[j], details);
    assert Builder(details)(raw[k]) == BuildRecord(raw[k], details);
    EnrichFailsAtFirst(raw, Builder(details), k);
  }

  /** A failing enrichment answers with a 500 or 503 reply, never a client error. */
  lemma {:induction false} EnrichFailureIsServerError(raw: seq<JsonObject>, details: DetailsLookup)
    ensures Enrich(raw, Builder(details)).Failure? ==> Enrich(raw, Builder(details)).error.StatusCode() in {500, 503}
    decreases |raw|
  {
    if raw != [] {
      EnrichFailureIsServerError(raw[..|raw| - 1], details);
      assert Builder(details)(raw[|raw| - 1]) == BuildRecord(raw[|raw| - 1], details);
    }
  }

  /** The place ids a complete enrichment looks up, in order: the truthy ones. */
  function IdsLookedUp(raw: seq<JsonObject>): (ids: seq<Value>)
    ensures |ids| <= |raw|
    ensures forall i :: 0 <= i < |ids| ==> Truthy(ids[i])
    decreases |raw|
  {
    if raw == [] then []
    else
      var last := raw[|raw| - 1];
      IdsLookedUp(raw[..|raw| - 1]) + if Truthy(PlaceIdOf(last)) then [PlaceIdOf(last)] else []
  }

  /** A complete enrichment of a prefix followed by a place whose record cannot be built:
      the whole enrichment fails with that place's reply. */
  lemma EnrichPrefixThenFailure(raw: seq<JsonObject>, build: JsonObject -> Result<JsonObject, Response>, i: nat)
    requires i < |raw|
    requires Enrich(raw[..i], build).Success? && build(raw[i]).Failure?
    ensures FailsFirstAt(raw, build, i)
    ensures Enrich(raw, build) == Failure(build(raw[i]).error)
  {
    EnrichRecords(raw[..i], build);
    assert forall j :: 0 <= j < i ==> raw[..i][j] == raw[j];
    EnrichFailsAtFirst(raw, build, i);
  }

  /** One more record appended to a complete enrichment of a prefix. */
  lemma EnrichStep(raw: seq<JsonObject>, build: JsonObject -> Result<JsonObject, Response>, i: nat,
                   records: seq<JsonObject>, record: JsonObject)
    requires i < |raw|
    requires Enrich(raw[..i], build) == Success(records) && build(raw[i]) == Success(record)
    ensures Enrich(raw[..i + 1], build) == Success(records + [record])
  {
    assert raw[..i + 1][..i] == raw[..i];
  }

  /** The loop of app.py:94-155. `looked` records the place ids sent to the details
      endpoint: every truthy id when all records are built, and the truthy ids up to and
      including the failing place otherwise. */
  method EnrichPlaces(raw: seq<JsonObject>, details: DetailsLookup)
    returns (r: Result<seq<JsonObject>, Response>, ghost looked: seq<Value>)
    ensures r == Enrich(raw, Builder(details))
    ensures r.Success? ==> looked == IdsLookedUp(raw)
    ensures r.Failure? ==>
      exists k :: 0 <= k < |raw| && FailsFirstAt(raw, Builder(details), k) && looked == IdsLookedUp(raw[..k + 1])
  {
    var detailedPlaces: seq<JsonObject> := [];
    looked := [];
    for i := 0 to |raw|
      invariant Enrich(raw[..i], Builder(details)) == Success(detailedPlaces)
      invariant looked == IdsLookedUp(raw[..i])
    {
      assert raw[..i + 1][..i] == raw[..i];
      var placeId := Get(raw[i], "place_id", Null);
      if Truthy(placeId) {
        looked := looked + [placeId];
      }
      var built := BuildRecord(raw[i], details);
      assert Builder(details)(raw[i]) == built;
      if built.Failure? {
        EnrichPrefixThenFailure(raw, Builder(details), i);
        return Failure(built.error), looked;
      }
      EnrichStep(raw, Builder(details), i, detailedPlaces, built.value);
      detailedPlaces := detailedPlaces + [built.value];
    }
    assert raw[..|raw|] == raw;
    r := Success(detailedPlaces);
  }
}
