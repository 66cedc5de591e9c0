/**
  The three ways one raw Text Search place becomes one output record
  (app.py:100-112, 126-139, 142-155). Each builder is a dict literal over the raw
  place or the details result; the Python evaluation of `.get` is `Json.Get`.
 */
module Records {
  import opened Wrappers
  import opened Json
  import opened Upstream

  const Unknown: Value := Str("UNKNOWN")
  const NoTypes: Value := List([])
  const MissingIdName: Value := Str("N/A (Missing ID)")
  const DetailsFailedName: Value := Str("N/A (Details Failed)")

  /** The keys every output record has; records built from a place with an id also have "place_id". */
  const RecordFields: set<string> :=
    {"name", "address", "website", "phone_number", "email", "types", "rating",
     "user_ratings_total", "business_status", "opening_hours", "google_maps_url"}

  /** The raw Text Search place's identifier, `basic_place_info.get("place_id")`. */
  function PlaceIdOf(place: JsonObject): Value
  {
    Get(place, "place_id", Null)
  }

  /** A record whose detail-only fields all hold the "N/A" placeholder. */
  predicate DetailOnlyFieldsNA(r: JsonObject)
  {
    && "website" in r && r["website"] == NA
    && "phone_number" in r && r["phone_number"] == NA
    && "email" in r && r["email"] == NA
    && "opening_hours" in r && r["opening_hours"] == NA
    && "google_maps_url" in r && r["google_maps_url"] == NA
  }

  /** `r[out]` is `src[key]` when present, otherwise `default`. */
  predicate CopiedFrom(r: JsonObject, out: string, src: JsonObject, key: string, default: Value)
  {
    out in r && r[out] == if key in src then src[key] else default
  }

  /** The output record with the given field values (the shape shared by app.py:100-112,
      126-139 and 142-155, without "place_id"). */
  function OutputRecord(name: Value, address: Value, website: Value, phoneNumber: Value, email: Value,
                        types: Value, rating: Value, userRatingsTotal: Value, businessStatus: Value,
                        openingHours: Value, googleMapsUrl: Value): (r: JsonObject)
    ensures r.Keys == RecordFields
    ensures r["name"] == name && r["address"] == address && r["website"] == website
    ensures r["phone_number"] == phoneNumber && r["email"] == email && r["types"] == types
    ensures r["rating"] == rating && r["user_ratings_total"] == userRatingsTotal
    ensures r["business_status"] == businessStatus && r["opening_hours"] == openingHours
    ensures r["google_maps_url"] == googleMapsUrl
  {
    map[
      "name" := name,
      "address" := address,
      "website" := website,
      "phone_number" := phoneNumber,
      "email" := email,
      "types" := types,
      "rating" := rating,
      "user_ratings_total" := userRatingsTotal,
      "business_status" := businessStatus,
      "opening_hours" := openingHours,
      "google_maps_url" := googleMapsUrl
    ]
  }

  /** A record of that shape that also carries the place id. */
  function WithPlaceId(placeId: Value, r: JsonObject): (r': JsonObject)
    requires r.Keys == RecordFields
    ensures r'.Keys == RecordFields + {"place_id"} && r'["place_id"] == placeId
    ensures forall k :: k in RecordFields ==> r'[k] == r[k]
  {
    r["place_id" := placeId]
  }

  /** Record for a raw place without a (truthy) place_id (app.py:100-112). It takes only name,
      address and types from the raw place and has no "place_id" key. */
  function MissingIdRecord(place: JsonObject): (r: JsonObject)
    ensures r.Keys == RecordFields && "place_id" !in r
    ensures CopiedFrom(r, "name", place, "name", MissingIdName)
    ensures CopiedFrom(r, "address", place, "formatted_address", NA)
    ensures CopiedFrom(r, "types", place, "types", NoTypes)
    ensures r["rating"] == NA && r["user_ratings_total"] == Int(0) && r["business_status"] == Unknown
    ensures DetailOnlyFieldsNA(r)
  {
    OutputRecord(
      Get(place, "name", MissingIdName), Get(place, "formatted_address", NA), NA, NA, NA,
      Get(place, "types", NoTypes), NA, Int(0), Unknown, NA, NA)
  }

  /** Record for a place whose details lookup answered a non-OK status or no "result"
      (app.py:142-155): the raw place's own fields, "N/A" for every detail-only field. */
  function FallbackRecord(placeId: Value, place: JsonObject): (r: JsonObject)
    ensures r.Keys == RecordFields + {"place_id"} && r["place_id"] == placeId
    ensures CopiedFrom(r, "name", place, "name", DetailsFailedName)
    ensures CopiedFrom(r, "address", place, "formatted_address", NA)
    ensures CopiedFrom(r, "types", place, "types", NoTypes)
    ensures CopiedFrom(r, "rating", place, "rating", NA)
    ensures CopiedFrom(r, "user_ratings_total", place, "user_ratings_total", Int(0))
    ensures CopiedFrom(r, "business_status", place, "business_status", Unknown)
    ensures DetailOnlyFieldsNA(r)
  {
    WithPlaceId(placeId, OutputRecord(
      Get(place, "name", DetailsFailedName), Get(place, "formatted_address", NA), NA, NA, NA,
      Get(place, "types", NoTypes), Get(place, "rating", NA), Get(place, "user_ratings_total", Int(0)),
      Get(place, "business_status", Unknown), NA, NA))
  }

  /** `place_data.get("opening_hours", {})`: the opening-hours value the record reads
      "weekday_text" from. */
  function OpeningHoursOf(data: JsonObject): Value
  {
    Get(data, "opening_hours", Obj(map[]))
  }

  /** The merged record of app.py:126-139, once `result` and its "opening_hours" are known
      to be JSON objects: every field comes from the details result or a fixed default,
      none from the raw place. */
  function DetailsMerge(placeId: Value, data: JsonObject, hours: JsonObject): (rec: JsonObject)
    ensures rec.Keys == RecordFields + {"place_id"} && rec["place_id"] == placeId
    ensures CopiedFrom(rec, "name", data, "name", Null)
    ensures CopiedFrom(rec, "address", data, "formatted_address", Null)
    ensures CopiedFrom(rec, "website", data, "website", NA)
    ensures CopiedFrom(rec, "phone_number", data, "formatted_phone_number", NA)
    ensures CopiedFrom(rec, "email", data, "email", NA)
    ensures CopiedFrom(rec, "types", data, "types", NoTypes)
    ensures CopiedFrom(rec, "rating", data, "rating", NA)
    ensures CopiedFrom(rec, "user_ratings_total", data, "user_ratings_total", Int(0))
    ensures CopiedFrom(rec, "business_status", data, "business_status", Unknown)
    ensures CopiedFrom(rec, "opening_hours", hours, "weekday_text", NA)
    ensures CopiedFrom(rec, "google_maps_url", data, "url", NA)
  {
    WithPlaceId(placeId, OutputRecord(
      Get(data, "name", Null), Get(data, "formatted_address", Null), Get(data, "website", NA),
      Get(data, "formatted_phone_number", NA), Get(data, "email", NA), Get(data, "types", NoTypes),
      Get(data, "rating", NA), Get(data, "user_ratings_total", Int(0)), Get(data, "business_status", Unknown),
      Get(hours, "weekday_text", NA), Get(data, "url", NA)))
  }

  /** Record for a place whose details lookup answered status "OK" with a "result"
      (app.py:125-139). Calling `.get` on a `result` or an "opening_hours" value that is
      not a JSON object raises an AttributeError, which the handler turns into a 500 reply. */
  function DetailsRecord(placeId: Value, result: Value): (r: Result<JsonObject, Response>)
    ensures r.Failure? <==> !result.Obj? || !OpeningHoursOf(result.fields).Obj?
    ensures !result.Obj? ==> r == Failure(UnexpectedError(NoGetAttribute(result)))
    ensures result.Obj? && !OpeningHoursOf(result.fields).Obj?
        ==> r == Failure(UnexpectedError(NoGetAttribute(OpeningHoursOf(result.fields))))
    ensures r.Failure? ==> r.error.StatusCode() == 500
    ensures r.Success? ==> r.value == DetailsMerge(placeId, result.fields, OpeningHoursOf(result.fields).fields)
  {
    if !result.Obj? then
      Failure(UnexpectedError(NoGetAttribute(result)))
    else
      var hours := OpeningHoursOf(result.fields);
      if !hours.Obj? then
        Failure(UnexpectedError(NoGetAttribute(hours)))
      else
        Success(DetailsMerge(placeId, result.fields, hours.fields))
  }
}
