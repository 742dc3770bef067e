/** The `/geocode` endpoint: a place name resolved to the coordinates of the geocoder's
    first match. */
module Geocode {
  import opened Wrappers
  import Json
  import opened Api

  const MissingPlace := "missing place"
  const GeocodingFailed := "geocoding failed"
  const NotFound := "not found"

  /** The float values of a match's `lat` and `lon` fields; `None` when the match is not
      an object, lacks one of them, or holds a value the float conversion rejects. */
  function FirstMatchCoordinates(m: Json.Value, parse: string -> Option<real>): (r: Option<(real, real)>)
    ensures r.Some? <==> m.Obj? && "lat" in m.fields && "lon" in m.fields
                         && Json.ToFloat(m.fields["lat"], parse).Some? && Json.ToFloat(m.fields["lon"], parse).Some?
    ensures r.Some? ==> Some(r.value.0) == Json.ToFloat(m.fields["lat"], parse)
                        && Some(r.value.1) == Json.ToFloat(m.fields["lon"], parse)
  {
    if m.Obj? && "lat" in m.fields && "lon" in m.fields then
      var lat := Json.ToFloat(m.fields["lat"], parse);
      var lon := Json.ToFloat(m.fields["lon"], parse);
      if lat.Some? && lon.Some? then Some((lat.value, lon.value)) else None
    else
      None
  }

  /** The reply to the geocoder's answer: no match gives 404; otherwise the answer is read from the first
      match only. */
  function GeocodeResponse(results: Json.Value, parse: string -> Option<real>): (r: Response)
    ensures r.Ok? || r == Uncaught || r == Err(404, NotFound, None)
    ensures r == Err(404, NotFound, None) <==> !Json.Truthy(results)
    ensures Json.Truthy(results) && !results.Arr? ==> r == Uncaught
    ensures r.Ok? ==> results.Arr? && |results.items| > 0 && r.body.GeocodeBody?
                      && FirstMatchCoordinates(results.items[0], parse) == Some((r.body.lat, r.body.lon))
    ensures results.Arr? && |results.items| > 0 ==>
              (r == Uncaught <==> FirstMatchCoordinates(results.items[0], parse).None?)
  {
    if !Json.Truthy(results) then Err(404, NotFound, None)
    else if !results.Arr? then Uncaught
    else
      match FirstMatchCoordinates(results.items[0], parse)
      case None => Uncaught
      case Some((lat, lon)) => Ok(GeocodeBody(lat, lon))
  }

  /** Matches after the first never influence the answer. */
  lemma GeocodeFirstMatchOnly(a: seq<Json.Value>, b: seq<Json.Value>, parse: string -> Option<real>)
    requires |a| > 0 && |b| > 0 && a[0] == b[0]
    ensures GeocodeResponse(Json.Arr(a), parse) == GeocodeResponse(Json.Arr(b), parse)
  {
  }

  /** Coordinates the geocoder sends as numeric strings come back as those numbers. */
  lemma GeocodeReadsStrings(lat: string, lon: string, rest: seq<Json.Value>, parse: string -> Option<real>)
    requires parse(lat).Some? && parse(lon).Some?
    ensures GeocodeResponse(Json.Arr([Json.Obj(map["lat" := Json.Str(lat), "lon" := Json.Str(lon)])] + rest), parse)
            == Ok(GeocodeBody(parse(lat).value, parse(lon).value))
  {
  }

  /** The `/geocode` handler; `fetch` is the search request for the place name. */
  function HandleGeocode(q: Query, parse: string -> Option<real>, fetch: string -> Upstream<Json.Value>): (r: Response)
    ensures !Given(q, "place") ==> r == Err(400, MissingPlace, None)
    ensures Given(q, "place") && fetch(q["place"]).Failed? ==>
              r == Err(500, GeocodingFailed, Some(fetch(q["place"]).detail))
    ensures r == Err(404, NotFound, None) <==>
              Given(q, "place") && fetch(q["place"]).Answered? && !Json.Truthy(fetch(q["place"]).payload)
    ensures r.Ok? ==> r.body.GeocodeBody?
    ensures Given(q, "place") && fetch(q["place"]).Answered? ==>
              r == GeocodeResponse(fetch(q["place"]).payload, parse)
  {
    if !Given(q, "place") then Err(400, MissingPlace, None)
    else
      match fetch(q["place"])
      case Failed(detail) => Err(500, GeocodingFailed, Some(detail))
      case Answered(results) => GeocodeResponse(results, parse)
  }
}
