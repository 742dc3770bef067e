/** The `/stations` endpoint: the charging-station directory's answer reduced to the
    stations that have usable coordinates. */
module Stations {
  import opened Wrappers
  import Json
  import opened Api

  const LatLonRequired := "lat,lon required"
  const StationLookupFailed := "station lookup failed"

  /** A station's AddressInfo object, an empty one when the field is absent. `None` when
      looking into it raises: the station is not an object, or its AddressInfo is present
      but is not an object (`null` included). */
  function AddressInfo(p: Json.Value): Option<map<string, Json.Value>>
  {
    if !p.Obj? then None
    else
      match Json.GetOr(p.fields, "AddressInfo", Json.Obj(map[]))
      case Obj(info) => Some(info)
      case _ => None
  }

  /** The comprehension can look into `p` without raising. */
  predicate Readable(p: Json.Value)
  {
    AddressInfo(p).Some?
  }

  /** One field of a station's AddressInfo; `null` when absent. */
  function Info(p: Json.Value, key: string): Json.Value
    requires Readable(p)
  {
    Json.GetOr(AddressInfo(p).value, key, Json.Null)
  }

  /** The comprehension's filter: latitude and longitude both truthy, so a station whose
      coordinate is absent, `null` or `0` is dropped. */
  predicate HasCoordinates(p: Json.Value)
    requires Readable(p)
  {
    Json.Truthy(Info(p, "Latitude")) && Json.Truthy(Info(p, "Longitude"))
  }

  /** The summary reported for one station: its ID and the AddressInfo title,
      coordinates and first address line, each `null` when absent. */
  function Summarize(p: Json.Value): (s: StationSummary)
    requires Readable(p)
    ensures s.id == Json.GetOr(p.fields, "ID", Json.Null)
    ensures s.title == Info(p, "Title") && s.address == Info(p, "AddressLine1")
    ensures s.lat == Info(p, "Latitude") && s.lon == Info(p, "Longitude")
  {
    StationSummary(
      Json.GetOr(p.fields, "ID", Json.Null),
      Info(p, "Title"), Info(p, "Latitude"), Info(p, "Longitude"), Info(p, "AddressLine1"))
  }

  /** The station filter: the summaries of the stations with coordinates, in their order;
      `None` when some element makes the comprehension raise. */
  function FilterStations(data: seq<Json.Value>): (r: Option<seq<StationSummary>>)
    ensures r.None? <==> exists i :: 0 <= i < |data| && !Readable(data[i])
    ensures r.Some? ==> |r.value| <= |data|
    ensures r.Some? ==> forall k :: 0 <= k < |r.value| ==>
              Json.Truthy(r.value[k].lat) && Json.Truthy(r.value[k].lon)
  {
    if |data| == 0 then Some([])
    else if !Readable(data[0]) then None
    else
      var rest := FilterStations(data[1..]);
      if rest.None? then None
      else if HasCoordinates(data[0]) then Some([Summarize(data[0])] + rest.value)
      else rest
  }

  /** The filter is order-preserving and works element by element: filtering a
      concatenation concatenates the filtered parts, and it raises when either part does. */
  lemma {:induction false} FilterStationsAppend(a: seq<Json.Value>, b: seq<Json.Value>)
    ensures FilterStations(a + b) ==
              if FilterStations(a).Some? && FilterStations(b).Some? then
                Some(FilterStations(a).value + FilterStations(b).value)
              else None
  {
    if |a| == 0 {
      assert a + b == b;
      assert FilterStations(a) == Some([]);
      if FilterStations(b).Some? {
        assert [] + FilterStations(b).value == FilterStations(b).value;
      }
    } else {
      assert (a + b)[0] == a[0];
      assert (a + b)[1..] == a[1..] + b;
      FilterStationsAppend(a[1..], b);
      if Readable(a[0]) && FilterStations(a[1..]).Some? && FilterStations(b).Some? && HasCoordinates(a[0]) {
        assert [Summarize(a[0])] + (FilterStations(a[1..]).value + FilterStations(b).value)
            == ([Summarize(a[0])] + FilterStations(a[1..]).value) + FilterStations(b).value;
      }
    }
  }

  /** Every station with coordinates is reported. */
  lemma {:induction false} FilterStationsComplete(data: seq<Json.Value>)
    requires FilterStations(data).Some?
    ensures forall p :: p in data && Readable(p) && HasCoordinates(p) ==> Summarize(p) in FilterStations(data).value
  {
    if |data| > 0 {
      FilterStationsComplete(data[1..]);
      forall p | p in data && Readable(p) && HasCoordinates(p)
        ensures Summarize(p) in FilterStations(data).value
      {
        if p != data[0] {
          assert p in data[1..] by {
            var j :| 0 <= j < |data| && data[j] == p;
            assert data[1..][j - 1] == p;
          }
        }
      }
    }
  }

  /** Every reported entry summarises a station of the payload that has coordinates. */
  lemma {:induction false} FilterStationsSound(data: seq<Json.Value>)
    requires FilterStations(data).Some?
    ensures forall s :: s in FilterStations(data).value ==>
              exists p :: p in data && Readable(p) && HasCoordinates(p) && s == Summarize(p)
  {
    if |data| > 0 {
      FilterStationsSound(data[1..]);
      var rest := FilterStations(data[1..]).value;
      forall s | s in FilterStations(data).value
        ensures exists p :: p in data && Readable(p) && HasCoordinates(p) && s == Summarize(p)
      {
        if s in rest {
          var p :| p in data[1..] && Readable(p) && HasCoordinates(p) && s == Summarize(p);
          assert p in data;
        } else {
          assert data[0] in data;
        }
      }
    }
  }

  /** When every station has coordinates nothing is dropped: the result is the summaries
      of all of them, one for one. */
  lemma {:induction false} FilterStationsKeepsAll(data: seq<Json.Value>)
    requires forall i :: 0 <= i < |data| ==> Readable(data[i]) && HasCoordinates(data[i])
    ensures FilterStations(data).Some?
    ensures |FilterStations(data).value| == |data|
    ensures forall i :: 0 <= i < |data| ==> FilterStations(data).value[i] == Summarize(data[i])
  {
    if |data| > 0 {
      assert forall i :: 0 <= i < |data[1..]| ==> data[1..][i] == data[i + 1];
      FilterStationsKeepsAll(data[1..]);
    }
  }

  /** The reply to the directory's answer: a payload that is not a list, or is an empty list, yields no stations
      and no error; a list is filtered. */
  function StationsResponse(data: Json.Value): (r: Response)
    ensures r.Ok? || r == Uncaught
    ensures !data.Arr? || |data.items| == 0 ==> r == Ok(StationsBody([]))
    ensures data.Arr? ==> (r == Uncaught <==> FilterStations(data.items).None?)
    ensures r.Ok? ==> r.body.StationsBody?
    ensures r.Ok? && data.Arr? ==> Some(r.body.stations) == FilterStations(data.items)
  {
    if !data.Arr? || |data.items| == 0 then Ok(StationsBody([]))
    else
      match FilterStations(data.items)
      case None => Uncaught
      case Some(stations) => Ok(StationsBody(stations))
  }

  /** The `/stations` handler; `fetch` is the directory lookup around the given point. */
  function HandleStations(q: Query, fetch: (string, string) -> Upstream<Json.Value>): (r: Response)
    ensures !(Given(q, "lat") && Given(q, "lon")) ==> r == Err(400, LatLonRequired, None)
    ensures Given(q, "lat") && Given(q, "lon") && fetch(q["lat"], q["lon"]).Failed? ==>
              r == Err(500, StationLookupFailed, Some(fetch(q["lat"], q["lon"]).detail))
    ensures r.Ok? ==> r.body.StationsBody?
                      && forall k :: 0 <= k < |r.body.stations| ==>
                           Json.Truthy(r.body.stations[k].lat) && Json.Truthy(r.body.stations[k].lon)
    ensures Given(q, "lat") && Given(q, "lon") && fetch(q["lat"], q["lon"]).Answered? ==>
              r == StationsResponse(fetch(q["lat"], q["lon"]).payload)
  {
    if !Given(q, "lat") || !Given(q, "lon") then Err(400, LatLonRequired, None)
    else
      match fetch(q["lat"], q["lon"])
      case Failed(detail) => Err(500, StationLookupFailed, Some(detail))
      case Answered(data) => StationsResponse(data)
  }

  /** The directory is asked about the caller's point only: two directories that agree
      there give the same response. */
  lemma HandleStationsAsksOnce(q: Query, fetch1: (string, string) -> Upstream<Json.Value>,
                               fetch2: (string, string) -> Upstream<Json.Value>)
    requires Given(q, "lat") && Given(q, "lon") ==> fetch1(q["lat"], q["lon"]) == fetch2(q["lat"], q["lon"])
    ensures HandleStations(q, fetch1) == HandleStations(q, fetch2)
  {
  }
}
