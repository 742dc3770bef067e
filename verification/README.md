# EV route planner gateway — a Dafny model of its request logic

The EV route planner's backend is a small Flask gateway (`backend/app.py`) with three
read-only endpoints. `/route` asks the OSRM routing service for a route and an alternative
between two points. `/stations` asks the Open Charge Map directory for charging stations
near a point. `/geocode` asks the Nominatim geocoder to resolve a place name. This project
models the decision logic inside the three handlers: how query parameters are validated, how
the URL for the routing service is built, how routes are chosen, how stations are filtered
and how a geocoding answer is read. The network calls are replaced by function parameters.

Layout, one module per concern:

- `wrappers.dfy` (`Wrappers`): `Option` and `Result`.
- `strings.dfy` (`Strings`): Python's `str.split(',')` and `str.lower()` as the `/route`
  handler uses them. It also has `Join`, which writes pieces with a separator between them,
  the way the formatted strings that build the routing URL do. Includes the split/join
  round trips.
- `json.dfy` (`Json`): decoded JSON values (`Json.Value`), Python truthiness, `dict.get`
  with a default, and `float(...)` applied to a decoded value.
- `api.dfy` (`Api`): the query string, the outcome of an upstream call (`Upstream`), and
  the response bodies. A `Response` is one of three things: a 200 body, a handled error
  `{error, detail?}` with its status, or `Uncaught`, meaning an exception escaped the handler
  and the framework answered with a bare 500.
- `routing.dfy` (`Routing`): the `/route` endpoint.
- `stations.dfy` (`Stations`): the `/stations` endpoint.
- `geocode.dfy` (`Geocode`): the `/geocode` endpoint.

Interfaces that stay abstract are passed in as parameters:

- `parse: string -> Option<real>` stands for Python's `float` on a string. `None` means it
  raises.
- `fmt: real -> string` stands for Python's float formatting in the f-string that builds
  the OSRM URL.
- `fetch` stands for the one `requests.get` call of each handler. It returns
  `Failed(detail)` when the call raised, for example on a network error, a timeout or a
  non-2xx status. Otherwise it returns `Answered(json)`.

Three behaviours of the code differ from what the API's error messages suggest. The model
follows the code:

- Not every error comes back as a JSON `{error, detail?}`. Each handler guards its
  upstream call with a `try`, and `/route` also guards its coordinate parsing, turning any
  failure there into the 400. Reshaping the upstream answer is not guarded. Some payloads make that reshaping raise:
  - a routing answer that is not a dict;
  - a truthy `routes` value that is not a list;
  - a route lacking `distance`, `duration` or `geometry`;
  - a station list element that is not a dict, or whose `AddressInfo` is present but not a
    dict (`null` included);
  - a truthy geocoder answer that is not a list;
  - a geocoding match lacking `lat`/`lon` or holding an unconvertible value.

  Each of these escapes the handler. The model answers `Uncaught` for them, not the
  handled `Err(500, …)`.
- `/route` answers 404 `no routes found` whenever `routes` is falsy, not only for an empty
  list. That includes an answer with no `routes` key and `"routes": null`.
- `/geocode` answers 404 whenever the geocoder's answer is falsy. `float(true)` is `1.0`, so
  a boolean coordinate is accepted.

A station whose latitude or longitude is `0` is dropped, like a missing one. That is Python
truthiness applied to the coordinates. It is modelled as written, so a station on the equator
or on the prime meridian never appears.

## Model

| member | source | states |
|---|---|---|
| Strings.Split | backend/app.py:29-30 | `raw.split(',')` has one more piece than `raw` has commas, and no piece contains a comma |
| Strings.JoinOfSplit | backend/app.py:29-30 | re-joining the pieces of a split gives back the original text, so splitting loses nothing |
| Strings.SplitOfJoin | backend/app.py:13-15 | comma- or semicolon-free pieces joined by that separator split back into exactly those pieces |
| Strings.Lower | backend/app.py:34 | lower-casing keeps the length and maps each character on its own, ASCII capitals to small letters and everything else unchanged |
| Strings.LowerIsTrueIff | backend/app.py:34 | `s.lower() == 'true'` holds exactly for the case variants of "true" |
| Routing.ParseCoord | backend/app.py:28-32 | a coordinate text is accepted only if it has exactly one comma (two parts) |
| Routing.ParseCoordOfPair | backend/app.py:29-30 | for `a,b`, acceptance holds iff both halves parse; the first half is the latitude and the second the longitude |
| Routing.BlockedIff | backend/app.py:34 | `blocked` is true iff the parameter is present and spells "true" in any letter case; absent means false |
| Routing.ParseRouteQuery | backend/app.py:23-34 | a missing or empty `start`/`end` gives 400 `missing start or end` before any parsing; otherwise an unparseable one gives 400 `bad start/end format; expected lat,lon`; success carries both parsed points and the flag |
| Routing.OsrmPathRoundTrip | backend/app.py:12-15 | the path sent upstream is `lon,lat;lon,lat`; a reader taking longitude first recovers exactly the caller's two points in order |
| Routing.OsrmUrl | backend/app.py:15 | the routing URL starts with the service's driving endpoint followed by `/` |
| Routing.OsrmUrlParts | backend/app.py:13-15 | the URL splits at its only `?` into endpoint-plus-path and the query string, provided the formatted numbers have no `?` |
| Routing.OsrmQueryParameters | backend/app.py:15 | the query string holds exactly `overview=full`, `geometries=geojson` and `alternatives=` with the flag |
| Routing.Select | backend/app.py:42-60 | no routes gives nothing; primary is route 0; alternative is route 1 iff there are two or more routes; chosen is route 1 when blocked with two or more routes and route 0 otherwise; the flag is echoed |
| Routing.SelectChoosesOffered | backend/app.py:45-47 | the chosen route is the primary or the alternative, and it differs from the primary only when blocked |
| Routing.SelectLooksAtFirstTwo | backend/app.py:45-59 | routes after the second never affect the bundle |
| Routing.ToRouteOption | backend/app.py:49-54 | a route renders iff it is an object with `distance`, `duration` and `geometry`, which become `distance_m`, `duration_s` and `geometry` unchanged; otherwise the subscript raises |
| Routing.ToRouteOptionIgnoresOtherFields | backend/app.py:49-54 | two routes that agree on those three fields render the same: every other field is dropped |
| Routing.RenderBundle | backend/app.py:56-61 | the bundle renders iff chosen, primary and (when present) alternative each render; the rendered fields are theirs, and the `blocked` flag is kept |
| Routing.RouteResponse | backend/app.py:41-61 | the answer is a 200, a 404 `no routes found` or an escaping exception, never another error; a non-dict answer or a truthy non-list `routes` raises; a falsy `routes` gives 404; for a non-empty list it raises exactly when route 0, or route 1 if present, does not render, and otherwise answers 200 with primary, alternative and chosen rendered from routes 0 and 1 under the selection policy |
| Routing.HandleRoute | backend/app.py:22-61 | missing endpoints give 400 `missing start or end`; an unparseable endpoint gives 400 `bad start/end format; expected lat,lon`, the same response validation produces; a 400 arises exactly when validation fails; after valid input, an answered routing call is replied to as that answer dictates for the parsed `blocked` flag; a 200 carries a route bundle echoing the flag |
| Routing.HandleRouteAsksOnce | backend/app.py:36-37 | the response depends on the routing service only through its answer for the one URL built from the parsed points; a rejected query never consults it |
| Routing.HandleRouteUpstreamFailure | backend/app.py:36-39 | a failed routing call after valid input gives 500 `routing error` with the failure text as detail |
| Stations.Summarize | backend/app.py:97-103 | a station's summary carries its `ID` and the AddressInfo `Title`, `Latitude`, `Longitude` and `AddressLine1`, each `null` when absent |
| Stations.FilterStations | backend/app.py:96-106 | the filter raises iff some element cannot be read; otherwise its result is no longer than the input, and every entry has a truthy latitude and longitude |
| Stations.FilterStationsAppend | backend/app.py:96-106 | the filter is order-preserving and works element by element: filtering `a + b` gives filter(a) followed by filter(b) |
| Stations.FilterStationsComplete | backend/app.py:104-105 | every station with truthy latitude and longitude has its summary in the result |
| Stations.FilterStationsSound | backend/app.py:96-105 | every result entry is the summary of a station from the payload that has truthy coordinates |
| Stations.FilterStationsKeepsAll | backend/app.py:96-106 | when every station has coordinates, the result is all their summaries, one for one and in order |
| Stations.StationsResponse | backend/app.py:93-108 | the reply is a 200 or an escaping exception; a payload that is not a list, or is an empty list, gives `{stations: []}`; a list gives the filtered stations, and it raises exactly when the filter does |
| Stations.HandleStations | backend/app.py:65-108 | missing `lat`/`lon` gives 400 `lat,lon required`; a failed lookup gives 500 `station lookup failed` with detail; an answered lookup is replied to as that answer dictates; a 200 never lists a station with a falsy coordinate |
| Stations.HandleStationsAsksOnce | backend/app.py:85-88 | the response depends on the directory only through its answer for the caller's `lat`/`lon` |
| Geocode.FirstMatchCoordinates | backend/app.py:129-130 | a match yields coordinates iff it is an object with `lat` and `lon` that both convert to floats, and then it yields exactly those floats |
| Geocode.GeocodeResponse | backend/app.py:126-131 | the reply is a 200, a 404 `not found` or an escaping exception; a falsy answer gives 404; a truthy non-list raises; for a list, it raises exactly when the first match has no float `lat`/`lon`, and otherwise answers 200 with those floats |
| Geocode.GeocodeFirstMatchOnly | backend/app.py:129-130 | matches after the first never affect the answer |
| Geocode.GeocodeReadsStrings | backend/app.py:129-131 | a first match with numeric-string coordinates is answered with those numbers |
| Geocode.HandleGeocode | backend/app.py:112-131 | missing `place` gives 400 `missing place`; a failed search gives 500 `geocoding failed` with detail; an answered search is replied to as that answer dictates; 404 arises exactly for a falsy answer |

## Left out

- Flask wiring is not modelled: the app object, CORS, the route decorators, `jsonify` serialisation and `app.run`. It is framework plumbing.
- The HTTP calls are not modelled: `requests.get`, the 10 s and 15 s timeouts, `raise_for_status` and the text of exceptions. Each call is a `fetch` parameter whose failure is an opaque `detail` string.
- The station lookup's fixed request details are not modelled: the 100 km radius, the 25-result cap, the output format, the API key and the User-Agent headers. The same holds for the geocoder's `format`/`limit` parameters and its header. They are configuration of the upstream request. The model's `fetch` receives only the caller's `lat`/`lon` or `place`.
- The `print` of station-lookup failures is not modelled. It is a side effect with no bearing on the response.
- Float parsing and formatting are abstract parameters (`parse`, `fmt`). IEEE parsing and `repr` are not modelled. JSON numbers are `real`: the int/float distinction and NaN/Infinity are not represented.
- `Strings.Lower` maps only ASCII `A`–`Z`. Python's Unicode case mapping of other characters is not modelled.
- A query parameter given several times is read by its first value (`Query` is a map). That matches `request.args.get`.
- The framework's 500 page for an escaped exception is modelled as the single value `Uncaught`. Its content is not modelled.
