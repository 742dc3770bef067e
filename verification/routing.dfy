/** The `/route` endpoint: validation of `start`, `end` and `blocked`, the request sent
    to the OSRM routing service, and the choice among the routes it returns. */
module Routing {
  import opened Wrappers
  import Strings
  import Json
  import opened Api

  const MissingStartOrEnd := "missing start or end"
  const BadFormat := "bad start/end format; expected lat,lon"
  const RoutingError := "routing error"
  const NoRoutes := "no routes found"

  /** The routing service's driving endpoint. */
  const OsrmBase := "https://router." + "project-osrm.org" + "/route/v1/driving"

  /** A point as the caller writes it: latitude first. */
  datatype Coord = Coord(lat: real, lon: real)

  /** A validated `/route` request. */
  datatype RouteQuery = RouteQuery(start: Coord, end: Coord, blocked: bool)

  // ---------------------------------------------------------------------------
  // Validation

  /** Reads a caller's coordinate text, latitude first: it must split on commas into
      exactly two pieces, both accepted by the float parser; anything else is a format error. */
  function ParseCoord(raw: string, parse: string -> Option<real>): (r: Option<Coord>)
    ensures r.Some? ==> Strings.Count(raw, ',') == 1
  {
    var parts := Strings.Split(raw, ',');
    if |parts| == 2 && parse(parts[0]).Some? && parse(parts[1]).Some? then
      Some(Coord(parse(parts[0]).value, parse(parts[1]).value))
    else
      None
  }

  /** For a text `a,b` with comma-free halves, the first half is the latitude and the
      second the longitude, and the pair is accepted exactly when both halves parse. */
  lemma ParseCoordOfPair(a: string, b: string, parse: string -> Option<real>)
    requires ',' !in a && ',' !in b
    ensures ParseCoord(a + "," + b, parse).Some? <==> parse(a).Some? && parse(b).Some?
    ensures ParseCoord(a + "," + b, parse).Some? ==>
              ParseCoord(a + "," + b, parse).value == Coord(parse(a).value, parse(b).value)
  {
    assert Strings.Join([a, b], ',') == a + "," + b;
    Strings.SplitOfJoin([a, b], ',');
  }

  /** The `blocked` flag: the parameter, read as "false" when absent, lower-cased and
      compared with "true". */
  function Blocked(q: Query): bool
  {
    Strings.Lower(if "blocked" in q then q["blocked"] else "false") == "true"
  }

  /** `blocked` holds exactly when the parameter is present and is "true" in any mix of
      letter case; an absent parameter means not blocked. */
  lemma BlockedIff(q: Query)
    ensures Blocked(q) <==> "blocked" in q && Strings.SpellsTrue(q["blocked"])
  {
    if "blocked" in q {
      Strings.LowerIsTrueIff(q["blocked"]);
    } else {
      assert |Strings.Lower("false")| == 5;
    }
  }

  /** Validation of a `/route` query: presence of both endpoints first, then the two
      coordinate texts, then the `blocked` flag. A failure carries the 400 response. */
  function ParseRouteQuery(q: Query, parse: string -> Option<real>): (r: Result<RouteQuery, Response>)
    ensures !(Given(q, "start") && Given(q, "end")) ==> r == Failure(Err(400, MissingStartOrEnd, None))
    ensures r.Success? <==>
              Given(q, "start") && Given(q, "end")
              && ParseCoord(q["start"], parse).Some? && ParseCoord(q["end"], parse).Some?
    ensures Given(q, "start") && Given(q, "end") && r.Failure? ==> r == Failure(Err(400, BadFormat, None))
    ensures r.Success? ==> r.value.blocked == Blocked(q)
                           && Some(r.value.start) == ParseCoord(q["start"], parse)
                           && Some(r.value.end) == ParseCoord(q["end"], parse)
  {
    if !Given(q, "start") || !Given(q, "end") then
      Failure(Err(400, MissingStartOrEnd, None))
    else
      var s := ParseCoord(q["start"], parse);
      var e := ParseCoord(q["end"], parse);
      if s.None? || e.None? then Failure(Err(400, BadFormat, None))
      else Success(RouteQuery(s.value, e.value, Blocked(q)))
  }

  // ---------------------------------------------------------------------------
  // The request to the routing service

  /** `{lon},{lat};{lon},{lat}` for the two endpoints, each number written by `fmt`
      (Python's float formatting): the service wants longitude first. */
  function OsrmPath(start: Coord, end: Coord, fmt: real -> string): string
  {
    fmt(start.lon) + "," + fmt(start.lat) + ";" + fmt(end.lon) + "," + fmt(end.lat)
  }

  /** The query string of the routing request: full overview, GeoJSON geometry, and
      whether alternatives are wanted. */
  function OsrmQuery(alternatives: bool): string
  {
    "overview=full" + "&" + "geometries=geojson" + "&" + "alternatives=" + (if alternatives then "true" else "false")
  }

  /** The full URL of the routing request: the service's driving endpoint, the path of
      waypoints, and the query string. */
  function OsrmUrl(start: Coord, end: Coord, alternatives: bool, fmt: real -> string): (r: string)
    ensures |r| > |OsrmBase| && r[..|OsrmBase| + 1] == OsrmBase + "/"
  {
    var r := OsrmBase + "/" + OsrmPath(start, end, fmt) + "?" + OsrmQuery(alternatives);
    assert r == (OsrmBase + "/") + (OsrmPath(start, end, fmt) + "?" + OsrmQuery(alternatives));
    r
  }

  /** The query string holds exactly three parameters, the last one carrying the
      alternatives flag. */
  lemma OsrmQueryParameters(alternatives: bool)
    ensures Strings.Split(OsrmQuery(alternatives), '&') ==
              ["overview=full", "geometries=geojson", "alternatives=" + (if alternatives then "true" else "false")]
  {
    var last := "alternatives=" + (if alternatives then "true" else "false");
    var pieces := ["overview=full", "geometries=geojson", last];
    assert '&' !in last;
    assert forall i :: 0 <= i < |pieces| ==> '&' !in pieces[i];
    assert pieces[1..] == ["geometries=geojson", last];
    assert pieces[1..][1..] == [last];
    assert Strings.Join(pieces[1..], '&') == "geometries=geojson" + "&" + last;
    assert Strings.Join(pieces, '&') == "overview=full" + "&" + ("geometries=geojson" + "&" + last);
    assert Strings.Join(pieces, '&') == OsrmQuery(alternatives);
    Strings.SplitOfJoin(pieces, '&');
  }

  /** The URL separates at its only `?` into the endpoint with the waypoint path and the
      query string. */
  lemma OsrmUrlParts(start: Coord, end: Coord, alternatives: bool, fmt: real -> string)
    requires '?' !in fmt(start.lat) && '?' !in fmt(start.lon)
    requires '?' !in fmt(end.lat) && '?' !in fmt(end.lon)
    ensures Strings.Split(OsrmUrl(start, end, alternatives, fmt), '?') ==
              [OsrmBase + "/" + OsrmPath(start, end, fmt), OsrmQuery(alternatives)]
  {
    var head := OsrmBase + "/" + OsrmPath(start, end, fmt);
    var query := OsrmQuery(alternatives);
    assert '?' !in head;
    assert '?' !in query;
    assert [head, query][1..] == [query];
    assert Strings.Join([head, query], '?') == head + "?" + query;
    Strings.SplitOfJoin([head, query], '?');
  }

  /** How the routing service reads one `{lon},{lat}` waypoint. */
  function ReadWaypoint(segment: string, parse: string -> Option<real>): Option<Coord>
  {
    var parts := Strings.Split(segment, ',');
    if |parts| == 2 && parse(parts[0]).Some? && parse(parts[1]).Some? then
      Some(Coord(lat := parse(parts[1]).value, lon := parse(parts[0]).value))
    else
      None
  }

  /** How the routing service reads a `;`-separated list of waypoints. */
  function ReadWaypoints(segments: seq<string>, parse: string -> Option<real>): Option<seq<Coord>>
  {
    if |segments| == 0 then Some([])
    else
      var first := ReadWaypoint(segments[0], parse);
      var rest := ReadWaypoints(segments[1..], parse);
      if first.Some? && rest.Some? then Some([first.value] + rest.value) else None
  }

  /** Numbers that `fmt` writes without separators and that `parse` reads back. */
  predicate Transparent(x: real, fmt: real -> string, parse: string -> Option<real>)
  {
    ',' !in fmt(x) && ';' !in fmt(x) && parse(fmt(x)) == Some(x)
  }

  /** The routing service reads the path back as the caller's two points, in order:
      the latitude/longitude swap is undone exactly, and not applied twice. */
  lemma {:induction false} OsrmPathRoundTrip(start: Coord, end: Coord, fmt: real -> string, parse: string -> Option<real>)
    requires Transparent(start.lat, fmt, parse) && Transparent(start.lon, fmt, parse)
    requires Transparent(end.lat, fmt, parse) && Transparent(end.lon, fmt, parse)
    ensures Strings.Split(OsrmPath(start, end, fmt), ';') ==
              [fmt(start.lon) + "," + fmt(start.lat), fmt(end.lon) + "," + fmt(end.lat)]
    ensures ReadWaypoints(Strings.Split(OsrmPath(start, end, fmt), ';'), parse) == Some([start, end])
  {
    var sa := fmt(start.lon) + "," + fmt(start.lat);
    var sb := fmt(end.lon) + "," + fmt(end.lat);
    NoSeparatorInPair(fmt(start.lon), fmt(start.lat));
    NoSeparatorInPair(fmt(end.lon), fmt(end.lat));
    assert OsrmPath(start, end, fmt) == Strings.Join([sa, sb], ';');
    Strings.SplitOfJoin([sa, sb], ';');
    assert Strings.Join([fmt(start.lon), fmt(start.lat)], ',') == sa;
    Strings.SplitOfJoin([fmt(start.lon), fmt(start.lat)], ',');
    assert Strings.Join([fmt(end.lon), fmt(end.lat)], ',') == sb;
    Strings.SplitOfJoin([fmt(end.lon), fmt(end.lat)], ',');
    assert ReadWaypoint(sa, parse) == Some(start);
    assert ReadWaypoint(sb, parse) == Some(end);
    assert [sa, sb][1..] == [sb];
    assert [sb][1..] == [];
    assert ReadWaypoints([], parse) == Some([]);
    assert ReadWaypoints([sb][1..], parse) == Some([]);
    assert [end] + [] == [end];
    assert ReadWaypoints([sb], parse) == Some([end]);
    assert ReadWaypoints([sa, sb], parse) == Some([start] + [end]);
    assert [start] + [end] == [start, end];
  }

  /** Joining two `;`-free numbers with a comma keeps the result `;`-free. */
  lemma NoSeparatorInPair(a: string, b: string)
    requires ';' !in a && ';' !in b
    ensures ';' !in a + "," + b
  {
  }

  // ---------------------------------------------------------------------------
  // Selecting among the returned routes

  /** The route choice: no routes gives nothing; otherwise the primary route is
      the first, the alternative the second when there is one, and the chosen route is
      the second only when the road is reported blocked and a second route exists. */
  function Select<T>(routes: seq<T>, blocked: bool): (r: Option<Bundle<T>>)
    ensures r.None? <==> |routes| == 0
    ensures r.Some? ==> r.value.primary == routes[0] && r.value.blockedSimulated == blocked
    ensures r.Some? ==> (r.value.alternative.Some? <==> |routes| > 1)
    ensures r.Some? && |routes| > 1 ==> r.value.alternative == Some(routes[1])
    ensures r.Some? && blocked && |routes| > 1 ==> r.value.chosen == routes[1]
    ensures r.Some? && !(blocked && |routes| > 1) ==> r.value.chosen == routes[0]
  {
    if |routes| == 0 then None
    else
      var alternative := if |routes| > 1 then Some(routes[1]) else None;
      var chosen := if blocked && alternative.Some? then alternative.value else routes[0];
      Some(Bundle(chosen, routes[0], alternative, blocked))
  }

  /** The chosen route is always one of the two offered, and it differs from the primary
      only when the road is blocked. */
  lemma SelectChoosesOffered<T>(routes: seq<T>, blocked: bool)
    requires |routes| > 0
    ensures var b := Select(routes, blocked).value;
            (b.chosen == b.primary || Some(b.chosen) == b.alternative)
            && (b.chosen != b.primary ==> blocked)
  {
  }

  /** Routes beyond the second never influence the answer. */
  lemma SelectLooksAtFirstTwo<T>(routes: seq<T>, blocked: bool)
    requires |routes| >= 2
    ensures Select(routes, blocked) == Select(routes[..2], blocked)
  {
  }

  /** Renders one route (the handler's `to_json`): the three fields a route must have,
      renamed; a route lacking one of them, or not an object at all, makes it raise. */
  function ToRouteOption(rt: Json.Value): (r: Option<RouteOption>)
    ensures r.Some? <==> rt.Obj? && "distance" in rt.fields && "duration" in rt.fields && "geometry" in rt.fields
    ensures r.Some? ==> r.value.distanceM == rt.fields["distance"] && r.value.durationS == rt.fields["duration"]
                        && r.value.geometry == rt.fields["geometry"]
  {
    if rt.Obj? && "distance" in rt.fields && "duration" in rt.fields && "geometry" in rt.fields then
      Some(RouteOption(rt.fields["distance"], rt.fields["duration"], rt.fields["geometry"]))
    else
      None
  }

  /** A rendered route depends on the route's distance, duration and geometry only;
      every other field the routing service sends is dropped. */
  lemma ToRouteOptionIgnoresOtherFields(m1: map<string, Json.Value>, m2: map<string, Json.Value>)
    requires forall k :: k in ["distance", "duration", "geometry"] ==>
               (k in m1 <==> k in m2) && (k in m1 ==> m1[k] == m2[k])
    ensures ToRouteOption(Json.Obj(m1)) == ToRouteOption(Json.Obj(m2))
  {
  }

  /** Renders every route of a bundle; `None` when one of them raises. */
  function RenderBundle(b: Bundle<Json.Value>): (r: Option<Bundle<RouteOption>>)
    ensures r.Some? <==> ToRouteOption(b.chosen).Some? && ToRouteOption(b.primary).Some?
                         && (b.alternative.Some? ==> ToRouteOption(b.alternative.value).Some?)
    ensures r.Some? ==> Some(r.value.chosen) == ToRouteOption(b.chosen)
                        && Some(r.value.primary) == ToRouteOption(b.primary)
                        && (r.value.alternative.Some? <==> b.alternative.Some?)
                        && (b.alternative.Some? ==> Some(r.value.alternative.value) == ToRouteOption(b.alternative.value))
                        && r.value.blockedSimulated == b.blockedSimulated
  {
    var chosen := ToRouteOption(b.chosen);
    var primary := ToRouteOption(b.primary);
    match b.alternative
    case None =>
      if chosen.Some? && primary.Some? then Some(Bundle(chosen.value, primary.value, None, b.blockedSimulated))
      else None
    case Some(alt) =>
      var alternative := ToRouteOption(alt);
      if chosen.Some? && primary.Some? && alternative.Some? then
        Some(Bundle(chosen.value, primary.value, Some(alternative.value), b.blockedSimulated))
      else None
  }

  /** The `routes` list of the routing service's answer; looking it up raises unless the
      answer is a dict. */
  function RoutesOf(osrm: Json.Value): Json.Value
    requires osrm.Obj?
  {
    Json.GetOr(osrm.fields, "routes", Json.Arr([]))
  }

  /** The response built from the routing service's answer: 404 when it lists no routes,
      the rendered bundle when the routes it needs are well-formed, and an escaping
      exception otherwise. */
  function RouteResponse(osrm: Json.Value, blocked: bool): (r: Response)
    ensures r.Ok? || r == Uncaught || r == Err(404, NoRoutes, None)
    ensures !osrm.Obj? ==> r == Uncaught
    ensures osrm.Obj? && Json.Truthy(RoutesOf(osrm)) && !RoutesOf(osrm).Arr? ==> r == Uncaught
    ensures osrm.Obj? ==> (r == Err(404, NoRoutes, None) <==> !Json.Truthy(RoutesOf(osrm)))
    ensures r.Ok? ==>
              && osrm.Obj? && RoutesOf(osrm).Arr? && r.body.RouteBody?
              && var rs := RoutesOf(osrm).items;
              && var b := r.body.bundle;
              && |rs| > 0
              && Some(b.primary) == ToRouteOption(rs[0])
              && (b.alternative.Some? <==> |rs| > 1)
              && (|rs| > 1 ==> Some(b.alternative.value) == ToRouteOption(rs[1]))
              && (blocked && |rs| > 1 ==> Some(b.chosen) == ToRouteOption(rs[1]))
              && (!(blocked && |rs| > 1) ==> b.chosen == b.primary)
              && b.blockedSimulated == blocked
    ensures osrm.Obj? && RoutesOf(osrm).Arr? && |RoutesOf(osrm).items| > 0 ==>
              var rs := RoutesOf(osrm).items;
              (r == Uncaught <==> ToRouteOption(rs[0]).None? || (|rs| > 1 && ToRouteOption(rs[1]).None?))
  {
    if !osrm.Obj? then Uncaught
    else
      var routes := RoutesOf(osrm);
      if !Json.Truthy(routes) then Err(404, NoRoutes, None)
      else if !routes.Arr? then Uncaught
      else
        match RenderBundle(Select(routes.items, blocked).value)
        case None => Uncaught
        case Some(b) => Ok(RouteBody(b))
  }

  /** The `/route` handler. `parse` is Python's `float` on strings, `fmt` its float
      formatting, and `fetch` the GET request to the routing service. */
  function HandleRoute(q: Query, parse: string -> Option<real>, fmt: real -> string,
                       fetch: string -> Upstream<Json.Value>): (r: Response)
    ensures !(Given(q, "start") && Given(q, "end")) ==> r == Err(400, MissingStartOrEnd, None)
    ensures r.Err? && r.status == 400 <==> ParseRouteQuery(q, parse).Failure?
    ensures ParseRouteQuery(q, parse).Failure? ==> r == ParseRouteQuery(q, parse).error
    ensures r.Ok? ==> r.body.RouteBody? && r.body.bundle.blockedSimulated == Blocked(q)
    ensures ParseRouteQuery(q, parse).Success? ==>
              var rq := ParseRouteQuery(q, parse).value;
              var answer := fetch(OsrmUrl(rq.start, rq.end, true, fmt));
              answer.Answered? ==> r == RouteResponse(answer.payload, Blocked(q))
  {
    match ParseRouteQuery(q, parse)
    case Failure(response) => response
    case Success(rq) =>
      match fetch(OsrmUrl(rq.start, rq.end, true, fmt))
      case Failed(detail) => Err(500, RoutingError, Some(detail))
      case Answered(osrm) => RouteResponse(osrm, rq.blocked)
  }

  /** The handler asks the routing service for alternatives between the two points the
      caller gave, and for nothing else: two services that agree on that one URL give the
      same response, and when the query is rejected the service is not consulted at all. */
  lemma HandleRouteAsksOnce(q: Query, parse: string -> Option<real>, fmt: real -> string,
                            fetch1: string -> Upstream<Json.Value>, fetch2: string -> Upstream<Json.Value>)
    requires ParseRouteQuery(q, parse).Success? ==>
               var rq := ParseRouteQuery(q, parse).value;
               fetch1(OsrmUrl(rq.start, rq.end, true, fmt)) == fetch2(OsrmUrl(rq.start, rq.end, true, fmt))
    ensures HandleRoute(q, parse, fmt, fetch1) == HandleRoute(q, parse, fmt, fetch2)
  {
  }

  /** A failed call to the routing service after a valid query is answered with 500
      `routing error` carrying the failure text. */
  lemma HandleRouteUpstreamFailure(q: Query, parse: string -> Option<real>, fmt: real -> string,
                                   fetch: string -> Upstream<Json.Value>, detail: string)
    requires ParseRouteQuery(q, parse).Success?
    requires var rq := ParseRouteQuery(q, parse).value;
             fetch(OsrmUrl(rq.start, rq.end, true, fmt)) == Failed(detail)
    ensures HandleRoute(q, parse, fmt, fetch) == Err(500, RoutingError, Some(detail))
  {
  }
}
