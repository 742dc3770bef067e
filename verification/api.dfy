/** What the three endpoints of the gateway read and answer: query strings, the outcome
    of an upstream call, and the JSON responses with their HTTP status. */
module Api {
  import opened Wrappers
  import Json

  /** The request's query string: each parameter name with its (first) value. */
  type Query = map<string, string>

  /** The parameter counts as given: it is present and not empty. */
  predicate Given(q: Query, key: string)
  {
    key in q && |q[key]| > 0
  }

  /** The outcome of one upstream HTTP call: it raised (network error, timeout, non-2xx
      status), carrying the exception text, or it answered with a decoded JSON body. */
  datatype Upstream<+T> = Failed(detail: string) | Answered(payload: T)

  /** One route as the gateway renders it: `{distance_m, duration_s, geometry}`. */
  datatype RouteOption = RouteOption(distanceM: Json.Value, durationS: Json.Value, geometry: Json.Value)

  /** `{chosen, primary, alternative, blocked_simulated}`; `alternative` is `null` when absent. */
  datatype Bundle<+T> = Bundle(chosen: T, primary: T, alternative: Option<T>, blockedSimulated: bool)

  /** One charging station as the gateway renders it: `{id, title, lat, lon, address}`. */
  datatype StationSummary = StationSummary(
    id: Json.Value, title: Json.Value, lat: Json.Value, lon: Json.Value, address: Json.Value)

  /** The successful (HTTP 200) bodies of the three endpoints. */
  datatype Body =
    | RouteBody(bundle: Bundle<RouteOption>)
    | StationsBody(stations: seq<StationSummary>)
    | GeocodeBody(lat: real, lon: real)

  /** A handler's answer: a 200 body, a handled error `{error, detail?}` with its status,
      or an exception that escapes the handler, which the framework turns into a bare 500. */
  datatype Response =
    | Ok(body: Body)
    | Err(status: nat, error: string, detail: Option<string>)
    | Uncaught
}
