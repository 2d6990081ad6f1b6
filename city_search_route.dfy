/** `GET /api/city-search?query=…&limit=…`: the server-side proxy to the
    direct-geocoding service and the reshaping of its results into
    suggestions. */
module CitySearchRoute {
  import opened Common
  import opened Http

  const QueryRequired := "Query parameter is required"
  const KeyNotConfigured := "API key is not configured"
  const SearchFailed := "No se pudieron obtener resultados de búsqueda"
  const DefaultLimit := "5"

  /** One entry of the geocoding answer. `state` may be missing. */
  datatype GeoCity = GeoCity(name: string, state: Option<string>, country: string, lat: real, lon: real)

  /** One entry of this endpoint's answer. */
  datatype Suggestion = Suggestion(name: string, state: string, country: string,
                                   lat: real, lon: real, displayName: string)

  /** `limit || "5"`: the parameter when present and non-empty, the default
      otherwise. */
  function Limit(limit: Option<string>): (r: string)
    ensures Present(limit) ==> r == limit.value
    ensures !Present(limit) ==> r == DefaultLimit
    ensures r != ""
  {
    if Present(limit) then limit.value else DefaultLimit
  }

  /** The upstream URL; `encode` stands for `encodeURIComponent`, the limit
      is inserted as given. */
  function RequestUrl(query: string, limit: string, apiKey: string, encode: string -> string): string {
    "https://api.openweathermap.org/geo/1.0/direct?q=" + encode(query) + "&limit=" + limit + "&appid=" + apiKey
  }

  /** The label shown in the dropdown: name, then the state when it is
      non-empty, then the country. */
  function DisplayName(name: string, state: Option<string>, country: string): string {
    name + (if Present(state) then ", " + state.value else "") + ", " + country
  }

  function Format(c: GeoCity): (s: Suggestion)
    ensures s.name == c.name && s.country == c.country && s.lat == c.lat && s.lon == c.lon
    ensures s.state == if Present(c.state) then c.state.value else ""
  {
    Suggestion(c.name, if Present(c.state) then c.state.value else "", c.country, c.lat, c.lon,
               DisplayName(c.name, c.state, c.country))
  }

  /** `data.map(...)`. */
  function FormatAll(data: seq<GeoCity>): (r: seq<Suggestion>)
    ensures |r| == |data|
    ensures forall i :: 0 <= i < |data| ==> r[i] == Format(data[i])
  {
    if data == [] then [] else [Format(data[0])] + FormatAll(data[1..])
  }

  /** The answer once the upstream call was made: anything but an ok,
      parseable list is the one generic 500. */
  function Relay(upstream: Upstream<seq<GeoCity>>): (r: Response<seq<Suggestion>>)
    ensures r.status == 200 <==> upstream.Responded? && Ok(upstream.status) && upstream.json.Some?
    ensures r.status == 200 ==> r.body == Json(FormatAll(upstream.json.value))
    ensures r.status != 200 ==> r == Response(500, Error(SearchFailed))
  {
    match upstream
    case NetworkError => Response(500, Error(SearchFailed))
    case Responded(status, json) =>
      if !Ok(status) || json.None? then Response(500, Error(SearchFailed))
      else Response(200, Json(FormatAll(json.value)))
  }

  function Get(query: Option<string>, limit: Option<string>, apiKey: Option<string>,
               encode: string -> string, upstream: Upstream<seq<GeoCity>>): (e: Exchange<seq<Suggestion>>)
    // the query check comes first, then the key; neither failure calls upstream
    ensures !Present(query) <==> e.response == Response(400, Error(QueryRequired)) && e.sent.None?
    ensures Present(query) && !Present(apiKey) ==>
      e.sent.None? && e.response == Response(500, Error(KeyNotConfigured))
    ensures e.sent.Some? <==> Present(query) && Present(apiKey)
    ensures e.sent.Some? ==> e.sent.value == RequestUrl(query.value, Limit(limit), apiKey.value, encode)
    ensures e.sent.Some? ==> e.response == Relay(upstream)
  {
    if !Present(query) then Exchange(None, Response(400, Error(QueryRequired)))
    else if !Present(apiKey) then Exchange(None, Response(500, Error(KeyNotConfigured)))
    else Exchange(Some(RequestUrl(query.value, Limit(limit), apiKey.value, encode)), Relay(upstream))
  }

  /** Each suggestion's label is determined by its own name, state and
      country: ", state" appears exactly when the copied state is non-empty. */
  lemma DisplayNameFromFields(c: GeoCity)
    ensures var s := Format(c);
      s.displayName == s.name + (if s.state == "" then "" else ", " + s.state) + ", " + s.country
  {
  }

  /** The label starts with the name and ends with ", " and the country. */
  lemma DisplayNameShape(c: GeoCity)
    ensures var d := Format(c).displayName;
      && |d| >= |c.name| + 2 + |c.country|
      && d[..|c.name|] == c.name
      && d[|d| - |c.country| - 2..] == ", " + c.country
  {
    var mid := if Present(c.state) then ", " + c.state.value else "";
    assert Format(c).displayName == c.name + mid + (", " + c.country);
  }

  /** Formatting works entry by entry: it commutes with concatenating
      upstream lists, so order is kept and no entry affects another. */
  lemma {:induction false} FormatAllAppend(a: seq<GeoCity>, b: seq<GeoCity>)
    ensures FormatAll(a + b) == FormatAll(a) + FormatAll(b)
  {
    if a != [] {
      assert (a + b)[1..] == a[1..] + b;
      FormatAllAppend(a[1..], b);
    }
  }

  /** When no request went out, the answer cannot depend on an upstream. */
  lemma NoCallNoDependence(query: Option<string>, limit: Option<string>, apiKey: Option<string>,
                           encode: string -> string, u1: Upstream<seq<GeoCity>>, u2: Upstream<seq<GeoCity>>)
    requires Get(query, limit, apiKey, encode, u1).sent.None?
    ensures Get(query, limit, apiKey, encode, u2) == Get(query, limit, apiKey, encode, u1)
  {
  }
}
