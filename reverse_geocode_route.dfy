/** `GET /api/reverse-geocode?lat=…&lon=…`: the server-side proxy to the
    reverse-geocoding service, reduced to one city name. */
module ReverseGeocodeRoute {
  import opened Common
  import opened Http

  const CoordsRequired := "Latitude and longitude parameters are required"
  const KeyNotConfigured := "API key is not configured"
  const LookupFailed := "No se pudo obtener el nombre de la ciudad"
  const Fallback := "Tu ubicación"

  /** The parsed answer: `null`, or a list of places of which only the names
      matter. */
  datatype Places = Null | List(names: seq<string>)

  /** The upstream URL; the coordinates are inserted as given. */
  function RequestUrl(lat: string, lon: string, apiKey: string): string {
    "https://api.openweathermap.org/geo/1.0/reverse?lat=" + lat + "&lon=" + lon + "&limit=1&appid=" + apiKey
  }

  /** `cityName`: the first place's name, or the fallback. */
  function CityName(data: Places): (name: string)
    ensures data.List? && |data.names| > 0 ==> name == data.names[0]
    ensures data.Null? || data.names == [] ==> name == Fallback
  {
    if data.List? && |data.names| > 0 then data.names[0] else Fallback
  }

  function Relay(upstream: Upstream<Places>): (r: Response<string>)
    ensures r.status == 200 <==> upstream.Responded? && Ok(upstream.status) && upstream.json.Some?
    ensures r.status == 200 ==> r.body == Json(CityName(upstream.json.value))
    ensures r.status != 200 ==> r == Response(500, Error(LookupFailed))
  {
    match upstream
    case NetworkError => Response(500, Error(LookupFailed))
    case Responded(status, json) =>
      if !Ok(status) || json.None? then Response(500, Error(LookupFailed))
      else Response(200, Json(CityName(json.value)))
  }

  function Get(lat: Option<string>, lon: Option<string>, apiKey: Option<string>,
               upstream: Upstream<Places>): (e: Exchange<string>)
    // the coordinate check comes first, then the key; neither failure calls upstream
    ensures !Present(lat) || !Present(lon) <==> e.response == Response(400, Error(CoordsRequired)) && e.sent.None?
    ensures Present(lat) && Present(lon) && !Present(apiKey) ==>
      e.sent.None? && e.response == Response(500, Error(KeyNotConfigured))
    ensures e.sent.Some? <==> Present(lat) && Present(lon) && Present(apiKey)
    ensures e.sent.Some? ==> e.sent.value == RequestUrl(lat.value, lon.value, apiKey.value)
    ensures e.sent.Some? ==> e.response == Relay(upstream)
  {
    if !Present(lat) || !Present(lon) then Exchange(None, Response(400, Error(CoordsRequired)))
    else if !Present(apiKey) then Exchange(None, Response(500, Error(KeyNotConfigured)))
    else Exchange(Some(RequestUrl(lat.value, lon.value, apiKey.value)), Relay(upstream))
  }

  /** Only the first place counts: whatever follows it is ignored. */
  lemma LaterPlacesIgnored(first: string, rest1: seq<string>, rest2: seq<string>)
    ensures CityName(List([first] + rest1)) == CityName(List([first] + rest2)) == first
  {
  }

  /** A successful lookup always yields a name: the first place's name or
      the fallback, never an error. */
  lemma SuccessHasName(upstream: Upstream<Places>)
    requires upstream.Responded? && Ok(upstream.status) && upstream.json.Some?
    ensures Relay(upstream).body.Json?
    ensures var n := Relay(upstream).body.value;
      n == Fallback || (upstream.json.value.List? && n in upstream.json.value.names)
  {
  }

  /** When no request went out, the answer cannot depend on an upstream. */
  lemma NoCallNoDependence(lat: Option<string>, lon: Option<string>, apiKey: Option<string>,
                           u1: Upstream<Places>, u2: Upstream<Places>)
    requires Get(lat, lon, apiKey, u1).sent.None?
    ensures Get(lat, lon, apiKey, u2) == Get(lat, lon, apiKey, u1)
  {
  }
}
