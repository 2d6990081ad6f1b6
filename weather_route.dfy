/** `GET /api/weather?city=…`: the API-key check and the mapping of the
    upstream current-weather call to this endpoint's own answer. */
module WeatherRoute {
  import opened Common
  import opened Http

  const MissingKey := "API key is missing. Make sure OPENWEATHER_API_KEY is set in your environment variables."
  const ShortKey := "API key appears to be too short. OpenWeatherMap API keys are typically 32 characters long."
  const BadKeyChars := "API key contains invalid characters. API keys should only contain letters and numbers."
  const CityRequired := "City parameter is required"
  const AuthFailed := "Error de autenticación con la API del clima. Verifica tu API key."
  const CityNotFound := "Ciudad no encontrada. Intenta con otro nombre."
  const WeatherFailed := "No se pudieron obtener los datos del clima. Intenta nuevamente más tarde."

  datatype KeyCheck = Valid | Invalid(message: string)

  /** Three checks in order: present, at least 20 UTF-16 units long,
      letters and digits only; the first that fails names the problem. */
  function ValidateApiKey(apiKey: Option<string>): (r: KeyCheck)
    ensures r.Valid? <==> Present(apiKey) && Utf16Length(apiKey.value) >= 20 && AlnumOnly(apiKey.value)
    ensures r == Invalid(MissingKey) <==> !Present(apiKey)
    ensures r == Invalid(ShortKey) <==> Present(apiKey) && Utf16Length(apiKey.value) < 20
    ensures r == Invalid(BadKeyChars) <==>
      Present(apiKey) && Utf16Length(apiKey.value) >= 20 && !AlnumOnly(apiKey.value)
  {
    if !Present(apiKey) then Invalid(MissingKey)
    else if Utf16Length(apiKey.value) < 20 then Invalid(ShortKey)
    else if !AlnumOnly(apiKey.value) then Invalid(BadKeyChars)
    else Valid
  }

  /** The upstream URL; `encode` stands for `encodeURIComponent`. */
  function RequestUrl(city: string, apiKey: string, encode: string -> string): string {
    "https://api.openweathermap.org/data/2.5/weather?q=" + encode(city) + "&units=metric&appid=" + apiKey + "&lang=es"
  }

  /** The URL as the handler logs it: the key cut to `substring(0, 3)`. */
  function LoggedUrl(city: string, apiKey: string, encode: string -> string): string {
    "https://api.openweathermap.org/data/2.5/weather?q=" + encode(city) + "&units=metric&appid=" + Prefix3(apiKey) + "...&lang=es"
  }

  /** `s.substring(0, 3)`: the first three UTF-16 units, as whole code
      points. */
  function Prefix3(s: string): (r: string)
    ensures |r| <= |s| && r == s[..|r|]
    ensures Utf16Length(r) <= 3
    ensures |r| < |s| ==> Utf16Length(r) + Utf16Units(s[|r|]) > 3
  {
    TakeUnits(s, 3)
  }

  /** A key that passes `ValidateApiKey` (letters and digits, at least 20
      units) is ASCII, so its logged prefix is exactly its first three
      characters. */
  lemma LoggedKeyPrefix(apiKey: string)
    requires AlnumOnly(apiKey) && Utf16Length(apiKey) >= 20
    ensures InBmp(apiKey) && Utf16Length(apiKey) == |apiKey| >= 20
    ensures Prefix3(apiKey) == apiKey[..3]
  {
    assert InBmp(apiKey) by {
      forall i | 0 <= i < |apiKey| ensures apiKey[i] as int <= 0xFFFF {
        assert IsAlnum(apiKey[i]);
      }
    }
    Utf16LengthBmp(apiKey);
    TakeUnitsBmp(apiKey, 3);
  }

  /** The answer once the upstream call was made. */
  function Relay<D>(upstream: Upstream<D>): Response<D> {
    match upstream
    case NetworkError => Response(500, Error(WeatherFailed))
    case Responded(status, json) =>
      if !Ok(status) then
        if status == 401 then Response(401, Error(AuthFailed))
        else if status == 404 then Response(404, Error(CityNotFound))
        else Response(500, Error(WeatherFailed))
      else if json.None? then Response(500, Error(WeatherFailed))
      else Response(200, Json(json.value))
  }

  function Get<D>(city: Option<string>, apiKey: Option<string>, encode: string -> string,
                  upstream: Upstream<D>): (e: Exchange<D>)
    // the city check comes first, then the key; neither failure calls upstream
    ensures !Present(city) <==> e.response == Response(400, Error(CityRequired)) && e.sent.None?
    ensures Present(city) && ValidateApiKey(apiKey).Invalid? ==>
      e.sent.None? && e.response == Response(500, Error(ValidateApiKey(apiKey).message))
    ensures e.sent.Some? <==> Present(city) && ValidateApiKey(apiKey).Valid?
    ensures e.sent.Some? ==> e.sent.value == RequestUrl(city.value, apiKey.value, encode)
    ensures e.sent.Some? ==> e.response == Relay(upstream)
  {
    if !Present(city) then Exchange(None, Response(400, Error(CityRequired)))
    else
      match ValidateApiKey(apiKey)
      case Invalid(message) => Exchange(None, Response(500, Error(message)))
      case Valid => Exchange(Some(RequestUrl(city.value, apiKey.value, encode)), Relay(upstream))
  }

  /** Upstream 401 and 404 keep their status with their own message; any
      other failure, thrown error or unreadable body is a 500 with the
      generic message; an ok body is passed through as 200. */
  lemma RelaySpec<D>(upstream: Upstream<D>)
    ensures var r := Relay(upstream);
      && (r.status == 200 <==> upstream.Responded? && Ok(upstream.status) && upstream.json.Some?)
      && (r.status == 200 ==> r.body == Json(upstream.json.value))
      && (r.status == 401 <==> upstream.Responded? && upstream.status == 401)
      && (r.status == 404 <==> upstream.Responded? && upstream.status == 404)
      && (r.status == 401 ==> r.body == Error(AuthFailed))
      && (r.status == 404 ==> r.body == Error(CityNotFound))
      && (r.status !in {200, 401, 404} ==> r == Response(500, Error(WeatherFailed)))
  {
  }

  /** When no request went out, the answer cannot depend on an upstream. */
  lemma NoCallNoDependence<D>(city: Option<string>, apiKey: Option<string>, encode: string -> string,
                              u1: Upstream<D>, u2: Upstream<D>)
    requires Get(city, apiKey, encode, u1).sent.None?
    ensures Get(city, apiKey, encode, u2) == Get(city, apiKey, encode, u1)
  {
  }

  /** The logged URL is the requested one with the key replaced by its first
      three characters and "...": at most three characters of the key are
      ever printed. */
  lemma LoggedUrlRedacts(city: string, apiKey: string, encode: string -> string)
    ensures LoggedUrl(city, apiKey, encode) == RequestUrl(city, Prefix3(apiKey) + "...", encode)
    ensures |Prefix3(apiKey)| <= 3 && Prefix3(apiKey) == apiKey[..|Prefix3(apiKey)|]
  {
    var head := "https://api.openweathermap.org/data/2.5/weather?q=" + encode(city) + "&units=metric&appid=";
    assert LoggedUrl(city, apiKey, encode) == head + Prefix3(apiKey) + "...&lang=es";
    assert RequestUrl(city, Prefix3(apiKey) + "...", encode) == head + (Prefix3(apiKey) + "...") + "&lang=es";
  }
}
