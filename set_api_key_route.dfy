/** `POST /api/set-api-key`: checks the submitted key's shape and answers;
    nothing is stored. */
module SetApiKeyRoute {
  import opened Common
  import opened Http
  import WeatherRoute

  const KeyRequired := "API key is required"
  const BadFormat := "Invalid API key format"
  const SetFailed := "Failed to set API key"

  /** The `apiKey` property of the parsed body: missing, a string, or any
      other JSON value (number, boolean, null, object, array). */
  datatype Field = Absent | Str(s: string) | NonString

  /** What `await request.json()` gives. Destructuring `{ apiKey }` throws
      on `null`; on any other non-object value the property is simply
      missing. */
  datatype RequestBody = Unparseable | NullJson | NonObject | Object(apiKey: Field)

  /** `{ success: true }` is the only JSON value the handler returns. */
  datatype Success = Success

  function Post(body: RequestBody): (r: Response<Success>)
    ensures r.status == 200 <==>
      body.Object? && body.apiKey.Str? && AlnumOnly(body.apiKey.s) && Utf16Length(body.apiKey.s) >= 20
    ensures r.status == 500 <==> body.Unparseable? || body.NullJson?
    ensures r.status == 200 ==> r.body == Json(Success)
    ensures r.status == 500 ==> r.body == Error(SetFailed)
  {
    match body
    case Unparseable => Response(500, Error(SetFailed))
    case NullJson => Response(500, Error(SetFailed))
    case NonObject => Response(400, Error(KeyRequired))
    case Object(field) =>
      if !field.Str? || field.s == "" then Response(400, Error(KeyRequired))
      else if !AlnumOnly(field.s) || Utf16Length(field.s) < 20 then Response(400, Error(BadFormat))
      else Response(200, Json(Success))
  }

  /** A missing, empty or non-string key is "required"; a string key of the
      wrong shape is "invalid format". */
  lemma PostRejections(body: RequestBody)
    requires body.Object?
    ensures Post(body) == Response(400, Error(KeyRequired)) <==> !body.apiKey.Str? || body.apiKey.s == ""
    ensures Post(body) == Response(400, Error(BadFormat)) <==>
      body.apiKey.Str? && body.apiKey.s != "" && (!AlnumOnly(body.apiKey.s) || Utf16Length(body.apiKey.s) < 20)
  {
  }

  /** The endpoint accepts exactly the keys the weather route's validation
      accepts. */
  lemma AcceptsWhatWeatherAccepts(key: string)
    ensures Post(Object(Str(key))).status == 200 <==> WeatherRoute.ValidateApiKey(Some(key)).Valid?
  {
  }
}
