/**
 * The weather proxy at app/api/weather/route.ts: validate `city`, make one
 * upstream call, and pass the upstream body or its error message back.
 */
module WeatherRoute {
  import opened Wrappers
  import opened JsValues

  const CityRequired: string := "City parameter is required"
  const FetchFailed: string := "Failed to fetch weather data"

  /** `if (!city)` is not taken: the parameter is present and not empty. */
  predicate CityGiven(city: Option<string>)
  {
    city.Some? && city.value != ""
  }

  /**
   * The catch branch: a rejected fetch, a body that is not JSON, reading
   * `error.message` from a body without `error`, or an upstream status that
   * cannot be sent on.
   */
  function Failed(): JsonResponse
  {
    JsonResponse(500, ErrorBody(Str(FetchFailed)))
  }

  /** GET /api/weather?city=... */
  function WeatherGet(city: Option<string>, upstream: FetchOutcome): (r: RouteResult)
    ensures !CityGiven(city) ==> r == RouteResult(JsonResponse(400, ErrorBody(Str(CityRequired))), [])
    ensures CityGiven(city) ==> r.upstreamQueries == [city.value]
    ensures CityGiven(city) && (upstream.NetworkError? || upstream.body.None?) ==> r.response == Failed()
    ensures (CityGiven(city) && upstream.Reply? && upstream.body.Some? && IsOk(upstream.status))
              ==> r.response == JsonResponse(200, upstream.body.value)
    ensures (CityGiven(city) && upstream.Reply? && upstream.body.Some? && !IsOk(upstream.status))
              ==> r.response == match Path(upstream.body.value, ["error", "message"])
                                case Value(m) => if Sendable(upstream.status) then JsonResponse(upstream.status, ErrorBody(m))
                                                 else Failed()
                                case TypeError => Failed()
    ensures r.response.status in {200, 400, 500}
              || (upstream.Reply? && !IsOk(upstream.status) && Sendable(upstream.status)
                  && r.response.status == upstream.status)
  {
    if !CityGiven(city) then RouteResult(JsonResponse(400, ErrorBody(Str(CityRequired))), [])
    else
      var queries := [city.value];
      match upstream
      case NetworkError => RouteResult(Failed(), queries)
      case Reply(status, body) =>
        if body.None? then RouteResult(Failed(), queries)
        else if IsOk(status) then RouteResult(JsonResponse(200, body.value), queries)
        else
          match Get(body.value, "error")
          case TypeError => RouteResult(Failed(), queries)
          case Value(e) =>
            match Get(e, "message")
            case TypeError => RouteResult(Failed(), queries)
            case Value(m) =>
              if Sendable(status) then RouteResult(JsonResponse(status, ErrorBody(m)), queries)
              else RouteResult(Failed(), queries)
  }

  /** The provider's own error report is passed through with its status. */
  lemma UpstreamErrorPropagated(city: string, status: HttpStatus, message: string, code: real)
    requires city != "" && !IsOk(status) && Sendable(status)
    ensures WeatherGet(Some(city), Reply(status, Some(Obj(map["error" := Obj(map["code" := Num(code), "message" := Str(message)])]))))
              == RouteResult(JsonResponse(status, ErrorBody(Str(message))), [city])
  {
  }

  /** An upstream status outside 200 to 599 cannot be passed on: the route answers 500. */
  lemma UnsendableStatusFails(city: string, status: HttpStatus, body: JsValue)
    requires city != "" && !Sendable(status)
    ensures WeatherGet(Some(city), Reply(status, Some(body))).response == Failed()
  {
  }
}
