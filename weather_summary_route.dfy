/**
 * The weather route at src/app/api/weather/route.ts: default the city, make one
 * upstream call, and project the upstream body onto a flat nine-field record.
 * The upstream status is never looked at.
 */
module WeatherSummaryRoute {
  import opened Wrappers
  import opened JsValues

  const DefaultCity: string := "London"
  const FetchFailed: string := "Failed to fetch weather"

  /** The flat record the route returns; each field is whatever the upstream body held there. */
  datatype Summary = Summary(
    city: JsValue,
    country: JsValue,
    condition: JsValue,
    isDay: JsValue,
    temperature: JsValue,
    feelsLike: JsValue,
    humidity: JsValue,
    windSpeed: JsValue,
    windDirection: JsValue)

  const SummaryKeys: set<string> :=
    {"city", "country", "condition", "isDay", "temperature", "feelsLike", "humidity", "windSpeed", "windDirection"}

  /** `searchParams.get('city') || 'London'`. */
  function QueryCity(city: Option<string>): (r: string)
    ensures r != ""
    ensures city.Some? && city.value != "" ==> r == city.value
    ensures !(city.Some? && city.value != "") ==> r == DefaultCity
  {
    if city.Some? && city.value != "" then city.value else DefaultCity
  }

  /** The object literal of the success branch; `None` when one of its property reads throws. */
  function Project(data: JsValue): (r: Option<Summary>)
    ensures r.Some? <==> Path(data, ["location", "name"]).Value? && Path(data, ["current", "condition", "text"]).Value?
    ensures r.Some? ==>
              && Path(data, ["location", "name"]) == Value(r.value.city)
              && Path(data, ["location", "country"]) == Value(r.value.country)
              && Path(data, ["current", "condition", "text"]) == Value(r.value.condition)
              && Path(data, ["current", "is_day"]) == Value(r.value.isDay)
              && Path(data, ["current", "temp_c"]) == Value(r.value.temperature)
              && Path(data, ["current", "feelslike_c"]) == Value(r.value.feelsLike)
              && Path(data, ["current", "humidity"]) == Value(r.value.humidity)
              && Path(data, ["current", "wind_kph"]) == Value(r.value.windSpeed)
              && Path(data, ["current", "wind_dir"]) == Value(r.value.windDirection)
  {
    match Get(data, "location")
    case TypeError => None
    case Value(location) =>
      match Get(location, "name")
      case TypeError => None
      case Value(name) =>
        match Get(data, "current")
        case TypeError => None
        case Value(current) =>
          match Get(current, "condition")
          case TypeError => None
          case Value(condition) =>
            match Get(condition, "text")
            case TypeError => None
            case Value(text) =>
              Some(Summary(
                name,
                Get(location, "country").v,
                text,
                Get(current, "is_day").v,
                Get(current, "temp_c").v,
                Get(current, "feelslike_c").v,
                Get(current, "humidity").v,
                Get(current, "wind_kph").v,
                Get(current, "wind_dir").v))
  }

  /** The JSON object the success branch sends: exactly the nine named fields. */
  function SummaryJson(s: Summary): (r: JsValue)
    ensures r.Obj? && r.fields.Keys == SummaryKeys
    ensures r.fields["city"] == s.city && r.fields["country"] == s.country
    ensures r.fields["condition"] == s.condition && r.fields["isDay"] == s.isDay
    ensures r.fields["temperature"] == s.temperature && r.fields["feelsLike"] == s.feelsLike
    ensures r.fields["humidity"] == s.humidity && r.fields["windSpeed"] == s.windSpeed
    ensures r.fields["windDirection"] == s.windDirection
  {
    Obj(map[
      "city" := s.city, "country" := s.country, "condition" := s.condition, "isDay" := s.isDay,
      "temperature" := s.temperature, "feelsLike" := s.feelsLike, "humidity" := s.humidity,
      "windSpeed" := s.windSpeed, "windDirection" := s.windDirection])
  }

  function Failed(): JsonResponse
  {
    JsonResponse(500, ErrorBody(Str(FetchFailed)))
  }

  /** GET /api/weather?city=... */
  function WeatherSummaryGet(city: Option<string>, upstream: FetchOutcome): (r: RouteResult)
    ensures r.upstreamQueries == [QueryCity(city)]
    ensures r.response.status == 200 || r.response == Failed()
    ensures r.response.status == 200 <==>
              upstream.Reply? && upstream.body.Some? && Project(upstream.body.value).Some?
    ensures r.response.status == 200 ==>
              r.response.body == SummaryJson(Project(upstream.body.value).value)
  {
    var queries := [QueryCity(city)];
    match upstream
    case NetworkError => RouteResult(Failed(), queries)
    case Reply(_, body) =>
      if body.None? then RouteResult(Failed(), queries)
      else
        match Project(body.value)
        case None => RouteResult(Failed(), queries)
        case Some(summary) => RouteResult(JsonResponse(200, SummaryJson(summary)), queries)
  }

  /** The upstream status is never checked. */
  lemma UpstreamStatusIgnored(city: Option<string>, s1: HttpStatus, s2: HttpStatus, body: Option<JsValue>)
    ensures WeatherSummaryGet(city, Reply(s1, body)) == WeatherSummaryGet(city, Reply(s2, body))
  {
  }

  /** An upstream error body, which has no `location`, ends in the catch branch. */
  lemma {:induction false} ErrorBodyFails(city: Option<string>, status: HttpStatus, fields: map<string, JsValue>)
    requires "location" !in fields
    ensures WeatherSummaryGet(city, Reply(status, Some(Obj(fields)))).response == Failed()
  {
    assert Get(Obj(fields), "location") == Value(Undefined);
  }
}
