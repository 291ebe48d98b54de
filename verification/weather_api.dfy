/** The provider client (src/data/weather/weather.api.ts): the query and
    API-key guards, the request URL, classification of failed responses,
    validation of successful ones, and the transform into a snapshot.

    The network, `response.json()`, the environment and the clock are
    inputs: `fetch` is a function from URL to what came back, `env` is the
    configured key, `now` is `Date.now()`. Number formatting (`show`) and
    `encodeURIComponent` (`enc`) are parameters. */
module WeatherApi {
  import opened Wrappers
  import opened Json
  import opened JsString
  import opened WeatherModels

  const WeatherApiBaseUrl: string := "https://api.weatherapi.com/v1"

  /** The outcome of `response.json()`. */
  datatype Body = Parsed(json: Json) | Unparseable(cause: string)

  /** What one request produced: a transport failure (the `fetch` promise
      rejected) or a response with its status flag, status text and body. */
  datatype Fetched =
    | NetworkFailure(cause: string)
    | Response(ok: bool, statusText: string, body: Body)

  /** Which of the two endpoints a failure came from; it picks the wording of
      the generic failure message. */
  datatype Operation = FetchWeather | SearchCities

  /** Everything the two calls can throw. */
  datatype ApiError =
    | QueryRequired                                   // blank query
    | ApiKeyNotSet                                    // missing or empty key
    | NetworkError(cause: string)                     // `fetch` rejected, rethrown as is
    | BodyNotJson(cause: string)                      // `response.json()` rejected
    | NullBody                                        // `data.error` read on a `null` body
    | ProviderError(code: real, message: string)      // a parsable error envelope
    | RequestFailed(operation: Operation, statusText: string)
    | MalformedResponse                               // zod `parse` rejected the body

  /** The message of the thrown `Error`, for the failures whose text the
      client spells out or passes through. The `TypeError` of a `null` body
      and zod's issue dump are worded by the runtime and the library, so
      they have none here. */
  function ErrorMessage(e: ApiError, show: real -> string): Option<string> {
    match e
    case QueryRequired => Some("Query parameter is required")
    case ApiKeyNotSet => Some("NEXT_PUBLIC_WEATHER_API_KEY is not set in environment variables")
    case NetworkError(cause) => Some(cause)
    case BodyNotJson(cause) => Some(cause)
    case NullBody => None
    case ProviderError(code, message) => Some("Weather API Error " + show(code) + ": " + message)
    case RequestFailed(op, statusText) =>
      Some((if op == FetchWeather then "Failed to fetch weather: " else "Failed to search cities: ") + statusText)
    case MalformedResponse => None
  }

  /** Only the `TypeError` of a `null` body and zod's rejection have no
      message worded here; every other failure has one. */
  lemma MessagelessFailures(e: ApiError, show: real -> string)
    ensures ErrorMessage(e, show).None? <==> e == NullBody || e == MalformedResponse
  {
    match e
    case QueryRequired =>
    case ApiKeyNotSet =>
    case NetworkError(_) =>
    case BodyNotJson(_) =>
    case NullBody =>
    case ProviderError(_, _) =>
    case RequestFailed(_, _) =>
    case MalformedResponse =>
  }

  /** The wording of the two guards. */
  lemma FixedErrorMessages(e: ApiError, show: real -> string)
    ensures e == QueryRequired ==> ErrorMessage(e, show) == Some("Query parameter is required")
    ensures e == ApiKeyNotSet ==>
      ErrorMessage(e, show) == Some("NEXT_PUBLIC_WEATHER_API_KEY is not set in environment variables")
  {
  }

  /** The wording of the failures that carry data: a transport or JSON
      error passes its own message through, a provider error shows its code
      and message, a generic failure names the operation and the status
      text. */
  lemma ParameterisedErrorMessages(e: ApiError, show: real -> string)
    ensures e.NetworkError? || e.BodyNotJson? ==> ErrorMessage(e, show) == Some(e.cause)
    ensures e.ProviderError? ==>
      ErrorMessage(e, show) == Some("Weather API Error " + show(e.code) + ": " + e.message)
    ensures e.RequestFailed? && e.operation == FetchWeather ==>
      ErrorMessage(e, show) == Some("Failed to fetch weather: " + e.statusText)
    ensures e.RequestFailed? && e.operation == SearchCities ==>
      ErrorMessage(e, show) == Some("Failed to search cities: " + e.statusText)
  {
  }

  /** The message tells the causes apart: the two operations' generic
      failures never read alike, neither reads like a provider error, and
      the status text can be recovered from a generic failure. */
  lemma FailureMessagesIdentifyCause(op: Operation, a: string, b: string, code: real, message: string, show: real -> string)
    ensures ErrorMessage(RequestFailed(FetchWeather, a), show) != ErrorMessage(RequestFailed(SearchCities, b), show)
    ensures ErrorMessage(ProviderError(code, message), show) != ErrorMessage(RequestFailed(op, a), show)
    ensures ErrorMessage(RequestFailed(op, a), show) == ErrorMessage(RequestFailed(op, b), show) ==> a == b
  {
    var fetchPrefix, searchPrefix := "Failed to fetch weather: ", "Failed to search cities: ";
    assert ("Failed to fetch weather: " + a)[10] == 'f';
    assert ("Failed to search cities: " + b)[10] == 's';
    assert ("Weather API Error " + show(code) + ": " + message)[0] == 'W';
    assert ("Failed to fetch weather: " + a)[0] == 'F';
    assert ("Failed to search cities: " + a)[0] == 'F';
    if ErrorMessage(RequestFailed(op, a), show) == ErrorMessage(RequestFailed(op, b), show) {
      var prefix := if op == FetchWeather then fetchPrefix else searchPrefix;
      assert a == (prefix + a)[|prefix|..];
      assert b == (prefix + b)[|prefix|..];
    }
  }

  /** `getApiKey`: the configured key, unless it is missing or empty. */
  function GetApiKey(env: Option<string>): (r: Result<string, ApiError>)
    ensures r.Success? <==> env.Some? && env.value != ""
    ensures r.Success? ==> r.value == env.value
    ensures r.Failure? ==> r.error == ApiKeyNotSet
  {
    if env.None? || env.value == "" then Failure(ApiKeyNotSet) else Success(env.value)
  }

  /** The current-conditions request: the encoded query goes after
      `/current.json?q=`, and the key, unencoded, ends the URL. */
  function CurrentWeatherUrl(query: string, key: string, enc: string -> string): (u: string)
    ensures StartsWith(u, WeatherApiBaseUrl + "/current.json?q=")
    ensures |u| == |WeatherApiBaseUrl + "/current.json?q="| + |enc(query)| + |"&key=" + key|
    ensures u[|WeatherApiBaseUrl + "/current.json?q="|..|u| - |"&key=" + key|] == enc(query)
    ensures u[|u| - |"&key=" + key|..] == "&key=" + key
  {
    var u := WeatherApiBaseUrl + "/current.json?q=" + enc(query) + "&key=" + key;
    assert u == (WeatherApiBaseUrl + "/current.json?q=") + enc(query) + ("&key=" + key);
    u
  }

  /** The city search request: the same shape on `/search.json`. */
  function SearchUrl(query: string, key: string, enc: string -> string): (u: string)
    ensures StartsWith(u, WeatherApiBaseUrl + "/search.json?q=")
    ensures |u| == |WeatherApiBaseUrl + "/search.json?q="| + |enc(query)| + |"&key=" + key|
    ensures u[|WeatherApiBaseUrl + "/search.json?q="|..|u| - |"&key=" + key|] == enc(query)
    ensures u[|u| - |"&key=" + key|..] == "&key=" + key
  {
    var u := WeatherApiBaseUrl + "/search.json?q=" + enc(query) + "&key=" + key;
    assert u == (WeatherApiBaseUrl + "/search.json?q=") + enc(query) + ("&key=" + key);
    u
  }

  /** The two endpoints never share a URL, whatever the queries and keys. */
  lemma UrlsNeverCollide(q1: string, q2: string, k1: string, k2: string, enc: string -> string)
    ensures CurrentWeatherUrl(q1, k1, enc) != SearchUrl(q2, k2, enc)
  {
    var n := |WeatherApiBaseUrl|;
    assert CurrentWeatherUrl(q1, k1, enc)[n + 1] == 'c';
    assert SearchUrl(q2, k2, enc)[n + 1] == 's';
  }

  /** `icon.replace(/^\/\//, "https://")`: a protocol-relative URL becomes an
      https one; anything else is left alone. No result starts with `//`. */
  function NormalizeIcon(icon: string): (r: string)
    ensures StartsWith(icon, "//") ==> r == "https://" + icon[2..]
    ensures !StartsWith(icon, "//") ==> r == icon
    ensures !StartsWith(r, "//")
  {
    if StartsWith(icon, "//") then
      var r := "https://" + icon[2..];
      assert r[1] == 't';
      r
    else
      icon
  }

  /** Normalising an icon URL twice is the same as once. */
  lemma NormalizeIconIdempotent(icon: string)
    ensures NormalizeIcon(NormalizeIcon(icon)) == NormalizeIcon(icon)
  {
  }

  /** `transformWeatherData`: the snapshot of a validated response. */
  function TransformWeatherData(resp: CurrentWeatherResponse, now: real, show: real -> string): (w: WeatherData)
    ensures w.id == show(resp.location.lat) + "-" + show(resp.location.lon) + "-" + show(now)
    ensures w.name == resp.location.name && w.country == resp.location.country
    ensures w.coord == Coord(resp.location.lat, resp.location.lon)
    ensures w.iconUrl == Some(NormalizeIcon(resp.current.condition.icon))
    ensures w.temperature == w.tempMin == w.tempMax == resp.current.tempC
    ensures w.feelsLike == resp.current.feelslikeC
    ensures w.humidity == resp.current.humidity
    ensures w.windSpeed * 3.6 == resp.current.windKph
    ensures w.windDirection == resp.current.windDegree
    ensures w.weatherCode == resp.current.condition.code
    ensures w.isDay <==> resp.current.isDay == 1.0
    ensures w.description == resp.current.condition.text
    ensures w.timestamp == resp.current.lastUpdated
  {
    var location := resp.location;
    var current := resp.current;
    WeatherData(
      id := show(location.lat) + "-" + show(location.lon) + "-" + show(now),
      name := location.name,
      country := location.country,
      coord := Coord(location.lat, location.lon),
      iconUrl := Some(NormalizeIcon(current.condition.icon)),
      temperature := current.tempC,
      feelsLike := current.feelslikeC,
      tempMin := current.tempC,
      tempMax := current.tempC,
      humidity := current.humidity,
      windSpeed := current.windKph / 3.6,
      windDirection := current.windDegree,
      weatherCode := current.condition.code,
      isDay := current.isDay == 1.0,
      description := current.condition.text,
      timestamp := current.lastUpdated)
  }

  /** `data.error` is present and truthy. Only an object can carry it:
      arrays, strings, numbers and booleans have no `error` property. */
  predicate ErrorFieldTruthy(data: Json) {
    data.JObj? && "error" in data.props && Truthy(data.props["error"])
  }

  /** A valid error envelope always takes the error branch, even on an ok
      response: its `error` member is an object, and objects are truthy.
      Only objects can do so. */
  lemma EnvelopeTakesErrorBranch(data: Json)
    ensures Matches(data, WeatherApiErrorSchema) ==> ErrorFieldTruthy(data)
    ensures ErrorFieldTruthy(data) ==> data.JObj?
  {
    if Matches(data, WeatherApiErrorSchema) {
      ErrorEnvelopeShape(data);
    }
  }

  /** The error thrown for a rejected response: the provider's code and
      message when the body is a valid error envelope, otherwise the generic
      message with the HTTP status text. */
  function ClassifyFailure(op: Operation, statusText: string, data: Json): (e: ApiError)
    ensures e.ProviderError? <==> Matches(data, WeatherApiErrorSchema)
    ensures e.ProviderError? ==> ParseErrorEnvelope(data) == Some(ApiErrorBody(e.code, e.message))
    ensures e.RequestFailed? ==> e == RequestFailed(op, statusText)
    ensures !Matches(data, WeatherApiErrorSchema) ==> e == RequestFailed(op, statusText)
  {
    match ParseErrorEnvelope(data)
    case Some(body) => ProviderError(body.code, body.message)
    case None => RequestFailed(op, statusText)
  }

  /** The steps both calls share once the request is sent: a transport
      failure and an unreadable body propagate; a response that is not ok,
      or whose body has a truthy `error`, is classified; anything else is
      the body to validate. A `null` body of an ok response throws when its
      `error` is read. */
  function CheckResponse(op: Operation, f: Fetched): (r: Result<Json, ApiError>)
    ensures f.NetworkFailure? ==> r == Failure(NetworkError(f.cause))
    ensures f.Response? && f.body.Unparseable? ==> r == Failure(BodyNotJson(f.body.cause))
    ensures r.Success? <==>
      f.Response? && f.ok && f.body.Parsed? && !f.body.json.JNull? && !ErrorFieldTruthy(f.body.json)
    ensures r.Success? ==> r.value == f.body.json
    ensures f.Response? && f.body.Parsed? && (!f.ok || ErrorFieldTruthy(f.body.json)) ==>
      r == Failure(ClassifyFailure(op, f.statusText, f.body.json))
    ensures f.Response? && f.ok && f.body == Parsed(JNull) ==> r == Failure(NullBody)
    ensures r.Failure? ==> !r.error.QueryRequired? && !r.error.ApiKeyNotSet?
  {
    match f
    case NetworkFailure(cause) => Failure(NetworkError(cause))
    case Response(ok, statusText, body) =>
      match body
      case Unparseable(cause) => Failure(BodyNotJson(cause))
      case Parsed(data) =>
        if !ok then Failure(ClassifyFailure(op, statusText, data))
        else if data.JNull? then Failure(NullBody)
        else if ErrorFieldTruthy(data) then Failure(ClassifyFailure(op, statusText, data))
        else Success(data)
  }

  /** What `getCurrentWeather` does with the outcome of its request. */
  function HandleCurrentWeather(f: Fetched, now: real, show: real -> string): (r: Result<WeatherData, ApiError>)
    ensures r.Success? ==>
      && f.Response? && f.ok && f.body.Parsed?
      && !ErrorFieldTruthy(f.body.json)
      && Matches(f.body.json, CurrentWeatherResponseSchema)
      && r.value == TransformWeatherData(ParseCurrentWeatherResponse(f.body.json).value, now, show)
    ensures CheckResponse(FetchWeather, f).Failure? ==> r == Failure(CheckResponse(FetchWeather, f).error)
    ensures CheckResponse(FetchWeather, f).Success? && !Matches(f.body.json, CurrentWeatherResponseSchema) ==>
      r == Failure(MalformedResponse)
    ensures CheckResponse(FetchWeather, f).Success? && Matches(f.body.json, CurrentWeatherResponseSchema) ==>
      r == Success(TransformWeatherData(ParseCurrentWeatherResponse(f.body.json).value, now, show))
    ensures r.Failure? ==> !r.error.QueryRequired? && !r.error.ApiKeyNotSet?
  {
    match CheckResponse(FetchWeather, f)
    case Failure(e) => Failure(e)
    case Success(data) =>
      match ParseCurrentWeatherResponse(data)
      case None => Failure(MalformedResponse)
      case Some(resp) => Success(TransformWeatherData(resp, now, show))
  }

  /** `getCurrentWeather(query)`. */
  function GetCurrentWeather(
    query: string, env: Option<string>, enc: string -> string,
    fetch: string -> Fetched, now: real, show: real -> string): (r: Result<WeatherData, ApiError>)
    ensures r == Failure(QueryRequired) <==> IsBlank(query)
    ensures !IsBlank(query) && GetApiKey(env).Failure? ==> r == Failure(ApiKeyNotSet)
    ensures !IsBlank(query) && GetApiKey(env).Success? ==>
      r == HandleCurrentWeather(fetch(CurrentWeatherUrl(query, env.value, enc)), now, show)
  {
    TrimEmptyIffBlank(query);
    if Trim(query) == "" then Failure(QueryRequired)
    else if GetApiKey(env).Failure? then Failure(ApiKeyNotSet)
    else HandleCurrentWeather(fetch(CurrentWeatherUrl(query, GetApiKey(env).value, enc)), now, show)
  }

  /** What `searchCities` does with the outcome of its request: an ok body
      that is not an array, or is an empty one, yields no cities; otherwise
      every item must be a valid city. */
  function HandleCitySearch(f: Fetched): (r: Result<seq<City>, ApiError>)
    ensures CheckResponse(SearchCities, f).Failure? ==> r == Failure(CheckResponse(SearchCities, f).error)
    ensures CheckResponse(SearchCities, f).Success? && (!f.body.json.JArr? || f.body.json.items == []) ==>
      r == Success([])
    ensures r.Success? && r.value != [] ==>
      && f.Response? && f.ok && f.body.Parsed? && f.body.json.JArr?
      && |r.value| == |f.body.json.items|
      && forall i | 0 <= i < |r.value| :: ParseCity(f.body.json.items[i]) == Some(r.value[i])
    ensures CheckResponse(SearchCities, f).Success? && f.body.json.JArr? && f.body.json.items != [] ==>
      (r == Failure(MalformedResponse) <==> !Matches(f.body.json, CitySearchResponseSchema))
    ensures (CheckResponse(SearchCities, f).Success? && f.body.json.JArr? && f.body.json.items != []
             && Matches(f.body.json, CitySearchResponseSchema)) ==>
      && r.Success? && |r.value| == |f.body.json.items|
      && forall i | 0 <= i < |r.value| :: ParseCity(f.body.json.items[i]) == Some(r.value[i])
  {
    match CheckResponse(SearchCities, f)
    case Failure(e) => Failure(e)
    case Success(data) =>
      if !data.JArr? || |data.items| == 0 then Success([])
      else
        match ParseCities(data.items)
        case None => Failure(MalformedResponse)
        case Some(cities) => Success(cities)
  }

  /** `searchCities(query)`: a blank query yields no cities and no request. */
  function SearchCitiesCall(
    query: string, env: Option<string>, enc: string -> string,
    fetch: string -> Fetched): (r: Result<seq<City>, ApiError>)
    ensures IsBlank(query) ==> r == Success([])
    ensures !IsBlank(query) && GetApiKey(env).Failure? ==> r == Failure(ApiKeyNotSet)
    ensures !IsBlank(query) && GetApiKey(env).Success? ==>
      r == HandleCitySearch(fetch(SearchUrl(query, env.value, enc)))
  {
    TrimEmptyIffBlank(query);
    if Trim(query) == "" then Success([])
    else if GetApiKey(env).Failure? then Failure(ApiKeyNotSet)
    else HandleCitySearch(fetch(SearchUrl(query, GetApiKey(env).value, enc)))
  }
}
