/** The weather card (src/modules/weather/components/WeatherDisplay/WeatherDisplay.tsx):
    which query it fetches, when a result is recorded as a recent search,
    its background, and which of the loading, error, empty and data views
    it shows. The markup of each view is not modelled. */
module WeatherDisplay {
  import opened Wrappers
  import opened WeatherModels
  import opened RecentSearchesStore
  import opened LocationStore
  import opened QueryBuilder
  import opened WeatherApi
  import opened WeatherQueries
  import opened WeatherGradient

  /** The query the card fetches: the selected city's coordinates, else the
      device position, else none. The card does not consult
      `useCurrentLocation`: a known position is used whenever no city is
      selected, even with the flag off. */
  function DisplayQuery(store: State, location: LocationState, show: real -> string): (q: string)
    ensures store.selectedCity.Some? ==>
      q == CoordQuery(store.selectedCity.value.lat, store.selectedCity.value.lon, show)
    ensures store.selectedCity.None? && location.coords.Some? ==>
      q == CoordQuery(location.coords.value.lat, location.coords.value.lon, show)
    ensures store.selectedCity.None? && location.coords.None? ==> q == ""
    ensures Valid(store) && store.useCurrentLocation && location.coords.Some? ==>
      q == CoordQuery(location.coords.value.lat, location.coords.value.lon, show)
  {
    BuildWeatherQuery(store.selectedCity, location.coords, show)
  }

  /** What the query hook reports to the card. `error` is the message of the
      thrown error. */
  datatype QueryResult = QueryResult(data: Option<WeatherData>, isLoading: bool, error: Option<string>)

  /** The hook's report once the query has settled: a disabled query has
      neither data nor error; `messageOf` is the message of a thrown error. */
  function Settled(run: Option<Result<WeatherData, ApiError>>, messageOf: ApiError -> string): (r: QueryResult)
    ensures !r.isLoading
    ensures r.data.Some? <==> run.Some? && run.value.Success?
    ensures r.data.Some? ==> r.data.value == run.value.value
    ensures r.error.Some? <==> run.Some? && run.value.Failure?
    ensures r.error.Some? ==> r.error.value == messageOf(run.value.error)
  {
    match run
    case None => QueryResult(None, false, None)
    case Some(Success(w)) => QueryResult(Some(w), false, None)
    case Some(Failure(e)) => QueryResult(None, false, Some(messageOf(e)))
  }

  /** `messageOf` reads `error.message`: for every failure the client words
      itself, that is its text. */
  ghost predicate MessagesAgree(messageOf: ApiError -> string, show: real -> string) {
    forall e: ApiError :: ErrorMessage(e, show).Some? ==> messageOf(e) == ErrorMessage(e, show).value
  }

  /** A failed fetch shows the client's own wording of the failure in the
      error view. */
  lemma ErrorViewShowsClientMessage(e: ApiError, messageOf: ApiError -> string, show: real -> string)
    requires MessagesAgree(messageOf, show)
    requires ErrorMessage(e, show).Some?
    ensures SelectView(Settled(Some(Failure(e)), messageOf)) == ErrorView(ErrorMessage(e, show).value)
  {
  }

  /** So a missing API key reads as the env-var message on the card. */
  lemma MissingKeyShown(messageOf: ApiError -> string, show: real -> string)
    requires MessagesAgree(messageOf, show)
    ensures SelectView(Settled(Some(Failure(ApiKeyNotSet)), messageOf))
      == ErrorView("NEXT_PUBLIC_WEATHER_API_KEY is not set in environment variables")
  {
    FixedErrorMessages(ApiKeyNotSet, show);
    ErrorViewShowsClientMessage(ApiKeyNotSet, messageOf, show);
  }

  /** The background: from the snapshot's code and day flag, or the default
      without one. */
  function GradientOf(weather: Option<WeatherData>): (g: string)
    ensures weather.None? ==> g == DefaultGradient
    ensures weather.Some? ==> g == GetWeatherGradient(Some(weather.value.weatherCode), Some(weather.value.isDay))
  {
    GetWeatherGradient(
      if weather.Some? then Some(weather.value.weatherCode) else None,
      if weather.Some? then Some(weather.value.isDay) else None)
  }

  /** The effect that records a search: only a fetched snapshot for a
      selected city is added. */
  function RecordOnSuccess(store: State, weather: Option<WeatherData>): (r: State)
    ensures weather.None? || store.selectedCity.None? ==> r == store
    ensures weather.Some? && store.selectedCity.Some? ==> r == AddSearch(store, weather.value)
    ensures r.selectedCity == store.selectedCity && r.useCurrentLocation == store.useCurrentLocation
    ensures Valid(store) ==> Valid(r)
  {
    if weather.Some? && store.selectedCity.Some? then AddSearch(store, weather.value) else store
  }

  /** The four views, by precedence. */
  datatype View = LoadingView | ErrorView(message: string) | EmptyView | DataView(weather: WeatherData, gradient: string)

  /** Loading wins; then an error, showing its message; then a missing
      snapshot or one with an empty id shows the empty view; only then is
      the snapshot shown. */
  function SelectView(res: QueryResult): (v: View)
    ensures res.isLoading <==> v.LoadingView?
    ensures v.ErrorView? <==> !res.isLoading && res.error.Some?
    ensures v.ErrorView? ==> v.message == res.error.value
    ensures v.EmptyView? <==> !res.isLoading && res.error.None? && (res.data.None? || res.data.value.id == "")
    ensures v.DataView? ==> res.data == Some(v.weather) && v.weather.id != "" && v.gradient == GradientOf(res.data)
  {
    if res.isLoading then LoadingView
    else if res.error.Some? then ErrorView(res.error.value)
    else if res.data.None? || res.data.value.id == "" then EmptyView
    else DataView(res.data.value, GradientOf(res.data))
  }

  /** With neither a city nor a position nothing is fetched and the empty
      view is shown. */
  lemma NoSourceShowsEmpty(
    store: State, location: LocationState, env: Option<string>, enc: string -> string,
    fetch: string -> Fetched, now: real, show: real -> string, messageOf: ApiError -> string)
    requires store.selectedCity.None? && location.coords.None?
    ensures RunCurrentWeatherQuery(DisplayQuery(store, location, show), env, enc, fetch, now, show).None?
    ensures SelectView(Settled(RunCurrentWeatherQuery(DisplayQuery(store, location, show), env, enc, fetch, now, show), messageOf)) == EmptyView
  {
    assert DisplayQuery(store, location, show) == "";
  }

  /** A fetch driven by the device position alone never touches the recent
      list, whatever it returns. */
  lemma PositionFetchesNotRecorded(store: State, weather: Option<WeatherData>)
    requires store.selectedCity.None?
    ensures RecordOnSuccess(store, weather).searches == store.searches
  {
  }

  /** A successful fetch for a selected city puts its snapshot at the head
      of the recent list. */
  lemma CityFetchRecorded(store: State, w: WeatherData, messageOf: ApiError -> string)
    requires store.selectedCity.Some?
    ensures var r := RecordOnSuccess(store, Settled(Some(Success(w)), messageOf).data);
      r.searches[0] == w && |r.searches| <= MaxRecentSearches
  {
  }
}
