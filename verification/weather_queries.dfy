/** The react-query layer over the provider client
    (src/data/weather/weather.queries.ts): the cache keys and the `enabled`
    guards of the two hooks. Caching, staleness and request deduplication
    are not modelled; a disabled query simply runs nothing. */
module WeatherQueries {
  import opened Wrappers
  import opened JsString
  import opened WeatherModels
  import opened WeatherApi

  /** `queryKeys.all`: the prefix every weather key shares. */
  const AllKey: seq<string> := ["weather"]

  /** `queryKeys.current(query)`. */
  function CurrentKey(query: string): (k: seq<string>)
    ensures |k| == |AllKey| + 2 && k[..|AllKey|] == AllKey
    ensures k[|AllKey|] == "current" && k[|k| - 1] == query
  {
    AllKey + ["current", query]
  }

  /** `queryKeys.citySearch(query)`. */
  function SearchKey(query: string): (k: seq<string>)
    ensures |k| == |AllKey| + 2 && k[..|AllKey|] == AllKey
    ensures k[|AllKey|] == "search" && k[|k| - 1] == query
  {
    AllKey + ["search", query]
  }

  /** Different queries are cached under different keys. */
  lemma KeysInjective(a: string, b: string)
    ensures CurrentKey(a) == CurrentKey(b) <==> a == b
    ensures SearchKey(a) == SearchKey(b) <==> a == b
  {
    if CurrentKey(a) == CurrentKey(b) {
      assert CurrentKey(a)[2] == CurrentKey(b)[2];
    }
    if SearchKey(a) == SearchKey(b) {
      assert SearchKey(a)[2] == SearchKey(b)[2];
    }
  }

  /** A current-conditions entry never shares a key with a search entry. */
  lemma KeysDisjoint(a: string, b: string)
    ensures CurrentKey(a) != SearchKey(b)
  {
    assert CurrentKey(a)[1] != SearchKey(b)[1];
  }

  /** `enabled: !!query && query.trim().length > 0`. */
  function CurrentQueryEnabled(query: string): (b: bool)
    ensures b <==> !IsBlank(query)
  {
    TrimEmptyIffBlank(query);
    query != "" && Utf16Length(Trim(query)) > 0
  }

  /** `enabled: !!query && query.trim().length >= 2`, where `length` counts
      UTF-16 code units. Two or more characters after trimming always
      enable it, and for text in the Basic Multilingual Plane nothing
      shorter does. */
  function SearchQueryEnabled(query: string): (b: bool)
    ensures |Trim(query)| >= 2 ==> b
    ensures IsBmp(Trim(query)) ==> (b <==> |Trim(query)| >= 2)
    ensures |Trim(query)| == 1 ==> (b <==> Trim(query)[0] as int > 0xFFFF)
    ensures b ==> !IsBlank(query)
  {
    TrimEmptyIffBlank(query);
    Utf16LengthBmp(Trim(query));
    query != "" && Utf16Length(Trim(query)) >= 2
  }

  /** A single ordinary character, however padded, never triggers a search. */
  lemma OneCharacterNeverSearches(query: string, c: char)
    requires Trim(query) == [c] && c as int <= 0xFFFF
    ensures !SearchQueryEnabled(query)
  {
    assert IsBmp(Trim(query));
  }

  /** But one character outside the Basic Multilingual Plane is two code
      units long and does. */
  lemma OneAstralCharacterSearches()
    ensures SearchQueryEnabled("\U{1F600}")
  {
    var q := "\U{1F600}";
    assert !IsWhitespace(q[0]);
    assert TrimStart(q) == q;
    assert TrimEnd(q) == q;
    assert Utf16Length(q) == 2;
  }

  /** `useCurrentWeatherQuery(query)`: `getCurrentWeather(query)` runs only
      while the query is enabled, and then its blank-query guard cannot
      fire. */
  function RunCurrentWeatherQuery(
    query: string, env: Option<string>, enc: string -> string,
    fetch: string -> Fetched, now: real, show: real -> string): (r: Option<Result<WeatherData, ApiError>>)
    ensures r.None? <==> IsBlank(query)
    ensures r.Some? ==> r.value == GetCurrentWeather(query, env, enc, fetch, now, show)
    ensures r.Some? ==> r.value != Failure(QueryRequired)
  {
    if CurrentQueryEnabled(query) then
      Some(GetCurrentWeather(query, env, enc, fetch, now, show))
    else
      None
  }

  /** `useSearchCitiesQuery(query)`: `searchCities(query)` runs only for
      queries enabled for search, which are never blank, so it always
      reaches the key check and, with a key, the request. */
  function RunSearchCitiesQuery(
    query: string, env: Option<string>, enc: string -> string,
    fetch: string -> Fetched): (r: Option<Result<seq<City>, ApiError>>)
    ensures r.None? <==> !SearchQueryEnabled(query)
    ensures r.Some? && GetApiKey(env).Failure? ==> r.value == Failure(ApiKeyNotSet)
    ensures r.Some? && GetApiKey(env).Success? ==>
      r.value == HandleCitySearch(fetch(SearchUrl(query, env.value, enc)))
  {
    if SearchQueryEnabled(query) then
      Some(SearchCitiesCall(query, env, enc, fetch))
    else
      None
  }
}
