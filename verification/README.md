# Weather app core, modelled in Dafny

This project models the decision logic of a small Next.js weather app, written in TypeScript. The app has four parts:

- a client for the WeatherAPI.com service, which validates responses with zod schemas;
- a react-query layer that decides when to fetch;
- two zustand stores: the recent-search and selection store, and the device-position store;
- the pure decisions inside its UI components. These are the precedence of the weather query, the background gradient, which view the weather card shows, when a result is recorded, and how a picked combo-box entry or recent-search card becomes the selected city.

All of these are pure functions over immutable datatypes. Each store action is a function from state to state.

## Module map

| file | module | models |
|---|---|---|
| `wrappers.dfy` | `Wrappers` | `Option` and `Result` |
| `json.dfy` | `Json` | the parsed response body; zod object and array schemas as data, with `Matches` as their interpreter |
| `js_string.dfy` | `JsString` | JavaScript `trim` (ECMAScript white space and line terminators), `length` in UTF-16 code units, `startsWith` |
| `weather_models.dfy` | `WeatherModels` | the zod schemas of `weather.models.ts`; the typed records; validation into records, and encoding back for round trips |
| `weather_api.dfy` | `WeatherApi` | `getApiKey`, `transformWeatherData`, `getCurrentWeather`, `searchCities` and their error classification |
| `weather_queries.dfy` | `WeatherQueries` | query keys and the two `enabled` guards |
| `build_weather_query.dfy` | `QueryBuilder` | `buildWeatherQuery` and reading a query back |
| `weather_gradient.dfy` | `WeatherGradient` | `getWeatherGradient` |
| `recent_searches_store.dfy` | `RecentSearchesStore` | `addSearch`, `clearSearches`, `setSelectedCity`, `setUseCurrentLocation`, and the reachable-state invariant |
| `location_store.dfy` | `LocationStore` | the position store and its `partialize` projection |
| `combo_box.dfy` | `ComboBox` | `selectedKey`, the key→option lookup, `isInvalid` |
| `city_search.dfy` | `CitySearch` | option formatting and `handleSelectionChange` |
| `recent_searches_view.dfy` | `RecentSearchesView` | the recent-search cards, the card click and the clear button |
| `weather_display.dfy` | `WeatherDisplay` | query wiring, the record-on-success effect, the gradient source and view precedence |

## Modelling choices

- JavaScript numbers are `real`: JSON cannot carry NaN or infinities.
- Weather codes are reals too, because `getWeatherGradient` compares them with `===`, `>=` and `<=`. A fractional code such as 1.5 therefore counts as "cloudy", exactly as it does in JavaScript.
- The network, `response.json()`, the environment and the clock are inputs:
  - `fetch` is a function from URL to `Fetched`, which is a transport failure or a response with `ok`, `statusText` and a body that did or did not parse as JSON;
  - the API key is an `Option<string>`;
  - `Date.now()` is a `now: real` parameter.
- How JavaScript prints a number is the parameter `show`. `encodeURIComponent` is the parameter `enc`, and `Number(...)` on a string id is the parameter `toNumber`. Facts that need number printing to be non-empty and comma-free take `WellFormedShow(show)` as a precondition.
- The code is followed where it differs from the app's own description:
  - `response.json()` runs before the `ok` test, so a failed response whose body is not JSON fails with the JSON error (`BodyNotJson`), not with "Failed to fetch weather: …" (src/data/weather/weather.api.ts:65-68).
  - The selection store does not enforce "exactly one of city mode or location mode". `setUseCurrentLocation(false)` with no city leaves it in neither mode. Only "location mode ⇒ no city" is invariant (`NeitherModeReachable`, `ReachableStatesValid`).
  - `getWeatherGradient` returns one of eight distinct class strings: clear sky has a day and a night variant next to the default, cloudy, rain, snow, thunderstorm and fog.
  - The city-search guard counts UTF-16 code units. A single character outside the Basic Multilingual Plane, such as an emoji, is two units long and enables a search (`OneAstralCharacterSearches`).
  - Reading `data.error` on a `null` body of an ok response throws a `TypeError`; it is modelled as `NullBody`.
- The gradient buckets are the ranges of WMO code table 4677. The provider sends its own condition codes (1000 and up), so every real response falls to the default gradient (`ProviderCodesFallThrough`).

## Model

| member | source | states |
|---|---|---|
| `Json.DropOptionalKey` | src/data/weather/weather.models.ts:41-44 | an object still validates when a member that the schema marks `.optional()` is removed |
| `Json.DropRequiredKey` | src/data/weather/weather.models.ts:23-40 | an object never validates once a required member is removed |
| `Json.ObjectConcat` | src/data/weather/weather.models.ts:22-56 | an object schema whose member list is split in two parts is satisfied exactly when both parts are |
| `Json.TruthyValues` | src/data/weather/weather.api.ts:68 | the falsy values are exactly `null`, `false`, `0` and `""`; arrays and objects, even empty ones, are truthy |
| `JsString.Trim` | src/data/weather/weather.api.ts:56 | the result of `trim()` neither starts nor ends with white space and is no longer than the input (what it keeps: `TrimIsStretch`) |
| `JsString.TrimIsStretch` | src/data/weather/weather.api.ts:56 | `trim()` keeps a contiguous stretch of the input with only white space before and after it |
| `JsString.Utf16Length` | src/data/weather/weather.queries.ts:37 | `length` lies between the character count and twice it; one character counts 2 exactly when it lies above U+FFFF |
| `JsString.Utf16LengthConcat` | src/data/weather/weather.queries.ts:37 | `length` adds up over concatenation, so with the one-character case it is fixed for every string |
| `JsString.TrimEmptyIffBlank` | src/data/weather/weather.api.ts:56 | `query.trim()` is empty exactly when every character of the query is JavaScript white space |
| `JsString.Utf16LengthBmp` | src/data/weather/weather.queries.ts:37 | `length` equals the character count exactly when no character needs a surrogate pair |
| `WeatherModels.LocationShape` | src/data/weather/weather.models.ts:5-14 | a location validates iff it is an object with string name, region, country, tz_id and localtime and numeric lat, lon and localtime_epoch |
| `WeatherModels.ConditionShape` | src/data/weather/weather.models.ts:16-20 | a condition validates iff text and icon are strings and code is a number |
| `WeatherModels.CurrentGroup1Shape` | src/data/weather/weather.models.ts:23-30 | the first eight members of `current` validate iff they have their declared types and `condition` is a valid condition |
| `WeatherModels.CurrentGroup2Shape` | src/data/weather/weather.models.ts:31-38 | members wind_degree to cloud validate iff they have their declared types |
| `WeatherModels.CurrentGroup3Shape` | src/data/weather/weather.models.ts:39-46 | members feelslike_c to dewpoint_f validate iff required ones are present and typed, and windchill and heatindex are numbers when present |
| `WeatherModels.CurrentGroup4Shape` | src/data/weather/weather.models.ts:47-55 | vis_km, vis_miles and uv are required numbers; gust, short_rad, diff_rad, dni and gti are numbers when present |
| `WeatherModels.CurrentShape` | src/data/weather/weather.models.ts:22-56 | `current` validates iff it is an object satisfying all four member groups |
| `WeatherModels.CurrentCarriedMembers` | src/data/weather/weather.models.ts:22-56 | a valid `current` holds the members the transform reads, with their types |
| `WeatherModels.ParseLocation` | src/data/weather/weather.models.ts:5-14 | validation succeeds iff the schema matches, and the record agrees with the JSON on all eight members |
| `WeatherModels.LocationRoundTrip` | src/data/weather/weather.models.ts:5-14 | encoding a location and validating it gives it back |
| `WeatherModels.ParseCondition` | src/data/weather/weather.models.ts:16-20 | validation succeeds iff the schema matches, and the record agrees with the JSON |
| `WeatherModels.ConditionRoundTrip` | src/data/weather/weather.models.ts:16-20 | encoding a condition and validating it gives it back |
| `WeatherModels.ParseCurrent` | src/data/weather/weather.models.ts:22-56 | validation succeeds iff the schema matches; the record agrees with the JSON on the carried members, and its condition is the validated condition |
| `WeatherModels.ParseCurrentWeatherResponse` | src/data/weather/weather.models.ts:58-61 | a response validates iff it has a valid location and a valid current, and then the record holds their validated forms |
| `WeatherModels.CityShape` | src/data/weather/weather.models.ts:63-71 | a city validates iff id, lat and lon are numbers and name, region, country and url are strings |
| `WeatherModels.ParseCity` | src/data/weather/weather.models.ts:63-71 | validation succeeds iff the schema matches, and the record agrees with the JSON on all seven members |
| `WeatherModels.CityRoundTrip` | src/data/weather/weather.models.ts:63-71 | encoding a city and validating it gives it back |
| `WeatherModels.ParseCities` | src/data/weather/weather.models.ts:73 | an array validates iff every item is a valid city, possibly none; the result has one city per item, in order |
| `WeatherModels.CitiesRoundTrip` | src/data/weather/weather.models.ts:73 | encoding a list of cities gives a valid search response that validates back to the same list |
| `WeatherModels.ErrorEnvelopeShape` | src/data/weather/weather.models.ts:75-80 | the error envelope validates iff `error` is an object with numeric code and string message |
| `WeatherModels.ParseErrorEnvelope` | src/data/weather/weather.models.ts:75-80 | validation succeeds iff the envelope matches, and the code and message are those of `error` |
| `WeatherModels.CityFormShape` | src/data/weather/weather.models.ts:106-108 | the city form validates iff `city` is a non-empty string |
| `WeatherModels.WeatherDataSchemaMembers` | src/data/weather/weather.models.ts:83-103 | in the snapshot schema only iconUrl is optional, and isDay is a boolean |
| `WeatherApi.FailureMessagesIdentifyCause` | src/data/weather/weather.api.ts:71-75 | generic failures of the two operations never read alike or like a provider error, and the status text is recoverable |
| `WeatherApi.MessagelessFailures` | src/data/weather/weather.api.ts:53-80 | every failure has a message worded by the client or passed through, except the `TypeError` of a `null` body and zod's rejection |
| `WeatherApi.FixedErrorMessages` | src/data/weather/weather.api.ts:12-58 | the blank-query and missing-key failures read exactly "Query parameter is required" and "NEXT_PUBLIC_WEATHER_API_KEY is not set in environment variables" |
| `WeatherApi.ParameterisedErrorMessages` | src/data/weather/weather.api.ts:71-75 | transport and JSON errors keep their message; a provider error reads "Weather API Error {code}: {message}"; a generic failure reads "Failed to fetch weather: {statusText}" or "Failed to search cities: {statusText}" |
| `WeatherApi.CurrentWeatherUrl` | src/data/weather/weather.api.ts:61-63 | the URL is the base with `/current.json?q=`, then exactly the encoded query, then `&key=` and the unencoded key at the end |
| `WeatherApi.SearchUrl` | src/data/weather/weather.api.ts:90-92 | the same layout on `/search.json` |
| `WeatherApi.UrlsNeverCollide` | src/data/weather/weather.api.ts:61-63 | no current-weather URL equals a search URL, whatever the queries and keys |
| `WeatherApi.EnvelopeTakesErrorBranch` | src/data/weather/weather.api.ts:68 | a valid error envelope always takes the error branch, even on an ok response, and only objects can take it through `data.error` |
| `WeatherApi.GetApiKey` | src/data/weather/weather.api.ts:12-21 | the key is returned iff it is configured and non-empty; otherwise the env-var error |
| `WeatherApi.NormalizeIcon` | src/data/weather/weather.api.ts:28 | a leading `//` becomes `https://`, any other icon is unchanged, and no result starts with `//` |
| `WeatherApi.NormalizeIconIdempotent` | src/data/weather/weather.api.ts:28 | normalising twice equals normalising once |
| `WeatherApi.TransformWeatherData` | src/data/weather/weather.api.ts:23-51 | isDay iff is_day is 1; temperature, tempMin and tempMax equal temp_c; windSpeed × 3.6 is wind_kph; the id is lat-lon-now; the other fields are copied |
| `WeatherApi.ClassifyFailure` | src/data/weather/weather.api.ts:69-75 | a provider error iff the body is a valid error envelope, carrying its code and message; exactly when it is not, the generic failure with the status text |
| `WeatherApi.CheckResponse` | src/data/weather/weather.api.ts:65-76 | a body goes on to validation iff the response is ok, the body is JSON, not null, and has no truthy `error`; a transport or JSON failure propagates; an ok `null` body fails with `NullBody`; a response that is not ok, or has a truthy `error`, is classified |
| `WeatherApi.HandleCurrentWeather` | src/data/weather/weather.api.ts:65-79 | a checked body that validates gives exactly its transform, and a snapshot comes from nothing else; a checked body that fails validation is an error; a failed check propagates |
| `WeatherApi.GetCurrentWeather` | src/data/weather/weather.api.ts:53-80 | "query required" iff the query is blank, before the key is read; then the key error; then the single request to `/current.json?q=enc(query)&key=key` |
| `WeatherApi.HandleCitySearch` | src/data/weather/weather.api.ts:94-121 | errors as for current weather; an ok body that is not an array or is empty gives no cities; a non-empty array fails iff some item is invalid, and a valid one gives exactly its cities, one per item, in order |
| `WeatherApi.SearchCitiesCall` | src/data/weather/weather.api.ts:82-122 | a blank query gives no cities and no request; then the key error; then the request to `/search.json` |
| `WeatherQueries.CurrentKey` | src/data/weather/weather.queries.ts:10-12 | the current-weather key is `["weather"]`, then `"current"`, then the query |
| `WeatherQueries.SearchKey` | src/data/weather/weather.queries.ts:10-13 | the search key is `["weather"]`, then `"search"`, then the query |
| `WeatherQueries.KeysInjective` | src/data/weather/weather.queries.ts:12-13 | each key is injective in the query |
| `WeatherQueries.KeysDisjoint` | src/data/weather/weather.queries.ts:12-13 | a current key never equals a search key |
| `WeatherQueries.CurrentQueryEnabled` | src/data/weather/weather.queries.ts:24 | the current-weather query is enabled iff the query is not blank |
| `WeatherQueries.SearchQueryEnabled` | src/data/weather/weather.queries.ts:37 | two or more characters after trimming enable a search; for plane-0 text exactly those do; a single character enables it exactly when it lies above U+FFFF; an enabled query is never blank |
| `WeatherQueries.OneCharacterNeverSearches` | src/data/weather/weather.queries.ts:37 | a single plane-0 character, however padded, never searches |
| `WeatherQueries.OneAstralCharacterSearches` | src/data/weather/weather.queries.ts:37 | a single emoji does search |
| `WeatherQueries.RunCurrentWeatherQuery` | src/data/weather/weather.queries.ts:20-28 | the fetch runs iff the query is not blank, and then its blank-query guard never fires |
| `WeatherQueries.RunSearchCitiesQuery` | src/data/weather/weather.queries.ts:33-39 | the search runs iff enabled, and then always reaches the key check and the request |
| `QueryBuilder.BuildWeatherQuery` | src/modules/weather/utils/buildWeatherQuery.ts:14-30 | the selected city's `lat,lon` whatever the position; else the position's; else `""` |
| `QueryBuilder.QueryEmptyIffNoSource` | src/modules/weather/utils/buildWeatherQuery.ts:14-30 | the query is empty iff there is neither a city nor a position |
| `QueryBuilder.QueryDependsOnlyOnCoordinates` | src/modules/weather/utils/buildWeatherQuery.ts:19-21 | two cities at the same place give the same query, whatever their other fields and the position |
| `QueryBuilder.QueryRoundTrip` | src/modules/weather/utils/buildWeatherQuery.ts:19-29 | splitting the query at its first comma gives back the chosen latitude and longitude; an empty query has no comma |
| `WeatherGradient.GetWeatherGradient` | src/modules/weather/utils/getWeatherGradient.ts:8-60 | a missing input gives the default; each bucket gives its class, stated bucket by bucket; clear sky depends on the day flag |
| `WeatherGradient.BucketsDisjoint` | src/modules/weather/utils/getWeatherGradient.ts:28-57 | no code lies in two buckets, so the order of the tests does not matter |
| `WeatherGradient.DayFlagOnlyMattersWhenClear` | src/modules/weather/utils/getWeatherGradient.ts:28-59 | for every code other than 0 the day flag does not change the result |
| `WeatherGradient.GradientsDistinct` | src/modules/weather/utils/getWeatherGradient.ts:18-59 | the eight class strings are pairwise distinct |
| `WeatherGradient.GradientIdentifiesBucket` | src/modules/weather/utils/getWeatherGradient.ts:8-60 | every input gives one of the eight classes; the default iff an input is missing or the code is unclassified; the sunny class iff code 0 by day |
| `WeatherGradient.ProviderCodesFallThrough` | src/modules/weather/utils/getWeatherGradient.ts:59 | 1003, −1, 4 and 100 give the default |
| `RecentSearchesStore.WithoutName` | src/store/recent-searches.store.ts:28-30 | no survivor has the name; nothing is removed when no entry has it |
| `RecentSearchesStore.WithoutNameMembers` | src/store/recent-searches.store.ts:28-30 | the survivors are exactly the entries of other cities |
| `RecentSearchesStore.WithoutNameDistinct` | src/store/recent-searches.store.ts:28-30 | filtering keeps names distinct |
| `RecentSearchesStore.WithoutNameConcat` | src/store/recent-searches.store.ts:28-30 | filtering distributes over concatenation, so survivors keep their order |
| `RecentSearchesStore.AddSearch` | src/store/recent-searches.store.ts:25-39 | between 1 and 3 entries; the new one first and the only one with its name; distinct names preserved; the rest is a prefix of the older survivors in order, all of them when under the bound; the mode fields unchanged |
| `RecentSearchesStore.AddSearchIdempotent` | src/store/recent-searches.store.ts:25-39 | adding the same snapshot twice equals adding it once |
| `RecentSearchesStore.ClearSearches` | src/store/recent-searches.store.ts:40 | the list is empty and the mode fields are unchanged |
| `RecentSearchesStore.ClearSearchesIdempotent` | src/store/recent-searches.store.ts:40 | clearing twice equals clearing once |
| `RecentSearchesStore.SetSelectedCity` | src/store/recent-searches.store.ts:41-42 | the city is set, location mode is on iff the city is null, and the list is unchanged |
| `RecentSearchesStore.SetUseCurrentLocation` | src/store/recent-searches.store.ts:43-47 | the flag is set; turning it on clears the city; turning it off keeps it; the list is unchanged |
| `RecentSearchesStore.ApplyPreservesValid` | src/store/recent-searches.store.ts:25-47 | every action preserves: location mode ⇒ no city, at most 3 entries, distinct names |
| `RecentSearchesStore.RunPreservesValid` | src/store/recent-searches.store.ts:25-47 | any sequence of actions preserves the invariant |
| `RecentSearchesStore.ReachableStatesValid` | src/store/recent-searches.store.ts:22-24 | every state reachable from the initial one satisfies the invariant |
| `RecentSearchesStore.InitialValid` | src/store/recent-searches.store.ts:22-24 | a fresh store has no searches, no city and location mode on, and satisfies the invariant |
| `RecentSearchesStore.NeitherModeReachable` | src/store/recent-searches.store.ts:43-47 | the converse fails: turning location mode off with no city leaves neither mode |
| `RecentSearchesExamples.RepeatedCityMovesToFront` | src/store/recent-searches.store.ts:28-33 | London, Paris, London gives the new London then Paris |
| `RecentSearchesExamples.OldestDropsOut` | src/store/recent-searches.store.ts:33-36 | four distinct cities keep the newest three, newest first |
| `LocationStore.SetCoords` | src/store/location.store.ts:20 | sets the coordinates and nothing else |
| `LocationStore.SetLoading` | src/store/location.store.ts:21 | sets the loading flag and nothing else |
| `LocationStore.SetError` | src/store/location.store.ts:22 | sets the error and nothing else |
| `LocationStore.ClearLocation` | src/store/location.store.ts:23 | clears coordinates and error and keeps the loading flag |
| `LocationStore.InitialLocationEmpty` | src/store/location.store.ts:17-19 | a fresh store has no position, no lookup and no error, persists no coordinates, and clearing it changes nothing |
| `LocationStore.Partialize` | src/store/location.store.ts:27 | the persisted projection is the coordinates |
| `LocationStore.TransientFieldsNotPersisted` | src/store/location.store.ts:27 | the loading flag and error never change what is persisted; after clearing, the projection is that of a fresh store |
| `ComboBox.SelectedKey` | src/components/ui/ComboBox.tsx:55 | a key iff the value is present with a truthy id, and then it is `String(id)` |
| `ComboBox.FirstWithKey` | src/components/ui/ComboBox.tsx:61-62 | the position found is the first option whose `String(id)` is the key; none iff no option has it |
| `ComboBox.OnSelectionChange` | src/components/ui/ComboBox.tsx:56-64 | a falsy key reports null; otherwise the first option with that key, or null only when no option has it |
| `ComboBox.PickRoundTrip` | src/components/ui/ComboBox.tsx:56-64 | with distinct non-empty keys, picking an item's key reports that item |
| `ComboBox.IsInvalid` | src/components/ui/ComboBox.tsx:67 | invalid exactly for a present, non-empty error message |
| `CitySearch.Describe` | src/modules/weather/components/CitySearch.tsx:48 | the description is the country, followed by `", "` and the region exactly when the region is non-empty |
| `CitySearch.DescribeRoundTrip` | src/modules/weather/components/CitySearch.tsx:48 | with a comma-free country, the text after the first comma is `" "` followed by the region, and there is no comma without a region |
| `CitySearch.ComboBoxOptions` | src/modules/weather/components/CitySearch.tsx:44-54 | one option per result in order, label = name, id, country, region and coordinates copied, description from `Describe` |
| `CitySearch.CityOfOption` | src/modules/weather/components/CitySearch.tsx:58-66 | name = label; region, country, lat and lon copied; url empty; a numeric id kept, a string id through `Number(...)` |
| `CitySearch.HandleSelectionChange` | src/modules/weather/components/CitySearch.tsx:56-69 | a picked option selects its city and resets the text to `""`; null changes nothing |
| `CitySearch.OnInputChange` | src/modules/weather/components/CitySearch.tsx:75 | typing sets the search text and leaves the store alone |
| `CitySearch.PickingAResultSelectsIt` | src/modules/weather/components/CitySearch.tsx:56-69 | picking a result's entry selects that city less its url, leaves location mode, clears the text and points the query at its coordinates |
| `RecentSearchesView.Render` | src/modules/weather/components/RecentSearches.tsx:13-56 | nothing for an empty list; otherwise one card per snapshot, in list order, keyed by its id and showing its icon (or `""`), description as alt text, name and temperature |
| `RecentSearchesView.CityOfSnapshot` | src/modules/weather/components/RecentSearches.tsx:24-32 | id 0, empty region and url, the snapshot's name, country and coordinates |
| `RecentSearchesView.ClickCard` | src/modules/weather/components/RecentSearches.tsx:23-33 | selects the snapshot's city, leaves location mode and keeps the list |
| `RecentSearchesView.ClickClear` | src/modules/weather/components/RecentSearches.tsx:68 | the list empties, so the panel renders nothing |
| `RecentSearchesView.ClickingCardQueriesItsCoordinates` | src/modules/weather/components/RecentSearches.tsx:23-33 | after a card click the next query is that snapshot's coordinates and reads back as them |
| `WeatherDisplay.DisplayQuery` | src/modules/weather/components/WeatherDisplay/WeatherDisplay.tsx:25 | `buildWeatherQuery(selectedCity, coords)`: the selected city's coordinates; with no city the position's, whether or not location mode is on; `""` with neither |
| `WeatherDisplay.Settled` | src/modules/weather/components/WeatherDisplay/WeatherDisplay.tsx:27-31 | data iff the fetch succeeded; an error message iff it failed; a disabled query reports neither |
| `WeatherDisplay.ErrorViewShowsClientMessage` | src/modules/weather/components/WeatherDisplay/WeatherDisplay.tsx:46-50 | when the shown message is the thrown error's own, a failed fetch shows the client's wording of that failure |
| `WeatherDisplay.MissingKeyShown` | src/modules/weather/components/WeatherDisplay/WeatherDisplay.tsx:46-50 | a missing API key shows "NEXT_PUBLIC_WEATHER_API_KEY is not set in environment variables" |
| `WeatherDisplay.GradientOf` | src/modules/weather/components/WeatherDisplay/WeatherDisplay.tsx:33 | the default without weather, otherwise the gradient of the snapshot's code and day flag |
| `WeatherDisplay.RecordOnSuccess` | src/modules/weather/components/WeatherDisplay/WeatherDisplay.tsx:35-39 | a snapshot is added only when present and a city is selected; the store invariant is preserved |
| `WeatherDisplay.SelectView` | src/modules/weather/components/WeatherDisplay/WeatherDisplay.tsx:41-56 | loading first, then the error with its message, then empty for no snapshot or an empty id, then the data |
| `WeatherDisplay.NoSourceShowsEmpty` | src/modules/weather/components/WeatherDisplay/WeatherDisplay.tsx:25-54 | with neither city nor position nothing is fetched and the empty view shows |
| `WeatherDisplay.PositionFetchesNotRecorded` | src/modules/weather/components/WeatherDisplay/WeatherDisplay.tsx:35-39 | fetches driven by the position alone never change the recent list |
| `WeatherDisplay.CityFetchRecorded` | src/modules/weather/components/WeatherDisplay/WeatherDisplay.tsx:35-39 | a successful fetch for a selected city puts its snapshot first |

## Left out

- Trim: its own contract states only that the ends are not white space; that it keeps a contiguous stretch of the input with blank text around it is the lemma `TrimIsStretch`, because that existential is far cheaper for the solver as a separate lemma.
- Network, environment and clock: `fetch`, `response.json()`, `process.env` and `Date.now()` are inputs. The model does not claim that snapshot ids are stable or unique.
- Number formatting, `encodeURIComponent` and `Number(...)` are parameters. IEEE rounding, and `Math.round` in the views, are not modelled.
- The message texts of the `TypeError` for a `null` body and of zod's `ZodError` come from the runtime and the library. They are not modelled (`ErrorMessage` returns `None` for them).
- WeatherModels.ParseCurrent: the `Current` record carries only the eight members that the transform reads. The others are validated but not kept.
- The snapshot schema (`weatherDataSchema`) and the form resolvers are only described by their member list (`WeatherDataSchemaMembers`). Validating a snapshot against that schema is not modelled.
- `MAX_RECENT_SEARCHES` lives in a file that is not part of this model. It is fixed at 3, the value the store's tests rely on.
- React-query caching, staleness, retries and request deduplication are not modelled. `Settled` describes the result after the query settles. A disabled query runs nothing.
- zustand `persist` and local storage are not modelled. Only the `partialize` projection of the position store is.
- `useDebounce` is left out: it is timer- and effect-based and its source is not part of this model. The searched text is an input.
- Geolocation (`useLocation`, `LocationButton`) is left out: those are browser permission and position callbacks.
- Dafny characters are Unicode scalar values, so JavaScript strings holding a lone surrogate cannot be represented. `length`, `trim` and `encodeURIComponent` are modelled only on well-formed text.
- Markup, styling, translations and the presentational components are not modelled. This includes the `Handle*State` wrappers beyond the precedence they encode, and the legacy types in `src/types/weather.ts`.
