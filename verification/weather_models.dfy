/** The provider's response shapes as schemas, the typed records validation
    yields, and the app's own shapes: the weather snapshot, the city search
    result and the city form (src/data/weather/weather.models.ts). */
module WeatherModels {
  import opened Wrappers
  import opened Json

  /** A required object member (`key: schema`). */
  function Req(key: string, kind: Kind): Field {
    Field(key, kind, false)
  }

  /** An optional object member (`key: schema.optional()`). */
  function Opt(key: string, kind: Kind): Field {
    Field(key, kind, true)
  }

  // ---------------------------------------------------------------------------
  // Provider schemas

  const LocationSchema: Kind := KObject([
    Req("name", KString),
    Req("region", KString),
    Req("country", KString),
    Req("lat", KNumber),
    Req("lon", KNumber),
    Req("tz_id", KString),
    Req("localtime_epoch", KNumber),
    Req("localtime", KString)
  ])

  const ConditionSchema: Kind := KObject([
    Req("text", KString),
    Req("icon", KString),
    Req("code", KNumber)
  ])

  /** `weatherApiCurrentSchema`, its members in declaration order, listed in
      four groups so that each can be reasoned about on its own. */
  const CurrentSchema: Kind := KObject(CurrentFields1 + CurrentFields2 + CurrentFields3 + CurrentFields4)

  const CurrentFields1: seq<Field> := [
    Req("last_updated_epoch", KNumber),
    Req("last_updated", KString),
    Req("temp_c", KNumber),
    Req("temp_f", KNumber),
    Req("is_day", KNumber),
    Req("condition", ConditionSchema),
    Req("wind_mph", KNumber),
    Req("wind_kph", KNumber)
  ]

  const CurrentFields2: seq<Field> := [
    Req("wind_degree", KNumber),
    Req("wind_dir", KString),
    Req("pressure_mb", KNumber),
    Req("pressure_in", KNumber),
    Req("precip_mm", KNumber),
    Req("precip_in", KNumber),
    Req("humidity", KNumber),
    Req("cloud", KNumber)
  ]

  const CurrentFields3: seq<Field> := [
    Req("feelslike_c", KNumber),
    Req("feelslike_f", KNumber),
    Opt("windchill_c", KNumber),
    Opt("windchill_f", KNumber),
    Opt("heatindex_c", KNumber),
    Opt("heatindex_f", KNumber),
    Req("dewpoint_c", KNumber),
    Req("dewpoint_f", KNumber)
  ]

  const CurrentFields4: seq<Field> := [
    Req("vis_km", KNumber),
    Req("vis_miles", KNumber),
    Req("uv", KNumber),
    Opt("gust_mph", KNumber),
    Opt("gust_kph", KNumber),
    Opt("short_rad", KNumber),
    Opt("diff_rad", KNumber),
    Opt("dni", KNumber),
    Opt("gti", KNumber)
  ]

  const CurrentWeatherResponseSchema: Kind := KObject([
    Req("location", LocationSchema),
    Req("current", CurrentSchema)
  ])

  const CitySearchResultSchema: Kind := KObject([
    Req("id", KNumber),
    Req("name", KString),
    Req("region", KString),
    Req("country", KString),
    Req("lat", KNumber),
    Req("lon", KNumber),
    Req("url", KString)
  ])

  const CitySearchResponseSchema: Kind := KArray(CitySearchResultSchema)

  const WeatherApiErrorSchema: Kind := KObject([
    Req("error", KObject([
      Req("code", KNumber),
      Req("message", KString)
    ]))
  ])

  // ---------------------------------------------------------------------------
  // App schemas

  /** `weatherDataSchema`: the internal snapshot. */
  const WeatherDataSchema: Kind := KObject([
    Req("id", KString),
    Req("name", KString),
    Req("country", KString),
    Req("coord", KObject([Req("lat", KNumber), Req("lon", KNumber)])),
    Opt("iconUrl", KString),
    Req("temperature", KNumber),
    Req("feelsLike", KNumber),
    Req("tempMin", KNumber),
    Req("tempMax", KNumber),
    Req("humidity", KNumber),
    Req("windSpeed", KNumber),
    Req("windDirection", KNumber),
    Req("weatherCode", KNumber),
    Req("isDay", KBoolean),
    Req("description", KString),
    Req("timestamp", KString)
  ])

  /** `citySearchFormSchema`: `city` must be a string of length at least 1. */
  const CitySearchFormSchema: Kind := KObject([Req("city", KNonEmptyString)])

  // ---------------------------------------------------------------------------
  // Typed records

  datatype Location = Location(
    name: string, region: string, country: string, lat: real, lon: real,
    tzId: string, localtimeEpoch: real, localtime: string)

  datatype Condition = Condition(text: string, icon: string, code: real)

  /** The members of `current` that the app reads; the others are validated
      and then unused. */
  datatype Current = Current(
    lastUpdated: string, tempC: real, isDay: real, condition: Condition,
    windKph: real, windDegree: real, humidity: real, feelslikeC: real)

  datatype CurrentWeatherResponse = CurrentWeatherResponse(location: Location, current: Current)

  /** `CitySearchResult`: a candidate city, also the store's selected city. */
  datatype City = City(
    id: real, name: string, region: string, country: string,
    lat: real, lon: real, url: string)

  /** The `error` member of the provider's error envelope. */
  datatype ApiErrorBody = ApiErrorBody(code: real, message: string)

  datatype Coord = Coord(lat: real, lon: real)

  /** `WeatherData`: one fetched snapshot. Only `iconUrl` is optional. */
  datatype WeatherData = WeatherData(
    id: string, name: string, country: string, coord: Coord,
    iconUrl: Option<string>,
    temperature: real, feelsLike: real, tempMin: real, tempMax: real,
    humidity: real, windSpeed: real, windDirection: real, weatherCode: real,
    isDay: bool, description: string, timestamp: string)

  // ---------------------------------------------------------------------------
  // Shapes spelled out

  /** The value of a string property. */
  function Str(j: Json, key: string): string
    requires HasString(j, key)
  {
    j.props[key].s
  }

  /** The value of a number property. */
  function Num(j: Json, key: string): real
    requires HasNumber(j, key)
  {
    j.props[key].n
  }

  /** A location validates exactly when its five string members and three
      number members are present with those types. */
  lemma LocationShape(j: Json)
    ensures Matches(j, LocationSchema) <==>
      && HasString(j, "name") && HasString(j, "region") && HasString(j, "country")
      && HasNumber(j, "lat") && HasNumber(j, "lon")
      && HasString(j, "tz_id") && HasNumber(j, "localtime_epoch") && HasString(j, "localtime")
  {
    var fs := LocationSchema.fields;
    if Matches(j, LocationSchema) {
      assert FieldMatches(j.props, fs[0]) && FieldMatches(j.props, fs[1]) && FieldMatches(j.props, fs[2]);
      assert FieldMatches(j.props, fs[3]) && FieldMatches(j.props, fs[4]) && FieldMatches(j.props, fs[5]);
      assert FieldMatches(j.props, fs[6]) && FieldMatches(j.props, fs[7]);
    }
  }

  /** A condition validates exactly when `text` and `icon` are strings and
      `code` is a number. */
  lemma ConditionShape(j: Json)
    ensures Matches(j, ConditionSchema) <==>
      HasString(j, "text") && HasString(j, "icon") && HasNumber(j, "code")
  {
    var fs := ConditionSchema.fields;
    if Matches(j, ConditionSchema) {
      assert FieldMatches(j.props, fs[0]) && FieldMatches(j.props, fs[1]) && FieldMatches(j.props, fs[2]);
    }
  }

  /** A city search result validates exactly when `id`, `lat` and `lon` are
      numbers and `name`, `region`, `country` and `url` are strings. */
  lemma CityShape(j: Json)
    ensures Matches(j, CitySearchResultSchema) <==>
      && HasNumber(j, "id") && HasString(j, "name") && HasString(j, "region")
      && HasString(j, "country") && HasNumber(j, "lat") && HasNumber(j, "lon")
      && HasString(j, "url")
  {
    var fs := CitySearchResultSchema.fields;
    if Matches(j, CitySearchResultSchema) {
      assert FieldMatches(j.props, fs[0]) && FieldMatches(j.props, fs[1]) && FieldMatches(j.props, fs[2]);
      assert FieldMatches(j.props, fs[3]) && FieldMatches(j.props, fs[4]) && FieldMatches(j.props, fs[5]);
      assert FieldMatches(j.props, fs[6]);
    }
  }

  /** The error envelope validates exactly when `error.code` is a number and
      `error.message` is a string. */
  lemma ErrorEnvelopeShape(j: Json)
    ensures Matches(j, WeatherApiErrorSchema) <==>
      j.JObj? && "error" in j.props
      && HasNumber(j.props["error"], "code") && HasString(j.props["error"], "message")
  {
    var fs := WeatherApiErrorSchema.fields;
    if Matches(j, WeatherApiErrorSchema) {
      assert FieldMatches(j.props, fs[0]);
      var inner := fs[0].kind.fields;
      assert FieldMatches(j.props["error"].props, inner[0]) && FieldMatches(j.props["error"].props, inner[1]);
    }
  }

  /** The city form validates exactly when `city` is a non-empty string. */
  lemma CityFormShape(j: Json)
    ensures Matches(j, CitySearchFormSchema) <==> HasString(j, "city") && |j.props["city"].s| >= 1
  {
    if Matches(j, CitySearchFormSchema) {
      assert FieldMatches(j.props, CitySearchFormSchema.fields[0]);
    }
  }

  /** The members `weatherApiCurrentSchema` demands, spelled out group by
      group: twenty numbers, two strings and a valid `condition`, with
      `windchill_*`, `heatindex_*`, `gust_*`, `short_rad`, `diff_rad`, `dni`
      and `gti` allowed to be absent. */
  predicate CurrentGroup1(j: Json) {
    && HasNumber(j, "last_updated_epoch") && HasString(j, "last_updated")
    && HasNumber(j, "temp_c") && HasNumber(j, "temp_f") && HasNumber(j, "is_day")
    && "condition" in j.props && Matches(j.props["condition"], ConditionSchema)
    && HasNumber(j, "wind_mph") && HasNumber(j, "wind_kph")
  }

  predicate CurrentGroup2(j: Json) {
    && HasNumber(j, "wind_degree") && HasString(j, "wind_dir")
    && HasNumber(j, "pressure_mb") && HasNumber(j, "pressure_in")
    && HasNumber(j, "precip_mm") && HasNumber(j, "precip_in")
    && HasNumber(j, "humidity") && HasNumber(j, "cloud")
  }

  predicate CurrentGroup3(j: Json) {
    && HasNumber(j, "feelslike_c") && HasNumber(j, "feelslike_f")
    && HasOptionalNumber(j, "windchill_c") && HasOptionalNumber(j, "windchill_f")
    && HasOptionalNumber(j, "heatindex_c") && HasOptionalNumber(j, "heatindex_f")
    && HasNumber(j, "dewpoint_c") && HasNumber(j, "dewpoint_f")
  }

  predicate CurrentGroup4(j: Json) {
    && HasNumber(j, "vis_km") && HasNumber(j, "vis_miles") && HasNumber(j, "uv")
    && HasOptionalNumber(j, "gust_mph") && HasOptionalNumber(j, "gust_kph")
    && HasOptionalNumber(j, "short_rad") && HasOptionalNumber(j, "diff_rad")
    && HasOptionalNumber(j, "dni") && HasOptionalNumber(j, "gti")
  }

  lemma CurrentGroup1Shape(j: Json)
    requires j.JObj?
    ensures Matches(j, KObject(CurrentFields1)) <==> CurrentGroup1(j)
  {
    var fs := CurrentFields1;
    if Matches(j, KObject(fs)) {
      assert FieldMatches(j.props, fs[0]) && FieldMatches(j.props, fs[1]) && FieldMatches(j.props, fs[2]) && FieldMatches(j.props, fs[3]);
      assert FieldMatches(j.props, fs[4]) && FieldMatches(j.props, fs[5]) && FieldMatches(j.props, fs[6]) && FieldMatches(j.props, fs[7]);
    }
  }

  lemma CurrentGroup2Shape(j: Json)
    requires j.JObj?
    ensures Matches(j, KObject(CurrentFields2)) <==> CurrentGroup2(j)
  {
    var fs := CurrentFields2;
    if Matches(j, KObject(fs)) {
      assert FieldMatches(j.props, fs[0]) && FieldMatches(j.props, fs[1]) && FieldMatches(j.props, fs[2]) && FieldMatches(j.props, fs[3]);
      assert FieldMatches(j.props, fs[4]) && FieldMatches(j.props, fs[5]) && FieldMatches(j.props, fs[6]) && FieldMatches(j.props, fs[7]);
    }
  }

  lemma CurrentGroup3Shape(j: Json)
    requires j.JObj?
    ensures Matches(j, KObject(CurrentFields3)) <==> CurrentGroup3(j)
  {
    var fs := CurrentFields3;
    if Matches(j, KObject(fs)) {
      assert FieldMatches(j.props, fs[0]) && FieldMatches(j.props, fs[1]) && FieldMatches(j.props, fs[2]) && FieldMatches(j.props, fs[3]);
      assert FieldMatches(j.props, fs[4]) && FieldMatches(j.props, fs[5]) && FieldMatches(j.props, fs[6]) && FieldMatches(j.props, fs[7]);
    }
  }

  lemma CurrentGroup4Shape(j: Json)
    requires j.JObj?
    ensures Matches(j, KObject(CurrentFields4)) <==> CurrentGroup4(j)
  {
    var fs := CurrentFields4;
    if Matches(j, KObject(fs)) {
      assert FieldMatches(j.props, fs[0]) && FieldMatches(j.props, fs[1]) && FieldMatches(j.props, fs[2]) && FieldMatches(j.props, fs[3]);
      assert FieldMatches(j.props, fs[4]) && FieldMatches(j.props, fs[5]) && FieldMatches(j.props, fs[6]) && FieldMatches(j.props, fs[7]);
      assert FieldMatches(j.props, fs[8]);
    }
  }

  /** A valid `current` holds the members the app carries into `Current`. */
  lemma CurrentCarriedMembers(j: Json)
    requires Matches(j, CurrentSchema)
    ensures j.JObj? && HasString(j, "last_updated") && HasNumber(j, "temp_c")
    ensures HasNumber(j, "is_day") && HasNumber(j, "wind_kph") && HasNumber(j, "wind_degree")
    ensures HasNumber(j, "humidity") && HasNumber(j, "feelslike_c")
    ensures "condition" in j.props && Matches(j.props["condition"], ConditionSchema)
  {
    CurrentShape(j);
  }

  /** `current` validates exactly when it is an object holding all four
      groups of members. */
  lemma CurrentShape(j: Json)
    ensures Matches(j, CurrentSchema) <==>
      j.JObj? && CurrentGroup1(j) && CurrentGroup2(j) && CurrentGroup3(j) && CurrentGroup4(j)
  {
    ObjectConcat(j, CurrentFields1 + CurrentFields2 + CurrentFields3, CurrentFields4);
    ObjectConcat(j, CurrentFields1 + CurrentFields2, CurrentFields3);
    ObjectConcat(j, CurrentFields1, CurrentFields2);
    if j.JObj? {
      CurrentGroup1Shape(j);
      CurrentGroup2Shape(j);
      CurrentGroup3Shape(j);
      CurrentGroup4Shape(j);
    }
  }

  // ---------------------------------------------------------------------------
  // Validation into typed records (zod's `parse`, which also drops unknown keys)

  const LocationKeys: set<string> :=
    {"name", "region", "country", "lat", "lon", "tz_id", "localtime_epoch", "localtime"}

  function LocationToJson(l: Location): Json {
    JObj(map[
      "name" := JStr(l.name), "region" := JStr(l.region), "country" := JStr(l.country),
      "lat" := JNum(l.lat), "lon" := JNum(l.lon), "tz_id" := JStr(l.tzId),
      "localtime_epoch" := JNum(l.localtimeEpoch), "localtime" := JStr(l.localtime)])
  }

  /** `weatherApiLocationSchema.safeParse`: succeeds exactly on valid input
      and yields the input's values under the schema's keys. */
  function ParseLocation(j: Json): (r: Option<Location>)
    ensures r.Some? <==> Matches(j, LocationSchema)
    ensures r.Some? ==> AgreesOn(j, LocationToJson(r.value), LocationKeys)
  {
    if Matches(j, LocationSchema) then
      LocationShape(j);
      Some(Location(Str(j, "name"), Str(j, "region"), Str(j, "country"),
                    Num(j, "lat"), Num(j, "lon"), Str(j, "tz_id"),
                    Num(j, "localtime_epoch"), Str(j, "localtime")))
    else
      None
  }

  lemma LocationRoundTrip(l: Location)
    ensures ParseLocation(LocationToJson(l)) == Some(l)
  {
    LocationShape(LocationToJson(l));
  }

  const ConditionKeys: set<string> := {"text", "icon", "code"}

  function ConditionToJson(c: Condition): Json {
    JObj(map["text" := JStr(c.text), "icon" := JStr(c.icon), "code" := JNum(c.code)])
  }

  function ParseCondition(j: Json): (r: Option<Condition>)
    ensures r.Some? <==> Matches(j, ConditionSchema)
    ensures r.Some? ==> AgreesOn(j, ConditionToJson(r.value), ConditionKeys)
  {
    if Matches(j, ConditionSchema) then
      ConditionShape(j);
      Some(Condition(Str(j, "text"), Str(j, "icon"), Num(j, "code")))
    else
      None
  }

  lemma ConditionRoundTrip(c: Condition)
    ensures ParseCondition(ConditionToJson(c)) == Some(c)
  {
    ConditionShape(ConditionToJson(c));
  }

  /** The members of `current` the app carries forward. */
  const CurrentCarriedKeys: set<string> :=
    {"last_updated", "temp_c", "is_day", "wind_kph", "wind_degree", "humidity", "feelslike_c"}

  function CurrentCarriedJson(c: Current): Json {
    JObj(map[
      "last_updated" := JStr(c.lastUpdated), "temp_c" := JNum(c.tempC),
      "is_day" := JNum(c.isDay), "wind_kph" := JNum(c.windKph),
      "wind_degree" := JNum(c.windDegree), "humidity" := JNum(c.humidity),
      "feelslike_c" := JNum(c.feelslikeC)])
  }

  function ParseCurrent(j: Json): (r: Option<Current>)
    ensures r.Some? <==> Matches(j, CurrentSchema)
    ensures r.Some? ==>
      && AgreesOn(j, CurrentCarriedJson(r.value), CurrentCarriedKeys)
      && "condition" in j.props && ParseCondition(j.props["condition"]) == Some(r.value.condition)
  {
    if Matches(j, CurrentSchema) then
      CurrentCarriedMembers(j);
      var condition := ParseCondition(j.props["condition"]).value;
      Some(Current(Str(j, "last_updated"), Num(j, "temp_c"), Num(j, "is_day"), condition,
                   Num(j, "wind_kph"), Num(j, "wind_degree"), Num(j, "humidity"),
                   Num(j, "feelslike_c")))
    else
      None
  }

  /** `currentWeatherResponseSchema.safeParse`. */
  function ParseCurrentWeatherResponse(j: Json): (r: Option<CurrentWeatherResponse>)
    ensures r.Some? <==> Matches(j, CurrentWeatherResponseSchema)
    ensures r.Some? ==>
      && j.JObj? && "location" in j.props && "current" in j.props
      && ParseLocation(j.props["location"]) == Some(r.value.location)
      && ParseCurrent(j.props["current"]) == Some(r.value.current)
  {
    if Matches(j, CurrentWeatherResponseSchema) then
      assert FieldMatches(j.props, CurrentWeatherResponseSchema.fields[0]);
      assert FieldMatches(j.props, CurrentWeatherResponseSchema.fields[1]);
      Some(CurrentWeatherResponse(ParseLocation(j.props["location"]).value,
                                  ParseCurrent(j.props["current"]).value))
    else
      assert Matches(j, CurrentWeatherResponseSchema) <==>
        j.JObj? && "location" in j.props && "current" in j.props
        && Matches(j.props["location"], LocationSchema) && Matches(j.props["current"], CurrentSchema);
      None
  }

  const CityKeys: set<string> := {"id", "name", "region", "country", "lat", "lon", "url"}

  function CityToJson(c: City): Json {
    JObj(map[
      "id" := JNum(c.id), "name" := JStr(c.name), "region" := JStr(c.region),
      "country" := JStr(c.country), "lat" := JNum(c.lat), "lon" := JNum(c.lon),
      "url" := JStr(c.url)])
  }

  /** `citySearchResultSchema.safeParse`. */
  function ParseCity(j: Json): (r: Option<City>)
    ensures r.Some? <==> Matches(j, CitySearchResultSchema)
    ensures r.Some? ==> AgreesOn(j, CityToJson(r.value), CityKeys)
  {
    if Matches(j, CitySearchResultSchema) then
      CityShape(j);
      Some(City(Num(j, "id"), Str(j, "name"), Str(j, "region"), Str(j, "country"),
                Num(j, "lat"), Num(j, "lon"), Str(j, "url")))
    else
      None
  }

  lemma CityRoundTrip(c: City)
    ensures ParseCity(CityToJson(c)) == Some(c)
  {
    CityShape(CityToJson(c));
  }

  /** `citySearchResponseSchema.safeParse` on an array's items: succeeds
      exactly when every item is a valid city, and then yields one city per
      item, in order. */
  function ParseCities(items: seq<Json>): (r: Option<seq<City>>)
    ensures r.Some? <==> forall i | 0 <= i < |items| :: Matches(items[i], CitySearchResultSchema)
    ensures r.Some? ==> |r.value| == |items|
    ensures r.Some? ==> forall i | 0 <= i < |items| :: ParseCity(items[i]) == Some(r.value[i])
  {
    if forall i | 0 <= i < |items| :: ParseCity(items[i]).Some? then
      Some(seq(|items|, i requires 0 <= i < |items| => ParseCity(items[i]).value))
    else
      None
  }

  function CitiesToJson(cs: seq<City>): (r: Json)
    ensures r.JArr? && |r.items| == |cs|
    ensures forall i | 0 <= i < |cs| :: r.items[i] == CityToJson(cs[i])
  {
    JArr(seq(|cs|, i requires 0 <= i < |cs| => CityToJson(cs[i])))
  }

  /** Encoding a list of cities and validating it gives the list back. */
  lemma CitiesRoundTrip(cs: seq<City>)
    ensures Matches(CitiesToJson(cs), CitySearchResponseSchema)
    ensures ParseCities(CitiesToJson(cs).items) == Some(cs)
  {
    var items := CitiesToJson(cs).items;
    forall i | 0 <= i < |cs|
      ensures ParseCity(items[i]) == Some(cs[i])
    {
      CityRoundTrip(cs[i]);
    }
    var r := ParseCities(items);
    assert r.Some?;
    assert forall i | 0 <= i < |cs| :: r.value[i] == cs[i];
    assert r.value == cs;
  }

  function ErrorBodyToJson(e: ApiErrorBody): Json {
    JObj(map["code" := JNum(e.code), "message" := JStr(e.message)])
  }

  /** `weatherApiErrorSchema.safeParse`. */
  function ParseErrorEnvelope(j: Json): (r: Option<ApiErrorBody>)
    ensures r.Some? <==> Matches(j, WeatherApiErrorSchema)
    ensures r.Some? ==>
      j.JObj? && "error" in j.props
      && AgreesOn(j.props["error"], ErrorBodyToJson(r.value), {"code", "message"})
  {
    ErrorEnvelopeShape(j);
    if Matches(j, WeatherApiErrorSchema) then
      var e := j.props["error"];
      Some(ApiErrorBody(Num(e, "code"), Str(e, "message")))
    else
      None
  }

  /** In `weatherDataSchema` the only optional member is `iconUrl`, and
      `isDay` is a boolean. */
  lemma WeatherDataSchemaMembers()
    ensures forall i | 0 <= i < |WeatherDataSchema.fields| ::
      WeatherDataSchema.fields[i].optional <==> WeatherDataSchema.fields[i].key == "iconUrl"
    ensures WeatherDataSchema.fields[13] == Req("isDay", KBoolean)
  {
  }
}
