/** `getWeatherGradient` (src/modules/weather/utils/getWeatherGradient.ts):
    the background classes of the weather card, chosen from the weather code
    and the day flag. The buckets follow the ranges of WMO code table 4677
    as the function's comment describes them. Codes are compared as numbers
    with `===`, `>=` and `<=`, so they are modelled as reals: a fractional
    code between two bounds lands in that bucket, exactly as in JavaScript. */
module WeatherGradient {
  import opened Wrappers

  // Each class string is written as its light-theme classes followed by
  // their dark-mode variants.
  const DefaultGradient: string :=
    "from-gray-200 via-gray-100 to-white" + " dark:from-gray-800 dark:via-gray-700 dark:to-gray-600"
  const ClearDayGradient: string :=
    "from-yellow-400 via-orange-300 to-amber-200" + " dark:from-amber-900 dark:via-orange-800 dark:to-yellow-900"
  const ClearNightGradient: string :=
    "from-blue-900 via-blue-800 to-indigo-900" + " dark:from-indigo-950 dark:via-blue-950 dark:to-slate-950"
  const CloudyGradient: string :=
    "from-gray-400 via-gray-300 to-gray-200" + " dark:from-gray-700 dark:via-gray-600 dark:to-gray-500"
  const RainGradient: string :=
    "from-blue-500 via-blue-400 to-blue-300" + " dark:from-blue-900 dark:via-blue-800 dark:to-blue-700"
  const SnowGradient: string :=
    "from-blue-200 via-blue-100 to-white" + " dark:from-slate-700 dark:via-slate-600 dark:to-slate-500"
  const ThunderstormGradient: string :=
    "from-gray-600 via-gray-500 to-gray-400" + " dark:from-gray-800 dark:via-gray-700 dark:to-gray-600"
  const FogGradient: string :=
    "from-gray-300 via-gray-200 to-gray-100" + " dark:from-gray-700 dark:via-gray-600 dark:to-gray-500"

  // The buckets, each stated on its own.
  predicate IsClear(code: real) { code == 0.0 }
  predicate IsCloudy(code: real) { 1.0 <= code <= 3.0 }
  predicate IsRain(code: real) { 51.0 <= code <= 67.0 || 80.0 <= code <= 82.0 }
  predicate IsSnow(code: real) { 71.0 <= code <= 77.0 || 85.0 <= code <= 86.0 }
  predicate IsThunderstorm(code: real) { 95.0 <= code <= 99.0 }
  predicate IsFog(code: real) { code == 45.0 || code == 48.0 }

  /** A code in none of the buckets. */
  predicate IsUnclassified(code: real) {
    !IsClear(code) && !IsCloudy(code) && !IsRain(code) && !IsSnow(code)
    && !IsThunderstorm(code) && !IsFog(code)
  }

  /** `getWeatherGradient(weatherCode, isDay)`; `None` stands for both
      `undefined` and `null`. The result is characterised bucket by bucket,
      independently of the order in which the code tests them. */
  function GetWeatherGradient(weatherCode: Option<real>, isDay: Option<bool>): (g: string)
    ensures weatherCode.None? || isDay.None? ==> g == DefaultGradient
    ensures weatherCode.Some? && isDay.Some? ==>
      var c := weatherCode.value;
      && (IsClear(c) ==> g == (if isDay.value then ClearDayGradient else ClearNightGradient))
      && (IsCloudy(c) ==> g == CloudyGradient)
      && (IsRain(c) ==> g == RainGradient)
      && (IsSnow(c) ==> g == SnowGradient)
      && (IsThunderstorm(c) ==> g == ThunderstormGradient)
      && (IsFog(c) ==> g == FogGradient)
      && (IsUnclassified(c) ==> g == DefaultGradient)
  {
    if weatherCode.None? || isDay.None? then
      DefaultGradient
    else
      var code := weatherCode.value;
      if code == 0.0 then
        if isDay.value then ClearDayGradient else ClearNightGradient
      else if code >= 1.0 && code <= 3.0 then
        CloudyGradient
      else if (code >= 51.0 && code <= 67.0) || (code >= 80.0 && code <= 82.0) then
        RainGradient
      else if (code >= 71.0 && code <= 77.0) || (code >= 85.0 && code <= 86.0) then
        SnowGradient
      else if code >= 95.0 && code <= 99.0 then
        ThunderstormGradient
      else if code == 45.0 || code == 48.0 then
        FogGradient
      else
        DefaultGradient
  }

  /** No code lies in two buckets, which is why the order of the tests does
      not matter. */
  lemma BucketsDisjoint(c: real)
    ensures IsClear(c) ==> !IsCloudy(c) && !IsRain(c) && !IsSnow(c) && !IsThunderstorm(c) && !IsFog(c)
    ensures IsCloudy(c) ==> !IsRain(c) && !IsSnow(c) && !IsThunderstorm(c) && !IsFog(c)
    ensures IsRain(c) ==> !IsSnow(c) && !IsThunderstorm(c) && !IsFog(c)
    ensures IsSnow(c) ==> !IsThunderstorm(c) && !IsFog(c)
    ensures IsThunderstorm(c) ==> !IsFog(c)
  {
  }

  /** The day flag matters only for a clear sky. */
  lemma DayFlagOnlyMattersWhenClear(c: real, d1: bool, d2: bool)
    requires c != 0.0
    ensures GetWeatherGradient(Some(c), Some(d1)) == GetWeatherGradient(Some(c), Some(d2))
  {
  }

  /** The characters at offsets 5 and 10 (`from-y…`, `from-b…`, `from-g…`,
      then the first shade digit) tell the eight class strings apart. */
  lemma GradientSignatures()
    ensures DefaultGradient[5] == 'g' && DefaultGradient[10] == '2'
    ensures ClearDayGradient[5] == 'y'
    ensures ClearNightGradient[5] == 'b' && ClearNightGradient[10] == '9'
    ensures CloudyGradient[5] == 'g' && CloudyGradient[10] == '4'
    ensures RainGradient[5] == 'b' && RainGradient[10] == '5'
    ensures SnowGradient[5] == 'b' && SnowGradient[10] == '2'
    ensures ThunderstormGradient[5] == 'g' && ThunderstormGradient[10] == '6'
    ensures FogGradient[5] == 'g' && FogGradient[10] == '3'
  {
  }

  /** The eight class strings are pairwise distinct. */
  lemma GradientsDistinct()
    ensures |{DefaultGradient, ClearDayGradient, ClearNightGradient, CloudyGradient,
              RainGradient, SnowGradient, ThunderstormGradient, FogGradient}| == 8
  {
    GradientSignatures();
  }

  /** Every input yields one of the eight classes, and which one identifies
      the bucket: the default comes back only for a missing input or an
      unclassified code. */
  lemma GradientIdentifiesBucket(weatherCode: Option<real>, isDay: Option<bool>)
    ensures GetWeatherGradient(weatherCode, isDay) in
      {DefaultGradient, ClearDayGradient, ClearNightGradient, CloudyGradient,
       RainGradient, SnowGradient, ThunderstormGradient, FogGradient}
    ensures GetWeatherGradient(weatherCode, isDay) == DefaultGradient <==>
      weatherCode.None? || isDay.None? || IsUnclassified(weatherCode.value)
    ensures GetWeatherGradient(weatherCode, isDay) == ClearDayGradient <==>
      weatherCode == Some(0.0) && isDay == Some(true)
  {
    GradientsDistinct();
  }

  /** Codes outside the WMO ranges fall to the default, among them the
      provider's own condition codes such as 1003 ("Partly cloudy"),
      negative codes and the gaps between buckets. */
  lemma ProviderCodesFallThrough(d: bool)
    ensures GetWeatherGradient(Some(1003.0), Some(d)) == DefaultGradient
    ensures GetWeatherGradient(Some(-1.0), Some(d)) == DefaultGradient
    ensures GetWeatherGradient(Some(4.0), Some(d)) == DefaultGradient
    ensures GetWeatherGradient(Some(100.0), Some(d)) == DefaultGradient
  {
  }
}
