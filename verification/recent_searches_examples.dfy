/** Worked scenarios for the recent-searches store, mirroring the cases
    its test suite walks through (__tests__/unit/stores/recent-searches.store.test.ts):
    a city searched again moves to the front, and a fourth city pushes the
    oldest one out. */
module RecentSearchesExamples {
  import opened Wrappers
  import opened WeatherModels
  import opened RecentSearchesStore

  /** A snapshot that differs between the scenarios below only by city name
      and temperature. */
  function Sample(name: string, temperature: real): (w: WeatherData)
    ensures w.name == name && w.temperature == temperature
  {
    WeatherData(name + "-0", name, "UK", Coord(51.5074, -0.1278), Some("https://example.com/icon.png"),
                temperature, 14.0, 10.0, 20.0, 65.0, 5.0, 180.0, 1003.0, true, "Partly cloudy",
                "2024-01-01 12:00")
  }

  /** London, Paris, then London again: the fresh London snapshot moves to
      the front and Paris stays. */
  lemma RepeatedCityMovesToFront()
    ensures var st := Run(Initial, [AddSearchAction(Sample("London", 15.0)),
                                    AddSearchAction(Sample("Paris", 15.0)),
                                    AddSearchAction(Sample("London", 20.0))]);
      st.searches == [Sample("London", 20.0), Sample("Paris", 15.0)]
  {
    var s1 := AddSearch(Initial, Sample("London", 15.0));
    var s2 := AddSearch(s1, Sample("Paris", 15.0));
    assert s2.searches == [Sample("Paris", 15.0), Sample("London", 15.0)];
    var s3 := AddSearch(s2, Sample("London", 20.0));
    assert WithoutName(s2.searches, "London") == [Sample("Paris", 15.0)];
  }

  /** Four different cities: the oldest drops out. */
  lemma OldestDropsOut()
    ensures var st := Run(Initial, [AddSearchAction(Sample("London", 15.0)),
                                    AddSearchAction(Sample("Paris", 15.0)),
                                    AddSearchAction(Sample("Tokyo", 15.0)),
                                    AddSearchAction(Sample("New York", 15.0))]);
      st.searches == [Sample("New York", 15.0), Sample("Tokyo", 15.0), Sample("Paris", 15.0)]
  {
    var s1 := AddSearch(Initial, Sample("London", 15.0));
    var s2 := AddSearch(s1, Sample("Paris", 15.0));
    assert s2.searches == [Sample("Paris", 15.0), Sample("London", 15.0)];
    var s3 := AddSearch(s2, Sample("Tokyo", 15.0));
    assert s3.searches == [Sample("Tokyo", 15.0), Sample("Paris", 15.0), Sample("London", 15.0)];
  }
}
