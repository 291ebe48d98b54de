/** The recent-searches panel (src/modules/weather/components/RecentSearches.tsx):
    one card per stored snapshot, a click on a card selects that place, and
    the clear button empties the list. Only what a card shows and what its
    click does are modelled, not the markup. */
module RecentSearchesView {
  import opened Wrappers
  import opened WeatherModels
  import opened RecentSearchesStore
  import opened QueryBuilder

  /** What one card shows: the snapshot's icon (or `""`), its description as
      alternative text, the city name and the temperature; it is keyed by
      the snapshot id. Rounding of the temperature is not modelled. */
  datatype Card = Card(key: string, iconSrc: string, alt: string, name: string, temperature: real)

  function CardOf(w: WeatherData): Card {
    Card(w.id, if w.iconUrl.Some? then w.iconUrl.value else "", w.description, w.name, w.temperature)
  }

  /** The panel: nothing for an empty list, else one card per snapshot in
      list order. */
  function Render(searches: seq<WeatherData>): (r: Option<seq<Card>>)
    ensures r.None? <==> searches == []
    ensures r.Some? ==> |r.value| == |searches|
    ensures r.Some? ==> forall i | 0 <= i < |searches| ::
      r.value[i].key == searches[i].id && r.value[i].name == searches[i].name
      && r.value[i].temperature == searches[i].temperature
    ensures r.Some? ==> forall i | 0 <= i < |searches| ::
      && (searches[i].iconUrl.Some? ==> r.value[i].iconSrc == searches[i].iconUrl.value)
      && (searches[i].iconUrl.None? ==> r.value[i].iconSrc == "")
      && r.value[i].alt == searches[i].description
  {
    if |searches| == 0 then None
    else Some(seq(|searches|, i requires 0 <= i < |searches| => CardOf(searches[i])))
  }

  /** The city a card selects: the snapshot's name, country and coordinates,
      with id `0` and no region or url. */
  function CityOfSnapshot(w: WeatherData): (c: City)
    ensures c.id == 0.0 && c.region == "" && c.url == ""
    ensures c.name == w.name && c.country == w.country
    ensures Coord(c.lat, c.lon) == w.coord
  {
    City(0.0, w.name, "", w.country, w.coord.lat, w.coord.lon, "")
  }

  /** A click on the card of `w`. */
  function ClickCard(st: State, w: WeatherData): (r: State)
    ensures r.selectedCity == Some(CityOfSnapshot(w)) && !r.useCurrentLocation
    ensures r.searches == st.searches
  {
    SetSelectedCity(st, Some(CityOfSnapshot(w)))
  }

  /** A click on the clear button. */
  function ClickClear(st: State): (r: State)
    ensures r.searches == [] && Render(r.searches).None?
    ensures r.selectedCity == st.selectedCity && r.useCurrentLocation == st.useCurrentLocation
  {
    ClearSearches(st)
  }

  /** After a click on a card the weather query is that snapshot's
      coordinates, whatever the device position, and reading the query back
      gives them. */
  lemma ClickingCardQueriesItsCoordinates(st: State, w: WeatherData, coords: Option<Coord>, show: real -> string)
    requires WellFormedShow(show)
    ensures var r := ClickCard(st, w);
      && ChosenCoord(r.selectedCity, coords) == Some(w.coord)
      && BuildWeatherQuery(r.selectedCity, coords, show) == CoordQuery(w.coord.lat, w.coord.lon, show)
      && SplitAtFirstComma(BuildWeatherQuery(r.selectedCity, coords, show)) == Some((show(w.coord.lat), show(w.coord.lon)))
  {
    QueryRoundTrip(ClickCard(st, w).selectedCity, coords, show);
  }
}
