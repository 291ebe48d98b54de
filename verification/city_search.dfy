/** The city picker (src/modules/weather/components/CitySearch.tsx): search
    results become combo-box options, and picking one selects that city in
    the store and clears the search text. The debounce between typing and
    searching is not modelled: the searched text is an input. */
module CitySearch {
  import opened Wrappers
  import opened WeatherModels
  import opened RecentSearchesStore
  import opened QueryBuilder
  import opened ComboBox

  /** One entry of the picker. */
  datatype CityOption = CityOption(
    id: Id, labelText: string, description: Option<string>,
    country: string, region: string, lat: real, lon: real)

  /** The second line of an entry: the country, then the region when there
      is one. */
  function Describe(city: City): (d: string)
    ensures |d| >= |city.country| && d[..|city.country|] == city.country
    ensures city.region == "" <==> d == city.country
    ensures city.region != "" ==> d[|city.country|..] == ", " + city.region
  {
    city.country + (if city.region != "" then ", " + city.region else "")
  }

  /** Reading a description back: when the country has no comma, the text
      after the first comma is the region with its separating space. */
  lemma DescribeRoundTrip(city: City)
    requires ',' !in city.country
    ensures city.region == "" ==> SplitAtFirstComma(Describe(city)).None?
    ensures city.region != "" ==> SplitAtFirstComma(Describe(city)) == Some((city.country, " " + city.region))
  {
    if city.region != "" {
      assert Describe(city) == city.country + "," + (" " + city.region);
      SplitJoin(city.country, " " + city.region);
    }
  }

  /** The option built for one search result. */
  function OptionOf(city: City): CityOption {
    CityOption(NumId(city.id), city.name, Some(Describe(city)), city.country, city.region, city.lat, city.lon)
  }

  /** `comboBoxOptions`: one option per result, in the same order. */
  function ComboBoxOptions(results: seq<City>): (opts: seq<CityOption>)
    ensures |opts| == |results|
    ensures forall i | 0 <= i < |results| ::
      && opts[i].id == NumId(results[i].id) && opts[i].labelText == results[i].name
      && opts[i].country == results[i].country && opts[i].region == results[i].region
      && opts[i].lat == results[i].lat && opts[i].lon == results[i].lon
      && opts[i].description == Some(Describe(results[i]))
  {
    seq(|results|, i requires 0 <= i < |results| => OptionOf(results[i]))
  }

  /** The id the store receives: a numeric id as is, a string id through
      `Number(...)`, whose parsing is the parameter `toNumber`. */
  function CityId(id: Id, toNumber: string -> real): real {
    match id
    case NumId(n) => n
    case StrId(s) => toNumber(s)
  }

  /** The city an option stands for; the option carries no url. */
  function CityOfOption(item: CityOption, toNumber: string -> real): (c: City)
    ensures c.name == item.labelText && c.region == item.region && c.country == item.country
    ensures c.lat == item.lat && c.lon == item.lon && c.url == ""
    ensures item.id.NumId? ==> c.id == item.id.n
    ensures item.id.StrId? ==> c.id == toNumber(item.id.s)
  {
    City(CityId(item.id, toNumber), item.labelText, item.region, item.country, item.lat, item.lon, "")
  }

  /** The state the picker owns besides the store: the text in the box. */
  datatype Picker = Picker(store: State, searchQuery: string)

  /** `handleSelectionChange(item)`: a picked option selects its city and
      empties the box; `null` changes nothing. */
  function HandleSelectionChange(p: Picker, item: Option<CityOption>, toNumber: string -> real): (r: Picker)
    ensures item.None? ==> r == p
    ensures item.Some? ==> r.store == SetSelectedCity(p.store, Some(CityOfOption(item.value, toNumber)))
    ensures item.Some? ==> r.searchQuery == ""
  {
    if item.Some? then
      Picker(SetSelectedCity(p.store, Some(CityOfOption(item.value, toNumber))), "")
    else
      p
  }

  /** `onInputChange={setSearchQuery}`. */
  function OnInputChange(p: Picker, text: string): (r: Picker)
    ensures r.searchQuery == text && r.store == p.store
  {
    p.(searchQuery := text)
  }

  /** Picking the entry for a search result, when results print to distinct
      non-empty keys, selects that very city (less its url), leaves location
      mode and points the weather query at its coordinates. */
  lemma PickingAResultSelectsIt(
    p: Picker, results: seq<City>, i: nat, show: real -> string,
    toNumber: string -> real, coords: Option<Coord>)
    requires i < |results|
    requires forall j, k | 0 <= j < k < |results| :: show(results[j].id) != show(results[k].id)
    requires show(results[i].id) != ""
    ensures var opts := ComboBoxOptions(results);
      var picked := OnSelectionChange(opts, (o: CityOption) => o.id, Some(StrId(show(results[i].id))), show);
      var r := HandleSelectionChange(p, picked, toNumber);
      && r.store.selectedCity == Some(results[i].(url := ""))
      && !r.store.useCurrentLocation
      && r.searchQuery == ""
      && BuildWeatherQuery(r.store.selectedCity, coords, show) == CoordQuery(results[i].lat, results[i].lon, show)
  {
    var opts := ComboBoxOptions(results);
    var idOf := (o: CityOption) => o.id;
    assert KeysDistinct(opts, idOf, show) by {
      forall j, k | 0 <= j < k < |opts|
        ensures KeyString(idOf(opts[j]), show) != KeyString(idOf(opts[k]), show)
      {
        assert KeyString(idOf(opts[j]), show) == show(results[j].id);
        assert KeyString(idOf(opts[k]), show) == show(results[k].id);
      }
    }
    assert KeyString(idOf(opts[i]), show) == show(results[i].id);
    PickRoundTrip(opts, idOf, show, i);
  }
}
