/** `buildWeatherQuery` (src/modules/weather/utils/buildWeatherQuery.ts):
    the single query string the weather view fetches, `"lat,lon"` of the
    selected city, else of the device position, else empty. How JavaScript
    prints a number is the parameter `show`. */
module QueryBuilder {
  import opened Wrappers
  import opened WeatherModels

  /** What the query relies on from number formatting: a number never prints
      as the empty string and never contains a comma. */
  ghost predicate WellFormedShow(show: real -> string) {
    forall x :: show(x) != "" && ',' !in show(x)
  }

  /** The template literal `${lat},${lon}`. */
  function CoordQuery(lat: real, lon: real, show: real -> string): string {
    show(lat) + "," + show(lon)
  }

  /** The coordinates the query is built from: the selected city's, else the
      device position. */
  function ChosenCoord(selectedCity: Option<City>, coords: Option<Coord>): Option<Coord> {
    if selectedCity.Some? then Some(Coord(selectedCity.value.lat, selectedCity.value.lon))
    else coords
  }

  /** `buildWeatherQuery(selectedCity, coords)`. Both arguments are objects
      or `null`, so the truthiness tests are presence tests. */
  function BuildWeatherQuery(selectedCity: Option<City>, coords: Option<Coord>, show: real -> string): (q: string)
    ensures selectedCity.Some? ==> q == CoordQuery(selectedCity.value.lat, selectedCity.value.lon, show)
    ensures selectedCity.None? && coords.Some? ==> q == CoordQuery(coords.value.lat, coords.value.lon, show)
    ensures selectedCity.None? && coords.None? ==> q == ""
  {
    if selectedCity.Some? then
      CoordQuery(selectedCity.value.lat, selectedCity.value.lon, show)
    else if coords.Some? then
      CoordQuery(coords.value.lat, coords.value.lon, show)
    else
      ""
  }

  /** The query is empty exactly when there is neither a city nor a
      position. */
  lemma QueryEmptyIffNoSource(selectedCity: Option<City>, coords: Option<Coord>, show: real -> string)
    requires WellFormedShow(show)
    ensures BuildWeatherQuery(selectedCity, coords, show) == "" <==> selectedCity.None? && coords.None?
  {
    var c := ChosenCoord(selectedCity, coords);
    if c.Some? {
      assert show(c.value.lat) != "";
    }
  }

  /** Only the chosen source's latitude and longitude reach the query: two
      cities at the same place give the same query whatever their name, id,
      region or url, and the device position is then ignored. */
  lemma QueryDependsOnlyOnCoordinates(a: City, b: City, coordsA: Option<Coord>, coordsB: Option<Coord>, show: real -> string)
    requires a.lat == b.lat && a.lon == b.lon
    ensures BuildWeatherQuery(Some(a), coordsA, show) == BuildWeatherQuery(Some(b), coordsB, show)
  {
  }

  /** The position of the first `c` in `s`, or `|s|` if there is none. */
  function IndexOf(s: string, c: char): (i: nat)
    ensures i <= |s|
    ensures i < |s| ==> s[i] == c
    ensures forall j | 0 <= j < i :: s[j] != c
  {
    if |s| == 0 then 0
    else if s[0] == c then 0
    else 1 + IndexOf(s[1..], c)
  }

  /** Reading a query back: the text before and after its first comma. */
  function SplitAtFirstComma(q: string): (r: Option<(string, string)>)
    ensures r.None? <==> ',' !in q
    ensures r.Some? ==> ',' !in r.value.0 && q == r.value.0 + "," + r.value.1
  {
    var i := IndexOf(q, ',');
    if i == |q| then None
    else
      assert q == q[..i] + "," + q[i + 1..];
      Some((q[..i], q[i + 1..]))
  }

  /** Joining two texts with a comma and splitting at the first comma gives
      them back, provided the first has no comma of its own. */
  lemma SplitJoin(a: string, b: string)
    requires ',' !in a
    ensures SplitAtFirstComma(a + "," + b) == Some((a, b))
  {
    var q := a + "," + b;
    var r := SplitAtFirstComma(q);
    assert q[|a|] == ',';
    var i := |r.value.0|;
    assert i <= |a| by {
      assert forall j | 0 <= j < i :: q[j] != ',';
    }
    assert i >= |a| by {
      assert forall j | 0 <= j < |a| :: q[j] == a[j];
    }
    assert r.value.0 == q[..|a|] == a;
    assert r.value.1 == q[|a| + 1..] == b;
  }

  /** With well-formed number formatting a query can be read back: it holds
      the chosen latitude and longitude, in that order, and there is no
      query without a chosen position. */
  lemma QueryRoundTrip(selectedCity: Option<City>, coords: Option<Coord>, show: real -> string)
    requires WellFormedShow(show)
    ensures ChosenCoord(selectedCity, coords).None? ==>
      SplitAtFirstComma(BuildWeatherQuery(selectedCity, coords, show)).None?
    ensures ChosenCoord(selectedCity, coords).Some? ==>
      var c := ChosenCoord(selectedCity, coords).value;
      SplitAtFirstComma(BuildWeatherQuery(selectedCity, coords, show)) == Some((show(c.lat), show(c.lon)))
  {
    match ChosenCoord(selectedCity, coords)
    case None =>
    case Some(c) =>
      assert ',' !in show(c.lat);
      SplitJoin(show(c.lat), show(c.lon));
  }
}
