/** The recent-searches and selection store
    (src/store/recent-searches.store.ts): the last few weather snapshots,
    newest first and one per city name, together with the city the user
    picked and whether the device position is used instead. Each action is
    a function from state to state; persistence to local storage is not
    modelled. */
module RecentSearchesStore {
  import opened Wrappers
  import opened WeatherModels

  /** `MAX_RECENT_SEARCHES`. Its defining file is not part of this model;
      the store's tests fix it at three. */
  const MaxRecentSearches: nat := 3

  datatype State = State(
    searches: seq<WeatherData>,
    selectedCity: Option<City>,
    useCurrentLocation: bool)

  /** The state a fresh store starts in. */
  const Initial: State := State([], None, true)

  /** No two snapshots in `s` share a city name. */
  predicate NamesDistinct(s: seq<WeatherData>) {
    forall i, j | 0 <= i < j < |s| :: s[i].name != s[j].name
  }

  /** No snapshot in `s` is for the city called `name`. */
  predicate NoneNamed(s: seq<WeatherData>, name: string) {
    forall i | 0 <= i < |s| :: s[i].name != name
  }

  /** `searches.filter((search) => search.name !== name)`. */
  function WithoutName(s: seq<WeatherData>, name: string): (r: seq<WeatherData>)
    ensures |r| <= |s|
    ensures NoneNamed(r, name)
    ensures NoneNamed(s, name) ==> r == s
  {
    if |s| == 0 then []
    else if s[0].name == name then WithoutName(s[1..], name)
    else [s[0]] + WithoutName(s[1..], name)
  }

  /** The filter keeps exactly the snapshots of other cities. */
  lemma {:induction false} WithoutNameMembers(s: seq<WeatherData>, name: string)
    ensures forall w | w in WithoutName(s, name) :: w in s && w.name != name
    ensures forall w | w in s && w.name != name :: w in WithoutName(s, name)
  {
    if |s| > 0 {
      WithoutNameMembers(s[1..], name);
      assert s == [s[0]] + s[1..];
    }
  }

  /** Filtering keeps city names distinct. */
  lemma {:induction false} WithoutNameDistinct(s: seq<WeatherData>, name: string)
    requires NamesDistinct(s)
    ensures NamesDistinct(WithoutName(s, name))
  {
    if |s| > 0 {
      var rest := WithoutName(s[1..], name);
      WithoutNameDistinct(s[1..], name);
      if s[0].name != name {
        WithoutNameMembers(s[1..], name);
        forall w | w in rest
          ensures w.name != s[0].name
        {
          var k :| 0 <= k < |s[1..]| && s[1..][k] == w;
          assert s[k + 1] == w;
        }
        assert WithoutName(s, name) == [s[0]] + rest;
      }
    }
  }

  /** Filtering distributes over concatenation, so the survivors keep their
      relative order. */
  lemma {:induction false} WithoutNameConcat(a: seq<WeatherData>, b: seq<WeatherData>, name: string)
    ensures WithoutName(a + b, name) == WithoutName(a, name) + WithoutName(b, name)
  {
    if |a| == 0 {
      assert a + b == b;
    } else {
      assert (a + b)[0] == a[0] && (a + b)[1..] == a[1..] + b;
      WithoutNameConcat(a[1..], b, name);
    }
  }

  /** `addSearch(weatherData)`: drop any snapshot of the same city, put the
      new one first, and keep at most `MaxRecentSearches`. */
  function AddSearch(st: State, w: WeatherData): (r: State)
    ensures 1 <= |r.searches| <= MaxRecentSearches
    ensures |r.searches| - 1 <= |WithoutName(st.searches, w.name)|
    ensures r.searches[0] == w
    ensures NoneNamed(r.searches[1..], w.name)
    ensures NamesDistinct(st.searches) ==> NamesDistinct(r.searches)
    ensures r.searches[1..] == WithoutName(st.searches, w.name)[..|r.searches| - 1]
    ensures |r.searches| < MaxRecentSearches ==> r.searches[1..] == WithoutName(st.searches, w.name)
    ensures r.selectedCity == st.selectedCity && r.useCurrentLocation == st.useCurrentLocation
  {
    var filtered := WithoutName(st.searches, w.name);
    var all := [w] + filtered;
    var kept := if |all| <= MaxRecentSearches then all else all[..MaxRecentSearches];
    assert kept[1..] == filtered[..|kept| - 1];
    assert NamesDistinct(st.searches) ==> NamesDistinct(kept) by {
      if NamesDistinct(st.searches) {
        WithoutNameDistinct(st.searches, w.name);
        forall i, j | 0 <= i < j < |kept|
          ensures kept[i].name != kept[j].name
        {
          if i > 0 {
            assert kept[i] == filtered[i - 1] && kept[j] == filtered[j - 1];
          } else {
            assert kept[j] == filtered[j - 1];
          }
        }
      }
    }
    st.(searches := kept)
  }

  /** Adding the same snapshot twice is the same as adding it once. */
  lemma AddSearchIdempotent(st: State, w: WeatherData)
    ensures AddSearch(AddSearch(st, w), w) == AddSearch(st, w)
  {
    var once := AddSearch(st, w);
    var s := once.searches;
    assert s == [w] + s[1..];
    WithoutNameConcat([w], s[1..], w.name);
    assert WithoutName([w], w.name) == [];
  }

  /** `clearSearches()`. */
  function ClearSearches(st: State): (r: State)
    ensures r.searches == []
    ensures r.selectedCity == st.selectedCity && r.useCurrentLocation == st.useCurrentLocation
  {
    st.(searches := [])
  }

  /** Clearing twice is clearing once. */
  lemma ClearSearchesIdempotent(st: State)
    ensures ClearSearches(ClearSearches(st)) == ClearSearches(st)
  {
  }

  /** `setSelectedCity(city)`: picking a city leaves location mode; picking
      `null` returns to it. */
  function SetSelectedCity(st: State, city: Option<City>): (r: State)
    ensures r.selectedCity == city
    ensures r.useCurrentLocation <==> city.None?
    ensures r.searches == st.searches
  {
    st.(selectedCity := city, useCurrentLocation := city.None?)
  }

  /** `setUseCurrentLocation(use)`: turning location mode on forgets the
      city; turning it off keeps whatever city there is. */
  function SetUseCurrentLocation(st: State, use: bool): (r: State)
    ensures r.useCurrentLocation == use
    ensures use ==> r.selectedCity.None?
    ensures !use ==> r.selectedCity == st.selectedCity
    ensures r.searches == st.searches
  {
    st.(useCurrentLocation := use, selectedCity := if use then None else st.selectedCity)
  }

  /** The store's actions. */
  datatype Action =
    | AddSearchAction(weather: WeatherData)
    | ClearSearchesAction
    | SetSelectedCityAction(city: Option<City>)
    | SetUseCurrentLocationAction(use: bool)

  function Apply(st: State, a: Action): State {
    match a
    case AddSearchAction(w) => AddSearch(st, w)
    case ClearSearchesAction => ClearSearches(st)
    case SetSelectedCityAction(c) => SetSelectedCity(st, c)
    case SetUseCurrentLocationAction(u) => SetUseCurrentLocation(st, u)
  }

  /** The state after performing `actions` in order. */
  function Run(st: State, actions: seq<Action>): State
    decreases |actions|
  {
    if |actions| == 0 then st else Run(Apply(st, actions[0]), actions[1..])
  }

  /** What every reachable state satisfies: location mode never coexists
      with a selected city, the list is bounded and holds one snapshot per
      city name. */
  predicate Valid(st: State) {
    && (st.useCurrentLocation ==> st.selectedCity.None?)
    && |st.searches| <= MaxRecentSearches
    && NamesDistinct(st.searches)
  }

  /** Every action preserves `Valid`. */
  lemma ApplyPreservesValid(st: State, a: Action)
    requires Valid(st)
    ensures Valid(Apply(st, a))
  {
  }

  /** Every state reachable from the initial one is valid. */
  lemma {:induction false} RunPreservesValid(st: State, actions: seq<Action>)
    requires Valid(st)
    ensures Valid(Run(st, actions))
    decreases |actions|
  {
    if |actions| > 0 {
      ApplyPreservesValid(st, actions[0]);
      RunPreservesValid(Apply(st, actions[0]), actions[1..]);
    }
  }

  lemma ReachableStatesValid(actions: seq<Action>)
    ensures Valid(Run(Initial, actions))
  {
    RunPreservesValid(Initial, actions);
  }

  /** A fresh store has no searches, no city, location mode on, and
      satisfies the invariant. */
  lemma InitialValid()
    ensures Initial.searches == [] && Initial.selectedCity.None? && Initial.useCurrentLocation
    ensures Valid(Initial)
  {
  }

  /** The converse does not hold: switching location mode off with no city
      selected leaves the store in neither mode. */
  lemma NeitherModeReachable()
    ensures var st := Run(Initial, [SetUseCurrentLocationAction(false)]);
      !st.useCurrentLocation && st.selectedCity.None?
  {
  }
}
