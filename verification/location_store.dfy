/** The device-position store (src/store/location.store.ts): the last known
    coordinates, whether a lookup is in flight, and its error. Only the
    coordinates are written to local storage; the storage itself is not
    modelled, only which part of the state reaches it. */
module LocationStore {
  import opened Wrappers
  import opened WeatherModels

  datatype LocationState = LocationState(coords: Option<Coord>, isLoading: bool, error: Option<string>)

  /** The state a fresh store starts in. */
  const InitialLocation: LocationState := LocationState(None, false, None)

  /** `setCoords(coords)`. */
  function SetCoords(st: LocationState, coords: Option<Coord>): (r: LocationState)
    ensures r.coords == coords
    ensures r.isLoading == st.isLoading && r.error == st.error
  {
    st.(coords := coords)
  }

  /** `setLoading(isLoading)`. */
  function SetLoading(st: LocationState, isLoading: bool): (r: LocationState)
    ensures r.isLoading == isLoading
    ensures r.coords == st.coords && r.error == st.error
  {
    st.(isLoading := isLoading)
  }

  /** `setError(error)`. */
  function SetError(st: LocationState, error: Option<string>): (r: LocationState)
    ensures r.error == error
    ensures r.coords == st.coords && r.isLoading == st.isLoading
  {
    st.(error := error)
  }

  /** `clearLocation()`: forgets the position and the error but not whether
      a lookup is running. */
  function ClearLocation(st: LocationState): (r: LocationState)
    ensures r.coords.None? && r.error.None?
    ensures r.isLoading == st.isLoading
  {
    st.(coords := None, error := None)
  }

  /** What `partialize` hands to storage: the coordinates alone. */
  datatype Persisted = Persisted(coords: Option<Coord>)

  /** `partialize(state)`. */
  function Partialize(st: LocationState): (p: Persisted)
    ensures p.coords == st.coords
  {
    Persisted(st.coords)
  }

  /** A fresh store knows no position, is not looking one up and has no
      error, so it persists nothing; clearing it changes nothing. */
  lemma InitialLocationEmpty()
    ensures InitialLocation.coords.None? && !InitialLocation.isLoading && InitialLocation.error.None?
    ensures Partialize(InitialLocation) == Persisted(None)
    ensures ClearLocation(InitialLocation) == InitialLocation
  {
  }

  /** The loading flag and the error are never persisted: changing them
      leaves the stored projection as it was, and two states with the same
      coordinates persist identically. */
  lemma TransientFieldsNotPersisted(st: LocationState, isLoading: bool, error: Option<string>)
    ensures Partialize(SetLoading(st, isLoading)) == Partialize(st)
    ensures Partialize(SetError(st, error)) == Partialize(st)
    ensures Partialize(ClearLocation(st)) == Partialize(InitialLocation)
  {
  }
}
