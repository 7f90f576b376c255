/** The location state container (src/store/location-store.ts): the latest
    position, the latest error, whether the position is being watched, and
    the permission as last learned. */
module LocationStore {
  import opened Optional
  import opened Interfaces

  /** `LocationState`; a `None` permission means it has not been checked yet. */
  datatype State = State(
    currentPosition: Option<GeoPosition>,
    error: Option<LocationError>,
    isTracking: bool,
    permissionState: Option<PermissionState>)

  /** `initialState`: nothing known, not tracking. */
  const Initial: State := State(None, None, false, None)

  /** `updatePosition`: a fresh position also clears the error. */
  function UpdatePosition(s: State, position: GeoPosition): (r: State)
    ensures r.currentPosition == Some(position) && r.error.None?
    ensures r.isTracking == s.isTracking && r.permissionState == s.permissionState
  {
    s.(currentPosition := Some(position), error := None)
  }

  /** `setError`. */
  function SetError(s: State, error: Option<LocationError>): (r: State)
    ensures r.error == error
    ensures r.(error := s.error) == s
  {
    s.(error := error)
  }

  /** `setTracking`. */
  function SetTracking(s: State, tracking: bool): (r: State)
    ensures r.isTracking == tracking
    ensures r.(isTracking := s.isTracking) == s
  {
    s.(isTracking := tracking)
  }

  /** `setPermissionState`. */
  function SetPermissionState(s: State, permission: PermissionState): (r: State)
    ensures r.permissionState == Some(permission)
    ensures r.(permissionState := s.permissionState) == s
  {
    s.(permissionState := Some(permission))
  }

  /** `reset`: back to the initial state from any state. */
  function Reset(s: State): (r: State)
    ensures r.currentPosition.None? && r.error.None? && !r.isTracking && r.permissionState.None?
  {
    Initial
  }

  /** The setters touch disjoint fields, so each undoes nothing of the others:
      setting the same value twice is setting it once, and an error set after a
      position survives while one set before it does not. */
  lemma SettersCommuteAndOverwrite(s: State, p: GeoPosition, e: LocationError, t: bool, perm: PermissionState)
    ensures SetTracking(SetPermissionState(s, perm), t) == SetPermissionState(SetTracking(s, t), perm)
    ensures SetError(UpdatePosition(s, p), Some(e)).error == Some(e)
    ensures UpdatePosition(SetError(s, Some(e)), p).error.None?
    ensures UpdatePosition(UpdatePosition(s, p), p) == UpdatePosition(s, p)
  {
  }
}
