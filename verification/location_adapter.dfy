/** The browser geolocation adapter (src/adapters/web/location-adapter.ts):
    translation of native errors and positions, the option defaults, the
    single-watch lifecycle and the two permission decisions.

    The browser's geolocation object is abstract state: the set of watch
    handles it is currently running and the next handle it will hand out.
    Native callbacks and promise outcomes are data passed in. */
module LocationAdapter {
  import opened Optional
  import opened Interfaces

  /** The numeric codes of `GeolocationPositionError`. */
  const NativePermissionDenied: int := 1
  const NativePositionUnavailable: int := 2
  const NativeTimeout: int := 3

  /** A native `GeolocationPositionError`. */
  datatype NativeError = NativeError(code: int, message: string)

  /** A native `GeolocationPosition`: its coordinates record and timestamp. */
  datatype NativeCoords = NativeCoords(
    latitude: real, longitude: real, heading: Option<real>, speed: Option<real>, accuracy: real)
  datatype NativePosition = NativePosition(coords: NativeCoords, timestamp: int)

  /** `mapError`: codes 1, 2, 3 have names; any other code is unknown. */
  function MapError(e: NativeError): (r: LocationError)
    ensures r.message == e.message
    ensures r.code == PermissionDenied <==> e.code == NativePermissionDenied
    ensures r.code == PositionUnavailable <==> e.code == NativePositionUnavailable
    ensures r.code == Timeout <==> e.code == NativeTimeout
    ensures r.code == UnknownError <==> e.code !in {1, 2, 3}
  {
    var code :=
      if e.code == 1 then PermissionDenied
      else if e.code == 2 then PositionUnavailable
      else if e.code == 3 then Timeout
      else UnknownError;
    LocationError(code, e.message)
  }

  /** `mapPosition`: the six fields, unchanged. */
  function MapPosition(p: NativePosition): (r: GeoPosition)
    ensures r.latitude == p.coords.latitude && r.longitude == p.coords.longitude
    ensures r.heading == p.coords.heading && r.speed == p.coords.speed
    ensures r.accuracy == p.coords.accuracy && r.timestamp == p.timestamp
  {
    GeoPosition(p.coords.latitude, p.coords.longitude, p.coords.heading, p.coords.speed,
                p.coords.accuracy, p.timestamp)
  }

  /** `LocationOptions`: each field may be left out. */
  datatype LocationOptions = LocationOptions(
    enableHighAccuracy: Option<bool>, maximumAge: Option<int>, timeout: Option<int>)

  /** The options handed to the browser. */
  datatype PositionOptions = PositionOptions(enableHighAccuracy: bool, maximumAge: int, timeout: int)

  /** `getDefaultOptions`. */
  const DefaultOptions: PositionOptions := PositionOptions(true, 5000, 10000)

  /** `{ ...getDefaultOptions(), ...options }` for absent or given options. */
  function MergeOptions(options: Option<LocationOptions>): (r: PositionOptions)
    ensures options.None? ==> r == DefaultOptions
    ensures options.Some? ==>
      && r.enableHighAccuracy == options.value.enableHighAccuracy.GetOr(true)
      && r.maximumAge == options.value.maximumAge.GetOr(5000)
      && r.timeout == options.value.timeout.GetOr(10000)
  {
    match options
    case None => DefaultOptions
    case Some(o) =>
      PositionOptions(
        o.enableHighAccuracy.GetOr(DefaultOptions.enableHighAccuracy),
        o.maximumAge.GetOr(DefaultOptions.maximumAge),
        o.timeout.GetOr(DefaultOptions.timeout))
  }

  /** Giving every field overrides every default; giving none keeps them all. */
  lemma MergeOptionsOverridesFieldwise(a: bool, m: int, t: int)
    ensures MergeOptions(Some(LocationOptions(Some(a), Some(m), Some(t)))) == PositionOptions(a, m, t)
    ensures MergeOptions(Some(LocationOptions(None, None, None))) == MergeOptions(None)
    ensures MergeOptions(Some(LocationOptions(None, None, Some(5000)))) == PositionOptions(true, 5000, 5000)
  {
  }

  /** The adapter's `watchId` together with the browser's running watches. */
  datatype Adapter = Adapter(watchId: Option<int>, active: set<int>, nextHandle: int)

  /** The browser runs exactly the watch the adapter holds, if any. */
  predicate Valid(a: Adapter) {
    a.active == (if a.watchId.Some? then {a.watchId.value} else {})
  }

  const Fresh: Adapter := Adapter(None, {}, 1)

  /** `stopWatching`: clear the held watch, if any. */
  function StopWatching(a: Adapter): (r: Adapter)
    requires Valid(a)
    ensures Valid(r) && r.watchId.None? && r.active == {}
    ensures a.watchId.None? ==> r == a
  {
    match a.watchId
    case Some(id) => a.(watchId := None, active := a.active - {id})
    case None => a
  }

  /** `watchPosition`: stop the previous watch, then start one with a new
      handle; the options used are the merged ones. */
  function WatchPosition(a: Adapter, options: Option<LocationOptions>): (r: (Adapter, PositionOptions))
    requires Valid(a)
    ensures Valid(r.0) && r.0.watchId == Some(a.nextHandle) && r.0.active == {a.nextHandle}
    ensures r.1 == MergeOptions(options)
  {
    var stopped := StopWatching(a);
    (stopped.(watchId := Some(a.nextHandle), active := {a.nextHandle}, nextHandle := a.nextHandle + 1),
     MergeOptions(options))
  }

  /** Any sequence of watch starts and stops leaves at most one watch running,
      and stopping twice is stopping once. */
  lemma AtMostOneWatch(a: Adapter, options: Option<LocationOptions>)
    requires Valid(a)
    ensures |WatchPosition(WatchPosition(a, options).0, options).0.active| == 1
    ensures |StopWatching(a).active| == 0
    ensures StopWatching(StopWatching(a)) == StopWatching(a)
  {
  }

  /** How the browser's permissions API answers, if it exists. */
  datatype PermissionProbe = NoPermissionsApi | QueryThrows | QueryAnswers(state: PermissionState)

  /** `checkPermission`: the API's answer, or `prompt` when there is none. */
  function CheckPermission(probe: PermissionProbe): (r: PermissionState)
    ensures probe.QueryAnswers? ==> r == probe.state
    ensures !probe.QueryAnswers? ==> r == Prompt
  {
    match probe
    case QueryAnswers(state) => state
    case _ => Prompt
  }

  /** The outcome of one native `getCurrentPosition`. */
  datatype Fix = Located(position: NativePosition) | Failed(error: NativeError)

  /** `getCurrentPosition`: the translated position or the translated error. */
  function GetCurrentPosition(outcome: Fix): (r: Result<GeoPosition, LocationError>)
    ensures outcome.Located? <==> r.Ok?
    ensures r.Ok? ==> r.value == MapPosition(outcome.position)
    ensures r.Err? ==> r.error == MapError(outcome.error)
  {
    match outcome
    case Located(p) => Ok(MapPosition(p))
    case Failed(e) => Err(MapError(e))
  }

  /** The options of the one-shot fix behind `requestPermission`. */
  const RequestOptions: LocationOptions := LocationOptions(None, None, Some(5000))

  /** `requestPermission`: a one-shot fix with a 5 s timeout; only a denial
      counts as a refusal. */
  function RequestPermission(outcome: Fix): bool {
    match GetCurrentPosition(outcome)
    case Ok(_) => true
    case Err(e) => e.code != PermissionDenied
  }

  /** The request is refused exactly when the native fix fails with code 1;
      a timeout or an unavailable position still counts as granted. */
  lemma RequestPermissionRefusesOnlyDenial(outcome: Fix)
    ensures !RequestPermission(outcome) <==> outcome.Failed? && outcome.error.code == NativePermissionDenied
    ensures MergeOptions(Some(RequestOptions)) == PositionOptions(true, 5000, 5000)
  {
  }
}
