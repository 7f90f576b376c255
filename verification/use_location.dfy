/** The location-tracking hook (src/hooks/useLocation.tsx): each position
    sample updates the location state and, when it is a plausible move from
    the previous sample, the distance ledger; watch errors are dispatched by
    code; start, stop, the permission request and the auto-start guard drive
    the adapter.

    The hook's state is the previous sample (`lastPositionRef`), the location
    state, the quota ledger and the adapter. The distance formula is a
    parameter. */
module UseLocation {
  import opened Optional
  import opened PoiModel
  import opened Interfaces
  import Geo
  import QuotaStore
  import LocationStore
  import LocationAdapter

  datatype Hook = Hook(
    last: Option<GeoPosition>,
    location: LocationStore.State,
    quota: UsageQuota,
    adapter: LocationAdapter.Adapter)

  /** The delta between two samples, as the hook measures it. */
  function Delta(from: GeoPosition, to: GeoPosition, distance: DistanceFn): real {
    distance(from.Coordinates(), to.Coordinates())
  }

  /** `handlePositionUpdate`: account the move when tracking distance and it
      is not drift, then always take the sample as reference and as the
      current position. */
  function HandlePositionUpdate(h: Hook, p: GeoPosition, trackDistance: bool, distance: DistanceFn): (r: Hook)
    ensures r.last == Some(p)
    ensures r.location == LocationStore.UpdatePosition(h.location, p)
    ensures r.adapter == h.adapter
    ensures r.quota.(distanceTraveled := h.quota.distanceTraveled) == h.quota
  {
    var quota :=
      if trackDistance && h.last.Some? && !Geo.IsGpsDrift(Delta(h.last.value, p, distance))
      then QuotaStore.AddDistance(h.quota, Delta(h.last.value, p, distance))
      else h.quota;
    h.(last := Some(p), location := LocationStore.UpdatePosition(h.location, p), quota := quota)
  }

  /** A sample adds its delta exactly when distance is tracked, there is a
      previous sample, and the delta is in the movement band; otherwise the
      ledger is untouched. */
  lemma PositionUpdateAccounting(h: Hook, p: GeoPosition, trackDistance: bool, distance: DistanceFn)
    ensures h.last.None? ==> HandlePositionUpdate(h, p, trackDistance, distance).quota == h.quota
    ensures !trackDistance ==> HandlePositionUpdate(h, p, trackDistance, distance).quota == h.quota
    ensures trackDistance && h.last.Some? ==>
      var d := Delta(h.last.value, p, distance);
      HandlePositionUpdate(h, p, trackDistance, distance).quota.distanceTraveled
        == h.quota.distanceTraveled + (if 10.0 <= d <= 500.0 then d else 0.0)
  {
    if trackDistance && h.last.Some? {
      Geo.MovementBand(Delta(h.last.value, p, distance));
    }
  }

  /** The error callback passed to `watchPosition`: a denial records the
      error and the denied permission; an unavailable position or a timeout
      is transient and changes nothing; any other code records the error. */
  function HandleError(h: Hook, e: LocationError): (r: Hook)
    ensures r.last == h.last && r.quota == h.quota && r.adapter == h.adapter
    ensures e.code == PermissionDenied ==>
      r.location == h.location.(error := Some(e), permissionState := Some(Denied))
    ensures e.code == PositionUnavailable || e.code == Timeout ==> r == h
    ensures e.code == UnknownError ==> r.location == h.location.(error := Some(e))
  {
    match e.code
    case PermissionDenied =>
      h.(location := LocationStore.SetPermissionState(LocationStore.SetError(h.location, Some(e)), Denied))
    case PositionUnavailable => h
    case Timeout => h
    case UnknownError => h.(location := LocationStore.SetError(h.location, Some(e)))
  }

  /** `startTracking`: start a watch with the default options and mark the
      state as tracking. */
  function StartTracking(h: Hook): (r: Hook)
    requires LocationAdapter.Valid(h.adapter)
    ensures r.location.isTracking && r.adapter.watchId.Some? && |r.adapter.active| == 1
    ensures LocationAdapter.Valid(r.adapter)
    ensures r.location == h.location.(isTracking := true) && r.last == h.last && r.quota == h.quota
  {
    var (adapter, _) := LocationAdapter.WatchPosition(h.adapter, None);
    h.(adapter := adapter, location := LocationStore.SetTracking(h.location, true))
  }

  /** `stopTracking`: stop the watch and mark the state as not tracking. */
  function StopTracking(h: Hook): (r: Hook)
    requires LocationAdapter.Valid(h.adapter)
    ensures !r.location.isTracking && r.adapter.watchId.None? && r.adapter.active == {}
    ensures LocationAdapter.Valid(r.adapter)
    ensures r.location == h.location.(isTracking := false) && r.last == h.last && r.quota == h.quota
  {
    h.(adapter := LocationAdapter.StopWatching(h.adapter), location := LocationStore.SetTracking(h.location, false))
  }

  /** `requestPermission`: the adapter's answer, recorded as granted or denied. */
  function RequestPermission(h: Hook, outcome: LocationAdapter.Fix): (r: (Hook, bool))
    ensures r.1 == LocationAdapter.RequestPermission(outcome)
    ensures r.0.location.permissionState == Some(if r.1 then Granted else Denied)
    ensures r.0.location.(permissionState := h.location.permissionState) == h.location
  {
    var granted := LocationAdapter.RequestPermission(outcome);
    (h.(location := LocationStore.SetPermissionState(h.location, if granted then Granted else Denied)), granted)
  }

  /** The permission check run on mount. */
  function CheckPermissionOnMount(h: Hook, probe: LocationAdapter.PermissionProbe): (r: Hook)
    ensures r.location.permissionState == Some(LocationAdapter.CheckPermission(probe))
  {
    h.(location := LocationStore.SetPermissionState(h.location, LocationAdapter.CheckPermission(probe)))
  }

  /** The auto-start guard. */
  predicate ShouldAutoStart(autoStart: bool, permission: Option<PermissionState>) {
    autoStart && permission == Some(Granted)
  }

  /** The auto-start effect: start when the guard holds, otherwise leave the
      state alone. */
  function AutoStartEffect(h: Hook, autoStart: bool): (r: Hook)
    requires LocationAdapter.Valid(h.adapter)
    ensures LocationAdapter.Valid(r.adapter)
    ensures ShouldAutoStart(autoStart, h.location.permissionState) ==> r.location.isTracking
    ensures !ShouldAutoStart(autoStart, h.location.permissionState) ==> r == h
  {
    if ShouldAutoStart(autoStart, h.location.permissionState) then StartTracking(h) else h
  }

  /** Tracking starts by itself only with auto-start on and permission
      granted; a prompt, a denial or an unchecked permission never start it. */
  lemma AutoStartOnlyWhenGranted(h: Hook, autoStart: bool)
    requires LocationAdapter.Valid(h.adapter) && !h.location.isTracking
    ensures AutoStartEffect(h, autoStart).location.isTracking <==> autoStart && h.location.permissionState == Some(Granted)
  {
  }

  /** The effect's cleanup, with the tracking flag captured when the effect
      was set up. */
  function AutoStartCleanup(h: Hook, trackingWhenSetUp: bool): (r: Hook)
    requires LocationAdapter.Valid(h.adapter)
    ensures trackingWhenSetUp ==> !r.location.isTracking && r.adapter.active == {}
    ensures !trackingWhenSetUp ==> r == h
  {
    if trackingWhenSetUp then StopTracking(h) else h
  }

  /** A stream of samples fed to the handler one by one. */
  function ProcessSamples(h: Hook, samples: seq<GeoPosition>, trackDistance: bool, distance: DistanceFn): Hook
    decreases |samples|
  {
    if |samples| == 0 then h
    else ProcessSamples(HandlePositionUpdate(h, samples[0], trackDistance, distance), samples[1..], trackDistance, distance)
  }

  /** The distance the ledger should gain from a stream that follows the
      reference sample `prev`: the sum of the consecutive deltas in the
      movement band. */
  function AcceptedDistance(prev: Option<GeoPosition>, samples: seq<GeoPosition>, distance: DistanceFn): real
    decreases |samples|
  {
    if |samples| == 0 then 0.0
    else
      var step := if prev.Some? && !Geo.IsGpsDrift(Delta(prev.value, samples[0], distance))
                  then Delta(prev.value, samples[0], distance) else 0.0;
      step + AcceptedDistance(Some(samples[0]), samples[1..], distance)
  }

  /** Over a whole stream the ledger gains exactly the accepted distance (or
      nothing when distance is not tracked), the last sample becomes both the
      reference and the current position, and nothing else in the ledger or
      the adapter changes. */
  lemma {:induction false} ProcessSamplesAccounts(h: Hook, samples: seq<GeoPosition>, trackDistance: bool, distance: DistanceFn)
    ensures var r := ProcessSamples(h, samples, trackDistance, distance);
      && r.quota.distanceTraveled == h.quota.distanceTraveled + (if trackDistance then AcceptedDistance(h.last, samples, distance) else 0.0)
      && r.quota.(distanceTraveled := h.quota.distanceTraveled) == h.quota
      && r.adapter == h.adapter
      && (|samples| > 0 ==> r.last == Some(samples[|samples| - 1]) && r.location.currentPosition == r.last && r.location.error.None?)
    decreases |samples|
  {
    if |samples| > 0 {
      var h1 := HandlePositionUpdate(h, samples[0], trackDistance, distance);
      PositionUpdateAccounting(h, samples[0], trackDistance, distance);
      ProcessSamplesAccounts(h1, samples[1..], trackDistance, distance);
      if |samples| > 1 {
        assert samples[1..][|samples[1..]| - 1] == samples[|samples| - 1];
      }
    }
  }

  /** Every accepted delta lies in the movement band, so a stream of `n`
      samples after a reference adds between nothing and 500·n meters; a
      first sample with no reference adds nothing. */
  lemma {:induction false} AcceptedDistanceBounds(prev: Option<GeoPosition>, samples: seq<GeoPosition>, distance: DistanceFn)
    ensures 0.0 <= AcceptedDistance(prev, samples, distance) <= 500.0 * (|samples| as real)
    ensures |samples| == 1 && prev.None? ==> AcceptedDistance(prev, samples, distance) == 0.0
    decreases |samples|
  {
    if |samples| > 0 {
      AcceptedDistanceBounds(Some(samples[0]), samples[1..], distance);
    }
  }
}
