/** The records exchanged with the platform collaborators: positions and
    location errors (src/core/interfaces/location.ts) and the persisted rows
    (src/core/interfaces/storage.ts). */
module Interfaces {
  import opened Optional
  import opened PoiModel

  /** `GeoPosition`: one sample of the position stream. */
  datatype GeoPosition = GeoPosition(
    latitude: real,
    longitude: real,
    heading: Option<real>,
    speed: Option<real>,
    accuracy: real,
    timestamp: int)
  {
    /** The sample's coordinates. */
    function Coordinates(): Coord {
      Coord(latitude, longitude)
    }
  }

  /** `LocationErrorCode`. */
  datatype LocationErrorCode = PermissionDenied | PositionUnavailable | Timeout | UnknownError

  /** `LocationError`. */
  datatype LocationError = LocationError(code: LocationErrorCode, message: string)

  /** The geolocation permission as the browser reports it. */
  datatype PermissionState = Granted | Denied | Prompt

  /** `CachedPOI`: a POI row of the persisted cache, with the time it was written
      and the centre and radius of the search that produced it. */
  datatype CachedPoi = CachedPoi(poi: Poi, cachedAt: int, searchLat: real, searchLng: real, searchRadius: real)

  /** `ThemeMode`. */
  datatype ThemeMode = Light | Dark | System

  /** `UserPreferences`. The categories are stored as their names; the theme is
      optional because rows written before it existed do not have one. */
  datatype UserPreferences = UserPreferences(
    minRating: real,
    enabledCategories: seq<string>,
    openNowOnly: bool,
    theme: Option<ThemeMode>)

  /** `UsageQuota`: the daily distance and search budget, with the calendar day
      (an ISO `YYYY-MM-DD` string) it was last reset on. */
  datatype UsageQuota = UsageQuota(
    distanceTraveled: real,
    distanceLimit: real,
    searchCount: int,
    searchLimit: int,
    lastReset: string)
}
