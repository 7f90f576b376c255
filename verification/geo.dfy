/** The geometry helpers of src/core/utils/geo.ts whose logic is not
    trigonometry: the drift band, the bounding box of a point list, and the
    step that brings an `atan2` bearing into [0, 360). The distance and
    bearing formulas themselves are parameters of the model. */
module Geo {
  import opened Optional
  import opened PoiModel

  /** Below this many meters a position change is sensor noise. */
  const DriftFloorMeters: real := 10.0
  /** Above this many meters one position change is an implausible jump. */
  const DriftCeilingMeters: real := 500.0

  /** `isGPSDrift`: the delta is noise or a jump rather than real movement. */
  predicate IsGpsDrift(distance: real) {
    distance < DriftFloorMeters || distance > DriftCeilingMeters
  }

  /** Exactly the deltas in the closed band [10, 500] count as movement. */
  lemma MovementBand(distance: real)
    ensures !IsGpsDrift(distance) <==> 10.0 <= distance <= 500.0
  {
  }

  /** The box `[minLng, minLat, maxLng, maxLat]` returned by `calculateBounds`. */
  datatype Bounds = Bounds(minLng: real, minLat: real, maxLng: real, maxLat: real)

  /** Every point lies inside `b` on both axes. */
  ghost predicate Encloses(b: Bounds, points: seq<Coord>) {
    forall k :: 0 <= k < |points| ==>
      b.minLat <= points[k].latitude <= b.maxLat && b.minLng <= points[k].longitude <= b.maxLng
  }

  /** Each edge of `b` is the coordinate of some point. */
  ghost predicate Tight(b: Bounds, points: seq<Coord>) {
    && (exists k :: 0 <= k < |points| && points[k].latitude == b.minLat)
    && (exists k :: 0 <= k < |points| && points[k].latitude == b.maxLat)
    && (exists k :: 0 <= k < |points| && points[k].longitude == b.minLng)
    && (exists k :: 0 <= k < |points| && points[k].longitude == b.maxLng)
  }

  /** The message `calculateBounds` throws for an empty list. */
  const EmptyPointsMessage: string := "Points array cannot be empty"

  /** `calculateBounds`: the smallest box holding every point, or the error it
      throws for an empty list. */
  method CalculateBounds(points: seq<Coord>) returns (r: Result<Bounds, string>)
    ensures r.Err? <==> |points| == 0
    ensures r.Err? ==> r.error == EmptyPointsMessage
    ensures r.Ok? ==> Encloses(r.value, points) && Tight(r.value, points)
    ensures r.Ok? && |points| == 1 ==>
      r.value.minLat == r.value.maxLat == points[0].latitude && r.value.minLng == r.value.maxLng == points[0].longitude
  {
    if |points| == 0 {
      return Err(EmptyPointsMessage);
    }
    var minLat := points[0].latitude;
    var maxLat := points[0].latitude;
    var minLng := points[0].longitude;
    var maxLng := points[0].longitude;
    var i := 0;
    while i < |points|
      invariant 0 <= i <= |points|
      invariant Encloses(Bounds(minLng, minLat, maxLng, maxLat), points[..i])
      invariant Tight(Bounds(minLng, minLat, maxLng, maxLat), points)
      invariant minLat <= points[0].latitude <= maxLat && minLng <= points[0].longitude <= maxLng
    {
      var p := points[i];
      minLat := if p.latitude < minLat then p.latitude else minLat;
      maxLat := if p.latitude > maxLat then p.latitude else maxLat;
      minLng := if p.longitude < minLng then p.longitude else minLng;
      maxLng := if p.longitude > maxLng then p.longitude else maxLng;
      assert points[..i + 1] == points[..i] + [p];
      i := i + 1;
    }
    assert points[..i] == points;
    return Ok(Bounds(minLng, minLat, maxLng, maxLat));
  }

  /** JavaScript's truncation of a number toward zero. */
  function Trunc(x: real): int {
    if x >= 0.0 then x.Floor else -((-x).Floor)
  }

  /** JavaScript `x % m` on numbers: the remainder takes the sign of `x`. */
  function JsRemainder(x: real, m: real): real
    requires m != 0.0
  {
    x - m * (Trunc(x / m) as real)
  }

  /** The normalisation `(bearing + 360) % 360` applied to an `atan2` angle. */
  function NormalizeBearing(degrees: real): real {
    JsRemainder(degrees + 360.0, 360.0)
  }

  /** An `atan2` angle in [-180, 180] lands in [0, 360), on the same direction:
      the angle itself when non-negative, otherwise one turn more. */
  lemma NormalizeBearingRange(degrees: real)
    requires -180.0 <= degrees <= 180.0
    ensures 0.0 <= NormalizeBearing(degrees) < 360.0
    ensures NormalizeBearing(degrees) == (if degrees < 0.0 then degrees + 360.0 else degrees)
  {
    var x := degrees + 360.0;
    if degrees < 0.0 {
      assert 0.0 <= x / 360.0 < 1.0;
      assert Trunc(x / 360.0) == 0;
    } else {
      assert 1.0 <= x / 360.0 < 2.0;
      assert Trunc(x / 360.0) == 1;
    }
  }
}
