/** The client of the place proxy (src/api/places-api.ts): building the
    details path, turning a response into POIs or into the error it raises,
    and the per-place transformation. The HTTP exchange itself is a
    response value passed in. */
module PlacesApi {
  import opened Optional
  import opened PoiModel
  import Seqs
  import Strings
  import Uri

  /** `PlaceResponse` as the proxy sends it. */
  datatype PlaceResponse = PlaceResponse(
    id: string,
    name: string,
    placeType: string,
    location: Coord,
    rating: Option<real>,
    ratingCount: Option<int>,
    priceLevel: Option<int>,
    isOpen: Option<bool>,
    address: Option<string>,
    photoUrl: Option<string>)

  /** A response body: not JSON at all, an error object (whose `error` field
      may be missing), a list of places, or a single place. */
  datatype Body = NotJson | ErrorJson(error: Option<string>) | PlacesJson(places: seq<PlaceResponse>) | PlaceJson(place: PlaceResponse)

  datatype Response = Response(status: int, body: Body)

  /** `response.ok`. */
  predicate IsOk(r: Response) {
    200 <= r.status <= 299
  }

  /** The error a call raises: a message, or the failure to read a body of
      the wrong shape. */
  datatype ApiError = ApiMessage(text: string) | MalformedBody

  /** `mapType`: a known category name maps to itself, anything else to
      restaurant. */
  function MapType(placeType: string): (t: PoiType)
    ensures ParseTypeName(placeType).Some? ==> TypeName(t) == placeType
    ensures ParseTypeName(placeType).None? ==> t == Restaurant
  {
    ParseTypeName(placeType).GetOr(Restaurant)
  }

  /** Every category survives the trip through its name. */
  lemma MapTypeOfName(t: PoiType)
    ensures MapType(TypeName(t)) == t
  {
  }

  /** `transformPlace`. */
  function TransformPlace(p: PlaceResponse): (r: Poi)
    ensures r.id == p.id && r.name == p.name && r.location == p.location
    ensures r.priceLevel == p.priceLevel && r.isOpen == p.isOpen
    ensures r.address == p.address && r.photoUrl == p.photoUrl
    ensures r.poiType == MapType(p.placeType)
    ensures r.distance == 0.0
    ensures r.rating == p.rating.GetOr(0.0) && r.ratingCount == p.ratingCount.GetOr(0)
  {
    Poi(p.id, p.name, MapType(p.placeType), p.location, 0.0,
        p.rating.GetOr(0.0), p.ratingCount.GetOr(0),
        p.priceLevel, p.isOpen, p.address, p.photoUrl)
  }

  /** The text of the error raised for a failed response: the body's `error`
      when it is a non-empty string, `Unknown error` when the body is not
      JSON, and `API error: <status>` otherwise. */
  function ErrorText(r: Response): string {
    match r.body
    case NotJson => "Unknown error"
    case ErrorJson(Some(e)) => if e != "" then e else "API error: " + Strings.IntToString(r.status)
    case _ => "API error: " + Strings.IntToString(r.status)
  }

  /** `searchNearby`: one POI per returned place, in order, or the error. */
  function SearchNearby(r: Response): (result: Result<seq<Poi>, ApiError>)
    ensures !IsOk(r) ==> result == Err(ApiMessage(ErrorText(r)))
    ensures IsOk(r) && r.body.PlacesJson? ==>
      result.Ok? && |result.value| == |r.body.places|
      && forall i :: 0 <= i < |r.body.places| ==> result.value[i] == TransformPlace(r.body.places[i])
    ensures IsOk(r) && !r.body.PlacesJson? ==> result == Err(MalformedBody)
  {
    if !IsOk(r) then Err(ApiMessage(ErrorText(r)))
    else match r.body
      case PlacesJson(places) => Ok(Seqs.Map(TransformPlace, places))
      case _ => Err(MalformedBody)
  }

  /** The path requested for a place's details. */
  function DetailsPath(placeId: string): string {
    "/api/places/" + Uri.EncodeUriComponent(placeId)
  }

  /** Whatever the id, the request stays on one path segment under
      `/api/places/`, and an ASCII id can be read back from it. */
  lemma DetailsPathIsOneSegment(placeId: string)
    ensures DetailsPath(placeId)[..12] == "/api/places/"
    ensures '/' !in DetailsPath(placeId)[12..] && '?' !in DetailsPath(placeId)[12..]
    ensures (forall i :: 0 <= i < |placeId| ==> placeId[i] as int < 0x80) ==>
      Uri.DecodeAscii(DetailsPath(placeId)[12..]) == placeId
  {
    assert DetailsPath(placeId)[12..] == Uri.EncodeUriComponent(placeId);
    Uri.EncodedHasNoDelimiters(placeId);
    if forall i :: 0 <= i < |placeId| ==> placeId[i] as int < 0x80 {
      Uri.DecodeEncodeAscii(placeId);
    }
  }

  /** `getPlaceDetails`: a 404 is `Place not found`, any other failure is
      reported like a failed search. */
  function GetPlaceDetails(r: Response): (result: Result<Poi, ApiError>)
    ensures r.status == 404 ==> result == Err(ApiMessage("Place not found"))
    ensures !IsOk(r) && r.status != 404 ==> result == Err(ApiMessage(ErrorText(r)))
    ensures IsOk(r) && r.body.PlaceJson? ==> result == Ok(TransformPlace(r.body.place))
    ensures result.Ok? ==> IsOk(r)
  {
    if !IsOk(r) then
      if r.status == 404 then Err(ApiMessage("Place not found")) else Err(ApiMessage(ErrorText(r)))
    else match r.body
      case PlaceJson(p) => Ok(TransformPlace(p))
      case _ => Err(MalformedBody)
  }

  /** A failure with a JSON error text carries that text; a failure without
      one names the status. */
  lemma ErrorTextCases(status: int, e: string)
    requires e != ""
    ensures ErrorText(Response(status, ErrorJson(Some(e)))) == e
    ensures ErrorText(Response(status, ErrorJson(None))) == "API error: " + Strings.IntToString(status)
    ensures ErrorText(Response(status, ErrorJson(Some("")))) == "API error: " + Strings.IntToString(status)
    ensures ErrorText(Response(status, NotJson)) == "Unknown error"
  {
  }
}
