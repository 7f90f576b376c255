/** The point-of-interest model: the six categories, their Google Places names,
    the POI record and the zoom level suggested for a search radius
    (src/core/models/poi.ts). */
module PoiModel {
  import opened Optional
  import Seqs

  /** `POIType`: the closed set of categories the application knows. */
  datatype PoiType = Restaurant | Cafe | Attraction | Hotel | GasStation | ConvenienceStore

  /** The string each category is spelled as in JSON and in storage. */
  function TypeName(t: PoiType): string {
    match t
    case Restaurant => "restaurant"
    case Cafe => "cafe"
    case Attraction => "attraction"
    case Hotel => "hotel"
    case GasStation => "gas_station"
    case ConvenienceStore => "convenience_store"
  }

  /** The category spelled `s`, if `s` spells one. */
  function ParseTypeName(s: string): (r: Option<PoiType>)
    ensures r.Some? ==> TypeName(r.value) == s
    ensures r.None? ==> forall t :: TypeName(t) != s
  {
    if s == "restaurant" then Some(Restaurant)
    else if s == "cafe" then Some(Cafe)
    else if s == "attraction" then Some(Attraction)
    else if s == "hotel" then Some(Hotel)
    else if s == "gas_station" then Some(GasStation)
    else if s == "convenience_store" then Some(ConvenienceStore)
    else None
  }

  /** Reading a category's name back gives the category. */
  lemma ParseTypeNameRoundTrip(t: PoiType)
    ensures ParseTypeName(TypeName(t)) == Some(t)
  {
  }

  /** The names of a list of categories, as stored and as sent in requests. */
  function CategoryNames(cats: seq<PoiType>): seq<string> {
    Seqs.Map(TypeName, cats)
  }

  /** The categories a list of stored names denotes: every name of a
      category is kept, and a name that denotes no category is dropped. */
  function ParseCategories(names: seq<string>): (cats: seq<PoiType>)
    ensures |cats| <= |names|
    ensures forall t :: t in cats ==> TypeName(t) in names
    ensures forall t :: TypeName(t) in names ==> t in cats
    decreases |names|
  {
    if |names| == 0 then []
    else
      var rest := ParseCategories(names[1..]);
      assert forall t :: TypeName(t) in names ==> TypeName(t) == names[0] || TypeName(t) in names[1..];
      match ParseTypeName(names[0])
      case Some(t) => [t] + rest
      case None => rest
  }

  /** Reading back the names of a category list gives the list. */
  lemma {:induction false} ParseCategoryNames(cats: seq<PoiType>)
    ensures ParseCategories(CategoryNames(cats)) == cats
    decreases |cats|
  {
    if |cats| > 0 {
      ParseCategoryNames(cats[1..]);
      ParseTypeNameRoundTrip(cats[0]);
      assert CategoryNames(cats)[1..] == CategoryNames(cats[1..]);
      assert [cats[0]] + cats[1..] == cats;
    }
  }

  /** A category's name is among the names of a list exactly when the
      category is in the list. */
  lemma CategoryNamesMembership(cats: seq<PoiType>, t: PoiType)
    ensures TypeName(t) in CategoryNames(cats) <==> t in cats
  {
    var names := CategoryNames(cats);
    if TypeName(t) in names {
      var i :| 0 <= i < |names| && names[i] == TypeName(t);
      ParseTypeNameRoundTrip(t);
      ParseTypeNameRoundTrip(cats[i]);
    }
    if t in cats {
      var i :| 0 <= i < |cats| && cats[i] == t;
      assert names[i] == TypeName(t);
    }
  }

  /** `POI_TYPE_MAP`: the Google Places type searched for each category. */
  function GoogleTypeName(t: PoiType): string {
    match t
    case Restaurant => "restaurant"
    case Cafe => "cafe"
    case Attraction => "tourist_attraction"
    case Hotel => "lodging"
    case GasStation => "gas_station"
    case ConvenienceStore => "convenience_store"
  }

  /** Distinct categories are searched under distinct Google types. */
  lemma GoogleTypeNameInjective(a: PoiType, b: PoiType)
    ensures GoogleTypeName(a) == GoogleTypeName(b) ==> a == b
  {
  }

  /** A latitude/longitude pair in degrees. */
  datatype Coord = Coord(latitude: real, longitude: real)

  /** A distance function in meters: the haversine `calculateDistance` or the
      equirectangular `approximateDistance`, both left abstract. */
  type DistanceFn = (Coord, Coord) -> real

  /** `POI`. `distance` is derived: recomputed against every query centre. */
  datatype Poi = Poi(
    id: string,
    name: string,
    poiType: PoiType,
    location: Coord,
    distance: real,
    rating: real,
    ratingCount: int,
    priceLevel: Option<int>,
    isOpen: Option<bool>,
    address: Option<string>,
    photoUrl: Option<string>)

  /** `getZoomForRadius`. */
  function GetZoomForRadius(radius: real): int {
    if radius <= 1000.0 then 15
    else if radius <= 2000.0 then 14
    else if radius <= 3000.0 then 14
    else if radius <= 5000.0 then 13
    else 12
  }

  /** The zoom bands: 15 up to 1 km, 14 up to 3 km, 13 up to 5 km, 12 beyond. */
  lemma ZoomBands(radius: real)
    ensures radius <= 1000.0 ==> GetZoomForRadius(radius) == 15
    ensures 1000.0 < radius <= 3000.0 ==> GetZoomForRadius(radius) == 14
    ensures 3000.0 < radius <= 5000.0 ==> GetZoomForRadius(radius) == 13
    ensures 5000.0 < radius ==> GetZoomForRadius(radius) == 12
    ensures 12 <= GetZoomForRadius(radius) <= 15
  {
  }

  /** A wider radius never suggests a closer zoom. */
  lemma ZoomNonIncreasing(r1: real, r2: real)
    requires r1 <= r2
    ensures GetZoomForRadius(r2) <= GetZoomForRadius(r1)
  {
  }
}
