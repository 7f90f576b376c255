/** The place proxy (worker/src/index.ts): the CORS decision, validation of
    a nearby search, translation of the requested categories into Google
    Places types, the classification of a Google place into one of the six
    categories, the price-level table, and the two handlers.

    The calls to Google Places are function parameters from the outgoing
    request to the upstream answer; the API key and the allowed-origin list
    are the worker's environment, passed in. */
module Worker {
  import opened Optional
  import opened PoiModel
  import Seqs
  import Strings
  import PlacesApi

  // ---------------------------------------------------------------------
  // Classification of a Google place

  /** A JavaScript string that is present and non-empty. */
  predicate Truthy(s: Option<string>) {
    s.Some? && s.value != ""
  }

  /** Google types that name a category outright. */
  const DirectMap: map<string, string> := map[
    "restaurant" := "restaurant",
    "cafe" := "cafe",
    "coffee_shop" := "cafe",
    "tourist_attraction" := "attraction",
    "lodging" := "hotel",
    "hotel" := "hotel",
    "motel" := "hotel",
    "resort_hotel" := "hotel",
    "gas_station" := "gas_station",
    "convenience_store" := "convenience_store"]

  /** Google types counted as attractions. */
  const AttractionTypes: set<string> := {
    "tourist_attraction", "museum", "art_gallery", "park", "national_park",
    "state_park", "city_park", "dog_park", "zoo", "aquarium",
    "amusement_park", "historical_landmark", "monument", "stadium", "arena",
    "performing_arts_theater", "movie_theater", "cultural_center",
    "visitor_center", "church", "temple", "mosque", "synagogue",
    "hindu_temple", "buddhist_temple", "landmark", "plaza",
    "botanical_garden", "garden", "campground", "hiking_area", "ski_resort",
    "beach", "marina", "wildlife_park", "observation_deck", "planetarium",
    "science_museum", "childrens_museum", "history_museum", "library",
    "athletic_field", "golf_course", "playground", "swimming_pool",
    "sports_complex", "tourist_destination", "point_of_interest"}

  /** Google types counted as places to eat. */
  const FoodTypes: set<string> := {
    "restaurant", "bakery", "bar", "food", "meal_delivery", "meal_takeaway",
    "ice_cream_shop", "pizza_restaurant", "ramen_restaurant",
    "sushi_restaurant", "chinese_restaurant", "japanese_restaurant",
    "korean_restaurant", "thai_restaurant", "vietnamese_restaurant",
    "indian_restaurant", "italian_restaurant", "mexican_restaurant",
    "american_restaurant", "fast_food_restaurant", "seafood_restaurant",
    "steak_house", "vegetarian_restaurant", "vegan_restaurant",
    "breakfast_restaurant", "brunch_restaurant", "hamburger_restaurant",
    "noodle_restaurant", "sandwich_shop", "tea_house"}

  /** Every value of the direct table names a category. */
  lemma DirectMapNamesCategories(k: string)
    requires k in DirectMap
    ensures ParseTypeName(DirectMap[k]).Some?
    ensures DirectMap[k] == "gas_station" <==> k == "gas_station"
    ensures DirectMap[k] == "convenience_store" <==> k == "convenience_store"
  {
  }

  /** The decision on the primary type alone: the direct table, then the
      attraction set, then the food set. */
  function PrimaryDecision(primary: string): (r: Option<string>)
    ensures primary in DirectMap ==> r == Some(DirectMap[primary])
    ensures primary !in DirectMap && primary in AttractionTypes ==> r == Some("attraction")
    ensures primary !in DirectMap && primary !in AttractionTypes && primary in FoodTypes ==> r == Some("restaurant")
    ensures r.None? <==> primary !in DirectMap && primary !in AttractionTypes && primary !in FoodTypes
  {
    if primary in DirectMap then Some(DirectMap[primary])
    else if primary in AttractionTypes then Some("attraction")
    else if primary in FoodTypes then Some("restaurant")
    else None
  }

  /** The decision on the `types` list: an attraction type anywhere, then the
      first type of the direct table, then a food type anywhere. */
  function TypesDecision(types: seq<string>): (r: Option<string>)
    ensures (exists i :: 0 <= i < |types| && types[i] in AttractionTypes) ==> r == Some("attraction")
    ensures ((forall i :: 0 <= i < |types| ==> types[i] !in AttractionTypes && types[i] !in DirectMap)
             && (exists i :: 0 <= i < |types| && types[i] in FoodTypes))
      ==> r == Some("restaurant")
    ensures r.None? <==> forall i :: 0 <= i < |types| ==>
      types[i] !in AttractionTypes && types[i] !in DirectMap && types[i] !in FoodTypes
  {
    if Seqs.Find((t: string) => t in AttractionTypes, types).Some? then Some("attraction")
    else
      match Seqs.Find((t: string) => t in DirectMap, types)
      case Some(t) => Some(DirectMap[t])
      case None =>
        if Seqs.Find((t: string) => t in FoodTypes, types).Some? then Some("restaurant") else None
  }

  /** The substring hints, tried in a fixed order, with attraction as the
      last resort: a restaurant, cafe or hotel comes only from a hint for it
      in the name, and never a gas station or a convenience store. */
  function FallbackDecision(lower: string): (r: string)
    ensures r == "attraction" || r == "restaurant" || r == "cafe" || r == "hotel"
    ensures r == "restaurant" ==> Strings.Contains(lower, "restaurant") || Strings.Contains(lower, "food")
    ensures r == "cafe" ==> Strings.Contains(lower, "cafe") || Strings.Contains(lower, "coffee")
    ensures r == "hotel" ==> Strings.Contains(lower, "hotel") || Strings.Contains(lower, "lodging")
  {
    if Strings.Contains(lower, "park") || Strings.Contains(lower, "garden") then "attraction"
    else if Strings.Contains(lower, "museum") || Strings.Contains(lower, "attraction")
         || Strings.Contains(lower, "landmark") then "attraction"
    else if Strings.Contains(lower, "restaurant") || Strings.Contains(lower, "food") then "restaurant"
    else if Strings.Contains(lower, "cafe") || Strings.Contains(lower, "coffee") then "cafe"
    else if Strings.Contains(lower, "hotel") || Strings.Contains(lower, "lodging") then "hotel"
    else "attraction"
  }

  /** The string the hints are looked for in: the primary type, else the
      first listed type, else nothing. */
  function TypeToCheck(primary: Option<string>, types: Option<seq<string>>): string {
    if Truthy(primary) then primary.value
    else if types.Some? && |types.value| > 0 then types.value[0]
    else ""
  }

  /** `mapGoogleTypeToOurType`: a primary type the tables know decides,
      then the list, then the substring hints on the lower-cased primary
      type or first listed type. */
  function MapGoogleTypeToOurType(primary: Option<string>, types: Option<seq<string>>): (r: string)
    ensures ParseTypeName(r).Some?
    ensures (!(Truthy(primary) && PrimaryDecision(primary.value).Some?)
             && !(types.Some? && |types.value| > 0 && TypesDecision(types.value).Some?))
      ==> r == FallbackDecision(Strings.ToLower(TypeToCheck(primary, types)))
  {
    if Truthy(primary) && PrimaryDecision(primary.value).Some? then
      if primary.value in DirectMap then
        DirectMapNamesCategories(primary.value);
        PrimaryDecision(primary.value).value
      else PrimaryDecision(primary.value).value
    else if types.Some? && |types.value| > 0 && TypesDecision(types.value).Some? then
      var r := TypesDecision(types.value).value;
      assert r == "attraction" || r == "restaurant" || exists k :: k in DirectMap && r == DirectMap[k];
      if r == "attraction" || r == "restaurant" then r
      else
        var k :| k in DirectMap && r == DirectMap[k];
        DirectMapNamesCategories(k);
        r
    else FallbackDecision(Strings.ToLower(TypeToCheck(primary, types)))
  }

  /** A primary type the tables know decides alone, whatever `types` says:
      the direct table first, then attraction, then food. */
  lemma PrimaryTypeDecides(primary: string, types1: Option<seq<string>>, types2: Option<seq<string>>)
    requires primary != "" && PrimaryDecision(primary).Some?
    ensures MapGoogleTypeToOurType(Some(primary), types1) == MapGoogleTypeToOurType(Some(primary), types2)
    ensures primary in DirectMap ==> MapGoogleTypeToOurType(Some(primary), types1) == DirectMap[primary]
    ensures primary !in DirectMap && primary in AttractionTypes ==> MapGoogleTypeToOurType(Some(primary), types1) == "attraction"
    ensures primary !in DirectMap && primary !in AttractionTypes ==> MapGoogleTypeToOurType(Some(primary), types1) == "restaurant"
  {
  }

  /** When the primary type does not decide, an attraction type anywhere in
      the list wins over a direct or food type listed before it. */
  lemma AttractionInTypesWins(primary: Option<string>, types: seq<string>, i: int)
    requires !(Truthy(primary) && PrimaryDecision(primary.value).Some?)
    requires 0 <= i < |types| && types[i] in AttractionTypes
    ensures MapGoogleTypeToOurType(primary, Some(types)) == "attraction"
  {
  }

  /** Without an attraction type in the list, the first type of the direct
      table decides, even when a food type is listed before it. */
  lemma FirstDirectTypeWins(primary: Option<string>, types: seq<string>, i: int)
    requires !(Truthy(primary) && PrimaryDecision(primary.value).Some?)
    requires forall j :: 0 <= j < |types| ==> types[j] !in AttractionTypes
    requires 0 <= i < |types| && types[i] in DirectMap
    requires forall j :: 0 <= j < i ==> types[j] !in DirectMap
    ensures MapGoogleTypeToOurType(primary, Some(types)) == DirectMap[types[i]]
  {
    var found := Seqs.Find((t: string) => t in DirectMap, types);
    var k :| 0 <= k < |types| && types[k] == found.value && forall j :: 0 <= j < k ==> !(types[j] in DirectMap);
    assert k == i;
  }

  /** Nothing to go on is an attraction; an empty primary type counts as
      none. */
  lemma NothingKnownIsAttraction(types: Option<seq<string>>)
    ensures MapGoogleTypeToOurType(None, None) == "attraction"
    ensures MapGoogleTypeToOurType(Some(""), types) == MapGoogleTypeToOurType(None, types)
  {
    assert !Strings.Contains("", "park") && !Strings.Contains("", "garden");
    assert !Strings.Contains("", "museum") && !Strings.Contains("", "attraction") && !Strings.Contains("", "landmark");
    assert !Strings.Contains("", "restaurant") && !Strings.Contains("", "food");
    assert !Strings.Contains("", "cafe") && !Strings.Contains("", "coffee");
  }

  /** The hints never produce a gas station or a convenience store: those
      come only from an exact type, as the primary type or in the list. */
  lemma ExactOnlyCategories(primary: Option<string>, types: Option<seq<string>>)
    ensures var r := MapGoogleTypeToOurType(primary, types);
      (r == "gas_station" ==> primary == Some("gas_station") || (types.Some? && "gas_station" in types.value))
      && (r == "convenience_store" ==> primary == Some("convenience_store") || (types.Some? && "convenience_store" in types.value))
  {
    var r := MapGoogleTypeToOurType(primary, types);
    if Truthy(primary) && PrimaryDecision(primary.value).Some? {
      if primary.value in DirectMap {
        DirectMapNamesCategories(primary.value);
      }
    } else if types.Some? && |types.value| > 0 && TypesDecision(types.value).Some? {
      var ts := types.value;
      if Seqs.Find((t: string) => t in AttractionTypes, ts).None? {
        var k := Seqs.Find((t: string) => t in DirectMap, ts);
        if k.Some? {
          DirectMapNamesCategories(k.value);
        }
      }
    }
  }

  // ---------------------------------------------------------------------
  // Price level

  /** The price levels Google reports, by value. */
  const LevelMap: map<string, int> := map[
    "PRICE_LEVEL_FREE" := 0,
    "PRICE_LEVEL_INEXPENSIVE" := 1,
    "PRICE_LEVEL_MODERATE" := 2,
    "PRICE_LEVEL_EXPENSIVE" := 3,
    "PRICE_LEVEL_VERY_EXPENSIVE" := 4]

  /** `mapPriceLevel`: one of the five names gives its level, anything else
      or nothing gives no level. */
  function MapPriceLevel(priceLevel: Option<string>): (r: Option<int>)
    ensures r.Some? <==> priceLevel.Some? && priceLevel.value in LevelMap
    ensures r.Some? ==> 0 <= r.value <= 4
  {
    if !Truthy(priceLevel) then None
    else if priceLevel.value in LevelMap then Some(LevelMap[priceLevel.value])
    else None
  }

  /** The name Google uses for a level from 0 to 4. */
  function PriceLevelName(n: int): string
    requires 0 <= n <= 4
  {
    if n == 0 then "PRICE_LEVEL_FREE"
    else if n == 1 then "PRICE_LEVEL_INEXPENSIVE"
    else if n == 2 then "PRICE_LEVEL_MODERATE"
    else if n == 3 then "PRICE_LEVEL_EXPENSIVE"
    else "PRICE_LEVEL_VERY_EXPENSIVE"
  }

  /** The table is a bijection between the five names and 0..4: each name
      gives its level, and a level comes only from its name. */
  lemma MapPriceLevelBijective(s: string, n: int)
    requires 0 <= n <= 4
    ensures MapPriceLevel(Some(PriceLevelName(n))) == Some(n)
    ensures MapPriceLevel(Some(s)) == Some(n) ==> s == PriceLevelName(n)
  {
  }

  // ---------------------------------------------------------------------
  // Requests and replies

  /** The body of a nearby search; a field the JSON leaves out is `None`. */
  datatype NearbyRequest = NearbyRequest(
    latitude: Option<real>,
    longitude: Option<real>,
    radius: Option<real>,
    types: Option<seq<string>>)

  /** A JavaScript number that is present and not zero. */
  predicate NumberTruthy(x: Option<real>) {
    x.Some? && x.value != 0.0
  }

  /** The validation of a nearby search: a zero coordinate or radius counts
      as missing, and so does an empty type list. */
  predicate Complete(b: NearbyRequest) {
    NumberTruthy(b.latitude) && NumberTruthy(b.longitude) && NumberTruthy(b.radius)
    && b.types.Some? && |b.types.value| > 0
  }

  /** The Google types to search for: each requested category's Google type,
      in order; a name that is not a category is dropped. */
  function IncludedTypes(types: seq<string>): (r: seq<string>)
    ensures |r| <= |types|
    ensures forall i :: 0 <= i < |r| ==> exists t :: GoogleTypeName(t) == r[i] && TypeName(t) in types
    ensures forall t :: TypeName(t) in types ==> GoogleTypeName(t) in r
  {
    var cats := ParseCategories(types);
    var r := Seqs.Map(GoogleTypeName, cats);
    assert forall i :: 0 <= i < |r| ==> GoogleTypeName(cats[i]) == r[i] && cats[i] in cats;
    assert forall t :: t in cats ==> GoogleTypeName(t) in r by {
      forall t | t in cats ensures GoogleTypeName(t) in r {
        var i :| 0 <= i < |cats| && cats[i] == t;
        assert r[i] == GoogleTypeName(t);
      }
    }
    r
  }

  /** Every category the client asks for is searched, in the order asked. */
  lemma IncludedTypesOfCategories(cats: seq<PoiType>)
    ensures IncludedTypes(CategoryNames(cats)) == Seqs.Map(GoogleTypeName, cats)
  {
    ParseCategoryNames(cats);
  }

  /** The search sent to Google Places. */
  datatype GoogleRequest = GoogleRequest(
    includedTypes: seq<string>,
    maxResultCount: int,
    languageCode: string,
    center: Coord,
    radius: real)

  /** A place as Google Places returns it; photos are not modelled. */
  datatype GooglePlace = GooglePlace(
    id: string,
    displayName: Option<string>,
    location: Option<Coord>,
    rating: Option<real>,
    userRatingCount: Option<int>,
    priceLevel: Option<string>,
    openNow: Option<bool>,
    formattedAddress: Option<string>,
    primaryType: Option<string>,
    types: Option<seq<string>>)

  /** Google's answer to a search: a failure status, a body that is not
      JSON or a fetch that throws (both end in the handler's catch-all), or
      a body whose `places` may be missing. */
  datatype Upstream = UpstreamFailed | UpstreamNotJson | UpstreamBody(places: Option<seq<GooglePlace>>)

  /** Google's answer to a details request: a failure status, a body that
      is not JSON or a fetch that throws, or the place. */
  datatype UpstreamPlace = PlaceFailed | PlaceNotJson | PlaceBody(place: GooglePlace)

  /** A place as the details handler sends it: the location and the rating
      fields are passed through as they came. */
  datatype DetailsPlace = DetailsPlace(
    id: string,
    name: string,
    placeType: string,
    location: Option<Coord>,
    rating: Option<real>,
    ratingCount: Option<int>,
    priceLevel: Option<int>,
    isOpen: Option<bool>,
    address: Option<string>)

  /** What a handler answers: an error object with its status, the list of
      places, or one place. */
  datatype Reply =
    | ErrorReply(status: int, error: string)
    | PlacesReply(places: seq<PlacesApi.PlaceResponse>)
    | PlaceReply(place: DetailsPlace)

  /** The name shown for a place. */
  function DisplayName(p: GooglePlace): string {
    if Truthy(p.displayName) then p.displayName.value else "Unknown"
  }

  /** The per-place transformation of a search result. */
  function TransformGooglePlace(p: GooglePlace): (r: PlacesApi.PlaceResponse)
    ensures r.id == p.id && r.name != "" && (Truthy(p.displayName) ==> r.name == p.displayName.value)
    ensures p.location.None? ==> r.location == Coord(0.0, 0.0)
    ensures p.location.Some? ==> r.location == p.location.value
    ensures r.rating == Some(p.rating.GetOr(0.0)) && r.ratingCount == Some(p.userRatingCount.GetOr(0))
    ensures r.priceLevel == MapPriceLevel(p.priceLevel) && r.isOpen == p.openNow && r.address == p.formattedAddress
    ensures ParseTypeName(r.placeType).Some?
  {
    PlacesApi.PlaceResponse(
      p.id, DisplayName(p), MapGoogleTypeToOurType(p.primaryType, p.types),
      p.location.GetOr(Coord(0.0, 0.0)),
      Some(p.rating.GetOr(0.0)), Some(p.userRatingCount.GetOr(0)),
      MapPriceLevel(p.priceLevel), p.openNow, p.formattedAddress, None)
  }

  /** The client keeps the category the proxy chose: its fallback to
      restaurant never fires on a proxied place, and the rating fields it
      defaults are always present. */
  lemma ClientKeepsProxyCategory(p: GooglePlace)
    ensures var r := TransformGooglePlace(p);
      var poi := PlacesApi.TransformPlace(r);
      TypeName(poi.poiType) == r.placeType
      && poi.rating == p.rating.GetOr(0.0) && poi.ratingCount == p.userRatingCount.GetOr(0)
  {
  }

  /** The search built from a complete request. */
  function SearchRequest(b: NearbyRequest): (g: GoogleRequest)
    requires Complete(b)
    ensures g.includedTypes == IncludedTypes(b.types.value)
    ensures g.maxResultCount == 20 && g.languageCode == "zh-TW"
    ensures g.center == Coord(b.latitude.value, b.longitude.value) && g.radius == b.radius.value
  {
    GoogleRequest(IncludedTypes(b.types.value), 20, "zh-TW",
                  Coord(b.latitude.value, b.longitude.value), b.radius.value)
  }

  /** The nearby-search handler. A body that is not JSON ends in the
      handler's catch-all. */
  function Nearby(body: Option<NearbyRequest>, apiKey: string, fetch: GoogleRequest -> Upstream): (reply: Reply)
    ensures body.None? ==> reply == ErrorReply(500, "Internal server error")
    ensures body.Some? && !Complete(body.value) ==> reply == ErrorReply(400, "Missing required fields")
    ensures body.Some? && Complete(body.value) && apiKey == "" ==> reply == ErrorReply(500, "API key not configured")
    ensures reply.PlacesReply? <==>
      body.Some? && Complete(body.value) && apiKey != "" && fetch(SearchRequest(body.value)).UpstreamBody?
    ensures reply == ErrorReply(502, "Failed to fetch places") <==>
      body.Some? && Complete(body.value) && apiKey != "" && fetch(SearchRequest(body.value)).UpstreamFailed?
    ensures body.Some? && Complete(body.value) && apiKey != "" && fetch(SearchRequest(body.value)).UpstreamNotJson? ==>
      reply == ErrorReply(500, "Internal server error")
    ensures reply.PlacesReply? ==>
      var places := fetch(SearchRequest(body.value)).places.GetOr([]);
      |reply.places| == |places|
      && forall i :: 0 <= i < |places| ==> reply.places[i] == TransformGooglePlace(places[i])
  {
    if body.None? then ErrorReply(500, "Internal server error")
    else if !Complete(body.value) then ErrorReply(400, "Missing required fields")
    else if apiKey == "" then ErrorReply(500, "API key not configured")
    else
      match fetch(SearchRequest(body.value))
      case UpstreamFailed => ErrorReply(502, "Failed to fetch places")
      case UpstreamNotJson => ErrorReply(500, "Internal server error")
      case UpstreamBody(places) => PlacesReply(Seqs.Map(TransformGooglePlace, places.GetOr([])))
  }

  /** Validation comes before the key check: a request missing a field is
      refused with 400 even when no key is configured, and a zero latitude
      is refused like a missing one. */
  lemma ValidationBeforeKey(b: NearbyRequest, fetch: GoogleRequest -> Upstream)
    ensures !Complete(b) ==> Nearby(Some(b), "", fetch).status == 400
    ensures Nearby(Some(b.(latitude := Some(0.0))), "key", fetch) == Nearby(Some(b.(latitude := None)), "key", fetch)
    ensures Nearby(Some(b.(types := Some([]))), "key", fetch).status == 400
  {
  }

  /** The place-details handler: the classification looks at the primary
      type only. */
  function Details(apiKey: string, placeId: string, fetch: string -> UpstreamPlace): (reply: Reply)
    ensures apiKey == "" ==> reply == ErrorReply(500, "API key not configured")
    ensures apiKey != "" && fetch(placeId).PlaceFailed? ==> reply == ErrorReply(404, "Place not found")
    ensures apiKey != "" && fetch(placeId).PlaceNotJson? ==> reply == ErrorReply(500, "Internal server error")
    ensures reply.PlaceReply? <==> apiKey != "" && fetch(placeId).PlaceBody?
    ensures reply.PlaceReply? ==>
      var p := fetch(placeId).place;
      && reply.place.id == p.id && reply.place.name == DisplayName(p)
      && reply.place.placeType == MapGoogleTypeToOurType(p.primaryType, None)
      && reply.place.location == p.location && reply.place.rating == p.rating
      && reply.place.ratingCount == p.userRatingCount && reply.place.priceLevel == MapPriceLevel(p.priceLevel)
      && reply.place.isOpen == p.openNow && reply.place.address == p.formattedAddress
  {
    if apiKey == "" then ErrorReply(500, "API key not configured")
    else
      match fetch(placeId)
      case PlaceFailed => ErrorReply(404, "Place not found")
      case PlaceNotJson => ErrorReply(500, "Internal server error")
      case PlaceBody(p) =>
        PlaceReply(DetailsPlace(p.id, DisplayName(p), MapGoogleTypeToOurType(p.primaryType, None),
                                p.location, p.rating, p.userRatingCount, MapPriceLevel(p.priceLevel),
                                p.openNow, p.formattedAddress))
  }

  // ---------------------------------------------------------------------
  // CORS

  /** The headers granted to an allowed origin; the origin is echoed back. */
  datatype CorsHeaders = CorsHeaders(allowOrigin: string, allowMethods: string, allowHeaders: string)

  /** The allowed origins: the configured list split on commas, or none. */
  function AllowedOrigins(configured: Option<string>): seq<string> {
    if configured.Some? then Strings.Split(configured.value, ',') else []
  }

  /** The CORS decision for a request's `Origin` (empty when absent). */
  function CorsDecision(configured: Option<string>, origin: string): (h: Option<CorsHeaders>)
    ensures h.Some? <==> origin in AllowedOrigins(configured) || "*" in AllowedOrigins(configured)
    ensures h.Some? ==> h.value.allowOrigin == origin
  {
    var allowed := AllowedOrigins(configured);
    if origin in allowed || "*" in allowed
    then Some(CorsHeaders(origin, "GET, POST, OPTIONS", "Content-Type"))
    else None
  }

  /** What the middleware does: answer a preflight at once with 204, or let
      the request through with the headers attached. */
  datatype CorsOutcome = Preflight(status: int, headers: Option<CorsHeaders>) | PassOn(headers: Option<CorsHeaders>)

  function CorsMiddleware(configured: Option<string>, origin: string, httpMethod: string): (o: CorsOutcome)
    ensures o.Preflight? <==> httpMethod == "OPTIONS"
    ensures o.Preflight? ==> o.status == 204
    ensures o.headers == CorsDecision(configured, origin)
  {
    if httpMethod == "OPTIONS" then Preflight(204, CorsDecision(configured, origin))
    else PassOn(CorsDecision(configured, origin))
  }

  /** With a single configured origin the decision is an exact match or the
      wildcard; listing several allows each of them; with nothing configured
      no origin is allowed. */
  lemma CorsAllowList(single: string, a: string, b: string, origin: string)
    requires ',' !in single && ',' !in a
    ensures CorsDecision(Some(single), origin).Some? <==> origin == single || single == "*"
    ensures CorsDecision(Some(a + [','] + b), a).Some?
    ensures CorsDecision(None, origin).None?
  {
    Strings.SplitWithoutSeparator(single, ',');
    Strings.SplitAtSeparator(a, b, ',');
  }
}
