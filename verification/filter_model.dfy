/** The POI filter and the category tiers (src/core/models/filter.ts). */
module FilterModel {
  import opened PoiModel

  /** `POIFilter`. */
  datatype Filter = Filter(categories: seq<PoiType>, minRating: real, openNow: bool)

  /** `FREE_TIER_CATEGORIES`. */
  const FreeTierCategories: seq<PoiType> := [Restaurant, Cafe, Attraction]

  /** `PREMIUM_CATEGORIES`. */
  const PremiumCategories: seq<PoiType> := [Hotel, GasStation, ConvenienceStore]

  /** `ALL_CATEGORIES`: the free tier followed by the premium tier. */
  const AllCategories: seq<PoiType> := FreeTierCategories + PremiumCategories

  /** `DEFAULT_FILTER`: the free tier, at least 4 stars, open or closed. */
  const DefaultFilter: Filter := Filter(FreeTierCategories, 4.0, false)

  /** No category is listed twice. */
  predicate NoDuplicates(s: seq<PoiType>) {
    forall i, j :: 0 <= i < j < |s| ==> s[i] != s[j]
  }

  /** The two tiers split the six categories: disjoint, duplicate-free, and
      together every category. */
  lemma TiersPartitionCategories()
    ensures forall t :: !(t in FreeTierCategories && t in PremiumCategories)
    ensures forall t :: t in FreeTierCategories || t in PremiumCategories
    ensures NoDuplicates(AllCategories) && |AllCategories| == 6
    ensures forall t :: t in AllCategories
  {
    forall t: PoiType ensures t in FreeTierCategories || t in PremiumCategories {
      match t
      case Restaurant => assert FreeTierCategories[0] == t;
      case Cafe => assert FreeTierCategories[1] == t;
      case Attraction => assert FreeTierCategories[2] == t;
      case Hotel => assert PremiumCategories[0] == t;
      case GasStation => assert PremiumCategories[1] == t;
      case ConvenienceStore => assert PremiumCategories[2] == t;
    }
  }

  /** The default filter shows the free tier, at least 4 stars, open or not. */
  lemma DefaultFilterIsFreeTier()
    ensures |DefaultFilter.categories| > 0
    ensures forall t :: t in DefaultFilter.categories ==> t in FreeTierCategories && t !in PremiumCategories
    ensures DefaultFilter.minRating == 4.0 && !DefaultFilter.openNow
  {
  }
}
