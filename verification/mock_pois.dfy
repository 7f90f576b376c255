/** The development data set (src/mocks/pois.ts): ten POIs around central
    Taipei and the two filters over them. */
module MockPois {
  import opened Optional
  import opened PoiModel
  import opened FilterModel
  import Seqs
  import FilteredPois

  /** `MOCK_POIS`. */
  const MockPois: seq<Poi> := [
    Poi("mock-1", "阿宗麵線", Restaurant, Coord(25.0421, 121.5654), 850.0, 4.6, 2341, Some(2), Some(true), Some("台北市萬華區西門町"), None),
    Poi("mock-2", "鼎泰豐 (信義店)", Restaurant, Coord(25.0330, 121.5654), 1200.0, 4.8, 15234, Some(3), Some(true), Some("台北市信義區松高路"), None),
    Poi("mock-3", "Starbucks 星巴克", Cafe, Coord(25.0350, 121.5680), 450.0, 4.2, 892, Some(2), Some(true), Some("台北市信義區"), None),
    Poi("mock-4", "路易莎咖啡", Cafe, Coord(25.0380, 121.5620), 620.0, 4.3, 456, Some(1), Some(true), Some("台北市中正區"), None),
    Poi("mock-5", "台北101觀景台", Attraction, Coord(25.0339, 121.5645), 980.0, 4.7, 45678, None, Some(true), Some("台北市信義區信義路五段7號"), None),
    Poi("mock-6", "國立故宮博物院", Attraction, Coord(25.1024, 121.5485), 8500.0, 4.6, 32456, None, Some(true), Some("台北市士林區至善路二段221號"), None),
    Poi("mock-7", "台北W飯店", Hotel, Coord(25.0360, 121.5650), 750.0, 4.5, 3456, Some(4), Some(true), Some("台北市信義區忠孝東路五段10號"), None),
    Poi("mock-8", "中油加油站", GasStation, Coord(25.0400, 121.5700), 520.0, 4.0, 234, None, Some(true), Some("台北市信義區"), None),
    Poi("mock-9", "7-ELEVEN 統一超商", ConvenienceStore, Coord(25.0370, 121.5640), 180.0, 4.1, 567, None, Some(true), Some("台北市信義區"), None),
    Poi("mock-10", "永康牛肉麵", Restaurant, Coord(25.0328, 121.5296), 3200.0, 4.5, 8976, Some(2), Some(false), Some("台北市大安區永康街"), None)]

  /** No two mock POIs share an id. */
  lemma MockIdsDistinct()
    ensures |MockPois| == 10
    ensures forall i, j :: 0 <= i < j < |MockPois| ==> MockPois[i].id != MockPois[j].id
  {
  }

  /** The test of `filterMockPOIsByCategories`, over any list. */
  function ByCategories(pois: seq<Poi>, categories: seq<string>): seq<Poi> {
    Seqs.Filter((p: Poi) => TypeName(p.poiType) in categories, pois)
  }

  /** The test of `filterMockPOIsByRating`, over any list; the minimum itself
      passes. */
  function ByRating(pois: seq<Poi>, minRating: real): seq<Poi> {
    Seqs.Filter((p: Poi) => p.rating >= minRating, pois)
  }

  /** `filterMockPOIsByCategories`. */
  function FilterByCategories(categories: seq<string>): seq<Poi> {
    ByCategories(MockPois, categories)
  }

  /** `filterMockPOIsByRating`. */
  function FilterByRating(minRating: real): seq<Poi> {
    ByRating(MockPois, minRating)
  }

  /** Each filter keeps exactly the POIs that pass its test, in their
      original order. */
  lemma FiltersExactly(pois: seq<Poi>, categories: seq<string>, minRating: real, p: Poi)
    ensures p in ByCategories(pois, categories) <==> p in pois && TypeName(p.poiType) in categories
    ensures p in ByRating(pois, minRating) <==> p in pois && p.rating >= minRating
    ensures Seqs.IsSubsequence(ByCategories(pois, categories), pois)
    ensures Seqs.IsSubsequence(ByRating(pois, minRating), pois)
  {
    Seqs.FilterMembership((q: Poi) => TypeName(q.poiType) in categories, pois, p);
    Seqs.FilterMembership((q: Poi) => q.rating >= minRating, pois, p);
    Seqs.FilterIsSubsequence((q: Poi) => TypeName(q.poiType) in categories, pois);
    Seqs.FilterIsSubsequence((q: Poi) => q.rating >= minRating, pois);
  }

  /** Every POI is of one of the six categories, so asking for all six
      returns the whole list; with no minimum above every rating, the
      rating filter returns it too. */
  lemma AllCategoriesReturnsAll(pois: seq<Poi>, minRating: real)
    requires forall i :: 0 <= i < |pois| ==> pois[i].rating >= minRating
    ensures ByCategories(pois, CategoryNames(AllCategories)) == pois
    ensures ByRating(pois, minRating) == pois
  {
    TiersPartitionCategories();
    forall i | 0 <= i < |pois|
      ensures TypeName(pois[i].poiType) in CategoryNames(AllCategories)
    {
      CategoryNamesMembership(AllCategories, pois[i].poiType);
    }
    Seqs.FilterKeepsAll((q: Poi) => TypeName(q.poiType) in CategoryNames(AllCategories), pois);
    Seqs.FilterKeepsAll((q: Poi) => q.rating >= minRating, pois);
  }

  /** The category filter agrees with the filtered-results hook when the
      hook's rating and open-now checks are off. */
  lemma CategoryFilterMatchesHook(pois: seq<Poi>, cats: seq<PoiType>)
    ensures ByCategories(pois, CategoryNames(cats)) == FilteredPois.FilteredPois(pois, Filter(cats, 0.0, false))
  {
    var f := Filter(cats, 0.0, false);
    forall i | 0 <= i < |pois|
      ensures (TypeName(pois[i].poiType) in CategoryNames(cats)) == FilteredPois.Keep(f, pois[i])
    {
      CategoryNamesMembership(cats, pois[i].poiType);
    }
    Seqs.FilterCongruent((q: Poi) => TypeName(q.poiType) in CategoryNames(cats), (q: Poi) => FilteredPois.Keep(f, q), pois);
  }
}
