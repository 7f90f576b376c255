/** The filtered result list (src/hooks/useFilteredPOIs.ts): the current
    POIs that pass the category, rating and open-now checks of the active
    filter, in their original order. */
module FilteredPois {
  import opened Optional
  import opened PoiModel
  import opened FilterModel
  import Seqs

  /** The category check. */
  predicate InCategories(f: Filter, p: Poi) {
    p.poiType in f.categories
  }

  /** The rating check; a minimum of zero or less disables it. */
  predicate MeetsRating(f: Filter, p: Poi) {
    !(f.minRating > 0.0 && p.rating < f.minRating)
  }

  /** The open-now check; only a POI known to be closed fails it. */
  predicate MeetsOpenNow(f: Filter, p: Poi) {
    !(f.openNow && p.isOpen == Some(false))
  }

  /** The predicate passed to `filter`. */
  predicate Keep(f: Filter, p: Poi) {
    InCategories(f, p) && MeetsRating(f, p) && MeetsOpenNow(f, p)
  }

  /** `useFilteredPOIs`. */
  function FilteredPois(pois: seq<Poi>, f: Filter): seq<Poi> {
    Seqs.Filter((p: Poi) => Keep(f, p), pois)
  }

  /** A POI is in the result exactly when it is among the POIs and passes
      all three checks, and the result keeps the original order. */
  lemma FilteredPoisExactly(pois: seq<Poi>, f: Filter, p: Poi)
    ensures p in FilteredPois(pois, f) <==> p in pois && Keep(f, p)
    ensures Seqs.IsSubsequence(FilteredPois(pois, f), pois)
  {
    Seqs.FilterMembership((q: Poi) => Keep(f, q), pois, p);
    Seqs.FilterIsSubsequence((q: Poi) => Keep(f, q), pois);
  }

  /** What each check means for the result: every kept POI is of a listed
      category, meets a positive minimum rating, and is not known to be
      closed when open-now is set. */
  lemma FilteredPoisChecks(pois: seq<Poi>, f: Filter)
    ensures forall i :: 0 <= i < |FilteredPois(pois, f)| ==> FilteredPois(pois, f)[i].poiType in f.categories
    ensures f.minRating > 0.0 ==>
      forall i :: 0 <= i < |FilteredPois(pois, f)| ==> FilteredPois(pois, f)[i].rating >= f.minRating
    ensures f.openNow ==>
      forall i :: 0 <= i < |FilteredPois(pois, f)| ==> FilteredPois(pois, f)[i].isOpen != Some(false)
  {
  }

  /** With no categories nothing is shown; with a non-positive minimum the
      rating plays no part; a POI of unknown opening state is never dropped
      by open-now. */
  lemma FilterEdgeCases(pois: seq<Poi>, f: Filter, p: Poi)
    ensures f.categories == [] ==> FilteredPois(pois, f) == []
    ensures f.minRating <= 0.0 ==> (Keep(f, p) <==> InCategories(f, p) && MeetsOpenNow(f, p))
    ensures p.isOpen.None? ==> MeetsOpenNow(f, p)
  {
    if f.categories == [] {
      Seqs.FilterKeepsNone((q: Poi) => Keep(f, q), pois);
    }
  }

  /** Filtering the filtered list again changes nothing. */
  lemma FilteredPoisIdempotent(pois: seq<Poi>, f: Filter)
    ensures FilteredPois(FilteredPois(pois, f), f) == FilteredPois(pois, f)
  {
    Seqs.FilterIdempotent((p: Poi) => Keep(f, p), pois);
  }
}
