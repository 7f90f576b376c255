/** The search hook (src/hooks/usePOI.tsx): the guarded search action with
    its effects on the POI state and the quota, the lookup by id, and the
    effect that searches again after the traveller has moved far enough.

    The search itself is still a placeholder in the hook (a fixed radius, no
    call to the search service), and that is what is modelled. The hook's
    state is the POI state, the quota ledger and `lastSearchPositionRef`;
    the current position is an input, the distance formula a parameter. */
module UsePoi {
  import opened Optional
  import opened PoiModel
  import opened Interfaces
  import Seqs
  import QuotaStore
  import PoiStore

  /** `SEARCH_DISTANCE_THRESHOLD`, in meters. */
  const SearchDistanceThreshold: real := 100.0
  /** `SEARCH_CONFIG.initialRadius`, the radius every search uses. */
  const InitialRadius: real := 1000.0

  /** The error shown when there is no position yet ("location unavailable"). */
  const NoPositionMessage: string := "無法取得位置資訊"
  /** The error shown when today's searches are used up ("daily search limit
      reached"). */
  const QuotaMessage: string := "今日搜尋次數已達上限"

  datatype Hook = Hook(poi: PoiStore.State, quota: UsageQuota, lastSearchRef: Option<Coord>)

  /** The two store writes that open a search, in the order the hook makes
      them: mark searching, then clear the error. */
  function SearchStartAsWritten(s: PoiStore.State): PoiStore.State {
    PoiStore.SetSearchError(PoiStore.SetSearching(s, true), None)
  }

  /** Clearing the error resets the searching flag, so while the search is
      under way the state says it is not searching. */
  lemma SearchStartAsWrittenIsNotSearching(s: PoiStore.State)
    ensures !SearchStartAsWritten(s).isSearching
    ensures SearchStartAsWritten(s).searchError.None?
  {
  }

  /** The same two writes with the error cleared first: the flag stays set
      for the duration of the search. */
  function SearchStartCorrected(s: PoiStore.State): (r: PoiStore.State)
    ensures r.isSearching && r.searchError.None?
    ensures r.(isSearching := s.isSearching, searchError := s.searchError) == s
  {
    PoiStore.SetSearching(PoiStore.SetSearchError(s, None), true)
  }

  /** The writes a successful search makes after its wait, ending with the
      `finally` that clears the flag. */
  function SearchFinish(h: Hook, position: GeoPosition): Hook {
    var s1 := PoiStore.SetSearchRadius(h.poi, InitialRadius);
    var s2 := PoiStore.SetSuggestedZoom(s1, Some(GetZoomForRadius(InitialRadius)));
    var s3 := PoiStore.SetLastSearchPosition(s2, position.latitude, position.longitude);
    Hook(PoiStore.SetSearching(s3, false), QuotaStore.IncrementSearchCount(h.quota), Some(position.Coordinates()))
  }

  /** The state while the search waits, with the corrected opening. */
  function SearchInProgress(h: Hook, position: Option<GeoPosition>): Hook {
    if position.None? then h.(poi := PoiStore.SetSearchError(h.poi, Some(NoPositionMessage)))
    else if QuotaStore.IsSearchExceeded(h.quota) then h.(poi := PoiStore.SetSearchError(h.poi, Some(QuotaMessage)))
    else h.(poi := SearchStartCorrected(h.poi))
  }

  /** `searchNearby`, run to completion: no position or no searches left
      records the error and does nothing else; otherwise the search records
      its radius, zoom and position and is counted once. The waiting state
      is built with the corrected opening (`SearchInProgress`); the end state
      is the same as with the opening as written, by
      `OpeningOrderInvisibleAtEnd`. */
  function SearchNearby(h: Hook, position: Option<GeoPosition>): Hook {
    var started := SearchInProgress(h, position);
    if position.None? || QuotaStore.IsSearchExceeded(h.quota) then started
    else SearchFinish(started, position.value)
  }

  /** Whichever opening is used, the completed search ends in the same
      state: the flaw is visible only while the search is under way. */
  lemma OpeningOrderInvisibleAtEnd(h: Hook, position: GeoPosition)
    ensures SearchFinish(h.(poi := SearchStartAsWritten(h.poi)), position)
         == SearchFinish(h.(poi := SearchStartCorrected(h.poi)), position)
  {
  }

  /** Without a position the error is set and the search stops: the count,
      the reference position and the results are untouched. */
  lemma SearchWithoutPosition(h: Hook)
    ensures var r := SearchNearby(h, None);
      r.poi.searchError == Some(NoPositionMessage) && !r.poi.isSearching
      && r.quota == h.quota && r.lastSearchRef == h.lastSearchRef && r.poi.pois == h.poi.pois
  {
  }

  /** With the day's searches used up the error is set and nothing is
      counted. */
  lemma SearchWhenExceeded(h: Hook, position: GeoPosition)
    requires QuotaStore.IsSearchExceeded(h.quota)
    ensures var r := SearchNearby(h, Some(position));
      r.poi.searchError == Some(QuotaMessage) && !r.poi.isSearching
      && r.quota == h.quota && r.lastSearchRef == h.lastSearchRef
  {
  }

  /** A search that passes the guards counts exactly one search, remembers
      the position, and sets the radius to 1000 m with its zoom (15); the
      results and the filter are not touched. */
  lemma SearchSucceeds(h: Hook, position: GeoPosition)
    requires !QuotaStore.IsSearchExceeded(h.quota)
    ensures var r := SearchNearby(h, Some(position));
      && r.quota.searchCount == h.quota.searchCount + 1
      && r.quota.(searchCount := h.quota.searchCount) == h.quota
      && r.lastSearchRef == Some(Coord(position.latitude, position.longitude))
      && r.poi.lastSearchPosition == r.lastSearchRef
      && r.poi.searchRadius == 1000.0 && r.poi.suggestedZoom == Some(15)
      && r.poi.searchError.None? && r.poi.pois == h.poi.pois && r.poi.filter == h.poi.filter
  {
    ZoomBands(InitialRadius);
  }

  /** Every search ends with the flag cleared. */
  lemma SearchEndsNotSearching(h: Hook, position: Option<GeoPosition>)
    ensures !SearchNearby(h, position).poi.isSearching
  {
  }

  /** The auto-search guard: a position, no search under way, a previous
      search, and more than 100 m from where it was made. */
  predicate ShouldAutoSearch(h: Hook, position: Option<GeoPosition>, distance: DistanceFn) {
    && position.Some?
    && !h.poi.isSearching
    && h.lastSearchRef.Some?
    && distance(h.lastSearchRef.value, position.value.Coordinates()) > SearchDistanceThreshold
  }

  /** The auto-search effect. */
  function AutoSearchEffect(h: Hook, position: Option<GeoPosition>, distance: DistanceFn): Hook {
    if ShouldAutoSearch(h, position, distance) then SearchNearby(h, position) else h
  }

  /** The first search is never started by the effect, nor is one while a
      search is under way, nor one within 100 m (inclusive) of the last; a
      search is counted exactly when the guard holds and searches are left. */
  lemma AutoSearchGuards(h: Hook, position: Option<GeoPosition>, distance: DistanceFn)
    ensures h.lastSearchRef.None? ==> AutoSearchEffect(h, position, distance) == h
    ensures h.poi.isSearching ==> AutoSearchEffect(h, position, distance) == h
    ensures (position.Some? && h.lastSearchRef.Some?
             && distance(h.lastSearchRef.value, position.value.Coordinates()) <= 100.0)
            ==> AutoSearchEffect(h, position, distance) == h
    ensures AutoSearchEffect(h, position, distance).quota.searchCount != h.quota.searchCount
            <==> ShouldAutoSearch(h, position, distance) && !QuotaStore.IsSearchExceeded(h.quota)
  {
  }

  /** With the writes in their written order, a new position arriving while
      a search waits starts a second search: here the traveller is 150 m
      from the last search, the first search is under way, and the effect
      fires again and counts another search. With the corrected opening it
      does not fire. */
  lemma ReentryDuringSearch(h: Hook, position: GeoPosition)
    requires h.lastSearchRef.Some? && !QuotaStore.IsSearchExceeded(h.quota)
    ensures var far := (a: Coord, b: Coord) => 150.0;
      var waitingAsWritten := h.(poi := SearchStartAsWritten(h.poi));
      var waitingCorrected := SearchInProgress(h, Some(position));
      && ShouldAutoSearch(waitingAsWritten, Some(position), far)
      && AutoSearchEffect(waitingAsWritten, Some(position), far).quota.searchCount == h.quota.searchCount + 1
      && !ShouldAutoSearch(waitingCorrected, Some(position), far)
      && AutoSearchEffect(waitingCorrected, Some(position), far) == waitingCorrected
  {
  }

  /** `getPOIById`: the first POI with the id among the current results. */
  function GetPoiById(h: Hook, id: string): (r: Option<Poi>)
    ensures r.Some? ==> r.value.id == id && r.value in h.poi.pois
    ensures r.None? <==> forall i :: 0 <= i < |h.poi.pois| ==> h.poi.pois[i].id != id
    ensures r.Some? ==> exists i :: 0 <= i < |h.poi.pois| && h.poi.pois[i] == r.value
                                   && forall j :: 0 <= j < i ==> h.poi.pois[j].id != id
  {
    var r := Seqs.Find((p: Poi) => p.id == id, h.poi.pois);
    assert r.Some? ==> r.value in h.poi.pois;
    r
  }
}
